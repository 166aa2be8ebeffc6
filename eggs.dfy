/** Eggs the duck throws: each flies horizontally and is destroyed by the
    first block or bee it touches, taking the bee with it, or when it
    leaves the view by more than a margin. */
module Eggs {
  import opened Geometry
  import opened Lists

  /** An egg is a 10 by 10 box. */
  const EGG_SIZE: real := 10.0
  /** Eggs further than this outside the view are dropped. */
  const EGG_MARGIN: real := 50.0

  /** An egg: position and signed horizontal speed. */
  datatype Egg = Egg(x: real, y: real, dx: real)

  function EggRect(e: Egg): Rect
  {
    Rect(e.x, e.y, EGG_SIZE, EGG_SIZE)
  }

  /** An egg after one tick of flight. */
  function Fly(e: Egg): Egg
  {
    e.(x := e.x + e.dx)
  }

  predicate EggOffScreen(e: Egg, cameraX: real)
  {
    e.x < cameraX - EGG_MARGIN || e.x > cameraX + WIDTH + EGG_MARGIN
  }

  predicate HitsBlock(r: Rect, blocks: seq<Rect>)
  {
    exists b :: b in blocks && IsColliding(r, b)
  }

  /** The index of the bee an egg destroys: the last bee in the list that
      it touches, or -1 when it touches none. */
  function LastHit(r: Rect, bees: seq<Rect>): (j: int)
    ensures -1 <= j < |bees|
    ensures j >= 0 ==> IsColliding(r, bees[j])
    ensures forall k :: j < k < |bees| ==> !IsColliding(r, bees[k])
    decreases |bees|
  {
    if |bees| == 0 then -1
    else if IsColliding(r, bees[|bees| - 1]) then |bees| - 1
    else LastHit(r, bees[..|bees| - 1])
  }

  /** The block test of an egg: a loop over the blocks that stops at the
      first one touched. */
  method HitsAnyBlock(r: Rect, blocks: seq<Rect>) returns (hit: bool)
    ensures hit == HitsBlock(r, blocks)
  {
    hit := false;
    for k := 0 to |blocks|
      invariant !hit ==> forall m :: 0 <= m < k ==> !IsColliding(r, blocks[m])
      invariant hit ==> HitsBlock(r, blocks)
    {
      if IsColliding(r, blocks[k]) {
        hit := true;
        break;
      }
    }
  }

  /** The bee test of an egg: a loop from the last bee down that stops at
      the first one touched. */
  method FindHitBee(r: Rect, bees: seq<Rect>) returns (j: int)
    ensures j == LastHit(r, bees)
  {
    j := |bees| - 1;
    assert bees[..|bees|] == bees;
    while j >= 0
      invariant -1 <= j < |bees|
      invariant LastHit(r, bees) == LastHit(r, bees[..j + 1])
      decreases j
    {
      if IsColliding(r, bees[j]) {
        return;
      }
      assert bees[..j + 1][..j] == bees[..j];
      j := j - 1;
    }
  }

  /** The eggs kept and the bees left so far. */
  datatype EggSweep = EggSweep(kept: seq<Egg>, bees: seq<Rect>)

  /** Visiting one (already flown) egg in front of `kept`: removed on a
      block; else removed with the last bee it touches; else removed when
      off screen; else kept. */
  function EggStep(egg: Egg, s: EggSweep, blocks: seq<Rect>, cameraX: real): EggSweep
  {
    if HitsBlock(EggRect(egg), blocks) then s
    else
      var j := LastHit(EggRect(egg), s.bees);
      if j >= 0 then EggSweep(s.kept, Splice(s.bees, j))
      else if EggOffScreen(egg, cameraX) then s
      else EggSweep([egg] + s.kept, s.bees)
  }

  /** The egg pass, from the last egg down. */
  function SweepEggs(pending: seq<Egg>, s: EggSweep, blocks: seq<Rect>, cameraX: real): EggSweep
    decreases |pending|
  {
    if |pending| == 0 then s
    else
      var n := |pending| - 1;
      SweepEggs(pending[..n], EggStep(Fly(pending[n]), s, blocks, cameraX), blocks, cameraX)
  }

  /** An egg worth keeping: clear of every block and every bee, and in
      view. */
  predicate Flying(e: Egg, bees: seq<Rect>, blocks: seq<Rect>, cameraX: real)
  {
    !HitsBlock(EggRect(e), blocks) && LastHit(EggRect(e), bees) < 0 && !EggOffScreen(e, cameraX)
  }

  /** One step: bees are only removed, at most one, and only if the egg is
      not kept; an egg is kept exactly when it is flying. */
  lemma EggStepFacts(egg: Egg, s: EggSweep, blocks: seq<Rect>, cameraX: real)
    ensures var r := EggStep(egg, s, blocks, cameraX);
            multiset(r.bees) <= multiset(s.bees) &&
            (r.kept == [egg] + s.kept) == Flying(egg, s.bees, blocks, cameraX) &&
            (r.kept != [egg] + s.kept ==> r.kept == s.kept) &&
            (r.kept == [egg] + s.kept ==> r.bees == s.bees) &&
            |r.bees| >= |s.bees| - 1
  {
    var j := LastHit(EggRect(egg), s.bees);
    if !HitsBlock(EggRect(egg), blocks) && j >= 0 {
      SpliceMultiset(s.bees, j);
    }
  }

  /** The pass removes bees only: it never adds or duplicates one. */
  lemma {:induction false} EggSweepOnlyRemovesBees(pending: seq<Egg>, s: EggSweep, blocks: seq<Rect>, cameraX: real)
    ensures multiset(SweepEggs(pending, s, blocks, cameraX).bees) <= multiset(s.bees)
    decreases |pending|
  {
    if |pending| > 0 {
      var n := |pending| - 1;
      var egg := Fly(pending[n]);
      EggStepFacts(egg, s, blocks, cameraX);
      EggSweepOnlyRemovesBees(pending[..n], EggStep(egg, s, blocks, cameraX), blocks, cameraX);
    }
  }

  /** Each egg destroys at most one bee, and an egg kept destroys none; the
      eggs kept go in front of those kept before, and every one of them is
      clear of the blocks and in view. */
  lemma {:induction false} EggSweepKeepsFlyingEggs(pending: seq<Egg>, s: EggSweep, blocks: seq<Rect>, cameraX: real)
    ensures var r := SweepEggs(pending, s, blocks, cameraX);
            |s.bees| - |r.bees| <= |pending| - (|r.kept| - |s.kept|) &&
            |r.kept| >= |s.kept| && r.kept[|r.kept| - |s.kept|..] == s.kept &&
            forall i :: 0 <= i < |r.kept| - |s.kept| ==>
              !HitsBlock(EggRect(r.kept[i]), blocks) && !EggOffScreen(r.kept[i], cameraX)
    decreases |pending|
  {
    if |pending| > 0 {
      var n := |pending| - 1;
      var egg := Fly(pending[n]);
      var s' := EggStep(egg, s, blocks, cameraX);
      EggStepFacts(egg, s, blocks, cameraX);
      EggSweepKeepsFlyingEggs(pending[..n], s', blocks, cameraX);
      var r := SweepEggs(pending[..n], s', blocks, cameraX);
      if s'.kept == [egg] + s.kept {
        var m := |r.kept| - |s.kept|;
        assert r.kept[m - 1..] == [egg] + s.kept;
        assert r.kept[m - 1] == egg;
        assert r.kept[m..] == r.kept[m - 1..][1..];
      }
    }
  }

  /** Two eggs thrown into the same single bee: the bee is destroyed once,
      by the egg visited first (the later one in the list); the other egg
      then touches nothing and flies on. */
  lemma TwoEggsOneBee()
    ensures var bee := Rect(300.0, 200.0, 40.0, 40.0);
            var e := Egg(292.0, 210.0, 8.0);
            var r := SweepEggs([e, e], EggSweep([], [bee]), [], 0.0);
            r.bees == [] && r.kept == [Fly(e)]
  {
    var bee := Rect(300.0, 200.0, 40.0, 40.0);
    var e := Egg(292.0, 210.0, 8.0);
    var flown := Fly(e);
    assert !HitsBlock(EggRect(flown), []);
    assert IsColliding(EggRect(flown), bee);
    assert LastHit(EggRect(flown), [bee]) == 0;
    assert Splice([bee], 0) == [];
    var first := EggStep(flown, EggSweep([], [bee]), [], 0.0);
    assert first == EggSweep([], []);
    assert [e, e][..1] == [e];
    assert SweepEggs([e, e], EggSweep([], [bee]), [], 0.0) == SweepEggs([e], first, [], 0.0);
    assert LastHit(EggRect(flown), []) == -1;
    assert !EggOffScreen(flown, 0.0);
    var second := EggStep(flown, first, [], 0.0);
    assert second == EggSweep([flown], []);
    assert [e][..0] == [];
    assert SweepEggs([e], first, [], 0.0) == SweepEggs([], second, [], 0.0);
  }

  /** The egg pass of one tick as the game's loop runs it, from the last
      index down, splicing eggs and bees in place. */
  method UpdateEggs(eggs: seq<Egg>, bees: seq<Rect>, blocks: seq<Rect>, cameraX: real)
    returns (eggsLeft: seq<Egg>, beesLeft: seq<Rect>)
    ensures SweepEggs(eggs, EggSweep([], bees), blocks, cameraX) == EggSweep(eggsLeft, beesLeft)
  {
    var list := eggs;
    beesLeft := bees;
    ghost var kept: seq<Egg> := [];
    assert eggs[..|eggs|] == eggs;
    var i := |list| - 1;
    while i >= 0
      invariant -1 <= i < |eggs|
      invariant list == eggs[..i + 1] + kept
      invariant SweepEggs(eggs[..i + 1], EggSweep(kept, beesLeft), blocks, cameraX) ==
                SweepEggs(eggs, EggSweep([], bees), blocks, cameraX)
      decreases i
    {
      assert list[i] == eggs[i];
      var egg := Fly(list[i]);
      ghost var before := EggSweep(kept, beesLeft);
      list := list[i := egg];
      assert list == eggs[..i] + [egg] + kept;
      SpliceRemoves(eggs[..i], egg, kept);
      var eggRect := EggRect(egg);
      var removed := HitsAnyBlock(eggRect, blocks);
      if removed {
        list := Splice(list, i);
      } else {
        var j := FindHitBee(eggRect, beesLeft);
        if j >= 0 {
          beesLeft := Splice(beesLeft, j);
          list := Splice(list, i);
          removed := true;
        } else if egg.x < cameraX - EGG_MARGIN || egg.x > cameraX + WIDTH + EGG_MARGIN {
          list := Splice(list, i);
          removed := true;
        }
      }
      kept := if removed then kept else [egg] + kept;
      assert EggStep(egg, before, blocks, cameraX) == EggSweep(kept, beesLeft);
      assert eggs[..i + 1][..i] == eggs[..i];
      i := i - 1;
    }
    eggsLeft := list;
  }
}
