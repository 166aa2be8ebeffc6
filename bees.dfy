/** The bee pass of a tick: every bee drifts left, a bee that touches the
    player costs a life and is removed, and a bee past the left edge of the
    view is removed. */
module Bees {
  import opened Geometry
  import opened Lists

  /** Bees drift left by 3 per tick. */
  const BEE_SPEED: real := 3.0

  /** A bee after one tick of drift. */
  function Drift(b: Rect): Rect
  {
    b.(x := b.x - BEE_SPEED)
  }

  /** A bee entirely to the left of the view. */
  predicate OffLeft(b: Rect, cameraX: real)
  {
    b.x + b.width < cameraX
  }

  /** The list from the visited index on, after visiting an (already
      drifted) bee in front of `kept`: a bee touching the player is spliced
      out; then the same index is spliced again if the bee is off the left
      of the view, which removes the bee itself when it is still there and
      the next kept bee when it was already removed. */
  function BeeStep(bee: Rect, kept: seq<Rect>, player: Rect, cameraX: real): seq<Rect>
  {
    var afterHit := if IsColliding(player, bee) then kept else [bee] + kept;
    if OffLeft(bee, cameraX) then DropFirst(afterHit) else afterHit
  }

  /** The bees kept so far and the player hits counted so far. */
  datatype BeeSweep = BeeSweep(kept: seq<Rect>, hits: nat)

  /** The bee pass as the game runs it: `pending` are the bees not yet
      visited (the last one is next), `kept` the list from the visited
      index on. */
  function SweepBees(pending: seq<Rect>, kept: seq<Rect>, hits: nat, player: Rect, cameraX: real): BeeSweep
    decreases |pending|
  {
    if |pending| == 0 then BeeSweep(kept, hits)
    else
      var n := |pending| - 1;
      var bee := Drift(pending[n]);
      SweepBees(pending[..n], BeeStep(bee, kept, player, cameraX),
                if IsColliding(player, bee) then hits + 1 else hits, player, cameraX)
  }

  /** The bee a correct pass keeps: drifted, clear of the player and not
      off the left of the view. */
  function Kept(b: Rect, player: Rect, cameraX: real): seq<Rect>
  {
    var bee := Drift(b);
    if IsColliding(player, bee) || OffLeft(bee, cameraX) then [] else [bee]
  }

  /** The bees that should survive the tick, in their order. */
  function Survivors(bees: seq<Rect>, player: Rect, cameraX: real): seq<Rect>
    decreases |bees|
  {
    if |bees| == 0 then []
    else Survivors(bees[..|bees| - 1], player, cameraX) + Kept(bees[|bees| - 1], player, cameraX)
  }

  /** The number of bees that touch the player after drifting. */
  function HitCount(bees: seq<Rect>, player: Rect): nat
    decreases |bees|
  {
    if |bees| == 0 then 0
    else HitCount(bees[..|bees| - 1], player) + (if IsColliding(player, Drift(bees[|bees| - 1])) then 1 else 0)
  }

  /** A bee that both touches the player and ends off the left of the
      view: the one case where the pass removes two bees for one. */
  predicate HitWhileOffLeft(b: Rect, player: Rect, cameraX: real)
  {
    IsColliding(player, Drift(b)) && OffLeft(Drift(b), cameraX)
  }

  /** No bee of the list is hit while off the left of the view. */
  predicate NoHitWhileOffLeft(bees: seq<Rect>, player: Rect, cameraX: real)
    decreases |bees|
  {
    |bees| == 0 ||
    (NoHitWhileOffLeft(bees[..|bees| - 1], player, cameraX) && !HitWhileOffLeft(bees[|bees| - 1], player, cameraX))
  }

  /** One step never invents a bee. */
  lemma BeeStepKeepsNoNewBee(b: Rect, kept: seq<Rect>, player: Rect, cameraX: real)
    ensures multiset(BeeStep(Drift(b), kept, player, cameraX)) <= multiset(Kept(b, player, cameraX) + kept)
  {
    var bee := Drift(b);
    if IsColliding(player, bee) && OffLeft(bee, cameraX) && |kept| > 0 {
      assert kept == [kept[0]] + kept[1..];
    }
  }

  /** One step removes only the visited bee, unless that bee is hit while
      off the left of the view. */
  lemma BeeStepIsExact(b: Rect, kept: seq<Rect>, player: Rect, cameraX: real)
    requires !HitWhileOffLeft(b, player, cameraX)
    ensures BeeStep(Drift(b), kept, player, cameraX) == Kept(b, player, cameraX) + kept
  {
    var bee := Drift(b);
    if !IsColliding(player, bee) && OffLeft(bee, cameraX) {
      assert ([bee] + kept)[1..] == kept;
    }
  }

  /** The pass costs exactly one life per bee that touches the player. */
  lemma {:induction false} SweepCountsHits(pending: seq<Rect>, kept: seq<Rect>, hits: nat, player: Rect, cameraX: real)
    ensures SweepBees(pending, kept, hits, player, cameraX).hits == hits + HitCount(pending, player)
    decreases |pending|
  {
    if |pending| > 0 {
      var n := |pending| - 1;
      var bee := Drift(pending[n]);
      SweepCountsHits(pending[..n], BeeStep(bee, kept, player, cameraX),
                      if IsColliding(player, bee) then hits + 1 else hits, player, cameraX);
    }
  }

  /** Every bee the pass keeps is a survivor: nothing is invented or
      duplicated, though a survivor may be lost. */
  lemma {:induction false} SweepKeepsOnlySurvivors(pending: seq<Rect>, kept: seq<Rect>, hits: nat, player: Rect, cameraX: real)
    ensures multiset(SweepBees(pending, kept, hits, player, cameraX).kept) <=
            multiset(Survivors(pending, player, cameraX) + kept)
    decreases |pending|
  {
    if |pending| > 0 {
      var n := |pending| - 1;
      var front := pending[..n];
      var bee := Drift(pending[n]);
      var step := BeeStep(bee, kept, player, cameraX);
      var hits' := if IsColliding(player, bee) then hits + 1 else hits;
      assert SweepBees(pending, kept, hits, player, cameraX) == SweepBees(front, step, hits', player, cameraX);
      SweepKeepsOnlySurvivors(front, step, hits', player, cameraX);
      BeeStepKeepsNoNewBee(pending[n], kept, player, cameraX);
      var tail := Kept(pending[n], player, cameraX);
      var before := Survivors(front, player, cameraX);
      assert Survivors(pending, player, cameraX) == before + tail;
      assert multiset(before + tail + kept) == multiset(before) + multiset(tail + kept);
    }
  }

  /** When no bee is hit while off the left of the view, the pass keeps
      exactly the survivors, in their order. */
  lemma {:induction false} SweepIsExactWithoutDoubleSplice(pending: seq<Rect>, kept: seq<Rect>, hits: nat, player: Rect, cameraX: real)
    requires NoHitWhileOffLeft(pending, player, cameraX)
    ensures SweepBees(pending, kept, hits, player, cameraX).kept == Survivors(pending, player, cameraX) + kept
    decreases |pending|
  {
    if |pending| > 0 {
      var n := |pending| - 1;
      var front, b := pending[..n], pending[n];
      var bee := Drift(b);
      var step := BeeStep(bee, kept, player, cameraX);
      var hits' := if IsColliding(player, bee) then hits + 1 else hits;
      var tail := Kept(b, player, cameraX);
      var before := Survivors(front, player, cameraX);
      assert step == tail + kept by {
        BeeStepIsExact(b, kept, player, cameraX);
      }
      assert SweepBees(front, step, hits', player, cameraX).kept == before + step by {
        SweepIsExactWithoutDoubleSplice(front, step, hits', player, cameraX);
      }
      assert SweepBees(pending, kept, hits, player, cameraX) == SweepBees(front, step, hits', player, cameraX);
      assert Survivors(pending, player, cameraX) == before + tail;
      assert before + (tail + kept) == before + tail + kept;
    }
  }

  /** The double splice as written: the player box pushed to x = -6 at the
      world's left edge touches a bee that is off the left of the view; the
      pass counts one hit but also drops a second bee, far from the player
      and on screen, which should have survived. */
  lemma DoubleSpliceDropsASurvivor()
    ensures var player := Rect(-6.0, 300.0, 47.0, 60.0);
            var touching := Rect(-13.0, 310.0, 12.0, 12.0);
            var farAway := Rect(500.0, 310.0, 12.0, 12.0);
            var r := SweepBees([touching, farAway], [], 0, player, 0.0);
            r.hits == 1 && r.kept == [] &&
            Survivors([touching, farAway], player, 0.0) == [Drift(farAway)]
  {
    var player := Rect(-6.0, 300.0, 47.0, 60.0);
    var touching := Rect(-13.0, 310.0, 12.0, 12.0);
    var farAway := Rect(500.0, 310.0, 12.0, 12.0);
    assert [touching, farAway][..1] == [touching];
    assert SweepBees([touching, farAway], [], 0, player, 0.0) == SweepBees([touching], [Drift(farAway)], 0, player, 0.0);
    assert Survivors([touching, farAway], player, 0.0) == Survivors([touching], player, 0.0) + [Drift(farAway)];
  }

  /** What the loop's visit of index |front| does to the list: the bee
      there drifts, is spliced out if it touches the player, and the same
      index is spliced again if the bee is off the left of the view. */
  lemma VisitIsBeeStep(front: seq<Rect>, b: Rect, kept: seq<Rect>, player: Rect, cameraX: real)
    ensures var bee := Drift(b);
            var drifted := (front + [b] + kept)[|front| := bee];
            var afterHit := if IsColliding(player, bee) then Splice(drifted, |front|) else drifted;
            var afterOff := if OffLeft(bee, cameraX) then Splice(afterHit, |front|) else afterHit;
            afterOff == front + BeeStep(bee, kept, player, cameraX)
  {
    var bee := Drift(b);
    var drifted := (front + [b] + kept)[|front| := bee];
    assert drifted == front + [bee] + kept;
    var hitList := if IsColliding(player, bee) then kept else [bee] + kept;
    if IsColliding(player, bee) {
      SpliceRemoves(front, bee, kept);
    }
    assert (if IsColliding(player, bee) then Splice(drifted, |front|) else drifted) == front + hitList;
    if OffLeft(bee, cameraX) {
      SpliceShifts(front, hitList);
    }
  }

  /** The bee pass of one tick as the game's loop runs it, from the last
      index down; `lives` drops by one per hit and the level is lost once a
      hit leaves no life. */
  method UpdateBees(bees: seq<Rect>, player: Rect, cameraX: real, lives: int)
    returns (remaining: seq<Rect>, livesLeft: int, lost: bool)
    ensures var r := SweepBees(bees, [], 0, player, cameraX);
            remaining == r.kept && livesLeft == lives - r.hits && lost == (r.hits > 0 && livesLeft <= 0)
  {
    var list := bees;
    livesLeft, lost := lives, false;
    ghost var kept: seq<Rect> := [];
    ghost var hits: nat := 0;
    assert bees[..|bees|] == bees;
    var i := |list| - 1;
    while i >= 0
      invariant -1 <= i < |bees|
      invariant list == bees[..i + 1] + kept
      invariant SweepBees(bees[..i + 1], kept, hits, player, cameraX) == SweepBees(bees, [], 0, player, cameraX)
      invariant livesLeft == lives - hits && lost == (hits > 0 && livesLeft <= 0)
      decreases i
    {
      ghost var front := bees[..i];
      assert bees[..i + 1] == front + [bees[i]];
      assert bees[..i + 1][..i] == front;
      ghost var hitsBefore := hits;
      var bee := Drift(list[i]);
      VisitIsBeeStep(front, bees[i], kept, player, cameraX);
      list := list[i := bee];
      if IsColliding(player, bee) {
        livesLeft := livesLeft - 1;
        hits := hits + 1;
        list := Splice(list, i);
        if livesLeft <= 0 {
          lost := true;
        }
      }
      if bee.x + bee.width < cameraX {
        list := Splice(list, i);
      }
      assert SweepBees(bees[..i + 1], kept, hitsBefore, player, cameraX) ==
             SweepBees(front, BeeStep(bee, kept, player, cameraX), hits, player, cameraX);
      kept := BeeStep(bee, kept, player, cameraX);
      i := i - 1;
    }
    remaining := list;
  }
}
