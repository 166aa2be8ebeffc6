/** Food pickups (toasts, cookies, chocolates) the player collects by
    touching them, and the water goal at the end of a level. */
module Pickups {
  import opened Geometry
  import opened Lists

  /** The pickups the player does not touch, in order. */
  function Uncollected(items: seq<Rect>, player: Rect): seq<Rect>
    decreases |items|
  {
    if |items| == 0 then []
    else (if IsColliding(player, items[0]) then [] else [items[0]]) + Uncollected(items[1..], player)
  }

  /** How many pickups the player touches. */
  function TouchCount(items: seq<Rect>, player: Rect): nat
    decreases |items|
  {
    if |items| == 0 then 0
    else (if IsColliding(player, items[0]) then 1 else 0) + TouchCount(items[1..], player)
  }

  /** Every touched pickup is collected and counted, every other one is
      left: the two add up to the list. */
  lemma {:induction false} CollectedPlusLeft(items: seq<Rect>, player: Rect)
    ensures |Uncollected(items, player)| + TouchCount(items, player) == |items|
    decreases |items|
  {
    if |items| > 0 {
      CollectedPlusLeft(items[1..], player);
    }
  }

  /** The pickups left are exactly the pickups of the list the player does
      not touch. */
  lemma {:induction false} LeftAreUntouched(items: seq<Rect>, player: Rect)
    ensures forall r :: r in Uncollected(items, player) <==> r in items && !IsColliding(player, r)
    decreases |items|
  {
    if |items| > 0 {
      LeftAreUntouched(items[1..], player);
      assert items == [items[0]] + items[1..];
    }
  }

  /** A list nobody touches is left as it is. */
  lemma {:induction false} UntouchedStay(items: seq<Rect>, player: Rect)
    requires forall r :: r in items ==> !IsColliding(player, r)
    ensures Uncollected(items, player) == items
    decreases |items|
  {
    if |items| > 0 {
      assert items[0] in items;
      assert forall r :: r in items[1..] ==> r in items;
      UntouchedStay(items[1..], player);
    }
  }

  /** Standing still, a second pass collects nothing more. */
  lemma CollectionIsIdempotent(items: seq<Rect>, player: Rect)
    ensures Uncollected(Uncollected(items, player), player) == Uncollected(items, player)
    ensures TouchCount(Uncollected(items, player), player) == 0
  {
    LeftAreUntouched(items, player);
    UntouchedStay(Uncollected(items, player), player);
    CollectedPlusLeft(Uncollected(items, player), player);
  }

  lemma UncollectedStep(items: seq<Rect>, i: nat, player: Rect)
    requires i < |items|
    ensures Uncollected(items[i..], player) ==
            (if IsColliding(player, items[i]) then [] else [items[i]]) + Uncollected(items[i + 1..], player)
    ensures TouchCount(items[i..], player) ==
            (if IsColliding(player, items[i]) then 1 else 0) + TouchCount(items[i + 1..], player)
  {
    assert items[i..][1..] == items[i + 1..];
  }

  /** One collection pass as the game's loop runs it: from the last index
      down, every pickup the player touches is spliced out and counted. */
  method CollectPickups(items: seq<Rect>, player: Rect) returns (left: seq<Rect>, collected: nat)
    ensures left == Uncollected(items, player)
    ensures collected == TouchCount(items, player)
  {
    left := items;
    collected := 0;
    assert items[..|items|] + [] == items;
    var i := |items| - 1;
    while i >= 0
      invariant -1 <= i < |items|
      invariant left == items[..i + 1] + Uncollected(items[i + 1..], player)
      invariant collected == TouchCount(items[i + 1..], player)
      decreases i
    {
      ghost var rest := Uncollected(items[i + 1..], player);
      UncollectedStep(items, i, player);
      assert left == items[..i] + [items[i]] + rest by {
        assert items[..i + 1] == items[..i] + [items[i]];
      }
      if IsColliding(player, left[i]) {
        SpliceRemoves(items[..i], items[i], rest);
        left := Splice(left, i);
        collected := collected + 1;
      } else {
        assert left == items[..i] + ([items[i]] + rest);
      }
      i := i - 1;
    }
    assert items[0..] == items;
  }

  // ===== water goal =====

  /** The player's box reaches into water `w`: it overlaps it and its
      bottom is more than a third of a tile below the water's top. */
  predicate InWater(player: Rect, w: Rect)
  {
    IsColliding(player, w) && player.y + player.height > w.y + (TILE_SIZE as real) / 3.0
  }

  /** The first of the water tiles that count as the goal: only the last
      three of the level, in scan order. */
  function GoalStart(waters: seq<Rect>): nat
  {
    if |waters| >= 3 then |waters| - 3 else 0
  }

  /** The player is in one of the last three water tiles. */
  predicate ReachesGoal(player: Rect, waters: seq<Rect>)
  {
    exists i :: GoalStart(waters) <= i < |waters| && InWater(player, waters[i])
  }

  /** The goal test of the tick: a loop over the last three water tiles
      that stops at the first one reached. */
  method CheckGoal(player: Rect, waters: seq<Rect>) returns (won: bool)
    ensures won == ReachesGoal(player, waters)
  {
    won := false;
    var start := if |waters| - 3 > 0 then |waters| - 3 else 0;
    for i := start to |waters|
      invariant !won ==> forall k :: start <= k < i ==> !InWater(player, waters[k])
      invariant won ==> ReachesGoal(player, waters)
    {
      if InWater(player, waters[i]) {
        won := true;
        break;
      }
    }
  }

  /** Water before the last three tiles is never the goal, however deep
      the player is in it: only the last three tiles are tested. */
  lemma EarlierPondIsNotGoal(player: Rect, waters: seq<Rect>)
    requires forall i :: GoalStart(waters) <= i < |waters| ==> !IsColliding(player, waters[i])
    ensures !ReachesGoal(player, waters)
  {
  }

  /** Being in any of the last three water tiles is the goal. */
  lemma LastPondsAreGoal(player: Rect, waters: seq<Rect>, k: nat)
    requires GoalStart(waters) <= k < |waters| && InWater(player, waters[k])
    ensures ReachesGoal(player, waters)
  {
  }
}
