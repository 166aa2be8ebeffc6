/** Bee spawning from a level's trigger table: each trigger position fires
    once per level session, when the player first reaches it. */
module Spawning {
  import opened Geometry
  import opened Levels

  /** A bee appears this far to the right of the camera's right edge. */
  const BEE_SPAWN_MARGIN: real := 50.0

  /** The bees alive and the trigger positions already used this level. */
  datatype Spawn = Spawn(bees: seq<Rect>, fired: set<int>)

  /** The distinct trigger positions of a table. */
  function TriggerXs(triggers: seq<Trigger>): set<int>
    decreases |triggers|
  {
    if |triggers| == 0 then {}
    else TriggerXs(triggers[..|triggers| - 1]) + {triggers[|triggers| - 1].x}
  }

  /** The trigger positions a player at `playerX` has reached. */
  function Reached(triggers: seq<Trigger>, playerX: real): set<int>
    decreases |triggers|
  {
    if |triggers| == 0 then {}
    else
      var t := triggers[|triggers| - 1];
      Reached(triggers[..|triggers| - 1], playerX) + (if playerX >= t.x as real then {t.x} else {})
  }

  /** A newly spawned bee, to the right of the view at the trigger's height. */
  function NewBee(t: Trigger, cameraX: real, beeW: real, beeH: real): Rect
  {
    Rect(cameraX + WIDTH + BEE_SPAWN_MARGIN, t.spawnY as real, beeW, beeH)
  }

  /** One trigger: a reached trigger whose position has not fired yet
      spawns a bee and marks its position as fired. */
  function SpawnStep(s: Spawn, t: Trigger, playerX: real, cameraX: real, beeW: real, beeH: real): Spawn
  {
    if playerX >= t.x as real && t.x !in s.fired then
      Spawn(s.bees + [NewBee(t, cameraX, beeW, beeH)], s.fired + {t.x})
    else s
  }

  /** The spawn pass of one tick: every trigger of the table in order. */
  function SpawnBees(s: Spawn, triggers: seq<Trigger>, playerX: real, cameraX: real, beeW: real, beeH: real): Spawn
    decreases |triggers|
  {
    if |triggers| == 0 then s
    else SpawnStep(SpawnBees(s, triggers[..|triggers| - 1], playerX, cameraX, beeW, beeH),
                   triggers[|triggers| - 1], playerX, cameraX, beeW, beeH)
  }

  /** A spawned bee: at the spawn column of this tick's camera, with the
      bee image's size. */
  predicate IsNewBee(b: Rect, cameraX: real, beeW: real, beeH: real)
  {
    b.x == cameraX + WIDTH + BEE_SPAWN_MARGIN && b.width == beeW && b.height == beeH
  }

  /** After the spawn pass the fired set holds exactly the old positions
      and every position the player has reached. */
  lemma {:induction false} SpawnFiresReached(s: Spawn, triggers: seq<Trigger>, playerX: real, cameraX: real, beeW: real, beeH: real)
    ensures SpawnBees(s, triggers, playerX, cameraX, beeW, beeH).fired == s.fired + Reached(triggers, playerX)
    decreases |triggers|
  {
    if |triggers| > 0 {
      SpawnFiresReached(s, triggers[..|triggers| - 1], playerX, cameraX, beeW, beeH);
    }
  }

  /** The spawn pass keeps the old bees in front and appends one new bee
      per newly fired position, never one per table entry, so a position
      listed twice spawns once. */
  lemma {:induction false} SpawnAppendsOnePerPosition(s: Spawn, triggers: seq<Trigger>, playerX: real, cameraX: real, beeW: real, beeH: real)
    ensures var r := SpawnBees(s, triggers, playerX, cameraX, beeW, beeH);
            s.fired <= r.fired &&
            |r.bees| == |s.bees| + |r.fired - s.fired| &&
            r.bees[..|s.bees|] == s.bees &&
            forall i :: |s.bees| <= i < |r.bees| ==> IsNewBee(r.bees[i], cameraX, beeW, beeH)
    decreases |triggers|
  {
    if |triggers| > 0 {
      var n := |triggers| - 1;
      var t := triggers[n];
      SpawnAppendsOnePerPosition(s, triggers[..n], playerX, cameraX, beeW, beeH);
      var r0 := SpawnBees(s, triggers[..n], playerX, cameraX, beeW, beeH);
      if playerX >= t.x as real && t.x !in r0.fired {
        var r := SpawnStep(r0, t, playerX, cameraX, beeW, beeH);
        assert r.fired - s.fired == (r0.fired - s.fired) + {t.x};
        assert r.bees[..|s.bees|] == r0.bees[..|s.bees|];
      }
    }
  }

  lemma {:induction false} ReachedAreTriggers(triggers: seq<Trigger>, playerX: real)
    ensures Reached(triggers, playerX) <= TriggerXs(triggers)
    decreases |triggers|
  {
    if |triggers| > 0 {
      ReachedAreTriggers(triggers[..|triggers| - 1], playerX);
    }
  }

  /** Once every position of the table has fired, the spawn pass does
      nothing, wherever the player is. */
  lemma {:induction false} FiredTriggersAreInert(s: Spawn, triggers: seq<Trigger>, playerX: real, cameraX: real, beeW: real, beeH: real)
    requires TriggerXs(triggers) <= s.fired
    ensures SpawnBees(s, triggers, playerX, cameraX, beeW, beeH) == s
    decreases |triggers|
  {
    if |triggers| > 0 {
      FiredTriggersAreInert(s, triggers[..|triggers| - 1], playerX, cameraX, beeW, beeH);
    }
  }

  /** Where the player and the camera are on one tick. */
  datatype View = View(playerX: real, cameraX: real)

  /** The spawn passes of many ticks in a row, with the fired set carried
      from tick to tick. */
  function SpawnOver(s: Spawn, triggers: seq<Trigger>, views: seq<View>, beeW: real, beeH: real): Spawn
    decreases |views|
  {
    if |views| == 0 then s
    else
      var v := views[|views| - 1];
      SpawnBees(SpawnOver(s, triggers, views[..|views| - 1], beeW, beeH), triggers, v.playerX, v.cameraX, beeW, beeH)
  }

  lemma SubsetCardinality(a: set<int>, b: set<int>)
    requires a <= b
    ensures |a| <= |b|
  {
    assert b == a + (b - a);
  }

  /** However many ticks pass and however the player moves back and forth,
      the fired set only grows within the table's positions, and a level
      session spawns one bee per fired position, so never more bees than
      the table has distinct positions. */
  lemma {:induction false} SpawnOncePerPosition(s: Spawn, triggers: seq<Trigger>, views: seq<View>, beeW: real, beeH: real)
    ensures var r := SpawnOver(s, triggers, views, beeW, beeH);
            s.fired <= r.fired &&
            r.fired - s.fired <= TriggerXs(triggers) &&
            |r.bees| == |s.bees| + |r.fired - s.fired| &&
            |r.bees| - |s.bees| <= |TriggerXs(triggers)|
    decreases |views|
  {
    var r := SpawnOver(s, triggers, views, beeW, beeH);
    if |views| > 0 {
      var n := |views| - 1;
      var v := views[n];
      SpawnOncePerPosition(s, triggers, views[..n], beeW, beeH);
      var r0 := SpawnOver(s, triggers, views[..n], beeW, beeH);
      SpawnFiresReached(r0, triggers, v.playerX, v.cameraX, beeW, beeH);
      SpawnAppendsOnePerPosition(r0, triggers, v.playerX, v.cameraX, beeW, beeH);
      ReachedAreTriggers(triggers, v.playerX);
      assert r.fired - s.fired == (r0.fired - s.fired) + (r.fired - r0.fired);
      assert (r0.fired - s.fired) !! (r.fired - r0.fired);
    }
    SubsetCardinality(r.fired - s.fired, TriggerXs(triggers));
  }

  lemma {:induction false} TriggerXsMember(triggers: seq<Trigger>, i: nat)
    requires i < |triggers|
    ensures triggers[i].x in TriggerXs(triggers)
    decreases |triggers|
  {
    var n := |triggers| - 1;
    if i < n {
      TriggerXsMember(triggers[..n], i);
    }
  }

  /** A table lists at most as many positions as it has entries. */
  lemma {:induction false} PositionsAtMostEntries(triggers: seq<Trigger>)
    ensures |TriggerXs(triggers)| <= |triggers|
    decreases |triggers|
  {
    if |triggers| > 0 {
      PositionsAtMostEntries(triggers[..|triggers| - 1]);
    }
  }

  /** Two entries at the same position make the table list strictly fewer
      positions than entries. */
  lemma {:induction false} RepeatedPositionSpawnsOnce(triggers: seq<Trigger>, i: nat, j: nat)
    requires i < j < |triggers| && triggers[i].x == triggers[j].x
    ensures |TriggerXs(triggers)| < |triggers|
    decreases |triggers|
  {
    var n := |triggers| - 1;
    var front := triggers[..n];
    if j < n {
      RepeatedPositionSpawnsOnce(front, i, j);
    } else {
      TriggerXsMember(front, i);
      PositionsAtMostEntries(front);
    }
  }

  /** Level 5 lists position 500 four times (and 370 and 430 twice), so it
      spawns fewer bees than its table has entries. */
  lemma LevelFiveRepeatsPositions()
    ensures TRIGGERS_5[9].x == TRIGGERS_5[10].x == TRIGGERS_5[11].x == TRIGGERS_5[12].x == 500
    ensures |TriggerXs(TRIGGERS_5)| < |TRIGGERS_5|
  {
    RepeatedPositionSpawnsOnce(TRIGGERS_5, 9, 10);
  }

  /** The spawn pass as the game's loop runs it over the trigger table,
      pushing onto the bee list and adding to the fired set. */
  method SpawnFromTriggers(s: Spawn, triggers: seq<Trigger>, playerX: real, cameraX: real, beeW: real, beeH: real)
    returns (r: Spawn)
    ensures r == SpawnBees(s, triggers, playerX, cameraX, beeW, beeH)
  {
    var bees, fired := s.bees, s.fired;
    for k := 0 to |triggers|
      invariant Spawn(bees, fired) == SpawnBees(s, triggers[..k], playerX, cameraX, beeW, beeH)
    {
      var t := triggers[k];
      if playerX >= t.x as real && t.x !in fired {
        bees := bees + [Rect(cameraX + WIDTH + BEE_SPAWN_MARGIN, t.spawnY as real, beeW, beeH)];
        fired := fired + {t.x};
      }
      assert triggers[..k + 1][..k] == triggers[..k];
    }
    assert triggers[..|triggers|] == triggers;
    r := Spawn(bees, fired);
  }
}
