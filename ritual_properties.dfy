/**
 * Properties of the spawn/blocker bookkeeping: the substring search and the
 * life-stat lookup, blocker admission, the effect of one Tick, and what holds
 * across several callbacks.
 */
module RitualProperties {
  import opened RitualModel

  // ---------------------------------------------------------------------------
  // Lookups

  /** The recursive substring search finds exactly the occurrences of `sub`. */
  lemma {:induction false} ContainsSpec(s: string, sub: string)
    ensures Contains(s, sub) <==> exists i :: OccursAt(s, sub, i)
  {
    if |s| < |sub| {
    } else if s[..|sub|] == sub {
      assert OccursAt(s, sub, 0);
    } else {
      ContainsSpec(s[1..], sub);
      forall i | OccursAt(s, sub, i)
        ensures OccursAt(s[1..], sub, i - 1)
      {
        assert i != 0;
        assert s[1..][i - 1..i - 1 + |sub|] == s[i..i + |sub|];
      }
      forall j | OccursAt(s[1..], sub, j)
        ensures OccursAt(s, sub, j + 1)
      {
        assert s[1..][j..j + |sub|] == s[j + 1..j + 1 + |sub|];
      }
    }
  }

  /** The lookup returns the value of the first entry whose name contains CombinedLifePct. */
  lemma {:induction false} LifeStatFirstMatch(entries: seq<StatEntry>, i: int)
    requires 0 <= i < |entries| && IsLifeStat(entries[i])
    requires forall j :: 0 <= j < i ==> !IsLifeStat(entries[j])
    ensures CombinedLifePct(Some(entries)) == entries[i].value
  {
    if i > 0 {
      LifeStatFirstMatch(entries[1..], i - 1);
    }
  }

  /** With no stat dictionary, or no entry naming CombinedLifePct, the lookup gives 100. */
  lemma {:induction false} LifeStatDefault(stats: Option<seq<StatEntry>>)
    requires stats.Some? ==> forall j :: 0 <= j < |stats.value| ==> !IsLifeStat(stats.value[j])
    ensures CombinedLifePct(stats) == FullLifePct
    decreases if stats.Some? then |stats.value| else 0
  {
    if stats.Some? && stats.value != [] {
      LifeStatDefault(Some(stats.value[1..]));
    }
  }

  // ---------------------------------------------------------------------------
  // Blocker admission

  lemma {:induction false} SumCountsAppend(bs: seq<RitualBlockerInfo>, b: RitualBlockerInfo)
    ensures SumCounts(bs + [b]) == SumCounts(bs) + b.count
  {
    assert (bs + [b])[..|bs|] == bs;
  }

  /** A blocker near an existing one is dropped and the whole state stays as it was. */
  lemma BlockerTooCloseRejected(s: TrackerState, e: Entity)
    requires IsBlockerMarker(e) && NearExistingBlocker(s.ritualBlockers, e.gridPos)
    ensures AfterEntityAdded(s, e) == s
  {
  }

  /**
   * An accepted blocker goes last, the earlier ones are untouched, its count is
   * minus the previous total, and the counts then add up to zero.
   */
  lemma {:induction false} BlockerAcceptedZeroesSum(s: TrackerState, e: Entity)
    requires IsBlockerMarker(e) && !NearExistingBlocker(s.ritualBlockers, e.gridPos)
    ensures var bs := AfterEntityAdded(s, e).ritualBlockers;
      && |bs| == |s.ritualBlockers| + 1
      && bs[..|s.ritualBlockers|] == s.ritualBlockers
      && bs[|s.ritualBlockers|] == RitualBlockerInfo(e.gridPos, -SumCounts(s.ritualBlockers), e.id)
      && SumCounts(bs) == 0
    ensures AfterEntityAdded(s, e).(ritualBlockers := s.ritualBlockers) == s
  {
    var b := RitualBlockerInfo(e.gridPos, -SumCounts(s.ritualBlockers), e.id);
    SumCountsAppend(s.ritualBlockers, b);
    assert (s.ritualBlockers + [b])[..|s.ritualBlockers|] == s.ritualBlockers;
  }

  /** A non-blocker entity leaves the blockers alone and is tracked exactly when it is a gigantic candidate. */
  lemma NonBlockerEntityAdded(s: TrackerState, e: Entity)
    requires !IsBlockerMarker(e)
    ensures var r := AfterEntityAdded(s, e);
      && r.ritualBlockers == s.ritualBlockers
      && r.gigantSpawnPositions == s.gigantSpawnPositions
      && r.processedGigantEntityIds == s.processedGigantEntityIds
      && r.gigantEntities == (if IsGiganticCandidate(e) then s.gigantEntities + {e.id} else s.gigantEntities)
      && r.ritualRuneEntities == (if IsRuneMarker(e) then s.ritualRuneEntities + {e.id} else s.ritualRuneEntities)
  {
  }

  /** No two blockers ever stand too close: EntityAdded keeps the list spread out. */
  lemma {:induction false} EntityAddedKeepsBlockersSpread(s: TrackerState, e: Entity)
    requires BlockersSpread(s.ritualBlockers)
    ensures BlockersSpread(AfterEntityAdded(s, e).ritualBlockers)
  {
    var bs := s.ritualBlockers;
    if IsBlockerMarker(e) && !NearExistingBlocker(bs, e.gridPos) {
      var r := AfterEntityAdded(s, e).ritualBlockers;
      forall i, j | 0 <= i < j < |r|
        ensures !TooClose(r[i].position, r[j].position)
      {
        if j < |bs| {
          assert r[i] == bs[i] && r[j] == bs[j];
        } else {
          assert r[i] == bs[i] && r[j].position == e.gridPos;
        }
      }
    }
  }

  // ---------------------------------------------------------------------------
  // One Tick

  /**
   * An entity becomes processed in a Tick exactly when it is tracked, resolved,
   * valid, alive, not yet processed and at full life; its position is then recorded.
   */
  lemma TickProcessesExactly(s: TrackerState, world: map<EntityId, Entity>, id: EntityId)
    ensures var r := AfterTick(s, world);
      (id in r.processedGigantEntityIds && id !in s.processedGigantEntityIds)
      <==> (&& id in s.gigantEntities && id in world && id !in s.processedGigantEntityIds
            && world[id].isValid && !world[id].isDead
            && CombinedLifePct(world[id].stats) >= FullLifePct)
    ensures id in NewlyProcessed(s, world) ==> world[id].gridPos in AfterTick(s, world).gigantSpawnPositions
  {
  }

  /** After a Tick no entity the host reports dead is still tracked, and no entity was added. */
  lemma TickDropsDead(s: TrackerState, world: map<EntityId, Entity>)
    ensures var r := AfterTick(s, world);
      && r.gigantEntities <= s.gigantEntities
      && (forall id :: id in r.gigantEntities ==> !(id in world && world[id].isDead))
      && (forall id :: id in s.gigantEntities && !(id in world && world[id].isDead) ==> id in r.gigantEntities)
  {
  }

  lemma {:induction false} SpawnsNearEmpty(world: map<EntityId, Entity>, p: GridPos)
    ensures |SpawnsNear({}, world, p)| == 0
  {
    assert SpawnsNear({}, world, p) == {};
  }

  /** Processing is idempotent: a second Tick over the same host view changes nothing. */
  lemma {:induction false} TickIdempotent(s: TrackerState, world: map<EntityId, Entity>)
    ensures AfterTick(AfterTick(s, world), world) == AfterTick(s, world)
  {
    var t := AfterTick(s, world);
    assert NewlyProcessed(t, world) == {};
    var u := AfterTick(t, world);
    assert u.gigantEntities == t.gigantEntities;
    assert u.gigantSpawnPositions == t.gigantSpawnPositions;
    forall i | 0 <= i < |t.ritualBlockers|
      ensures u.ritualBlockers[i] == t.ritualBlockers[i]
    {
      SpawnsNearEmpty(world, t.ritualBlockers[i].position);
    }
    assert u.ritualBlockers == t.ritualBlockers;
  }

  /**
   * Once processed, an entity is never processed again by any later Tick before
   * the next area change, whatever callbacks come in between and whatever the
   * host reports, so it credits blockers at most once.
   */
  lemma {:induction false} NeverProcessedTwice(s: TrackerState, w1: map<EntityId, Entity>, evs: seq<Event>, w2: map<EntityId, Entity>)
    ensures NewlyProcessed(s, w1) !! NewlyProcessed(Run(AfterTick(s, w1), evs), w2)
  {
    ProcessedGrows(AfterTick(s, w1), evs);
  }

  /** Along any sequence of callbacks, the processed ids never shrink. */
  lemma {:induction false} ProcessedGrows(s: TrackerState, evs: seq<Event>)
    ensures s.processedGigantEntityIds <= Run(s, evs).processedGigantEntityIds
    decreases |evs|
  {
    if evs != [] {
      var s1 := match evs[0]
        case Added(e) => AfterEntityAdded(s, e)
        case Ticked(w) => AfterTick(s, w);
      assert s.processedGigantEntityIds <= s1.processedGigantEntityIds;
      ProcessedGrows(s1, evs[1..]);
    }
  }

  /** The processed ids and the spawn positions only grow between area changes. */
  lemma HistoryOnlyGrows(s: TrackerState, world: map<EntityId, Entity>, e: Entity)
    ensures s.processedGigantEntityIds <= AfterTick(s, world).processedGigantEntityIds
    ensures s.gigantSpawnPositions <= AfterTick(s, world).gigantSpawnPositions
    ensures AfterEntityAdded(s, e).processedGigantEntityIds == s.processedGigantEntityIds
    ensures AfterEntityAdded(s, e).gigantSpawnPositions == s.gigantSpawnPositions
  {
  }

  /** Recording a spawn at a position already recorded leaves the position set as it was. */
  lemma DuplicateSpawnPositionNoOp(s: TrackerState, world: map<EntityId, Entity>)
    requires forall id :: id in NewlyProcessed(s, world) ==> world[id].gridPos in s.gigantSpawnPositions
    ensures AfterTick(s, world).gigantSpawnPositions == s.gigantSpawnPositions
  {
  }

  /**
   * A tracked entity below full life changes nothing in a Tick: every
   * collection but the tracked set ends as if it had not been tracked, and it
   * stays tracked (unprocessed) unless the host reports it dead.
   */
  lemma {:induction false} DamagedCandidateSkipped(s: TrackerState, world: map<EntityId, Entity>, id: EntityId)
    requires id in s.gigantEntities && id !in s.processedGigantEntityIds
    requires id in world && CombinedLifePct(world[id].stats) < FullLifePct
    ensures var r := AfterTick(s, world);
      var r' := AfterTick(s.(gigantEntities := s.gigantEntities - {id}), world);
      && id !in r.processedGigantEntityIds
      && r.(gigantEntities := r'.gigantEntities) == r'
      && r.gigantEntities == (if world[id].isDead then r'.gigantEntities else r'.gigantEntities + {id})
  {
    var s' := s.(gigantEntities := s.gigantEntities - {id});
    assert NewlyProcessed(s, world) == NewlyProcessed(s', world);
  }

  /** Adding one entity to a set of spawns credits a blocker with one more spawn exactly when it is in range. */
  lemma {:induction false} SpawnsNearInsert(ids: set<EntityId>, world: map<EntityId, Entity>, p: GridPos, id: EntityId)
    requires id !in ids && id in world
    ensures |SpawnsNear(ids + {id}, world, p)| == |SpawnsNear(ids, world, p)| + (if InRange(p, world[id].gridPos) then 1 else 0)
  {
    if InRange(p, world[id].gridPos) {
      assert SpawnsNear(ids + {id}, world, p) == SpawnsNear(ids, world, p) + {id};
    } else {
      assert SpawnsNear(ids + {id}, world, p) == SpawnsNear(ids, world, p);
    }
  }

  /** With a single spawn in a Tick, each blocker's count goes up by one exactly when the spawn is in its range. */
  lemma {:induction false} SingleSpawnCredits(s: TrackerState, world: map<EntityId, Entity>, id: EntityId)
    requires NewlyProcessed(s, world) == {id}
    ensures |AfterTick(s, world).ritualBlockers| == |s.ritualBlockers|
    ensures forall i :: 0 <= i < |s.ritualBlockers| ==>
      AfterTick(s, world).ritualBlockers[i] == Bumped(s.ritualBlockers[i], world[id].gridPos)
  {
    assert id in NewlyProcessed(s, world);
    forall i | 0 <= i < |s.ritualBlockers|
      ensures AfterTick(s, world).ritualBlockers[i] == Bumped(s.ritualBlockers[i], world[id].gridPos)
    {
      SpawnsNearInsert({}, world, s.ritualBlockers[i].position, id);
      SpawnsNearEmpty(world, s.ritualBlockers[i].position);
      assert {} + {id} == {id};
    }
  }

  /** Membership in the entities a Tick processes, spelled out. */
  lemma NewlyProcessedMember(s: TrackerState, world: map<EntityId, Entity>, id: EntityId)
    ensures id in NewlyProcessed(s, world) <==>
      && id in s.gigantEntities && id in world && id !in s.processedGigantEntityIds
      && world[id].isValid && !world[id].isDead && CombinedLifePct(world[id].stats) >= FullLifePct
  {
  }

  /** Processing no entity changes nothing. */
  lemma {:induction false} WithSpawnsNone(s: TrackerState, world: map<EntityId, Entity>)
    ensures WithSpawns(s, {}, world) == s
  {
    var r := WithSpawns(s, {}, world);
    forall i | 0 <= i < |s.ritualBlockers|
      ensures r.ritualBlockers[i] == s.ritualBlockers[i]
    {
      SpawnsNearEmpty(world, s.ritualBlockers[i].position);
    }
    assert r.ritualBlockers == s.ritualBlockers;
  }

  /** Processing one more entity records it and credits it to exactly the blockers in its range. */
  lemma {:induction false} WithSpawnsStep(s: TrackerState, ids: set<EntityId>, world: map<EntityId, Entity>, id: EntityId)
    requires id !in ids && id in world
    ensures var a := WithSpawns(s, ids, world);
      var b := WithSpawns(s, ids + {id}, world);
      && b.gigantEntities == a.gigantEntities && b.ritualRuneEntities == a.ritualRuneEntities
      && b.gigantSpawnPositions == a.gigantSpawnPositions + {world[id].gridPos}
      && b.processedGigantEntityIds == a.processedGigantEntityIds + {id}
      && |b.ritualBlockers| == |a.ritualBlockers|
      && forall i :: 0 <= i < |b.ritualBlockers| ==> b.ritualBlockers[i] == Bumped(a.ritualBlockers[i], world[id].gridPos)
  {
    var a := WithSpawns(s, ids, world);
    var b := WithSpawns(s, ids + {id}, world);
    assert (set x | x in ids + {id} && x in world :: world[x].gridPos)
        == (set x | x in ids && x in world :: world[x].gridPos) + {world[id].gridPos};
    forall i | 0 <= i < |b.ritualBlockers|
      ensures b.ritualBlockers[i] == Bumped(a.ritualBlockers[i], world[id].gridPos)
    {
      SpawnsNearInsert(ids, world, s.ritualBlockers[i].position, id);
    }
  }

  /** A Tick moves no blocker, so the list stays spread out. */
  lemma TickKeepsBlockersSpread(s: TrackerState, world: map<EntityId, Entity>)
    requires BlockersSpread(s.ritualBlockers)
    ensures BlockersSpread(AfterTick(s, world).ritualBlockers)
  {
  }

  // ---------------------------------------------------------------------------
  // A worked session

  function BlockerEntity(id: EntityId, p: GridPos): (e: Entity)
  {
    Entity(id, true, false, true, BlockerMetadata, p, None, None)
  }

  function ExampleMonster(): (e: Entity)
  {
    Entity(10, true, false, true, "Metadata/Monsters/Gigant", GridPos(50, 0), Some([Some(GigantismMod)]), None)
  }

  function BlockerA(count: int): (b: RitualBlockerInfo) { RitualBlockerInfo(GridPos(0, 0), count, 1) }
  function BlockerB(count: int): (b: RitualBlockerInfo) { RitualBlockerInfo(GridPos(100, 0), count, 2) }
  function BlockerC(count: int): (b: RitualBlockerInfo) { RitualBlockerInfo(GridPos(1000, 0), count, 3) }

  /** With no spawn yet, three blockers seen one after another all start at 0: the first one, */
  lemma {:induction false} ExampleFirstBlocker()
    ensures AfterEntityAdded(Initial(), BlockerEntity(1, GridPos(0, 0))).ritualBlockers == [BlockerA(0)]
  {
    assert !NearExistingBlocker([], GridPos(0, 0));
    assert [] + [BlockerA(0)] == [BlockerA(0)];
  }

  /** the second one, */
  lemma {:induction false} ExampleSecondBlocker()
    ensures AfterEntityAdded(Initial().(ritualBlockers := [BlockerA(0)]), BlockerEntity(2, GridPos(100, 0))).ritualBlockers
      == [BlockerA(0), BlockerB(0)]
  {
    assert !TooClose(GridPos(0, 0), GridPos(100, 0));
    assert !NearExistingBlocker([BlockerA(0)], GridPos(100, 0));
    SumCountsAppend([], BlockerA(0));
    assert [] + [BlockerA(0)] == [BlockerA(0)];
  }

  /** and the third one. */
  lemma {:induction false} ExampleThirdBlocker()
    ensures AfterEntityAdded(Initial().(ritualBlockers := [BlockerA(0), BlockerB(0)]), BlockerEntity(3, GridPos(1000, 0))).ritualBlockers
      == [BlockerA(0), BlockerB(0), BlockerC(0)]
  {
    var bs := [BlockerA(0), BlockerB(0)];
    assert !TooClose(bs[0].position, GridPos(1000, 0)) && !TooClose(bs[1].position, GridPos(1000, 0));
    assert !NearExistingBlocker(bs, GridPos(1000, 0));
    SumCountsAppend([], BlockerA(0));
    assert [] + [BlockerA(0)] == [BlockerA(0)];
    SumCountsAppend([BlockerA(0)], BlockerB(0));
    assert [BlockerA(0)] + [BlockerB(0)] == bs;
  }

  /** A valid hostile monster with the gigantism mod and no stats dictionary is tracked. */
  lemma {:induction false} ExampleMonsterTracked()
    ensures var s := Initial().(ritualBlockers := [BlockerA(0), BlockerB(0), BlockerC(0)]);
      AfterEntityAdded(s, ExampleMonster()) == s.(gigantEntities := {10})
  {
    var monster := ExampleMonster();
    assert Contains(GigantismMod, GigantismMod);
    assert IsGigantismMod(monster.mods.value[0]);
    assert IsGiganticCandidate(monster);
  }

  /** The next Tick processes the monster and nothing else. */
  lemma {:induction false} ExampleMonsterProcessed()
    ensures NewlyProcessed(Initial().(gigantEntities := {10}, ritualBlockers := [BlockerA(0), BlockerB(0), BlockerC(0)]),
      map[10 := ExampleMonster()]) == {10}
  {
    var s := Initial().(gigantEntities := {10}, ritualBlockers := [BlockerA(0), BlockerB(0), BlockerC(0)]);
    NewlyProcessedMember(s, map[10 := ExampleMonster()], 10);
  }

  /** The spawn at (50,0) credits the blockers at (0,0) and (100,0) but not the one at (1000,0). */
  lemma {:induction false} ExampleSpawnCreditsNearBlockers()
    ensures var s := Initial().(gigantEntities := {10}, ritualBlockers := [BlockerA(0), BlockerB(0), BlockerC(0)]);
      var r := AfterTick(s, map[10 := ExampleMonster()]);
      && r.ritualBlockers == [BlockerA(1), BlockerB(1), BlockerC(0)]
      && r.processedGigantEntityIds == {10}
      && r.gigantSpawnPositions == {GridPos(50, 0)}
  {
    var s := Initial().(gigantEntities := {10}, ritualBlockers := [BlockerA(0), BlockerB(0), BlockerC(0)]);
    var world := map[10 := ExampleMonster()];
    ExampleMonsterProcessed();
    SingleSpawnCredits(s, world, 10);
    var bs := AfterTick(s, world).ritualBlockers;
    assert bs[0] == Bumped(BlockerA(0), GridPos(50, 0)) == BlockerA(1);
    assert bs[1] == Bumped(BlockerB(0), GridPos(50, 0)) == BlockerB(1);
    assert bs[2] == Bumped(BlockerC(0), GridPos(50, 0)) == BlockerC(0);
  }

  /** A blocker appearing after that spawn starts at minus the total, -2. */
  lemma {:induction false} ExampleLateBlockerOffsets()
    ensures var s := Initial().(gigantEntities := {10}, gigantSpawnPositions := {GridPos(50, 0)},
                                processedGigantEntityIds := {10}, ritualBlockers := [BlockerA(1), BlockerB(1), BlockerC(0)]);
      AfterEntityAdded(s, BlockerEntity(4, GridPos(2000, 0))).ritualBlockers
        == s.ritualBlockers + [RitualBlockerInfo(GridPos(2000, 0), -2, 4)]
  {
    var bs := [BlockerA(1), BlockerB(1), BlockerC(0)];
    assert !NearExistingBlocker(bs, GridPos(2000, 0));
    assert SumCounts(bs) == 2 by {
      SumCountsAppend([], BlockerA(1));
      assert [] + [BlockerA(1)] == [BlockerA(1)];
      SumCountsAppend([BlockerA(1)], BlockerB(1));
      assert [BlockerA(1)] + [BlockerB(1)] == [BlockerA(1), BlockerB(1)];
      SumCountsAppend([BlockerA(1), BlockerB(1)], BlockerC(0));
      assert [BlockerA(1), BlockerB(1)] + [BlockerC(0)] == bs;
    }
  }
}
