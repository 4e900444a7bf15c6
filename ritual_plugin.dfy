/**
 * The ExileRitualEj plugin object: five collections updated in place by the
 * host's callbacks. Each callback is proved to move the object's state exactly
 * as the matching transition of RitualModel says, and to keep the blockers
 * spread out.
 */
module RitualPlugin {
  import opened RitualModel
  import RitualProperties

  class ExileRitualEj {
    var gigantEntities: set<EntityId>
    var gigantSpawnPositions: set<GridPos>
    var processedGigantEntityIds: set<EntityId>
    var ritualRuneEntities: set<EntityId>
    var ritualBlockers: seq<RitualBlockerInfo>

    /** The five collections as one value. */
    function State(): (s: TrackerState)
      reads this
    {
      TrackerState(gigantEntities, gigantSpawnPositions, processedGigantEntityIds, ritualRuneEntities, ritualBlockers)
    }

    /** Object invariant: no two tracked blockers stand too close to each other. */
    ghost predicate Valid()
      reads this
    {
      BlockersSpread(ritualBlockers)
    }

    constructor ()
      ensures Valid() && State() == Initial()
    {
      gigantEntities := {};
      gigantSpawnPositions := {};
      processedGigantEntityIds := {};
      ritualRuneEntities := {};
      ritualBlockers := [];
    }

    /** Entering a new area forgets everything, whatever was tracked before. */
    method AreaChange()
      modifies this
      ensures Valid()
      ensures gigantEntities == {} && gigantSpawnPositions == {} && processedGigantEntityIds == {}
      ensures ritualRuneEntities == {} && ritualBlockers == []
    {
      gigantEntities := {};
      gigantSpawnPositions := {};
      processedGigantEntityIds := {};
      ritualRuneEntities := {};
      ritualBlockers := [];
    }

    /** True when some blocker of `blockers` stands too close to `p`; stops at the first one. */
    static method IsNearExistingBlocker(blockers: seq<RitualBlockerInfo>, p: GridPos) returns (tooClose: bool)
      ensures tooClose <==> exists i :: 0 <= i < |blockers| && TooClose(blockers[i].position, p)
    {
      tooClose := false;
      var i := 0;
      while i < |blockers|
        invariant 0 <= i <= |blockers|
        invariant forall k :: 0 <= k < i ==> !TooClose(blockers[k].position, p)
      {
        if TooClose(blockers[i].position, p) {
          tooClose := true;
          break;
        }
        i := i + 1;
      }
    }

    /** The total of the counts of `blockers`, summed front to back. */
    static method TotalCount(blockers: seq<RitualBlockerInfo>) returns (total: int)
      ensures total == SumCounts(blockers)
    {
      total := 0;
      var i := 0;
      while i < |blockers|
        invariant 0 <= i <= |blockers|
        invariant total == SumCounts(blockers[..i])
      {
        assert blockers[..i + 1] == blockers[..i] + [blockers[i]];
        RitualProperties.SumCountsAppend(blockers[..i], blockers[i]);
        total := total + blockers[i].count;
        i := i + 1;
      }
      assert blockers[..i] == blockers;
    }

    /**
     * The CombinedLifePct lookup: the value of the first entry (in enumeration
     * order) whose name contains CombinedLifePct, or 100 when there is none or
     * the dictionary is missing.
     */
    static method LookupCombinedLifePct(stats: Option<seq<StatEntry>>) returns (combinedLifePct: int)
      ensures combinedLifePct == CombinedLifePct(stats)
      ensures stats.None? ==> combinedLifePct == FullLifePct
      ensures stats.Some? ==>
        || (exists i :: 0 <= i < |stats.value| && IsLifeStat(stats.value[i]) && combinedLifePct == stats.value[i].value)
        || ((forall i :: 0 <= i < |stats.value| ==> !IsLifeStat(stats.value[i])) && combinedLifePct == FullLifePct)
    {
      combinedLifePct := FullLifePct;
      if stats.Some? {
        var entries := stats.value;
        var i := 0;
        while i < |entries|
          invariant 0 <= i <= |entries|
          invariant forall k :: 0 <= k < i ==> !IsLifeStat(entries[k])
          invariant combinedLifePct == FullLifePct
        {
          if Contains(entries[i].key, LifeStatName) {
            combinedLifePct := entries[i].value;
            RitualProperties.LifeStatFirstMatch(entries, i);
            return;
          }
          i := i + 1;
        }
        RitualProperties.LifeStatDefault(stats);
      }
    }

    /**
     * A new entity came into view: a blocker is appended unless one stands too
     * close, with the negated total as its count; a gigantic candidate is
     * tracked; a rune marker is remembered.
     */
    method EntityAdded(entity: Entity)
      requires Valid()
      modifies this
      ensures Valid()
      ensures State() == AfterEntityAdded(old(State()), entity)
    {
      ghost var s0 := State();
      if entity.isValid && entity.isHostile && entity.metadata == BlockerMetadata {
        var tooClose := IsNearExistingBlocker(ritualBlockers, entity.gridPos);
        if tooClose {
          return;
        }
        var totalPreviousCount := TotalCount(ritualBlockers);
        ritualBlockers := ritualBlockers + [RitualBlockerInfo(entity.gridPos, -totalPreviousCount, entity.id)];
        RitualProperties.EntityAddedKeepsBlockersSpread(s0, entity);
        return;
      }
      if entity.isValid && entity.isHostile && entity.mods.Some? {
        var mods := entity.mods.value;
        if exists i :: 0 <= i < |mods| && IsGigantismMod(mods[i]) {
          var combinedLifePct := LookupCombinedLifePct(entity.stats);
          if combinedLifePct >= FullLifePct {
            gigantEntities := gigantEntities + {entity.id};
          }
        }
      }
      if entity.isValid && entity.metadata == RuneMetadata {
        ritualRuneEntities := ritualRuneEntities + {entity.id};
      }
    }

    /**
     * Credits one spawn at `gigantPosition` to every blocker within range: each
     * such count goes up by exactly one, every other count stays, and the list
     * keeps its length, order, positions and entity ids, so the blockers stay
     * exactly as spread out as they were.
     */
    method UpdateRitualBlockerCounts(gigantPosition: GridPos)
      modifies this`ritualBlockers
      ensures |ritualBlockers| == |old(ritualBlockers)|
      ensures forall i :: 0 <= i < |ritualBlockers| ==>
        && ritualBlockers[i].position == old(ritualBlockers[i].position)
        && ritualBlockers[i].entityId == old(ritualBlockers[i].entityId)
        && ritualBlockers[i].count == old(ritualBlockers[i].count) + (if InRange(ritualBlockers[i].position, gigantPosition) then 1 else 0)
    ensures Valid() <==> old(Valid())
    {
      var i := 0;
      while i < |ritualBlockers|
        invariant 0 <= i <= |ritualBlockers| == |old(ritualBlockers)|
        invariant forall k :: 0 <= k < i ==> ritualBlockers[k] == Bumped(old(ritualBlockers[k]), gigantPosition)
        invariant forall k :: i <= k < |ritualBlockers| ==> ritualBlockers[k] == old(ritualBlockers[k])
      {
        var blocker := ritualBlockers[i];
        if InRange(blocker.position, gigantPosition) {
          ritualBlockers := ritualBlockers[i := blocker.(count := blocker.count + 1)];
        }
        i := i + 1;
      }
    }

    /**
     * The body of Tick's loop for one tracked entity: when the host reports it
     * valid and alive, it is not processed yet and it is at full life, its
     * position and id are recorded and the blockers in range are credited.
     * `done` holds the entities the loop has already visited.
     */
    method ProcessGigantEntity(id: EntityId, world: map<EntityId, Entity>, ghost s0: TrackerState, ghost done: set<EntityId>)
      requires id in s0.gigantEntities && id !in done
      requires State() == WithSpawns(s0, NewlyProcessed(s0, world) * done, world)
      modifies this
      ensures State() == WithSpawns(s0, NewlyProcessed(s0, world) * (done + {id}), world)
    {
      ghost var q := NewlyProcessed(s0, world);
      RitualProperties.NewlyProcessedMember(s0, world, id);
      if id in world && world[id].isValid && !world[id].isDead && id !in processedGigantEntityIds {
        var entity := world[id];
        var combinedLifePct := LookupCombinedLifePct(entity.stats);
        if combinedLifePct >= FullLifePct {
          assert id !in q * done;
          ghost var b := WithSpawns(s0, q * done + {id}, world);
          RitualProperties.WithSpawnsStep(s0, q * done, world, id);
          gigantSpawnPositions := gigantSpawnPositions + {entity.gridPos};
          processedGigantEntityIds := processedGigantEntityIds + {id};
          UpdateRitualBlockerCounts(entity.gridPos);
          forall i | 0 <= i < |ritualBlockers|
            ensures ritualBlockers[i] == b.ritualBlockers[i]
          {
          }
          assert ritualBlockers == b.ritualBlockers;
          assert q * (done + {id}) == q * done + {id};
          return;
        }
      }
      assert q * (done + {id}) == q * done;
    }

    /**
     * Once per frame: every tracked entity that the host reports valid and
     * alive, that is not processed yet and is at full life, records its
     * position, is marked processed and credits the blockers in range; then
     * every entity the host reports dead stops being tracked. `world` is the
     * host's current view of each entity, by id.
     */
    method Tick(world: map<EntityId, Entity>)
      requires Valid()
      modifies this
      ensures Valid()
      ensures State() == AfterTick(old(State()), world)
    {
      ghost var s0 := State();
      ghost var q := NewlyProcessed(s0, world);
      var pending := gigantEntities;
      ghost var done: set<EntityId> := {};
      assert q * done == {};
      RitualProperties.WithSpawnsNone(s0, world);
      while pending != {}
        invariant pending + done == s0.gigantEntities && pending !! done
        invariant State() == WithSpawns(s0, q * done, world)
        decreases pending
      {
        var id :| id in pending;
        ProcessGigantEntity(id, world, s0, done);
        pending := pending - {id};
        done := done + {id};
      }
      assert q * done == q;
      gigantEntities := set id | id in gigantEntities && !DeadIn(world, id);
      RitualProperties.TickKeepsBlockersSpread(s0, world);
    }
  }
}
