/**
 * Values and pure rules of the ExileRitualEj plugin's spawn/blocker bookkeeping:
 * the host's entity records, the blocker records, the distance thresholds, the
 * life-stat lookup, the entity categories, and the abstract state of the plugin
 * with the transitions its callbacks make (AreaChange, EntityAdded, Tick).
 */
module RitualModel {

  datatype Option<+T> = None | Some(value: T)

  /** The host's entity id, an unsigned 32-bit integer. */
  type EntityId = x: int | 0 <= x < 0x1_0000_0000

  /** A grid position. The host's float grid coordinates are assumed here to be whole numbers. */
  datatype GridPos = GridPos(x: int, y: int)

  /** One entry of an entity's stat dictionary: the stat's name and its value. */
  datatype StatEntry = StatEntry(key: string, value: int)

  /**
   * What the plugin reads of a host entity. `mods` is None when the entity has no
   * magic-properties component or its mod list is null; an element is None when
   * that mod string is null. `stats` is None when there is no stats component or
   * its dictionary is null, and otherwise lists the entries in the dictionary's
   * enumeration order.
   */
  datatype Entity = Entity(
    id: EntityId,
    isValid: bool,
    isDead: bool,
    isHostile: bool,
    metadata: string,
    gridPos: GridPos,
    mods: Option<seq<Option<string>>>,
    stats: Option<seq<StatEntry>>)

  /** A tracked ritual blocker: where it stands, its running count, and its entity. */
  datatype RitualBlockerInfo = RitualBlockerInfo(position: GridPos, count: int, entityId: EntityId)

  const BlockerMetadata: string := "Metadata/Terrain/Leagues/Ritual/RitualBlocker"
  const RuneMetadata: string := "Metadata/Terrain/Leagues/Ritual/RitualRuneObject"
  const GigantismMod: string := "MonsterSupporterGigantism1"
  const LifeStatName: string := "CombinedLifePct"

  /** The life percentage at which a gigantic monster counts as undamaged; also the lookup's default. */
  const FullLifePct: int := 100
  /** A new blocker closer than this to an existing one is a duplicate. */
  const MinBlockerDistance: int := 5
  /** A spawn at most this far from a blocker is credited to it. */
  const BlockerRange: int := 200

  function SquaredDistance(a: GridPos, b: GridPos): (d: int)
    ensures d >= 0
    ensures d == 0 <==> a == b
  {
    (a.x - b.x) * (a.x - b.x) + (a.y - b.y) * (a.y - b.y)
  }

  /** Euclidean distance below MinBlockerDistance, compared on squares. */
  predicate TooClose(existing: GridPos, p: GridPos)
  {
    SquaredDistance(existing, p) < MinBlockerDistance * MinBlockerDistance
  }

  /** Euclidean distance at most BlockerRange, compared on squares. */
  predicate InRange(blocker: GridPos, spawn: GridPos)
  {
    SquaredDistance(blocker, spawn) <= BlockerRange * BlockerRange
  }

  // ---------------------------------------------------------------------------
  // Substring search (the host's ordinal string Contains)

  /** `sub` occurs in `s` starting at index i. */
  predicate OccursAt(s: string, sub: string, i: int)
  {
    0 <= i && i + |sub| <= |s| && s[i..i + |sub|] == sub
  }

  /** Ordinal substring test, trying each start position from the left. */
  function Contains(s: string, sub: string): (found: bool)
    ensures found ==> |sub| <= |s|
  {
    if |s| < |sub| then false
    else if s[..|sub|] == sub then true
    else Contains(s[1..], sub)
  }

  // ---------------------------------------------------------------------------
  // The CombinedLifePct lookup

  predicate IsLifeStat(e: StatEntry)
  {
    Contains(e.key, LifeStatName)
  }

  /** The value of the first entry whose name contains CombinedLifePct, else FullLifePct. */
  function LifePctIn(entries: seq<StatEntry>): (pct: int)
  {
    if entries == [] then FullLifePct
    else if IsLifeStat(entries[0]) then entries[0].value
    else LifePctIn(entries[1..])
  }

  /** The lookup on an entity's stat dictionary, which may be missing. */
  function CombinedLifePct(stats: Option<seq<StatEntry>>): (pct: int)
  {
    match stats
    case None => FullLifePct
    case Some(entries) => LifePctIn(entries)
  }

  // ---------------------------------------------------------------------------
  // Entity categories, in the order EntityAdded tests them

  predicate IsBlockerMarker(e: Entity)
  {
    e.isValid && e.isHostile && e.metadata == BlockerMetadata
  }

  predicate IsGigantismMod(mod: Option<string>)
  {
    mod.Some? && Contains(mod.value, GigantismMod)
  }

  /** Some mod of the list names the gigantism modifier. */
  predicate HasGigantismMod(mods: seq<Option<string>>)
  {
    exists i :: 0 <= i < |mods| && IsGigantismMod(mods[i])
  }

  /** A valid hostile monster with the gigantism mod and undamaged life; EntityAdded asks this only of non-blockers. */
  predicate IsGiganticCandidate(e: Entity)
  {
    && e.isValid && e.isHostile
    && e.mods.Some? && HasGigantismMod(e.mods.value)
    && CombinedLifePct(e.stats) >= FullLifePct
  }

  predicate IsRuneMarker(e: Entity)
  {
    e.isValid && e.metadata == RuneMetadata
  }

  // ---------------------------------------------------------------------------
  // Blockers

  /** The sum of the counts of all blockers in the list. */
  function SumCounts(bs: seq<RitualBlockerInfo>): (total: int)
  {
    if bs == [] then 0 else SumCounts(bs[..|bs| - 1]) + bs[|bs| - 1].count
  }

  /** Some tracked blocker stands too close to p. */
  predicate NearExistingBlocker(bs: seq<RitualBlockerInfo>, p: GridPos)
  {
    exists i :: 0 <= i < |bs| && TooClose(bs[i].position, p)
  }

  /** No two tracked blockers stand too close to each other. */
  predicate BlockersSpread(bs: seq<RitualBlockerInfo>)
  {
    forall i, j :: 0 <= i < j < |bs| ==> !TooClose(bs[i].position, bs[j].position)
  }

  /** A blocker entity seen: dropped when near an existing blocker, else appended with the negated total. */
  function AfterBlockerSeen(bs: seq<RitualBlockerInfo>, e: Entity): (r: seq<RitualBlockerInfo>)
    ensures |bs| <= |r| <= |bs| + 1 && r[..|bs|] == bs
  {
    if NearExistingBlocker(bs, e.gridPos) then bs
    else bs + [RitualBlockerInfo(e.gridPos, -SumCounts(bs), e.id)]
  }

  /** A blocker's count after one spawn at p. */
  function Bumped(b: RitualBlockerInfo, spawn: GridPos): (r: RitualBlockerInfo)
    ensures r.position == b.position && r.entityId == b.entityId
    ensures r.count - b.count == (if InRange(b.position, spawn) then 1 else 0)
  {
    if InRange(b.position, spawn) then b.(count := b.count + 1) else b
  }

  // ---------------------------------------------------------------------------
  // The plugin's state and its transitions

  datatype TrackerState = TrackerState(
    gigantEntities: set<EntityId>,
    gigantSpawnPositions: set<GridPos>,
    processedGigantEntityIds: set<EntityId>,
    ritualRuneEntities: set<EntityId>,
    ritualBlockers: seq<RitualBlockerInfo>)

  /** The state at start-up and after every area change: everything empty. */
  function Initial(): (s: TrackerState)
  {
    TrackerState({}, {}, {}, {}, [])
  }

  /** EntityAdded: a blocker returns early; otherwise the candidate and the rune checks both run. */
  function AfterEntityAdded(s: TrackerState, e: Entity): (r: TrackerState)
  {
    if IsBlockerMarker(e) then
      s.(ritualBlockers := AfterBlockerSeen(s.ritualBlockers, e))
    else
      var s1 := if IsGiganticCandidate(e) then s.(gigantEntities := s.gigantEntities + {e.id}) else s;
      if IsRuneMarker(e) then s1.(ritualRuneEntities := s1.ritualRuneEntities + {e.id}) else s1
  }

  /** An entity the host reports as valid, alive and at full life. */
  predicate Qualifies(e: Entity)
  {
    e.isValid && !e.isDead && CombinedLifePct(e.stats) >= FullLifePct
  }

  /**
   * The tracked entities one Tick turns into spawns, given the host's current
   * view `world` of each entity (an id the host does not resolve is skipped).
   */
  function NewlyProcessed(s: TrackerState, world: map<EntityId, Entity>): (ids: set<EntityId>)
    ensures ids <= s.gigantEntities && ids !! s.processedGigantEntityIds
  {
    set id | id in s.gigantEntities && id in world && Qualifies(world[id]) && id !in s.processedGigantEntityIds
  }

  /** The entities among `ids` whose position lies within range of `blocker`. */
  function SpawnsNear(ids: set<EntityId>, world: map<EntityId, Entity>, blocker: GridPos): (near: set<EntityId>)
    ensures near <= ids
  {
    set id | id in ids && id in world && InRange(blocker, world[id].gridPos)
  }

  /** The host reports the entity as dead (an unresolved id is not). */
  predicate DeadIn(world: map<EntityId, Entity>, id: EntityId)
  {
    id in world && world[id].isDead
  }

  /** A blocker credited with every spawn of `ids` within its range. */
  function Credited(b: RitualBlockerInfo, ids: set<EntityId>, world: map<EntityId, Entity>): (r: RitualBlockerInfo)
    ensures r.position == b.position && r.entityId == b.entityId && r.count >= b.count
  {
    b.(count := b.count + |SpawnsNear(ids, world, b.position)|)
  }

  /**
   * The state after the entities `ids` have been processed: their positions
   * and ids are recorded and every blocker is credited with those in its range.
   */
  function WithSpawns(s: TrackerState, ids: set<EntityId>, world: map<EntityId, Entity>): (r: TrackerState)
  {
    s.(gigantSpawnPositions := s.gigantSpawnPositions + (set id | id in ids && id in world :: world[id].gridPos),
       processedGigantEntityIds := s.processedGigantEntityIds + ids,
       ritualBlockers := seq(|s.ritualBlockers|, i requires 0 <= i < |s.ritualBlockers| => Credited(s.ritualBlockers[i], ids, world)))
  }

  /**
   * Tick: every newly processed entity records its position and id and credits
   * every blocker within range once; afterwards the dead entities are dropped.
   */
  function AfterTick(s: TrackerState, world: map<EntityId, Entity>): (r: TrackerState)
  {
    var w := WithSpawns(s, NewlyProcessed(s, world), world);
    w.(gigantEntities := set id | id in s.gigantEntities && !DeadIn(world, id))
  }

  // ---------------------------------------------------------------------------
  // Sequences of callbacks within one area

  /** A host callback other than an area change. */
  datatype Event = Added(entity: Entity) | Ticked(world: map<EntityId, Entity>)

  /** The state after the callbacks `evs`, in order, starting from `s`. */
  function Run(s: TrackerState, evs: seq<Event>): (r: TrackerState)
    decreases |evs|
  {
    if evs == [] then s
    else
      var s1 := match evs[0]
        case Added(e) => AfterEntityAdded(s, e)
        case Ticked(w) => AfterTick(s, w);
      Run(s1, evs[1..])
  }
}
