/** The forward store (`store.rs`): the state behind its lock, and each operation
    as the update it makes while holding that lock. */
module ForwardStore {
  import opened Common
  import opened ForwardEntries

  datatype SidePair = SidePair(listenSide: string, connectSide: string)

  datatype SideOwner = BrokerHost | Target(name: string, daemonInstanceId: string)

  /** What is needed to stop a forward; `session` stands for its listen session and task. */
  datatype Lifecycle = Lifecycle(session: nat, listenOwner: SideOwner, connectOwner: SideOwner)

  datatype Record = Record(entry: ForwardPortEntry, lifecycle: Lifecycle)

  /** A record that was taken out of the store to be closed. */
  datatype Candidate = Candidate(forwardId: ForwardId, entry: ForwardPortEntry, lifecycle: Lifecycle)

  datatype OpenLimits = OpenLimits(maxOpenTotal: nat, maxPerSidePair: nat)

  datatype Store = Store(
    publicEntries: map<ForwardId, ForwardPortEntry>,
    lifecycleEntries: map<ForwardId, Lifecycle>,
    pendingOpens: map<ForwardId, SidePair>,
    reconnectingCount: nat)

  function PairOf(e: ForwardPortEntry): SidePair {
    SidePair(e.listenSide, e.connectSide)
  }

  // ----- Counting ---------------------------------------------------------

  function OpenCount(s: Store): nat {
    |s.publicEntries| + |s.pendingOpens|
  }

  function KeysWith<P(==)>(m: map<ForwardId, P>, v: P): set<ForwardId> {
    set id | id in m && m[id] == v
  }

  function Pairs(entries: map<ForwardId, ForwardPortEntry>): map<ForwardId, SidePair> {
    map id | id in entries :: PairOf(entries[id])
  }

  function SidePairCount(s: Store, p: SidePair): nat {
    |KeysWith(Pairs(s.publicEntries), p)| + |KeysWith(s.pendingOpens, p)|
  }

  /** The entries a recount would find reconnecting. */
  function ReconnectingIds(entries: map<ForwardId, ForwardPortEntry>): set<ForwardId> {
    set id | id in entries && IsReconnecting(entries[id])
  }

  function AdjustCount(count: nat, before: bool, after: bool): nat {
    if !before && after then count + 1
    else if before && !after then SaturatingSub(count, 1)
    else count
  }

  // ----- Opening ----------------------------------------------------------

  predicate HasRoom(s: Store, p: SidePair, requested: nat, limits: OpenLimits) {
    && OpenCount(s) + requested <= limits.maxOpenTotal
    && SidePairCount(s, p) + requested <= limits.maxPerSidePair
  }

  function AddPending(pending: map<ForwardId, SidePair>, ids: seq<ForwardId>, p: SidePair): map<ForwardId, SidePair> {
    if ids == [] then pending else AddPending(pending, ids[..|ids| - 1], p)[ids[|ids| - 1] := p]
  }

  /** `reserve_open_batch`, given the ids its generator finds unused. */
  function ReserveBatch(s: Store, p: SidePair, ids: seq<ForwardId>, limits: OpenLimits): Store {
    if HasRoom(s, p, |ids|, limits) then s.(pendingOpens := AddPending(s.pendingOpens, ids, p)) else s
  }

  function ReleaseReservation(s: Store, id: ForwardId): Store {
    s.(pendingOpens := s.pendingOpens - {id})
  }

  predicate CommitSucceeds(s: Store, id: ForwardId, p: SidePair, record: Record) {
    record.entry.forwardId == id && PairOf(record.entry) == p && id in s.pendingOpens
  }

  function CommitOpen(s: Store, id: ForwardId, p: SidePair, record: Record): Store {
    var s1 := ReleaseReservation(s, id);
    if CommitSucceeds(s, id, p, record) then InsertForward(s1, record.entry, record.lifecycle) else s1
  }

  function InsertForward(s: Store, e: ForwardPortEntry, lifecycle: Lifecycle): Store {
    var id := e.forwardId;
    var count := if id in s.publicEntries && IsReconnecting(s.publicEntries[id])
                 then SaturatingSub(s.reconnectingCount, 1) else s.reconnectingCount;
    s.(publicEntries := s.publicEntries[id := e],
       lifecycleEntries := s.lifecycleEntries[id := lifecycle],
       reconnectingCount := if IsReconnecting(e) then count + 1 else count)
  }

  // ----- Updating one entry -----------------------------------------------

  function MutateEntry(s: Store, id: ForwardId, f: ForwardPortEntry -> ForwardPortEntry): Store {
    if id !in s.publicEntries then s
    else
      var e := s.publicEntries[id];
      s.(publicEntries := s.publicEntries[id := f(e)],
         reconnectingCount := AdjustCount(s.reconnectingCount, IsReconnecting(e), IsReconnecting(f(e))))
  }

  function ReadyEntry(e: ForwardPortEntry, role: SideRole): ForwardPortEntry {
    if !e.status.StatusOpen? then e
    else WithDerivedPhase(
      match role
      case ListenSide => e.(listenState := SideReady(e.listenState))
      case ConnectSide => e.(connectState := SideReady(e.connectState)))
  }

  function GenerationEntry(e: ForwardPortEntry, generation: nat): ForwardPortEntry {
    if !e.status.StatusOpen? then e
    else e.(listenState := e.listenState.(generation := generation), connectState := e.connectState.(generation := generation))
  }

  /** A missing entry does not refuse. */
  predicate ReserveActiveGranted(s: Store, id: ForwardId, max: nat) {
    id !in s.publicEntries || HasFreeSlot(s.publicEntries[id], max)
  }

  const RECONNECT_LIMIT_EXCEEDED: string := "port_forward_limit_exceeded: broker reconnecting forward limit reached"

  /** A forward that is not reconnecting yet may start only below the limit. */
  predicate MayReconnect(s: Store, id: ForwardId, max: nat) {
    || id !in s.publicEntries
    || !s.publicEntries[id].status.StatusOpen?
    || IsReconnecting(s.publicEntries[id])
    || s.reconnectingCount < max
  }

  function ReconnectingEntry(e: ForwardPortEntry, role: SideRole, error: string, now: nat): ForwardPortEntry {
    var e1 := PrepareReconnect(e, now);
    WithDerivedPhase(
      match role
      case ListenSide => e1.(listenState := SideReconnecting(e1.listenState, error))
      case ConnectSide => e1.(connectState := SideReconnecting(e1.connectState, error)))
  }

  function ReopeningEntry(e: ForwardPortEntry, error: string, now: nat): ForwardPortEntry {
    var e1 := PrepareReconnect(e, now);
    WithDerivedPhase(e1.(listenState := SideReady(e1.listenState), connectState := SideReconnecting(e1.connectState, error)))
  }

  /** Both reconnect operations: refused ones fail the entry without touching the
      counter, granted ones update an open entry. */
  function Reconnect(s: Store, id: ForwardId, max: nat, f: ForwardPortEntry -> ForwardPortEntry): Store {
    if !MayReconnect(s, id, max) then
      s.(publicEntries := s.publicEntries[id := MarkEntryFailed(s.publicEntries[id], RECONNECT_LIMIT_EXCEEDED)])
    else if id in s.publicEntries && s.publicEntries[id].status.StatusOpen? then
      MutateEntry(s, id, f)
    else s
  }

  // ----- Taking records out and putting them back -------------------------

  /** `take_forward`: nothing changes unless both halves of the record are there. */
  function TakeForward(s: Store, id: ForwardId): (Option<Candidate>, Store) {
    if id !in s.publicEntries || id !in s.lifecycleEntries then (None, s)
    else
      var e := s.publicEntries[id];
      (Some(Candidate(id, e, s.lifecycleEntries[id])),
       s.(publicEntries := s.publicEntries - {id},
          lifecycleEntries := s.lifecycleEntries - {id},
          reconnectingCount := if IsReconnecting(e) then SaturatingSub(s.reconnectingCount, 1) else s.reconnectingCount))
  }

  /** The loop of `take_close_candidates`: stops at the first id that cannot be taken. */
  function TakeAll(s: Store, ids: seq<ForwardId>): (Option<seq<Candidate>>, Store) {
    if ids == [] then (Some([]), s)
    else
      var (before, s1) := TakeAll(s, ids[..|ids| - 1]);
      if before.None? then (None, s1)
      else
        var (c, s2) := TakeForward(s1, ids[|ids| - 1]);
        (if c.None? then None else Some(before.value + [c.value]), s2)
  }

  function RestoreAll(s: Store, cands: seq<Candidate>): Store {
    if cands == [] then s
    else
      var last := cands[|cands| - 1];
      InsertForward(RestoreAll(s, cands[..|cands| - 1]), last.entry, last.lifecycle)
  }

  function Drain(s: Store): (map<ForwardId, Record>, Store) {
    (map id | id in s.publicEntries && id in s.lifecycleEntries :: Record(s.publicEntries[id], s.lifecycleEntries[id]),
     s.(publicEntries := map[], lifecycleEntries := map[], reconnectingCount := 0))
  }
}
