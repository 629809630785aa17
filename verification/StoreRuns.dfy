/** Every run of the forward store: which operations may interleave, and what all
    of them keep. Records being closed live outside the lock, in `taken`; open
    reservations are the guards callers still hold, in `held`. */
module StoreRuns {
  import opened Common
  import opened ForwardEntries
  import opened ForwardStore

  datatype World = World(store: Store, held: map<ForwardId, SidePair>, taken: map<ForwardId, Candidate>)

  datatype Op =
    | Reserve(pair: SidePair, ids: seq<ForwardId>, limits: OpenLimits)
    | Commit(reserved: ForwardId, record: Record)
    | DropGuard(reserved: ForwardId)
    | Fail(id: ForwardId, error: string)
    | CountDropped(id: ForwardId, streams: nat, datagrams: nat)
    | ReserveSlot(id: ForwardId, max: nat)
    | ReleaseSlots(id: ForwardId, count: nat)
    | StartReconnect(id: ForwardId, role: SideRole, error: string, max: nat, now: nat)
    | ReopenConnect(id: ForwardId, error: string, max: nat, now: nat)
    | Ready(id: ForwardId, role: SideRole)
    | SetGeneration(id: ForwardId, generation: nat)
    | Take(ids: seq<ForwardId>)
    | Closed(id: ForwardId)
    | Restore(cands: seq<Candidate>)
    | DrainAll

  const Empty := World(Store(map[], map[], map[], 0), map[], map[])

  ghost predicate Distinct(ids: seq<ForwardId>) {
    forall i, j :: 0 <= i < j < |ids| ==> ids[i] != ids[j]
  }

  function Ids(cands: seq<Candidate>): set<ForwardId> {
    set c | c in cands :: c.forwardId
  }

  /** An entry as the bridge commits it: open, with the phase its sides imply. */
  predicate Committable(e: ForwardPortEntry) {
    e.status.StatusOpen? && e.phase == DerivePhase(e)
  }

  /** A candidate goes back as it was taken, or marked failed. */
  predicate Restorable(taken: map<ForwardId, Candidate>, c: Candidate) {
    && c.forwardId in taken
    && c.lifecycle == taken[c.forwardId].lifecycle
    && (c.entry == taken[c.forwardId].entry
        || (c.entry.lastError.Some? && c.entry == MarkEntryFailed(taken[c.forwardId].entry, c.entry.lastError.value)))
  }

  /** What the callers of the store guarantee. Guards and taken records are owned,
      so only their holder uses them; the id generator does not repeat an id that
      is still in use anywhere, closing included. */
  ghost predicate Legal(w: World, op: Op) {
    match op
    case Reserve(_, ids, _) =>
      && Distinct(ids)
      && (forall id :: id in ids ==> id !in w.store.publicEntries && id !in w.store.pendingOpens && id !in w.taken)
    case Commit(id, record) => id in w.held && Committable(record.entry)
    case DropGuard(id) => id in w.held
    case Take(ids) => Distinct(ids)
    case Closed(id) => id in w.taken
    case Restore(cands) =>
      && (forall c :: c in cands ==> Restorable(w.taken, c))
      && (forall i, j :: 0 <= i < j < |cands| ==> cands[i].forwardId != cands[j].forwardId)
    case _ => true
  }

  /** Operations that update one entry in place. */
  predicate IsUpdate(op: Op) {
    op.Fail? || op.CountDropped? || op.ReserveSlot? || op.ReleaseSlots?
    || op.StartReconnect? || op.ReopenConnect? || op.Ready? || op.SetGeneration?
  }

  /** What an update makes of an entry it is applied to. */
  function Updated(op: Op, e: ForwardPortEntry): ForwardPortEntry {
    match op
    case Fail(_, error) => MarkEntryFailed(e, error)
    case CountDropped(_, n, m) => RecordDroppedDatagrams(RecordDroppedStreams(e, n), m)
    case ReserveSlot(_, max) => ReserveActiveEntry(e, max)
    case ReleaseSlots(_, n) => ReleaseActive(e, n)
    case StartReconnect(_, role, error, _, now) => ReconnectingEntry(e, role, error, now)
    case ReopenConnect(_, error, _, now) => ReopeningEntry(e, error, now)
    case Ready(_, role) => ReadyEntry(e, role)
    case SetGeneration(_, generation) => GenerationEntry(e, generation)
    case _ => e
  }

  function Updater(op: Op): ForwardPortEntry -> ForwardPortEntry {
    (e: ForwardPortEntry) => Updated(op, e)
  }

  function AddTaken(taken: map<ForwardId, Candidate>, cands: seq<Candidate>): map<ForwardId, Candidate> {
    if cands == [] then taken
    else AddTaken(taken, cands[..|cands| - 1])[cands[|cands| - 1].forwardId := cands[|cands| - 1]]
  }

  function Apply(w: World, op: Op): World {
    var s := w.store;
    match op
    case Reserve(p, ids, limits) =>
      if HasRoom(s, p, |ids|, limits)
      then w.(store := ReserveBatch(s, p, ids, limits), held := AddPending(w.held, ids, p))
      else w
    case Commit(id, record) =>
      if id in w.held then w.(store := CommitOpen(s, id, w.held[id], record), held := w.held - {id}) else w
    case DropGuard(id) => w.(store := ReleaseReservation(s, id), held := w.held - {id})
    case StartReconnect(id, _, _, max, _) => w.(store := Reconnect(s, id, max, Updater(op)))
    case ReopenConnect(id, _, max, _) => w.(store := Reconnect(s, id, max, Updater(op)))
    case Take(ids) =>
      var (cands, s1) := TakeAll(s, ids);
      if cands.Some? then World(s1, w.held, AddTaken(w.taken, cands.value)) else w.(store := s1)
    case Closed(id) => w.(taken := w.taken - {id})
    case Restore(cands) => w.(store := RestoreAll(s, cands), taken := w.taken - Ids(cands))
    case DrainAll => w.(store := Drain(s).1)
    case _ => w.(store := MutateEntry(s, op.id, Updater(op)))
  }

  function Exec(ops: seq<Op>): World {
    if ops == [] then Empty else Apply(Exec(ops[..|ops| - 1]), ops[|ops| - 1])
  }

  ghost predicate AllLegal(ops: seq<Op>) {
    forall n :: 0 <= n < |ops| ==> Legal(Exec(ops[..n]), ops[n])
  }

  // ----- Runs in parts ----------------------------------------------------

  lemma ExecOneMore(ops: seq<Op>, op: Op)
    ensures Exec(ops + [op]) == Apply(Exec(ops), op)
    ensures AllLegal(ops + [op]) <==> AllLegal(ops) && Legal(Exec(ops), op)
  {
    hide Apply, Legal;
    var longer := ops + [op];
    assert longer[..|ops|] == ops && longer[|ops|] == op;
    assert forall n :: 0 <= n <= |ops| ==> longer[..n] == ops[..n];
    if AllLegal(longer) {
      forall n | 0 <= n < |ops|
        ensures Legal(Exec(ops[..n]), ops[n])
      {
        assert Legal(Exec(longer[..n]), longer[n]);
      }
      assert Legal(Exec(longer[..|ops|]), longer[|ops|]);
    }
  }

  lemma LegalPrefix(ops: seq<Op>, more: seq<Op>)
    requires AllLegal(ops + more)
    ensures AllLegal(ops)
  {
    hide Apply, Legal, Exec;
    forall n | 0 <= n < |ops|
      ensures Legal(Exec(ops[..n]), ops[n])
    {
      assert (ops + more)[..n] == ops[..n] && (ops + more)[n] == ops[n];
    }
  }

  lemma LastApart(ops: seq<Op>, more: seq<Op>)
    requires more != []
    ensures ops + more == (ops + more[..|more| - 1]) + [more[|more| - 1]]
  {
  }

  // ----- The invariant ----------------------------------------------------

  ghost predicate EntryOk(e: ForwardPortEntry) {
    && e.phase == DerivePhase(e)
    && !e.status.StatusClosed?
    && (e.status.StatusFailed? ==> e.phase.PhaseFailed?)
  }

  /** The two halves of every record are there, every entry's phase is the derived
      one, and the cached count is what a recount would give. */
  ghost predicate StoreOk(s: Store) {
    && s.publicEntries.Keys == s.lifecycleEntries.Keys
    && s.reconnectingCount == |ReconnectingIds(s.publicEntries)|
    && (forall id :: id in s.publicEntries ==> s.publicEntries[id].forwardId == id && EntryOk(s.publicEntries[id]))
  }

  ghost predicate TakenOk(taken: map<ForwardId, Candidate>) {
    forall id :: id in taken ==>
      taken[id].forwardId == id && taken[id].entry.forwardId == id && EntryOk(taken[id].entry)
  }

  /** Moreover pending ids, public ids and ids being closed never meet, and the
      pending opens are exactly the guards still held. */
  ghost predicate WorldOk(w: World) {
    && StoreOk(w.store)
    && TakenOk(w.taken)
    && w.store.pendingOpens == w.held
    && w.store.pendingOpens.Keys !! w.store.publicEntries.Keys
    && w.taken.Keys !! w.store.publicEntries.Keys
    && w.taken.Keys !! w.store.pendingOpens.Keys
  }

  // ----- Updates in place -------------------------------------------------

  predicate IsReconnectOp(op: Op) {
    op.StartReconnect? || op.ReopenConnect?
  }

  /** What an update does to the store. */
  function UpdatedStore(s: Store, op: Op): Store
    requires IsUpdate(op)
  {
    if IsReconnectOp(op) then Reconnect(s, op.id, op.max, Updater(op)) else MutateEntry(s, op.id, Updater(op))
  }

  lemma ApplyUpdate(w: World, op: Op)
    requires IsUpdate(op)
    ensures Apply(w, op) == w.(store := UpdatedStore(w.store, op))
  {
    hide Reconnect, MutateEntry, Updated;
  }

  // ----- One entry at a time ----------------------------------------------

  lemma CardinalitySplit(ids: set<ForwardId>, id: ForwardId)
    ensures |ids| == |ids - {id}| + (if id in ids then 1 else 0)
  {
    assert id !in ids ==> ids - {id} == ids;
  }

  lemma RecountPut(entries: map<ForwardId, ForwardPortEntry>, id: ForwardId, e: ForwardPortEntry)
    ensures |ReconnectingIds(entries[id := e])|
         == |ReconnectingIds(entries)|
            - (if id in entries && IsReconnecting(entries[id]) then 1 else 0)
            + (if IsReconnecting(e) then 1 else 0)
    ensures id in entries && IsReconnecting(entries[id]) ==> |ReconnectingIds(entries)| >= 1
  {
    hide IsReconnecting, ReconnectingIds;
    ReconnectingPut(entries, id, e);
    CardinalitySplit(ReconnectingIds(entries), id);
    CardinalitySplit(ReconnectingIds(entries[id := e]), id);
  }

  lemma ReconnectingPut(entries: map<ForwardId, ForwardPortEntry>, id: ForwardId, e: ForwardPortEntry)
    ensures ReconnectingIds(entries[id := e]) - {id} == ReconnectingIds(entries) - {id}
    ensures id in ReconnectingIds(entries[id := e]) <==> IsReconnecting(e)
    ensures id in ReconnectingIds(entries) <==> id in entries && IsReconnecting(entries[id])
  {
    hide IsReconnecting;
  }

  lemma RecountRemove(entries: map<ForwardId, ForwardPortEntry>, id: ForwardId)
    requires id in entries
    ensures |ReconnectingIds(entries - {id})|
         == |ReconnectingIds(entries)| - (if IsReconnecting(entries[id]) then 1 else 0)
  {
    hide IsReconnecting;
    assert ReconnectingIds(entries - {id}) == ReconnectingIds(entries) - {id};
    CardinalitySplit(ReconnectingIds(entries), id);
  }

  lemma InsertKeeps(s: Store, e: ForwardPortEntry, lifecycle: Lifecycle)
    requires StoreOk(s)
    requires EntryOk(e)
    ensures StoreOk(InsertForward(s, e, lifecycle))
  {
    RecountPut(s.publicEntries, e.forwardId, e);
  }

  /** An update of one entry that keeps its identity and its phase consistent. */
  lemma MutateKeeps(s: Store, id: ForwardId, f: ForwardPortEntry -> ForwardPortEntry)
    requires StoreOk(s)
    requires id in s.publicEntries ==>
               f(s.publicEntries[id]).forwardId == id && EntryOk(f(s.publicEntries[id]))
    ensures StoreOk(MutateEntry(s, id, f))
    ensures MutateEntry(s, id, f).publicEntries.Keys == s.publicEntries.Keys
    ensures MutateEntry(s, id, f).pendingOpens == s.pendingOpens
  {
    if id in s.publicEntries {
      RecountPut(s.publicEntries, id, f(s.publicEntries[id]));
    }
  }

  lemma ReconnectKeeps(s: Store, id: ForwardId, max: nat, f: ForwardPortEntry -> ForwardPortEntry)
    requires StoreOk(s)
    requires id in s.publicEntries && s.publicEntries[id].status.StatusOpen? ==>
               f(s.publicEntries[id]).forwardId == id && EntryOk(f(s.publicEntries[id]))
    ensures StoreOk(Reconnect(s, id, max, f))
    ensures Reconnect(s, id, max, f).publicEntries.Keys == s.publicEntries.Keys
    ensures Reconnect(s, id, max, f).pendingOpens == s.pendingOpens
  {
    if !MayReconnect(s, id, max) {
      RecountPut(s.publicEntries, id, MarkEntryFailed(s.publicEntries[id], RECONNECT_LIMIT_EXCEEDED));
    } else if id in s.publicEntries && s.publicEntries[id].status.StatusOpen? {
      MutateKeeps(s, id, f);
    }
  }

  lemma TakeKeeps(s: Store, id: ForwardId)
    requires StoreOk(s)
    requires id in s.publicEntries
    ensures var (c, s') := TakeForward(s, id);
            && StoreOk(s')
            && c == Some(Candidate(id, s.publicEntries[id], s.lifecycleEntries[id]))
            && s'.publicEntries == s.publicEntries - {id}
            && s'.lifecycleEntries == s.lifecycleEntries - {id}
            && s'.pendingOpens == s.pendingOpens
  {
    RecountRemove(s.publicEntries, id);
  }

  // ----- Batches ----------------------------------------------------------

  ghost function IdSet(ids: seq<ForwardId>): set<ForwardId> {
    set id | id in ids
  }

  /** Taking distinct known ids always succeeds, in order, and removes exactly them. */
  lemma {:induction false} TakeAllExact(s: Store, ids: seq<ForwardId>)
    requires Distinct(ids)
    requires forall id :: id in ids ==> id in s.publicEntries && id in s.lifecycleEntries
    ensures var (cands, s') := TakeAll(s, ids);
            && cands.Some? && |cands.value| == |ids|
            && (forall i :: 0 <= i < |ids| ==>
                  ids[i] in s.publicEntries && ids[i] in s.lifecycleEntries
                  && cands.value[i] == Candidate(ids[i], s.publicEntries[ids[i]], s.lifecycleEntries[ids[i]]))
            && s'.publicEntries == s.publicEntries - IdSet(ids)
            && s'.lifecycleEntries == s.lifecycleEntries - IdSet(ids)
            && s'.pendingOpens == s.pendingOpens
  {
    hide IsReconnecting, IdSet;
    if ids == [] {
      assert IdSet(ids) == {} by { IdSetNone(); }
    } else {
      var n := |ids| - 1;
      TakeAllExact(s, ids[..n]);
      var last := ids[n];
      assert last !in ids[..n];
      IdSetLast(ids);
      assert last in ids;
      assert s.publicEntries - IdSet(ids) == s.publicEntries - IdSet(ids[..n]) - {last};
      assert s.lifecycleEntries - IdSet(ids) == s.lifecycleEntries - IdSet(ids[..n]) - {last};
    }
  }

  lemma IdSetNone()
    ensures IdSet([]) == {}
  {
  }

  lemma IdSetLast(ids: seq<ForwardId>)
    requires ids != []
    ensures IdSet(ids) == IdSet(ids[..|ids| - 1]) + {ids[|ids| - 1]}
    ensures ids[|ids| - 1] in IdSet(ids[..|ids| - 1]) <==> ids[|ids| - 1] in ids[..|ids| - 1]
  {
    assert ids == ids[..|ids| - 1] + [ids[|ids| - 1]];
  }

  /** The position of the first id that is not there, or the number of ids. */
  function FirstMissing(s: Store, ids: seq<ForwardId>): (k: nat)
    ensures k <= |ids|
    ensures forall i :: 0 <= i < k ==> ids[i] in s.publicEntries
    ensures k < |ids| ==> ids[k] !in s.publicEntries
  {
    if ids == [] then 0
    else
      var k := FirstMissing(s, ids[..|ids| - 1]);
      if k < |ids| - 1 || ids[k] !in s.publicEntries then k else k + 1
  }

  lemma {:induction false} TakeStops(s: Store, ids: seq<ForwardId>, n: nat)
    requires n <= |ids|
    requires TakeAll(s, ids[..n]).0.None?
    ensures TakeAll(s, ids) == (None, TakeAll(s, ids[..n]).1)
    decreases |ids| - n
  {
    if n == |ids| {
      assert ids[..n] == ids;
    } else {
      assert ids[..n + 1][..n] == ids[..n];
      TakeStops(s, ids, n + 1);
    }
  }

  /** Taking distinct ids removes those before the first missing one, and
      succeeds exactly when none is missing. */
  lemma TakenPart(s: Store, ids: seq<ForwardId>)
    requires Distinct(ids)
    requires s.publicEntries.Keys == s.lifecycleEntries.Keys
    ensures var k := FirstMissing(s, ids); var (cands, s') := TakeAll(s, ids);
            && (cands.Some? <==> k == |ids|)
            && s' == TakeAll(s, ids[..k]).1
            && s'.publicEntries == s.publicEntries - IdSet(ids[..k])
            && s'.lifecycleEntries == s.lifecycleEntries - IdSet(ids[..k])
            && s'.pendingOpens == s.pendingOpens
  {
    hide IsReconnecting, IdSet;
    var k := FirstMissing(s, ids);
    TakeAllExact(s, ids[..k]);
    if k < |ids| {
      assert ids[..k + 1][..k] == ids[..k];
      assert TakeAll(s, ids[..k + 1]) == (None, TakeAll(s, ids[..k]).1);
      TakeStops(s, ids, k + 1);
    } else {
      assert ids[..k] == ids;
    }
  }

  lemma {:induction false} TakeAllKeeps(s: Store, ids: seq<ForwardId>)
    requires StoreOk(s)
    requires Distinct(ids)
    requires forall id :: id in ids ==> id in s.publicEntries
    ensures StoreOk(TakeAll(s, ids).1)
  {
    if ids != [] {
      var n := |ids| - 1;
      TakeAllKeeps(s, ids[..n]);
      TakeAllExact(s, ids[..n]);
      assert ids[n] in ids && ids[n] !in ids[..n];
      hide TakeForward, ReconnectingIds, EntryOk;
      TakeKeeps(TakeAll(s, ids[..n]).1, ids[n]);
    }
  }

  lemma IdsOneMore(cands: seq<Candidate>)
    requires cands != []
    ensures Ids(cands) == Ids(cands[..|cands| - 1]) + {cands[|cands| - 1].forwardId}
  {
    assert cands == cands[..|cands| - 1] + [cands[|cands| - 1]];
  }

  lemma {:induction false} RestoreKeeps(s: Store, cands: seq<Candidate>)
    requires StoreOk(s)
    requires forall c :: c in cands ==> c.entry.forwardId == c.forwardId && EntryOk(c.entry)
    ensures StoreOk(RestoreAll(s, cands))
    ensures RestoreAll(s, cands).publicEntries.Keys == s.publicEntries.Keys + Ids(cands)
    ensures RestoreAll(s, cands).pendingOpens == s.pendingOpens
  {
    if cands != [] {
      var n := |cands| - 1;
      assert cands == cands[..n] + [cands[n]];
      RestoreKeeps(s, cands[..n]);
      IdsOneMore(cands);
      InsertKeeps(RestoreAll(s, cands[..n]), cands[n].entry, cands[n].lifecycle);
    }
  }

  /** Restoring candidates with distinct ids puts exactly their halves back. */
  lemma {:induction false} RestoredAt(s: Store, cands: seq<Candidate>, i: nat)
    requires i < |cands|
    requires forall c :: c in cands ==> c.entry.forwardId == c.forwardId
    requires forall j :: i < j < |cands| ==> cands[j].forwardId != cands[i].forwardId
    ensures var s' := RestoreAll(s, cands); var id := cands[i].forwardId;
            && id in s'.publicEntries && s'.publicEntries[id] == cands[i].entry
            && id in s'.lifecycleEntries && s'.lifecycleEntries[id] == cands[i].lifecycle
  {
    hide IsReconnecting;
    var n := |cands| - 1;
    assert cands[n] in cands;
    if i < n {
      RestoredAt(s, cands[..n], i);
    }
  }

  lemma {:induction false} RestoredElsewhere(s: Store, cands: seq<Candidate>, id: ForwardId)
    requires forall c :: c in cands ==> c.entry.forwardId == c.forwardId && c.forwardId != id
    ensures var s' := RestoreAll(s, cands);
            && (id in s'.publicEntries <==> id in s.publicEntries)
            && (id in s.publicEntries ==> s'.publicEntries[id] == s.publicEntries[id])
            && (id in s'.lifecycleEntries <==> id in s.lifecycleEntries)
            && (id in s.lifecycleEntries ==> s'.lifecycleEntries[id] == s.lifecycleEntries[id])
  {
    hide IsReconnecting;
    if cands != [] {
      assert cands[|cands| - 1] in cands;
      RestoredElsewhere(s, cands[..|cands| - 1], id);
    }
  }

  lemma {:induction false} AddPendingKeys(pending: map<ForwardId, SidePair>, ids: seq<ForwardId>, p: SidePair)
    ensures AddPending(pending, ids, p).Keys == pending.Keys + (set id | id in ids)
    ensures forall id :: id in AddPending(pending, ids, p) ==>
              AddPending(pending, ids, p)[id] == if id in ids then p else pending[id]
  {
    if ids != [] {
      var n := |ids| - 1;
      assert ids == ids[..n] + [ids[n]];
      AddPendingKeys(pending, ids[..n], p);
    }
  }

  lemma {:induction false} AddTakenKeeps(taken: map<ForwardId, Candidate>, cands: seq<Candidate>)
    requires TakenOk(taken)
    requires forall c :: c in cands ==> c.entry.forwardId == c.forwardId && EntryOk(c.entry)
    ensures TakenOk(AddTaken(taken, cands))
    ensures AddTaken(taken, cands).Keys == taken.Keys + Ids(cands)
  {
    if cands != [] {
      var n := |cands| - 1;
      assert cands == cands[..n] + [cands[n]];
      AddTakenKeeps(taken, cands[..n]);
      IdsOneMore(cands);
    }
  }

  // ----- Every operation, every run ---------------------------------------

  /** The candidates are the records of the ids asked for. */
  lemma TakenCandidates(s: Store, ids: seq<ForwardId>)
    requires StoreOk(s)
    requires Distinct(ids)
    requires forall id :: id in ids ==> id in s.publicEntries
    ensures var cands := TakeAll(s, ids).0;
            && cands.Some?
            && Ids(cands.value) == IdSet(ids)
            && (forall c :: c in cands.value ==> c.entry.forwardId == c.forwardId && EntryOk(c.entry))
  {
    hide TakeAll, ReconnectingIds, EntryOk;
    TakeAllExact(s, ids);
    var cands := TakeAll(s, ids).0.value;
    forall c | c in cands ensures c.forwardId in ids && c.entry.forwardId == c.forwardId && EntryOk(c.entry) {
      var i :| 0 <= i < |cands| && cands[i] == c;
    }
    forall id | id in ids ensures id in Ids(cands) {
      var i :| 0 <= i < |ids| && ids[i] == id;
      assert cands[i] in cands;
    }
  }

  lemma TakeOpKeeps(w: World, ids: seq<ForwardId>)
    requires WorldOk(w)
    requires Legal(w, Take(ids))
    ensures WorldOk(Apply(w, Take(ids)))
  {
    hide TakeAll, AddTaken, TakenOk, StoreOk, FirstMissing, IdSet;
    var k := FirstMissing(w.store, ids);
    KnownHalves(w.store);
    TakenPart(w.store, ids);
    TakeAllKeeps(w.store, ids[..k]);
    if k == |ids| {
      assert ids[..k] == ids;
      TakenCandidates(w.store, ids);
      AddTakenKeeps(w.taken, TakeAll(w.store, ids).0.value);
      IdSetWithin(w.store, ids);
    }
  }

  lemma IdSetWithin(s: Store, ids: seq<ForwardId>)
    requires forall i :: 0 <= i < |ids| ==> ids[i] in s.publicEntries
    ensures IdSet(ids) <= s.publicEntries.Keys
  {
  }

  lemma KnownHalves(s: Store)
    requires StoreOk(s)
    ensures s.publicEntries.Keys == s.lifecycleEntries.Keys
  {
  }

  lemma RestoreOpKeeps(w: World, cands: seq<Candidate>)
    requires WorldOk(w)
    requires Legal(w, Restore(cands))
    ensures WorldOk(Apply(w, Restore(cands)))
  {
    forall c | c in cands ensures c.entry.forwardId == c.forwardId && EntryOk(c.entry) && c.forwardId in w.taken {
      assert Restorable(w.taken, c);
    }
    RestoreKeeps(w.store, cands);
    forall id | id in Ids(cands) ensures id in w.taken {
      var c :| c in cands && c.forwardId == id;
    }
  }

  lemma ReserveOpKeeps(w: World, p: SidePair, ids: seq<ForwardId>, limits: OpenLimits)
    requires WorldOk(w)
    requires Legal(w, Reserve(p, ids, limits))
    ensures WorldOk(Apply(w, Reserve(p, ids, limits)))
  {
    AddPendingKeys(w.held, ids, p);
  }

  lemma CommitOpKeeps(w: World, id: ForwardId, record: Record)
    requires WorldOk(w)
    requires Legal(w, Commit(id, record))
    ensures WorldOk(Apply(w, Commit(id, record)))
  {
    InsertKeeps(ReleaseReservation(w.store, id), record.entry, record.lifecycle);
  }

  lemma UpdatedOk(op: Op, e: ForwardPortEntry)
    requires EntryOk(e)
    requires op.StartReconnect? || op.ReopenConnect? ==> e.status.StatusOpen?
    ensures EntryOk(Updated(op, e))
    ensures Updated(op, e).forwardId == e.forwardId && PairOf(Updated(op, e)) == PairOf(e)
    ensures e.status.StatusFailed? ==> Updated(op, e).status.StatusFailed?
  {
  }

  lemma UpdateOpKeeps(w: World, op: Op)
    requires WorldOk(w)
    requires IsUpdate(op)
    ensures WorldOk(Apply(w, op))
  {
    hide StoreOk, Apply, UpdatedStore, TakenOk;
    ApplyUpdate(w, op);
    UpdatedStoreKeeps(w.store, op);
  }

  lemma UpdatedStoreKeeps(s: Store, op: Op)
    requires StoreOk(s) && IsUpdate(op)
    ensures StoreOk(UpdatedStore(s, op))
    ensures UpdatedStore(s, op).publicEntries.Keys == s.publicEntries.Keys
    ensures UpdatedStore(s, op).pendingOpens == s.pendingOpens
  {
    hide ReconnectingIds, EntryOk, Updated, Reconnect, MutateEntry;
    if op.id in s.publicEntries {
      var e := s.publicEntries[op.id];
      if IsReconnectOp(op) ==> e.status.StatusOpen? {
        UpdatedOk(op, e);
      }
    }
    if IsReconnectOp(op) {
      ReconnectKeeps(s, op.id, op.max, Updater(op));
    } else {
      MutateKeeps(s, op.id, Updater(op));
    }
  }

  /** Every operation keeps the invariant. */
  lemma ApplyKeeps(w: World, op: Op)
    requires WorldOk(w)
    requires Legal(w, op)
    ensures WorldOk(Apply(w, op))
  {
    hide Legal;
    if IsUpdate(op) {
      hide WorldOk, Apply;
      UpdateOpKeeps(w, op);
    } else {
      match op
      case Reserve(p, ids, limits) => ReserveOpKeeps(w, p, ids, limits);
      case Commit(id, record) => CommitOpKeeps(w, id, record);
      case Take(ids) => TakeOpKeeps(w, ids);
      case Restore(cands) => RestoreOpKeeps(w, cands);
      case _ =>
    }
  }

  /** In every reachable state of the store: the cached count is the recount, the
      halves of every record are both there, every phase is the derived one, and
      pending, public and closing ids are disjoint. */
  lemma {:induction false} ReachableOk(ops: seq<Op>)
    requires AllLegal(ops)
    ensures WorldOk(Exec(ops))
  {
    if ops != [] {
      var n := |ops| - 1;
      assert forall k :: 0 <= k <= n ==> ops[..n][..k] == ops[..k];
      assert Legal(Exec(ops[..n]), ops[n]);
      ReachableOk(ops[..n]);
      ApplyKeeps(Exec(ops[..n]), ops[n]);
    }
  }
}
