/** What each update of one forward makes of it, and what it leaves alone, in
    every reachable state; and what the phases, counts and drains of the store
    amount to in the fields of its entries. */
module StoreUpdates {
  import opened Common
  import opened ForwardEntries
  import opened ForwardStore
  import opened StoreRuns
  import opened StoreRecovery

  // ----- One forward ------------------------------------------------------

  /** The side that `role` names, and the other one. */
  function Named(e: ForwardPortEntry, role: SideRole): SideState {
    if role.ListenSide? then e.listenState else e.connectState
  }

  function Other(e: ForwardPortEntry, role: SideRole): SideState {
    if role.ListenSide? then e.connectState else e.listenState
  }

  /** Everything but the sides, the phase and the record of reconnects. */
  predicate SameApartFromSides(e: ForwardPortEntry, e': ForwardPortEntry) {
    e' == e.(listenState := e'.listenState, connectState := e'.connectState, phase := e'.phase,
             reconnectAttempts := e'.reconnectAttempts, lastReconnectAt := e'.lastReconnectAt)
  }

  /** One more attempt, at this time. */
  predicate OneMoreAttempt(e: ForwardPortEntry, e': ForwardPortEntry, now: nat) {
    e'.reconnectAttempts == e.reconnectAttempts + 1 && e'.lastReconnectAt == Some(now)
  }

  predicate NoMoreAttempts(e: ForwardPortEntry, e': ForwardPortEntry) {
    e'.reconnectAttempts == e.reconnectAttempts && e'.lastReconnectAt == e.lastReconnectAt
  }

  /** The side is being reconnected, because of `error`. */
  predicate Lost(side: SideState, side': SideState, error: string) {
    side' == SideState(side.generation, Reconnecting, Some(error))
  }

  predicate Up(side: SideState, side': SideState) {
    side' == SideState(side.generation, Health.Ready, None)
  }

  /** The forward may start to reconnect, or go on: it does so already, or fewer
      than `max` forwards do. */
  predicate Admitted(s: Store, e: ForwardPortEntry, max: nat) {
    e.phase.PhaseReconnecting? || s.reconnectingCount < max
  }

  const LIMIT_MESSAGE: string := "port_forward_limit_exceeded: broker reconnecting forward limit reached"

  /** What an update makes of the entry it is for. */
  ghost predicate Becomes(s: Store, op: Op, e: ForwardPortEntry, e': ForwardPortEntry)
    requires IsUpdate(op)
  {
    match op
    case Fail(_, error) => ShowsFailed(e, e', error)
    case CountDropped(_, n, m) =>
      && e' == e.(droppedTcpStreams := e'.droppedTcpStreams, droppedUdpDatagrams := e'.droppedUdpDatagrams)
      && (e.droppedTcpStreams <= U64_MAX ==> e'.droppedTcpStreams == Capped(e.droppedTcpStreams + n))
      && (e.droppedUdpDatagrams <= U64_MAX ==> e'.droppedUdpDatagrams == Capped(e.droppedUdpDatagrams + m))
    case ReserveSlot(_, max) =>
      e' == e.(activeTcpStreams := if e.activeTcpStreams < max then e.activeTcpStreams + 1 else e.activeTcpStreams)
    case ReleaseSlots(_, n) =>
      e' == e.(activeTcpStreams := if n <= e.activeTcpStreams then e.activeTcpStreams - n else 0)
    case _ => if e.status.StatusOpen? then OpenBecomes(s, op, e, e') else e' == e
  }

  /** The updates that concern open forwards only. */
  ghost predicate OpenBecomes(s: Store, op: Op, e: ForwardPortEntry, e': ForwardPortEntry)
    requires op.StartReconnect? || op.ReopenConnect? || op.Ready? || op.SetGeneration?
  {
    match op
    case StartReconnect(_, role, error, max, now) =>
      if !Admitted(s, e, max) then ShowsFailed(e, e', LIMIT_MESSAGE)
      else
        && SameApartFromSides(e, e') && OneMoreAttempt(e, e', now)
        && Lost(Named(e, role), Named(e', role), error) && Other(e', role) == Other(e, role)
    case ReopenConnect(_, error, max, now) =>
      if !Admitted(s, e, max) then ShowsFailed(e, e', LIMIT_MESSAGE)
      else
        && SameApartFromSides(e, e') && OneMoreAttempt(e, e', now)
        && Up(e.listenState, e'.listenState) && Lost(e.connectState, e'.connectState, error)
    case Ready(_, role) =>
      && SameApartFromSides(e, e') && NoMoreAttempts(e, e')
      && Up(Named(e, role), Named(e', role)) && Other(e', role) == Other(e, role)
    case SetGeneration(_, generation) =>
      e' == e.(listenState := e.listenState.(generation := generation), connectState := e.connectState.(generation := generation))
  }

  lemma UpdatedBecomes(s: Store, op: Op, e: ForwardPortEntry)
    requires op.Fail? || op.CountDropped? || op.ReserveSlot? || op.ReleaseSlots?
    ensures Becomes(s, op, e, Updated(op, e))
  {
  }

  lemma UpdatedOpenBecomes(s: Store, op: Op, e: ForwardPortEntry)
    requires op.StartReconnect? || op.ReopenConnect? || op.Ready? || op.SetGeneration?
    requires IsReconnectOp(op) ==> Admitted(s, e, op.max)
    ensures e.status.StatusOpen? ==> OpenBecomes(s, op, e, Updated(op, e))
    ensures !e.status.StatusOpen? && !IsReconnectOp(op) ==> Updated(op, e) == e
  {
  }

  lemma EntryBecomes(w: World, op: Op)
    requires WorldOk(w) && IsUpdate(op) && op.id in w.store.publicEntries
    ensures op.id in Apply(w, op).store.publicEntries
    ensures Becomes(w.store, op, w.store.publicEntries[op.id], Apply(w, op).store.publicEntries[op.id])
  {
    hide Apply, Updated, MarkEntryFailed, OpenBecomes, WorldOk, MayReconnect;
    UpdateAt(w, op);
    var e := w.store.publicEntries[op.id];
    if op.Fail? || op.CountDropped? || op.ReserveSlot? || op.ReleaseSlots? {
      UpdatedBecomes(w.store, op, e);
    } else {
      if IsReconnectOp(op) {
        MayReconnectPlainly(w, op.id, op.max);
        FailedBecomes(w.store, op, e);
      }
      if IsReconnectOp(op) ==> Admitted(w.store, e, op.max) {
        UpdatedOpenBecomes(w.store, op, e);
      }
    }
  }

  lemma FailedBecomes(s: Store, op: Op, e: ForwardPortEntry)
    requires IsReconnectOp(op)
    ensures !Admitted(s, e, op.max) ==> OpenBecomes(s, op, e, MarkEntryFailed(e, RECONNECT_LIMIT_EXCEEDED))
  {
  }

  lemma MayReconnectPlainly(w: World, id: ForwardId, max: nat)
    requires WorldOk(w) && id in w.store.publicEntries
    ensures w.store.publicEntries[id].status.StatusOpen? ==>
              (MayReconnect(w.store, id, max) <==> Admitted(w.store, w.store.publicEntries[id], max))
    ensures !w.store.publicEntries[id].status.StatusOpen? ==> MayReconnect(w.store, id, max)
  {
    hide TakenOk, ReconnectingIds;
  }

  lemma UpdateLeavesRest(w: World, op: Op)
    requires IsUpdate(op)
    ensures var s, s' := w.store, Apply(w, op).store;
            && Apply(w, op).held == w.held && Apply(w, op).taken == w.taken
            && s'.publicEntries.Keys == s.publicEntries.Keys
            && s'.lifecycleEntries == s.lifecycleEntries && s'.pendingOpens == s.pendingOpens
            && (forall id <- s.publicEntries :: id != op.id ==> s'.publicEntries[id] == s.publicEntries[id])
  {
    hide Apply, Updated, MarkEntryFailed, IsReconnecting;
    ApplyUpdate(w, op);
  }

  /** In every reachable state an update changes its own forward, if it is there,
      as its kind says, and nothing else of the store but the count of
      reconnecting forwards. */
  lemma UpdatesExactly(ops: seq<Op>, op: Op)
    requires AllLegal(ops) && IsUpdate(op)
    ensures var w, w' := Exec(ops), Exec(ops + [op]);
            var s, s' := w.store, w'.store;
            && w'.held == w.held && w'.taken == w.taken
            && s'.publicEntries.Keys == s.publicEntries.Keys
            && s'.lifecycleEntries == s.lifecycleEntries && s'.pendingOpens == s.pendingOpens
            && (forall id <- s.publicEntries :: id != op.id ==> s'.publicEntries[id] == s.publicEntries[id])
            && (op.id in s.publicEntries ==> Becomes(s, op, s.publicEntries[op.id], s'.publicEntries[op.id]))
  {
    hide Exec, AllLegal, Apply, Becomes, WorldOk, Legal;
    ReachableOk(ops);
    ExecOneMore(ops, op);
    UpdateLeavesRest(Exec(ops), op);
    if op.id in Exec(ops).store.publicEntries {
      EntryBecomes(Exec(ops), op);
    }
  }

  // ----- Phases and the count ---------------------------------------------

  /** In every reachable state the phase of a forward is told by the health of
      its sides, and the cached count is the number of open forwards whose phase
      is reconnecting. */
  lemma PhasesAndCount(ops: seq<Op>)
    requires AllLegal(ops)
    ensures var s := Exec(ops).store;
            && (forall id <- s.publicEntries ::
                  var e := s.publicEntries[id];
                  var l, c := e.listenState.health, e.connectState.health;
                  e.phase == if l.HealthFailed? || c.HealthFailed? then PhaseFailed
                             else if l.HealthClosed? && c.HealthClosed? then PhaseClosed
                             else if l.Ready? && c.Ready? then PhaseReady
                             else PhaseReconnecting)
            && s.reconnectingCount
               == |set id | id in s.publicEntries && s.publicEntries[id].status.StatusOpen? && s.publicEntries[id].phase.PhaseReconnecting?|
  {
    hide Exec, AllLegal, TakenOk;
    ReachableOk(ops);
    var s := Exec(ops).store;
    assert ReconnectingIds(s.publicEntries)
        == set id | id in s.publicEntries && s.publicEntries[id].status.StatusOpen? && s.publicEntries[id].phase.PhaseReconnecting?;
  }

  // ----- Draining ---------------------------------------------------------

  /** A drain hands out every public forward with both halves of its record, and
      leaves no forward behind; pending reservations stay. */
  lemma DrainHandsOutEverything(ops: seq<Op>)
    requires AllLegal(ops)
    ensures var s := Exec(ops).store;
            var (records, s') := Drain(s);
            && records.Keys == s.publicEntries.Keys == s.lifecycleEntries.Keys
            && (forall id <- records :: records[id] == Record(s.publicEntries[id], s.lifecycleEntries[id]))
            && s' == Store(map[], map[], s.pendingOpens, 0)
            && Exec(ops + [DrainAll]) == Exec(ops).(store := s')
  {
    hide Exec, AllLegal, EntryOk, TakenOk, ReconnectingIds, Legal;
    ReachableOk(ops);
    ExecOneMore(ops, DrainAll);
  }
}
