/** Recovery as the store sees it (`supervisor/reconnect.rs`): the marks that the
    supervisor makes when it loses and regains a tunnel, while other callers go on
    using the store, and the limit on forwards that reconnect at one time. */
module StoreRecovery {
  import opened Common
  import opened ForwardEntries
  import opened ForwardStore
  import opened StoreRuns
  import opened StoreClose

  /** An open forward with both sides up. */
  ghost predicate Healthy(s: Store, id: ForwardId) {
    && id in s.publicEntries
    && s.publicEntries[id].status.StatusOpen?
    && s.publicEntries[id].listenState.health.Ready?
    && s.publicEntries[id].connectState.health.Ready?
  }

  // ----- What others may do meanwhile -------------------------------------

  /** An operation that leaves the life of forward `id` to its supervisor: it may
      change the forward's counters, and anything else in the store. */
  predicate Bystander(op: Op, id: ForwardId) {
    && (IsUpdate(op) && op.id == id ==> op.CountDropped? || op.ReserveSlot? || op.ReleaseSlots?)
    && (op.Take? ==> id !in op.ids)
    && !op.DrainAll?
  }

  predicate SameButCounters(e: ForwardPortEntry, e': ForwardPortEntry) {
    e' == e.(activeTcpStreams := e'.activeTcpStreams,
             droppedTcpStreams := e'.droppedTcpStreams,
             droppedUdpDatagrams := e'.droppedUdpDatagrams)
  }

  /** What an update makes of the entry it is for. */
  lemma UpdateAt(w: World, op: Op)
    requires IsUpdate(op) && op.id in w.store.publicEntries
    ensures op.id in Apply(w, op).store.publicEntries
    ensures var e := w.store.publicEntries[op.id];
            Apply(w, op).store.publicEntries[op.id] ==
              if IsReconnectOp(op) && !MayReconnect(w.store, op.id, op.max) then MarkEntryFailed(e, RECONNECT_LIMIT_EXCEEDED)
              else if IsReconnectOp(op) && !e.status.StatusOpen? then e
              else Updated(op, e)
    ensures forall other <- w.store.publicEntries :: other != op.id ==>
              other in Apply(w, op).store.publicEntries && Apply(w, op).store.publicEntries[other] == w.store.publicEntries[other]
  {
    hide Apply, Updated, MarkEntryFailed, IsReconnecting;
    ApplyUpdate(w, op);
  }

  lemma CountersOnly(op: Op, e: ForwardPortEntry)
    requires op.CountDropped? || op.ReserveSlot? || op.ReleaseSlots?
    ensures SameButCounters(e, Updated(op, e))
  {
  }

  lemma BystanderUpdate(w: World, op: Op, id: ForwardId)
    requires IsUpdate(op) && Bystander(op, id) && id in w.store.publicEntries
    ensures id in Apply(w, op).store.publicEntries
    ensures SameButCounters(w.store.publicEntries[id], Apply(w, op).store.publicEntries[id])
  {
    hide Apply, Updated, MayReconnect, MarkEntryFailed;
    if op.id in w.store.publicEntries {
      UpdateAt(w, op);
    } else {
      ApplyUpdate(w, op);
    }
    if op.id == id {
      CountersOnly(op, w.store.publicEntries[id]);
    }
  }

  lemma BystanderStep(w: World, op: Op, id: ForwardId)
    requires WorldOk(w) && Legal(w, op) && Bystander(op, id) && id in w.store.publicEntries
    ensures id in Apply(w, op).store.publicEntries
    ensures SameButCounters(w.store.publicEntries[id], Apply(w, op).store.publicEntries[id])
  {
    hide EntryOk, StoreOk, TakenOk, IsReconnecting, TakeAll, RestoreAll, AddTaken, Updated;
    if IsUpdate(op) {
      BystanderUpdate(w, op, id);
    } else if op.Restore? {
      TakenNamed(w, op.cands);
      RestoredElsewhere(w.store, op.cands, id);
    } else if op.Take? {
      KnownHalves(w.store);
      TakenPart(w.store, op.ids);
      assert id !in IdSet(op.ids[..FirstMissing(w.store, op.ids)]);
    }
  }

  /** What may be restored is named by its entry, and was not public. */
  lemma TakenNamed(w: World, cands: seq<Candidate>)
    requires WorldOk(w) && Legal(w, Restore(cands))
    ensures forall c <- cands :: c.entry.forwardId == c.forwardId && c.forwardId !in w.store.publicEntries
  {
    forall c <- cands ensures c.entry.forwardId == c.forwardId && c.forwardId !in w.store.publicEntries {
      assert Restorable(w.taken, c);
    }
  }

  lemma {:induction false} BystandersKeep(ops: seq<Op>, more: seq<Op>, id: ForwardId)
    requires AllLegal(ops + more) && id in Exec(ops).store.publicEntries
    requires forall op <- more :: Bystander(op, id)
    ensures id in Exec(ops + more).store.publicEntries
    ensures SameButCounters(Exec(ops).store.publicEntries[id], Exec(ops + more).store.publicEntries[id])
    decreases |more|
  {
    hide Apply, Legal, AllLegal, Exec, Bystander;
    if more == [] {
      assert ops + more == ops;
    } else {
      var before, last := more[..|more| - 1], more[|more| - 1];
      LastApart(ops, more);
      ExecOneMore(ops + before, last);
      assert last in more;
      BystandersKeep(ops, before, id);
      ReachableOk(ops + before);
      BystanderStep(Exec(ops + before), last, id);
    }
  }

  /** At every moment while others act, the forward is reconnecting. */
  lemma StaysReconnecting(ops: seq<Op>, more: seq<Op>, id: ForwardId, n: nat)
    requires AllLegal(ops + more) && id in Exec(ops).store.publicEntries && n <= |more|
    requires forall op <- more :: Bystander(op, id)
    requires IsReconnecting(Exec(ops).store.publicEntries[id])
    ensures Reconnects(Exec(ops + more[..n]).store, id)
  {
    assert ops + more == (ops + more[..n]) + more[n..];
    LegalPrefix(ops + more[..n], more[n..]);
    hide Exec, AllLegal, Bystander;
    BystandersKeep(ops, more[..n], id);
    ReachableOk(ops + more[..n]);
    assert id in ReconnectingIds(Exec(ops + more[..n]).store.publicEntries);
  }

  /** The forward counts as reconnecting. */
  ghost predicate Reconnects(s: Store, id: ForwardId) {
    id in s.publicEntries && IsReconnecting(s.publicEntries[id]) && s.reconnectingCount >= 1
  }

  // ----- Losing the connect tunnel ----------------------------------------

  /** The trace a completed recovery leaves in an entry: the new generation, the
      attempts counted, the time noted, the errors of the recovered sides
      cleared, everything else as before. */
  function Recovered(e: ForwardPortEntry, generation: nat, attempts: nat, now: nat, listenToo: bool): ForwardPortEntry {
    e.(reconnectAttempts := e.reconnectAttempts + attempts,
       lastReconnectAt := Some(now),
       phase := PhaseReady,
       connectState := e.connectState.(generation := generation, lastError := None),
       listenState := if listenToo then e.listenState.(generation := generation, lastError := None)
                      else e.listenState.(generation := generation))
  }

  lemma ConnectChain(e: ForwardPortEntry, e1: ForwardPortEntry, e2: ForwardPortEntry, error: string, now: nat, generation: nat)
    requires e.status.StatusOpen? && e.listenState.health.Ready? && e.connectState.health.Ready?
    requires SameButCounters(ReconnectingEntry(e, ConnectSide, error, now), e1)
    requires SameButCounters(GenerationEntry(e1, generation), e2)
    ensures IsReconnecting(e1) && IsReconnecting(GenerationEntry(e1, generation)) && IsReconnecting(e2)
    ensures SameButCounters(Recovered(e, generation, 1, now, false), ReadyEntry(e2, ConnectSide))
  {
  }

  /** A mark that is granted, at the end of a run. */
  lemma MarkStep(ops: seq<Op>, op: Op)
    requires IsUpdate(op) && op.id in Exec(ops).store.publicEntries
    requires IsReconnectOp(op) ==>
      Exec(ops).store.publicEntries[op.id].status.StatusOpen? && MayReconnect(Exec(ops).store, op.id, op.max)
    ensures op.id in Exec(ops + [op]).store.publicEntries
    ensures Exec(ops + [op]).store.publicEntries[op.id] == Updated(op, Exec(ops).store.publicEntries[op.id])
  {
    hide Exec, Apply, Updated, MayReconnect;
    ExecOneMore(ops, op);
    UpdateAt(Exec(ops), op);
  }

  /** A granted mark that makes the forward reconnect, and others after it. */
  lemma MarkThenOthers(ops: seq<Op>, op: Op, more: seq<Op>)
    requires AllLegal(ops + [op] + more) && IsUpdate(op) && op.id in Exec(ops).store.publicEntries
    requires IsReconnectOp(op) ==>
      Exec(ops).store.publicEntries[op.id].status.StatusOpen? && MayReconnect(Exec(ops).store, op.id, op.max)
    requires forall o <- more :: Bystander(o, op.id)
    requires IsReconnecting(Updated(op, Exec(ops).store.publicEntries[op.id]))
    ensures Throughout(ops + [op], more, op.id)
    ensures op.id in Exec(ops + [op] + more).store.publicEntries
    ensures SameButCounters(Updated(op, Exec(ops).store.publicEntries[op.id]), Exec(ops + [op] + more).store.publicEntries[op.id])
  {
    hide Exec, AllLegal, Bystander, IsReconnecting, SameButCounters, Updated, MayReconnect, Reconnects;
    MarkStep(ops, op);
    BystandersKeep(ops + [op], more, op.id);
    forall n: nat | n <= |more| ensures Reconnects(Exec(ops + [op] + more[..n]).store, op.id) {
      StaysReconnecting(ops + [op], more, op.id, n);
    }
  }

  /** After `ops` and at every moment of `more` the forward counts as reconnecting. */
  ghost predicate Throughout(ops: seq<Op>, more: seq<Op>, id: ForwardId) {
    forall n: nat :: n <= |more| ==> Reconnects(Exec(ops + more[..n]).store, id)
  }

  /** The first two marks of either recovery: the side is lost, and the forward
      moves to a new generation. */
  lemma LossAndRenewal(
    ops: seq<Op>, id: ForwardId, role: SideRole, error: string, max: nat, now: nat, a: seq<Op>, generation: nat, b: seq<Op>)
    requires AllLegal(ops + [StartReconnect(id, role, error, max, now)] + a + [SetGeneration(id, generation)] + b)
    requires Healthy(Exec(ops).store, id) && Exec(ops).store.reconnectingCount < max
    requires (forall op <- a :: Bystander(op, id)) && (forall op <- b :: Bystander(op, id))
    ensures var start, renew := StartReconnect(id, role, error, max, now), SetGeneration(id, generation);
            var lost := ops + [start] + a;
            && Throughout(ops + [start], a, id) && Throughout(lost + [renew], b, id)
            && id in Exec(lost).store.publicEntries && id in Exec(lost + [renew] + b).store.publicEntries
            && var e, e1, e2 := Exec(ops).store.publicEntries[id], Exec(lost).store.publicEntries[id],
                                Exec(lost + [renew] + b).store.publicEntries[id];
            && SameButCounters(ReconnectingEntry(e, role, error, now), e1)
            && SameButCounters(GenerationEntry(e1, generation), e2)
            && IsReconnecting(e2)
  {
    hide Exec, AllLegal, Bystander, IsReconnecting, SameButCounters, ReconnectingEntry, GenerationEntry, Throughout;
    var start, renew := StartReconnect(id, role, error, max, now), SetGeneration(id, generation);
    var e := Exec(ops).store.publicEntries[id];
    StartReconnects(e, role, error, now);
    var lost := ops + [start] + a;
    LegalPrefix(lost + [renew], b);
    LegalPrefix(lost, [renew]);
    MarkThenOthers(ops, start, a);
    var e1 := Exec(lost).store.publicEntries[id];
    GenerationKeepsPhase(ReconnectingEntry(e, role, error, now), e1, generation);
    MarkThenOthers(lost, renew, b);
    CountersKeepPhase(GenerationEntry(e1, generation), Exec(lost + [renew] + b).store.publicEntries[id]);
  }

  lemma CountersKeepPhase(e: ForwardPortEntry, e': ForwardPortEntry)
    requires SameButCounters(e, e')
    ensures IsReconnecting(e) <==> IsReconnecting(e')
  {
  }

  /** Losing and regaining the connect tunnel amid the operations of others: the
      forward counts as reconnecting from the first mark to the last, and then it
      is as before but for the trace and what others did to its counters. */
  lemma ConnectRecoveryCycle(
    ops: seq<Op>, id: ForwardId, error: string, max: nat, now: nat, a: seq<Op>, generation: nat, b: seq<Op>)
    requires var lost := ops + [StartReconnect(id, ConnectSide, error, max, now)] + a;
             AllLegal(lost + [SetGeneration(id, generation)] + b + [Op.Ready(id, ConnectSide)])
    requires Healthy(Exec(ops).store, id) && Exec(ops).store.reconnectingCount < max
    requires (forall op <- a :: Bystander(op, id)) && (forall op <- b :: Bystander(op, id))
    ensures var start, renew := StartReconnect(id, ConnectSide, error, max, now), SetGeneration(id, generation);
            && Throughout(ops + [start], a, id)
            && Throughout(ops + [start] + a + [renew], b, id)
            && var s := Exec(ops + [start] + a + [renew] + b + [Op.Ready(id, ConnectSide)]).store;
            && id in s.publicEntries
            && SameButCounters(Recovered(Exec(ops).store.publicEntries[id], generation, 1, now, false), s.publicEntries[id])
  {
    hide Exec, AllLegal, Bystander, IsReconnecting, SameButCounters, Recovered, ReconnectingEntry, GenerationEntry, ReadyEntry, Throughout;
    var start, renew, done := StartReconnect(id, ConnectSide, error, max, now), SetGeneration(id, generation), Op.Ready(id, ConnectSide);
    var lost := ops + [start] + a;
    LegalPrefix(lost + [renew] + b, [done]);
    LossAndRenewal(ops, id, ConnectSide, error, max, now, a, generation, b);
    ConnectChain(Exec(ops).store.publicEntries[id], Exec(lost).store.publicEntries[id],
                 Exec(lost + [renew] + b).store.publicEntries[id], error, now, generation);
    MarkStep(lost + [renew] + b, done);
  }

  lemma StartReconnects(e: ForwardPortEntry, role: SideRole, error: string, now: nat)
    requires e.status.StatusOpen? && e.listenState.health.Ready? && e.connectState.health.Ready?
    ensures IsReconnecting(ReconnectingEntry(e, role, error, now))
  {
  }

  lemma GenerationKeepsPhase(e: ForwardPortEntry, e': ForwardPortEntry, generation: nat)
    requires SameButCounters(e, e') && IsReconnecting(e)
    ensures IsReconnecting(e') && IsReconnecting(GenerationEntry(e', generation))
  {
  }

  // ----- Losing the listen tunnel -----------------------------------------

  lemma ListenChain(
    e: ForwardPortEntry, e1: ForwardPortEntry, e2: ForwardPortEntry, e3: ForwardPortEntry,
    error: string, now: nat, generation: nat, reason: string, later: nat)
    requires e.status.StatusOpen? && e.listenState.health.Ready? && e.connectState.health.Ready?
    requires SameButCounters(ReconnectingEntry(e, ListenSide, error, now), e1)
    requires SameButCounters(GenerationEntry(e1, generation), e2)
    requires SameButCounters(ReopeningEntry(e2, reason, later), e3)
    ensures SameButCounters(Recovered(e, generation, 2, later, true), ReadyEntry(e3, ConnectSide))
  {
  }

  lemma ReopenReconnects(e: ForwardPortEntry, reason: string, later: nat)
    requires IsReconnecting(e)
    ensures e.status.StatusOpen? && IsReconnecting(ReopeningEntry(e, reason, later))
  {
  }

  /** Losing the listen tunnel: it is resumed under a new generation, then the
      connect tunnel is opened again. That second mark is granted even when the
      limit has been reached meanwhile, because the forward is already counted. */
  lemma ListenRecoveryCycle(
    ops: seq<Op>, id: ForwardId, error: string, max: nat, now: nat, a: seq<Op>, generation: nat, b: seq<Op>,
    reason: string, later: nat, c: seq<Op>)
    requires var lost := ops + [StartReconnect(id, ListenSide, error, max, now)] + a;
             var resumed := lost + [SetGeneration(id, generation)] + b;
             AllLegal(resumed + [ReopenConnect(id, reason, max, later)] + c + [Op.Ready(id, ConnectSide)])
    requires Healthy(Exec(ops).store, id) && Exec(ops).store.reconnectingCount < max
    requires (forall op <- a :: Bystander(op, id)) && (forall op <- b :: Bystander(op, id)) && (forall op <- c :: Bystander(op, id))
    ensures var start, renew := StartReconnect(id, ListenSide, error, max, now), SetGeneration(id, generation);
            var lost := ops + [start] + a;
            var resumed := lost + [renew] + b;
            var reopen := ReopenConnect(id, reason, max, later);
            && Throughout(ops + [start], a, id)
            && Throughout(lost + [renew], b, id)
            && Throughout(resumed + [reopen], c, id)
            && var s := Exec(resumed + [reopen] + c + [Op.Ready(id, ConnectSide)]).store;
            && id in s.publicEntries
            && SameButCounters(Recovered(Exec(ops).store.publicEntries[id], generation, 2, later, true), s.publicEntries[id])
  {
    hide Exec, AllLegal, Bystander, IsReconnecting, SameButCounters, Recovered, Throughout;
    hide ReconnectingEntry, GenerationEntry, ReopeningEntry, ReadyEntry;
    var start, renew, done := StartReconnect(id, ListenSide, error, max, now), SetGeneration(id, generation), Op.Ready(id, ConnectSide);
    var reopen := ReopenConnect(id, reason, max, later);
    var lost := ops + [start] + a;
    var resumed := lost + [renew] + b;
    LegalPrefix(resumed + [reopen] + c, [done]);
    LegalPrefix(resumed + [reopen], c);
    LegalPrefix(resumed, [reopen]);
    LossAndRenewal(ops, id, ListenSide, error, max, now, a, generation, b);
    ReopenReconnects(Exec(resumed).store.publicEntries[id], reason, later);
    MarkThenOthers(resumed, reopen, c);
    ListenChain(Exec(ops).store.publicEntries[id], Exec(lost).store.publicEntries[id],
                Exec(resumed).store.publicEntries[id], Exec(resumed + [reopen] + c).store.publicEntries[id],
                error, now, generation, reason, later);
    MarkStep(resumed + [reopen] + c, done);
  }

  // ----- The reconnecting limit -------------------------------------------

  /** At the limit a healthy forward fails instead of reconnecting, and neither the
      count nor any other forward changes. */
  lemma ReconnectRefusedAtTheLimit(w: World, op: Op)
    requires WorldOk(w) && IsReconnectOp(op) && Healthy(w.store, op.id) && w.store.reconnectingCount >= op.max
    ensures var s, s' := w.store, Apply(w, op).store;
            && s'.publicEntries == s.publicEntries[op.id := MarkEntryFailed(s.publicEntries[op.id], RECONNECT_LIMIT_EXCEEDED)]
            && s'.reconnectingCount == s.reconnectingCount == |ReconnectingIds(s'.publicEntries)|
  {
    RecountPut(w.store.publicEntries, op.id, MarkEntryFailed(w.store.publicEntries[op.id], RECONNECT_LIMIT_EXCEEDED));
  }

  /** The sides of an open forward are up or coming up. */
  predicate SidesOk(e: ForwardPortEntry) {
    e.status.StatusOpen? ==>
      && (e.listenState.health.Ready? || e.listenState.health.Reconnecting?)
      && (e.connectState.health.Ready? || e.connectState.health.Reconnecting?)
  }

  ghost predicate AllSidesOk(s: Store) {
    forall id <- s.publicEntries :: SidesOk(s.publicEntries[id])
  }

  /** Forwards are committed with both sides up, every reconnect asks under the
      same limit, and no close is undone. */
  predicate Ordinary(op: Op, max: nat) {
    match op
    case Commit(_, record) => record.entry.listenState.health.Ready? && record.entry.connectState.health.Ready?
    case StartReconnect(_, _, _, limit, _) => limit == max
    case ReopenConnect(_, _, limit, _) => limit == max
    case Restore(_) => false
    case _ => true
  }

  lemma UpdatedSides(op: Op, e: ForwardPortEntry)
    requires SidesOk(e) && IsUpdate(op)
    ensures SidesOk(Updated(op, e))
    ensures !IsReconnectOp(op) && IsReconnecting(Updated(op, e)) ==> IsReconnecting(e)
  {
  }

  lemma UpdateWithinLimit(w: World, op: Op, max: nat)
    requires IsUpdate(op) && Ordinary(op, max)
    requires AllSidesOk(w.store) && w.store.reconnectingCount <= max
    ensures AllSidesOk(Apply(w, op).store) && Apply(w, op).store.reconnectingCount <= max
  {
    hide Apply, Updated, IsReconnecting;
    ApplyUpdate(w, op);
    if op.id in w.store.publicEntries {
      UpdatedSides(op, w.store.publicEntries[op.id]);
    }
  }

  lemma TakeWithinLimit(w: World, ids: seq<ForwardId>)
    requires WorldOk(w) && Legal(w, Take(ids)) && AllSidesOk(w.store)
    ensures AllSidesOk(Apply(w, Take(ids)).store)
    ensures Apply(w, Take(ids)).store.reconnectingCount <= w.store.reconnectingCount
  {
    var w' := Apply(w, Take(ids));
    ApplyKeeps(w, Take(ids));
    hide TakeAll, EntryOk, IsReconnecting, AddTaken, SidesOk, TakenOk;
    TakenPart(w.store, ids);
    assert w'.store.publicEntries.Keys <= w.store.publicEntries.Keys;
    SubsetSize(ReconnectingIds(w'.store.publicEntries), ReconnectingIds(w.store.publicEntries));
  }

  lemma StepWithinLimit(w: World, op: Op, max: nat)
    requires WorldOk(w) && Legal(w, op) && Ordinary(op, max)
    requires AllSidesOk(w.store) && w.store.reconnectingCount <= max
    ensures AllSidesOk(Apply(w, op).store) && Apply(w, op).store.reconnectingCount <= max
  {
    if IsUpdate(op) {
      hide WorldOk, Legal, Apply;
      UpdateWithinLimit(w, op, max);
    } else if op.Take? {
      hide WorldOk, Legal, Apply;
      TakeWithinLimit(w, op.ids);
    }
  }

  /** The number of forwards that reconnect at one time stays within the limit in
      every such run. */
  lemma {:induction false} ReconnectLimitHolds(ops: seq<Op>, max: nat)
    requires AllLegal(ops) && forall op <- ops :: Ordinary(op, max)
    ensures AllSidesOk(Exec(ops).store) && Exec(ops).store.reconnectingCount <= max
    ensures Exec(ops).store.reconnectingCount == |ReconnectingIds(Exec(ops).store.publicEntries)|
  {
    hide Apply, Legal, AllLegal, Exec, Ordinary, AllSidesOk, WorldOk, StoreOk, ReconnectingIds;
    CountIsRecount(ops);
    if ops == [] {
      NothingReconnects();
    } else {
      var before, last := ops[..|ops| - 1], ops[|ops| - 1];
      assert ops == before + [last] && last in ops;
      ExecOneMore(before, last);
      ReconnectLimitHolds(before, max);
      ReachableOk(before);
      StepWithinLimit(Exec(before), last, max);
    }
  }

  lemma CountIsRecount(ops: seq<Op>)
    requires AllLegal(ops)
    ensures Exec(ops).store.reconnectingCount == |ReconnectingIds(Exec(ops).store.publicEntries)|
  {
    hide Exec, AllLegal, EntryOk, ReconnectingIds, TakenOk;
    ReachableOk(ops);
  }

  lemma NothingReconnects()
    ensures AllSidesOk(Exec([]).store) && Exec([]).store.reconnectingCount == 0
  {
  }
}
