/** Limits and lifecycle of the forward store over whole runs. */
module StoreLimits {
  import opened Common
  import opened ForwardEntries
  import opened ForwardStore
  import opened StoreRuns

  // ----- How each operation changes the counts ----------------------------

  /** What the two counts of the store count: public and pending forwards, in
      all and between two sides. */
  lemma CountsPlainly(s: Store, p: SidePair)
    ensures OpenCount(s) == |s.publicEntries| + |s.pendingOpens|
    ensures SidePairCount(s, p)
         == |set id | id in s.publicEntries && s.publicEntries[id].listenSide == p.listenSide && s.publicEntries[id].connectSide == p.connectSide|
            + |set id | id in s.pendingOpens && s.pendingOpens[id].listenSide == p.listenSide && s.pendingOpens[id].connectSide == p.connectSide|
  {
    assert KeysWith(Pairs(s.publicEntries), p)
        == set id | id in s.publicEntries && s.publicEntries[id].listenSide == p.listenSide && s.publicEntries[id].connectSide == p.connectSide;
    assert KeysWith(s.pendingOpens, p)
        == set id | id in s.pendingOpens && s.pendingOpens[id].listenSide == p.listenSide && s.pendingOpens[id].connectSide == p.connectSide;
  }

  ghost predicate NoGrowth(s: Store, s': Store) {
    && OpenCount(s') <= OpenCount(s)
    && (forall p :: SidePairCount(s', p) <= SidePairCount(s, p))
  }

  lemma FewerWith<P>(m': map<ForwardId, P>, m: map<ForwardId, P>, v: P)
    requires forall id :: id in m' ==> id in m && m'[id] == m[id]
    ensures |KeysWith(m', v)| <= |KeysWith(m, v)|
  {
    SubsetSize(KeysWith(m', v), KeysWith(m, v));
  }

  lemma OneMoreWith<P>(m: map<ForwardId, P>, id: ForwardId, v: P, q: P)
    requires id !in m
    ensures |KeysWith(m[id := v], q)| == |KeysWith(m, q)| + (if v == q then 1 else 0)
  {
    assert KeysWith(m[id := v], q) - {id} == KeysWith(m, q);
    CardinalitySplit(KeysWith(m[id := v], q), id);
  }

  lemma OneLessWith<P>(m: map<ForwardId, P>, id: ForwardId, q: P)
    requires id in m
    ensures |KeysWith(m, q)| == |KeysWith(m - {id}, q)| + (if m[id] == q then 1 else 0)
  {
    assert KeysWith(m, q) - {id} == KeysWith(m - {id}, q);
    CardinalitySplit(KeysWith(m, q), id);
  }

  /** Fewer entries and fewer reservations, none with a new side pair. */
  lemma ShrinkingCounts(s: Store, s': Store)
    requires s'.publicEntries.Keys <= s.publicEntries.Keys
    requires s'.pendingOpens.Keys <= s.pendingOpens.Keys
    requires forall id :: id in s'.publicEntries ==> PairOf(s'.publicEntries[id]) == PairOf(s.publicEntries[id])
    requires forall id :: id in s'.pendingOpens ==> s'.pendingOpens[id] == s.pendingOpens[id]
    ensures NoGrowth(s, s')
  {
    hide PairOf, KeysWith;
    SubsetSize(s'.publicEntries.Keys, s.publicEntries.Keys);
    SubsetSize(s'.pendingOpens.Keys, s.pendingOpens.Keys);
    forall p ensures SidePairCount(s', p) <= SidePairCount(s, p) {
      FewerWith(Pairs(s'.publicEntries), Pairs(s.publicEntries), p);
      FewerWith(s'.pendingOpens, s.pendingOpens, p);
    }
  }

  lemma UpdatedSamePair(op: Op, e: ForwardPortEntry)
    ensures PairOf(Updated(op, e)) == PairOf(e)
    ensures PairOf(MarkEntryFailed(e, RECONNECT_LIMIT_EXCEEDED)) == PairOf(e)
  {
  }

  lemma UpdateCounts(w: World, op: Op)
    requires IsUpdate(op)
    ensures NoGrowth(w.store, Apply(w, op).store)
  {
    hide Updated, PairOf, NoGrowth, IsReconnecting, MarkEntryFailed, Apply;
    ApplyUpdate(w, op);
    var s, s' := w.store, Apply(w, op).store;
    if op.id in s.publicEntries {
      UpdatedSamePair(op, s.publicEntries[op.id]);
    }
    ShrinkingCounts(s, s');
  }

  lemma CommitCounts(w: World, id: ForwardId, record: Record)
    requires WorldOk(w)
    requires Legal(w, Commit(id, record))
    ensures NoGrowth(w.store, Apply(w, Commit(id, record)).store)
  {
    hide EntryOk, ReconnectingIds, IsReconnecting;
    var s, s' := w.store, Apply(w, Commit(id, record)).store;
    var p0 := w.held[id];
    if CommitSucceeds(s, id, p0, record) {
      assert s'.publicEntries.Keys == s.publicEntries.Keys + {id};
      assert s'.pendingOpens.Keys == s.pendingOpens.Keys - {id};
      forall p ensures SidePairCount(s', p) <= SidePairCount(s, p) {
        MovedCounts(s, s', id, p0, p, record.entry);
      }
    } else {
      assert s' == ReleaseReservation(s, id);
      ShrinkingCounts(s, s');
    }
  }

  lemma MovedCounts(s: Store, s': Store, id: ForwardId, p0: SidePair, p: SidePair, e: ForwardPortEntry)
    requires id in s.pendingOpens && s.pendingOpens[id] == p0 && id !in s.publicEntries
    requires PairOf(e) == p0
    requires s'.publicEntries == s.publicEntries[id := e]
    requires s'.pendingOpens == s.pendingOpens - {id}
    ensures SidePairCount(s', p) == SidePairCount(s, p)
  {
    hide PairOf, KeysWith;
    assert Pairs(s'.publicEntries) == Pairs(s.publicEntries)[id := p0];
    OneMoreWith(Pairs(s.publicEntries), id, p0, p);
    OneLessWith(s.pendingOpens, id, p);
  }

  lemma TakeCounts(w: World, ids: seq<ForwardId>)
    requires WorldOk(w)
    requires Legal(w, Take(ids))
    ensures NoGrowth(w.store, Apply(w, Take(ids)).store)
  {
    hide EntryOk, TakeAll, ReconnectingIds, AddTaken, NoGrowth;
    TakenPart(w.store, ids);
    ShrinkingCounts(w.store, Apply(w, Take(ids)).store);
  }

  /** Only a reservation or a restored close can make the store grow. */
  lemma OthersDoNotGrow(w: World, op: Op)
    requires WorldOk(w)
    requires Legal(w, op)
    requires !op.Reserve? && !op.Restore?
    ensures NoGrowth(w.store, Apply(w, op).store)
  {
    if IsUpdate(op) {
      UpdateCounts(w, op);
    } else {
      match op
      case Commit(id, record) => CommitCounts(w, id, record);
      case Take(ids) => TakeCounts(w, ids);
      case DropGuard(_) => ShrinkingCounts(w.store, Apply(w, op).store);
      case Closed(_) =>
      case DrainAll => ShrinkingCounts(w.store, Apply(w, op).store);
    }
  }

  /** A batch reservation adds exactly its n ids, all fresh, or nothing at all. */
  lemma ReserveAllOrNothing(w: World, p: SidePair, ids: seq<ForwardId>, limits: OpenLimits)
    requires WorldOk(w)
    requires Legal(w, Reserve(p, ids, limits))
    ensures var w' := Apply(w, Reserve(p, ids, limits));
            if OpenCount(w.store) + |ids| <= limits.maxOpenTotal && SidePairCount(w.store, p) + |ids| <= limits.maxPerSidePair then
              && w'.store.publicEntries == w.store.publicEntries && w'.store.lifecycleEntries == w.store.lifecycleEntries
              && w'.store.pendingOpens == w.store.pendingOpens + (map id | id in IdSet(ids) :: p)
              && w'.store.pendingOpens.Keys == w.store.pendingOpens.Keys + IdSet(ids)
              && IdSet(ids) !! w.store.pendingOpens.Keys && IdSet(ids) !! w.store.publicEntries.Keys
              && OpenCount(w'.store) == OpenCount(w.store) + |ids| <= limits.maxOpenTotal
              && SidePairCount(w'.store, p) == SidePairCount(w.store, p) + |ids| <= limits.maxPerSidePair
              && (forall q :: q != p ==> SidePairCount(w'.store, q) == SidePairCount(w.store, q))
            else w' == w
  {
    hide AddPending, WorldOk, KeysWith, IdSet;
    FreshIds(w, p, ids, limits);
    AddPendingIs(w.store.pendingOpens, ids, p);
    PendingSize(w.store.pendingOpens, ids, p);
    PendingAdded(w.store.pendingOpens, ids, p);
  }

  lemma FreshIds(w: World, p: SidePair, ids: seq<ForwardId>, limits: OpenLimits)
    requires WorldOk(w) && Legal(w, Reserve(p, ids, limits))
    ensures Distinct(ids) && IdSet(ids) !! w.store.pendingOpens.Keys && IdSet(ids) !! w.store.publicEntries.Keys
    ensures w.store.pendingOpens == w.held
  {
    hide StoreOk, TakenOk;
  }

  lemma PendingSize(pending: map<ForwardId, SidePair>, ids: seq<ForwardId>, p: SidePair)
    requires Distinct(ids) && IdSet(ids) !! pending.Keys
    ensures AddPending(pending, ids, p).Keys == pending.Keys + IdSet(ids)
    ensures |AddPending(pending, ids, p)| == |pending| + |ids|
  {
    hide AddPending, Distinct;
    AddPendingKeys(pending, ids, p);
    DistinctCard(ids);
    assert AddPending(pending, ids, p).Keys == pending.Keys + IdSet(ids);
    assert |AddPending(pending, ids, p).Keys| == |pending.Keys + IdSet(ids)|;
  }

  lemma PendingAdded(pending: map<ForwardId, SidePair>, ids: seq<ForwardId>, p: SidePair)
    requires Distinct(ids) && IdSet(ids) !! pending.Keys
    ensures forall q :: |KeysWith(AddPending(pending, ids, p), q)| == |KeysWith(pending, q)| + (if q == p then |ids| else 0)
  {
    hide AddPending, KeysWith, IdSet, Distinct;
    forall q ensures |KeysWith(AddPending(pending, ids, p), q)| == |KeysWith(pending, q)| + (if q == p then |ids| else 0) {
      AddedCounts(pending, ids, p, q);
    }
  }

  lemma {:induction false} AddPendingIs(pending: map<ForwardId, SidePair>, ids: seq<ForwardId>, p: SidePair)
    ensures AddPending(pending, ids, p) == pending + (map id | id in IdSet(ids) :: p)
  {
    if ids != [] {
      var n := |ids| - 1;
      AddPendingIs(pending, ids[..n], p);
      assert ids == ids[..n] + [ids[n]];
      assert IdSet(ids) == IdSet(ids[..n]) + {ids[n]};
    }
  }

  lemma {:induction false} AddedCounts(pending: map<ForwardId, SidePair>, ids: seq<ForwardId>, p: SidePair, q: SidePair)
    requires Distinct(ids)
    requires IdSet(ids) !! pending.Keys
    ensures |KeysWith(AddPending(pending, ids, p), q)| == |KeysWith(pending, q)| + (if q == p then |ids| else 0)
  {
    hide KeysWith;
    if ids != [] {
      var n := |ids| - 1;
      AddedCounts(pending, ids[..n], p, q);
      AddPendingKeys(pending, ids[..n], p);
      assert ids[n] in ids && ids[n] !in ids[..n];
      OneMoreWith(AddPending(pending, ids[..n], p), ids[n], p, q);
    }
  }

  lemma {:induction false} DistinctCard(ids: seq<ForwardId>)
    requires Distinct(ids)
    ensures |IdSet(ids)| == |ids|
  {
    if ids == [] {
      assert IdSet(ids) == {};
    } else {
      var n := |ids| - 1;
      DistinctCard(ids[..n]);
      assert ids == ids[..n] + [ids[n]];
      assert IdSet(ids) == IdSet(ids[..n]) + {ids[n]};
      assert ids[n] !in IdSet(ids[..n]);
    }
  }

  ghost predicate WithinLimits(s: Store, limits: OpenLimits) {
    OpenCount(s) <= limits.maxOpenTotal && forall p :: SidePairCount(s, p) <= limits.maxPerSidePair
  }

  /** No restored close, and every reservation asks under the same limits. */
  ghost predicate NoRestore(ops: seq<Op>, limits: OpenLimits) {
    forall i :: 0 <= i < |ops| ==> !ops[i].Restore? && (ops[i].Reserve? ==> ops[i].limits == limits)
  }

  /** Open and pending forwards stay within both limits in every run in which no
      close had to be undone. */
  lemma {:induction false} LimitsHold(ops: seq<Op>, limits: OpenLimits)
    requires AllLegal(ops)
    requires NoRestore(ops, limits)
    ensures WithinLimits(Exec(ops).store, limits)
  {
    if ops == [] {
      assert Pairs(map[]) == map[];
      assert forall p :: KeysWith<SidePair>(map[], p) == {};
    } else {
      var n := |ops| - 1;
      var before, op := ops[..n], ops[n];
      assert forall k :: 0 <= k <= n ==> before[..k] == ops[..k];
      assert Legal(Exec(ops[..n]), op);
      LimitsHold(before, limits);
      ReachableOk(before);
      var w := Exec(before);
      hide Exec, AllLegal, NoRestore, WorldOk;
      assert Exec(ops) == Apply(w, op) by { ExecLast(ops); }
      StepWithinLimits(w, op, limits);
    }
  }

  lemma ExecLast(ops: seq<Op>)
    requires ops != []
    ensures Exec(ops) == Apply(Exec(ops[..|ops| - 1]), ops[|ops| - 1])
  {
  }

  lemma StepWithinLimits(w: World, op: Op, limits: OpenLimits)
    requires WorldOk(w)
    requires Legal(w, op)
    requires !op.Restore? && (op.Reserve? ==> op.limits == limits)
    requires WithinLimits(w.store, limits)
    ensures WithinLimits(Apply(w, op).store, limits)
  {
    hide WorldOk, Legal, OpenCount, SidePairCount, Apply;
    match op
    case Reserve(p, ids, _) => ReserveAllOrNothing(w, p, ids, limits);
    case _ => OthersDoNotGrow(w, op);
  }

  // ----- Undoing a close --------------------------------------------------

  lemma {:induction false} RestoredKeys(s: Store, cands: seq<Candidate>)
    requires forall c :: c in cands ==> c.entry.forwardId == c.forwardId
    ensures RestoreAll(s, cands).publicEntries.Keys == s.publicEntries.Keys + Ids(cands)
    ensures RestoreAll(s, cands).pendingOpens == s.pendingOpens
  {
    hide IsReconnecting;
    if cands != [] {
      var n := |cands| - 1;
      assert cands[n] in cands;
      RestoredKeys(s, cands[..n]);
      IdsOneMore(cands);
    }
  }

  lemma {:induction false} IdsCard(cands: seq<Candidate>)
    requires forall i, j :: 0 <= i < j < |cands| ==> cands[i].forwardId != cands[j].forwardId
    ensures |Ids(cands)| == |cands|
  {
    if cands != [] {
      var n := |cands| - 1;
      IdsCard(cands[..n]);
      IdsOneMore(cands);
      assert cands[n].forwardId !in Ids(cands[..n]);
    }
  }

  lemma RestoredSizes(s: Store, cands: seq<Candidate>)
    requires forall c :: c in cands ==> c.entry.forwardId == c.forwardId && c.forwardId !in s.publicEntries
    requires forall i, j :: 0 <= i < j < |cands| ==> cands[i].forwardId != cands[j].forwardId
    ensures RestoreAll(s, cands).publicEntries.Keys == s.publicEntries.Keys + Ids(cands)
    ensures |RestoreAll(s, cands).publicEntries| == |s.publicEntries| + |cands|
    ensures RestoreAll(s, cands).pendingOpens == s.pendingOpens
  {
    hide RestoreAll;
    RestoredKeys(s, cands);
    IdsCard(cands);
    assert s.publicEntries.Keys !! Ids(cands);
    var restored := RestoreAll(s, cands).publicEntries;
    assert |restored| == |restored.Keys| == |s.publicEntries.Keys + Ids(cands)| == |s.publicEntries.Keys| + |cands|;
  }

  /** How many of the candidates run between the two sides of `p`. */
  function CandidatesOf(cands: seq<Candidate>, p: SidePair): nat {
    if cands == [] then 0
    else
      var last := cands[|cands| - 1];
      CandidatesOf(cands[..|cands| - 1], p) + (if PairOf(last.entry) == p then 1 else 0)
  }

  lemma {:induction false} RestoredPairs(s: Store, cands: seq<Candidate>, p: SidePair)
    requires forall c :: c in cands ==> c.entry.forwardId == c.forwardId && c.forwardId !in s.publicEntries
    requires forall i, j :: 0 <= i < j < |cands| ==> cands[i].forwardId != cands[j].forwardId
    ensures SidePairCount(RestoreAll(s, cands), p) == SidePairCount(s, p) + CandidatesOf(cands, p)
  {
    hide IsReconnecting, KeysWith, PairOf;
    if cands != [] {
      var n := |cands| - 1;
      assert cands[n] in cands;
      RestoredPairs(s, cands[..n], p);
      RestoredKeys(s, cands[..n]);
      RestoredKeys(s, cands);
      assert cands[n].forwardId !in Ids(cands[..n]);
      var before := RestoreAll(s, cands[..n]).publicEntries;
      PutPair(before, cands[n].forwardId, cands[n].entry);
      OneMoreWith(Pairs(before), cands[n].forwardId, PairOf(cands[n].entry), p);
    }
  }

  lemma PutPair(entries: map<ForwardId, ForwardPortEntry>, id: ForwardId, e: ForwardPortEntry)
    ensures Pairs(entries[id := e]) == Pairs(entries)[id := PairOf(e)]
  {
  }

  /** Putting candidates back is the one step that ignores the limits. It adds
      exactly the restored forwards, in total and for each pair of sides, so it
      leaves the store within the limits if and only if there was room for them. */
  lemma RestoreGrowsExactly(w: World, cands: seq<Candidate>, limits: OpenLimits)
    requires WorldOk(w)
    requires Legal(w, Restore(cands))
    ensures var s, s' := w.store, Apply(w, Restore(cands)).store;
            && OpenCount(s') == OpenCount(s) + |cands|
            && (forall p :: SidePairCount(s', p) == SidePairCount(s, p) + CandidatesOf(cands, p))
            && (WithinLimits(s', limits) <==>
                  && OpenCount(s) + |cands| <= limits.maxOpenTotal
                  && forall p :: SidePairCount(s, p) + CandidatesOf(cands, p) <= limits.maxPerSidePair)
  {
    hide Apply, Legal, WorldOk, OpenCount, SidePairCount, CandidatesOf;
    var s, s' := w.store, Apply(w, Restore(cands)).store;
    RestoredCounts(w, cands);
    if WithinLimits(s', limits) {
      forall p ensures SidePairCount(s, p) + CandidatesOf(cands, p) <= limits.maxPerSidePair {
        assert SidePairCount(s', p) <= limits.maxPerSidePair;
      }
    }
  }

  lemma RestoredCounts(w: World, cands: seq<Candidate>)
    requires WorldOk(w)
    requires Legal(w, Restore(cands))
    ensures var s, s' := w.store, Apply(w, Restore(cands)).store;
            && OpenCount(s') == OpenCount(s) + |cands|
            && (forall p :: SidePairCount(s', p) == SidePairCount(s, p) + CandidatesOf(cands, p))
  {
    hide RestoreAll, WorldOk, Legal, SidePairCount, CandidatesOf, Apply;
    RestoredAreNew(w, cands);
    RestoreApplied(w, cands);
    RestoredSizes(w.store, cands);
    forall p ensures SidePairCount(RestoreAll(w.store, cands), p) == SidePairCount(w.store, p) + CandidatesOf(cands, p) {
      RestoredPairs(w.store, cands, p);
    }
  }

  lemma RestoreApplied(w: World, cands: seq<Candidate>)
    ensures Apply(w, Restore(cands)).store == RestoreAll(w.store, cands)
  {
  }

  lemma RestoredAreNew(w: World, cands: seq<Candidate>)
    requires WorldOk(w)
    requires Legal(w, Restore(cands))
    ensures forall c :: c in cands ==> c.entry.forwardId == c.forwardId && c.forwardId !in w.store.publicEntries
    ensures forall i, j :: 0 <= i < j < |cands| ==> cands[i].forwardId != cands[j].forwardId
  {
    hide EntryOk, StoreOk;
    forall c | c in cands ensures c.entry.forwardId == c.forwardId && c.forwardId !in w.store.publicEntries {
      assert Restorable(w.taken, c);
    }
  }

  /** What a restore does when ids of taken records were handed out again, which
      the id generator does not rule out: it looks at public and pending ids
      only. Each restored record replaces whatever was committed under its id
      meanwhile, every other record stays; and pending and public ids are
      disjoint afterwards if and only if no restored id is pending. */
  lemma RestoreOverwritesExactly(s: Store, cands: seq<Candidate>)
    requires s.pendingOpens.Keys !! s.publicEntries.Keys
    requires forall c :: c in cands ==> c.entry.forwardId == c.forwardId
    requires forall i, j :: 0 <= i < j < |cands| ==> cands[i].forwardId != cands[j].forwardId
    ensures var s' := RestoreAll(s, cands);
            && (forall i :: 0 <= i < |cands| ==>
                  var id := cands[i].forwardId;
                  && id in s'.publicEntries && s'.publicEntries[id] == cands[i].entry
                  && id in s'.lifecycleEntries && s'.lifecycleEntries[id] == cands[i].lifecycle)
            && (forall id :: id in s.publicEntries && id !in Ids(cands) ==>
                  id in s'.publicEntries && s'.publicEntries[id] == s.publicEntries[id])
            && (forall id :: id in s.lifecycleEntries && id !in Ids(cands) ==>
                  id in s'.lifecycleEntries && s'.lifecycleEntries[id] == s.lifecycleEntries[id])
            && s'.publicEntries.Keys == s.publicEntries.Keys + Ids(cands)
            && (s'.pendingOpens.Keys !! s'.publicEntries.Keys <==> forall c :: c in cands ==> c.forwardId !in s.pendingOpens)
  {
    hide RestoreAll;
    RestoredKeys(s, cands);
    assert forall c :: c in cands ==> c.forwardId in Ids(cands);
    forall i | 0 <= i < |cands|
      ensures var s' := RestoreAll(s, cands); var id := cands[i].forwardId;
              && id in s'.publicEntries && s'.publicEntries[id] == cands[i].entry
              && id in s'.lifecycleEntries && s'.lifecycleEntries[id] == cands[i].lifecycle
    {
      RestoredAt(s, cands, i);
    }
    forall id | id !in Ids(cands)
      ensures var s' := RestoreAll(s, cands);
              && (id in s.publicEntries ==> id in s'.publicEntries && s'.publicEntries[id] == s.publicEntries[id])
              && (id in s.lifecycleEntries ==> id in s'.lifecycleEntries && s'.lifecycleEntries[id] == s.lifecycleEntries[id])
    {
      RestoredElsewhere(s, cands, id);
    }
  }

  // ----- Reservations -----------------------------------------------------

  /** Committing the record a reservation was made for never fails, turns exactly
      that reservation into that forward, and uses no further room. Any other
      record is refused, and the reservation is gone with it. */
  lemma CommitExactly(ops: seq<Op>, id: ForwardId, record: Record)
    requires AllLegal(ops)
    requires id in Exec(ops).held
    ensures var s, s', p := Exec(ops).store, Exec(ops + [Commit(id, record)]).store, Exec(ops).held[id];
            && id in s.pendingOpens && s.pendingOpens[id] == p && id !in s.publicEntries
            && s'.pendingOpens == s.pendingOpens - {id}
            && (if record.entry.forwardId == id && record.entry.listenSide == p.listenSide && record.entry.connectSide == p.connectSide then
                  && s'.publicEntries == s.publicEntries[id := record.entry]
                  && s'.lifecycleEntries == s.lifecycleEntries[id := record.lifecycle]
                  && OpenCount(s') == OpenCount(s)
                  && (forall q :: SidePairCount(s', q) == SidePairCount(s, q))
                else
                  s' == s.(pendingOpens := s.pendingOpens - {id}))
  {
    ReachableOk(ops);
    ExecOneMore(ops, Commit(id, record));
    hide Exec, AllLegal, EntryOk, ReconnectingIds, IsReconnecting, TakenOk, SidePairCount, Legal;
    var s, p := Exec(ops).store, Exec(ops).held[id];
    if CommitSucceeds(s, id, p, record) {
      forall q ensures SidePairCount(CommitOpen(s, id, p, record), q) == SidePairCount(s, q) {
        MovedCounts(s, CommitOpen(s, id, p, record), id, p, q, record.entry);
      }
      assert |s.publicEntries[id := record.entry].Keys| == |s.publicEntries.Keys| + 1;
      assert |(s.pendingOpens - {id}).Keys| == |s.pendingOpens.Keys - {id}| == |s.pendingOpens.Keys| - 1;
    }
  }

  lemma HeldIsPending(w: World)
    requires WorldOk(w)
    ensures w.store.pendingOpens == w.held
  {
    hide StoreOk, TakenOk;
  }

  /** Dropping a reservation gives back exactly its own room. */
  lemma DroppedGuardReturnsItsSlot(ops: seq<Op>, id: ForwardId)
    requires AllLegal(ops)
    requires id in Exec(ops).held
    ensures var s, s' := Exec(ops).store, Exec(ops + [DropGuard(id)]).store;
            && OpenCount(s') == OpenCount(s) - 1
            && s' == s.(pendingOpens := s.pendingOpens - {id})
            && (forall p :: SidePairCount(s', p) == SidePairCount(s, p) - (if p == Exec(ops).held[id] then 1 else 0))
  {
    hide Exec, AllLegal, WorldOk, KeysWith, Legal, Pairs;
    ReachableOk(ops);
    HeldIsPending(Exec(ops));
    ExecOneMore(ops, DropGuard(id));
    var s := Exec(ops).store;
    assert (s.pendingOpens - {id}).Keys == s.pendingOpens.Keys - {id};
    assert |(s.pendingOpens - {id}).Keys| == |s.pendingOpens - {id}|;
    forall p ensures |KeysWith(s.pendingOpens, p)|
                  == |KeysWith(s.pendingOpens - {id}, p)| + (if p == Exec(ops).held[id] then 1 else 0) {
      OneLessWith(s.pendingOpens, id, p);
    }
  }

  // ----- Lifecycle --------------------------------------------------------

  ghost predicate FailedIn(w: World, id: ForwardId) {
    || (id in w.store.publicEntries && w.store.publicEntries[id].status.StatusFailed?)
    || (id in w.taken && w.taken[id].entry.status.StatusFailed?)
  }

  ghost predicate Present(w: World, id: ForwardId) {
    id in w.store.publicEntries || id in w.taken
  }

  lemma UpdateFailedStays(w: World, op: Op, id: ForwardId)
    requires WorldOk(w)
    requires IsUpdate(op)
    requires FailedIn(w, id)
    ensures FailedIn(Apply(w, op), id)
  {
    hide EntryOk, Updated, ReconnectingIds, IsReconnecting, Apply;
    ApplyUpdate(w, op);
    if op.id in w.store.publicEntries && w.store.publicEntries[op.id].status.StatusFailed? && !IsReconnectOp(op) {
      UpdatedOk(op, w.store.publicEntries[op.id]);
    }
  }

  lemma {:induction false} TakenKept(taken: map<ForwardId, Candidate>, cands: seq<Candidate>, id: ForwardId)
    requires forall i :: 0 <= i < |cands| && cands[i].forwardId == id ==> cands[i].entry.status.StatusFailed?
    requires id in taken ==> taken[id].entry.status.StatusFailed?
    ensures id in AddTaken(taken, cands) ==> AddTaken(taken, cands)[id].entry.status.StatusFailed?
  {
    if cands != [] {
      TakenKept(taken, cands[..|cands| - 1], id);
    }
  }

  lemma {:induction false} RestoredKept(s: Store, cands: seq<Candidate>, id: ForwardId)
    requires forall i :: 0 <= i < |cands| && cands[i].entry.forwardId == id ==> cands[i].entry.status.StatusFailed?
    requires id in s.publicEntries ==> s.publicEntries[id].status.StatusFailed?
    ensures id in RestoreAll(s, cands).publicEntries ==> RestoreAll(s, cands).publicEntries[id].status.StatusFailed?
  {
    if cands != [] {
      RestoredKept(s, cands[..|cands| - 1], id);
    }
  }

  lemma TakeFailedStays(w: World, ids: seq<ForwardId>, id: ForwardId)
    requires WorldOk(w)
    requires Legal(w, Take(ids))
    requires FailedIn(w, id)
    ensures Present(Apply(w, Take(ids)), id) ==> FailedIn(Apply(w, Take(ids)), id)
  {
    hide TakeAll, AddTaken, StoreOk, TakenOk, IdSet, FirstMissing;
    KnownHalves(w.store);
    TakenPart(w.store, ids);
    var k := FirstMissing(w.store, ids);
    if TakeAll(w.store, ids).0.Some? {
      assert ids[..|ids|] == ids;
      TakeAllExact(w.store, ids);
      TakenKept(w.taken, TakeAll(w.store, ids).0.value, id);
    }
  }

  lemma RestoreFailedStays(w: World, cands: seq<Candidate>, id: ForwardId)
    requires WorldOk(w)
    requires Legal(w, Restore(cands))
    requires FailedIn(w, id)
    ensures Present(Apply(w, Restore(cands)), id) ==> FailedIn(Apply(w, Restore(cands)), id)
  {
    hide RestoreAll, EntryOk, ReconnectingIds;
    forall i | 0 <= i < |cands| && cands[i].entry.forwardId == id ensures cands[i].entry.status.StatusFailed? {
      assert Restorable(w.taken, cands[i]);
    }
    RestoredKept(w.store, cands, id);
  }

  /** Failed is absorbing: whatever happens to the store, a failed forward stays
      failed for as long as it is there, through closing and restoring included. */
  lemma FailedStays(w: World, op: Op, id: ForwardId)
    requires WorldOk(w)
    requires Legal(w, op)
    requires FailedIn(w, id)
    ensures Present(Apply(w, op), id) ==> FailedIn(Apply(w, op), id)
  {
    if IsUpdate(op) {
      UpdateFailedStays(w, op, id);
    } else {
      match op
      case Take(ids) => TakeFailedStays(w, ids, id);
      case Restore(cands) => RestoreFailedStays(w, cands, id);
      case _ =>
    }
  }
}
