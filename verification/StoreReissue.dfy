/** The store with nothing assumed about the id generator but what it checks: an
    id it hands out is neither public nor pending, though a record of that id may
    still be closing. The count, the halves of every record and the phases hold
    all the same; what can go wrong is shown by two runs. */
module StoreReissue {
  import opened Common
  import opened ForwardEntries
  import opened ForwardStore
  import opened StoreRuns
  import opened StoreWitnesses

  /** Every record taken out by the run so far, whatever became of it. */
  ghost function Released(ops: seq<Op>): set<Candidate> {
    if ops == [] then {}
    else
      var before, last := ops[..|ops| - 1], ops[|ops| - 1];
      if last.Take? && TakeAll(Exec(before).store, last.ids).0.Some?
      then Released(before) + (set c | c in TakeAll(Exec(before).store, last.ids).0.value)
      else Released(before)
  }

  /** A record goes back as it was taken, or marked failed. */
  ghost predicate Returnable(released: set<Candidate>, c: Candidate) {
    exists t :: t in released && c.forwardId == t.forwardId && c.lifecycle == t.lifecycle
                && (c.entry == t.entry || exists error :: c.entry == MarkEntryFailed(t.entry, error))
  }

  /** What the callers and the generator really guarantee. */
  ghost predicate LegalAsChecked(w: World, released: set<Candidate>, op: Op) {
    match op
    case Reserve(_, ids, _) =>
      Distinct(ids) && (forall id :: id in ids ==> id !in w.store.publicEntries && id !in w.store.pendingOpens)
    case Commit(id, record) => id in w.held && Committable(record.entry)
    case DropGuard(id) => id in w.held
    case Take(ids) => Distinct(ids)
    case Restore(cands) =>
      && (forall c :: c in cands ==> Returnable(released, c))
      && (forall i, j :: 0 <= i < j < |cands| ==> cands[i].forwardId != cands[j].forwardId)
    case _ => true
  }

  ghost predicate AllLegalAsChecked(ops: seq<Op>) {
    forall n :: 0 <= n < |ops| ==> LegalAsChecked(Exec(ops[..n]), Released(ops[..n]), ops[n])
  }

  // ----- What holds anyway ------------------------------------------------

  ghost predicate NamedOk(c: Candidate) {
    c.entry.forwardId == c.forwardId && EntryOk(c.entry)
  }

  ghost predicate AllNamedOk(released: set<Candidate>) {
    forall c <- released :: NamedOk(c)
  }

  lemma ReturnableOk(released: set<Candidate>, c: Candidate)
    requires AllNamedOk(released) && Returnable(released, c)
    ensures NamedOk(c)
  {
  }

  lemma TakePartKeeps(s: Store, ids: seq<ForwardId>)
    requires StoreOk(s) && Distinct(ids)
    ensures StoreOk(TakeAll(s, ids).1) && TakeAll(s, ids).1.pendingOpens == s.pendingOpens
    ensures TakeAll(s, ids).0.Some? ==> forall c <- TakeAll(s, ids).0.value :: NamedOk(c)
  {
    hide TakeAll, EntryOk, ReconnectingIds, IdSet;
    TakenPart(s, ids);
    TakeAllKeeps(s, ids[..FirstMissing(s, ids)]);
    if TakeAll(s, ids).0.Some? {
      assert ids[..|ids|] == ids;
      TakenCandidates(s, ids);
    }
  }

  /** One operation, from any store with the invariant. */
  lemma CoreStep(w: World, released: set<Candidate>, op: Op)
    requires StoreOk(w.store) && w.store.pendingOpens == w.held
    requires AllNamedOk(released) && LegalAsChecked(w, released, op)
    ensures StoreOk(Apply(w, op).store) && Apply(w, op).store.pendingOpens == Apply(w, op).held
  {
    hide EntryOk, ReconnectingIds, TakeAll, RestoreAll, AddTaken, UpdatedStore, Returnable, Committable, StoreOk, InsertForward, Drain;
    if IsUpdate(op) {
      hide Apply;
      ApplyUpdate(w, op);
      UpdatedStoreKeeps(w.store, op);
    } else if op.Take? {
      TakePartKeeps(w.store, op.ids);
    } else if op.Restore? {
      forall c | c in op.cands ensures NamedOk(c) {
        ReturnableOk(released, c);
      }
      RestoreKeeps(w.store, op.cands);
    } else if op.Commit? {
      CommittableOk(op.record.entry);
      OtherPending(w.store, w.store.pendingOpens - {op.reserved});
      InsertKeeps(ReleaseReservation(w.store, op.reserved), op.record.entry, op.record.lifecycle);
      InsertPending(ReleaseReservation(w.store, op.reserved), op.record.entry, op.record.lifecycle);
    } else if op.DropGuard? {
      OtherPending(w.store, w.store.pendingOpens - {op.reserved});
    } else if op.Reserve? {
      OtherPending(w.store, AddPending(w.store.pendingOpens, op.ids, op.pair));
    } else if op.DrainAll? {
      DrainedOk(w.store);
    }
  }

  /** The invariant does not speak of pending opens. */
  lemma OtherPending(s: Store, pending: map<ForwardId, SidePair>)
    requires StoreOk(s)
    ensures StoreOk(s.(pendingOpens := pending))
  {
  }

  lemma InsertPending(s: Store, e: ForwardPortEntry, l: Lifecycle)
    ensures InsertForward(s, e, l).pendingOpens == s.pendingOpens
  {
  }

  lemma DrainedOk(s: Store)
    ensures StoreOk(Drain(s).1) && Drain(s).1.pendingOpens == s.pendingOpens
  {
  }

  lemma CommittableOk(e: ForwardPortEntry)
    requires Committable(e)
    ensures EntryOk(e)
  {
  }

  lemma ReleasedStep(ops: seq<Op>, op: Op)
    requires StoreOk(Exec(ops).store) && AllNamedOk(Released(ops)) && (op.Take? ==> Distinct(op.ids))
    ensures AllNamedOk(Released(ops + [op]))
  {
    hide Exec, EntryOk, StoreOk, TakeAll;
    assert (ops + [op])[..|ops|] == ops;
    if op.Take? {
      TakePartKeeps(Exec(ops).store, op.ids);
    }
  }

  /** In every run that the checks of the code allow, ids handed out while their
      record is closing included: the cached count is the recount, both halves of
      every record are there, every phase is the derived one, and the pending
      opens are exactly the guards held. */
  lemma {:induction false} CoreHoldsAnyway(ops: seq<Op>)
    requires AllLegalAsChecked(ops)
    ensures StoreOk(Exec(ops).store) && Exec(ops).store.pendingOpens == Exec(ops).held
    ensures AllNamedOk(Released(ops))
  {
    hide StoreOk, Apply, LegalAsChecked, AllNamedOk, Exec, Released, AllLegalAsChecked;
    if ops == [] {
      EmptyOk();
    } else {
      var before, last := ops[..|ops| - 1], ops[|ops| - 1];
      assert ops == before + [last];
      CheckedPrefix(before, last);
      CoreHoldsAnyway(before);
      ExecOneMore(before, last);
      CoreStep(Exec(before), Released(before), last);
      DistinctTake(Exec(before), Released(before), last);
      ReleasedStep(before, last);
    }
  }

  lemma CheckedPrefix(ops: seq<Op>, op: Op)
    requires AllLegalAsChecked(ops + [op])
    ensures AllLegalAsChecked(ops) && LegalAsChecked(Exec(ops), Released(ops), op)
  {
    hide Exec, Released, LegalAsChecked;
    var longer := ops + [op];
    forall n | 0 <= n < |ops|
      ensures LegalAsChecked(Exec(ops[..n]), Released(ops[..n]), ops[n])
    {
      assert longer[..n] == ops[..n] && longer[n] == ops[n];
    }
    assert longer[..|ops|] == ops && longer[|ops|] == op;
  }

  lemma EmptyOk()
    ensures StoreOk(Exec([]).store) && Exec([]).store.pendingOpens == Exec([]).held && AllNamedOk(Released([]))
  {
  }

  lemma DistinctTake(w: World, released: set<Candidate>, op: Op)
    requires LegalAsChecked(w, released, op)
    ensures op.Take? ==> Distinct(op.ids)
  {
  }

  // ----- Runs in which a closing id is handed out again --------------------

  /** The id is handed out again and committed while its old record is closing;
      the close fails, and the restore replaces the new forward by the old one. */
  lemma RestoreReplacesNewForward(
    e: ForwardPortEntry, e': ForwardPortEntry, p: SidePair, l: Lifecycle, l': Lifecycle, limits: OpenLimits)
    requires Fresh(e, 1, p) && Fresh(e', 1, p) && limits.maxOpenTotal >= 1 && limits.maxPerSidePair >= 1
    ensures var ops := [Reserve(p, [1], limits), Commit(1, Record(e, l)), Take([1]),
                        Reserve(p, [1], limits), Commit(1, Record(e', l')), Restore([Candidate(1, e, l)])];
            && AllLegalAsChecked(ops)
            && Exec(ops[..5]).store == Store(map[1 := e'], map[1 := l'], map[], 0)
            && Exec(ops).store == Store(map[1 := e], map[1 := l], map[], 0)
  {
    hide Apply, Fresh, Exec, Released, LegalAsChecked;
    var c := Candidate(1, e, l);
    var o3 := [Reserve(p, [1], limits), Commit(1, Record(e, l)), Take([1])];
    var o4 := o3 + [Reserve(p, [1], limits)];
    var o5 := o4 + [Commit(1, Record(e', l'))];
    var ops := [Reserve(p, [1], limits), Commit(1, Record(e, l)), Take([1]),
                Reserve(p, [1], limits), Commit(1, Record(e', l')), Restore([c])];
    TakenAndReserved(e, p, l, limits);
    ExecOneMore(o4, o5[4]);
    CommitChecked(Exec(o4), Released(o4), 1, p, e', l');
    assert map[1 := p] - {1} == map[];
    ReleasedSame(o4, o5[4]);
    ExecOneMore(o5, Restore([c]));
    RestoreChecked(Exec(o5), Released(o5), c, e', l', p);
    CheckedOneMore(o4, o5[4]);
    CheckedOneMore(o5, Restore([c]));
    assert ops == o5 + [Restore([c])] && ops[..5] == o5;
  }

  /** If the new forward is still pending when the restore comes, its id is
      pending and public at once. */
  lemma RestoreMeetsPending(e: ForwardPortEntry, p: SidePair, l: Lifecycle, limits: OpenLimits)
    requires Fresh(e, 1, p) && limits.maxOpenTotal >= 1 && limits.maxPerSidePair >= 1
    ensures var ops := [Reserve(p, [1], limits), Commit(1, Record(e, l)), Take([1]),
                        Reserve(p, [1], limits), Restore([Candidate(1, e, l)])];
            && AllLegalAsChecked(ops)
            && 1 in Exec(ops).store.publicEntries && 1 in Exec(ops).store.pendingOpens
  {
    hide Fresh, Exec, Released, Apply, LegalAsChecked;
    var c := Candidate(1, e, l);
    var o3 := [Reserve(p, [1], limits), Commit(1, Record(e, l)), Take([1])];
    var o4 := o3 + [Reserve(p, [1], limits)];
    var ops := [Reserve(p, [1], limits), Commit(1, Record(e, l)), Take([1]), Reserve(p, [1], limits), Restore([c])];
    TakenAndReserved(e, p, l, limits);
    ExecOneMore(o4, Restore([c]));
    FreshFacts(e, 1, p);
    RestoreBack(Exec(o4), Released(o4), c);
    CheckedOneMore(o4, Restore([c]));
    assert ops == o4 + [Restore([c])];
  }

  lemma CheckedOneMore(ops: seq<Op>, op: Op)
    requires AllLegalAsChecked(ops) && LegalAsChecked(Exec(ops), Released(ops), op)
    ensures AllLegalAsChecked(ops + [op])
  {
    hide Exec, Released, LegalAsChecked;
    var longer := ops + [op];
    forall n | 0 <= n < |longer|
      ensures LegalAsChecked(Exec(longer[..n]), Released(longer[..n]), longer[n])
    {
      assert longer[..n] == ops[..n];
      if n == |ops| {
        assert ops[..n] == ops;
      }
    }
  }

  lemma ReleasedSame(ops: seq<Op>, op: Op)
    requires !op.Take?
    ensures Released(ops + [op]) == Released(ops)
  {
    hide Exec;
    assert (ops + [op])[..|ops|] == ops;
  }

  /** One forward is opened and taken, and its id handed out again. */
  lemma TakenAndReserved(e: ForwardPortEntry, p: SidePair, l: Lifecycle, limits: OpenLimits)
    requires Fresh(e, 1, p) && limits.maxOpenTotal >= 1 && limits.maxPerSidePair >= 1
    ensures var ops := [Reserve(p, [1], limits), Commit(1, Record(e, l)), Take([1])] + [Reserve(p, [1], limits)];
            && AllLegalAsChecked(ops)
            && Exec(ops) == At(map[], map[], map[1 := p], map[1 := Candidate(1, e, l)])
            && Candidate(1, e, l) in Released(ops)
  {
    hide Apply, Fresh, Exec, Released, LegalAsChecked, Legal, AllLegal;
    var o1 := [Reserve(p, [1], limits)];
    var o2 := [Reserve(p, [1], limits), Commit(1, Record(e, l))];
    var o3 := [Reserve(p, [1], limits), Commit(1, Record(e, l)), Take([1])];
    assert [] + o1 == o1 && o1 + [o2[1]] == o2 && o2 + [o3[2]] == o3;
    ExecNone();
    NoneChecked();
    ReserveChecked(map[], p, limits, Released([]));
    CheckedOneMore([], o1[0]);
    ExecOneMore([], o1[0]);
    CommitChecked(Exec(o1), Released(o1), 1, p, e, l);
    CheckedOneMore(o1, o2[1]);
    ExecOneMore(o1, o2[1]);
    assert map[1 := p] - {1} == map[];
    TakeChecked(Exec(o2), Released(o2));
    CheckedOneMore(o2, o3[2]);
    ExecOneMore(o2, o3[2]);
    TakeOne(1, e, p, l);
    TakeReleases(o2, e, l);
    ReserveChecked(map[1 := Candidate(1, e, l)], p, limits, Released(o3));
    CheckedOneMore(o3, o1[0]);
    ExecOneMore(o3, o1[0]);
    ReleasedSame(o3, o1[0]);
  }

  lemma NoneChecked()
    ensures AllLegalAsChecked([])
  {
  }

  /** Whatever is being closed, an empty store lets id 1 be reserved. */
  lemma ReserveChecked(taken: map<ForwardId, Candidate>, p: SidePair, limits: OpenLimits, released: set<Candidate>)
    requires limits.maxOpenTotal >= 1 && limits.maxPerSidePair >= 1
    ensures var w := At(map[], map[], map[], taken);
            && LegalAsChecked(w, released, Reserve(p, [1], limits))
            && Apply(w, Reserve(p, [1], limits)) == At(map[], map[], map[1 := p], taken)
  {
    NoPairs(p);
    assert [1][..0] == [];
    assert AddPending(map[], [], p) == map[];
    assert AddPending(map[], [1], p) == map[1 := p];
  }

  lemma CommitChecked(w: World, released: set<Candidate>, id: ForwardId, p: SidePair, e: ForwardPortEntry, l: Lifecycle)
    requires Fresh(e, id, p) && id in w.held && w.held[id] == p
    requires w == At(w.store.publicEntries, w.store.lifecycleEntries, w.held, w.taken) && id !in w.store.publicEntries
    ensures LegalAsChecked(w, released, Commit(id, Record(e, l)))
    ensures Apply(w, Commit(id, Record(e, l)))
         == At(w.store.publicEntries[id := e], w.store.lifecycleEntries[id := l], w.held - {id}, w.taken)
  {
    hide Apply, Committable, Fresh;
    FreshFacts(e, id, p);
    CommitFresh(w, id, p, e, l);
  }

  lemma TakeChecked(w: World, released: set<Candidate>)
    ensures LegalAsChecked(w, released, Take([1]))
  {
  }

  lemma TakeReleases(ops: seq<Op>, e: ForwardPortEntry, l: Lifecycle)
    requires Exec(ops) == At(map[1 := e], map[1 := l], map[], map[])
    ensures Candidate(1, e, l) in Released(ops + [Take([1])])
  {
    hide Exec;
    assert (ops + [Take([1])])[..|ops|] == ops;
    TakeAllOne(Exec(ops).store, 1);
  }

  lemma RestoreBack(w: World, released: set<Candidate>, c: Candidate)
    requires c in released && c.entry.forwardId == c.forwardId
    ensures LegalAsChecked(w, released, Restore([c]))
    ensures Apply(w, Restore([c])).store == InsertForward(w.store, c.entry, c.lifecycle)
    ensures c.forwardId in Apply(w, Restore([c])).store.publicEntries
    ensures Apply(w, Restore([c])).store.pendingOpens == w.store.pendingOpens
  {
    assert [c][..|[c]| - 1] == [];
    assert RestoreAll(w.store, []) == w.store;
    assert Returnable(released, c);
  }

  lemma RestoreChecked(w: World, released: set<Candidate>, c: Candidate, e': ForwardPortEntry, l': Lifecycle, p: SidePair)
    requires c in released && c.forwardId == 1 && Fresh(c.entry, 1, p) && Fresh(e', 1, p)
    requires w.store == Store(map[1 := e'], map[1 := l'], map[], 0)
    ensures LegalAsChecked(w, released, Restore([c]))
    ensures Apply(w, Restore([c])).store == Store(map[1 := c.entry], map[1 := c.lifecycle], map[], 0)
  {
    hide Apply, LegalAsChecked, Fresh, IsReconnecting;
    FreshFacts(c.entry, 1, p);
    FreshFacts(e', 1, p);
    RestoreBack(w, released, c);
    assert map[1 := e'][1 := c.entry] == map[1 := c.entry] && map[1 := l'][1 := c.lifecycle] == map[1 := c.lifecycle];
  }
}
