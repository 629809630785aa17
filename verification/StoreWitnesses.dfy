/** Runs of the store that show what its conditions shut out: a limit passed by a
    restored close, and a record lost to a take whose ids were handed out again. */
module StoreWitnesses {
  import opened Common
  import opened ForwardEntries
  import opened ForwardStore
  import opened StoreRuns
  import opened StoreLimits
  import opened StoreClose

  /** An open forward with both sides up, under the given id. */
  predicate Fresh(e: ForwardPortEntry, id: ForwardId, p: SidePair) {
    && e.forwardId == id && PairOf(e) == p
    && e.status.StatusOpen? && e.phase.PhaseReady?
    && e.listenState.health.Ready? && e.connectState.health.Ready?
  }

  lemma FreshFacts(e: ForwardPortEntry, id: ForwardId, p: SidePair)
    requires Fresh(e, id, p)
    ensures Committable(e) && !IsReconnecting(e) && e.forwardId == id && PairOf(e) == p
  {
  }

  function At(publicEntries: map<ForwardId, ForwardPortEntry>, lifecycles: map<ForwardId, Lifecycle>,
              held: map<ForwardId, SidePair>, taken: map<ForwardId, Candidate>): World {
    World(Store(publicEntries, lifecycles, held, 0), held, taken)
  }

  lemma NoPairs(p: SidePair)
    ensures KeysWith(map[], p) == {} && Pairs(map[]) == map[]
  {
  }

  /** Reserving one id in a store without forwards. */
  lemma ReserveOne(taken: map<ForwardId, Candidate>, p: SidePair, id: ForwardId, limits: OpenLimits)
    requires id !in taken && limits.maxOpenTotal >= 1 && limits.maxPerSidePair >= 1
    ensures var w := At(map[], map[], map[], taken);
            Legal(w, Reserve(p, [id], limits)) && Apply(w, Reserve(p, [id], limits)) == At(map[], map[], map[id := p], taken)
  {
    NoPairs(p);
    assert AddPending(map[], [], p) == map[];
    assert [id][..0] == [];
    assert AddPending(map[], [id], p) == map[id := p];
  }

  lemma ReserveTwo(p: SidePair, a: ForwardId, b: ForwardId, limits: OpenLimits)
    requires a != b && limits.maxOpenTotal >= 2 && limits.maxPerSidePair >= 2
    ensures var w := At(map[], map[], map[], map[]);
            && Legal(w, Reserve(p, [a, b], limits))
            && Apply(w, Reserve(p, [a, b], limits)) == At(map[], map[], map[a := p, b := p], map[])
  {
    NoPairs(p);
    assert [a, b][..1] == [a] && [a][..0] == [];
    assert AddPending(map[], [a], p) == map[a := p];
    assert AddPending(map[], [a, b], p) == map[a := p, b := p];
  }

  /** Committing a fresh forward into a store whose entries do not reconnect. */
  lemma CommitFresh(w: World, id: ForwardId, p: SidePair, e: ForwardPortEntry, l: Lifecycle)
    requires Fresh(e, id, p) && id in w.held && w.held[id] == p
    requires w == At(w.store.publicEntries, w.store.lifecycleEntries, w.held, w.taken) && id !in w.store.publicEntries
    ensures Legal(w, Commit(id, Record(e, l)))
    ensures Apply(w, Commit(id, Record(e, l)))
         == At(w.store.publicEntries[id := e], w.store.lifecycleEntries[id := l], w.held - {id}, w.taken)
  {
    hide IsReconnecting, Committable, PairOf;
    FreshFacts(e, id, p);
  }

  lemma TakeAllOne(s: Store, id: ForwardId)
    ensures var (c, s') := TakeForward(s, id);
            TakeAll(s, [id]) == (if c.None? then None else Some([c.value]), s')
  {
    hide TakeForward;
    var ids := [id];
    assert ids[..|ids| - 1] == [];
    assert TakeAll(s, []) == (Some([]), s);
    var c := TakeForward(s, id).0;
    if c.Some? {
      assert [] + [c.value] == [c.value];
    }
  }

  /** One forward is opened, and taken to be closed. */
  lemma TakeOne(id: ForwardId, e: ForwardPortEntry, p: SidePair, l: Lifecycle)
    requires Fresh(e, id, p)
    ensures var w := At(map[id := e], map[id := l], map[], map[]);
            && Legal(w, Take([id]))
            && Apply(w, Take([id])) == At(map[], map[], map[], map[id := Candidate(id, e, l)])
  {
    hide IsReconnecting;
    FreshFacts(e, id, p);
    var s := At(map[id := e], map[id := l], map[], map[]).store;
    var c := Candidate(id, e, l);
    TakeAllOne(s, id);
    assert s.publicEntries - {id} == map[] && s.lifecycleEntries - {id} == map[];
    assert [c][..|[c]| - 1] == [];
    assert AddTaken(map[], [c]) == map[id := c];
  }

  lemma RestoreOne(a: ForwardId, ea: ForwardPortEntry, b: ForwardId, eb: ForwardPortEntry, p: SidePair, l: Lifecycle)
    requires a != b && Fresh(ea, a, p) && Fresh(eb, b, p)
    ensures var c := Candidate(a, ea, l); var w := At(map[b := eb], map[b := l], map[], map[a := c]);
            && Legal(w, Restore([c]))
            && Apply(w, Restore([c])) == At(map[b := eb, a := ea], map[b := l, a := l], map[], map[])
  {
    hide IsReconnecting;
    FreshFacts(ea, a, p);
    var c := Candidate(a, ea, l);
    var s := At(map[b := eb], map[b := l], map[], map[a := c]).store;
    assert [c][..|[c]| - 1] == [];
    assert RestoreAll(s, [c]) == InsertForward(s, ea, l);
    assert Restorable(map[a := c], c);
    assert Ids([c]) == {a};
    assert map[a := c] - {a} == map[];
  }

  /** A limit of one forward, kept by every reservation, is passed when a close is
      undone after its room was given to another forward. */
  lemma RestorePassesTheLimits(ea: ForwardPortEntry, eb: ForwardPortEntry, p: SidePair, l: Lifecycle)
    requires Fresh(ea, 1, p) && Fresh(eb, 2, p)
    ensures var limits := OpenLimits(1, 1);
            var ops := [Reserve(p, [1], limits), Commit(1, Record(ea, l)), Take([1]),
                        Reserve(p, [2], limits), Commit(2, Record(eb, l)), Restore([Candidate(1, ea, l)])];
            && AllLegal(ops)
            && WithinLimits(Exec(ops[..5]).store, limits)
            && OpenCount(Exec(ops).store) == 2 && SidePairCount(Exec(ops).store, p) == 2
  {
    hide Legal, Apply, WithinLimits, OpenCount, SidePairCount, Fresh, Exec, AllLegal;
    var limits, c := OpenLimits(1, 1), Candidate(1, ea, l);
    OpenAndTake(ea, p, l, limits);
    var o3 := [Reserve(p, [1], limits), Commit(1, Record(ea, l)), Take([1])];
    var o4 := o3 + [Reserve(p, [2], limits)];
    var o5 := o4 + [Commit(2, Record(eb, l))];
    ExecOneMore(o3, o4[3]);
    ReserveOne(map[1 := c], p, 2, limits);
    ExecOneMore(o4, o5[4]);
    CommitFresh(Exec(o4), 2, p, eb, l);
    assert map[2 := p] - {2} == map[];
    ExecOneMore(o5, Restore([c]));
    RestoreOne(1, ea, 2, eb, p, l);
    CountOne(2, eb, p, l, map[1 := c]);
    CountTwo(2, eb, 1, ea, p, l);
    var ops := [Reserve(p, [1], limits), Commit(1, Record(ea, l)), Take([1]),
                Reserve(p, [2], limits), Commit(2, Record(eb, l)), Restore([c])];
    assert ops == o5 + [Restore([c])] && ops[..5] == o5;
  }

  lemma ExecNone()
    ensures Exec([]) == At(map[], map[], map[], map[]) && AllLegal([])
  {
  }

  lemma OpenAndTake(e: ForwardPortEntry, p: SidePair, l: Lifecycle, limits: OpenLimits)
    requires Fresh(e, 1, p) && limits.maxOpenTotal >= 1 && limits.maxPerSidePair >= 1
    ensures var ops := [Reserve(p, [1], limits), Commit(1, Record(e, l)), Take([1])];
            AllLegal(ops) && Exec(ops) == At(map[], map[], map[], map[1 := Candidate(1, e, l)])
  {
    hide Legal, Apply, Fresh, Exec, AllLegal;
    var o1 := [Reserve(p, [1], limits)];
    var o2 := [Reserve(p, [1], limits), Commit(1, Record(e, l))];
    var o3 := [Reserve(p, [1], limits), Commit(1, Record(e, l)), Take([1])];
    assert [] + o1 == o1 && o1 + [o2[1]] == o2 && o2 + [o3[2]] == o3;
    ExecNone();
    ExecOneMore([], o1[0]);
    ReserveOne(map[], p, 1, limits);
    ExecOneMore(o1, o2[1]);
    CommitFresh(Exec(o1), 1, p, e, l);
    assert map[1 := p] - {1} == map[];
    ExecOneMore(o2, o3[2]);
    TakeOne(1, e, p, l);
  }

  lemma CountOne(id: ForwardId, e: ForwardPortEntry, p: SidePair, l: Lifecycle, taken: map<ForwardId, Candidate>)
    requires Fresh(e, id, p)
    ensures WithinLimits(At(map[id := e], map[id := l], map[], taken).store, OpenLimits(1, 1))
  {
    forall q ensures |KeysWith(Pairs(map[id := e]), q)| + |KeysWith<SidePair>(map[], q)| <= 1 {
      NoPairs(q);
      assert KeysWith(Pairs(map[id := e]), q) <= {id};
      SubsetSize(KeysWith(Pairs(map[id := e]), q), {id});
    }
  }

  lemma CountTwo(a: ForwardId, ea: ForwardPortEntry, b: ForwardId, eb: ForwardPortEntry, p: SidePair, l: Lifecycle)
    requires a != b && Fresh(ea, a, p) && Fresh(eb, b, p)
    ensures var s := At(map[a := ea, b := eb], map[a := l, b := l], map[], map[]).store;
            OpenCount(s) == 2 && SidePairCount(s, p) == 2
  {
    NoPairs(p);
    assert KeysWith(Pairs(map[a := ea, b := eb]), p) == {a, b};
    assert map[a := ea, b := eb].Keys == {a, b};
  }

  /** Two forwards are checked for closing; then the store is drained and the
      first id is handed out again. The take finds the new forward, misses the
      second one, and drops the record it has already taken out. */
  lemma ReissuedIdLosesItsRecord(ea: ForwardPortEntry, eb: ForwardPortEntry, p: SidePair, l: Lifecycle, limits: OpenLimits)
    requires Fresh(ea, 1, p) && Fresh(eb, 2, p)
    requires limits.maxOpenTotal >= 2 && limits.maxPerSidePair >= 2
    ensures var ops := [Reserve(p, [1, 2], limits), Commit(1, Record(ea, l)), Commit(2, Record(eb, l))];
            var gap := [DrainAll, Reserve(p, [1], limits), Commit(1, Record(ea, l))];
            && AllLegal(ops + gap + [Take([1, 2])])
            && AllKnown(Exec(ops).store, [1, 2]) && NoTakes(gap)
            && 1 in Exec(ops + gap).store.publicEntries
            && TakeAll(Exec(ops + gap).store, [1, 2]).0.None?
            && 1 !in Exec(ops + gap + [Take([1, 2])]).store.publicEntries
            && Exec(ops + gap + [Take([1, 2])]).taken == map[]
  {
    hide Legal, Apply, Fresh, Exec, AllLegal;
    var ops := [Reserve(p, [1, 2], limits), Commit(1, Record(ea, l)), Commit(2, Record(eb, l))];
    var gap := [DrainAll, Reserve(p, [1], limits), Commit(1, Record(ea, l))];
    OpenTwo(ea, eb, p, l, limits);
    var o4, o5 := ops + [gap[0]], ops + [gap[0]] + [gap[1]];
    ExecOneMore(ops, gap[0]);
    DrainEmpties(Exec(ops));
    ExecOneMore(o4, gap[1]);
    ReserveOne(map[], p, 1, limits);
    ExecOneMore(o5, gap[2]);
    CommitFresh(Exec(o5), 1, p, ea, l);
    assert map[1 := p] - {1} == map[];
    assert o5 + [gap[2]] == ops + gap;
    ExecOneMore(ops + gap, Take([1, 2]));
    TakeMissesSecond(1, ea, 2, l);
  }

  lemma OpenTwo(ea: ForwardPortEntry, eb: ForwardPortEntry, p: SidePair, l: Lifecycle, limits: OpenLimits)
    requires Fresh(ea, 1, p) && Fresh(eb, 2, p)
    requires limits.maxOpenTotal >= 2 && limits.maxPerSidePair >= 2
    ensures var ops := [Reserve(p, [1, 2], limits), Commit(1, Record(ea, l)), Commit(2, Record(eb, l))];
            AllLegal(ops) && Exec(ops) == At(map[1 := ea, 2 := eb], map[1 := l, 2 := l], map[], map[])
  {
    hide Legal, Apply, Fresh, Exec, AllLegal;
    var o1 := [Reserve(p, [1, 2], limits)];
    var o2 := [Reserve(p, [1, 2], limits), Commit(1, Record(ea, l))];
    var o3 := [Reserve(p, [1, 2], limits), Commit(1, Record(ea, l)), Commit(2, Record(eb, l))];
    assert [] + o1 == o1 && o1 + [o2[1]] == o2 && o2 + [o3[2]] == o3;
    ExecNone();
    ExecOneMore([], o1[0]);
    ReserveTwo(p, 1, 2, limits);
    ExecOneMore(o1, o2[1]);
    CommitFresh(Exec(o1), 1, p, ea, l);
    assert map[1 := p, 2 := p] - {1} == map[2 := p];
    ExecOneMore(o2, o3[2]);
    CommitFresh(Exec(o2), 2, p, eb, l);
    assert map[2 := p] - {2} == map[];
  }

  lemma DrainEmpties(w: World)
    requires w.held == map[] && w.store.pendingOpens == map[] && w.taken == map[]
    ensures Legal(w, DrainAll) && Apply(w, DrainAll) == At(map[], map[], map[], map[])
  {
  }

  lemma TakeMissesSecond(a: ForwardId, ea: ForwardPortEntry, b: ForwardId, l: Lifecycle)
    requires a != b
    ensures var w := At(map[a := ea], map[a := l], map[], map[]);
            && Legal(w, Take([a, b]))
            && TakeAll(w.store, [a, b]).0.None?
            && a !in Apply(w, Take([a, b])).store.publicEntries
            && Apply(w, Take([a, b])).taken == map[]
  {
    hide IsReconnecting;
    var s := At(map[a := ea], map[a := l], map[], map[]).store;
    var ids := [a, b];
    assert ids[..|ids| - 1] == [a];
    TakeAllOne(s, a);
  }
}
