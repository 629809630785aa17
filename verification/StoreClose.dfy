/** Closing forwards as a transaction: records are taken out of the store, closed
    one by one, and put back from the first failure on. */
module StoreClose {
  import opened Common
  import opened ForwardEntries
  import opened ForwardStore
  import opened StoreRuns
  import opened RequestOrder

  predicate AllKnown(s: Store, ids: seq<ForwardId>) {
    forall i :: 0 <= i < |ids| ==> ids[i] in s.publicEntries
  }

  /** The first of `n` closes that fails, or `n`. */
  function FirstFailed(closes: nat -> bool, n: nat): nat {
    if n == 0 then 0
    else
      var k := FirstFailed(closes, n - 1);
      if k < n - 1 then k else if closes(n - 1) then n else n - 1
  }

  function FailedCandidate(c: Candidate, error: string): Candidate {
    c.(entry := MarkEntryFailed(c.entry, error))
  }

  /** `close_candidates`: `closes(i)` says whether stopping the i-th forward
      succeeds, `during` what other callers do to the store meanwhile. */
  function CloseCandidates(s: Store, cands: seq<Candidate>, during: Store -> Store, closes: nat -> bool, error: string)
    : (Option<seq<ForwardPortEntry>>, Store)
  {
    var k := FirstFailed(closes, |cands|);
    if k >= |cands| then (Some(seq(|cands|, i requires 0 <= i < |cands| => ClosedEntry(cands[i].entry))), during(s))
    else (None, RestoreAll(during(s), Returning(cands, k, error)))
  }

  /** The candidates that go back: the failed one, then the untried rest. */
  function Returning(cands: seq<Candidate>, k: nat, error: string): seq<Candidate>
    requires k < |cands|
  {
    [FailedCandidate(cands[k], error)] + cands[k + 1..]
  }

  /** `close`: other callers may act between checking the ids and taking the
      records (`gap`), and again while the records are being closed (`during`). */
  function Close(
    s: Store, ids: seq<ForwardId>, gap: Store -> Store, during: Store -> Store, closes: nat -> bool, error: string)
    : (Option<seq<ForwardPortEntry>>, Store)
  {
    if !AllKnown(s, ids) then (None, s)
    else
      var (cands, s1) := TakeAll(gap(s), Unique(ids));
      if cands.None? then (None, s1) else CloseCandidates(s1, cands.value, during, closes, error)
  }

  lemma UniqueOk(ids: seq<ForwardId>)
    ensures Distinct(Unique(ids))
    ensures forall id :: id in Unique(ids) <==> id in ids
  {
    UniqueInOrder(ids);
    OrderedApart(ids, Unique(ids));
  }

  lemma {:induction false} FirstFailedOk(closes: nat -> bool, n: nat)
    ensures FirstFailed(closes, n) <= n
    ensures forall i: nat :: i < FirstFailed(closes, n) ==> closes(i)
    ensures FirstFailed(closes, n) < n ==> !closes(FirstFailed(closes, n))
  {
    if n != 0 {
      FirstFailedOk(closes, n - 1);
    }
  }

  // ----- Between checking and taking --------------------------------------

  /** `close_lock` is held from checking to taking, so nobody else takes. */
  predicate NoTakes(ops: seq<Op>) {
    forall op <- ops :: !op.Take?
  }

  /** The operation commits a reservation of `id` with its matching record. */
  predicate CommitsTo(w: World, op: Op, id: ForwardId) {
    && op.Commit? && op.reserved == id && id in w.held
    && op.record.entry.forwardId == id && PairOf(op.record.entry) == w.held[id]
  }

  /** A forward that was public after `ops` is so after `more`: it was not
      drained, or its id was handed out and committed again since. */
  ghost predicate StillThere(ops: seq<Op>, more: seq<Op>, id: ForwardId)
    decreases |more|
  {
    if more == [] then true
    else
      var before, last := more[..|more| - 1], more[|more| - 1];
      !last.DrainAll? && (CommitsTo(Exec(ops + before), last, id) || StillThere(ops, before, id))
  }

  lemma UpdateKeys(w: World, op: Op)
    requires WorldOk(w) && IsUpdate(op)
    ensures Apply(w, op).store.publicEntries.Keys == w.store.publicEntries.Keys
    ensures Apply(w, op).taken == w.taken && Apply(w, op).held == w.held
  {
    hide Apply, Updated, MarkEntryFailed, IsReconnecting, WorldOk;
    ApplyUpdate(w, op);
  }

  /** How an operation other than a take changes whether a forward is public. */
  lemma PublicStep(w: World, op: Op, id: ForwardId)
    requires WorldOk(w) && Legal(w, op) && !op.Take? && id !in w.taken
    ensures id in Apply(w, op).store.publicEntries <==>
              !op.DrainAll? && (CommitsTo(w, op, id) || id in w.store.publicEntries)
    ensures id !in Apply(w, op).taken
  {
    if IsUpdate(op) {
      hide WorldOk, Legal, Apply;
      UpdateKeys(w, op);
    } else if op.Restore? {
      hide RestoreAll, EntryOk, StoreOk;
      forall c <- op.cands ensures c.entry.forwardId == c.forwardId && c.forwardId != id {
        assert Restorable(w.taken, c);
      }
      RestoredElsewhere(w.store, op.cands, id);
    }
  }

  lemma {:induction false} PublicAfter(ops: seq<Op>, more: seq<Op>, id: ForwardId)
    requires AllLegal(ops + more) && NoTakes(more)
    requires AllLegal(ops) && id in Exec(ops).store.publicEntries
    ensures id in Exec(ops + more).store.publicEntries <==> StillThere(ops, more, id)
    ensures id !in Exec(ops + more).taken
    decreases |more|
  {
    hide Apply, Legal, AllLegal, CommitsTo, Exec;
    if more == [] {
      assert ops + more == ops;
      ReachableOk(ops);
    } else {
      var before, last := more[..|more| - 1], more[|more| - 1];
      LastApart(ops, more);
      ExecOneMore(ops + before, last);
      assert last in more;
      PublicAfter(ops, before, id);
      ReachableOk(ops + before);
      PublicStep(Exec(ops + before), last, id);
    }
  }

  /** Checked ids are taken all or not at all, or else some records are lost:
      exactly when the first id is still (or again) public and another is not. */
  lemma CheckedTakeExactly(ops: seq<Op>, more: seq<Op>, ids: seq<ForwardId>)
    requires AllLegal(ops + more) && NoTakes(more)
    requires Distinct(ids) && ids != [] && AllKnown(Exec(ops).store, ids)
    ensures var s := Exec(ops + more).store; var (cands, s') := TakeAll(s, ids);
            && (cands.Some? <==> forall i :: 0 <= i < |ids| ==> StillThere(ops, more, ids[i]))
            && (cands.None? ==> (s' == s <==> !StillThere(ops, more, ids[0])))
  {
    LegalPrefix(ops, more);
    var s := Exec(ops + more).store;
    forall i | 0 <= i < |ids|
      ensures ids[i] in s.publicEntries <==> StillThere(ops, more, ids[i])
    {
      PublicAfter(ops, more, ids[i]);
    }
    ReachableOk(ops + more);
    hide Exec, AllLegal, StillThere, TakeAll, EntryOk, ReconnectingIds, NoTakes, TakenOk;
    TakenPart(s, ids);
    var k := FirstMissing(s, ids);
    if k == 0 {
      assert ids[..k] == [];
      NoneTaken(s);
    } else {
      assert ids[0] in IdSet(ids[..k]) by { assert ids[..k][0] == ids[0]; }
      assert ids[0] !in TakeAll(s, ids).1.publicEntries;
    }
  }

  lemma NoneTaken(s: Store)
    ensures TakeAll(s, []) == (Some([]), s)
  {
  }

  /** No operation hands out one of these ids. */
  predicate NotReissued(ops: seq<Op>, ids: seq<ForwardId>) {
    forall op <- ops :: op.Reserve? ==> forall id <- op.ids :: id !in ids
  }

  predicate Drains(ops: seq<Op>) {
    exists op <- ops :: op.DrainAll?
  }

  lemma HeldStep(w: World, op: Op, id: ForwardId)
    requires id !in w.held && (op.Reserve? ==> id !in op.ids)
    ensures id !in Apply(w, op).held
  {
    match op
    case Reserve(p, ids, _) => AddPendingKeys(w.held, ids, p);
    case _ =>
  }

  lemma {:induction false} NeverHeld(ops: seq<Op>, more: seq<Op>, id: ForwardId)
    requires id !in Exec(ops).held
    requires forall op <- more :: op.Reserve? ==> id !in op.ids
    ensures id !in Exec(ops + more).held
    decreases |more|
  {
    hide Apply, Exec;
    if more == [] {
      assert ops + more == ops;
    } else {
      var before, last := more[..|more| - 1], more[|more| - 1];
      LastApart(ops, more);
      ExecOneMore(ops + before, last);
      assert last in more;
      NeverHeld(ops, before, id);
      HeldStep(Exec(ops + before), last, id);
    }
  }

  lemma {:induction false} ThereUnlessDrained(ops: seq<Op>, more: seq<Op>, id: ForwardId)
    requires id !in Exec(ops).held
    requires forall op <- more :: op.Reserve? ==> id !in op.ids
    ensures StillThere(ops, more, id) <==> !Drains(more)
    decreases |more|
  {
    hide Exec;
    if more != [] {
      var before, last := more[..|more| - 1], more[|more| - 1];
      assert last in more && more == before + [last];
      ThereUnlessDrained(ops, before, id);
      NeverHeld(ops, before, id);
    }
  }

  /** So, as long as no checked id is handed out again in between, the take is
      all or nothing: a drain in between removes every forward, and the take
      finds nothing; without one it finds everything. */
  lemma CheckedTakeIsAllOrNothing(ops: seq<Op>, more: seq<Op>, ids: seq<ForwardId>)
    requires AllLegal(ops + more) && NoTakes(more)
    requires Distinct(ids) && ids != [] && AllKnown(Exec(ops).store, ids)
    requires NotReissued(more, ids)
    ensures var s := Exec(ops + more).store; var (cands, s') := TakeAll(s, ids);
            && (cands.Some? <==> !Drains(more))
            && (cands.None? ==> s' == s)
  {
    CheckedTakeExactly(ops, more, ids);
    LegalPrefix(ops, more);
    ReachableOk(ops);
    hide Exec, AllLegal, StillThere, TakeAll, EntryOk, ReconnectingIds, Drains, TakenOk;
    forall i | 0 <= i < |ids|
      ensures StillThere(ops, more, ids[i]) <==> !Drains(more)
    {
      ThereUnlessDrained(ops, more, ids[i]);
    }
  }

  // ----- While the records are being closed -------------------------------

  /** An operation of somebody else: it does not restore a record that was taken
      for `u`, nor settle one that is still to be closed. */
  predicate Spares(op: Op, u: seq<ForwardId>, k: nat)
    requires k <= |u|
  {
    && (op.Restore? ==> forall c <- op.cands :: c.forwardId !in u)
    && (op.Closed? ==> op.id !in u[k..])
  }

  lemma {:induction false} AddTakenOther(taken: map<ForwardId, Candidate>, cands: seq<Candidate>, id: ForwardId)
    requires forall c <- cands :: c.forwardId != id
    ensures id in AddTaken(taken, cands) <==> id in taken
    ensures id in taken ==> AddTaken(taken, cands)[id] == taken[id]
  {
    if cands != [] {
      assert cands[|cands| - 1] in cands;
      AddTakenOther(taken, cands[..|cands| - 1], id);
    }
  }

  lemma {:induction false} AddTakenAt(taken: map<ForwardId, Candidate>, cands: seq<Candidate>, i: nat)
    requires i < |cands|
    requires forall j :: i < j < |cands| ==> cands[j].forwardId != cands[i].forwardId
    ensures cands[i].forwardId in AddTaken(taken, cands) && AddTaken(taken, cands)[cands[i].forwardId] == cands[i]
  {
    if i < |cands| - 1 {
      AddTakenAt(taken, cands[..|cands| - 1], i);
    }
  }

  /** A taken record stays as it is through every operation that does not put
      it back or settle it. */
  lemma TakenStep(w: World, op: Op, id: ForwardId)
    requires WorldOk(w) && Legal(w, op) && id in w.taken
    requires op.Restore? ==> forall c <- op.cands :: c.forwardId != id
    requires op.Closed? ==> op.id != id
    ensures id in Apply(w, op).taken && Apply(w, op).taken[id] == w.taken[id]
  {
    if IsUpdate(op) {
      hide WorldOk, Legal, Apply;
      UpdateKeys(w, op);
    } else if op.Take? {
      hide TakeAll, EntryOk, ReconnectingIds, AddTaken;
      TakenPart(w.store, op.ids);
      if TakeAll(w.store, op.ids).0.Some? {
        TakenAreOthers(w, op.ids, id);
        AddTakenOther(w.taken, TakeAll(w.store, op.ids).0.value, id);
      }
    }
  }

  lemma TakenAreOthers(w: World, ids: seq<ForwardId>, id: ForwardId)
    requires WorldOk(w) && Distinct(ids) && id in w.taken && TakeAll(w.store, ids).0.Some?
    ensures forall c <- TakeAll(w.store, ids).0.value :: c.forwardId != id
  {
    hide TakeAll, EntryOk, ReconnectingIds, TakenOk;
    TakenPart(w.store, ids);
    assert ids[..|ids|] == ids;
    TakeAllExact(w.store, ids);
    var cands := TakeAll(w.store, ids).0.value;
    forall c <- cands ensures c.forwardId != id {
      var i :| 0 <= i < |cands| && cands[i] == c;
      assert ids[i] in w.store.publicEntries;
    }
  }

  lemma {:induction false} TakenPersists(ops: seq<Op>, more: seq<Op>, u: seq<ForwardId>, k: nat, id: ForwardId)
    requires AllLegal(ops + more) && k <= |u| && id in u[k..] && id in Exec(ops).taken
    requires forall op <- more :: Spares(op, u, k)
    ensures id in Exec(ops + more).taken && Exec(ops + more).taken[id] == Exec(ops).taken[id]
    decreases |more|
  {
    hide Apply, Legal, AllLegal, Exec;
    if more == [] {
      assert ops + more == ops;
    } else {
      var before, last := more[..|more| - 1], more[|more| - 1];
      LastApart(ops, more);
      ExecOneMore(ops + before, last);
      assert last in more && Spares(last, u, k);
      assert id in u;
      TakenPersists(ops, before, u, k, id);
      ReachableOk(ops + before);
      TakenStep(Exec(ops + before), last, id);
    }
  }

  lemma InIdSet(u: seq<ForwardId>, i: nat)
    requires i < |u|
    ensures u[i] in IdSet(u)
  {
  }

  /** Taken records: where they are, and what they hold. */
  lemma AfterTake(ops: seq<Op>, u: seq<ForwardId>)
    requires AllLegal(ops) && Distinct(u) && AllKnown(Exec(ops).store, u)
    ensures var w, w' := Exec(ops), Exec(ops + [Take(u)]);
            && AllLegal(ops + [Take(u)])
            && TakeAll(w.store, u).0.Some?
            && var cands := TakeAll(w.store, u).0.value;
            && w'.store == TakeAll(w.store, u).1
            && w'.held == w.held
            && |cands| == |u|
            && (forall i :: 0 <= i < |u| ==>
                  && u[i] in w.store.publicEntries && u[i] in w.store.lifecycleEntries
                  && cands[i] == Candidate(u[i], w.store.publicEntries[u[i]], w.store.lifecycleEntries[u[i]])
                  && u[i] in w'.taken && w'.taken[u[i]] == cands[i]
                  && u[i] !in w'.store.publicEntries)
  {
    hide Exec, AllLegal, TakeAll, EntryOk, ReconnectingIds, TakenOk, AddTaken, IdSet;
    ExecOneMore(ops, Take(u));
    ReachableOk(ops);
    var w := Exec(ops);
    TakeAllExact(w.store, u);
    var cands := TakeAll(w.store, u).0.value;
    forall i | 0 <= i < |u|
      ensures u[i] in AddTaken(w.taken, cands) && AddTaken(w.taken, cands)[u[i]] == cands[i]
      ensures u[i] in IdSet(u)
    {
      AddTakenAt(w.taken, cands, i);
      InIdSet(u, i);
    }
  }

  /** The records that go back are those taken, unchanged but for the failed one. */
  lemma ReturningAt(cands: seq<Candidate>, k: nat, error: string, i: nat)
    requires k <= i < |cands|
    ensures var back := Returning(cands, k, error);
            && |back| == |cands| - k
            && back[i - k] == if i == k then FailedCandidate(cands[k], error) else cands[i]
  {
  }

  lemma ReturningIsLegal(w: World, u: seq<ForwardId>, cands: seq<Candidate>, k: nat, error: string)
    requires WorldOk(w) && Distinct(u) && |cands| == |u| && k < |u|
    requires forall i :: k <= i < |u| ==> u[i] in w.taken && w.taken[u[i]] == cands[i] && cands[i].forwardId == u[i]
    ensures Legal(w, Restore(Returning(cands, k, error)))
    ensures forall c <- Returning(cands, k, error) :: c.entry.forwardId == c.forwardId
  {
    hide StoreOk, EntryOk;
    var back := Returning(cands, k, error);
    forall n | 0 <= n < |back|
      ensures Restorable(w.taken, back[n]) && back[n].forwardId == u[k + n] && back[n].entry.forwardId == u[k + n]
    {
      ReturningAt(cands, k, error, k + n);
    }
  }

  /** What the restore leaves, whatever the store looks like by then. */
  lemma ReturnedExactly(s: Store, u: seq<ForwardId>, cands: seq<Candidate>, k: nat, error: string)
    requires Distinct(u) && |cands| == |u| && k < |u|
    requires forall i :: 0 <= i < |u| ==> cands[i].forwardId == u[i]
    requires forall c <- Returning(cands, k, error) :: c.entry.forwardId == c.forwardId
    ensures var s' := RestoreAll(s, Returning(cands, k, error));
            && (forall i :: k <= i < |u| ==>
                  && u[i] in s'.publicEntries && u[i] in s'.lifecycleEntries
                  && s'.publicEntries[u[i]] == (if i == k then MarkEntryFailed(cands[k].entry, error) else cands[i].entry)
                  && s'.lifecycleEntries[u[i]] == cands[i].lifecycle)
            && (forall id :: id !in u[k..] ==>
                  && (id in s'.publicEntries <==> id in s.publicEntries)
                  && (id in s.publicEntries ==> s'.publicEntries[id] == s.publicEntries[id])
                  && (id in s'.lifecycleEntries <==> id in s.lifecycleEntries)
                  && (id in s.lifecycleEntries ==> s'.lifecycleEntries[id] == s.lifecycleEntries[id]))
  {
    hide RestoreAll, MarkEntryFailed;
    var back := Returning(cands, k, error);
    forall n | 0 <= n < |back|
      ensures back[n].forwardId == u[k + n]
    {
      ReturningAt(cands, k, error, k + n);
    }
    forall i | k <= i < |u|
      ensures var s' := RestoreAll(s, back);
              && u[i] in s'.publicEntries && u[i] in s'.lifecycleEntries
              && s'.publicEntries[u[i]] == (if i == k then MarkEntryFailed(cands[k].entry, error) else cands[i].entry)
              && s'.lifecycleEntries[u[i]] == cands[i].lifecycle
    {
      ReturningAt(cands, k, error, i);
      RestoredAt(s, back, i - k);
    }
    forall id | id !in u[k..]
      ensures var s' := RestoreAll(s, back);
              && (id in s'.publicEntries <==> id in s.publicEntries)
              && (id in s.publicEntries ==> s'.publicEntries[id] == s.publicEntries[id])
              && (id in s'.lifecycleEntries <==> id in s.lifecycleEntries)
              && (id in s.lifecycleEntries ==> s'.lifecycleEntries[id] == s.lifecycleEntries[id])
    {
      forall c <- back ensures c.forwardId != id {
        var n :| 0 <= n < |back| && back[n] == c;
        assert u[k..][n] == u[k + n];
      }
      RestoredElsewhere(s, back, id);
    }
  }

  /** A forward that has been taken and closed is gone, unless its id is handed
      out again afterwards. */
  lemma {:induction false} StaysGone(ops: seq<Op>, more: seq<Op>, u: seq<ForwardId>, k: nat, id: ForwardId)
    requires AllLegal(ops + more) && k <= |u| && id in u
    requires id !in Exec(ops).store.publicEntries && id !in Exec(ops).held
    requires forall op <- more :: Spares(op, u, k) && (op.Reserve? ==> id !in op.ids)
    ensures id !in Exec(ops + more).store.publicEntries && id !in Exec(ops + more).held
    decreases |more|
  {
    hide Apply, Legal, AllLegal, Exec;
    if more == [] {
      assert ops + more == ops;
    } else {
      var before, last := more[..|more| - 1], more[|more| - 1];
      LastApart(ops, more);
      ExecOneMore(ops + before, last);
      assert last in more && Spares(last, u, k);
      StaysGone(ops, before, u, k, id);
      ReachableOk(ops + before);
      HeldStep(Exec(ops + before), last, id);
      GoneStep(Exec(ops + before), last, id);
    }
  }

  lemma GoneStep(w: World, op: Op, id: ForwardId)
    requires WorldOk(w) && Legal(w, op) && id !in w.store.publicEntries && id !in w.held
    requires op.Restore? ==> forall c <- op.cands :: c.forwardId != id
    ensures id !in Apply(w, op).store.publicEntries
  {
    if IsUpdate(op) {
      hide WorldOk, Legal, Apply;
      UpdateKeys(w, op);
    } else if op.Restore? {
      hide RestoreAll, EntryOk, StoreOk;
      forall c <- op.cands ensures c.entry.forwardId == c.forwardId && c.forwardId != id {
        assert Restorable(w.taken, c);
      }
      RestoredElsewhere(w.store, op.cands, id);
    } else if op.Take? {
      hide TakeAll, EntryOk, ReconnectingIds, AddTaken;
      TakenPart(w.store, op.ids);
    }
  }

  // ----- The transaction --------------------------------------------------

  /** From the store `taken` out of which the records of `u` were taken, the
      store `left` that the others made of the rest, and the failure of the k-th
      close: the k-th is back as failed, those after it are back as they were,
      and everything else is what the others left. */
  ghost predicate Undone(taken: Store, left: Store, s': Store, u: seq<ForwardId>, k: nat, error: string)
    requires k < |u|
  {
    && (forall i :: k <= i < |u| ==>
          && u[i] in taken.publicEntries && u[i] in taken.lifecycleEntries
          && u[i] in s'.publicEntries && u[i] in s'.lifecycleEntries
          && (if i == k then ShowsFailed(taken.publicEntries[u[k]], s'.publicEntries[u[k]], error)
              else s'.publicEntries[u[i]] == taken.publicEntries[u[i]])
          && s'.lifecycleEntries[u[i]] == taken.lifecycleEntries[u[i]])
    && (forall id :: id !in u[k..] ==>
          && (id in s'.publicEntries <==> id in left.publicEntries)
          && (id in left.publicEntries ==> s'.publicEntries[id] == left.publicEntries[id])
          && (id in s'.lifecycleEntries <==> id in left.lifecycleEntries)
          && (id in left.lifecycleEntries ==> s'.lifecycleEntries[id] == left.lifecycleEntries[id]))
    && s'.pendingOpens == left.pendingOpens
  }

  /** Putting the rest back is legal whatever others did meanwhile, and undoes
      exactly what was not closed. */
  lemma RestoredAmidOthers(ops: seq<Op>, u: seq<ForwardId>, more: seq<Op>, k: nat, error: string)
    requires AllLegal(ops + [Take(u)] + more) && Distinct(u) && AllKnown(Exec(ops).store, u) && k < |u|
    requires forall op <- more :: Spares(op, u, k)
    ensures var run := ops + [Take(u)] + more;
            && TakeAll(Exec(ops).store, u).0.Some? && |TakeAll(Exec(ops).store, u).0.value| == |u|
            && var back := Returning(TakeAll(Exec(ops).store, u).0.value, k, error);
            && AllLegal(run + [Restore(back)])
            && Undone(Exec(ops).store, Exec(run).store, RestoreAll(Exec(run).store, back), u, k, error)
  {
    hide Exec, AllLegal, TakeAll, Returning, RestoreAll, MarkEntryFailed, Legal, Spares, WorldOk, Undone;
    var run := ops + [Take(u)] + more;
    LegalPrefix(ops + [Take(u)], more);
    LegalPrefix(ops, [Take(u)]);
    AfterTake(ops, u);
    var w, cands := Exec(run), TakeAll(Exec(ops).store, u).0.value;
    forall i | k <= i < |u|
      ensures u[i] in w.taken && w.taken[u[i]] == cands[i]
    {
      assert u[i] == u[k..][i - k];
      TakenPersists(ops + [Take(u)], more, u, k, u[i]);
    }
    ReachableOk(run);
    ReturningIsLegal(w, u, cands, k, error);
    UndoneByRestore(Exec(ops).store, w.store, u, cands, k, error);
    ExecOneMore(run, Restore(Returning(cands, k, error)));
  }

  lemma UndoneByRestore(taken: Store, left: Store, u: seq<ForwardId>, cands: seq<Candidate>, k: nat, error: string)
    requires Distinct(u) && |cands| == |u| && k < |u|
    requires forall i :: 0 <= i < |u| ==>
               && u[i] in taken.publicEntries && u[i] in taken.lifecycleEntries
               && cands[i] == Candidate(u[i], taken.publicEntries[u[i]], taken.lifecycleEntries[u[i]])
    requires forall c <- Returning(cands, k, error) :: c.entry.forwardId == c.forwardId
    ensures Undone(taken, left, RestoreAll(left, Returning(cands, k, error)), u, k, error)
  {
    hide RestoreAll, Returning, MarkEntryFailed, ShowsFailed;
    ClosedShows(cands[k].entry, error);
    ReturnedExactly(left, u, cands, k, error);
    RestorePending(left, Returning(cands, k, error));
  }

  lemma {:induction false} RestorePending(s: Store, cands: seq<Candidate>)
    ensures RestoreAll(s, cands).pendingOpens == s.pendingOpens
  {
    if cands != [] {
      RestorePending(s, cands[..|cands| - 1]);
    }
  }

  /** What the others do in one close: between the check and the take, and from
      the take on, each as a run of store operations and as its effect. */
  ghost predicate Amid(
    ops: seq<Op>, gap: seq<Op>, more: seq<Op>, u: seq<ForwardId>, k: nat, onGap: Store -> Store, onMore: Store -> Store)
  {
    && AllLegal(ops + gap + [Take(u)] + more)
    && NoTakes(gap)
    && k <= |u| && (forall op <- more :: Spares(op, u, k))
    && onGap(Exec(ops).store) == Exec(ops + gap).store
    && onMore(Exec(ops + gap + [Take(u)]).store) == Exec(ops + gap + [Take(u)] + more).store
  }

  /** Close number `k` is the first of `n` to fail, or none fails and `k` is `n`. */
  ghost predicate FailsFirst(closes: nat -> bool, n: nat, k: nat) {
    k <= n && (forall i: nat :: i < k ==> closes(i)) && (k < n ==> !closes(k))
  }

  lemma FailsFirstIs(closes: nat -> bool, n: nat, k: nat)
    requires FailsFirst(closes, n, k)
    ensures FirstFailed(closes, n) == k
  {
    FirstFailedOk(closes, n);
  }

  lemma ClosedShows(e: ForwardPortEntry, error: string)
    ensures ShowsClosed(e, ClosedEntry(e)) && ShowsFailed(e, MarkEntryFailed(e, error), error)
  {
  }

  /** How a close that took its records ends: all closed and returned in request
      order, or undone from the k-th on. */
  ghost predicate Settled(
    taken: Store, left: Store, closed: Option<seq<ForwardPortEntry>>, s': Store, u: seq<ForwardId>, k: nat, error: string)
    requires k <= |u|
  {
    if k == |u| then
      && closed.Some? && |closed.value| == |u|
      && (forall i :: 0 <= i < |u| ==> u[i] in taken.publicEntries && ShowsClosed(taken.publicEntries[u[i]], closed.value[i]))
      && s' == left
    else closed.None? && Undone(taken, left, s', u, k, error)
  }

  lemma ClosedAmidOthers(
    ops: seq<Op>, u: seq<ForwardId>, more: seq<Op>, onMore: Store -> Store, closes: nat -> bool, error: string)
    requires AllLegal(ops + [Take(u)] + more) && Distinct(u) && AllKnown(Exec(ops).store, u)
    requires FirstFailed(closes, |u|) <= |u| && forall op <- more :: Spares(op, u, FirstFailed(closes, |u|))
    requires onMore(Exec(ops + [Take(u)]).store) == Exec(ops + [Take(u)] + more).store
    ensures var (cands, s1) := TakeAll(Exec(ops).store, u);
            && cands.Some?
            && var (closed, s') := CloseCandidates(s1, cands.value, onMore, closes, error);
            Settled(Exec(ops).store, Exec(ops + [Take(u)] + more).store, closed, s', u, FirstFailed(closes, |u|), error)
  {
    hide Exec, AllLegal, FirstFailed, Spares, Undone, ClosedEntry, ShowsClosed, ShowsFailed, MarkEntryFailed, TakeAll, RestoreAll, Returning;
    LegalPrefix(ops + [Take(u)], more);
    LegalPrefix(ops, [Take(u)]);
    AfterTake(ops, u);
    forall i | 0 <= i < |u|
      ensures ShowsClosed(Exec(ops).store.publicEntries[u[i]], ClosedEntry(Exec(ops).store.publicEntries[u[i]]))
    {
      ClosedShows(Exec(ops).store.publicEntries[u[i]], error);
    }
    if FirstFailed(closes, |u|) < |u| {
      RestoredAmidOthers(ops, u, more, FirstFailed(closes, |u|), error);
    }
  }

  /** Close as a transaction, amid any legal operations of others. An unknown id
      changes nothing. If some forward is no longer there at the take, the close
      fails and only the records before the first missing one are gone: none,
      unless a drained id was handed out again. Otherwise, if every close
      succeeds, the entries are returned as closed in request order and none of
      the forwards is back; if the k-th close fails, the first k are gone, the
      k-th is back as failed, the rest is back as taken, and every other forward
      is what the others made of it. */
  lemma CloseIsATransaction(
    ops: seq<Op>, gap: seq<Op>, more: seq<Op>, ids: seq<ForwardId>, u: seq<ForwardId>, k: nat,
    onGap: Store -> Store, onMore: Store -> Store, closes: nat -> bool, error: string)
    requires InRequestOrder(ids, u) && FailsFirst(closes, |u|, k)
    requires Amid(ops, gap, more, u, k, onGap, onMore)
    ensures var (closed, s') := Close(Exec(ops).store, ids, onGap, onMore, closes, error);
            var taken, left := Exec(ops + gap).store, Exec(ops + gap + [Take(u)] + more).store;
            if exists id :: id in ids && id !in Exec(ops).store.publicEntries then
              closed.None? && s' == Exec(ops).store
            else if forall i :: 0 <= i < |u| ==> StillThere(ops, gap, u[i]) then
              && Settled(taken, left, closed, s', u, k, error)
              && (forall id :: id in u[..k] && NotReissued(more, [id]) ==> id !in s'.publicEntries)
            else
              && closed.None? && Stopped(taken, s', u)
              && (NotReissued(gap, u) ==> Drains(gap) && s' == taken)
  {
    hide Exec, AllLegal, FirstFailed, Unique, Spares, Settled, Stopped, Drains, NotReissued, NoTakes, TakeAll, CloseCandidates, AllKnown, StillThere, InRequestOrder;
    InOrderIsUnique(ids, u);
    FailsFirstIs(closes, |u|, k);
    KnownPlainly(Exec(ops).store, ids);
    if AllKnown(Exec(ops).store, ids) {
      UniqueOk(ids);
      UniqueKnown(Exec(ops).store, ids);
      LegalPrefix(ops + gap + [Take(u)], more);
      LegalPrefix(ops + gap, [Take(u)]);
      KnownIfThere(ops, gap, u);
      if forall i :: 0 <= i < |u| ==> StillThere(ops, gap, u[i]) {
        ClosedAmidOthers(ops + gap, u, more, onMore, closes, error);
        GoneAfter(ops + gap, more, u, k);
        var (closed, s') := Close(Exec(ops).store, ids, onGap, onMore, closes, error);
        GoneSettled(ops + gap, more, u, k, error, closed, s');
      } else {
        NotAllTaken(ops, gap, u);
      }
    }
  }

  lemma KnownPlainly(s: Store, ids: seq<ForwardId>)
    ensures !AllKnown(s, ids) <==> exists id :: id in ids && id !in s.publicEntries
  {
    if !AllKnown(s, ids) {
      var i :| 0 <= i < |ids| && ids[i] !in s.publicEntries;
      assert ids[i] in ids;
    }
  }

  /** A close that misses a forward: what was taken before it is gone. */
  ghost predicate Stopped(taken: Store, s': Store, u: seq<ForwardId>) {
    var missing := FirstMissing(taken, u);
    && missing < |u|
    && s'.publicEntries == taken.publicEntries - IdSet(u[..missing])
    && s'.lifecycleEntries == taken.lifecycleEntries - IdSet(u[..missing])
    && s'.pendingOpens == taken.pendingOpens
  }

  lemma KnownIfThere(ops: seq<Op>, gap: seq<Op>, u: seq<ForwardId>)
    requires AllLegal(ops + gap) && NoTakes(gap) && AllKnown(Exec(ops).store, u)
    ensures AllKnown(Exec(ops + gap).store, u) <==> forall i :: 0 <= i < |u| ==> StillThere(ops, gap, u[i])
  {
    hide Exec, AllLegal, StillThere, NoTakes;
    LegalPrefix(ops, gap);
    forall i | 0 <= i < |u|
      ensures u[i] in Exec(ops + gap).store.publicEntries <==> StillThere(ops, gap, u[i])
    {
      PublicAfter(ops, gap, u[i]);
    }
  }

  lemma NotAllTaken(ops: seq<Op>, gap: seq<Op>, u: seq<ForwardId>)
    requires AllLegal(ops + gap) && NoTakes(gap) && Distinct(u) && AllKnown(Exec(ops).store, u)
    requires !AllKnown(Exec(ops + gap).store, u)
    ensures var s := Exec(ops + gap).store; var (cands, s') := TakeAll(s, u);
            && cands.None? && Stopped(s, s', u)
            && (NotReissued(gap, u) ==> Drains(gap) && s' == s)
  {
    hide Exec, AllLegal, NotReissued, Drains, NoTakes, TakeAll, WorldOk, IdSet;
    ReachableOk(ops + gap);
    HalvesOf(Exec(ops + gap));
    TakenPart(Exec(ops + gap).store, u);
    assert FirstMissing(Exec(ops + gap).store, u) < |u|;
    assert TakeAll(Exec(ops + gap).store, u).0.None?;
    if NotReissued(gap, u) {
      CheckedTakeIsAllOrNothing(ops, gap, u);
    }
  }

  lemma HalvesOf(w: World)
    requires WorldOk(w)
    ensures w.store.publicEntries.Keys == w.store.lifecycleEntries.Keys
  {
    hide EntryOk, ReconnectingIds, TakenOk;
  }

  lemma UniqueKnown(s: Store, ids: seq<ForwardId>)
    requires AllKnown(s, ids)
    ensures AllKnown(s, Unique(ids))
  {
    UniqueOk(ids);
    assert forall id <- ids :: id in s.publicEntries;
    assert forall i :: 0 <= i < |Unique(ids)| ==> Unique(ids)[i] in ids;
  }

  lemma GoneSettled(
    ops: seq<Op>, more: seq<Op>, u: seq<ForwardId>, k: nat, error: string, closed: Option<seq<ForwardPortEntry>>, s': Store)
    requires Distinct(u) && k <= |u|
    requires Settled(Exec(ops).store, Exec(ops + [Take(u)] + more).store, closed, s', u, k, error)
    requires forall id :: id in u && NotReissued(more, [id]) ==> id !in Exec(ops + [Take(u)] + more).store.publicEntries
    ensures forall id :: id in u[..k] && NotReissued(more, [id]) ==> id !in s'.publicEntries
  {
    hide Exec, NotReissued, Undone, ShowsClosed;
    if k < |u| {
      FirstAreOthers(u, k);
      GoneUndone(Exec(ops).store, Exec(ops + [Take(u)] + more).store, s', u, k, error);
    }
  }

  lemma FirstAreOthers(u: seq<ForwardId>, k: nat)
    requires Distinct(u) && k <= |u|
    ensures forall id :: id in u[..k] ==> id !in u[k..]
  {
  }

  lemma GoneUndone(taken: Store, left: Store, s': Store, u: seq<ForwardId>, k: nat, error: string)
    requires k < |u| && Undone(taken, left, s', u, k, error)
    ensures forall id :: id !in u[k..] ==> (id in s'.publicEntries <==> id in left.publicEntries)
  {
    hide ShowsFailed;
  }

  lemma GoneAfter(ops: seq<Op>, more: seq<Op>, u: seq<ForwardId>, k: nat)
    requires AllLegal(ops + [Take(u)] + more) && Distinct(u) && AllKnown(Exec(ops).store, u) && k <= |u|
    requires forall op <- more :: Spares(op, u, k)
    ensures forall id :: id in u && NotReissued(more, [id]) ==> id !in Exec(ops + [Take(u)] + more).store.publicEntries
  {
    hide Exec, AllLegal, Spares, TakeAll;
    LegalPrefix(ops + [Take(u)], more);
    LegalPrefix(ops, [Take(u)]);
    AfterTake(ops, u);
    ReachableOk(ops);
    forall id | id in u && NotReissued(more, [id])
      ensures id !in Exec(ops + [Take(u)] + more).store.publicEntries
    {
      NotHeld(ops, id);
      StaysGone(ops + [Take(u)], more, u, k, id);
    }
  }

  lemma NotHeld(ops: seq<Op>, id: ForwardId)
    requires AllLegal(ops) && id in Exec(ops).store.publicEntries
    ensures id !in Exec(ops).held
  {
    ReachableOk(ops);
    hide Exec, AllLegal, StoreOk, TakenOk;
  }
}
