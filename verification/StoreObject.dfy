/** The store as an object whose maps are changed in place, operation by operation. */
module StoreObject {
  import opened Common
  import opened ForwardEntries
  import opened ForwardStore
  import opened StoreRuns
  import opened StoreClose
  import opened RequestOrder

  /** There is always an unused id. */
  lemma UnusedIdExists(used: set<ForwardId>) returns (id: ForwardId)
    ensures forall u :: u in used ==> u < id
    ensures id !in used
  {
    id := 0;
    var rest := used;
    while rest != {}
      invariant rest <= used
      invariant forall u :: u in used - rest ==> u < id
    {
      var u :| u in rest;
      assert used - (rest - {u}) == (used - rest) + {u};
      rest := rest - {u};
      id := if u < id then id else u + 1;
    }
    assert used - rest == used;
  }

  class PortForwardStore {
    var publicEntries: map<ForwardId, ForwardPortEntry>
    var lifecycleEntries: map<ForwardId, Lifecycle>
    var pendingOpens: map<ForwardId, SidePair>
    var reconnectingCount: nat

    ghost function View(): Store
      reads this
    {
      Store(publicEntries, lifecycleEntries, pendingOpens, reconnectingCount)
    }

    constructor ()
      ensures View() == Empty.store
    {
      publicEntries, lifecycleEntries, pendingOpens, reconnectingCount := map[], map[], map[], 0;
    }

    // ----- Opening --------------------------------------------------------

    method UnusedForwardId() returns (id: ForwardId)
      ensures id !in publicEntries && id !in pendingOpens
    {
      ghost var witness_ := UnusedIdExists(publicEntries.Keys + pendingOpens.Keys);
      assert witness_ !in publicEntries && witness_ !in pendingOpens;
      id :| id !in publicEntries && id !in pendingOpens;
    }

    /** Either all `requested` reservations are made under fresh ids, or none. */
    method ReserveOpenBatch(p: SidePair, requested: nat, limits: OpenLimits) returns (reserved: Option<seq<ForwardId>>)
      modifies this
      ensures reserved.Some? <==> HasRoom(old(View()), p, requested, limits)
      ensures reserved.None? ==> View() == old(View())
      ensures reserved.Some? ==>
                && |reserved.value| == requested
                && Distinct(reserved.value)
                && (forall id :: id in reserved.value ==> id !in old(publicEntries) && id !in old(pendingOpens))
                && View() == ReserveBatch(old(View()), p, reserved.value, limits)
    {
      var open := |publicEntries| + |pendingOpens|;
      if open + requested > limits.maxOpenTotal {
        return None;
      }
      var samePair := |KeysWith(Pairs(publicEntries), p)| + |KeysWith(pendingOpens, p)|;
      if samePair + requested > limits.maxPerSidePair {
        return None;
      }
      hide KeysWith, AddPending;
      AddPendingNone(pendingOpens, p);
      var ids: seq<ForwardId> := [];
      while |ids| < requested
        invariant |ids| <= requested
        invariant Distinct(ids)
        invariant forall id :: id in ids ==> id !in publicEntries && id !in old(pendingOpens)
        invariant pendingOpens == AddPending(old(pendingOpens), ids, p)
        invariant publicEntries == old(publicEntries)
        invariant lifecycleEntries == old(lifecycleEntries)
        invariant reconnectingCount == old(reconnectingCount)
      {
        var id := UnusedForwardId();
        AddPendingKeys(old(pendingOpens), ids, p);
        AddPendingOne(old(pendingOpens), ids, id, p);
        pendingOpens := pendingOpens[id := p];
        ids := ids + [id];
      }
      return Some(ids);
    }

    method CommitReservation(id: ForwardId, p: SidePair, record: Record) returns (ok: bool)
      modifies this
      ensures ok == CommitSucceeds(old(View()), id, p, record)
      ensures View() == CommitOpen(old(View()), id, p, record)
    {
      if record.entry.forwardId != id || PairOf(record.entry) != p {
        pendingOpens := pendingOpens - {id};
        return false;
      }
      if id !in pendingOpens {
        pendingOpens := pendingOpens - {id};
        return false;
      }
      pendingOpens := pendingOpens - {id};
      Insert(record.entry, record.lifecycle);
      return true;
    }

    method DropReservation(id: ForwardId)
      modifies this
      ensures View() == ReleaseReservation(old(View()), id)
    {
      pendingOpens := pendingOpens - {id};
    }

    method Insert(e: ForwardPortEntry, lifecycle: Lifecycle)
      modifies this
      ensures View() == InsertForward(old(View()), e, lifecycle)
    {
      var id := e.forwardId;
      if id in publicEntries && IsReconnecting(publicEntries[id]) {
        reconnectingCount := SaturatingSub(reconnectingCount, 1);
      }
      publicEntries := publicEntries[id := e];
      lifecycleEntries := lifecycleEntries[id := lifecycle];
      if IsReconnecting(e) {
        reconnectingCount := reconnectingCount + 1;
      }
    }

    // ----- Updating one entry ---------------------------------------------

    method Mutate(id: ForwardId, f: ForwardPortEntry -> ForwardPortEntry)
      modifies this
      ensures View() == MutateEntry(old(View()), id, f)
    {
      if id in publicEntries {
        var before := publicEntries[id];
        var after := f(before);
        publicEntries := publicEntries[id := after];
        reconnectingCount := AdjustCount(reconnectingCount, IsReconnecting(before), IsReconnecting(after));
      }
    }

    method TryReserveActive(id: ForwardId, max: nat) returns (granted: bool)
      modifies this
      ensures granted == ReserveActiveGranted(old(View()), id, max)
      ensures granted <==> (id !in old(publicEntries) || old(publicEntries)[id].activeTcpStreams < max)
      ensures View() == MutateEntry(old(View()), id, Updater(ReserveSlot(id, max)))
    {
      var sawEntry := id in publicEntries;
      var reserved := sawEntry && publicEntries[id].activeTcpStreams < max;
      Mutate(id, Updater(ReserveSlot(id, max)));
      return !sawEntry || reserved;
    }

    /** `mark_reconnecting` and `mark_connect_reopening_after_listen_recovery`. */
    method MarkReconnect(id: ForwardId, max: nat, f: ForwardPortEntry -> ForwardPortEntry) returns (ok: bool)
      modifies this
      ensures ok == MayReconnect(old(View()), id, max)
      ensures View() == Reconnect(old(View()), id, max, f)
    {
      if id !in publicEntries || !publicEntries[id].status.StatusOpen? {
        return true;
      }
      if !IsReconnecting(publicEntries[id]) && reconnectingCount >= max {
        publicEntries := publicEntries[id := MarkEntryFailed(publicEntries[id], RECONNECT_LIMIT_EXCEEDED)];
        return false;
      }
      Mutate(id, f);
      return true;
    }

    // ----- Closing --------------------------------------------------------

    method ValidatedUniqueCloseIds(ids: seq<ForwardId>) returns (u: Option<seq<ForwardId>>)
      ensures u == if AllKnown(View(), ids) then Some(Unique(ids)) else None
      ensures u.Some? ==> InRequestOrder(ids, u.value)
    {
      hide InRequestOrder;
      UniqueInOrder(ids);
      var seen: set<ForwardId> := {};
      var found: seq<ForwardId> := [];
      var i := 0;
      while i < |ids|
        invariant 0 <= i <= |ids|
        invariant found == Unique(ids[..i])
        invariant forall id :: id in seen <==> id in found
        invariant forall j :: 0 <= j < i ==> ids[j] in publicEntries
      {
        if ids[i] !in publicEntries {
          return None;
        }
        assert ids[..i + 1][..i] == ids[..i];
        if ids[i] !in seen {
          seen := seen + {ids[i]};
          found := found + [ids[i]];
        }
        i := i + 1;
      }
      assert ids[..i] == ids;
      return Some(found);
    }

    method Take(id: ForwardId) returns (c: Option<Candidate>)
      modifies this
      ensures (c, View()) == TakeForward(old(View()), id)
    {
      if id !in publicEntries {
        return None;
      }
      var e := publicEntries[id];
      if id !in lifecycleEntries {
        return None;
      }
      c := Some(Candidate(id, e, lifecycleEntries[id]));
      publicEntries := publicEntries - {id};
      lifecycleEntries := lifecycleEntries - {id};
      if IsReconnecting(e) {
        reconnectingCount := SaturatingSub(reconnectingCount, 1);
      }
    }

    method TakeCandidates(ids: seq<ForwardId>) returns (cands: Option<seq<Candidate>>)
      modifies this
      ensures (cands, View()) == TakeAll(old(View()), ids)
    {
      var taken: seq<Candidate> := [];
      var i := 0;
      while i < |ids|
        invariant 0 <= i <= |ids|
        invariant (Some(taken), View()) == TakeAll(old(View()), ids[..i])
      {
        assert ids[..i + 1][..i] == ids[..i];
        var c := Take(ids[i]);
        if c.None? {
          TakeStops(old(View()), ids, i + 1);
          return None;
        }
        taken := taken + [c.value];
        i := i + 1;
      }
      assert ids[..i] == ids;
      return Some(taken);
    }

    method RestoreCandidates(cands: seq<Candidate>)
      modifies this
      ensures View() == RestoreAll(old(View()), cands)
    {
      var i := 0;
      while i < |cands|
        invariant 0 <= i <= |cands|
        invariant View() == RestoreAll(old(View()), cands[..i])
      {
        assert cands[..i + 1][..i] == cands[..i];
        Insert(cands[i].entry, cands[i].lifecycle);
        i := i + 1;
      }
      assert cands[..i] == cands;
    }

    /** The lock is free, and others act on the store. */
    method OthersAct(others: Store -> Store)
      modifies this
      ensures View() == others(old(View()))
    {
      var s := others(Store(publicEntries, lifecycleEntries, pendingOpens, reconnectingCount));
      publicEntries, lifecycleEntries := s.publicEntries, s.lifecycleEntries;
      pendingOpens, reconnectingCount := s.pendingOpens, s.reconnectingCount;
    }

    /** Candidates are reversed once and then closed from the back, with no lock
        held; on the first failure the failed one and the untried remainder go
        back in order. */
    method CloseTaken(cands: seq<Candidate>, during: Store -> Store, closes: nat -> bool, error: string)
      returns (closed: Option<seq<ForwardPortEntry>>)
      modifies this
      ensures (closed, View()) == CloseCandidates(old(View()), cands, during, closes, error)
    {
      hide RestoreAll, ClosedEntry, MarkEntryFailed, CloseCandidates, Returning, Reversed, FirstFailed;
      OthersAct(during);
      var stack := Reversed(cands);
      assert cands[0..] == cands;
      var done: seq<ForwardPortEntry> := [];
      while stack != []
        invariant |done| + |stack| == |cands|
        invariant stack == Reversed(cands[|done|..])
        invariant forall i :: 0 <= i < |done| ==> done[i] == ClosedEntry(cands[i].entry)
        invariant forall i: nat :: i < |done| ==> closes(i)
        invariant View() == during(old(View()))
        decreases |stack|
      {
        var k := |done|;
        ReversedStep(cands[k..]);
        assert cands[k..][1..] == cands[k + 1..];
        var c := stack[|stack| - 1];
        stack := stack[..|stack| - 1];
        if !closes(k) {
          FailedAt(old(View()), cands, during, closes, error, k);
          RestoreCandidates([FailedCandidate(c, error)] + Reversed(stack));
          return None;
        }
        done := done + [ClosedEntry(c.entry)];
      }
      ReversedNone(cands[|done|..]);
      AllClosed(old(View()), cands, during, closes, error, done);
      return Some(done);
    }

    /** The whole close: others may act between the check and the take, and again
        until the rest is restored. */
    method CloseForwards(
      ids: seq<ForwardId>, gap: Store -> Store, during: Store -> Store, closes: nat -> bool, error: string)
      returns (closed: Option<seq<ForwardPortEntry>>)
      modifies this
      ensures (closed, View()) == Close(old(View()), ids, gap, during, closes, error)
    {
      var u := ValidatedUniqueCloseIds(ids);
      if u.None? {
        return None;
      }
      OthersAct(gap);
      var cands := TakeCandidates(u.value);
      if cands.None? {
        return None;
      }
      closed := CloseTaken(cands.value, during, closes, error);
    }

    method DrainRecords() returns (records: map<ForwardId, Record>)
      modifies this
      ensures (records, View()) == Drain(old(View()))
    {
      reconnectingCount := 0;
      records := map id | id in publicEntries && id in lifecycleEntries :: Record(publicEntries[id], lifecycleEntries[id]);
      publicEntries, lifecycleEntries := map[], map[];
    }
  }

  // ----- Facts about the loops --------------------------------------------

  lemma AddPendingNone(pending: map<ForwardId, SidePair>, p: SidePair)
    ensures AddPending(pending, [], p) == pending
  {
  }

  lemma AddPendingOne(pending: map<ForwardId, SidePair>, ids: seq<ForwardId>, id: ForwardId, p: SidePair)
    ensures AddPending(pending, ids + [id], p) == AddPending(pending, ids, p)[id := p]
  {
    assert (ids + [id])[..|ids|] == ids;
  }

  function Reversed(cands: seq<Candidate>): (r: seq<Candidate>)
    ensures |r| == |cands|
  {
    if cands == [] then [] else Reversed(cands[1..]) + [cands[0]]
  }

  lemma ReversedStep(cands: seq<Candidate>)
    ensures cands != [] ==>
              var r := Reversed(cands);
              r != [] && r[|r| - 1] == cands[0] && r[..|r| - 1] == Reversed(cands[1..])
  {
  }

  lemma {:induction false} ReversedSnoc(cands: seq<Candidate>, c: Candidate)
    ensures Reversed(cands + [c]) == [c] + Reversed(cands)
  {
    if cands == [] {
      assert ([] + [c])[1..] == [];
    } else {
      assert (cands + [c])[1..] == cands[1..] + [c];
      ReversedSnoc(cands[1..], c);
    }
  }

  lemma {:induction false} ReversedTwice(cands: seq<Candidate>)
    ensures Reversed(Reversed(cands)) == cands
  {
    if cands != [] {
      ReversedTwice(cands[1..]);
      ReversedSnoc(Reversed(cands[1..]), cands[0]);
    }
  }

  lemma ReversedNone(cands: seq<Candidate>)
    requires Reversed(cands) == []
    ensures cands == []
  {
  }

  /** The loop stops at the k-th candidate: what goes back is it and the rest of the stack. */
  lemma FailedAt(s: Store, cands: seq<Candidate>, during: Store -> Store, closes: nat -> bool, error: string, k: nat)
    requires k < |cands| && !closes(k) && forall i: nat :: i < k ==> closes(i)
    ensures CloseCandidates(s, cands, during, closes, error)
         == (None, RestoreAll(during(s), [FailedCandidate(cands[k], error)] + Reversed(Reversed(cands[k + 1..]))))
  {
    hide RestoreAll, FailedCandidate, Reversed, FirstFailed;
    FailsFirstIs(closes, |cands|, k);
    ReversedTwice(cands[k + 1..]);
  }

  /** The loop runs to the end: every entry is returned as closed. */
  lemma AllClosed(
    s: Store, cands: seq<Candidate>, during: Store -> Store, closes: nat -> bool, error: string, done: seq<ForwardPortEntry>)
    requires |done| == |cands| && forall i: nat :: i < |cands| ==> closes(i)
    requires forall i :: 0 <= i < |done| ==> done[i] == ClosedEntry(cands[i].entry)
    ensures CloseCandidates(s, cands, during, closes, error) == (Some(done), during(s))
  {
    hide RestoreAll, ClosedEntry, Returning, FirstFailed;
    FailsFirstIs(closes, |cands|, |cands|);
    assert done == seq(|cands|, i requires 0 <= i < |cands| => ClosedEntry(cands[i].entry));
  }
}
