/** The stream-id allocator of one tunnel generation (`generation.rs`). */
module StreamIds {
  import opened Common

  datatype Allocator = Allocator(next: nat, step: nat, exhausted: bool)

  function NewOddFrom(start: nat): Allocator {
    Allocator(start, 2, false)
  }

  function NewOdd(): Allocator {
    NewOddFrom(1)
  }

  /** One call of `next`: the id handed out, if any, and the new state. */
  function Next(a: Allocator): (Option<nat>, Allocator) {
    if a.exhausted then (None, a)
    else
      match CheckedAdd(a.next, a.step, U32_MAX)
      case Some(next) =>
        if CheckedAdd(next, a.step, U32_MAX).Some?
        then (Some(a.next), a.(next := next))
        else (Some(a.next), a.(exhausted := true))
      case None => (Some(a.next), a.(exhausted := true))
  }

  /** An allocator hands out its next id until it is exhausted. */
  lemma IssuesItsNext(a: Allocator)
    ensures Next(a).0 == if a.exhausted then None else Some(a.next)
  {
  }

  /** The allocator after `n` calls. */
  function After(a: Allocator, n: nat): Allocator {
    if n == 0 then a else Next(After(a, n - 1)).1
  }

  /** What the call numbered `n` (from zero) returns. */
  function Issued(a: Allocator, n: nat): Option<nat> {
    Next(After(a, n)).0
  }

  /** The id of call `n` when it is one of those the generation can hold. */
  predicate Fits(start: nat, n: nat) {
    n == 0 || start + 2 * n + 2 <= U32_MAX
  }

  lemma {:induction false} AfterShape(start: nat, n: nat)
    ensures var a := After(NewOddFrom(start), n);
            && a.step == 2
            && (a.exhausted <==> !Fits(start, n))
            && (!a.exhausted ==> a.next == start + 2 * n)
  {
    if n != 0 {
      AfterShape(start, n - 1);
    }
  }

  /** Every call of every generation in closed form: the n-th call yields
      `start + 2n` exactly while that id and its successor fit in 32 bits (the
      first id is always issued), and nothing afterwards. */
  lemma IssuedExactly(start: nat, n: nat)
    ensures Issued(NewOddFrom(start), n) == if Fits(start, n) then Some(start + 2 * n) else None
  {
    AfterShape(start, n);
  }

  /** Started at 1, the allocator issues exactly 1, 3, ..., 2^32 - 3: 2^31 - 1 ids. */
  lemma OddIdsOfOneGeneration(n: nat)
    ensures Issued(NewOdd(), n) == if n < 0x7FFF_FFFF then Some(2 * n + 1) else None
    ensures forall v :: Issued(NewOdd(), n) == Some(v) ==> v % 2 == 1 && 1 <= v <= U32_MAX - 2
  {
    IssuedExactly(1, n);
  }

  /** No id is issued twice, and once a call fails every later call fails. */
  lemma IssuedOnce(start: nat, i: nat, j: nat)
    requires i < j
    ensures Issued(NewOddFrom(start), j).Some? ==>
              && Issued(NewOddFrom(start), i).Some?
              && Issued(NewOddFrom(start), i).value < Issued(NewOddFrom(start), j).value
  {
    IssuedExactly(start, i);
    IssuedExactly(start, j);
  }

  /** A refused call means the generation must be rotated, which is what both
      bridges assert at that point. */
  lemma RefusalNeedsRotation(start: nat, n: nat)
    ensures Issued(NewOddFrom(start), n).None? <==> After(NewOddFrom(start), n).exhausted
    ensures Issued(NewOddFrom(start), n).None? ==> After(NewOddFrom(start), n + 1).exhausted
  {
    AfterShape(start, n);
    AfterShape(start, n + 1);
  }

  /** `ids` is what some number of calls leave of the allocator that began at
      `start`, and every id in use was issued by one of those calls. */
  ghost predicate Numbered(start: nat, ids: Allocator, used: set<nat>) {
    exists k: nat :: CalledTimes(start, ids, used, k)
  }

  ghost predicate CalledTimes(start: nat, ids: Allocator, used: set<nat>, k: nat) {
    ids == After(NewOddFrom(start), k) && forall id <- used :: IssuedBefore(start, id, k)
  }

  ghost predicate IssuedBefore(start: nat, id: nat, k: nat) {
    exists i: nat :: i < k && Issued(NewOddFrom(start), i) == Some(id)
  }

  lemma NumberedAtFirst(start: nat)
    ensures Numbered(start, NewOddFrom(start), {})
  {
    assert CalledTimes(start, NewOddFrom(start), {}, 0);
  }

  lemma NumberedNext(start: nat, ids: Allocator, used: set<nat>)
    requires Numbered(start, ids, used)
    ensures Numbered(start, Next(ids).1, used)
    ensures Next(ids).0.Some? ==> Numbered(start, Next(ids).1, used + {Next(ids).0.value})
  {
    var k: nat :| CalledTimes(start, ids, used, k);
    hide Next;
    forall id <- used
      ensures IssuedBefore(start, id, k + 1)
    {
      assert IssuedBefore(start, id, k);
    }
    assert CalledTimes(start, Next(ids).1, used, k + 1);
    if Next(ids).0.Some? {
      assert Issued(NewOddFrom(start), k) == Next(ids).0;
      assert IssuedBefore(start, Next(ids).0.value, k + 1);
      assert CalledTimes(start, Next(ids).1, used + {Next(ids).0.value}, k + 1);
    }
  }

  /** So every id in use is `start` plus an even number, and below the 32-bit limit. */
  lemma NumberedIds(start: nat, ids: Allocator, used: set<nat>, id: nat)
    requires Numbered(start, ids, used) && id in used
    ensures start <= id && (id - start) % 2 == 0 && (id == start || id + 2 <= U32_MAX)
  {
    var k: nat :| CalledTimes(start, ids, used, k);
    assert IssuedBefore(start, id, k);
    var i: nat :| i < k && Issued(NewOddFrom(start), i) == Some(id);
    IssuedInRange(start, i, id);
  }

  lemma IssuedInRange(start: nat, i: nat, id: nat)
    requires Issued(NewOddFrom(start), i) == Some(id)
    ensures start <= id && (id - start) % 2 == 0 && (id == start || id + 2 <= U32_MAX)
  {
    hide Issued;
    IssuedExactly(start, i);
    assert id - start == 2 * i;
  }

  class StreamIdAllocator {
    var next: nat
    const step: nat
    var exhausted: bool

    ghost function View(): Allocator reads this {
      Allocator(next, step, exhausted)
    }

    constructor OddFrom(start: nat)
      ensures View() == NewOddFrom(start)
    {
      next, step, exhausted := start, 2, false;
    }

    method TakeNext() returns (id: Option<nat>)
      modifies this
      ensures (id, View()) == Next(old(View()))
    {
      if exhausted {
        return None;
      }
      var value := next;
      var candidate := CheckedAdd(next, step, U32_MAX);
      if candidate.Some? && CheckedAdd(candidate.value, step, U32_MAX).Some? {
        next := candidate.value;
      } else {
        exhausted := true;
      }
      return Some(value);
    }
  }
}
