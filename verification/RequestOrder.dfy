/** Request order: which of the requested ids are acted on, and in what order. */
module RequestOrder {
  import opened Common
  import opened ForwardEntries

  /** The requested ids without repetitions, in the order they first appear. */
  function Unique(ids: seq<ForwardId>): seq<ForwardId> {
    if ids == [] then []
    else
      var u := Unique(ids[..|ids| - 1]);
      if ids[|ids| - 1] in u then u else u + [ids[|ids| - 1]]
  }

  /** Where an id is requested first. */
  function FirstAt(ids: seq<ForwardId>, id: ForwardId): (n: nat)
    requires id in ids
    ensures n < |ids| && ids[n] == id && forall m :: 0 <= m < n ==> ids[m] != id
  {
    if ids[0] == id then 0 else 1 + FirstAt(ids[1..], id)
  }

  ghost predicate SameMembers(u: seq<ForwardId>, v: seq<ForwardId>) {
    forall id :: id in u <==> id in v
  }

  /** Each id of `u` is requested first before the next one is. */
  ghost predicate Ordered(ids: seq<ForwardId>, u: seq<ForwardId>) {
    && (forall i :: 0 <= i < |u| ==> u[i] in ids)
    && (forall i, j :: 0 <= i < j < |u| ==> FirstAt(ids, u[i]) < FirstAt(ids, u[j]))
  }

  /** `u` is exactly the requested ids, ordered by where they are requested first. */
  ghost predicate InRequestOrder(ids: seq<ForwardId>, u: seq<ForwardId>) {
    SameMembers(u, ids) && Ordered(ids, u)
  }

  lemma FirstAtPrefix(ids: seq<ForwardId>, last: ForwardId, id: ForwardId)
    requires id in ids
    ensures id in ids + [last] && FirstAt(ids + [last], id) == FirstAt(ids, id)
  {
    var n, m := FirstAt(ids, id), FirstAt(ids + [last], id);
    assert (ids + [last])[n] == id;
  }

  lemma FirstAtLast(ids: seq<ForwardId>, last: ForwardId)
    requires last !in ids
    ensures FirstAt(ids + [last], last) == |ids|
  {
    assert (ids + [last])[|ids|] == last;
  }

  lemma {:induction false} UniqueInOrder(ids: seq<ForwardId>)
    ensures InRequestOrder(ids, Unique(ids))
  {
    if ids != [] {
      var n := |ids| - 1;
      var before, last := ids[..n], ids[n];
      assert ids == before + [last];
      UniqueInOrder(before);
      OneMore(before, last, Unique(before));
    }
  }

  lemma OneMore(ids: seq<ForwardId>, last: ForwardId, u: seq<ForwardId>)
    requires InRequestOrder(ids, u)
    ensures InRequestOrder(ids + [last], if last in u then u else u + [last])
  {
    hide Ordered, FirstAt;
    StillOrdered(ids, last, u);
    if last !in u {
      LastOrdered(ids, last, u);
    }
  }

  lemma StillOrdered(ids: seq<ForwardId>, last: ForwardId, u: seq<ForwardId>)
    requires Ordered(ids, u)
    ensures Ordered(ids + [last], u)
    ensures forall i :: 0 <= i < |u| ==> u[i] in ids && FirstAt(ids + [last], u[i]) < |ids|
  {
    hide FirstAt;
    forall i | 0 <= i < |u|
      ensures u[i] in ids + [last] && FirstAt(ids + [last], u[i]) == FirstAt(ids, u[i])
    {
      FirstAtPrefix(ids, last, u[i]);
    }
  }

  lemma LastOrdered(ids: seq<ForwardId>, last: ForwardId, u: seq<ForwardId>)
    requires Ordered(ids + [last], u) && last !in ids
    requires forall i :: 0 <= i < |u| ==> u[i] in ids + [last] && FirstAt(ids + [last], u[i]) < |ids|
    ensures Ordered(ids + [last], u + [last])
  {
    hide FirstAt;
    FirstAtLast(ids, last);
    assert last in ids + [last];
  }

  lemma OrderedApart(ids: seq<ForwardId>, u: seq<ForwardId>)
    requires Ordered(ids, u)
    ensures forall i, j :: 0 <= i < j < |u| ==> u[i] != u[j]
  {
  }

  lemma OrderedRest(ids: seq<ForwardId>, u: seq<ForwardId>)
    requires Ordered(ids, u) && u != []
    ensures Ordered(ids, u[1..])
    ensures forall id :: id in u[1..] <==> id in u && id != u[0]
  {
    OrderedApart(ids, u);
    assert u == [u[0]] + u[1..];
  }

  lemma SameFirst(ids: seq<ForwardId>, u: seq<ForwardId>, v: seq<ForwardId>)
    requires Ordered(ids, u) && Ordered(ids, v) && SameMembers(u, v) && u != [] && v != []
    ensures u[0] == v[0]
  {
    hide FirstAt;
    assert u[0] in v && v[0] in u;
    var i :| 0 <= i < |v| && v[i] == u[0];
    var j :| 0 <= j < |u| && u[j] == v[0];
  }

  /** The order leaves no choice. */
  lemma {:induction false} OrderIsUnique(ids: seq<ForwardId>, u: seq<ForwardId>, v: seq<ForwardId>)
    requires Ordered(ids, u) && Ordered(ids, v) && SameMembers(u, v)
    ensures u == v
    decreases |u|
  {
    if u == [] {
      assert forall i :: 0 <= i < |v| ==> v[i] in u;
    } else {
      assert u[0] in v;
      SameFirst(ids, u, v);
      OrderedRest(ids, u);
      OrderedRest(ids, v);
      OrderIsUnique(ids, u[1..], v[1..]);
      assert u == [u[0]] + u[1..] && v == [v[0]] + v[1..];
    }
  }

  /** So what the loop finds is the one sequence in request order. */
  lemma InOrderIsUnique(ids: seq<ForwardId>, u: seq<ForwardId>)
    requires InRequestOrder(ids, u)
    ensures u == Unique(ids)
  {
    hide FirstAt, Unique;
    UniqueInOrder(ids);
    OrderIsUnique(ids, u, Unique(ids));
  }
}
