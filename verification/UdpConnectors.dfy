/** The UDP bridge's table of connector streams, one per peer (`udp_connectors.rs`). */
module UdpConnectors {
  import opened Common

  type Peer = string

  datatype Connector = Connector(streamId: nat, lastUsed: nat)

  /** A peer's connector, and the way back from its stream to the peer. */
  datatype Connectors = Connectors(byPeer: map<Peer, Connector>, byStream: map<nat, Peer>)

  const Empty: Connectors := Connectors(map[], map[])

  /** A binding that the first pass of a sweep found idle. */
  datatype Expiry = Expiry(peer: Peer, streamId: nat)

  function Insert(c: Connectors, peer: Peer, streamId: nat, now: nat): Connectors {
    Connectors(c.byPeer[peer := Connector(streamId, now)], c.byStream[streamId := peer])
  }

  function Touch(c: Connectors, peer: Peer, now: nat): Connectors {
    if peer in c.byPeer then c.(byPeer := c.byPeer[peer := c.byPeer[peer].(lastUsed := now)]) else c
  }

  function RemoveStream(c: Connectors, streamId: nat): Connectors {
    if streamId in c.byStream
    then Connectors(c.byPeer - {c.byStream[streamId]}, c.byStream - {streamId})
    else c
  }

  /** The time since the last use is zero when the clock read is the older one. */
  predicate IsIdle(connector: Connector, now: nat, timeout: nat) {
    SaturatingSub(now, connector.lastUsed) >= timeout
  }

  /** First pass of a sweep: the idle bindings, in walking order. */
  function Scan(c: Connectors, order: seq<Peer>, now: nat, timeout: nat): seq<Expiry>
    requires forall p <- order :: p in c.byPeer
  {
    if order == [] then []
    else
      var last := order[|order| - 1];
      var before := Scan(c, order[..|order| - 1], now, timeout);
      if IsIdle(c.byPeer[last], now, timeout) then before + [Expiry(last, c.byPeer[last].streamId)] else before
  }

  /** The binding is still there, and still idle. */
  predicate StillExpired(c: Connectors, e: Expiry, now: nat, timeout: nat) {
    && e.peer in c.byPeer
    && c.byPeer[e.peer].streamId == e.streamId
    && IsIdle(c.byPeer[e.peer], now, timeout)
  }

  /** Second pass: remove what the first pass found, if it has not changed since. */
  function Remove(c: Connectors, expired: seq<Expiry>, now: nat, timeout: nat): (Connectors, seq<nat>) {
    if expired == [] then (c, [])
    else
      var last := expired[|expired| - 1];
      var (c1, removed) := Remove(c, expired[..|expired| - 1], now, timeout);
      if StillExpired(c1, last, now, timeout)
      then (Connectors(c1.byPeer - {last.peer}, c1.byStream - {last.streamId}), removed + [last.streamId])
      else (c1, removed)
  }

  // ----- The two maps are inverses ----------------------------------------

  ghost predicate Inverse(c: Connectors) {
    && (forall p <- c.byPeer :: c.byPeer[p].streamId in c.byStream && c.byStream[c.byPeer[p].streamId] == p)
    && (forall s <- c.byStream :: c.byStream[s] in c.byPeer && c.byPeer[c.byStream[s]].streamId == s)
  }

  lemma InsertKeeps(c: Connectors, peer: Peer, streamId: nat, now: nat)
    requires Inverse(c) && peer !in c.byPeer && streamId !in c.byStream
    ensures Inverse(Insert(c, peer, streamId, now))
  {
  }

  lemma TouchKeeps(c: Connectors, peer: Peer, now: nat)
    requires Inverse(c)
    ensures Inverse(Touch(c, peer, now))
    ensures Touch(c, peer, now).byPeer.Keys == c.byPeer.Keys && Touch(c, peer, now).byStream == c.byStream
  {
  }

  lemma RemoveStreamKeeps(c: Connectors, streamId: nat)
    requires Inverse(c)
    ensures Inverse(RemoveStream(c, streamId))
  {
  }

  // ----- What a sweep removes ---------------------------------------------

  /** Whatever happened between its two passes, a sweep removes exactly the
      bindings that the first pass listed and that are the same and idle at the
      second, closes exactly their streams, each once, and leaves every other
      binding as it is. */
  lemma {:induction false} SweepExactly(c: Connectors, expired: seq<Expiry>, now: nat, timeout: nat)
    requires Inverse(c)
    ensures var (c', removed) := Remove(c, expired, now, timeout);
            && Inverse(c')
            && c'.byPeer.Keys <= c.byPeer.Keys && c'.byStream.Keys <= c.byStream.Keys
            && (forall p <- c.byPeer :: p in c'.byPeer <==> !Swept(c, p, expired, now, timeout))
            && (forall p <- c'.byPeer :: c'.byPeer[p] == c.byPeer[p])
            && (forall s <- c'.byStream :: c'.byStream[s] == c.byStream[s])
            && (forall s :: s in removed <==> s in c.byStream && s !in c'.byStream)
            && (forall i, j :: 0 <= i < j < |removed| ==> removed[i] != removed[j])
  {
    if expired != [] {
      SweepExactly(c, expired[..|expired| - 1], now, timeout);
      SweepOne(c, expired, now, timeout);
    }
  }

  predicate Swept(c: Connectors, p: Peer, expired: seq<Expiry>, now: nat, timeout: nat)
    requires p in c.byPeer
  {
    Expiry(p, c.byPeer[p].streamId) in expired && IsIdle(c.byPeer[p], now, timeout)
  }

  lemma SweepOne(c: Connectors, expired: seq<Expiry>, now: nat, timeout: nat)
    requires expired != []
    ensures forall p <- c.byPeer ::
              Swept(c, p, expired, now, timeout) <==>
              Swept(c, p, expired[..|expired| - 1], now, timeout)
              || (expired[|expired| - 1] == Expiry(p, c.byPeer[p].streamId) && IsIdle(c.byPeer[p], now, timeout))
  {
    var before, last := expired[..|expired| - 1], expired[|expired| - 1];
    assert expired == before + [last];
  }

  /** The first pass lists exactly the idle bindings. */
  lemma {:induction false} ScanExactly(c: Connectors, order: seq<Peer>, now: nat, timeout: nat)
    requires forall p <- order :: p in c.byPeer
    ensures forall e :: e in Scan(c, order, now, timeout) <==> e.peer in order && StillExpired(c, e, now, timeout)
  {
    if order != [] {
      var before, last := order[..|order| - 1], order[|order| - 1];
      ScanExactly(c, before, now, timeout);
      assert order == before + [last];
    }
  }

  /** A sweep that nothing interrupts removes exactly the idle peers. */
  lemma WholeSweep(c: Connectors, order: seq<Peer>, now: nat, timeout: nat)
    requires Inverse(c)
    requires forall p :: p in order <==> p in c.byPeer
    ensures var (c', removed) := Remove(c, Scan(c, order, now, timeout), now, timeout);
            && (forall p :: p in c'.byPeer <==> p in c.byPeer && !IsIdle(c.byPeer[p], now, timeout))
            && (forall s :: s in removed <==> s in c.byStream && IsIdle(c.byPeer[c.byStream[s]], now, timeout))
  {
    hide Scan, Remove, IsIdle;
    var expired := Scan(c, order, now, timeout);
    ScanExactly(c, order, now, timeout);
    SweepExactly(c, expired, now, timeout);
    forall p <- c.byPeer
      ensures Swept(c, p, expired, now, timeout) <==> IsIdle(c.byPeer[p], now, timeout)
    {
      assert Expiry(p, c.byPeer[p].streamId) in expired <==> StillExpired(c, Expiry(p, c.byPeer[p].streamId), now, timeout);
    }
    hide StillExpired, Swept;
  }

  // ----- The table as an object -------------------------------------------

  class UdpConnectorMap {
    var connectorByPeer: map<Peer, Connector>
    var peerByConnector: map<nat, Peer>

    ghost function View(): Connectors reads this {
      Connectors(connectorByPeer, peerByConnector)
    }

    constructor ()
      ensures View() == Empty
    {
      connectorByPeer, peerByConnector := map[], map[];
    }

    /** Refresh a peer's connector and return its stream. */
    method Refresh(peer: Peer, now: nat) returns (streamId: Option<nat>)
      modifies this
      ensures View() == Touch(old(View()), peer, now)
      ensures streamId == if peer in old(connectorByPeer) then Some(old(connectorByPeer)[peer].streamId) else None
    {
      if peer !in connectorByPeer {
        return None;
      }
      var connector := connectorByPeer[peer];
      connectorByPeer := connectorByPeer[peer := connector.(lastUsed := now)];
      return Some(connector.streamId);
    }

    method Add(peer: Peer, streamId: nat, now: nat)
      modifies this
      ensures View() == Insert(old(View()), peer, streamId, now)
    {
      peerByConnector := peerByConnector[streamId := peer];
      connectorByPeer := connectorByPeer[peer := Connector(streamId, now)];
    }

    method RemoveByStreamId(streamId: nat)
      modifies this
      ensures View() == RemoveStream(old(View()), streamId)
    {
      if streamId in peerByConnector {
        var peer := peerByConnector[streamId];
        peerByConnector := peerByConnector - {streamId};
        connectorByPeer := connectorByPeer - {peer};
      }
    }

    method ListExpired(order: seq<Peer>, now: nat, timeout: nat) returns (expired: seq<Expiry>)
      requires forall p <- order :: p in connectorByPeer
      ensures expired == Scan(View(), order, now, timeout)
    {
      expired := [];
      for i := 0 to |order|
        invariant expired == Scan(View(), order[..i], now, timeout)
      {
        assert order[..i + 1][..i] == order[..i];
        if IsIdle(connectorByPeer[order[i]], now, timeout) {
          expired := expired + [Expiry(order[i], connectorByPeer[order[i]].streamId)];
        }
      }
      assert order[..|order|] == order;
    }

    method RemoveExpired(expired: seq<Expiry>, now: nat, timeout: nat) returns (removed: seq<nat>)
      modifies this
      ensures (View(), removed) == Remove(old(View()), expired, now, timeout)
    {
      removed := [];
      for i := 0 to |expired|
        invariant (View(), removed) == Remove(old(View()), expired[..i], now, timeout)
      {
        assert expired[..i + 1][..i] == expired[..i];
        var e := expired[i];
        if e.peer in connectorByPeer
           && connectorByPeer[e.peer].streamId == e.streamId
           && IsIdle(connectorByPeer[e.peer], now, timeout) {
          connectorByPeer := connectorByPeer - {e.peer};
          peerByConnector := peerByConnector - {e.streamId};
          removed := removed + [e.streamId];
        }
      }
      assert expired[..|expired|] == expired;
    }
  }
}
