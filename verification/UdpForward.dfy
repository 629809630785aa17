/** The UDP bridge as its event loop runs it, its table and allocator updated in
    place. Every method is tied to the transition of the same name in `UdpBridge`. */
module UdpForward {
  import opened Common
  import opened Frames
  import opened StreamIds
  import opened ForwardEntries
  import opened UdpConnectors
  import opened UdpBridge

  class UdpForwardTask {
    const env: Env
    const connectors: UdpConnectorMap
    const connectorStreamIds: StreamIdAllocator
    var entry: ForwardPortEntry
    var attempts: nat
    ghost var listenReceived: seq<Frame>
    ghost var connectReceived: seq<Frame>
    ghost var connectSent: seq<Out>
    ghost var listenSent: seq<Out>
    ghost var boundAt: map<nat, nat>
    ghost var lost: nat
    ghost var reported: nat

    ghost function View(): Bridge
      reads this, connectors, connectorStreamIds
    {
      Bridge(connectors.View(), connectorStreamIds.View(), entry, attempts, listenReceived, connectReceived,
             connectSent, listenSent, boundAt, lost, reported)
    }

    constructor (env: Env, entry: ForwardPortEntry)
      ensures this.env == env && fresh(connectors) && fresh(connectorStreamIds)
      ensures View() == Initial(entry)
    {
      this.env := env;
      var table := new UdpConnectorMap();
      connectors := table;
      var ids := new StreamIdAllocator.OddFrom(FIRST_CONNECTOR_STREAM);
      connectorStreamIds := ids;
      this.entry, attempts := entry, 0;
      listenReceived, connectReceived, connectSent, listenSent, boundAt := [], [], [], [], map[];
      lost, reported := 0, 0;
    }

    // ----- Sends and drops ------------------------------------------------

    method SendOnConnect(ghost peer: Peer, f: Frame) returns (r: SendResult)
      modifies this
      ensures (View(), r) == SendConnect(env, old(View()), peer, f)
    {
      r := env.net(attempts);
      attempts := attempts + 1;
      if r.Sent? {
        connectSent := connectSent + [Out(|listenReceived|, peer, f)];
      }
    }

    method SendOnListen(ghost peer: Peer, f: Frame) returns (r: SendResult)
      modifies this
      ensures (View(), r) == SendListen(env, old(View()), peer, f)
    {
      r := env.net(attempts);
      attempts := attempts + 1;
      if r.Sent? {
        listenSent := listenSent + [Out(|connectReceived|, peer, f)];
      }
    }

    method RecordLost()
      modifies this
      ensures View() == Lose(old(View()))
    {
      entry := RecordDroppedDatagrams(entry, 1);
      lost := lost + 1;
    }

    method RecordReported(count: nat)
      modifies this
      ensures View() == Report(old(View()), count)
    {
      entry := RecordDroppedDatagrams(entry, count);
      reported := reported + count;
    }

    // ----- The listen side ------------------------------------------------

    method RelayDatagram(ghost peer: Peer, streamId: nat, data: seq<byte>) returns (outcome: Outcome)
      modifies this
      ensures Step(View(), outcome) == Relay(env, old(View()), peer, streamId, data)
    {
      var r := SendOnConnect(peer, Frame(UdpDatagram, 0, streamId, env.endpointMeta, data));
      if r.Sent? {
        return Continue;
      }
      RecordLost();
      outcome := if r.Backpressure? then Continue else ClassifyFailure(r, Connect);
    }

    /** The stream of a peer, bound now if it has none: the limit, the
        allocator or the connect side may refuse. */
    method ConnectorStreamId(peer: Peer, now: nat) returns (streamId: Option<nat>, outcome: Outcome)
      modifies this, connectors, connectorStreamIds
      ensures var s := old(View());
              if peer in s.connectors.byPeer then
                && streamId == Some(s.connectors.byPeer[peer].streamId)
                && View() == s.(connectors := Touch(s.connectors, peer, now))
              else if |s.connectors.byPeer| >= env.maxPeers then
                streamId == None && outcome == Continue && View() == s
              else
                var (id, ids) := Next(s.ids);
                var s1 := s.(ids := ids);
                if id.None? then streamId == None && outcome == Failed && View() == s1
                else
                  var (s2, r) := SendConnect(env, s1, peer, Frame(UdpBind, 0, id.value, env.bindMeta, []));
                  if !r.Sent? then streamId == None && outcome == ClassifyFailure(r, Connect) && View() == s2
                  else streamId == id && View() == Bound(s2, peer, id.value, now)
    {
      outcome := Continue;
      streamId := connectors.Refresh(peer, now);
      if streamId.Some? {
        return;
      }
      if |connectors.connectorByPeer| >= env.maxPeers {
        return;
      }
      var id := connectorStreamIds.TakeNext();
      if id.None? {
        return None, Failed;
      }
      var r := SendOnConnect(peer, Frame(UdpBind, 0, id.value, env.bindMeta, []));
      if !r.Sent? {
        return None, ClassifyFailure(r, Connect);
      }
      connectors.Add(peer, id.value, now);
      boundAt := boundAt[id.value := |connectSent| - 1];
      streamId := id;
    }

    method HandleListenDatagram(f: Frame, now: nat) returns (outcome: Outcome)
      modifies this, connectors, connectorStreamIds
      ensures Step(View(), outcome) == OnListenDatagram(env, old(View()), f, now)
    {
      var peer := env.datagramPeer(f);
      if peer.None? {
        return Failed;
      }
      var streamId;
      streamId, outcome := ConnectorStreamId(peer.value, now);
      if streamId.None? {
        RecordLost();
        return;
      }
      outcome := RelayDatagram(peer.value, streamId.value, f.data);
    }

    method HandleForwardDrop(f: Frame) returns (outcome: Outcome)
      modifies this
      ensures Step(View(), outcome) == OnForwardDrop(env, old(View()), f)
    {
      var report := env.dropReport(f);
      if report.None? {
        return Failed;
      }
      var count := if report.value.count == 0 then 1 else report.value.count;
      if report.value.tcp {
        entry := RecordDroppedStreams(entry, count);
      } else {
        RecordReported(count);
      }
      outcome := Continue;
    }

    method HandleListenFrame(f: Frame, now: nat) returns (outcome: Outcome)
      modifies this, connectors, connectorStreamIds
      ensures Step(View(), outcome) ==
              OnListenFrame(env, old(View()).(listenReceived := old(listenReceived) + [f]), f, now)
    {
      listenReceived := listenReceived + [f];
      match f.frameType {
        case UdpDatagram => outcome := HandleListenDatagram(f, now);
        case Close => outcome := Cancelled;
        case Error =>
          if env.isFatal(f) {
            outcome := Failed;
          } else if f.streamId != env.listenerStreamId {
            outcome := Continue;
          } else if env.isPressure(f) {
            RecordReported(1);
            outcome := Continue;
          } else {
            outcome := Failed;
          }
        case ForwardDrop => outcome := HandleForwardDrop(f);
        case _ => outcome := Continue;
      }
    }

    // ----- The connect side -----------------------------------------------

    method HandleConnectDatagram(f: Frame, now: nat) returns (outcome: Outcome)
      modifies this, connectors
      ensures Step(View(), outcome) == OnConnectDatagram(env, old(View()), f, now)
    {
      if f.streamId !in connectors.peerByConnector {
        return Continue;
      }
      var peer := connectors.peerByConnector[f.streamId];
      var _ := connectors.Refresh(peer, now);
      var r := SendOnListen(peer, Frame(UdpDatagram, 0, LISTEN_STREAM, env.peerMeta(peer), f.data));
      outcome := if r.Sent? then Continue else ClassifyFailure(r, Listen);
    }

    method HandleConnectFrame(f: Frame, now: nat) returns (outcome: Outcome)
      modifies this, connectors
      ensures Step(View(), outcome) ==
              OnConnectFrame(env, old(View()).(connectReceived := old(connectReceived) + [f]), f, now)
    {
      connectReceived := connectReceived + [f];
      match f.frameType {
        case Error =>
          if env.isFatal(f) {
            return Failed;
          }
          RecordReported(1);
          connectors.RemoveByStreamId(f.streamId);
          outcome := Continue;
        case UdpDatagram => outcome := HandleConnectDatagram(f, now);
        case Close =>
          connectors.RemoveByStreamId(f.streamId);
          outcome := Continue;
        case _ => outcome := Continue;
      }
    }

    // ----- The sweep and the epoch loop -----------------------------------

    method SweepIdle(now: nat)
      requires LegalEnv(env)
      modifies this, connectors
      ensures Step(View(), Continue) == OnSweep(env, old(View()), now)
    {
      ghost var was := connectors.View();
      var order := env.order(attempts, connectors.connectorByPeer.Keys);
      var expired := connectors.ListExpired(order, now, IDLE_TIMEOUT);
      var removed := connectors.RemoveExpired(expired, now, IDLE_TIMEOUT);
      ghost var start := View();
      var i := 0;
      while i < |removed|
        invariant 0 <= i <= |removed|
        invariant CloseEach(env, View(), was, removed[i..]) == CloseEach(env, start, was, removed)
      {
        assert removed[i..][0] == removed[i] && removed[i..][1..] == removed[i + 1..];
        var _ := SendOnConnect(PeerOf(was, removed[i]), CloseFrame(removed[i]));
        i := i + 1;
      }
    }

    method HandleEvent(e: Event) returns (outcome: Outcome)
      requires LegalEnv(env)
      modifies this, connectors, connectorStreamIds
      ensures Step(View(), outcome) == Handle(env, old(View()), e)
    {
      match e {
        case ListenFrame(f, now) => outcome := HandleListenFrame(f, now);
        case ConnectFrame(f, now) => outcome := HandleConnectFrame(f, now);
        case Sweep(now) =>
          SweepIdle(now);
          outcome := Continue;
        case ListenLost => outcome := Recover(Listen);
        case ConnectLost => outcome := Recover(Connect);
        case TerminalError => outcome := Failed;
        case Cancel => outcome := Cancelled;
      }
    }

    /** One epoch: from the initial state, events are handled until one ends it. */
    method RunEpoch(events: seq<Event>) returns (outcome: Outcome)
      requires LegalEnv(env)
      requires View() == Initial(entry)
      modifies this, connectors, connectorStreamIds
      ensures Step(View(), outcome) == Run(env, old(entry), events)
    {
      outcome := Continue;
      ghost var first := entry;
      var i := 0;
      while i < |events| && outcome.Continue?
        invariant 0 <= i <= |events|
        invariant Step(View(), outcome) == Run(env, first, events[..i])
      {
        assert events[..i + 1][..i] == events[..i];
        outcome := HandleEvent(events[i]);
        i := i + 1;
      }
      Ended(env, first, events, i);
    }
  }

  /** Once an event has ended the epoch, later events change nothing. */
  lemma {:induction false} Ended(env: Env, entry: ForwardPortEntry, events: seq<Event>, n: nat)
    requires LegalEnv(env)
    requires n <= |events|
    requires n == |events| || !Run(env, entry, events[..n]).outcome.Continue?
    ensures Run(env, entry, events) == Run(env, entry, events[..n])
    decreases |events| - n
  {
    if n == |events| {
      assert events[..n] == events;
    } else {
      assert events[..n + 1][..n] == events[..n];
      Ended(env, entry, events, n + 1);
    }
  }
}
