/** What the UDP bridge keeps over every run of an epoch: each stream serves one
    peer for ever, answers go to the peer the stream was bound for, and no
    datagram is lost without being counted. */
module UdpRuns {
  import opened Common
  import opened Frames
  import opened StreamIds
  import opened ForwardEntries
  import opened UdpConnectors
  import opened UdpBridge

  // ----- The invariant, part by part --------------------------------------

  ghost predicate Table(maxPeers: nat, c: Connectors) {
    Inverse(c) && |c.byPeer| <= maxPeers
  }

  /** Each bound stream has one bind request, and every frame on it comes later
      and is sent for the same peer. */
  ghost predicate OnePeer(sent: seq<Out>, boundAt: map<nat, nat>) {
    && (forall s <- boundAt :: boundAt[s] < |sent| && IsBind(sent[boundAt[s]].frame, s))
    && (forall i :: 0 <= i < |sent| ==> UsedAfterBind(sent, boundAt, i))
  }

  predicate IsBind(f: Frame, streamId: nat) {
    f.frameType.UdpBind? && f.streamId == streamId
  }

  ghost predicate UsedAfterBind(sent: seq<Out>, boundAt: map<nat, nat>, i: nat)
    requires i < |sent|
  {
    var s := sent[i].frame.streamId;
    && s in boundAt
    && boundAt[s] <= i
    && sent[boundAt[s]].peer == sent[i].peer
    && (sent[i].frame.frameType.UdpBind? ==> boundAt[s] == i)
  }

  /** The table maps a stream to the peer it was bound for. */
  ghost predicate Known(byStream: map<nat, Peer>, sent: seq<Out>, boundAt: map<nat, nat>) {
    forall s <- byStream :: s in boundAt && boundAt[s] < |sent| && sent[boundAt[s]].peer == byStream[s]
  }

  /** Nothing follows a close on its stream, and the table holds no closed stream. */
  ghost predicate ClosesLast(byStream: map<nat, Peer>, sent: seq<Out>) {
    && (forall i, j :: 0 <= i < j < |sent| && sent[i].frame.frameType.Close? ==>
          sent[i].frame.streamId != sent[j].frame.streamId)
    && (forall s <- byStream :: NotClosed(sent, s))
  }

  ghost predicate NotClosed(sent: seq<Out>, streamId: nat) {
    forall i :: 0 <= i < |sent| && sent[i].frame.frameType.Close? ==> sent[i].frame.streamId != streamId
  }

  ghost predicate Logged(byStream: map<nat, Peer>, sent: seq<Out>, boundAt: map<nat, nat>) {
    OnePeer(sent, boundAt) && Known(byStream, sent, boundAt) && ClosesLast(byStream, sent)
  }

  /** Ids not issued yet are above all bound ones. */
  ghost predicate Ahead(ids: Allocator, boundAt: map<nat, nat>) {
    ids.step == 2 && (!ids.exhausted ==> forall s <- boundAt :: s < ids.next)
  }

  /** Entry `o` was sent while handling a datagram of the listen side from its peer. */
  predicate OnBehalf(env: Env, o: Out, received: seq<Frame>) {
    && 0 < o.received <= |received|
    && received[o.received - 1].frameType.UdpDatagram?
    && env.datagramPeer(received[o.received - 1]) == Some(o.peer)
  }

  /** The connect tunnel carries three kinds of frames: bind requests, datagrams
      with the data of the listen side's datagram, and closes. */
  predicate Outbound(env: Env, o: Out, received: seq<Frame>) {
    match o.frame.frameType
    case UdpBind => OnBehalf(env, o, received) && o.frame == Frame(UdpBind, 0, o.frame.streamId, env.bindMeta, [])
    case UdpDatagram =>
      && OnBehalf(env, o, received)
      && o.frame == Frame(UdpDatagram, 0, o.frame.streamId, env.endpointMeta, received[o.received - 1].data)
    case Close => o.frame == CloseFrame(o.frame.streamId)
    case _ => false
  }

  ghost predicate RelaysOut(env: Env, sent: seq<Out>, received: seq<Frame>) {
    && (forall i :: 0 <= i < |sent| ==> Outbound(env, sent[i], received))
    && (forall i, j :: 0 <= i < j < |sent| && sent[i].frame.frameType.UdpDatagram? && sent[j].frame.frameType.UdpDatagram? ==>
          sent[i].received < sent[j].received)
  }

  /** A datagram on the listen tunnel carries the data of one datagram of the
      connect tunnel, to the peer for which that datagram's stream was bound. */
  ghost predicate Inbound(env: Env, o: Out, received: seq<Frame>, sent: seq<Out>, boundAt: map<nat, nat>) {
    && 0 < o.received <= |received|
    && var f := received[o.received - 1];
       && f.frameType.UdpDatagram?
       && f.streamId in boundAt && boundAt[f.streamId] < |sent| && sent[boundAt[f.streamId]].peer == o.peer
       && o.frame == Frame(UdpDatagram, 0, LISTEN_STREAM, env.peerMeta(o.peer), f.data)
  }

  ghost predicate RelaysBack(env: Env, back: seq<Out>, received: seq<Frame>, sent: seq<Out>, boundAt: map<nat, nat>) {
    && (forall i :: 0 <= i < |back| ==> Inbound(env, back[i], received, sent, boundAt))
    && (forall i, j :: 0 <= i < j < |back| ==> back[i].received < back[j].received)
  }

  /** The datagrams the listen side offered: those whose peer could be read. */
  function Offered(env: Env, received: seq<Frame>): nat {
    if received == [] then 0
    else
      var last := received[|received| - 1];
      Offered(env, received[..|received| - 1]) + (if last.frameType.UdpDatagram? && env.datagramPeer(last).Some? then 1 else 0)
  }

  function Datagrams(sent: seq<Out>): nat {
    if sent == [] then 0
    else Datagrams(sent[..|sent| - 1]) + (if sent[|sent| - 1].frame.frameType.UdpDatagram? then 1 else 0)
  }

  ghost predicate Counts(base: nat, s: Bridge) {
    s.entry.droppedUdpDatagrams == Counted(base, s.lost + s.reported)
  }

  ghost predicate Sound(env: Env, base: nat, s: Bridge) {
    && Table(env.maxPeers, s.connectors)
    && Logged(s.connectors.byStream, s.connectSent, s.boundAt)
    && Ahead(s.ids, s.boundAt)
    && RelaysOut(env, s.connectSent, s.listenReceived)
    && RelaysBack(env, s.listenSent, s.connectReceived, s.connectSent, s.boundAt)
    && Counts(base, s)
  }

  ghost predicate Conserved(env: Env, s: Bridge) {
    Offered(env, s.listenReceived) == Datagrams(s.connectSent) + s.lost
  }

  // ----- Growing the log --------------------------------------------------

  lemma LogUse(byStream: map<nat, Peer>, sent: seq<Out>, boundAt: map<nat, nat>, o: Out)
    requires Logged(byStream, sent, boundAt)
    requires !o.frame.frameType.UdpBind? && o.frame.streamId in boundAt
    requires sent[boundAt[o.frame.streamId]].peer == o.peer
    requires NotClosed(sent, o.frame.streamId)
    requires o.frame.frameType.Close? ==> o.frame.streamId !in byStream
    ensures Logged(byStream, sent + [o], boundAt)
  {
    var more := sent + [o];
    forall i | 0 <= i < |more|
      ensures UsedAfterBind(more, boundAt, i)
    {
      if i < |sent| {
        assert UsedAfterBind(sent, boundAt, i);
      }
    }
    assert forall s <- byStream :: NotClosed(sent, s);
  }

  lemma LogBind(byStream: map<nat, Peer>, sent: seq<Out>, boundAt: map<nat, nat>, o: Out)
    requires Logged(byStream, sent, boundAt)
    requires o.frame.frameType.UdpBind? && o.frame.streamId !in boundAt
    ensures Logged(byStream[o.frame.streamId := o.peer], sent + [o], boundAt[o.frame.streamId := |sent|])
    ensures NotClosed(sent + [o], o.frame.streamId)
  {
    BindIsNew(sent, boundAt, o);
    BindOnePeer(sent, boundAt, o);
    hide OnePeer;
    assert forall s <- byStream :: NotClosed(sent, s);
  }

  lemma BindIsNew(sent: seq<Out>, boundAt: map<nat, nat>, o: Out)
    requires OnePeer(sent, boundAt) && o.frame.streamId !in boundAt
    ensures forall i :: 0 <= i < |sent| ==> sent[i].frame.streamId != o.frame.streamId
  {
    forall i | 0 <= i < |sent|
      ensures sent[i].frame.streamId != o.frame.streamId
    {
      assert UsedAfterBind(sent, boundAt, i);
    }
  }

  lemma BindOnePeer(sent: seq<Out>, boundAt: map<nat, nat>, o: Out)
    requires OnePeer(sent, boundAt) && o.frame.frameType.UdpBind? && o.frame.streamId !in boundAt
    ensures OnePeer(sent + [o], boundAt[o.frame.streamId := |sent|])
  {
    var more, bound := sent + [o], boundAt[o.frame.streamId := |sent|];
    BindIsNew(sent, boundAt, o);
    forall i | 0 <= i < |more|
      ensures UsedAfterBind(more, bound, i)
    {
      if i < |sent| {
        assert UsedAfterBind(sent, boundAt, i);
      }
    }
  }

  lemma LogLess(byStream: map<nat, Peer>, fewer: map<nat, Peer>, sent: seq<Out>, boundAt: map<nat, nat>)
    requires Logged(byStream, sent, boundAt)
    requires fewer.Keys <= byStream.Keys && forall s <- fewer :: fewer[s] == byStream[s]
    ensures Logged(fewer, sent, boundAt)
  {
    assert forall s <- fewer :: NotClosed(sent, s);
  }

  lemma BackLonger(env: Env, back: seq<Out>, received: seq<Frame>, sent: seq<Out>, boundAt: map<nat, nat>,
                   sent': seq<Out>, boundAt': map<nat, nat>)
    requires RelaysBack(env, back, received, sent, boundAt)
    requires sent <= sent' && boundAt.Keys <= boundAt'.Keys
    requires forall s <- boundAt :: boundAt'[s] == boundAt[s]
    ensures RelaysBack(env, back, received, sent', boundAt')
  {
    forall i | 0 <= i < |back|
      ensures Inbound(env, back[i], received, sent', boundAt')
    {
      assert Inbound(env, back[i], received, sent, boundAt);
    }
  }

  lemma OutReceived(env: Env, sent: seq<Out>, received: seq<Frame>, f: Frame)
    requires RelaysOut(env, sent, received)
    ensures RelaysOut(env, sent, received + [f])
  {
    forall i | 0 <= i < |sent|
      ensures Outbound(env, sent[i], received + [f])
    {
      assert Outbound(env, sent[i], received);
    }
  }

  lemma BackReceived(env: Env, back: seq<Out>, received: seq<Frame>, sent: seq<Out>, boundAt: map<nat, nat>, f: Frame)
    requires RelaysBack(env, back, received, sent, boundAt)
    ensures RelaysBack(env, back, received + [f], sent, boundAt)
  {
    forall i | 0 <= i < |back|
      ensures Inbound(env, back[i], received + [f], sent, boundAt)
    {
      assert Inbound(env, back[i], received, sent, boundAt);
    }
  }

  /** All datagrams relayed so far answer frames received earlier than the last. */
  ghost predicate LastIsNew(sent: seq<Out>, received: nat) {
    forall i :: 0 <= i < |sent| && sent[i].frame.frameType.UdpDatagram? ==> sent[i].received < received
  }

  lemma OutSent(env: Env, sent: seq<Out>, received: seq<Frame>, o: Out)
    requires RelaysOut(env, sent, received)
    requires Outbound(env, o, received)
    requires o.frame.frameType.UdpDatagram? ==> LastIsNew(sent, o.received)
    ensures RelaysOut(env, sent + [o], received)
  {
  }

  lemma DatagramsSent(sent: seq<Out>, o: Out)
    ensures Datagrams(sent + [o]) == Datagrams(sent) + (if o.frame.frameType.UdpDatagram? then 1 else 0)
  {
    assert (sent + [o])[..|sent|] == sent;
  }

  lemma OfferedReceived(env: Env, received: seq<Frame>, f: Frame)
    ensures Offered(env, received + [f]) ==
            Offered(env, received) + (if f.frameType.UdpDatagram? && env.datagramPeer(f).Some? then 1 else 0)
  {
    assert (received + [f])[..|received|] == received;
  }

  // ----- Each handler keeps the invariant ---------------------------------

  lemma CountedMore(base: nat, m: nat, n: nat)
    ensures Counted(Counted(base, m), n) == Counted(base, m + n)
  {
  }

  lemma LoseKeeps(env: Env, base: nat, s: Bridge)
    requires Sound(env, base, s)
    ensures Sound(env, base, Lose(s))
  {
    hide Table, Logged, Ahead, RelaysOut, RelaysBack, Counted;
    CountedMore(base, s.lost + s.reported, 1);
  }

  lemma ReportKeeps(env: Env, base: nat, s: Bridge, count: nat)
    requires Sound(env, base, s)
    ensures Sound(env, base, Report(s, count))
  {
    hide Table, Logged, Ahead, RelaysOut, RelaysBack, Counted;
    CountedMore(base, s.lost + s.reported, count);
  }

  lemma TableKeeps(env: Env, base: nat, s: Bridge, c: Connectors)
    requires Sound(env, base, s)
    requires Table(env.maxPeers, c) && c.byStream.Keys <= s.connectors.byStream.Keys
    requires forall id <- c.byStream :: c.byStream[id] == s.connectors.byStream[id]
    ensures Sound(env, base, s.(connectors := c))
  {
    hide Table, Logged, Ahead, RelaysOut, RelaysBack, Counts;
    LogLess(s.connectors.byStream, c.byStream, s.connectSent, s.boundAt);
    assert Counts(base, s.(connectors := c)) by { CountsSame(base, s, s.(connectors := c)); }
  }

  lemma CountsSame(base: nat, s: Bridge, s': Bridge)
    requires Counts(base, s)
    requires s'.entry.droppedUdpDatagrams == s.entry.droppedUdpDatagrams && s'.lost == s.lost && s'.reported == s.reported
    ensures Counts(base, s')
  {
  }

  /** A frame on a bound stream that is not closed may be sent to the connect side. */
  lemma SendConnectKeeps(env: Env, base: nat, s: Bridge, peer: Peer, f: Frame)
    requires Sound(env, base, s)
    requires !f.frameType.UdpBind? && f.streamId in s.boundAt && s.boundAt[f.streamId] < |s.connectSent|
    requires s.connectSent[s.boundAt[f.streamId]].peer == peer
    requires NotClosed(s.connectSent, f.streamId)
    requires f.frameType.Close? ==> f.streamId !in s.connectors.byStream
    requires Outbound(env, Out(|s.listenReceived|, peer, f), s.listenReceived)
    requires f.frameType.UdpDatagram? ==> LastIsNew(s.connectSent, |s.listenReceived|)
    ensures Sound(env, base, SendConnect(env, s, peer, f).0)
  {
    hide Table, Logged, Ahead, RelaysOut, RelaysBack, Counts, Outbound, LastIsNew, NotClosed;
    var o := Out(|s.listenReceived|, peer, f);
    var s' := SendConnect(env, s, peer, f).0;
    LogUse(s.connectors.byStream, s.connectSent, s.boundAt, o);
    OutSent(env, s.connectSent, s.listenReceived, o);
    BackLonger(env, s.listenSent, s.connectReceived, s.connectSent, s.boundAt, s.connectSent + [o], s.boundAt);
    CountsSame(base, s, s');
  }

  /** The handler is at a datagram of the listen side that names `peer`. */
  ghost predicate AtDatagram(env: Env, s: Bridge, peer: Peer, data: seq<byte>) {
    && LastIsNew(s.connectSent, |s.listenReceived|)
    && s.listenReceived != []
    && var f := s.listenReceived[|s.listenReceived| - 1];
       f.frameType.UdpDatagram? && env.datagramPeer(f) == Some(peer) && f.data == data
  }

  lemma KnownStream(s: Bridge, streamId: nat)
    requires Logged(s.connectors.byStream, s.connectSent, s.boundAt) && streamId in s.connectors.byStream
    ensures streamId in s.boundAt && s.boundAt[streamId] < |s.connectSent|
    ensures s.connectSent[s.boundAt[streamId]].peer == s.connectors.byStream[streamId]
    ensures NotClosed(s.connectSent, streamId)
  {
  }

  lemma RelayKeeps(env: Env, base: nat, s: Bridge, peer: Peer, streamId: nat, data: seq<byte>)
    requires Sound(env, base, s) && AtDatagram(env, s, peer, data)
    requires streamId in s.connectors.byStream && s.connectors.byStream[streamId] == peer
    ensures var s' := Relay(env, s, peer, streamId, data).bridge;
            && Sound(env, base, s')
            && Datagrams(s'.connectSent) + s'.lost == Datagrams(s.connectSent) + s.lost + 1
            && s'.listenReceived == s.listenReceived
  {
    hide Sound, Datagrams, NotClosed;
    assert Logged(s.connectors.byStream, s.connectSent, s.boundAt) by { LoggedOf(env, base, s); }
    KnownStream(s, streamId);
    var f := Frame(UdpDatagram, 0, streamId, env.endpointMeta, data);
    SendConnectKeeps(env, base, s, peer, f);
    var (s1, r) := SendConnect(env, s, peer, f);
    LoseKeeps(env, base, s1);
    DatagramsSent(s.connectSent, Out(|s.listenReceived|, peer, f));
  }

  lemma LoggedOf(env: Env, base: nat, s: Bridge)
    requires Sound(env, base, s)
    ensures Logged(s.connectors.byStream, s.connectSent, s.boundAt)
  {
  }

  lemma NextId(ids: Allocator, boundAt: map<nat, nat>, k: nat)
    requires Ahead(ids, boundAt)
    ensures Ahead(Next(ids).1, boundAt)
    ensures Next(ids).0.Some? ==>
      Next(ids).0.value !in boundAt && Ahead(Next(ids).1, boundAt[Next(ids).0.value := k])
  {
  }

  lemma NextIdKeeps(env: Env, base: nat, s: Bridge)
    requires Sound(env, base, s)
    ensures Sound(env, base, s.(ids := Next(s.ids).1))
  {
    hide Table, Logged, Ahead, RelaysOut, RelaysBack, Counts;
    NextId(s.ids, s.boundAt, 0);
    CountsSame(base, s, s.(ids := Next(s.ids).1));
  }

  /** The connect side took the bind request of a new stream: the peer is entered. */
  lemma BoundKeeps(env: Env, base: nat, s: Bridge, peer: Peer, data: seq<byte>, now: nat)
    requires Sound(env, base, s) && AtDatagram(env, s, peer, data) && Next(s.ids).0.Some?
    requires peer !in s.connectors.byPeer && |s.connectors.byPeer| < env.maxPeers
    ensures var id := Next(s.ids).0.value;
            var s1 := s.(ids := Next(s.ids).1);
            var (s2, r) := SendConnect(env, s1, peer, Frame(UdpBind, 0, id, env.bindMeta, []));
            r.Sent? ==> Sound(env, base, Bound(s2, peer, id, now))
  {
    hide Table, Logged, Ahead, RelaysOut, RelaysBack, Counts, Next, Insert;
    var id := Next(s.ids).0.value;
    var o := Out(|s.listenReceived|, peer, Frame(UdpBind, 0, id, env.bindMeta, []));
    assert Outbound(env, o, s.listenReceived);
    NextId(s.ids, s.boundAt, |s.connectSent|);
    InsertTable(env.maxPeers, s, peer, id, now);
    LogBind(s.connectors.byStream, s.connectSent, s.boundAt, o);
    OutSent(env, s.connectSent, s.listenReceived, o);
    BackLonger(env, s.listenSent, s.connectReceived, s.connectSent, s.boundAt,
               s.connectSent + [o], s.boundAt[id := |s.connectSent|]);
    var s2 := SendConnect(env, s.(ids := Next(s.ids).1), peer, o.frame).0;
    if env.net(s.attempts).Sent? {
      CountsSame(base, s, Bound(s2, peer, id, now));
    }
  }

  lemma InsertTable(maxPeers: nat, s: Bridge, peer: Peer, id: nat, now: nat)
    requires Table(maxPeers, s.connectors) && Logged(s.connectors.byStream, s.connectSent, s.boundAt)
    requires peer !in s.connectors.byPeer && |s.connectors.byPeer| < maxPeers && id !in s.boundAt
    ensures Table(maxPeers, Insert(s.connectors, peer, id, now))
    ensures Insert(s.connectors, peer, id, now).byStream == s.connectors.byStream[id := peer]
  {
    InsertKeeps(s.connectors, peer, id, now);
  }

  lemma AttemptKeeps(env: Env, base: nat, s: Bridge)
    requires Sound(env, base, s)
    ensures Sound(env, base, s.(attempts := s.attempts + 1))
  {
    hide Table, Logged, Ahead, RelaysOut, RelaysBack, Counts;
    CountsSame(base, s, s.(attempts := s.attempts + 1));
  }

  lemma BindAndRelayKeeps(env: Env, base: nat, s: Bridge, peer: Peer, data: seq<byte>, now: nat)
    requires Sound(env, base, s) && AtDatagram(env, s, peer, data) && peer !in s.connectors.byPeer
    ensures var s' := BindAndRelay(env, s, peer, data, now).bridge;
            && Sound(env, base, s')
            && Datagrams(s'.connectSent) + s'.lost == Datagrams(s.connectSent) + s.lost + 1
            && s'.listenReceived == s.listenReceived
  {
    hide Sound, Datagrams, Next;
    LoseKeeps(env, base, s);
    var (id, ids) := Next(s.ids);
    var s1 := s.(ids := ids);
    NextIdKeeps(env, base, s);
    LoseKeeps(env, base, s1);
    if |s.connectors.byPeer| < env.maxPeers && id.Some? {
      var bind := Frame(UdpBind, 0, id.value, env.bindMeta, []);
      var (s2, r) := SendConnect(env, s1, peer, bind);
      if r.Sent? {
        BoundKeeps(env, base, s, peer, data, now);
        DatagramsSent(s.connectSent, Out(|s.listenReceived|, peer, bind));
        RelayKeeps(env, base, Bound(s2, peer, id.value, now), peer, id.value, data);
      } else {
        AttemptKeeps(env, base, s1);
        LoseKeeps(env, base, s2);
      }
    }
  }

  lemma TouchOf(env: Env, base: nat, s: Bridge, peer: Peer, now: nat)
    requires Sound(env, base, s)
    ensures Sound(env, base, s.(connectors := Touch(s.connectors, peer, now)))
  {
    TouchKeeps(s.connectors, peer, now);
    var c := Touch(s.connectors, peer, now);
    assert |c.byPeer.Keys| == |c.byPeer| && |s.connectors.byPeer.Keys| == |s.connectors.byPeer|;
    hide Sound, Inverse;
    TableKeeps(env, base, s, c);
  }

  /** A peer in the table has a stream, and the stream leads back to it. */
  lemma StreamOf(env: Env, base: nat, s: Bridge, peer: Peer)
    requires Sound(env, base, s) && peer in s.connectors.byPeer
    ensures var id := s.connectors.byPeer[peer].streamId; id in s.connectors.byStream && s.connectors.byStream[id] == peer
  {
  }

  lemma ListenDatagramKeeps(env: Env, base: nat, s: Bridge, f: Frame, now: nat)
    requires Sound(env, base, s) && LastIsNew(s.connectSent, |s.listenReceived|)
    requires s.listenReceived != [] && s.listenReceived[|s.listenReceived| - 1] == f && f.frameType.UdpDatagram?
    ensures var s' := OnListenDatagram(env, s, f, now).bridge;
            && Sound(env, base, s')
            && Datagrams(s'.connectSent) + s'.lost ==
               Datagrams(s.connectSent) + s.lost + (if env.datagramPeer(f).Some? then 1 else 0)
            && s'.listenReceived == s.listenReceived
  {
    hide Sound, Datagrams, BindAndRelay, Relay;
    if env.datagramPeer(f).Some? {
      var peer := env.datagramPeer(f).value;
      if peer in s.connectors.byPeer {
        var s1 := s.(connectors := Touch(s.connectors, peer, now));
        TouchOf(env, base, s, peer, now);
        StreamOf(env, base, s, peer);
        RelayKeeps(env, base, s1, peer, s.connectors.byPeer[peer].streamId, f.data);
      } else {
        BindAndRelayKeeps(env, base, s, peer, f.data, now);
      }
    }
  }

  lemma ListenReceivedKeeps(env: Env, base: nat, s: Bridge, f: Frame)
    requires Sound(env, base, s)
    ensures var s' := s.(listenReceived := s.listenReceived + [f]);
            Sound(env, base, s') && LastIsNew(s'.connectSent, |s'.listenReceived|)
  {
    var s' := s.(listenReceived := s.listenReceived + [f]);
    assert LastIsNew(s'.connectSent, |s'.listenReceived|);
    hide Table, Logged, Ahead, RelaysOut, RelaysBack, Counts, LastIsNew;
    OutReceived(env, s.connectSent, s.listenReceived, f);
    CountsSame(base, s, s');
  }

  lemma DroppedStreamsKeep(env: Env, base: nat, s: Bridge, count: nat)
    requires Sound(env, base, s)
    ensures Sound(env, base, s.(entry := RecordDroppedStreams(s.entry, count)))
  {
    hide Table, Logged, Ahead, RelaysOut, RelaysBack, Counts;
    CountsSame(base, s, s.(entry := RecordDroppedStreams(s.entry, count)));
  }

  lemma ListenFrameKeeps(env: Env, base: nat, s: Bridge, f: Frame, now: nat)
    requires Sound(env, base, s) && Conserved(env, s)
    ensures var s1 := s.(listenReceived := s.listenReceived + [f]);
            var s' := OnListenFrame(env, s1, f, now).bridge;
            Sound(env, base, s') && Conserved(env, s')
  {
    hide Sound, Datagrams, Offered, OnListenDatagram;
    var s1 := s.(listenReceived := s.listenReceived + [f]);
    ListenReceivedKeeps(env, base, s, f);
    OfferedReceived(env, s.listenReceived, f);
    match f.frameType {
      case UdpDatagram => ListenDatagramKeeps(env, base, s1, f, now);
      case Error => ReportKeeps(env, base, s1, 1);
      case ForwardDrop =>
        if env.dropReport(f).Some? {
          var report := env.dropReport(f).value;
          var count := if report.count == 0 then 1 else report.count;
          ReportKeeps(env, base, s1, count);
          DroppedStreamsKeep(env, base, s1, count);
        }
      case _ =>
    }
  }

  // ----- The connect side and the sweep -----------------------------------

  lemma ConnectReceivedKeeps(env: Env, base: nat, s: Bridge, f: Frame)
    requires Sound(env, base, s)
    ensures Sound(env, base, s.(connectReceived := s.connectReceived + [f]))
  {
    hide Table, Logged, Ahead, RelaysOut, RelaysBack, Counts;
    BackReceived(env, s.listenSent, s.connectReceived, s.connectSent, s.boundAt, f);
    CountsSame(base, s, s.(connectReceived := s.connectReceived + [f]));
  }

  lemma RemoveStreamOf(env: Env, base: nat, s: Bridge, streamId: nat)
    requires Sound(env, base, s)
    ensures Sound(env, base, s.(connectors := RemoveStream(s.connectors, streamId)))
  {
    RemoveStreamKeeps(s.connectors, streamId);
    var c := RemoveStream(s.connectors, streamId);
    FewerPeers(c, s.connectors);
    hide Sound, Inverse;
    TableKeeps(env, base, s, c);
  }

  lemma FewerPeers(fewer: Connectors, more: Connectors)
    requires fewer.byPeer.Keys <= more.byPeer.Keys
    ensures |fewer.byPeer| <= |more.byPeer|
  {
    SubsetSize(fewer.byPeer.Keys, more.byPeer.Keys);
    assert |fewer.byPeer.Keys| == |fewer.byPeer| && |more.byPeer.Keys| == |more.byPeer|;
  }

  /** All answers so far belong to frames received before the last one. */
  ghost predicate BackIsOlder(back: seq<Out>, received: nat) {
    forall i :: 0 <= i < |back| ==> back[i].received < received
  }

  lemma BackIsOld(env: Env, base: nat, s: Bridge)
    requires Sound(env, base, s)
    ensures BackIsOlder(s.listenSent, |s.connectReceived| + 1)
  {
    forall i | 0 <= i < |s.listenSent|
      ensures s.listenSent[i].received < |s.connectReceived| + 1
    {
      assert Inbound(env, s.listenSent[i], s.connectReceived, s.connectSent, s.boundAt);
    }
  }

  lemma BackSent(env: Env, back: seq<Out>, received: seq<Frame>, sent: seq<Out>, boundAt: map<nat, nat>, o: Out)
    requires RelaysBack(env, back, received, sent, boundAt)
    requires Inbound(env, o, received, sent, boundAt) && BackIsOlder(back, o.received)
    ensures RelaysBack(env, back + [o], received, sent, boundAt)
  {
  }

  lemma SendListenKeeps(env: Env, base: nat, s: Bridge, peer: Peer, f: Frame)
    requires Sound(env, base, s) && BackIsOlder(s.listenSent, |s.connectReceived|)
    requires Inbound(env, Out(|s.connectReceived|, peer, f), s.connectReceived, s.connectSent, s.boundAt)
    ensures Sound(env, base, SendListen(env, s, peer, f).0)
  {
    hide Table, Logged, Ahead, RelaysOut, RelaysBack, Counts, Inbound, BackIsOlder;
    BackSent(env, s.listenSent, s.connectReceived, s.connectSent, s.boundAt, Out(|s.connectReceived|, peer, f));
    CountsSame(base, s, SendListen(env, s, peer, f).0);
  }

  lemma ConnectDatagramKeeps(env: Env, base: nat, s: Bridge, f: Frame, now: nat)
    requires Sound(env, base, s) && BackIsOlder(s.listenSent, |s.connectReceived|)
    requires s.connectReceived != [] && s.connectReceived[|s.connectReceived| - 1] == f && f.frameType.UdpDatagram?
    ensures Sound(env, base, OnConnectDatagram(env, s, f, now).bridge)
  {
    hide Sound;
    if f.streamId in s.connectors.byStream {
      var peer := s.connectors.byStream[f.streamId];
      LoggedOf(env, base, s);
      KnownStream(s, f.streamId);
      TouchOf(env, base, s, peer, now);
      var s1 := s.(connectors := Touch(s.connectors, peer, now));
      SendListenKeeps(env, base, s1, peer, Frame(UdpDatagram, 0, LISTEN_STREAM, env.peerMeta(peer), f.data));
    }
  }

  lemma ConnectFrameKeeps(env: Env, base: nat, s: Bridge, f: Frame, now: nat)
    requires Sound(env, base, s) && Conserved(env, s)
    ensures var s1 := s.(connectReceived := s.connectReceived + [f]);
            var s' := OnConnectFrame(env, s1, f, now).bridge;
            Sound(env, base, s') && Conserved(env, s')
  {
    hide Sound, Datagrams, Offered, RemoveStream, BackIsOlder;
    var s1 := s.(connectReceived := s.connectReceived + [f]);
    ConnectReceivedKeeps(env, base, s, f);
    match f.frameType {
      case Error =>
        ReportKeeps(env, base, s1, 1);
        RemoveStreamOf(env, base, Report(s1, 1), f.streamId);
      case UdpDatagram =>
        BackIsOld(env, base, s);
        ConnectDatagramKeeps(env, base, s1, f, now);
      case Close => RemoveStreamOf(env, base, s1, f.streamId);
      case _ =>
    }
  }

  /** A stream that has left the table and whose close may still be sent. */
  ghost predicate Closable(s: Bridge, was: Connectors, id: nat) {
    && id !in s.connectors.byStream
    && id in s.boundAt && s.boundAt[id] < |s.connectSent|
    && s.connectSent[s.boundAt[id]].peer == PeerOf(was, id)
    && NotClosed(s.connectSent, id)
  }

  lemma StillClosable(env: Env, s: Bridge, was: Connectors, id: nat, closing: nat)
    requires Closable(s, was, id) && id != closing
    ensures Closable(SendConnect(env, s, PeerOf(was, closing), CloseFrame(closing)).0, was, id)
  {
  }

  lemma {:induction false} CloseEachKeeps(env: Env, base: nat, s: Bridge, was: Connectors, removed: seq<nat>)
    requires Sound(env, base, s)
    requires forall id <- removed :: Closable(s, was, id)
    requires forall i, j :: 0 <= i < j < |removed| ==> removed[i] != removed[j]
    ensures var s' := CloseEach(env, s, was, removed);
            && Sound(env, base, s')
            && Datagrams(s'.connectSent) == Datagrams(s.connectSent)
            && s'.lost == s.lost && s'.listenReceived == s.listenReceived
    decreases |removed|
  {
    hide Sound, Datagrams, Closable;
    if removed != [] {
      var id := removed[0];
      CloseOneKeeps(env, base, s, was, id);
      forall other <- removed[1..]
        ensures Closable(SendConnect(env, s, PeerOf(was, id), CloseFrame(id)).0, was, other)
      {
        StillClosable(env, s, was, other, id);
      }
      CloseEachKeeps(env, base, SendConnect(env, s, PeerOf(was, id), CloseFrame(id)).0, was, removed[1..]);
    }
  }

  lemma CloseOneKeeps(env: Env, base: nat, s: Bridge, was: Connectors, id: nat)
    requires Sound(env, base, s) && Closable(s, was, id)
    ensures var s' := SendConnect(env, s, PeerOf(was, id), CloseFrame(id)).0;
            Sound(env, base, s') && Datagrams(s'.connectSent) == Datagrams(s.connectSent)
  {
    hide Sound, Datagrams, NotClosed;
    SendConnectKeeps(env, base, s, PeerOf(was, id), CloseFrame(id));
    DatagramsSent(s.connectSent, Out(|s.listenReceived|, PeerOf(was, id), CloseFrame(id)));
  }

  lemma SweepKeeps(env: Env, base: nat, s: Bridge, now: nat)
    requires LegalEnv(env)
    requires Sound(env, base, s) && Conserved(env, s)
    ensures var s' := OnSweep(env, s, now).bridge; Sound(env, base, s') && Conserved(env, s')
  {
    hide Sound, Datagrams, Offered, Remove, Scan, CloseEach, Logged;
    var order := env.order(s.attempts, s.connectors.byPeer.Keys);
    var expired := Scan(s.connectors, order, now, IDLE_TIMEOUT);
    var (c, removed) := Remove(s.connectors, expired, now, IDLE_TIMEOUT);
    TableOf(env, base, s);
    SweepExactly(s.connectors, expired, now, IDLE_TIMEOUT);
    FewerPeers(c, s.connectors);
    TableKeeps(env, base, s, c);
    LoggedOf(env, base, s);
    forall id <- removed
      ensures Closable(s.(connectors := c), s.connectors, id)
    {
      KnownStream(s, id);
    }
    CloseEachKeeps(env, base, s.(connectors := c), s.connectors, removed);
  }

  lemma TableOf(env: Env, base: nat, s: Bridge)
    requires Sound(env, base, s)
    ensures Table(env.maxPeers, s.connectors)
  {
  }

  lemma HandleKeeps(env: Env, base: nat, s: Bridge, e: Event)
    requires LegalEnv(env)
    requires Sound(env, base, s) && Conserved(env, s)
    ensures var s' := Handle(env, s, e).bridge; Sound(env, base, s') && Conserved(env, s')
  {
    hide Sound, Conserved, OnListenFrame, OnConnectFrame, OnSweep;
    match e {
      case ListenFrame(f, now) => ListenFrameKeeps(env, base, s, f, now);
      case ConnectFrame(f, now) => ConnectFrameKeeps(env, base, s, f, now);
      case Sweep(now) => SweepKeeps(env, base, s, now);
      case _ =>
    }
  }

  lemma {:induction false} RunKeeps(env: Env, entry: ForwardPortEntry, events: seq<Event>)
    requires LegalEnv(env)
    ensures var s := Run(env, entry, events).bridge;
            Sound(env, entry.droppedUdpDatagrams, s) && Conserved(env, s)
  {
    if events != [] {
      RunKeeps(env, entry, events[..|events| - 1]);
      HandleKeeps(env, entry.droppedUdpDatagrams, Run(env, entry, events[..|events| - 1]).bridge, events[|events| - 1]);
    }
  }

  // ----- Over every run of an epoch ---------------------------------------

  /** A connector stream serves one peer for ever: it is bound once, before any
      other use, every frame on it is sent for the peer it was bound for, and
      nothing is sent on it after its close. */
  lemma StreamServesOnePeer(env: Env, entry: ForwardPortEntry, events: seq<Event>, i: nat, j: nat)
    requires LegalEnv(env)
    requires i < j < |Run(env, entry, events).bridge.connectSent|
    requires var sent := Run(env, entry, events).bridge.connectSent; sent[i].frame.streamId == sent[j].frame.streamId
    ensures var sent := Run(env, entry, events).bridge.connectSent;
            && sent[i].peer == sent[j].peer
            && !sent[j].frame.frameType.UdpBind?
            && !sent[i].frame.frameType.Close?
  {
    RunKeeps(env, entry, events);
    var s := Run(env, entry, events).bridge;
    assert UsedAfterBind(s.connectSent, s.boundAt, i) && UsedAfterBind(s.connectSent, s.boundAt, j);
  }

  /** Every frame on the connect tunnel is on a stream that was bound, earlier
      or with that frame, for the same peer, with exactly the bind request of
      the source. */
  lemma BoundBeforeUse(env: Env, entry: ForwardPortEntry, events: seq<Event>, i: nat) returns (bind: nat)
    requires LegalEnv(env)
    requires i < |Run(env, entry, events).bridge.connectSent|
    ensures var sent := Run(env, entry, events).bridge.connectSent;
            && bind <= i && sent[bind].peer == sent[i].peer
            && sent[bind].frame == Frame(UdpBind, 0, sent[i].frame.streamId, env.bindMeta, [])
  {
    RunKeeps(env, entry, events);
    hide Run;
    var s := Run(env, entry, events).bridge;
    assert UsedAfterBind(s.connectSent, s.boundAt, i);
    bind := s.boundAt[s.connectSent[i].frame.streamId];
    assert Outbound(env, s.connectSent[bind], s.listenReceived);
  }

  /** Every datagram sent to the connect side is one datagram of the listen
      side, with its peer and data; they keep their order, none is sent twice. */
  lemma DatagramsGoOut(env: Env, entry: ForwardPortEntry, events: seq<Event>, i: nat, j: nat)
    requires LegalEnv(env)
    requires i < j < |Run(env, entry, events).bridge.connectSent|
    ensures var s := Run(env, entry, events).bridge;
            && Outbound(env, s.connectSent[i], s.listenReceived)
            && Outbound(env, s.connectSent[j], s.listenReceived)
            && (s.connectSent[i].frame.frameType.UdpDatagram? && s.connectSent[j].frame.frameType.UdpDatagram? ==>
                  s.connectSent[i].received < s.connectSent[j].received)
  {
    RunKeeps(env, entry, events);
    hide Run;
  }

  /** Routing: every datagram delivered to the listen side answers one datagram
      of the connect side and carries its data, and goes to the one peer for
      which frames were ever sent on that stream, through whatever sweeps,
      removals and new bindings of that peer. */
  lemma AnswersReachThePeer(env: Env, entry: ForwardPortEntry, events: seq<Event>, k: nat, i: nat)
    requires LegalEnv(env)
    requires k < |Run(env, entry, events).bridge.listenSent|
    requires i < |Run(env, entry, events).bridge.connectSent|
    ensures var s := Run(env, entry, events).bridge;
            var o := s.listenSent[k];
            && 0 < o.received <= |s.connectReceived|
            && var f := s.connectReceived[o.received - 1];
               && f.frameType.UdpDatagram?
               && o.frame == Frame(UdpDatagram, 0, 1, env.peerMeta(o.peer), f.data)
               && (s.connectSent[i].frame.streamId == f.streamId ==> s.connectSent[i].peer == o.peer)
               && exists b :: 0 <= b < |s.connectSent| && IsBind(s.connectSent[b].frame, f.streamId)
  {
    RunKeeps(env, entry, events);
    hide Run;
    var s := Run(env, entry, events).bridge;
    assert Inbound(env, s.listenSent[k], s.connectReceived, s.connectSent, s.boundAt);
    assert UsedAfterBind(s.connectSent, s.boundAt, i);
    var f := s.connectReceived[s.listenSent[k].received - 1];
    assert IsBind(s.connectSent[s.boundAt[f.streamId]].frame, f.streamId);
  }

  /** Answers keep the order of the datagrams they carry, and none is sent twice. */
  lemma AnswersInOrder(env: Env, entry: ForwardPortEntry, events: seq<Event>, i: nat, j: nat)
    requires LegalEnv(env)
    requires i < j < |Run(env, entry, events).bridge.listenSent|
    ensures var back := Run(env, entry, events).bridge.listenSent; back[i].received < back[j].received
  {
    RunKeeps(env, entry, events);
    hide Run;
  }

  /** After every event the two maps are inverses and hold at most `maxPeers` peers. */
  lemma TableHolds(env: Env, entry: ForwardPortEntry, events: seq<Event>)
    requires LegalEnv(env)
    ensures var c := Run(env, entry, events).bridge.connectors;
            Inverse(c) && |c.byPeer| <= env.maxPeers
  {
    RunKeeps(env, entry, events);
    hide Run;
  }

  /** Every readable datagram of the listen side was relayed or lost, exactly
      one of the two, and the entry's counter is what it was, plus the losses,
      plus the reports of the tunnels (up to the counter's maximum). */
  lemma DatagramsConserved(env: Env, entry: ForwardPortEntry, events: seq<Event>)
    requires LegalEnv(env)
    ensures var s := Run(env, entry, events).bridge;
            && Offered(env, s.listenReceived) == Datagrams(s.connectSent) + s.lost
            && (entry.droppedUdpDatagrams <= U64_MAX ==>
                  s.entry.droppedUdpDatagrams == Capped(entry.droppedUdpDatagrams + s.lost + s.reported))
  {
    hide Run, LegalEnv, Sound, Datagrams, Offered, Capped;
    RunKeeps(env, entry, events);
    if entry.droppedUdpDatagrams <= U64_MAX {
      CountsPlainly(env, entry.droppedUdpDatagrams, Run(env, entry, events).bridge);
    }
  }

  lemma CountsPlainly(env: Env, base: nat, s: Bridge)
    requires Sound(env, base, s) && base <= U64_MAX
    ensures s.entry.droppedUdpDatagrams == Capped(base + s.lost + s.reported)
  {
    hide Table, Logged, Ahead, RelaysOut, RelaysBack;
  }

  /** The tunnels and the table let a datagram of `peer` through: its connector,
      or the bind request for a new one, and the datagram itself are taken. */
  predicate GoesThrough(env: Env, s: Bridge, peer: Peer) {
    if peer in s.connectors.byPeer then env.net(s.attempts).Sent?
    else
      && |s.connectors.byPeer| < env.maxPeers && !s.ids.exhausted
      && env.net(s.attempts).Sent? && env.net(s.attempts + 1).Sent?
  }

  lemma ListenDatagramStep(env: Env, s: Bridge, f: Frame, now: nat)
    requires env.datagramPeer(f).Some? && f.frameType.UdpDatagram?
    ensures var peer := env.datagramPeer(f).value; var s' := OnListenFrame(env, s, f, now).bridge;
            if GoesThrough(env, s, peer) then
              && s'.lost == s.lost && s'.connectSent != []
              && var o := s'.connectSent[|s'.connectSent| - 1];
                 o == Out(|s.listenReceived|, peer, Frame(UdpDatagram, 0, o.frame.streamId, env.endpointMeta, f.data))
            else s'.lost == s.lost + 1
  {
    hide Touch, Insert;
  }

  /** In every run a readable datagram of the listen side is lost exactly when its
      peer has no connector and cannot get one, or the connect side does not take
      the bind request or the datagram. Otherwise it is the last frame sent, on a
      stream that was bound for its peer. */
  lemma LostExactlyWhen(env: Env, entry: ForwardPortEntry, events: seq<Event>, f: Frame, now: nat) returns (bind: nat)
    requires LegalEnv(env) && f.frameType.UdpDatagram? && env.datagramPeer(f).Some?
    ensures var s := Run(env, entry, events).bridge;
            var s' := Handle(env, s, ListenFrame(f, now)).bridge;
            var peer := env.datagramPeer(f).value;
            if GoesThrough(env, s, peer) then
              && s'.lost == s.lost && s'.connectSent != []
              && var o := s'.connectSent[|s'.connectSent| - 1];
              && o == Out(|s.listenReceived| + 1, peer, Frame(UdpDatagram, 0, o.frame.streamId, env.endpointMeta, f.data))
              && bind < |s'.connectSent| - 1
              && IsBind(s'.connectSent[bind].frame, o.frame.streamId) && s'.connectSent[bind].peer == peer
            else s'.lost == s.lost + 1 && Datagrams(s'.connectSent) == Datagrams(s.connectSent)
  {
    hide Run, Sound, Conserved, OnListenFrame, Datagrams, Offered, LegalEnv;
    RunKeeps(env, entry, events);
    var s := Run(env, entry, events).bridge;
    var base := entry.droppedUdpDatagrams;
    var received := s.(listenReceived := s.listenReceived + [f]);
    var s' := OnListenFrame(env, received, f, now).bridge;
    ListenDatagramStep(env, received, f, now);
    bind := 0;
    if GoesThrough(env, s, env.datagramPeer(f).value) {
      ListenFrameKeeps(env, base, s, f, now);
      bind := BindBefore(env, base, s', |s'.connectSent| - 1);
    } else {
      ListenFrameCounts(env, base, s, f, now);
    }
  }

  /** Whatever becomes of a readable datagram, it is counted once. */
  lemma ListenFrameCounts(env: Env, base: nat, s: Bridge, f: Frame, now: nat)
    requires Sound(env, base, s) && Conserved(env, s)
    requires f.frameType.UdpDatagram? && env.datagramPeer(f).Some?
    ensures var s' := OnListenFrame(env, s.(listenReceived := s.listenReceived + [f]), f, now).bridge;
            Datagrams(s'.connectSent) + s'.lost == Datagrams(s.connectSent) + s.lost + 1
  {
    hide Sound, Datagrams, OnListenDatagram;
    var received := s.(listenReceived := s.listenReceived + [f]);
    ListenReceivedKeeps(env, base, s, f);
    ListenDatagramKeeps(env, base, received, f, now);
  }

  lemma BindBefore(env: Env, base: nat, s: Bridge, i: nat) returns (bind: nat)
    requires Sound(env, base, s) && i < |s.connectSent| && !s.connectSent[i].frame.frameType.UdpBind?
    ensures bind < i && IsBind(s.connectSent[bind].frame, s.connectSent[i].frame.streamId)
    ensures s.connectSent[bind].peer == s.connectSent[i].peer
  {
    hide Table, Known, ClosesLast, Ahead, RelaysOut, RelaysBack, Counts;
    assert UsedAfterBind(s.connectSent, s.boundAt, i);
    bind := s.boundAt[s.connectSent[i].frame.streamId];
  }

  /** A datagram of the connect side is delivered, in every run, exactly when its
      stream is in the table and the listen side takes it; and then to the peer
      for which that stream was bound. Otherwise nothing is sent. */
  lemma DeliveredExactlyWhen(env: Env, entry: ForwardPortEntry, events: seq<Event>, f: Frame, now: nat) returns (bind: nat)
    requires LegalEnv(env) && f.frameType.UdpDatagram?
    ensures var s := Run(env, entry, events).bridge;
            var s' := Handle(env, s, ConnectFrame(f, now)).bridge;
            if f.streamId in s.connectors.byStream && env.net(s.attempts).Sent? then
              && bind < |s.connectSent| && IsBind(s.connectSent[bind].frame, f.streamId)
              && var peer := s.connectSent[bind].peer;
                 s'.listenSent == s.listenSent
                   + [Out(|s.connectReceived| + 1, peer, Frame(UdpDatagram, 0, LISTEN_STREAM, env.peerMeta(peer), f.data))]
            else s'.listenSent == s.listenSent
  {
    hide Run, Sound, Conserved, Handle, Logged, NotClosed, LegalEnv;
    RunKeeps(env, entry, events);
    var s := Run(env, entry, events).bridge;
    bind := 0;
    DeliveryStep(env, s, f, now);
    if f.streamId in s.connectors.byStream {
      LoggedOf(env, entry.droppedUdpDatagrams, s);
      KnownStream(s, f.streamId);
      BindOf(s, f.streamId);
      bind := s.boundAt[f.streamId];
    }
  }

  lemma DeliveryStep(env: Env, s: Bridge, f: Frame, now: nat)
    requires LegalEnv(env) && f.frameType.UdpDatagram?
    ensures var s' := Handle(env, s, ConnectFrame(f, now)).bridge;
            if f.streamId in s.connectors.byStream && env.net(s.attempts).Sent? then
              var peer := s.connectors.byStream[f.streamId];
              s'.listenSent == s.listenSent
                + [Out(|s.connectReceived| + 1, peer, Frame(UdpDatagram, 0, LISTEN_STREAM, env.peerMeta(peer), f.data))]
            else s'.listenSent == s.listenSent
  {
  }

  lemma BindOf(s: Bridge, streamId: nat)
    requires Logged(s.connectors.byStream, s.connectSent, s.boundAt)
    requires streamId in s.boundAt && s.boundAt[streamId] < |s.connectSent|
    ensures IsBind(s.connectSent[s.boundAt[streamId]].frame, streamId)
  {
  }

  lemma {:induction false} CloseEachTable(env: Env, s: Bridge, was: Connectors, removed: seq<nat>)
    ensures CloseEach(env, s, was, removed).connectors == s.connectors
    decreases |removed|
  {
    if removed != [] {
      CloseEachTable(env, SendConnect(env, s, PeerOf(was, removed[0]), CloseFrame(removed[0])).0, was, removed[1..]);
    }
  }

  /** In every state of the invariant a sweep keeps exactly the peers used
      within the idle time, with the streams they have. */
  lemma SweepKeepsActivePeers(env: Env, base: nat, s: Bridge, now: nat)
    requires LegalEnv(env) && Sound(env, base, s)
    ensures var c, c' := s.connectors, OnSweep(env, s, now).bridge.connectors;
            && (forall p :: p in c'.byPeer <==> p in c.byPeer && now < c.byPeer[p].lastUsed + 60_000_000_000)
            && (forall p <- c'.byPeer :: c'.byPeer[p] == c.byPeer[p])
  {
    hide Sound, Remove, Scan, CloseEach;
    var order := env.order(s.attempts, s.connectors.byPeer.Keys);
    var expired := Scan(s.connectors, order, now, IDLE_TIMEOUT);
    var (c, removed) := Remove(s.connectors, expired, now, IDLE_TIMEOUT);
    TableOf(env, base, s);
    WholeSweep(s.connectors, order, now, IDLE_TIMEOUT);
    SweepExactly(s.connectors, expired, now, IDLE_TIMEOUT);
    CloseEachTable(env, s.(connectors := c), s.connectors, removed);
  }

  /** A datagram in either direction restarts the idle time of its peer, sent or
      not: a peer that had a connector keeps its stream through any sweep less
      than a minute later. */
  lemma TrafficKeepsThePeer(env: Env, base: nat, s: Bridge, e: Event, peer: Peer, later: nat)
    requires LegalEnv(env) && Sound(env, base, s) && Conserved(env, s)
    requires peer in s.connectors.byPeer
    requires || (e.ListenFrame? && e.frame.frameType.UdpDatagram? && env.datagramPeer(e.frame) == Some(peer))
             || (e.ConnectFrame? && e.frame.frameType.UdpDatagram? && e.frame.streamId == s.connectors.byPeer[peer].streamId)
    requires later < e.now + 60_000_000_000
    ensures var s1 := Handle(env, s, e).bridge;
            var c := OnSweep(env, s1, later).bridge.connectors;
            peer in c.byPeer && c.byPeer[peer] == Connector(s.connectors.byPeer[peer].streamId, e.now)
  {
    hide Sound, Conserved, OnSweep, Relay, SendListen;
    StreamOf(env, base, s, peer);
    HandleKeeps(env, base, s, e);
    var s1 := Handle(env, s, e).bridge;
    assert s1.connectors == Touch(s.connectors, peer, e.now) by { Touched(env, s, e, peer); }
    SweepKeepsActivePeers(env, base, s1, later);
  }

  lemma Touched(env: Env, s: Bridge, e: Event, peer: Peer)
    requires LegalEnv(env) && peer in s.connectors.byPeer
    requires var id := s.connectors.byPeer[peer].streamId; id in s.connectors.byStream && s.connectors.byStream[id] == peer
    requires || (e.ListenFrame? && e.frame.frameType.UdpDatagram? && env.datagramPeer(e.frame) == Some(peer))
             || (e.ConnectFrame? && e.frame.frameType.UdpDatagram? && e.frame.streamId == s.connectors.byPeer[peer].streamId)
    ensures Handle(env, s, e).bridge.connectors == Touch(s.connectors, peer, e.now)
  {
    hide Touch;
  }
}
