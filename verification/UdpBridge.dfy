/** The UDP bridge of one epoch (`udp_bridge.rs`) as a transition system. As in
    the TCP bridge an event is one transition, and `Env` holds everything the
    environment decides. */
module UdpBridge {
  import opened Common
  import opened Frames
  import opened StreamIds
  import opened ForwardEntries
  import opened UdpConnectors

  const FIRST_CONNECTOR_STREAM: nat := 3
  const LISTEN_STREAM: nat := 1
  /** One minute, in nanoseconds. */
  const IDLE_TIMEOUT: nat := 60_000_000_000

  datatype Env = Env(
    net: nat -> SendResult,                    // how the n-th send of the epoch ends
    order: (nat, set<Peer>) -> seq<Peer>,      // walking order of the peers after n sends
    maxPeers: nat,
    listenerStreamId: nat,
    bindMeta: seq<byte>,
    endpointMeta: seq<byte>,
    peerMeta: Peer -> seq<byte>,
    datagramPeer: Frame -> Option<Peer>,       // the peer in a datagram's meta block, if it decodes
    isFatal: Frame -> bool,
    isPressure: Frame -> bool,
    dropReport: Frame -> Option<DropReport>)

  /** A frame a tunnel took: on whose behalf, and how many frames of the other
      tunnel had been received by then. */
  datatype Out = Out(received: nat, peer: Peer, frame: Frame)

  /** The connector table, the allocator and the forward's entry; then history:
      sends tried, frames received, frames sent, where in `connectSent` each
      stream was bound, datagrams of the listen side that were dropped, and
      drops reported by the tunnels. */
  datatype Bridge = Bridge(
    connectors: Connectors,
    ids: Allocator,
    entry: ForwardPortEntry,
    attempts: nat,
    listenReceived: seq<Frame>,
    connectReceived: seq<Frame>,
    connectSent: seq<Out>,
    listenSent: seq<Out>,
    boundAt: map<nat, nat>,
    lost: nat,
    reported: nat)

  datatype Step = Step(bridge: Bridge, outcome: Outcome)

  datatype Event =
    | ListenFrame(frame: Frame, now: nat)
    | ConnectFrame(frame: Frame, now: nat)
    | Sweep(now: nat)
    | ListenLost
    | ConnectLost
    | TerminalError
    | Cancel

  function Initial(entry: ForwardPortEntry): Bridge {
    Bridge(Empty, NewOddFrom(FIRST_CONNECTOR_STREAM), entry, 0, [], [], [], [], map[], 0, 0)
  }

  ghost predicate LegalEnv(env: Env) {
    forall n, peers :: forall p :: p in env.order(n, peers) <==> p in peers
  }

  // ----- Sends and drops --------------------------------------------------

  function SendConnect(env: Env, s: Bridge, peer: Peer, f: Frame): (Bridge, SendResult) {
    var r := env.net(s.attempts);
    (s.(attempts := s.attempts + 1,
        connectSent := if r.Sent? then s.connectSent + [Out(|s.listenReceived|, peer, f)] else s.connectSent), r)
  }

  function SendListen(env: Env, s: Bridge, peer: Peer, f: Frame): (Bridge, SendResult) {
    var r := env.net(s.attempts);
    (s.(attempts := s.attempts + 1,
        listenSent := if r.Sent? then s.listenSent + [Out(|s.connectReceived|, peer, f)] else s.listenSent), r)
  }

  function Lose(s: Bridge): Bridge {
    s.(entry := RecordDroppedDatagrams(s.entry, 1), lost := s.lost + 1)
  }

  function Report(s: Bridge, count: nat): Bridge {
    s.(entry := RecordDroppedDatagrams(s.entry, count), reported := s.reported + count)
  }

  // ----- Datagrams of the listen side -------------------------------------

  function Relay(env: Env, s: Bridge, peer: Peer, streamId: nat, data: seq<byte>): Step {
    var (s1, r) := SendConnect(env, s, peer, Frame(UdpDatagram, 0, streamId, env.endpointMeta, data));
    match r
    case Sent => Step(s1, Continue)
    case Backpressure => Step(Lose(s1), Continue)
    case _ => Step(Lose(s1), ClassifyFailure(r, Connect))
  }

  /** A peer without a connector: bind a new stream for it, unless the table or
      the allocator is full or the connect side does not take the request. */
  function BindAndRelay(env: Env, s: Bridge, peer: Peer, data: seq<byte>, now: nat): Step {
    if |s.connectors.byPeer| >= env.maxPeers then Step(Lose(s), Continue)
    else
      var (id, ids) := Next(s.ids);
      var s1 := s.(ids := ids);
      if id.None? then Step(Lose(s1), Failed)
      else
        var (s2, r) := SendConnect(env, s1, peer, Frame(UdpBind, 0, id.value, env.bindMeta, []));
        if !r.Sent? then Step(Lose(s2), ClassifyFailure(r, Connect))
        else Relay(env, Bound(s2, peer, id.value, now), peer, id.value, data)
  }

  function Bound(s: Bridge, peer: Peer, streamId: nat, now: nat): Bridge
    requires s.connectSent != []
  {
    s.(connectors := Insert(s.connectors, peer, streamId, now),
       boundAt := s.boundAt[streamId := |s.connectSent| - 1])
  }

  function OnListenDatagram(env: Env, s: Bridge, f: Frame, now: nat): Step {
    var peer := env.datagramPeer(f);
    if peer.None? then Step(s, Failed)
    else if peer.value in s.connectors.byPeer then
      Relay(env, s.(connectors := Touch(s.connectors, peer.value, now)), peer.value,
            s.connectors.byPeer[peer.value].streamId, f.data)
    else BindAndRelay(env, s, peer.value, f.data, now)
  }

  function OnForwardDrop(env: Env, s: Bridge, f: Frame): Step {
    match env.dropReport(f)
    case None => Step(s, Failed)
    case Some(report) =>
      var count := if report.count == 0 then 1 else report.count;
      Step(if report.tcp then s.(entry := RecordDroppedStreams(s.entry, count)) else Report(s, count), Continue)
  }

  function OnListenFrame(env: Env, s: Bridge, f: Frame, now: nat): Step {
    match f.frameType
    case UdpDatagram => OnListenDatagram(env, s, f, now)
    case Close => Step(s, Cancelled)
    case Error =>
      if env.isFatal(f) then Step(s, Failed)
      else if f.streamId != env.listenerStreamId then Step(s, Continue)
      else if env.isPressure(f) then Step(Report(s, 1), Continue)
      else Step(s, Failed)
    case ForwardDrop => OnForwardDrop(env, s, f)
    case _ => Step(s, Continue)
  }

  // ----- Frames of the connect side ---------------------------------------

  function OnConnectDatagram(env: Env, s: Bridge, f: Frame, now: nat): Step {
    if f.streamId !in s.connectors.byStream then Step(s, Continue)
    else
      var peer := s.connectors.byStream[f.streamId];
      var s1 := s.(connectors := Touch(s.connectors, peer, now));
      var (s2, r) := SendListen(env, s1, peer, Frame(UdpDatagram, 0, LISTEN_STREAM, env.peerMeta(peer), f.data));
      Step(s2, if r.Sent? then Continue else ClassifyFailure(r, Listen))
  }

  function OnConnectFrame(env: Env, s: Bridge, f: Frame, now: nat): Step {
    match f.frameType
    case Error =>
      if env.isFatal(f) then Step(s, Failed)
      else Step(Report(s, 1).(connectors := RemoveStream(s.connectors, f.streamId)), Continue)
    case UdpDatagram => OnConnectDatagram(env, s, f, now)
    case Close => Step(s.(connectors := RemoveStream(s.connectors, f.streamId)), Continue)
    case _ => Step(s, Continue)
  }

  // ----- The idle sweep ---------------------------------------------------

  /** The peer of a stream that the sweep has just taken out of the table. */
  function PeerOf(was: Connectors, streamId: nat): Peer {
    if streamId in was.byStream then was.byStream[streamId] else ""
  }

  function CloseEach(env: Env, s: Bridge, was: Connectors, removed: seq<nat>): Bridge
    decreases |removed|
  {
    if removed == [] then s
    else
      var (s1, _) := SendConnect(env, s, PeerOf(was, removed[0]), CloseFrame(removed[0]));
      CloseEach(env, s1, was, removed[1..])
  }

  function OnSweep(env: Env, s: Bridge, now: nat): Step
    requires LegalEnv(env)
  {
    var order := env.order(s.attempts, s.connectors.byPeer.Keys);
    var (connectors, removed) := Remove(s.connectors, Scan(s.connectors, order, now, IDLE_TIMEOUT), now, IDLE_TIMEOUT);
    Step(CloseEach(env, s.(connectors := connectors), s.connectors, removed), Continue)
  }

  // ----- One event, and a whole epoch -------------------------------------

  function Handle(env: Env, s: Bridge, e: Event): Step
    requires LegalEnv(env)
  {
    match e
    case ListenFrame(f, now) => OnListenFrame(env, s.(listenReceived := s.listenReceived + [f]), f, now)
    case ConnectFrame(f, now) => OnConnectFrame(env, s.(connectReceived := s.connectReceived + [f]), f, now)
    case Sweep(now) => OnSweep(env, s, now)
    case ListenLost => Step(s, Recover(Listen))
    case ConnectLost => Step(s, Recover(Connect))
    case TerminalError => Step(s, Failed)
    case Cancel => Step(s, Cancelled)
  }

  function Run(env: Env, entry: ForwardPortEntry, events: seq<Event>): Step
    requires LegalEnv(env)
  {
    if events == [] then Step(Initial(entry), Continue)
    else
      var before := Run(env, entry, events[..|events| - 1]);
      if before.outcome.Continue? then Handle(env, before.bridge, events[|events| - 1]) else before
  }
}
