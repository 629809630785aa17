/** What each event of the UDP bridge sends and how it ends, what a stream that
    the connect side has closed is worth afterwards, and what the drop counters
    stand for. */
module UdpSends {
  import opened Common
  import opened Frames
  import opened StreamIds
  import opened ForwardEntries
  import opened UdpConnectors
  import opened UdpBridge
  import opened UdpRuns

  // ----- A stream that the connect side ends ------------------------------

  /** The connect side closes this stream or reports an error on it. */
  predicate EndsStream(env: Env, f: Frame) {
    f.frameType.Close? || (f.frameType.Error? && !env.isFatal(f))
  }

  /** The table without stream `id`: the stream and its peer are gone, every
      other binding is as it was. */
  ghost predicate Without(c: Connectors, c': Connectors, id: nat) {
    && c'.byStream == c.byStream - {id}
    && c'.byPeer == map p | p in c.byPeer && c.byPeer[p].streamId != id :: c.byPeer[p]
  }

  lemma RemovedIsWithout(c: Connectors, id: nat)
    requires Inverse(c)
    ensures Without(c, RemoveStream(c, id), id)
  {
    assert id !in c.byStream ==> c.byStream - {id} == c.byStream;
  }

  /** A stream that the connect side ends leaves the table together with its
      peer. The peer may then be bound again, to a new stream. */
  lemma EndedStreamLeaves(env: Env, base: nat, s: Bridge, f: Frame, now: nat)
    requires LegalEnv(env) && Sound(env, base, s) && EndsStream(env, f)
    ensures var step := Handle(env, s, ConnectFrame(f, now));
            && step.outcome.Continue?
            && step.bridge.connectSent == s.connectSent && step.bridge.listenSent == s.listenSent
            && Without(s.connectors, step.bridge.connectors, f.streamId)
  {
    hide Sound, LegalEnv, Without, RemoveStream, Inverse, OnConnectDatagram, Counted;
    TableOf(env, base, s);
    RemovedIsWithout(s.connectors, f.streamId);
  }

  /** A stream that was bound once and is out of the table. */
  ghost predicate Retired(s: Bridge, id: nat) {
    id in s.boundAt && id !in s.connectors.byStream
  }

  /** Between two states nothing went out on stream `id`, and it is retired. */
  ghost predicate Spared(s: Bridge, s': Bridge, id: nat) {
    && Retired(s', id)
    && s.connectSent <= s'.connectSent
    && (forall i :: |s.connectSent| <= i < |s'.connectSent| ==> s'.connectSent[i].frame.streamId != id)
  }

  lemma SparedThen(s: Bridge, s1: Bridge, s2: Bridge, id: nat)
    requires Spared(s, s1, id) && Spared(s1, s2, id)
    ensures Spared(s, s2, id)
  {
  }

  lemma SparedSame(s: Bridge, s': Bridge, id: nat)
    requires Retired(s, id) && s'.boundAt == s.boundAt && s'.connectSent == s.connectSent
    requires s'.connectors.byStream.Keys <= s.connectors.byStream.Keys
    ensures Spared(s, s', id)
  {
  }

  lemma SendSpares(env: Env, s: Bridge, peer: Peer, f: Frame, id: nat)
    requires Retired(s, id) && f.streamId != id
    ensures Spared(s, SendConnect(env, s, peer, f).0, id)
  {
  }

  lemma RelaySpares(env: Env, s: Bridge, peer: Peer, streamId: nat, data: seq<byte>, id: nat)
    requires Retired(s, id) && streamId != id
    ensures Spared(s, Relay(env, s, peer, streamId, data).bridge, id)
  {
    hide Spared;
    var f := Frame(UdpDatagram, 0, streamId, env.endpointMeta, data);
    var s1 := SendConnect(env, s, peer, f).0;
    SendSpares(env, s, peer, f, id);
    SparedRetired(s, s1, id);
    SparedSame(s1, Lose(s1), id);
    SparedThen(s, s1, Lose(s1), id);
  }

  lemma SparedRetired(s: Bridge, s': Bridge, id: nat)
    requires Spared(s, s', id)
    ensures Retired(s', id)
  {
  }

  lemma BindSpares(env: Env, s: Bridge, peer: Peer, data: seq<byte>, now: nat, id: nat)
    requires Retired(s, id) && Ahead(s.ids, s.boundAt)
    ensures Spared(s, BindAndRelay(env, s, peer, data, now).bridge, id)
  {
    hide Spared, Ahead, Next;
    SparedSame(s, Lose(s), id);
    var (next, ids) := Next(s.ids);
    var s1 := s.(ids := ids);
    SparedSame(s, s1, id);
    SparedSame(s, Lose(s1), id);
    if next.Some? {
      NextId(s.ids, s.boundAt, 0);
      var f := Frame(UdpBind, 0, next.value, env.bindMeta, []);
      var (s2, r) := SendConnect(env, s1, peer, f);
      SendSpares(env, s1, peer, f, id);
      SparedThen(s, s1, s2, id);
      SparedRetired(s, s2, id);
      SparedSame(s2, Lose(s2), id);
      SparedThen(s, s2, Lose(s2), id);
      if r.Sent? {
        var s3 := Bound(s2, peer, next.value, now);
        BoundSpares(s2, peer, next.value, now, id);
        SparedThen(s, s2, s3, id);
        SparedRetired(s, s3, id);
        RelaySpares(env, s3, peer, next.value, data, id);
        SparedThen(s, s3, Relay(env, s3, peer, next.value, data).bridge, id);
      }
    }
  }

  lemma BoundSpares(s: Bridge, peer: Peer, streamId: nat, now: nat, id: nat)
    requires Retired(s, id) && streamId != id && s.connectSent != []
    ensures Spared(s, Bound(s, peer, streamId, now), id)
  {
  }

  lemma ListenSpares(env: Env, base: nat, s: Bridge, f: Frame, now: nat, id: nat)
    requires Sound(env, base, s) && Retired(s, id)
    ensures Spared(s, OnListenFrame(env, s.(listenReceived := s.listenReceived + [f]), f, now).bridge, id)
  {
    hide Spared, Sound, BindAndRelay, Relay;
    var r := s.(listenReceived := s.listenReceived + [f]);
    SparedSame(s, r, id);
    SparedRetired(s, r, id);
    SparedSame(s, OnForwardDrop(env, r, f).bridge, id);
    SparedSame(s, Report(r, 1), id);
    if f.frameType.UdpDatagram? && env.datagramPeer(f).Some? {
      var peer := env.datagramPeer(f).value;
      if peer in s.connectors.byPeer {
        StreamOf(env, base, s, peer);
        var s1 := r.(connectors := Touch(r.connectors, peer, now));
        SparedSame(s, s1, id);
        RelaySpares(env, s1, peer, s.connectors.byPeer[peer].streamId, f.data, id);
        SparedThen(s, s1, Relay(env, s1, peer, s.connectors.byPeer[peer].streamId, f.data).bridge, id);
      } else {
        AheadOf(env, base, s);
        BindSpares(env, r, peer, f.data, now, id);
        SparedThen(s, r, BindAndRelay(env, r, peer, f.data, now).bridge, id);
      }
    }
  }

  lemma AheadOf(env: Env, base: nat, s: Bridge)
    requires Sound(env, base, s)
    ensures Ahead(s.ids, s.boundAt)
  {
  }

  lemma ConnectSpares(env: Env, s: Bridge, f: Frame, now: nat, id: nat)
    requires Retired(s, id)
    ensures Spared(s, OnConnectFrame(env, s.(connectReceived := s.connectReceived + [f]), f, now).bridge, id)
  {
  }

  lemma {:induction false} CloseEachSpares(env: Env, s: Bridge, was: Connectors, removed: seq<nat>, id: nat)
    requires Retired(s, id) && id !in removed
    ensures Spared(s, CloseEach(env, s, was, removed), id)
    decreases |removed|
  {
    hide Spared;
    if removed == [] {
      SparedSame(s, s, id);
    } else {
      var s1 := SendConnect(env, s, PeerOf(was, removed[0]), CloseFrame(removed[0])).0;
      SendSpares(env, s, PeerOf(was, removed[0]), CloseFrame(removed[0]), id);
      SparedRetired(s, s1, id);
      CloseEachSpares(env, s1, was, removed[1..], id);
      SparedThen(s, s1, CloseEach(env, s1, was, removed[1..]), id);
    }
  }

  lemma SweepSpares(env: Env, base: nat, s: Bridge, now: nat, id: nat)
    requires LegalEnv(env) && Sound(env, base, s) && Retired(s, id)
    ensures Spared(s, OnSweep(env, s, now).bridge, id)
  {
    hide Spared, Sound, Remove, Scan, CloseEach;
    var order := env.order(s.attempts, s.connectors.byPeer.Keys);
    var expired := Scan(s.connectors, order, now, IDLE_TIMEOUT);
    var (c, removed) := Remove(s.connectors, expired, now, IDLE_TIMEOUT);
    TableOf(env, base, s);
    SweepExactly(s.connectors, expired, now, IDLE_TIMEOUT);
    var s1 := s.(connectors := c);
    SparedSame(s, s1, id);
    CloseEachSpares(env, s1, s.connectors, removed, id);
    SparedThen(s, s1, CloseEach(env, s1, s.connectors, removed), id);
  }

  lemma EventSpares(env: Env, base: nat, s: Bridge, e: Event, id: nat)
    requires LegalEnv(env) && Sound(env, base, s) && Retired(s, id)
    ensures Spared(s, Handle(env, s, e).bridge, id)
  {
    hide Spared, Sound, LegalEnv, OnListenFrame, OnConnectFrame, OnSweep;
    match e
    case ListenFrame(f, now) => ListenSpares(env, base, s, f, now, id);
    case ConnectFrame(f, now) => ConnectSpares(env, s, f, now, id);
    case Sweep(now) => SweepSpares(env, base, s, now, id);
    case _ => SparedSame(s, s, id);
  }

  lemma {:induction false} RetiredForever(env: Env, entry: ForwardPortEntry, events: seq<Event>, more: seq<Event>, id: nat)
    requires LegalEnv(env) && Retired(Run(env, entry, events).bridge, id)
    ensures Spared(Run(env, entry, events).bridge, Run(env, entry, events + more).bridge, id)
    decreases |more|
  {
    hide Spared, Sound, Conserved, Handle, LegalEnv;
    var s := Run(env, entry, events).bridge;
    if more == [] {
      assert events + more == events;
      SparedSame(s, s, id);
    } else {
      var n := |more| - 1;
      var all := events + more;
      assert all[..|all| - 1] == events + more[..n] && all[|all| - 1] == more[n];
      RetiredForever(env, entry, events, more[..n], id);
      RunKeeps(env, entry, events + more[..n]);
      var s1 := Run(env, entry, events + more[..n]).bridge;
      SparedRetired(s, s1, id);
      EventSpares(env, entry.droppedUdpDatagrams, s1, more[n], id);
      SparedThen(s, s1, Handle(env, s1, more[n]).bridge, id);
    }
  }

  lemma RunOneMore(env: Env, entry: ForwardPortEntry, events: seq<Event>, e: Event)
    requires LegalEnv(env)
    ensures Run(env, entry, events + [e])
         == if Run(env, entry, events).outcome.Continue? then Handle(env, Run(env, entry, events).bridge, e)
            else Run(env, entry, events)
  {
    assert (events + [e])[..|events|] == events;
  }

  /** Once the connect side has ended a stream that was bound, no frame goes out
      on it again, whatever happens in the rest of the epoch. */
  lemma EndedStreamIsNeverUsedAgain(
    env: Env, entry: ForwardPortEntry, events: seq<Event>, f: Frame, now: nat, more: seq<Event>, bind: nat, i: nat)
    requires LegalEnv(env) && EndsStream(env, f) && Run(env, entry, events).outcome.Continue?
    requires bind < |Run(env, entry, events).bridge.connectSent|
    requires Run(env, entry, events).bridge.connectSent[bind].frame.streamId == f.streamId
    requires |Run(env, entry, events).bridge.connectSent| <= i
    requires i < |Run(env, entry, events + [ConnectFrame(f, now)] + more).bridge.connectSent|
    ensures Run(env, entry, events + [ConnectFrame(f, now)] + more).bridge.connectSent[i].frame.streamId != f.streamId
  {
    hide Sound, Conserved, Handle, LegalEnv, Run, Logged;
    var s, base := Run(env, entry, events).bridge, entry.droppedUdpDatagrams;
    RunKeeps(env, entry, events);
    EndedStreamLeaves(env, base, s, f, now);
    EndedStreamBound(env, s, f, now);
    LoggedOf(env, base, s);
    UsedWasBound(s, bind);
    RunOneMore(env, entry, events, ConnectFrame(f, now));
    RetiredForever(env, entry, events + [ConnectFrame(f, now)], more, f.streamId);
  }

  lemma UsedWasBound(s: Bridge, i: nat)
    requires Logged(s.connectors.byStream, s.connectSent, s.boundAt) && i < |s.connectSent|
    ensures s.connectSent[i].frame.streamId in s.boundAt
  {
    assert UsedAfterBind(s.connectSent, s.boundAt, i);
  }

  lemma EndedStreamBound(env: Env, s: Bridge, f: Frame, now: nat)
    requires LegalEnv(env) && EndsStream(env, f)
    ensures Handle(env, s, ConnectFrame(f, now)).bridge.boundAt == s.boundAt
  {
  }

  // ----- What each event sends, and how it ends ---------------------------

  /** The datagram itself, as send number `n`: under pressure it is dropped and the epoch goes on. */
  function RelayEnd(env: Env, n: nat): Outcome {
    if env.net(n).Backpressure? then Continue else EndOf(env.net(n), Connect)
  }

  /** Every event ends the epoch exactly as its kind and its sends say. */
  lemma EventEnds(env: Env, s: Bridge, e: Event)
    requires LegalEnv(env)
    ensures Handle(env, s, e).outcome ==
              match e
              case ListenLost => Recover(Listen)
              case ConnectLost => Recover(Connect)
              case TerminalError => Failed
              case Cancel => Cancelled
              case Sweep(_) => Continue
              case ConnectFrame(f, _) =>
                if f.frameType.Error? && env.isFatal(f) then Failed
                else if f.frameType.UdpDatagram? && f.streamId in s.connectors.byStream then EndOf(env.net(s.attempts), Listen)
                else Continue
              case ListenFrame(f, _) =>
                match f.frameType
                case Close => Cancelled
                case Error =>
                  if env.isFatal(f) || (f.streamId == env.listenerStreamId && !env.isPressure(f)) then Failed else Continue
                case ForwardDrop => if env.dropReport(f).None? then Failed else Continue
                case UdpDatagram =>
                  if env.datagramPeer(f).None? then Failed
                  else if env.datagramPeer(f).value in s.connectors.byPeer then RelayEnd(env, s.attempts)
                  else if |s.connectors.byPeer| >= env.maxPeers then Continue
                  else if s.ids.exhausted then Failed
                  else if env.net(s.attempts).Sent? then RelayEnd(env, s.attempts + 1)
                  else EndOf(env.net(s.attempts), Connect)
                case _ => Continue
  {
    hide Touch, Insert, RemoveStream, Scan, Remove, CloseEach, Next, LegalEnv;
    IssuesItsNext(s.ids);
  }

  /** A datagram of the listen side: its peer is stamped with the time, or a new
      peer is entered under the next id if its bind request is taken. */
  ghost predicate TableAfterDatagram(env: Env, s: Bridge, peer: Peer, now: nat, c': Connectors) {
    var c := s.connectors;
    if peer in c.byPeer then c' == c.(byPeer := c.byPeer[peer := Connector(c.byPeer[peer].streamId, now)])
    else if |c.byPeer| < env.maxPeers && !s.ids.exhausted && env.net(s.attempts).Sent? then
      c' == Connectors(c.byPeer[peer := Connector(s.ids.next, now)], c.byStream[s.ids.next := peer])
    else c' == c
  }

  lemma ListenTable(env: Env, s: Bridge, f: Frame, now: nat)
    ensures var c' := OnListenFrame(env, s.(listenReceived := s.listenReceived + [f]), f, now).bridge.connectors;
            if f.frameType.UdpDatagram? && env.datagramPeer(f).Some?
            then TableAfterDatagram(env, s, env.datagramPeer(f).value, now, c')
            else c' == s.connectors
  {
    hide Next;
    IssuesItsNext(s.ids);
  }

  /** An answer stamps the peer of its stream. */
  lemma ConnectTable(env: Env, base: nat, s: Bridge, f: Frame, now: nat)
    requires Sound(env, base, s) && !EndsStream(env, f)
    ensures var c, c' := s.connectors, OnConnectFrame(env, s.(connectReceived := s.connectReceived + [f]), f, now).bridge.connectors;
            if f.frameType.UdpDatagram? && f.streamId in c.byStream then
              && c.byStream[f.streamId] in c.byPeer
              && c' == c.(byPeer := c.byPeer[c.byStream[f.streamId] := Connector(f.streamId, now)])
            else c' == c
  {
    hide Sound, RemoveStream, Inverse, Touch;
    if f.frameType.UdpDatagram? && f.streamId in s.connectors.byStream {
      TableOf(env, base, s);
      Stamped(s.connectors, f.streamId, now);
    }
  }

  lemma Stamped(c: Connectors, id: nat, now: nat)
    requires Inverse(c) && id in c.byStream
    ensures c.byStream[id] in c.byPeer
    ensures Touch(c, c.byStream[id], now) == c.(byPeer := c.byPeer[c.byStream[id] := Connector(id, now)])
  {
  }

  /** What each event but a sweep makes of the table of peers. */
  lemma TableExactly(env: Env, base: nat, s: Bridge, e: Event)
    requires LegalEnv(env) && Sound(env, base, s) && !e.Sweep?
    ensures var c, c' := s.connectors, Handle(env, s, e).bridge.connectors;
            if e.ListenFrame? && e.frame.frameType.UdpDatagram? && env.datagramPeer(e.frame).Some? then
              TableAfterDatagram(env, s, env.datagramPeer(e.frame).value, e.now, c')
            else if e.ConnectFrame? && e.frame.frameType.UdpDatagram? && e.frame.streamId in c.byStream then
              && c.byStream[e.frame.streamId] in c.byPeer
              && c' == c.(byPeer := c.byPeer[c.byStream[e.frame.streamId] := Connector(e.frame.streamId, e.now)])
            else if e.ConnectFrame? && EndsStream(env, e.frame) then Without(c, c', e.frame.streamId)
            else c' == c
  {
    hide Sound, LegalEnv, Without, TableAfterDatagram, OnListenFrame, OnConnectFrame;
    match e
    case ListenFrame(f, now) => ListenTable(env, s, f, now);
    case ConnectFrame(f, now) =>
      if EndsStream(env, f) {
        EndedStreamLeaves(env, base, s, f, now);
      } else {
        ConnectTable(env, base, s, f, now);
      }
    case _ =>
  }

  /** What a sweep sends: a close for each stream it removed, in the order of
      removal, as far as the connect side takes them. */
  function ClosesTaken(env: Env, n: nat, received: nat, was: Connectors, removed: seq<nat>): seq<Out>
    decreases |removed|
  {
    if removed == [] then []
    else
      var rest := ClosesTaken(env, n + 1, received, was, removed[1..]);
      if env.net(n).Sent? then [Out(received, PeerOf(was, removed[0]), CloseFrame(removed[0]))] + rest else rest
  }

  lemma {:induction false} CloseEachSends(env: Env, s: Bridge, was: Connectors, removed: seq<nat>)
    ensures var s' := CloseEach(env, s, was, removed);
            && s'.connectSent == s.connectSent + ClosesTaken(env, s.attempts, |s.listenReceived|, was, removed)
            && s'.listenSent == s.listenSent && s'.entry == s.entry && s'.ids == s.ids
            && s'.listenReceived == s.listenReceived && s'.connectReceived == s.connectReceived && s'.reported == s.reported
    decreases |removed|
  {
    if removed != [] {
      CloseEachSends(env, SendConnect(env, s, PeerOf(was, removed[0]), CloseFrame(removed[0])).0, was, removed[1..]);
    }
  }

  /** A sweep tries to close exactly the streams of the peers it finds idle for
      a minute or more, each once. */
  lemma SweepCloses(env: Env, base: nat, s: Bridge, now: nat) returns (removed: seq<nat>)
    requires LegalEnv(env) && Sound(env, base, s)
    ensures var s' := Handle(env, s, Sweep(now)).bridge;
            && s'.connectSent == s.connectSent + ClosesTaken(env, s.attempts, |s.listenReceived|, s.connectors, removed)
            && s'.listenSent == s.listenSent
            && (forall i, j :: 0 <= i < j < |removed| ==> removed[i] != removed[j])
            && (forall p <- s.connectors.byPeer ::
                  s.connectors.byPeer[p].streamId in removed <==> now >= s.connectors.byPeer[p].lastUsed + 60_000_000_000)
            && (forall id :: id in removed ==> id in s.connectors.byStream)
  {
    hide Sound, Remove, Scan, CloseEach;
    var order := env.order(s.attempts, s.connectors.byPeer.Keys);
    var expired := Scan(s.connectors, order, now, IDLE_TIMEOUT);
    var (c, ids) := Remove(s.connectors, expired, now, IDLE_TIMEOUT);
    removed := ids;
    TableOf(env, base, s);
    WholeSweep(s.connectors, order, now, IDLE_TIMEOUT);
    SweepExactly(s.connectors, expired, now, IDLE_TIMEOUT);
    CloseEachSends(env, s.(connectors := c), s.connectors, removed);
  }

  // ----- What the counters stand for --------------------------------------

  /** The losses that one frame of the listen side reports, of streams or of datagrams. */
  function ReportOf(env: Env, f: Frame, tcp: bool): nat {
    match f.frameType
    case Error => if !tcp && !env.isFatal(f) && f.streamId == env.listenerStreamId && env.isPressure(f) then 1 else 0
    case ForwardDrop =>
      var report := env.dropReport(f);
      if report.None? || report.value.tcp != tcp then 0 else if report.value.count == 0 then 1 else report.value.count
    case _ => 0
  }

  function Reports(env: Env, received: seq<Frame>, tcp: bool): nat {
    if received == [] then 0
    else Reports(env, received[..|received| - 1], tcp) + ReportOf(env, received[|received| - 1], tcp)
  }

  /** The errors of single streams that the connect side reports. */
  function Errors(env: Env, received: seq<Frame>): nat {
    if received == [] then 0
    else
      var last := received[|received| - 1];
      Errors(env, received[..|received| - 1]) + (if last.frameType.Error? && !env.isFatal(last) then 1 else 0)
  }

  lemma OneMoreReport(env: Env, received: seq<Frame>, f: Frame, tcp: bool)
    ensures Reports(env, received + [f], tcp) == Reports(env, received, tcp) + ReportOf(env, f, tcp)
    ensures Errors(env, received + [f]) == Errors(env, received) + (if f.frameType.Error? && !env.isFatal(f) then 1 else 0)
  {
    assert (received + [f])[..|received|] == received;
  }

  /** The reports so far are counted, and nothing else of the entry has changed. */
  ghost predicate Accounted(env: Env, entry: ForwardPortEntry, s: Bridge) {
    && s.reported == Reports(env, s.listenReceived, false) + Errors(env, s.connectReceived)
    && s.entry == entry.(
         droppedTcpStreams := Counted(entry.droppedTcpStreams, Reports(env, s.listenReceived, true)),
         droppedUdpDatagrams := s.entry.droppedUdpDatagrams)
  }

  lemma ListenAccounted(env: Env, entry: ForwardPortEntry, s: Bridge, f: Frame, now: nat)
    requires Accounted(env, entry, s)
    ensures Accounted(env, entry, OnListenFrame(env, s.(listenReceived := s.listenReceived + [f]), f, now).bridge)
  {
    hide Reports, Errors, Counted, OnListenDatagram;
    OneMoreReport(env, s.listenReceived, f, false);
    OneMoreReport(env, s.listenReceived, f, true);
    CountedMore(entry.droppedTcpStreams, Reports(env, s.listenReceived, true), ReportOf(env, f, true));
    CountedNone(Counted(entry.droppedTcpStreams, Reports(env, s.listenReceived, true)));
    DatagramAccounted(env, s.(listenReceived := s.listenReceived + [f]), f, now);
  }

  /** A datagram of the listen side changes at most its own counter. */
  lemma DatagramAccounted(env: Env, s: Bridge, f: Frame, now: nat)
    ensures var s' := OnListenDatagram(env, s, f, now).bridge;
            && s'.reported == s.reported
            && s'.listenReceived == s.listenReceived && s'.connectReceived == s.connectReceived
            && s'.entry == s.entry.(droppedUdpDatagrams := s'.entry.droppedUdpDatagrams)
  {
    hide Touch, Insert, Next, Counted;
  }

  lemma CountedNone(n: nat)
    ensures Counted(n, 0) == n
  {
  }

  lemma ConnectAccounted(env: Env, entry: ForwardPortEntry, s: Bridge, f: Frame, now: nat)
    requires Accounted(env, entry, s)
    ensures Accounted(env, entry, OnConnectFrame(env, s.(connectReceived := s.connectReceived + [f]), f, now).bridge)
  {
    OneMoreReport(env, s.connectReceived, f, false);
    hide Reports, Errors, Counted, Touch, RemoveStream;
  }

  lemma SweepAccounted(env: Env, entry: ForwardPortEntry, s: Bridge, now: nat)
    requires LegalEnv(env) && Accounted(env, entry, s)
    ensures Accounted(env, entry, OnSweep(env, s, now).bridge)
  {
    hide Remove, Scan, CloseEach;
    var order := env.order(s.attempts, s.connectors.byPeer.Keys);
    var (c, removed) := Remove(s.connectors, Scan(s.connectors, order, now, IDLE_TIMEOUT), now, IDLE_TIMEOUT);
    CloseEachSends(env, s.(connectors := c), s.connectors, removed);
  }

  lemma {:induction false} RunAccounted(env: Env, entry: ForwardPortEntry, events: seq<Event>)
    requires LegalEnv(env)
    ensures Accounted(env, entry, Run(env, entry, events).bridge)
  {
    if events != [] {
      var before, e := events[..|events| - 1], events[|events| - 1];
      RunAccounted(env, entry, before);
      hide Accounted, LegalEnv, OnListenFrame, OnConnectFrame, OnSweep;
      var s := Run(env, entry, before).bridge;
      match e
      case ListenFrame(f, now) => ListenAccounted(env, entry, s, f, now);
      case ConnectFrame(f, now) => ConnectAccounted(env, entry, s, f, now);
      case Sweep(now) => SweepAccounted(env, entry, s, now);
      case _ =>
    }
  }

  /** In every run the drop counters of the entry, 64-bit counters that stop at
      their maximum, are what the frames received and the datagrams not relayed
      add up to, and nothing else of the entry changes. */
  lemma DropCountersAddUp(env: Env, entry: ForwardPortEntry, events: seq<Event>)
    requires LegalEnv(env) && entry.droppedTcpStreams <= U64_MAX && entry.droppedUdpDatagrams <= U64_MAX
    ensures var s := Run(env, entry, events).bridge;
            && Datagrams(s.connectSent) <= Offered(env, s.listenReceived)
            && s.entry == entry.(
                 droppedTcpStreams := Capped(entry.droppedTcpStreams + Reports(env, s.listenReceived, true)),
                 droppedUdpDatagrams := Capped(entry.droppedUdpDatagrams
                   + (Offered(env, s.listenReceived) - Datagrams(s.connectSent))
                   + Reports(env, s.listenReceived, false) + Errors(env, s.connectReceived)))
  {
    hide Run, LegalEnv, Datagrams, Offered, Reports, Errors, Accounted, Counted;
    RunAccounted(env, entry, events);
    DatagramsConserved(env, entry, events);
    AccountedPlainly(env, entry, Run(env, entry, events).bridge);
  }

  lemma AccountedPlainly(env: Env, entry: ForwardPortEntry, s: Bridge)
    requires Accounted(env, entry, s) && entry.droppedTcpStreams <= U64_MAX
    ensures s.reported == Reports(env, s.listenReceived, false) + Errors(env, s.connectReceived)
    ensures s.entry == entry.(
              droppedTcpStreams := Capped(entry.droppedTcpStreams + Reports(env, s.listenReceived, true)),
              droppedUdpDatagrams := s.entry.droppedUdpDatagrams)
  {
    hide Reports, Errors;
  }

  // ----- Which streams are bound ------------------------------------------

  /** At most one id was taken, and no stream but that one was bound. */
  ghost predicate TookOneId(s: Bridge, s': Bridge) {
    || (s'.ids == s.ids && s'.boundAt == s.boundAt)
    || (s'.ids == Next(s.ids).1 && s'.boundAt == s.boundAt)
    || (s'.ids == Next(s.ids).1 && Next(s.ids).0.Some? && s'.boundAt.Keys == s.boundAt.Keys + {Next(s.ids).0.value})
  }

  lemma DatagramIds(env: Env, s: Bridge, f: Frame, now: nat)
    ensures TookOneId(s, OnListenDatagram(env, s, f, now).bridge)
  {
    hide TookOneId, BindAndRelay, Relay, Touch;
    if env.datagramPeer(f).Some? {
      var peer := env.datagramPeer(f).value;
      if peer in s.connectors.byPeer {
        RelayIds(env, s.(connectors := Touch(s.connectors, peer, now)), peer, s.connectors.byPeer[peer].streamId, f.data);
        NoIdTaken(s, Relay(env, s.(connectors := Touch(s.connectors, peer, now)), peer, s.connectors.byPeer[peer].streamId, f.data).bridge);
      } else {
        BindIds(env, s, peer, f.data, now);
      }
    } else {
      NoIdTaken(s, s);
    }
  }

  lemma NoIdTaken(s: Bridge, s': Bridge)
    requires s'.ids == s.ids && s'.boundAt == s.boundAt
    ensures TookOneId(s, s')
  {
    hide Next;
  }

  lemma RelayIds(env: Env, s: Bridge, peer: Peer, streamId: nat, data: seq<byte>)
    ensures var s' := Relay(env, s, peer, streamId, data).bridge; s'.ids == s.ids && s'.boundAt == s.boundAt
  {
    hide Counted;
  }

  lemma BindIds(env: Env, s: Bridge, peer: Peer, data: seq<byte>, now: nat)
    ensures TookOneId(s, BindAndRelay(env, s, peer, data, now).bridge)
  {
    hide Next, Relay, Insert, Counted;
    var (id, ids) := Next(s.ids);
    if id.Some? {
      var (s2, r) := SendConnect(env, s.(ids := ids), peer, Frame(UdpBind, 0, id.value, env.bindMeta, []));
      if r.Sent? {
        RelayIds(env, Bound(s2, peer, id.value, now), peer, id.value, data);
      }
    }
  }

  lemma ListenIds(env: Env, s: Bridge, f: Frame, now: nat)
    ensures TookOneId(s, OnListenFrame(env, s.(listenReceived := s.listenReceived + [f]), f, now).bridge)
  {
    hide Next, OnListenDatagram, Counted;
    DatagramIds(env, s.(listenReceived := s.listenReceived + [f]), f, now);
  }

  lemma ConnectIds(env: Env, s: Bridge, f: Frame, now: nat)
    ensures TookOneId(s, OnConnectFrame(env, s.(connectReceived := s.connectReceived + [f]), f, now).bridge)
  {
    hide Next, Touch, RemoveStream, Counted;
  }

  lemma SweepIds(env: Env, s: Bridge, now: nat)
    requires LegalEnv(env)
    ensures TookOneId(s, OnSweep(env, s, now).bridge)
  {
    hide Next, Remove, Scan, CloseEach;
    var order := env.order(s.attempts, s.connectors.byPeer.Keys);
    var (c, removed) := Remove(s.connectors, Scan(s.connectors, order, now, IDLE_TIMEOUT), now, IDLE_TIMEOUT);
    CloseEachSends(env, s.(connectors := c), s.connectors, removed);
    CloseEachBinds(env, s.(connectors := c), s.connectors, removed);
  }

  lemma IdsStep(env: Env, s: Bridge, e: Event)
    requires LegalEnv(env)
    ensures TookOneId(s, Handle(env, s, e).bridge)
  {
    hide LegalEnv, OnListenFrame, OnConnectFrame, OnSweep, Next;
    match e
    case ListenFrame(f, now) => ListenIds(env, s, f, now);
    case ConnectFrame(f, now) => ConnectIds(env, s, f, now);
    case Sweep(now) => SweepIds(env, s, now);
    case _ =>
  }

  lemma {:induction false} CloseEachBinds(env: Env, s: Bridge, was: Connectors, removed: seq<nat>)
    ensures CloseEach(env, s, was, removed).boundAt == s.boundAt
    decreases |removed|
  {
    if removed != [] {
      CloseEachBinds(env, SendConnect(env, s, PeerOf(was, removed[0]), CloseFrame(removed[0])).0, was, removed[1..]);
    }
  }

  /** The streams of a run are bound under the ids 3, 5, 7, ... */
  lemma {:induction false} StreamsAreNumbered(env: Env, entry: ForwardPortEntry, events: seq<Event>)
    requires LegalEnv(env)
    ensures var s := Run(env, entry, events).bridge; Numbered(3, s.ids, s.boundAt.Keys)
    ensures forall id <- Run(env, entry, events).bridge.boundAt :: 3 <= id && id % 2 == 1 && id + 2 <= U32_MAX
  {
    hide Numbered, Handle, Next;
    if events == [] {
      NumberedAtFirst(3);
      assert Run(env, entry, events).bridge.boundAt.Keys == {};
    } else {
      var before, e := events[..|events| - 1], events[|events| - 1];
      StreamsAreNumbered(env, entry, before);
      var s := Run(env, entry, before).bridge;
      IdsStep(env, s, e);
      NumberedNext(3, s.ids, s.boundAt.Keys);
    }
    var s := Run(env, entry, events).bridge;
    forall id <- s.boundAt
      ensures 3 <= id && id % 2 == 1 && id + 2 <= U32_MAX
    {
      NumberedIds(3, s.ids, s.boundAt.Keys, id);
    }
  }
}
