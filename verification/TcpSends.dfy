/** What each event of the TCP bridge sends, frame by frame, and how it ends,
    told by the state before it and by how the tunnels answer its sends. */
module TcpSends {
  import opened Common
  import opened Frames
  import opened StreamIds
  import opened ForwardEntries
  import opened TcpBridge
  import opened TcpInvariants
  import opened TcpEndings

  /** Those of `fs` that are taken when they are sent one after the other,
      beginning with send number `n`. */
  function Taken(env: Env, n: nat, fs: seq<Frame>): seq<Frame>
    decreases |fs|
  {
    if fs == [] then []
    else (if env.net(n).Sent? then [fs[0]] else []) + Taken(env, n + 1, fs[1..])
  }

  /** What an event added to the two logs. */
  ghost predicate Adds(s: Bridge, s': Bridge, toListen: seq<Frame>, toConnect: seq<Frame>) {
    s'.listenSent == s.listenSent + toListen && s'.connectSent == s.connectSent + toConnect
  }

  lemma OneTaken(env: Env, n: nat, f: Frame)
    ensures Taken(env, n, [f]) == if env.net(n).Sent? then [f] else []
  {
  }

  // ----- One side ends a stream -------------------------------------------

  /** A close or an error of a listen stream closes the connect stream of its pair. */
  lemma ListenEndSends(env: Env, s: Bridge, f: Frame, c: nat)
    requires LegalEnv(env) && Paired(s.listenToConnect, s.connectStreams)
    requires c in s.connectStreams && ClosedByPeer(env, s, ListenFrame(f), c)
    ensures var step := Handle(env, s, ListenFrame(f));
            && Adds(s, step.bridge, [], Taken(env, s.attempts, [CloseFrame(c)]))
            && step.outcome == if f.frameType.Close? then Continue else EndOf(env.net(s.attempts), Connect)
  {
    hide LegalEnv;
    OneTaken(env, s.attempts, CloseFrame(c));
    assert s.listenToConnect[f.streamId] == c;
  }

  /** A close or an error of a connect stream closes the listen stream of its
      pair; after an error a lost listen tunnel is left to its reader to find. */
  lemma ConnectEndSends(env: Env, s: Bridge, f: Frame, c: nat)
    requires LegalEnv(env)
    requires c in s.connectStreams && ClosedByPeer(env, s, ConnectFrame(f), c)
    ensures var step := Handle(env, s, ConnectFrame(f));
            && Adds(s, step.bridge, Taken(env, s.attempts, [CloseFrame(s.connectStreams[c].listenStreamId)]), [])
            && step.outcome == if f.frameType.Error? && env.net(s.attempts).Retryable? then Continue
                               else EndOf(env.net(s.attempts), Listen)
  {
    hide LegalEnv;
    OneTaken(env, s.attempts, CloseFrame(s.connectStreams[c].listenStreamId));
  }

  // ----- Both sides have finished -----------------------------------------

  /** The sends of a pair that completes: the connect stream is closed with send
      number `n`, then the listen stream, unless the first close was refused. */
  ghost predicate Completed(env: Env, s: Bridge, step: Step, c: nat, n: nat, toListen: seq<Frame>, toConnect: seq<Frame>)
    requires c in s.connectStreams
  {
    var l, first := s.connectStreams[c].listenStreamId, env.net(n);
    && Adds(s, step.bridge,
            toListen + (if first.Sent? || first.Retryable? then Taken(env, n + 1, [CloseFrame(l)]) else []),
            toConnect + Taken(env, n, [CloseFrame(c)]))
    && step.outcome == if first.Backpressure? || first.Fatal? then Failed
                       else if first.Retryable? && env.net(n + 1).Sent? then Recover(Connect)
                       else EndOf(env.net(n + 1), Listen)
  }

  lemma FullyEofSends(env: Env, s: Bridge, c: nat)
    requires c in s.connectStreams && s.connectStreams[c].listenEof && s.connectStreams[c].connectEof
    ensures Completed(env, s, ClosePairIfFullyEof(env, s, c), c, s.attempts, [], [])
  {
    OneTaken(env, s.attempts, CloseFrame(c));
    OneTaken(env, s.attempts + 1, CloseFrame(s.connectStreams[c].listenStreamId));
  }

  lemma CompletedLater(env: Env, s: Bridge, s1: Bridge, step: Step, c: nat, n: nat, toListen: seq<Frame>, toConnect: seq<Frame>)
    requires c in s.connectStreams && c in s1.connectStreams
    requires s1.connectStreams[c].listenStreamId == s.connectStreams[c].listenStreamId
    requires Adds(s, s1, toListen, toConnect)
    requires Completed(env, s1, step, c, n, [], [])
    ensures Completed(env, s, step, c, n, toListen, toConnect)
  {
    hide Taken;
  }

  /** The second half-close of a pair is passed on, and then both its streams are closed. */
  lemma CompletionSends(env: Env, s: Bridge, e: Event, c: nat)
    requires LegalEnv(env) && Paired(s.listenToConnect, s.connectStreams)
    requires c in s.connectStreams && Completes(env, s, e, c)
    ensures var l := s.connectStreams[c].listenStreamId;
            var step := Handle(env, s, e);
            if e.ConnectFrame? then
              Completed(env, s, step, c, s.attempts + 1, [Frame(TcpEof, 0, l, [], [])], [])
            else if s.connectStreams[c].ready then
              Completed(env, s, step, c, s.attempts + 1, [], [Frame(TcpEof, 0, c, [], [])])
            else
              Completed(env, s, step, c, s.attempts, [], [])
  {
    hide LegalEnv, Completed, ClosePairIfFullyEof, FitsPending, HasRoom;
    var step := Handle(env, s, e);
    if e.ConnectFrame? {
      var s1 := s.(connectReceived := s.connectReceived + [e.frame],
                   connectStreams := s.connectStreams[c := s.connectStreams[c].(connectEof := true)]);
      var s2 := SendBack(env, s1, c, e.frame).bridge;
      FullyEofSends(env, s2, c);
      CompletedLater(env, s, s2, step, c, s.attempts + 1, [Frame(TcpEof, 0, s.connectStreams[c].listenStreamId, [], [])], []);
    } else {
      assert s.listenToConnect[e.frame.streamId] == c;
      var f := Frame(TcpEof, 0, c, [], []);
      var s1 := MarkListenEof(s.(listenReceived := s.listenReceived + [e.frame]), c);
      RoomIsFits(env, s, c, f);
      assert FitsPending(env, s1, c, f) == FitsPending(env, s, c, f) by {
        RoomSame(env, s, s1, c, f);
      }
      if s.connectStreams[c].ready {
        var s2 := SendConnect(env, s1, f).0;
        FullyEofSends(env, s2, c);
        CompletedLater(env, s, s2, step, c, s.attempts + 1, [], [f]);
      } else {
        var s2 := Enqueue(s1, c, f);
        FullyEofSends(env, s2, c);
        CompletedLater(env, s, s2, step, c, s.attempts, [], []);
      }
    }
  }

  lemma RoomSame(env: Env, s: Bridge, s': Bridge, c: nat, f: Frame)
    requires c in s.connectStreams && c in s'.connectStreams && s'.totalBytes == s.totalBytes
    requires s'.connectStreams[c].pendingBytes == s.connectStreams[c].pendingBytes
    ensures FitsPending(env, s', c, f) == FitsPending(env, s, c, f)
  {
  }

  // ----- Every pair is given up -------------------------------------------

  /** The closes of the listen streams of `streams`, in walking order. */
  function ListenCloses(streams: map<nat, TcpConnectStream>, order: seq<nat>): seq<Frame>
    requires forall c :: c in order ==> c in streams
    decreases |order|
  {
    if order == [] then [] else [CloseFrame(streams[order[0]].listenStreamId)] + ListenCloses(streams, order[1..])
  }

  lemma {:induction false} CloseEachSends(
    env: Env, s: Bridge, streams: map<nat, TcpConnectStream>, order: seq<nat>, first: Option<SendResult>)
    requires forall c :: c in order ==> c in streams
    ensures var (s', result) := CloseEach(env, s, streams, order, first);
            && Adds(s, s', Taken(env, s.attempts, ListenCloses(streams, order)), [])
            && result == if first.Some? then first else FirstFailure(env, s.attempts, |order|)
    decreases |order|
  {
    hide CloseEach, ListenCloses, Taken, FirstFailure, Adds, SendListen;
    if order == [] {
      CloseNone(env, s, streams, first);
    } else {
      var l := streams[order[0]].listenStreamId;
      var s2 := CloseOne(env, s, streams, order, first);
      var r := env.net(s.attempts);
      var first' := if first.None? && !r.Sent? then Some(r) else first;
      CloseEachSends(env, s2, streams, order[1..], first');
      var one, rest := if r.Sent? then [CloseFrame(l)] else [], ListenCloses(streams, order[1..]);
      TakenFirst(env, s.attempts, CloseFrame(l), rest);
      FailureFirst(env, s.attempts, |order|);
      AddsThen(s, s2, CloseEach(env, s2, streams, order[1..], first').0, one, Taken(env, s2.attempts, rest), [], []);
    }
  }

  lemma CloseNone(env: Env, s: Bridge, streams: map<nat, TcpConnectStream>, first: Option<SendResult>)
    ensures CloseEach(env, s, streams, [], first) == (s, first)
    ensures Taken(env, s.attempts, ListenCloses(streams, [])) == [] && FirstFailure(env, s.attempts, 0) == None
    ensures Adds(s, s, [], [])
  {
  }

  /** One turn of the loop. */
  lemma CloseOne(env: Env, s: Bridge, streams: map<nat, TcpConnectStream>, order: seq<nat>, first: Option<SendResult>)
    returns (s2: Bridge)
    requires order != [] && forall c :: c in order ==> c in streams
    ensures s2.attempts == s.attempts + 1
    ensures var l, r := streams[order[0]].listenStreamId, env.net(s.attempts);
            && Adds(s, s2, if r.Sent? then [CloseFrame(l)] else [], [])
            && CloseEach(env, s, streams, order, first)
               == CloseEach(env, s2, streams, order[1..], if first.None? && !r.Sent? then Some(r) else first)
            && ListenCloses(streams, order) == [CloseFrame(l)] + ListenCloses(streams, order[1..])
  {
    var l := streams[order[0]].listenStreamId;
    var s1 := s.(totalBytes := SaturatingSub(s.totalBytes, streams[order[0]].pendingBytes));
    s2 := CloseListenStream(env, s1, l).0;
  }

  lemma AddsThen(s: Bridge, s1: Bridge, s2: Bridge, a: seq<Frame>, a': seq<Frame>, b: seq<Frame>, b': seq<Frame>)
    requires Adds(s, s1, a, b) && Adds(s1, s2, a', b')
    ensures Adds(s, s2, a + a', b + b')
  {
    assert s.listenSent + a + a' == s.listenSent + (a + a');
    assert s.connectSent + b + b' == s.connectSent + (b + b');
  }

  lemma FailureFirst(env: Env, n: nat, m: nat)
    requires m > 0
    ensures FirstFailure(env, n, m) == if env.net(n).Sent? then FirstFailure(env, n + 1, m - 1) else Some(env.net(n))
  {
  }

  lemma TakenFirst(env: Env, n: nat, f: Frame, fs: seq<Frame>)
    ensures Taken(env, n, [f] + fs) == (if env.net(n).Sent? then [f] else []) + Taken(env, n + 1, fs)
  {
    assert ([f] + fs)[1..] == fs;
  }

  /** Every listen stream is closed, beginning with send number `n`, and the
      connect tunnel is recovered, unless the first close to fail is refused. */
  ghost predicate GivenUp(env: Env, s: Bridge, step: Step, n: nat, toListen: seq<Frame>, toConnect: seq<Frame>)
    requires LegalEnv(env)
  {
    var order := env.order(n, s.connectStreams.Keys);
    var failure := FirstFailure(env, n, |s.connectStreams|);
    && Adds(s, step.bridge, toListen + Taken(env, n, ListenCloses(s.connectStreams, order)), toConnect)
    && step.outcome == if failure.Some? && !failure.value.Retryable? then Failed else Recover(Connect)
  }

  lemma CloseActiveSends(env: Env, s: Bridge)
    requires LegalEnv(env)
    ensures GivenUp(env, s, CloseActiveThen(env, s, Recover(Connect)), s.attempts, [], [])
  {
    hide LegalEnv, Enumerates, CloseEach, Taken, ListenCloses, FirstFailure;
    var s1 := s.(connectStreams := map[], listenToConnect := map[]);
    var order := env.order(s.attempts, s.connectStreams.Keys);
    WalkingOrder(env, s.attempts, s.connectStreams);
    CloseEachSends(env, s1, s.connectStreams, order, None);
  }

  lemma WalkingOrder(env: Env, n: nat, streams: map<nat, TcpConnectStream>)
    requires LegalEnv(env)
    ensures forall c :: c in env.order(n, streams.Keys) ==> c in streams
    ensures |env.order(n, streams.Keys)| == |streams|
  {
    assert Enumerates(env.order(n, streams.Keys), streams.Keys);
    OrderSize(env.order(n, streams.Keys), streams.Keys);
    assert |streams.Keys| == |streams|;
  }

  lemma {:induction false} OrderSize(order: seq<nat>, keys: set<nat>)
    requires Enumerates(order, keys)
    ensures |order| == |keys|
    decreases |order|
  {
    if order == [] {
      assert keys == {} by {
        assert forall k :: k in keys ==> k in order;
      }
    } else {
      var rest := order[1..];
      assert order == [order[0]] + rest;
      forall k
        ensures k in rest <==> k in keys - {order[0]}
      {
        if k in rest {
          var i :| 0 <= i < |rest| && rest[i] == k;
          assert order[i + 1] == k && order[0] != order[i + 1];
        }
      }
      OrderSize(rest, keys - {order[0]});
    }
  }

  lemma GivenUpLater(env: Env, s: Bridge, s1: Bridge, step: Step, n: nat, toListen: seq<Frame>, toConnect: seq<Frame>, more: seq<Frame>, all: seq<Frame>)
    requires LegalEnv(env)
    requires SameListenIds(s.connectStreams, s1.connectStreams)
    requires Adds(s, s1, toListen, toConnect)
    requires GivenUp(env, s1, step, n, [], more)
    requires all == toConnect + more
    ensures GivenUp(env, s, step, n, toListen, all)
  {
    hide LegalEnv, Enumerates, Taken, ListenCloses, FirstFailure, Adds;
    var order := env.order(n, s.connectStreams.Keys);
    WalkingOrder(env, n, s.connectStreams);
    WalkingOrder(env, n, s1.connectStreams);
    SameCloses(s.connectStreams, s1.connectStreams, order);
    var closes := Taken(env, n, ListenCloses(s.connectStreams, order));
    assert [] + closes == closes;
    AddsThen(s, s1, step.bridge, toListen, closes, toConnect, more);
  }

  ghost predicate SameListenIds(a: map<nat, TcpConnectStream>, b: map<nat, TcpConnectStream>) {
    a.Keys == b.Keys && forall c <- a :: a[c].listenStreamId == b[c].listenStreamId
  }

  lemma {:induction false} SameCloses(a: map<nat, TcpConnectStream>, b: map<nat, TcpConnectStream>, order: seq<nat>)
    requires forall c :: c in order ==> c in a && c in b && a[c].listenStreamId == b[c].listenStreamId
    ensures ListenCloses(a, order) == ListenCloses(b, order)
    decreases |order|
  {
    if order != [] {
      SameCloses(a, b, order[1..]);
    }
  }

  /** Losing the connect tunnel closes every listen stream. */
  lemma ConnectLossSends(env: Env, s: Bridge)
    requires LegalEnv(env)
    ensures GivenUp(env, s, Handle(env, s, ConnectLost), s.attempts, [], [])
  {
    hide LegalEnv, GivenUp, CloseActive;
    CloseActiveSends(env, s);
  }

  // ----- Payload ----------------------------------------------------------

  /** Pressure: with send number `n` the connect stream of the pair is closed,
      then its listen stream, and the epoch goes on whatever becomes of them. */
  ghost predicate Pressed(env: Env, s: Bridge, step: Step, c: nat, n: nat, toConnect: seq<Frame>)
    requires c in s.connectStreams
  {
    && Adds(s, step.bridge, Taken(env, n + 1, [CloseFrame(s.connectStreams[c].listenStreamId)]),
            toConnect + Taken(env, n, [CloseFrame(c)]))
    && step.outcome.Continue?
  }

  lemma PressureSends(env: Env, s: Bridge, c: nat)
    requires c in s.connectStreams
    ensures Pressed(env, s, ClosePair(env, s, c, ConnectPressure), c, s.attempts, [])
  {
    OneTaken(env, s.attempts, CloseFrame(c));
    OneTaken(env, s.attempts + 1, CloseFrame(s.connectStreams[c].listenStreamId));
  }

  /** A frame for the pair of `c` whose stream is ready is tried with send number `n`. */
  ghost predicate Relays(env: Env, s: Bridge, step: Step, c: nat, f: Frame)
    requires LegalEnv(env) && c in s.connectStreams
  {
    var n := s.attempts;
    match env.net(n)
    case Sent => Adds(s, step.bridge, [], [f]) && step.outcome.Continue?
    case Backpressure => Pressed(env, s, step, c, n + 1, [])
    case Retryable => GivenUp(env, s, step, n + 1, [], [])
    case Fatal => Adds(s, step.bridge, [], []) && step.outcome.Failed?
  }

  /** What becomes of a payload frame for a live pair: it is sent, or queued
      while the stream is not confirmed, or the pair is dropped. */
  ghost predicate Passes(env: Env, s: Bridge, step: Step, c: nat, f: Frame)
    requires LegalEnv(env) && c in s.connectStreams
  {
    if s.connectStreams[c].ready then Relays(env, s, step, c, f)
    else if HasRoom(env, s, c, f) then Adds(s, step.bridge, [], []) && step.outcome.Continue?
    else Pressed(env, s, step, c, s.attempts, [])
  }

  lemma QueueOrSendSends(env: Env, s: Bridge, c: nat, f: Frame)
    requires LegalEnv(env) && c in s.connectStreams
    ensures Passes(env, s, QueueOrSend(env, s, c, f), c, f)
  {
    hide LegalEnv, CloseActive, GivenUp, Taken, FitsPending, HasRoom;
    RoomIsFits(env, s, c, f);
    PressureSends(env, s, c);
    var s1 := SendConnect(env, s, f).0;
    PressureSends(env, s1, c);
    CloseActiveSends(env, s1);
    if env.net(s.attempts).Retryable? {
      GivenUpLater(env, s, s1, CloseActiveThen(env, s1, Recover(Connect)), s.attempts + 1, [], [], [], []);
    }
  }

  lemma PassesEarlier(env: Env, s: Bridge, s1: Bridge, step: Step, c: nat, f: Frame)
    requires LegalEnv(env) && c in s.connectStreams && c in s1.connectStreams
    requires s1.connectStreams.Keys == s.connectStreams.Keys && s1.attempts == s.attempts
    requires forall d <- s.connectStreams ::
               && s1.connectStreams[d].listenStreamId == s.connectStreams[d].listenStreamId
               && s1.connectStreams[d].ready == s.connectStreams[d].ready
               && s1.connectStreams[d].pendingBytes == s.connectStreams[d].pendingBytes
    requires s1.totalBytes == s.totalBytes && Adds(s, s1, [], [])
    requires Passes(env, s1, step, c, f)
    ensures Passes(env, s, step, c, f)
  {
    hide LegalEnv, GivenUp, Taken;
    if env.net(s.attempts).Retryable? && s.connectStreams[c].ready {
      GivenUpLater(env, s, s1, step, s.attempts + 1, [], [], [], []);
    }
  }

  lemma ListenHandled(env: Env, s: Bridge, f: Frame)
    requires LegalEnv(env) && IsPayload(f)
    ensures var r := s.(listenReceived := s.listenReceived + [f]);
            Handle(env, s, ListenFrame(f)) == if f.frameType.TcpData? then OnListenData(env, r, f) else OnListenEof(env, r, f)
  {
    hide LegalEnv, OnListenData, OnListenEof;
  }

  lemma ListenDataSends(env: Env, s: Bridge, f: Frame, c: nat)
    requires LegalEnv(env) && f.frameType.TcpData? && c in s.connectStreams
    requires f.streamId in s.listenToConnect && s.listenToConnect[f.streamId] == c
    ensures Passes(env, s, Handle(env, s, ListenFrame(f)), c, f.(streamId := c))
  {
    hide LegalEnv, Passes, QueueOrSend;
    var r := s.(listenReceived := s.listenReceived + [f]);
    QueueOrSendSends(env, r, c, f.(streamId := c));
    PassesEarlier(env, s, r, QueueOrSend(env, r, c, f.(streamId := c)), c, f.(streamId := c));
  }

  lemma ListenEofSends(env: Env, s: Bridge, f: Frame, c: nat)
    requires LegalEnv(env) && f.frameType.TcpEof? && c in s.connectStreams
    requires f.streamId in s.listenToConnect && s.listenToConnect[f.streamId] == c
    requires s.connectStreams[c].listenStreamId == f.streamId
    requires !Completes(env, s, ListenFrame(f), c)
    ensures Passes(env, s, Handle(env, s, ListenFrame(f)), c, Frame(TcpEof, 0, c, [], []))
  {
    hide LegalEnv, Passes, QueueOrSend, Completes, ClosePairIfFullyEof, Handle;
    ListenHandled(env, s, f);
    var g := Frame(TcpEof, 0, c, [], []);
    var s1 := MarkListenEof(s.(listenReceived := s.listenReceived + [f]), c);
    QueueOrSendSends(env, s1, c, g);
    PassesEarlier(env, s, s1, QueueOrSend(env, s1, c, g), c, g);
    NotCompleted(env, s, s1, f, c);
  }

  /** Payload of the listen side, unless it completes its pair. */
  lemma ListenPayloadSends(env: Env, s: Bridge, f: Frame, c: nat)
    requires LegalEnv(env) && Paired(s.listenToConnect, s.connectStreams)
    requires IsPayload(f) && c in s.connectStreams && f.streamId == s.connectStreams[c].listenStreamId
    requires !Completes(env, s, ListenFrame(f), c)
    ensures Passes(env, s, Handle(env, s, ListenFrame(f)), c,
                   if f.frameType.TcpEof? then Frame(TcpEof, 0, c, [], []) else f.(streamId := c))
  {
    assert s.listenToConnect[f.streamId] == c;
    hide LegalEnv, Passes, Handle, Completes, Paired;
    if f.frameType.TcpEof? {
      ListenEofSends(env, s, f, c);
    } else {
      ListenDataSends(env, s, f, c);
    }
  }

  /** A half-close that does not complete its pair ends as its relay ends. */
  lemma NotCompleted(env: Env, s: Bridge, s1: Bridge, f: Frame, c: nat)
    requires LegalEnv(env) && c in s.connectStreams && f.frameType.TcpEof? && f.streamId == s.connectStreams[c].listenStreamId
    requires s1 == MarkListenEof(s.(listenReceived := s.listenReceived + [f]), c)
    requires !Completes(env, s, ListenFrame(f), c)
    ensures var step := QueueOrSend(env, s1, c, Rewritten(f, c));
            step.outcome.Continue? ==> ClosePairIfFullyEof(env, step.bridge, c) == step
  {
    hide LegalEnv, QueueOrSend, HasRoom;
    QueueOrSendLeaves(env, s1, c, Rewritten(f, c));
    HasRoomSame(env, s, s1, c, Rewritten(f, c));
  }

  lemma HasRoomSame(env: Env, s: Bridge, s': Bridge, c: nat, f: Frame)
    requires c in s.connectStreams && c in s'.connectStreams && s'.totalBytes == s.totalBytes
    requires s'.connectStreams[c].pendingBytes == s.connectStreams[c].pendingBytes
    ensures HasRoom(env, s', c, f) == HasRoom(env, s, c, f)
  {
  }

  /** Payload of the connect side, unless it completes its pair. */
  lemma ConnectPayloadSends(env: Env, s: Bridge, f: Frame, c: nat)
    requires LegalEnv(env)
    requires IsPayload(f) && f.streamId == c && c in s.connectStreams && !Completes(env, s, ConnectFrame(f), c)
    ensures var step := Handle(env, s, ConnectFrame(f));
            var reply := if f.frameType.TcpEof? then Frame(TcpEof, 0, s.connectStreams[c].listenStreamId, [], [])
                         else f.(streamId := s.connectStreams[c].listenStreamId);
            && Adds(s, step.bridge, Taken(env, s.attempts, [reply]), [])
            && step.outcome == EndOf(env.net(s.attempts), Listen)
  {
    hide LegalEnv, Flush, ClosePair, Taken;
    OneTaken(env, s.attempts, Rewritten(f, s.connectStreams[c].listenStreamId));
  }

  // ----- A confirmed stream -----------------------------------------------

  /** How many of the next `m` sends succeed before one fails. */
  function Leading(env: Env, n: nat, m: nat): (k: nat)
    ensures k <= m
    decreases m
  {
    if m == 0 || !env.net(n).Sent? then 0 else 1 + Leading(env, n + 1, m - 1)
  }

  /** The queue `frames` goes out in order until a send fails: `k` of them are taken. */
  ghost predicate Flushed(env: Env, s: Bridge, step: Step, c: nat, frames: seq<Frame>, k: nat)
    requires LegalEnv(env) && c in s.connectStreams && k <= |frames|
  {
    if k == |frames| then Adds(s, step.bridge, [], frames) && step.outcome.Continue?
    else
      match env.net(s.attempts + k)
      case Sent => false
      case Backpressure => Pressed(env, s, step, c, s.attempts + k + 1, frames[..k])
      case Retryable => GivenUp(env, s, step, s.attempts + k + 1, [], frames[..k])
      case Fatal => Adds(s, step.bridge, [], frames[..k]) && step.outcome.Failed?
  }

  lemma {:induction false} FlushSends(env: Env, s: Bridge, c: nat, frames: seq<Frame>)
    requires LegalEnv(env) && c in s.connectStreams
    requires forall f :: f in frames ==> !f.frameType.Close?
    ensures Flushed(env, s, Flush(env, s, c, frames, false).0, c, frames, Leading(env, s.attempts, |frames|))
    decreases |frames|
  {
    hide LegalEnv, CloseActive, ClosePair, GivenUp, Pressed, Flushed;
    if frames == [] {
      FlushedNone(env, s, c);
    } else {
      assert frames[0] in frames;
      var (s1, r) := SendConnect(env, s, frames[0]);
      if r.Sent? {
        FlushSends(env, s1, c, frames[1..]);
        FlushedMore(env, s, s1, Flush(env, s1, c, frames[1..], false).0, c, frames, Leading(env, s1.attempts, |frames| - 1));
      } else {
        FlushedStops(env, s, s1, c, frames);
      }
    }
  }

  lemma FlushedNone(env: Env, s: Bridge, c: nat)
    requires LegalEnv(env) && c in s.connectStreams
    ensures Flushed(env, s, Step(s, Continue), c, [], 0)
  {
  }

  lemma FlushedStops(env: Env, s: Bridge, s1: Bridge, c: nat, frames: seq<Frame>)
    requires LegalEnv(env) && c in s.connectStreams && frames != [] && !env.net(s.attempts).Sent?
    requires s1 == SendConnect(env, s, frames[0]).0
    ensures Flushed(env, s, Flush(env, s, c, frames, false).0, c, frames, 0)
  {
    hide LegalEnv, Flush, CloseActive, ClosePair, Taken, GivenUp;
    FlushStops(env, s, c, frames);
    assert frames[..0] == [];
    match env.net(s.attempts)
    case Backpressure => PressureSends(env, s1, c);
    case Retryable =>
      CloseActiveSends(env, s1);
      GivenUpLater(env, s, s1, CloseActiveThen(env, s1, Recover(Connect)), s.attempts + 1, [], [], [], []);
    case _ =>
  }

  lemma FlushStops(env: Env, s: Bridge, c: nat, frames: seq<Frame>)
    requires LegalEnv(env) && frames != [] && !env.net(s.attempts).Sent?
    ensures var (s1, r) := SendConnect(env, s, frames[0]);
            Flush(env, s, c, frames, false).0 ==
              if r.Backpressure? then ClosePair(env, s1, c, ConnectPressure)
              else if r.Retryable? then CloseActiveThen(env, s1, Recover(Connect))
              else Step(s1, Failed)
  {
    hide LegalEnv, CloseActiveThen, ClosePair;
  }

  lemma FlushedMore(env: Env, s: Bridge, s1: Bridge, step: Step, c: nat, frames: seq<Frame>, k: nat)
    requires LegalEnv(env) && c in s.connectStreams && k < |frames|
    requires s1 == s.(attempts := s.attempts + 1, connectSent := s.connectSent + [frames[0]])
    requires Flushed(env, s1, step, c, frames[1..], k)
    ensures Flushed(env, s, step, c, frames, k + 1)
  {
    hide LegalEnv, Taken, ListenCloses, FirstFailure;
    assert [frames[0]] + frames[1..] == frames;
    assert [frames[0]] + frames[1..][..k] == frames[..k + 1];
  }

  lemma ConfirmationHandled(env: Env, s: Bridge, f: Frame)
    requires LegalEnv(env) && f.frameType.TcpConnectOk?
    ensures Handle(env, s, ConnectFrame(f)) == OnConnectOk(env, s.(connectReceived := s.connectReceived + [f]), f)
  {
    hide LegalEnv, OnConnectOk;
  }

  /** The first confirmation of a live pair, or one more, sends what is queued. */
  lemma ConfirmationSends(env: Env, s: Bridge, f: Frame, c: nat)
    requires LegalEnv(env) && f.frameType.TcpConnectOk? && f.streamId == c
    requires c in s.connectStreams && QueueOk(c, s.connectStreams[c])
    ensures var frames := s.connectStreams[c].pendingFrames;
            Flushed(env, s, Handle(env, s, ConnectFrame(f)), c, frames, Leading(env, s.attempts, |frames|))
  {
    hide LegalEnv, Flush, Flushed, QueueBytes, Leading, Handle;
    ConfirmationHandled(env, s, f);
    var frames := s.connectStreams[c].pendingFrames;
    var s1 := TakePending(s.(connectReceived := s.connectReceived + [f]), c);
    FlushSends(env, s1, c, frames);
    FlushedEarlier(env, s, s1, Flush(env, s1, c, frames, false).0, Handle(env, s, ConnectFrame(f)), c, frames,
                   Leading(env, s.attempts, |frames|));
  }

  lemma FlushedEarlier(env: Env, s: Bridge, s1: Bridge, step: Step, step': Step, c: nat, frames: seq<Frame>, k: nat)
    requires LegalEnv(env) && c in s.connectStreams && c in s1.connectStreams && k <= |frames|
    requires SameListenIds(s.connectStreams, s1.connectStreams) && s1.attempts == s.attempts
    requires Adds(s, s1, [], [])
    requires Flushed(env, s1, step, c, frames, k)
    requires Adds(step.bridge, step'.bridge, [], []) && step'.outcome == step.outcome
    ensures Flushed(env, s, step', c, frames, k)
  {
    hide LegalEnv, Taken, FirstFailure, ListenCloses;
    if k < |frames| && env.net(s.attempts + k).Retryable? {
      assert GivenUp(env, s1, step', s.attempts + k + 1, [], frames[..k]);
      GivenUpLater(env, s, s1, step', s.attempts + k + 1, [], [], frames[..k], frames[..k]);
    }
  }

  // ----- A new connection -------------------------------------------------

  /** An accepted connection becomes a pair exactly when its announcement
      decodes, a slot and a stream id are free and the connect side takes the
      request to open it. Otherwise it is closed on the listen side, unless the
      epoch fails there. */
  lemma AcceptSends(env: Env, s: Bridge, f: Frame)
    requires LegalEnv(env) && f.frameType.TcpAccept?
    ensures var n, c, l := s.attempts, s.ids.next, f.streamId;
            var step := Handle(env, s, ListenFrame(f));
            if !env.acceptDecodes(f) then
              Adds(s, step.bridge, [], []) && step.bridge.connectStreams == s.connectStreams && step.outcome.Failed?
            else if s.entry.activeTcpStreams >= env.limits.maxActiveTcpStreams then
              && Adds(s, step.bridge, Taken(env, n, [CloseFrame(l)]), [])
              && step.bridge.connectStreams == s.connectStreams
              && step.outcome.Continue?
            else if s.ids.exhausted then
              GivenUp(env, s, step, n + 1, Taken(env, n, [CloseFrame(l)]), [])
            else if env.net(n).Sent? then
              && Adds(s, step.bridge, [], [Frame(TcpConnect, 0, c, env.endpointMeta, [])])
              && step.bridge.connectStreams == s.connectStreams[c := TcpConnectStream(l, false, false, false, [], 0)]
              && step.bridge.listenToConnect == s.listenToConnect[l := c]
              && step.bridge.origins == s.origins[c := Origin(l, |s.listenReceived| + 1, |s.connectReceived|, |s.listenSent|)]
              && step.outcome.Continue?
            else if env.net(n).Retryable? then
              && Adds(s, step.bridge, Taken(env, n + 1, [CloseFrame(l)]), [])
              && step.bridge.connectStreams == s.connectStreams
              && step.outcome == if env.net(n + 1).Sent? then Recover(Connect) else EndOf(env.net(n + 1), Listen)
            else
              Adds(s, step.bridge, [], []) && step.bridge.connectStreams == s.connectStreams && step.outcome.Failed?
  {
    hide LegalEnv, CloseActive, Next, Taken, GivenUp, Handle;
    IssuesItsNext(s.ids);
    OneTaken(env, s.attempts, CloseFrame(f.streamId));
    OneTaken(env, s.attempts + 1, CloseFrame(f.streamId));
    AcceptHandled(env, s, f);
    if s.ids.exhausted && env.acceptDecodes(f) && s.entry.activeTcpStreams < env.limits.maxActiveTcpStreams {
      ExhaustedSends(env, s, f);
    }
  }

  lemma AcceptHandled(env: Env, s: Bridge, f: Frame)
    requires LegalEnv(env) && f.frameType.TcpAccept?
    ensures Handle(env, s, ListenFrame(f)) == OnAccept(env, s.(listenReceived := s.listenReceived + [f]), f)
  {
    hide LegalEnv, OnAccept;
  }

  lemma ExhaustedSends(env: Env, s: Bridge, f: Frame)
    requires LegalEnv(env) && s.ids.exhausted
    requires env.acceptDecodes(f) && s.entry.activeTcpStreams < env.limits.maxActiveTcpStreams
    ensures GivenUp(env, s, OnAccept(env, s.(listenReceived := s.listenReceived + [f]), f), s.attempts + 1,
                    Taken(env, s.attempts, [CloseFrame(f.streamId)]), [])
  {
    hide LegalEnv, CloseActive, Next, Taken, GivenUp;
    IssuesItsNext(s.ids);
    OneTaken(env, s.attempts, CloseFrame(f.streamId));
    var r := s.(listenReceived := s.listenReceived + [f],
                entry := ReserveActiveEntry(s.entry, env.limits.maxActiveTcpStreams), ids := Next(s.ids).1);
    var s2 := Settle(CloseListenStream(env, r, f.streamId).0, Dropped);
    CloseActiveSends(env, s2);
    GivenUpLater(env, s, s2, CloseActiveThen(env, s2, Recover(Connect)), s.attempts + 1,
                 Taken(env, s.attempts, [CloseFrame(f.streamId)]), [], [], []);
  }

  // ----- Everything else --------------------------------------------------

  /** The events that address no live pair send nothing. They end the epoch
      exactly when they report a loss, a cancellation or an error the forward
      cannot survive. */
  lemma OtherEventsSendNothing(env: Env, s: Bridge, e: Event)
    requires LegalEnv(env)
    requires !e.ConnectLost?
    requires e.ListenFrame? ==> !e.frame.frameType.TcpAccept? && (e.frame.streamId in s.listenToConnect ==>
               e.frame.frameType !in {Close, Error, TcpData, TcpEof} || (e.frame.frameType.Error? && env.isFatal(e.frame))
               || (e.frame.frameType.Error? && e.frame.streamId == env.listenerStreamId))
    requires e.ConnectFrame? ==> (e.frame.streamId in s.connectStreams ==>
               e.frame.frameType !in {Close, Error, TcpData, TcpEof, TcpConnectOk} || (e.frame.frameType.Error? && env.isFatal(e.frame)))
    ensures Adds(s, Handle(env, s, e).bridge, [], [])
    ensures Handle(env, s, e).bridge.connectStreams == s.connectStreams
    ensures Handle(env, s, e).outcome ==
              match e
              case ListenLost => Recover(Listen)
              case TerminalError => Failed
              case Cancel => Cancelled
              case ListenFrame(f) =>
                if f.frameType.Error? && env.isFatal(f) then Failed
                else if f.frameType.Error? && f.streamId == env.listenerStreamId && !env.isPressure(f) then Failed
                else if f.frameType.ForwardDrop? && env.dropReport(f).None? then Failed
                else Continue
              case _ => if e.ConnectFrame? && e.frame.frameType.Error? && env.isFatal(e.frame) then Failed else Continue
  {
    hide LegalEnv, QueueOrSend, ClosePairIfFullyEof, Flush, CloseActive;
  }

  // ----- The forward's entry ----------------------------------------------

  /** What an event may change in the entry: the two stream counters, and the
      datagram counter by `n`. */
  ghost predicate CountsOnly(e: ForwardPortEntry, e': ForwardPortEntry, n: nat) {
    && e' == e.(activeTcpStreams := e'.activeTcpStreams, droppedTcpStreams := e'.droppedTcpStreams,
                droppedUdpDatagrams := e'.droppedUdpDatagrams)
    && (e.droppedUdpDatagrams <= U64_MAX ==> e'.droppedUdpDatagrams == Capped(e.droppedUdpDatagrams + n))
  }

  /** The datagrams a drop report of the listen side stands for. */
  function ReportedDatagrams(env: Env, e: Event): nat {
    if e.ListenFrame? && e.frame.frameType.ForwardDrop? && env.dropReport(e.frame).Some? && !env.dropReport(e.frame).value.tcp
    then (if env.dropReport(e.frame).value.count == 0 then 1 else env.dropReport(e.frame).value.count)
    else 0
  }

  lemma LeavesCounts(s: Bridge, s': Bridge, c: nat, failure: Option<SendResult>)
    requires Leaves(s, s', c, failure)
    ensures CountsOnly(s.entry, s'.entry, 0)
  {
  }

  lemma ListenFrameCounts(env: Env, s: Bridge, f: Frame)
    requires LegalEnv(env)
    requires Wired(env, s.listenToConnect, s.connectStreams, s.totalBytes)
    ensures CountsOnly(s.entry, OnListenFrame(env, s, f).bridge.entry, ReportedDatagrams(env, ListenFrame(f)))
  {
    hide Wired, LegalEnv, OnAccept, OnListenData, OnListenEof, CountsOnly;
    if f.frameType.TcpAccept? {
      AcceptCounts(env, s, f);
    } else if IsPayload(f) {
      ListenPayloadCounts(env, s, f);
    } else {
      ListenControlCounts(env, s, f);
    }
  }

  lemma ListenPayloadCounts(env: Env, s: Bridge, f: Frame)
    requires LegalEnv(env)
    requires Wired(env, s.listenToConnect, s.connectStreams, s.totalBytes)
    ensures CountsOnly(s.entry, OnListenData(env, s, f).bridge.entry, 0)
    ensures CountsOnly(s.entry, OnListenEof(env, s, f).bridge.entry, 0)
  {
    hide Wired, LegalEnv, QueueOrSend, ClosePairIfFullyEof;
    if f.streamId in s.listenToConnect {
      MappedFacts(env, s, f.streamId);
      var c := s.listenToConnect[f.streamId];
      QueueCounts(env, s, c, f.(streamId := c));
      var g := Frame(f.frameType, 0, c, [], []);
      QueueCounts(env, MarkListenEof(s, c), c, g);
      EofCounts(env, QueueOrSend(env, MarkListenEof(s, c), c, g).bridge, c);
    }
  }

  lemma ListenControlCounts(env: Env, s: Bridge, f: Frame)
    requires LegalEnv(env) && !f.frameType.TcpAccept? && !IsPayload(f)
    ensures CountsOnly(s.entry, OnListenFrame(env, s, f).bridge.entry, ReportedDatagrams(env, ListenFrame(f)))
  {
    hide LegalEnv, OnAccept, OnListenData, OnListenEof, OnListenClose, OnListenError, OnForwardDrop, CountsOnly;
    NothingCounts(s.entry);
    ListenEndCounts(env, s, f);
    if f.frameType.ForwardDrop? {
      DropReportCounts(env, s, f);
    }
  }

  lemma NothingCounts(e: ForwardPortEntry)
    ensures CountsOnly(e, e, 0)
  {
  }

  lemma ListenEndCounts(env: Env, s: Bridge, f: Frame)
    ensures CountsOnly(s.entry, OnListenClose(env, s, f).bridge.entry, 0)
    ensures CountsOnly(s.entry, OnListenError(env, s, f).bridge.entry, 0)
  {
    hide Counted;
  }

  lemma DropReportCounts(env: Env, s: Bridge, f: Frame)
    requires f.frameType.ForwardDrop?
    ensures CountsOnly(s.entry, OnForwardDrop(env, s, f).bridge.entry, ReportedDatagrams(env, ListenFrame(f)))
  {
  }

  lemma AcceptCounts(env: Env, s: Bridge, f: Frame)
    requires LegalEnv(env)
    ensures CountsOnly(s.entry, OnAccept(env, s, f).bridge.entry, 0)
  {
    hide LegalEnv, CloseActive, Next;
    var s1 := s.(entry := ReserveActiveEntry(s.entry, env.limits.maxActiveTcpStreams), ids := Next(s.ids).1);
    CloseActiveLeaves(env, Settle(CloseListenStream(env, s1, f.streamId).0, Dropped));
  }

  lemma QueueCounts(env: Env, s: Bridge, c: nat, f: Frame)
    requires LegalEnv(env) && c in s.connectStreams
    ensures CountsOnly(s.entry, QueueOrSend(env, s, c, f).bridge.entry, 0)
  {
    hide LegalEnv, QueueOrSend, Leaves, HasRoom, CountsOnly;
    QueueOrSendLeaves(env, s, c, f);
    LeavesCounts(s, QueueOrSend(env, s, c, f).bridge, c,
                 if s.connectStreams[c].ready then Some(env.net(s.attempts))
                 else if HasRoom(env, s, c, f) then None else Some(Backpressure));
  }

  lemma EofCounts(env: Env, s: Bridge, c: nat)
    ensures CountsOnly(s.entry, ClosePairIfFullyEof(env, s, c).bridge.entry, 0)
  {
  }

  lemma ConnectFrameCounts(env: Env, s: Bridge, f: Frame)
    requires LegalEnv(env)
    requires Wired(env, s.listenToConnect, s.connectStreams, s.totalBytes)
    ensures CountsOnly(s.entry, OnConnectFrame(env, s, f).bridge.entry, 0)
  {
    hide Wired, LegalEnv, Flush, ClosePairIfFullyEof, Leaves, FirstFailure;
    if f.streamId in s.connectStreams {
      var c := f.streamId;
      if f.frameType.TcpConnectOk? {
        StreamFacts(env, s, c);
        FlushLeaves(env, TakePending(s, c), c, s.connectStreams[c].pendingFrames);
        LeavesCounts(TakePending(s, c), Flush(env, TakePending(s, c), c, s.connectStreams[c].pendingFrames, false).0.bridge, c,
                     FirstFailure(env, s.attempts, |s.connectStreams[c].pendingFrames|));
      } else if f.frameType.TcpEof? {
        var s1 := s.(connectStreams := s.connectStreams[c := s.connectStreams[c].(connectEof := true)]);
        EofCounts(env, SendBack(env, s1, c, f).bridge, c);
      }
    }
  }

  /** Whatever happens to the bridge, it leaves its entry alone but for the
      counters, and counts exactly the datagrams the listen side reports lost. */
  lemma EntryKeepsItsRest(env: Env, s: Bridge, e: Event)
    requires LegalEnv(env)
    requires Wired(env, s.listenToConnect, s.connectStreams, s.totalBytes)
    ensures CountsOnly(s.entry, Handle(env, s, e).bridge.entry, ReportedDatagrams(env, e))
  {
    hide Wired, LegalEnv, OnListenFrame, OnConnectFrame, CloseActive;
    match e
    case ListenFrame(f) => ListenFrameCounts(env, s.(listenReceived := s.listenReceived + [f]), f);
    case ConnectFrame(f) => ConnectFrameCounts(env, s.(connectReceived := s.connectReceived + [f]), f);
    case ConnectLost => CloseActiveLeaves(env, s);
    case _ =>
  }

  // ----- Which streams are opened -----------------------------------------

  ghost predicate SameIds(s: Bridge, s': Bridge) {
    s'.ids == s.ids && s'.origins == s.origins
  }

  lemma {:induction false} CloseEachIds(
    env: Env, s: Bridge, streams: map<nat, TcpConnectStream>, order: seq<nat>, first: Option<SendResult>)
    requires forall c :: c in order ==> c in streams
    ensures SameIds(s, CloseEach(env, s, streams, order, first).0)
    decreases |order|
  {
    if order != [] {
      var s1 := s.(totalBytes := SaturatingSub(s.totalBytes, streams[order[0]].pendingBytes));
      var (s2, r) := CloseListenStream(env, s1, streams[order[0]].listenStreamId);
      CloseEachIds(env, s2, streams, order[1..], if first.None? && !r.Sent? then Some(r) else first);
    }
  }

  lemma CloseActiveIds(env: Env, s: Bridge)
    requires LegalEnv(env)
    ensures SameIds(s, CloseActive(env, s).bridge)
  {
    hide CloseEach;
    var s1 := s.(connectStreams := map[], listenToConnect := map[]);
    CloseEachIds(env, s1, s.connectStreams, env.order(s.attempts, s.connectStreams.Keys), None);
  }

  lemma QueueOrSendIds(env: Env, s: Bridge, c: nat, f: Frame)
    requires LegalEnv(env)
    ensures SameIds(s, QueueOrSend(env, s, c, f).bridge)
  {
    hide LegalEnv, CloseActive;
    CloseActiveIds(env, SendConnect(env, s, f).0);
  }

  lemma {:induction false} FlushIds(env: Env, s: Bridge, c: nat, frames: seq<Frame>, remove: bool)
    requires LegalEnv(env)
    ensures SameIds(s, Flush(env, s, c, frames, remove).0.bridge)
    decreases |frames|
  {
    hide LegalEnv, CloseActive;
    if frames != [] {
      var (s1, r) := SendConnect(env, s, frames[0]);
      CloseActiveIds(env, s1);
      var s2 := if c in s1.connectStreams
                then s1.(listenToConnect := s1.listenToConnect - {s1.connectStreams[c].listenStreamId})
                else s1;
      FlushIds(env, s1, c, frames[1..], remove);
      FlushIds(env, Settle(s2, Release), c, frames[1..], true);
    }
  }

  /** At most one id was taken, and no pair made but under that one. */
  ghost predicate TookOneId(s: Bridge, s': Bridge) {
    || SameIds(s, s')
    || (s'.ids == Next(s.ids).1 && s'.origins == s.origins)
    || (s'.ids == Next(s.ids).1 && Next(s.ids).0.Some? && s'.origins.Keys == s.origins.Keys + {Next(s.ids).0.value})
  }

  lemma AcceptIds(env: Env, s: Bridge, f: Frame)
    requires LegalEnv(env)
    ensures TookOneId(s, OnAccept(env, s, f).bridge)
  {
    hide LegalEnv, CloseActive, Next;
    var s1 := s.(entry := ReserveActiveEntry(s.entry, env.limits.maxActiveTcpStreams), ids := Next(s.ids).1);
    CloseActiveIds(env, Settle(CloseListenStream(env, s1, f.streamId).0, Dropped));
  }

  lemma FullyEofIds(env: Env, s: Bridge, c: nat)
    ensures SameIds(s, ClosePairIfFullyEof(env, s, c).bridge)
  {
  }

  lemma ListenIds(env: Env, s: Bridge, f: Frame)
    requires LegalEnv(env)
    ensures TookOneId(s, OnListenFrame(env, s, f).bridge)
  {
    hide LegalEnv, OnAccept, QueueOrSend, ClosePairIfFullyEof, Next;
    AcceptIds(env, s, f);
    if f.streamId in s.listenToConnect {
      var c := s.listenToConnect[f.streamId];
      QueueOrSendIds(env, s, c, f.(streamId := c));
      var g := Frame(f.frameType, 0, c, [], []);
      QueueOrSendIds(env, MarkListenEof(s, c), c, g);
      FullyEofIds(env, QueueOrSend(env, MarkListenEof(s, c), c, g).bridge, c);
    }
  }

  lemma ConnectIds(env: Env, s: Bridge, f: Frame)
    requires LegalEnv(env)
    ensures SameIds(s, OnConnectFrame(env, s, f).bridge)
  {
    hide LegalEnv, Flush, ClosePairIfFullyEof;
    if f.streamId in s.connectStreams {
      var c := f.streamId;
      FlushIds(env, TakePending(s, c), c, s.connectStreams[c].pendingFrames, false);
      var s1 := s.(connectStreams := s.connectStreams[c := s.connectStreams[c].(connectEof := true)]);
      FullyEofIds(env, SendBack(env, s1, c, f).bridge, c);
    }
  }

  lemma EventIds(env: Env, s: Bridge, e: Event)
    requires LegalEnv(env)
    ensures TookOneId(s, Handle(env, s, e).bridge)
  {
    hide LegalEnv, OnListenFrame, OnConnectFrame, CloseActive, Next;
    CloseActiveIds(env, s);
    match e
    case ListenFrame(f) => ListenIds(env, s.(listenReceived := s.listenReceived + [f]), f);
    case ConnectFrame(f) => ConnectIds(env, s.(connectReceived := s.connectReceived + [f]), f);
    case _ =>
  }

  /** The connect streams of a run are opened under the ids 1, 3, 5, ... */
  lemma {:induction false} StreamsAreNumbered(env: Env, entry: ForwardPortEntry, events: seq<Event>)
    requires LegalEnv(env)
    ensures var s := Run(env, entry, events).bridge; Numbered(1, s.ids, s.origins.Keys)
    ensures forall c <- Run(env, entry, events).bridge.origins :: c % 2 == 1 && c + 2 <= U32_MAX
  {
    hide Numbered, Handle, Next, LegalEnv;
    if events == [] {
      NumberedAtFirst(1);
      assert Run(env, entry, events).bridge.origins.Keys == {};
    } else {
      var before, e := events[..|events| - 1], events[|events| - 1];
      StreamsAreNumbered(env, entry, before);
      var s := Run(env, entry, before).bridge;
      EventIds(env, s, e);
      NumberedNext(1, s.ids, s.origins.Keys);
    }
    var s := Run(env, entry, events).bridge;
    forall c <- s.origins
      ensures c % 2 == 1 && c + 2 <= U32_MAX
    {
      NumberedIds(1, s.ids, s.origins.Keys, c);
    }
  }
}
