/** What the tunnels carry for one pair, control frames included. On the connect
    tunnel a stream is opened once, then carries payload once the connect side
    has confirmed it, and is closed at most once, last. On the listen tunnel a
    live pair carries its replies and nothing else. */
module TcpStreams {
  import opened Common
  import opened Frames
  import opened StreamIds
  import opened ForwardEntries
  import opened TcpBridge
  import opened TcpInvariants
  import opened TcpRuns
  import TcpReplies

  // ----- What a part of a handler may send --------------------------------

  /** What went out on connect stream `c`, whose pair was live before, is live
      after and was ready: nothing on other streams, no payload before the
      stream is ready, no close while the pair lives. */
  ghost predicate SentOn(more: seq<Frame>, c: nat, was: bool, stays: bool, ready: bool) {
    && (!was ==> AllOn(more, c) == [])
    && (stays && !ready ==> AllOn(more, c) == [])
    && (stays ==> AllOn(more, c) == OnStream(more, c))
    && (AllOn(more, c) == OnStream(more, c) || AllOn(more, c) == OnStream(more, c) + [CloseFrame(c)])
  }

  predicate IsReady(s: Bridge, c: nat) {
    c in s.connectStreams && s.connectStreams[c].ready
  }

  predicate SameFlags(a: TcpConnectStream, b: TcpConnectStream) {
    a.listenStreamId == b.listenStreamId && a.ready == b.ready && a.listenEof == b.listenEof && a.connectEof == b.connectEof
  }

  ghost predicate SentOnEach(s: Bridge, s': Bridge, more: seq<Frame>) {
    forall c: nat :: SentOn(more, c, c in s.connectStreams, c in s'.connectStreams, IsReady(s, c))
  }

  /** Only payload went to the listen streams of the pairs that stay. */
  ghost predicate PlainOnEach(s': Bridge, more: seq<Frame>) {
    forall c <- s'.connectStreams ::
      AllOn(more, s'.connectStreams[c].listenStreamId) == OnStream(more, s'.connectStreams[c].listenStreamId)
  }

  ghost predicate Shrinks(streams: map<nat, TcpConnectStream>, streams': map<nat, TcpConnectStream>) {
    forall c <- streams' :: c in streams && SameFlags(streams[c], streams'[c])
  }

  ghost predicate SameHistory(s: Bridge, s': Bridge) {
    && s'.origins == s.origins
    && s'.connectReceived == s.connectReceived
    && s'.listenReceived == s.listenReceived
  }

  /** No pair was made or changed its flags, and both tunnels carry what they may. */
  ghost predicate Steady(s: Bridge, s': Bridge) {
    && SameHistory(s, s')
    && Shrinks(s.connectStreams, s'.connectStreams)
    && s.connectSent <= s'.connectSent
    && SentOnEach(s, s', s'.connectSent[|s.connectSent|..])
    && s.listenSent <= s'.listenSent
    && PlainOnEach(s', s'.listenSent[|s.listenSent|..])
  }

  lemma NothingOn(c: nat)
    ensures AllOn([], c) == [] && OnStream([], c) == []
  {
  }

  lemma OneOn(f: Frame, c: nat)
    ensures AllOn([f], c) == (if f.streamId == c then [f] else [])
    ensures OnStream([f], c) == (if IsPayload(f) && f.streamId == c then [f] else [])
  {
    assert [f][..0] == [];
  }

  lemma SentOnThen(a: seq<Frame>, b: seq<Frame>, c: nat, was: bool, mid: bool, stays: bool, ready: bool)
    requires SentOn(a, c, was, mid, ready) && SentOn(b, c, mid, stays, ready)
    requires (mid ==> was) && (stays ==> mid)
    ensures SentOn(a + b, c, was, stays, ready)
  {
    AllOnConcat(a, b, c);
    OnStreamConcat(a, b, c);
    hide AllOn, OnStream;
    assert OnStream(a, c) + (OnStream(b, c) + [CloseFrame(c)]) == OnStream(a, c) + OnStream(b, c) + [CloseFrame(c)];
  }

  lemma SentOnEachThen(s: Bridge, s1: Bridge, s2: Bridge, a: seq<Frame>, b: seq<Frame>)
    requires Shrinks(s.connectStreams, s1.connectStreams) && Shrinks(s1.connectStreams, s2.connectStreams)
    requires SentOnEach(s, s1, a) && SentOnEach(s1, s2, b)
    ensures SentOnEach(s, s2, a + b)
  {
    hide SentOn;
    forall c: nat
      ensures SentOn(a + b, c, c in s.connectStreams, c in s2.connectStreams, IsReady(s, c))
    {
      assert SentOn(a, c, c in s.connectStreams, c in s1.connectStreams, IsReady(s, c));
      assert SentOn(b, c, c in s1.connectStreams, c in s2.connectStreams, IsReady(s1, c));
      if c in s1.connectStreams {
        SentOnThen(a, b, c, c in s.connectStreams, true, c in s2.connectStreams, IsReady(s, c));
      } else {
        GoneAnyway(b, c, IsReady(s1, c), IsReady(s, c));
        SentOnThen(a, b, c, c in s.connectStreams, false, false, IsReady(s, c));
      }
    }
  }

  lemma GoneAnyway(b: seq<Frame>, c: nat, ready: bool, ready': bool)
    requires SentOn(b, c, false, false, ready)
    ensures SentOn(b, c, false, false, ready')
  {
  }

  lemma PlainThen(s1: Bridge, s2: Bridge, a: seq<Frame>, b: seq<Frame>)
    requires Shrinks(s1.connectStreams, s2.connectStreams)
    requires PlainOnEach(s1, a) && PlainOnEach(s2, b)
    ensures PlainOnEach(s2, a + b)
  {
    forall c <- s2.connectStreams
      ensures var l := s2.connectStreams[c].listenStreamId; AllOn(a + b, l) == OnStream(a + b, l)
    {
      assert c in s1.connectStreams;
      AllOnConcat(a, b, s2.connectStreams[c].listenStreamId);
      OnStreamConcat(a, b, s2.connectStreams[c].listenStreamId);
    }
  }

  lemma SteadyThen(s: Bridge, s1: Bridge, s2: Bridge)
    requires Steady(s, s1) && Steady(s1, s2)
    ensures Steady(s, s2)
  {
    hide SentOnEach, PlainOnEach;
    var a, b := s1.connectSent[|s.connectSent|..], s2.connectSent[|s1.connectSent|..];
    assert s2.connectSent[|s.connectSent|..] == a + b;
    SentOnEachThen(s, s1, s2, a, b);
    var x, y := s1.listenSent[|s.listenSent|..], s2.listenSent[|s1.listenSent|..];
    assert s2.listenSent[|s.listenSent|..] == x + y;
    PlainThen(s1, s2, x, y);
  }

  lemma SteadySame(s: Bridge, s': Bridge)
    requires SameHistory(s, s') && Shrinks(s.connectStreams, s'.connectStreams)
    requires s'.connectSent == s.connectSent && s'.listenSent == s.listenSent
    ensures Steady(s, s')
  {
    assert s'.connectSent[|s.connectSent|..] == [] && s'.listenSent[|s.listenSent|..] == [];
    forall c: nat ensures AllOn([], c) == [] && OnStream([], c) == [] {
      NothingOn(c);
    }
  }

  // ----- Single sends -----------------------------------------------------

  /** A frame for the listen side: a reply, or a control frame on a stream that no live pair uses. */
  lemma ListenSteady(env: Env, s: Bridge, f: Frame)
    requires IsPayload(f) || forall c <- s.connectStreams :: s.connectStreams[c].listenStreamId != f.streamId
    ensures Steady(s, SendListen(env, s, f).0)
  {
    var (s', r) := SendListen(env, s, f);
    if r.Sent? {
      assert s'.connectSent[|s.connectSent|..] == [];
      assert s'.listenSent[|s.listenSent|..] == [f];
      forall c: nat
        ensures AllOn([], c) == [] && OnStream([], c) == []
        ensures IsPayload(f) || c != f.streamId ==> AllOn([f], c) == OnStream([f], c)
      {
        NothingOn(c);
        OneOn(f, c);
      }
    } else {
      SteadySame(s, s');
    }
  }

  /** Payload for the connect side goes out on ready streams only. */
  lemma PayloadSteady(env: Env, s: Bridge, f: Frame)
    requires IsPayload(f) && IsReady(s, f.streamId)
    ensures Steady(s, SendConnect(env, s, f).0)
  {
    var (s', r) := SendConnect(env, s, f);
    if r.Sent? {
      assert s'.connectSent[|s.connectSent|..] == [f];
      assert s'.listenSent[|s.listenSent|..] == [];
      forall c: nat
        ensures AllOn([f], c) == OnStream([f], c) && (c != f.streamId ==> AllOn([f], c) == [])
        ensures AllOn([], c) == [] && OnStream([], c) == []
      {
        OneOn(f, c);
        NothingOn(c);
      }
    } else {
      SteadySame(s, s');
    }
  }

  lemma UnpairSteady(s: Bridge, c: nat, how: Settlement)
    requires c in s.connectStreams
    ensures Steady(s, Unpair(s, c, how))
  {
    hide Steady;
    SteadySame(s, Unpair(s, c, how));
  }

  /** The close of a pair that has just been removed. */
  lemma CloseConnectSteady(env: Env, s: Bridge, c: nat, how: Settlement)
    requires c in s.connectStreams
    ensures Steady(s, CloseConnectStream(env, Unpair(s, c, how), c).0)
  {
    var (s', r) := CloseConnectStream(env, Unpair(s, c, how), c);
    if r.Sent? {
      assert s'.connectSent[|s.connectSent|..] == [CloseFrame(c)];
      assert s'.listenSent[|s.listenSent|..] == [];
      forall d: nat
        ensures AllOn([CloseFrame(c)], d) == (if d == c then [CloseFrame(c)] else [])
        ensures OnStream([CloseFrame(c)], d) == [] && AllOn([], d) == [] && OnStream([], d) == []
      {
        OneOn(CloseFrame(c), d);
        NothingOn(d);
      }
    } else {
      SteadySame(s, s');
    }
  }

  /** No two live pairs share a listen stream. */
  ghost predicate Distinct(streams: map<nat, TcpConnectStream>) {
    forall c, d :: c in streams && d in streams && c != d ==> streams[c].listenStreamId != streams[d].listenStreamId
  }

  lemma DistinctShrinks(s: Bridge, s': Bridge)
    requires Distinct(s.connectStreams) && Shrinks(s.connectStreams, s'.connectStreams)
    ensures Distinct(s'.connectStreams)
  {
  }

  /** Closing the listen stream of a pair that has been removed. */
  lemma CloseListenSteady(env: Env, s: Bridge, s1: Bridge, c: nat)
    requires Distinct(s.connectStreams) && c in s.connectStreams
    requires s1.connectStreams == s.connectStreams - {c}
    requires Steady(s, s1)
    ensures Steady(s, CloseListenStream(env, s1, s.connectStreams[c].listenStreamId).0)
  {
    var l := s.connectStreams[c].listenStreamId;
    ListenSteady(env, s1, CloseFrame(l));
    hide Steady;
    SteadyThen(s, s1, CloseListenStream(env, s1, l).0);
  }

  // ----- Parts of handlers ------------------------------------------------

  lemma {:induction false} CloseEachSteady(
    env: Env, s: Bridge, streams: map<nat, TcpConnectStream>, order: seq<nat>, first: Option<SendResult>)
    requires forall c :: c in order ==> c in streams
    requires s.connectStreams == map[]
    ensures Steady(s, CloseEach(env, s, streams, order, first).0)
    decreases |order|
  {
    hide Steady;
    if order == [] {
      SteadySame(s, s);
    } else {
      var s1 := s.(totalBytes := SaturatingSub(s.totalBytes, streams[order[0]].pendingBytes));
      var (s2, r) := CloseListenStream(env, s1, streams[order[0]].listenStreamId);
      SteadySame(s, s1);
      ListenSteady(env, s1, CloseFrame(streams[order[0]].listenStreamId));
      SteadyThen(s, s1, s2);
      var first' := if first.None? && !r.Sent? then Some(r) else first;
      CloseEachSteady(env, s2, streams, order[1..], first');
      SteadyThen(s, s2, CloseEach(env, s2, streams, order[1..], first').0);
    }
  }

  lemma CloseActiveSteady(env: Env, s: Bridge)
    requires LegalEnv(env)
    ensures Steady(s, CloseActive(env, s).bridge)
  {
    hide Steady, CloseEach;
    var s1 := s.(connectStreams := map[], listenToConnect := map[]);
    var order := env.order(s.attempts, s.connectStreams.Keys);
    var s2 := CloseEach(env, s1, s.connectStreams, order, None).0;
    SteadySame(s, s1);
    CloseEachSteady(env, s1, s.connectStreams, order, None);
    SteadyThen(s, s1, s2);
    var s3 := CloseActive(env, s).bridge;
    assert s3 == s2.(entry := DropActive(s2.entry, |s.connectStreams|));
    SteadyRefl(s2, s3);
    SteadyThen(s, s2, s3);
  }

  lemma SteadyRefl(s: Bridge, s': Bridge)
    requires s' == s.(entry := s'.entry, totalBytes := s'.totalBytes, listenToConnect := s'.listenToConnect, ids := s'.ids, attempts := s'.attempts)
    ensures Steady(s, s')
  {
    hide Steady;
    SteadySame(s, s');
  }

  lemma ClosePairSteady(env: Env, s: Bridge, c: nat, reason: PairCloseReason)
    requires Distinct(s.connectStreams)
    ensures Steady(s, ClosePair(env, s, c, reason).bridge)
  {
    hide Steady;
    if c in s.connectStreams {
      if reason.ConnectError? {
        UnpairSteady(s, c, Release);
        CloseListenSteady(env, s, Unpair(s, c, Release), c);
      } else {
        CloseConnectSteady(env, s, c, Dropped);
        CloseListenSteady(env, s, CloseConnectStream(env, Unpair(s, c, Dropped), c).0, c);
      }
    } else {
      SteadyRefl(s, s);
    }
  }

  lemma FullyEofSteady(env: Env, s: Bridge, c: nat)
    requires Distinct(s.connectStreams)
    ensures Steady(s, ClosePairIfFullyEof(env, s, c).bridge)
  {
    hide Steady;
    SteadyRefl(s, s);
    if c in s.connectStreams {
      CloseConnectSteady(env, s, c, Release);
      CloseListenSteady(env, s, CloseConnectStream(env, Unpair(s, c, Release), c).0, c);
    }
  }

  lemma EnqueueSteady(s: Bridge, c: nat, f: Frame)
    requires c in s.connectStreams
    ensures Steady(s, Enqueue(s, c, f))
  {
    hide Steady;
    SteadySame(s, Enqueue(s, c, f));
  }

  lemma QueueOrSendSteady(env: Env, s: Bridge, c: nat, f: Frame)
    requires LegalEnv(env)
    requires Distinct(s.connectStreams) && IsPayload(f) && f.streamId == c
    ensures Steady(s, QueueOrSend(env, s, c, f).bridge)
  {
    hide Steady, CloseActive, LegalEnv;
    SteadyRefl(s, s);
    if c in s.connectStreams {
      EnqueueSteady(s, c, f);
      ClosePairSteady(env, s, c, ConnectPressure);
      if s.connectStreams[c].ready {
        var s1 := SendConnect(env, s, f).0;
        PayloadSteady(env, s, f);
        ClosePairSteady(env, s1, c, ConnectPressure);
        SteadyThen(s, s1, ClosePair(env, s1, c, ConnectPressure).bridge);
        CloseActiveSteady(env, s1);
        SteadyThen(s, s1, CloseActive(env, s1).bridge);
      }
    }
  }

  lemma {:induction false} FlushSteady(env: Env, s: Bridge, c: nat, frames: seq<Frame>)
    requires LegalEnv(env)
    requires Distinct(s.connectStreams) && IsReady(s, c)
    requires forall f :: f in frames ==> IsPayload(f) && f.streamId == c
    ensures Steady(s, Flush(env, s, c, frames, false).0.bridge)
    decreases |frames|
  {
    hide Steady, CloseActive, LegalEnv, ClosePair;
    SteadyRefl(s, s);
    if frames != [] {
      var (s1, r) := SendConnect(env, s, frames[0]);
      PayloadSteady(env, s, frames[0]);
      if r.Sent? {
        FlushSteady(env, s1, c, frames[1..]);
        SteadyThen(s, s1, Flush(env, s1, c, frames[1..], false).0.bridge);
      } else {
        ClosePairSteady(env, s1, c, ConnectPressure);
        SteadyThen(s, s1, ClosePair(env, s1, c, ConnectPressure).bridge);
        CloseActiveSteady(env, s1);
        SteadyThen(s, s1, CloseActive(env, s1).bridge);
      }
    }
  }

  // ----- One event --------------------------------------------------------

  /** The bridge when a frame has arrived and its pair has taken note of it. */
  function Marked(s: Bridge, e: Event): Bridge {
    match e
    case ListenFrame(f) =>
      var s1 := s.(listenReceived := s.listenReceived + [f]);
      if f.frameType.TcpEof? && f.streamId in s.listenToConnect
      then MarkListenEof(s1, s.listenToConnect[f.streamId])
      else s1
    case ConnectFrame(f) =>
      var s1 := s.(connectReceived := s.connectReceived + [f]);
      if f.streamId !in s.connectStreams then s1
      else
        var stream := s.connectStreams[f.streamId];
        s1.(connectStreams := s.connectStreams[f.streamId := stream.(
              ready := stream.ready || f.frameType.TcpConnectOk?,
              connectEof := stream.connectEof || f.frameType.TcpEof?)])
    case _ => s
  }

  /** The request that opens connect stream `c`. */
  function OpenFrame(env: Env, c: nat): Frame {
    Frame(TcpConnect, 0, c, env.endpointMeta, [])
  }

  /** The accepted connection got its pair, and the connect side was asked to open it. */
  ghost predicate Opened(env: Env, s: Bridge, s': Bridge, l: nat, c: nat) {
    && s'.origins == s.origins[c := Origin(l, |s.listenReceived|, |s.connectReceived|, |s.listenSent|)]
    && s'.connectReceived == s.connectReceived
    && s'.listenReceived == s.listenReceived
    && s'.connectStreams == s.connectStreams[c := TcpConnectStream(l, false, false, false, [], 0)]
    && s'.connectSent == s.connectSent + [OpenFrame(env, c)]
    && s'.listenSent == s.listenSent
  }

  lemma OpenSteady(env: Env, s: Bridge, l: nat, c: nat)
    requires forall d <- s.connectStreams :: s.connectStreams[d].listenStreamId != l
    ensures var s' := OpenPair(env, s, l, c).bridge; Steady(s, s') || Opened(env, s, s', l, c)
  {
    hide Steady;
    var (s1, r) := SendConnect(env, s, OpenFrame(env, c));
    if !r.Sent? {
      SteadyRefl(s, s1);
      SteadyRefl(s, Settle(s1, Dropped));
      var s2 := CloseListenStream(env, s1, l).0;
      ListenSteady(env, s1, CloseFrame(l));
      SteadyThen(s, s1, s2);
      SteadyRefl(s2, Settle(s2, Dropped));
      SteadyThen(s, s2, Settle(s2, Dropped));
    }
  }

  lemma AcceptSteady(env: Env, s: Bridge, f: Frame)
    requires LegalEnv(env)
    requires forall d <- s.connectStreams :: s.connectStreams[d].listenStreamId != f.streamId
    ensures var s' := OnAccept(env, s, f).bridge;
            || Steady(s, s')
            || (Next(s.ids).0.Some? && Opened(env, s, s', f.streamId, Next(s.ids).0.value))
  {
    hide Steady, CloseActive, LegalEnv, Next;
    SteadyRefl(s, s);
    var s0 := CloseListenStream(env, s, f.streamId).0;
    ListenSteady(env, s, CloseFrame(f.streamId));
    SteadyRefl(s0, s0.(entry := RecordDroppedStreams(s0.entry, 1)));
    SteadyThen(s, s0, s0.(entry := RecordDroppedStreams(s0.entry, 1)));
    var (id, ids) := Next(s.ids);
    var s1 := s.(entry := ReserveActiveEntry(s.entry, env.limits.maxActiveTcpStreams), ids := ids);
    SteadyRefl(s, s1);
    if id.None? {
      var s2 := CloseListenStream(env, s1, f.streamId).0;
      ListenSteady(env, s1, CloseFrame(f.streamId));
      SteadyThen(s, s1, s2);
      SteadyRefl(s2, Settle(s2, Dropped));
      SteadyThen(s, s2, Settle(s2, Dropped));
      CloseActiveSteady(env, Settle(s2, Dropped));
      SteadyThen(s, Settle(s2, Dropped), CloseActive(env, Settle(s2, Dropped)).bridge);
    } else {
      OpenSteady(env, s1, f.streamId, id.value);
      if Steady(s1, OpenPair(env, s1, f.streamId, id.value).bridge) {
        SteadyThen(s, s1, OpenPair(env, s1, f.streamId, id.value).bridge);
      }
    }
  }

  lemma ListenEndSteady(env: Env, s: Bridge, f: Frame)
    requires Paired(s.listenToConnect, s.connectStreams)
    ensures Steady(s, OnListenClose(env, s, f).bridge) && Steady(s, OnListenError(env, s, f).bridge)
    ensures Steady(s, OnForwardDrop(env, s, f).bridge)
  {
    hide Steady;
    SteadyRefl(s, s);
    SteadyRefl(s, OnForwardDrop(env, s, f).bridge);
    SteadyRefl(s, s.(entry := RecordDroppedStreams(s.entry, 1)));
    if f.streamId in s.listenToConnect {
      var c := s.listenToConnect[f.streamId];
      var s1 := s.(listenToConnect := s.listenToConnect - {f.streamId});
      SteadyRefl(s, s1);
      CloseConnectSteady(env, s1, c, Release);
      SteadyThen(s, s1, CloseConnectStream(env, Unpair(s1, c, Release), c).0);
    }
  }

  lemma ListenDataSteady(env: Env, s: Bridge, f: Frame)
    requires LegalEnv(env) && Distinct(s.connectStreams) && f.frameType.TcpData?
    ensures Steady(s, OnListenData(env, s, f).bridge)
  {
    hide Steady, QueueOrSend, LegalEnv, Distinct;
    SteadyRefl(s, s);
    if f.streamId in s.listenToConnect {
      var c := s.listenToConnect[f.streamId];
      QueueOrSendSteady(env, s, c, f.(streamId := c));
    }
  }

  lemma ListenEofSteady(env: Env, s: Bridge, f: Frame)
    requires LegalEnv(env) && Distinct(s.connectStreams) && f.frameType.TcpEof?
    ensures f.streamId !in s.listenToConnect ==> Steady(s, OnListenEof(env, s, f).bridge)
    ensures f.streamId in s.listenToConnect ==>
              Steady(MarkListenEof(s, s.listenToConnect[f.streamId]), OnListenEof(env, s, f).bridge)
  {
    hide Steady, QueueOrSend, ClosePairIfFullyEof, LegalEnv;
    SteadyRefl(s, s);
    if f.streamId in s.listenToConnect {
      var c := s.listenToConnect[f.streamId];
      var s1 := MarkListenEof(s, c);
      assert Distinct(s1.connectStreams);
      QueueOrSendSteady(env, s1, c, Frame(f.frameType, 0, c, [], []));
      var s2 := QueueOrSend(env, s1, c, Frame(f.frameType, 0, c, [], [])).bridge;
      SteadyDistinct(s1, s2);
      FullyEofSteady(env, s2, c);
      SteadyThen(s1, s2, ClosePairIfFullyEof(env, s2, c).bridge);
    }
  }

  lemma SteadyDistinct(s: Bridge, s': Bridge)
    requires Distinct(s.connectStreams) && Steady(s, s')
    ensures Distinct(s'.connectStreams)
  {
    hide SentOnEach, PlainOnEach;
    DistinctShrinks(s, s');
  }

  lemma PairedDistinct(s: Bridge)
    requires Paired(s.listenToConnect, s.connectStreams)
    ensures Distinct(s.connectStreams)
  {
  }

  lemma ListenFrameSteady(env: Env, s: Bridge, f: Frame)
    requires LegalEnv(env)
    requires Paired(s.listenToConnect, s.connectStreams) && FreshAccept(s, ListenFrame(f))
    ensures var s', m := Handle(env, s, ListenFrame(f)).bridge, Marked(s, ListenFrame(f));
            || Steady(m, s')
            || (f.frameType.TcpAccept? && Next(s.ids).0.Some? && Opened(env, m, s', f.streamId, Next(s.ids).0.value))
  {
    hide Steady, Opened, OnAccept, OnListenData, OnListenEof, OnListenClose, OnListenError, OnForwardDrop, LegalEnv, Next;
    var r := s.(listenReceived := s.listenReceived + [f]);
    PairedDistinct(r);
    SteadyRefl(r, r);
    match f.frameType
    case TcpAccept => AcceptSteady(env, r, f);
    case TcpData => ListenDataSteady(env, r, f);
    case TcpEof => ListenEofSteady(env, r, f);
    case Close => ListenEndSteady(env, r, f);
    case Error => ListenEndSteady(env, r, f);
    case ForwardDrop => ListenEndSteady(env, r, f);
    case _ =>
  }

  lemma ConnectPayloadSteady(env: Env, s: Bridge, f: Frame)
    requires Distinct(s.connectStreams) && IsPayload(f) && f.streamId in s.connectStreams
    ensures f.frameType.TcpData? ==> Steady(s, OnConnectData(env, s, f).bridge)
    ensures f.frameType.TcpEof? ==>
              var c := f.streamId;
              Steady(s.(connectStreams := s.connectStreams[c := s.connectStreams[c].(connectEof := true)]),
                     OnConnectEof(env, s, f).bridge)
  {
    hide Steady, ClosePairIfFullyEof;
    var c := f.streamId;
    if f.frameType.TcpData? {
      ListenSteady(env, s, Rewritten(f, s.connectStreams[c].listenStreamId));
    } else {
      var s1 := s.(connectStreams := s.connectStreams[c := s.connectStreams[c].(connectEof := true)]);
      ListenSteady(env, s1, Rewritten(f, s.connectStreams[c].listenStreamId));
      var s2 := SendBack(env, s1, c, f).bridge;
      assert Distinct(s2.connectStreams);
      FullyEofSteady(env, s2, c);
      SteadyThen(s1, s2, ClosePairIfFullyEof(env, s2, c).bridge);
    }
  }

  lemma ConnectOkSteady(env: Env, s: Bridge, f: Frame)
    requires LegalEnv(env) && Distinct(s.connectStreams) && f.streamId in s.connectStreams
    requires QueueOk(f.streamId, s.connectStreams[f.streamId])
    ensures var c := f.streamId;
            Steady(s.(connectStreams := s.connectStreams[c := s.connectStreams[c].(ready := true)]),
                   OnConnectOk(env, s, f).bridge)
  {
    hide Steady, Flush, LegalEnv, QueueBytes;
    var c := f.streamId;
    var s0 := s.(connectStreams := s.connectStreams[c := s.connectStreams[c].(ready := true)]);
    var s1, pending := TakePending(s, c), s.connectStreams[c].pendingFrames;
    SteadySame(s0, s1);
    FlushSteady(env, s1, c, pending);
    var s2 := Flush(env, s1, c, pending, false).0.bridge;
    SteadyThen(s0, s1, s2);
    var s3 := s2.(connectStreams := s2.connectStreams - {c});
    SteadySame(s2, s3);
    SteadyThen(s0, s2, s3);
  }

  lemma ConnectEndSteady(env: Env, s: Bridge, f: Frame)
    requires Distinct(s.connectStreams)
    ensures Steady(s, OnConnectClose(env, s, f).bridge)
  {
    hide Steady;
    SteadyRefl(s, s);
    if f.streamId in s.connectStreams {
      UnpairSteady(s, f.streamId, Release);
      CloseListenSteady(env, s, Unpair(s, f.streamId, Release), f.streamId);
    }
  }

  lemma ConnectFrameSteady(env: Env, s: Bridge, f: Frame)
    requires LegalEnv(env) && Distinct(s.connectStreams)
    requires f.streamId in s.connectStreams ==> QueueOk(f.streamId, s.connectStreams[f.streamId])
    ensures Steady(Marked(s, ConnectFrame(f)), Handle(env, s, ConnectFrame(f)).bridge)
  {
    hide Steady, OnConnectOk, OnConnectData, OnConnectEof, OnConnectClose, ClosePair, LegalEnv, QueueOk;
    var r := s.(connectReceived := s.connectReceived + [f]);
    SteadyRefl(r, r);
    if f.streamId in s.connectStreams {
      var stream := s.connectStreams[f.streamId];
      assert s.connectStreams[f.streamId := stream] == s.connectStreams;
      if IsPayload(f) {
        ConnectPayloadSteady(env, r, f);
      } else if f.frameType.TcpConnectOk? {
        ConnectOkSteady(env, r, f);
      } else {
        ClosePairSteady(env, r, f.streamId, ConnectError);
        ConnectEndSteady(env, r, f);
      }
    } else {
      ConnectElsewhere(env, r, f);
    }
  }

  /** A frame on a stream that is not live is ignored, unless it is a fatal error. */
  lemma ConnectElsewhere(env: Env, s: Bridge, f: Frame)
    requires LegalEnv(env) && f.streamId !in s.connectStreams
    ensures OnConnectFrame(env, s, f).bridge == s
  {
  }

  // ----- What holds of every pair -----------------------------------------

  /** Everything sent on a connect stream: its request, then payload, then, only
      if the pair has ended, perhaps one close. */
  ghost predicate Shape(env: Env, s: Bridge, c: nat) {
    var all := AllOn(s.connectSent, c);
    || all == [OpenFrame(env, c)] + OnStream(s.connectSent, c)
    || (c !in s.connectStreams && all == [OpenFrame(env, c)] + OnStream(s.connectSent, c) + [CloseFrame(c)])
  }

  /** A live pair knows what it has received since it began, and nothing went to
      its connect stream before that was confirmed. */
  ghost predicate Informed(s: Bridge, c: nat)
    requires c in s.connectStreams && c in s.origins
  {
    var o, stream := s.origins[c], s.connectStreams[c];
    && o.listenFrom <= |s.listenReceived| && o.connectFrom <= |s.connectReceived| && o.listenSentFrom <= |s.listenSent|
    && stream.listenStreamId == o.listenStreamId
    && (stream.ready <==> Holds(s.connectReceived[o.connectFrom..], TcpConnectOk, c))
    && (stream.connectEof <==> Holds(s.connectReceived[o.connectFrom..], TcpEof, c))
    && (stream.listenEof <==> Holds(s.listenReceived[o.listenFrom..], TcpEof, o.listenStreamId))
    && (!stream.ready ==> OnStream(s.connectSent, c) == [])
  }

  /** Nothing but payload went to the listen stream of a live pair. */
  ghost predicate OnlyReplies(s: Bridge, c: nat)
    requires c in s.origins && s.origins[c].listenSentFrom <= |s.listenSent|
  {
    var o := s.origins[c];
    AllOn(s.listenSent[o.listenSentFrom..], o.listenStreamId) == OnStream(s.listenSent[o.listenSentFrom..], o.listenStreamId)
  }

  ghost predicate Logged(env: Env, s: Bridge) {
    && (forall c: nat :: c !in s.origins ==> AllOn(s.connectSent, c) == [])
    && (forall c <- s.origins :: Shape(env, s, c))
    && (forall c <- s.connectStreams :: c in s.origins && Informed(s, c) && OnlyReplies(s, c))
  }

  /** What was added to the connect log, stream by stream. */
  lemma LogGrows(s: Bridge, s': Bridge, c: nat) returns (more: seq<Frame>)
    requires Steady(s, s')
    ensures AllOn(s'.connectSent, c) == AllOn(s.connectSent, c) + AllOn(more, c)
    ensures OnStream(s'.connectSent, c) == OnStream(s.connectSent, c) + OnStream(more, c)
    ensures SentOn(more, c, c in s.connectStreams, c in s'.connectStreams, IsReady(s, c))
    ensures c in s'.connectStreams ==> c in s.connectStreams
  {
    more := s'.connectSent[|s.connectSent|..];
    assert s'.connectSent == s.connectSent + more;
    hide AllOn, OnStream, SentOn, PlainOnEach;
    AllOnConcat(s.connectSent, more, c);
    OnStreamConcat(s.connectSent, more, c);
  }

  lemma ShapeGrows(open: Frame, sent: seq<Frame>, payload: seq<Frame>, close: Frame)
    ensures [open] + sent + payload == [open] + (sent + payload)
    ensures [open] + sent + (payload + [close]) == [open] + (sent + payload) + [close]
    ensures [open] + sent + [] == [open] + sent && [open] + sent + [close] + [] == [open] + sent + [close] && sent + [] == sent
  {
  }

  lemma ShapeKept(env: Env, s: Bridge, s': Bridge, c: nat)
    requires Steady(s, s') && Shape(env, s, c)
    ensures Shape(env, s', c)
  {
    hide AllOn, OnStream, Steady, IsReady;
    var more := LogGrows(s, s', c);
    ShapeGrows(OpenFrame(env, c), OnStream(s.connectSent, c), OnStream(more, c), CloseFrame(c));
  }

  lemma ElsewhereKept(s: Bridge, s': Bridge, c: nat)
    requires Steady(s, s') && AllOn(s.connectSent, c) == [] && c !in s.connectStreams
    ensures AllOn(s'.connectSent, c) == []
  {
    hide AllOn, OnStream, Steady, IsReady;
    var more := LogGrows(s, s', c);
  }

  lemma InformedKept(s: Bridge, s': Bridge, c: nat)
    requires Steady(s, s') && c in s'.connectStreams && c in s.origins && c in s.connectStreams && Informed(s, c)
    ensures Informed(s', c)
  {
    hide AllOn, OnStream, SentOnEach, PlainOnEach, Holds;
    var more := LogGrows(s, s', c);
  }

  lemma RepliesKept(s: Bridge, s': Bridge, c: nat)
    requires Steady(s, s') && c in s'.connectStreams && c in s.origins && c in s.connectStreams
    requires Informed(s, c) && OnlyReplies(s, c)
    ensures OnlyReplies(s', c)
  {
    var o := s.origins[c];
    var more := s'.listenSent[|s.listenSent|..];
    assert s'.listenSent[o.listenSentFrom..] == s.listenSent[o.listenSentFrom..] + more;
    assert s'.connectStreams[c].listenStreamId == o.listenStreamId;
    hide Holds, SentOnEach;
    AllOnConcat(s.listenSent[o.listenSentFrom..], more, o.listenStreamId);
    OnStreamConcat(s.listenSent[o.listenSentFrom..], more, o.listenStreamId);
  }

  lemma SteadyKeeps(env: Env, s: Bridge, s': Bridge)
    requires Steady(s, s') && Logged(env, s)
    ensures Logged(env, s')
  {
    assert forall c <- s'.connectStreams :: c in s.connectStreams;
    assert s'.origins == s.origins;
    hide Steady, Shape, Informed, OnlyReplies;
    forall c: nat | c !in s'.origins ensures AllOn(s'.connectSent, c) == [] {
      ElsewhereKept(s, s', c);
    }
    forall c <- s'.origins ensures Shape(env, s', c) {
      ShapeKept(env, s, s', c);
    }
    forall c <- s'.connectStreams ensures c in s'.origins && Informed(s', c) {
      InformedKept(s, s', c);
    }
    forall c <- s'.connectStreams ensures Informed(s', c) ==> OnlyReplies(s', c) {
      RepliesKept(s, s', c);
    }
  }

  lemma MarkedInformed(s: Bridge, e: Event, c: nat)
    requires Paired(s.listenToConnect, s.connectStreams)
    requires c in s.connectStreams && c in s.origins && Informed(s, c)
    ensures c in Marked(s, e).connectStreams && Informed(Marked(s, e), c)
  {
    hide Holds, OnStream;
    var o := s.origins[c];
    match e
    case ListenFrame(f) =>
      assert (s.listenReceived + [f])[o.listenFrom..] == s.listenReceived[o.listenFrom..] + [f];
      HoldsAppend(s.listenReceived[o.listenFrom..], f, TcpEof, o.listenStreamId);
      MarkedListen(s, f, c);
    case ConnectFrame(f) =>
      assert (s.connectReceived + [f])[o.connectFrom..] == s.connectReceived[o.connectFrom..] + [f];
      HoldsAppend(s.connectReceived[o.connectFrom..], f, TcpEof, c);
      HoldsAppend(s.connectReceived[o.connectFrom..], f, TcpConnectOk, c);
    case _ =>
  }

  lemma MarkedListen(s: Bridge, f: Frame, c: nat)
    requires Paired(s.listenToConnect, s.connectStreams) && c in s.connectStreams
    ensures var m, stream := Marked(s, ListenFrame(f)), s.connectStreams[c];
            && m == s.(listenReceived := s.listenReceived + [f], connectStreams := m.connectStreams)
            && c in m.connectStreams
            && m.connectStreams[c] == stream.(listenEof := stream.listenEof
                 || (f.frameType.TcpEof? && f.streamId == stream.listenStreamId))
  {
  }

  lemma MarkedFields(s: Bridge, e: Event)
    ensures var m := Marked(s, e);
            && m.origins == s.origins && m.connectSent == s.connectSent && m.listenSent == s.listenSent
            && m.connectStreams.Keys == s.connectStreams.Keys
  {
  }

  lemma ShapeSame(env: Env, s: Bridge, s': Bridge, c: nat)
    requires Shape(env, s, c)
    requires s'.connectSent == s.connectSent && (c in s'.connectStreams ==> c in s.connectStreams)
    ensures Shape(env, s', c)
  {
  }

  lemma RepliesSame(s: Bridge, s': Bridge, c: nat)
    requires c in s.origins && s.origins[c].listenSentFrom <= |s.listenSent| && OnlyReplies(s, c)
    requires c in s'.origins && s'.origins[c] == s.origins[c] && s'.listenSent == s.listenSent
    ensures OnlyReplies(s', c)
  {
  }

  lemma MarkedKeeps(env: Env, s: Bridge, e: Event)
    requires Paired(s.listenToConnect, s.connectStreams) && Logged(env, s)
    ensures Logged(env, Marked(s, e))
  {
    hide Shape, OnlyReplies, Marked, Paired, AllOn, OnStream, Holds;
    var m := Marked(s, e);
    MarkedFields(s, e);
    forall c <- m.origins ensures Shape(env, m, c) {
      ShapeSame(env, s, m, c);
    }
    forall c <- m.connectStreams ensures c in m.origins && Informed(m, c) && OnlyReplies(m, c) {
      assert c in s.connectStreams;
      MarkedInformed(s, e, c);
      RepliesSame(s, m, c);
    }
  }

  /** The other streams do not notice the opening of stream `c`. */
  lemma OpenedOthers(env: Env, s: Bridge, s': Bridge, l: nat, c: nat, d: nat)
    requires Opened(env, s, s', l, c) && d != c
    ensures AllOn(s'.connectSent, d) == AllOn(s.connectSent, d)
    ensures d in s.origins && Shape(env, s, d) ==> Shape(env, s', d)
    ensures d in s.connectStreams && d in s.origins && Informed(s, d) ==> Informed(s', d)
  {
    AllOnAppend(s.connectSent, OpenFrame(env, c), d);
    OnStreamAppend(s.connectSent, OpenFrame(env, c), d);
    hide AllOn, OnStream, Holds;
  }

  lemma OpenedNew(env: Env, s: Bridge, s': Bridge, l: nat, c: nat)
    requires Opened(env, s, s', l, c) && AllOn(s.connectSent, c) == []
    ensures Shape(env, s', c) && Informed(s', c) && OnlyReplies(s', c)
  {
    AllOnAppend(s.connectSent, OpenFrame(env, c), c);
    OnStreamAppend(s.connectSent, OpenFrame(env, c), c);
    PayloadIsSome(s.connectSent, c);
    hide AllOn, OnStream;
    assert s'.listenSent[|s.listenSent|..] == [];
    assert s'.connectReceived[|s.connectReceived|..] == [] && s'.listenReceived[|s.listenReceived|..] == [];
    NothingOn(l);
  }

  lemma OpenedKeeps(env: Env, s: Bridge, s': Bridge, l: nat, c: nat)
    requires Opened(env, s, s', l, c) && Logged(env, s) && c !in s.origins
    ensures Logged(env, s')
  {
    hide Shape, OnlyReplies, AllOn, OnStream, Holds;
    OpenedNew(env, s, s', l, c);
    forall d: nat | d !in s'.origins ensures AllOn(s'.connectSent, d) == [] {
      OpenedOthers(env, s, s', l, c, d);
    }
    forall d <- s'.origins ensures Shape(env, s', d) {
      if d != c {
        OpenedOthers(env, s, s', l, c, d);
      }
    }
    forall d <- s'.connectStreams ensures d in s'.origins && Informed(s', d) && OnlyReplies(s', d) {
      if d != c {
        OpenedOthers(env, s, s', l, c, d);
        RepliesSame(s, s', d);
      }
    }
  }

  lemma {:induction false} PayloadIsSome(fs: seq<Frame>, c: nat)
    requires AllOn(fs, c) == []
    ensures OnStream(fs, c) == []
  {
    if fs != [] {
      PayloadIsSome(fs[..|fs| - 1], c);
    }
  }

  // ----- Every run --------------------------------------------------------

  lemma FrameKeeps(env: Env, base: nat, cap: nat, s: Bridge, e: Event)
    requires LegalEnv(env)
    requires Sound(env, base, cap, s) && Logged(env, s) && FreshAccept(s, e)
    requires e.ListenFrame? || e.ConnectFrame?
    ensures Logged(env, Handle(env, s, e).bridge)
  {
    hide Sound, Logged, Steady, Opened, Handle, LegalEnv, Next, Marked, Paired, QueueOk;
    SoundParts(env, base, cap, s);
    TcpReplies.SoundFacts(env, base, cap, s);
    var m := Marked(s, e);
    MarkedKeeps(env, s, e);
    MarkedFields(s, e);
    if e.ConnectFrame? {
      PairedDistinct(s);
      ConnectFrameSteady(env, s, e.frame);
      SteadyKeeps(env, m, Handle(env, s, e).bridge);
    } else {
      ListenFrameSteady(env, s, e.frame);
      if Steady(m, Handle(env, s, e).bridge) {
        SteadyKeeps(env, m, Handle(env, s, e).bridge);
      } else {
        OpenedKeeps(env, m, Handle(env, s, e).bridge, e.frame.streamId, Next(s.ids).0.value);
      }
    }
  }

  lemma SoundParts(env: Env, base: nat, cap: nat, s: Bridge)
    requires Sound(env, base, cap, s)
    ensures Paired(s.listenToConnect, s.connectStreams)
    ensures forall c <- s.connectStreams :: QueueOk(c, s.connectStreams[c])
  {
    hide Paired, SlotsHeld, Tracked, Untouched, Prefixes, QueueOk;
  }

  lemma EventKeeps(env: Env, base: nat, cap: nat, s: Bridge, e: Event)
    requires LegalEnv(env)
    requires Sound(env, base, cap, s) && Logged(env, s) && FreshAccept(s, e)
    ensures Logged(env, Handle(env, s, e).bridge)
  {
    hide Sound, Logged, Steady, OnListenFrame, OnConnectFrame, CloseActive, LegalEnv, FreshAccept;
    match e
    case ListenFrame(_) => FrameKeeps(env, base, cap, s, e);
    case ConnectFrame(_) => FrameKeeps(env, base, cap, s, e);
    case ConnectLost =>
      CloseActiveSteady(env, s);
      SteadyKeeps(env, s, CloseActive(env, s).bridge);
    case _ =>
  }

  lemma NothingLogged(env: Env, entry: ForwardPortEntry)
    ensures Logged(env, Initial(entry))
  {
  }

  lemma {:induction false} RunLogged(env: Env, entry: ForwardPortEntry, events: seq<Event>)
    requires LegalEnv(env)
    requires FreshAccepts(env, entry, events)
    ensures Logged(env, Run(env, entry, events).bridge)
  {
    if events == [] {
      NothingLogged(env, entry);
    } else {
      var n := |events| - 1;
      var before := events[..n];
      assert forall k :: 0 <= k <= n ==> before[..k] == events[..k];
      assert FreshAccept(Run(env, entry, events[..n]).bridge, events[n]);
      RunLogged(env, entry, before);
      RunKeeps(env, entry, before);
      hide Sound, Exact, Handle, FreshAccept, LegalEnv, Logged;
      if Run(env, entry, before).outcome.Continue? {
        EventKeeps(env, entry.activeTcpStreams, Cap(env, entry), Run(env, entry, before).bridge, events[n]);
      }
    }
  }

  /** In every run, the frames on the connect stream of a pair are its TcpConnect
      request, which comes first and once, then payload, then at most one close,
      and that only once the pair has ended. No frame goes to any other stream. */
  lemma OpenedOnceBeforeUse(env: Env, entry: ForwardPortEntry, events: seq<Event>, c: nat)
    requires LegalEnv(env)
    requires FreshAccepts(env, entry, events)
    ensures var s := Run(env, entry, events).bridge;
            var open, payload := Frame(TcpConnect, 0, c, env.endpointMeta, []), OnStream(s.connectSent, c);
            if c in s.connectStreams then
              AllOn(s.connectSent, c) == [open] + payload
            else if c in s.origins then
              || AllOn(s.connectSent, c) == [open] + payload
              || AllOn(s.connectSent, c) == [open] + payload + [CloseFrame(c)]
            else
              AllOn(s.connectSent, c) == []
  {
    RunLogged(env, entry, events);
    hide Run, LegalEnv, FreshAccepts, AllOn, OnStream, Informed, OnlyReplies;
    assert var s := Run(env, entry, events).bridge;
           (c in s.connectStreams ==> c in s.origins) && (c in s.origins ==> Shape(env, s, c));
  }

  /** What a live pair has sent and queues, told by the histories alone: once the
      connect side has confirmed its stream nothing is queued and all its input
      has been sent; until then nothing has been sent and all of it is queued.
      Its listen stream has carried its replies and nothing else. */
  ghost predicate ToldByHistory(s: Bridge, c: nat)
    requires c in s.connectStreams
  {
    && c in s.origins
    && var o := s.origins[c];
       && o.listenFrom <= |s.listenReceived| && o.connectFrom <= |s.connectReceived| && o.listenSentFrom <= |s.listenSent|
       && var input := Relayed(s.listenReceived[o.listenFrom..], o.listenStreamId, c);
          && (if Holds(s.connectReceived[o.connectFrom..], TcpConnectOk, c)
              then OnStream(s.connectSent, c) == input && s.connectStreams[c].pendingFrames == []
              else OnStream(s.connectSent, c) == [] && s.connectStreams[c].pendingFrames == input)
          && AllOn(s.listenSent[o.listenSentFrom..], o.listenStreamId)
             == Relayed(s.connectReceived[o.connectFrom..], c, o.listenStreamId)
  }

  lemma InformedTold(s: Bridge, c: nat)
    requires c in s.connectStreams && c in s.origins && Informed(s, c) && OnlyReplies(s, c)
    requires QueueOk(c, s.connectStreams[c])
    requires var o := s.origins[c];
             && OnStream(s.connectSent, c) + s.connectStreams[c].pendingFrames
                == Relayed(s.listenReceived[o.listenFrom..], o.listenStreamId, c)
             && OnStream(s.listenSent[o.listenSentFrom..], o.listenStreamId)
                == Relayed(s.connectReceived[o.connectFrom..], c, o.listenStreamId)
    ensures ToldByHistory(s, c)
  {
    hide AllOn, OnStream, Relayed, Holds, QueueBytes;
    if s.connectStreams[c].ready {
      assert OnStream(s.connectSent, c) + [] == OnStream(s.connectSent, c);
    } else {
      assert [] + s.connectStreams[c].pendingFrames == s.connectStreams[c].pendingFrames;
    }
  }

  /** While a run goes on, every live pair is as its histories tell. */
  lemma ReadyExactlyWhenConfirmed(env: Env, entry: ForwardPortEntry, events: seq<Event>, c: nat)
    requires LegalEnv(env)
    requires FreshAccepts(env, entry, events)
    requires Run(env, entry, events).outcome.Continue? && c in Run(env, entry, events).bridge.connectStreams
    ensures ToldByHistory(Run(env, entry, events).bridge, c)
  {
    RunLogged(env, entry, events);
    RelayIsExact(env, entry, events, c);
    RunKeeps(env, entry, events);
    hide Run, LegalEnv, FreshAccepts, AllOn, OnStream, Relayed, Shape, Holds, Sound, Exact, QueueOk, ToldByHistory;
    var s := Run(env, entry, events).bridge;
    SoundParts(env, entry.activeTcpStreams, Cap(env, entry), s);
    InformedTold(s, c);
  }

  /** The half-close flags of a live pair, too, are told by the histories: a side
      counts as finished exactly when its TcpEof has arrived since the pair began. */
  lemma FinishedExactlyWhenTold(env: Env, entry: ForwardPortEntry, events: seq<Event>, c: nat)
    requires LegalEnv(env)
    requires FreshAccepts(env, entry, events)
    requires c in Run(env, entry, events).bridge.connectStreams
    ensures var s := Run(env, entry, events).bridge;
            && c in s.origins
            && var o := s.origins[c];
               && o.listenFrom <= |s.listenReceived| && o.connectFrom <= |s.connectReceived|
               && (s.connectStreams[c].listenEof <==> Holds(s.listenReceived[o.listenFrom..], TcpEof, o.listenStreamId))
               && (s.connectStreams[c].connectEof <==> Holds(s.connectReceived[o.connectFrom..], TcpEof, c))
  {
    RunLogged(env, entry, events);
    hide Run, LegalEnv, FreshAccepts, AllOn, OnStream, Shape, Holds, OnlyReplies;
    assert Informed(Run(env, entry, events).bridge, c);
  }
}
