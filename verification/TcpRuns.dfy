/** Every event of the TCP bridge keeps its invariant, hence so does every run of
    an epoch; the promises of the bridge are read off from that. */
module TcpRuns {
  import opened Common
  import opened Frames
  import opened StreamIds
  import opened ForwardEntries
  import opened MapSums
  import opened TcpBridge
  import opened TcpInvariants

  // ----- Frames towards the connect side ----------------------------------

  lemma QueueFacts(env: Env, base: nat, cap: nat, s: Bridge, c: nat)
    requires Sound(env, base, cap, s)
    requires c in s.connectStreams
    ensures s.connectStreams[c].ready ==> s.connectStreams[c].pendingFrames == []
    ensures forall f :: f in s.connectStreams[c].pendingFrames ==> IsPayload(f) && f.streamId == c
  {
    hide Paired, Tracked, Prefixes, Untouched;
    assert QueueOk(c, s.connectStreams[c]);
  }

  lemma QueueOrSendKeeps(env: Env, base: nat, cap: nat, s: Bridge, c: nat, f: Frame)
    requires LegalEnv(env)
    requires Sound(env, base, cap, s)
    requires c in s.connectStreams
    requires IsPayload(f) && f.streamId == c
    requires Exact(s, c, [f], [])
    ensures var step := QueueOrSend(env, s, c, f);
            && Sound(env, base, cap, step.bridge)
            && (step.outcome.Continue? ==> Exact(step.bridge, c, [], []))
  {
    hide Sound, Exact, Unpair, SendConnect, SendListen, Enqueue, CloseActive, FitsPending, ClosePair, LegalEnv;
    QueueFacts(env, base, cap, s, c);
    if s.connectStreams[c].ready {
      assert [f] + [] == [f];
      PayloadOnConnectTunnel(env, base, cap, s, f, []);
      var (s1, r) := SendConnect(env, s, f);
      ConnectSendFrame(env, s, f);
      match r
      case Sent =>
      case Backpressure => PairClosed(env, base, cap, s1, c, ConnectPressure, [f]);
      case Retryable => ActiveClosed(env, base, cap, s1);
      case Fatal =>
    } else if FitsPending(env, s, c, f) {
      Enqueued(env, base, cap, s, c, f);
    } else {
      Unpaired(env, base, cap, s, c, Dropped, [f], []);
      BothClosed(env, base, cap, Unpair(s, c, Dropped), c, s.connectStreams[c].listenStreamId);
    }
  }

  lemma ConnectSendFrame(env: Env, s: Bridge, f: Frame)
    ensures var s1 := SendConnect(env, s, f).0;
            s1.connectStreams == s.connectStreams && s1.listenToConnect == s.listenToConnect
  {
  }

  /** The flush loop sends a prefix of the queue; the branch for a queued `Close`
      is never taken, and the stream is to be removed only if it is gone already. */
  lemma {:induction false} FlushKeeps(env: Env, base: nat, cap: nat, s: Bridge, c: nat, frames: seq<Frame>)
    requires LegalEnv(env)
    requires Sound(env, base, cap, s)
    requires c in s.connectStreams && s.connectStreams[c].pendingFrames == []
    requires forall f :: f in frames ==> IsPayload(f) && f.streamId == c
    requires Exact(s, c, frames, [])
    ensures var (step, remove) := Flush(env, s, c, frames, false);
            && Sound(env, base, cap, step.bridge)
            && (step.outcome.Continue? ==> Exact(step.bridge, c, [], []))
            && (remove ==> c !in step.bridge.connectStreams)
    decreases |frames|
  {
    hide Sound, Exact, SendConnect, SendListen, CloseActive, ClosePair, LegalEnv;
    if frames != [] {
      var f := frames[0];
      assert f in frames;
      assert [f] + frames[1..] == frames;
      PayloadOnConnectTunnel(env, base, cap, s, f, frames[1..]);
      var (s1, r) := SendConnect(env, s, f);
      ConnectSendFrame(env, s, f);
      match r
      case Sent => FlushKeeps(env, base, cap, s1, c, frames[1..]);
      case Backpressure =>
        PairClosed(env, base, cap, s1, c, ConnectPressure, frames);
        ClosedPairGone(env, s1, c, ConnectPressure);
      case Retryable => ActiveClosed(env, base, cap, s1);
      case Fatal =>
    }
  }

  lemma ClosedPairGone(env: Env, s: Bridge, c: nat, reason: PairCloseReason)
    ensures c !in ClosePair(env, s, c, reason).bridge.connectStreams
  {
  }

  // ----- Handlers of the listen tunnel ------------------------------------

  lemma FreshId(s: Bridge)
    requires Tracked(s.connectStreams, s.origins, s.ids, s.listenReceived, s.connectReceived, s.listenSent)
    ensures Tracked(s.connectStreams, s.origins, Next(s.ids).1, s.listenReceived, s.connectReceived, s.listenSent)
    ensures Next(s.ids).0.Some? ==>
              var c := Next(s.ids).0.value; var ids := Next(s.ids).1;
              c !in s.origins && (c < ids.next || (ids.exhausted && c == ids.next))
  {
  }

  lemma NewPairTracked(s: Bridge, l: nat, c: nat)
    requires Tracked(s.connectStreams, s.origins, s.ids, s.listenReceived, s.connectReceived, s.listenSent)
    requires Untouched(s.origins, s.connectSent)
    requires Prefixes(s.origins, s.connectSent, s.listenReceived)
    requires c !in s.origins && (c < s.ids.next || (s.ids.exhausted && c == s.ids.next))
    ensures var s' := RecordPair(s, l, c);
            && Tracked(s'.connectStreams, s'.origins, s'.ids, s'.listenReceived, s'.connectReceived, s'.listenSent)
            && Untouched(s'.origins, s'.connectSent)
            && Prefixes(s'.origins, s'.connectSent, s'.listenReceived)
  {
    assert s.listenReceived[|s.listenReceived|..] == [];
    assert OnStream(s.connectSent, c) == [];
  }

  lemma NewPairExact(s: Bridge, l: nat, c: nat)
    requires Forwarded(s.connectStreams, s.origins, s.connectSent, s.listenReceived, 0, [])
    requires Returned(s.connectStreams, s.origins, s.listenSent, s.connectReceived, 0, [])
    requires Untouched(s.origins, s.connectSent)
    requires c !in s.origins
    ensures Exact(RecordPair(s, l, c), 0, [], [])
  {
    assert s.listenReceived[|s.listenReceived|..] == [];
    assert s.connectReceived[|s.connectReceived|..] == [];
    assert s.listenSent[|s.listenSent|..] == [];
    assert OnStream(s.connectSent, c) == [];
  }

  /** Recording a pair keeps the maps inverse exactly when its listen id is not
      paired already: the insertion overwrites blindly. */
  lemma PairedIffFresh(s: Bridge, l: nat, c: nat)
    requires Paired(s.listenToConnect, s.connectStreams)
    requires c !in s.connectStreams
    ensures Paired(RecordPair(s, l, c).listenToConnect, RecordPair(s, l, c).connectStreams)
       <==> l !in s.listenToConnect
  {
    var s' := RecordPair(s, l, c);
    if l in s.listenToConnect {
      var was := s.listenToConnect[l];
      assert was in s'.connectStreams && s'.connectStreams[was].listenStreamId == l;
      assert s'.listenToConnect[l] == c;
    }
  }

  lemma PairRecorded(env: Env, base: nat, cap: nat, s: Bridge, l: nat, c: nat)
    requires Sound(env, base + 1, cap, s)
    requires Exact(s, 0, [], [])
    requires l !in s.listenToConnect
    requires c !in s.origins && (c < s.ids.next || (s.ids.exhausted && c == s.ids.next))
    ensures Sound(env, base, cap, RecordPair(s, l, c))
    ensures Exact(RecordPair(s, l, c), 0, [], [])
  {
    hide Paired, Budgeted, Tracked, Prefixes, Untouched, Forwarded, Returned;
    if c in s.connectStreams {
      Known(s, c);
    }
    PairedIffFresh(s, l, c);
    NewPairTracked(s, l, c);
    NewPairExact(s, l, c);
    var stream := TcpConnectStream(l, false, false, false, [], 0);
    NewQueue(env, s, c, stream);
    var streams := s.connectStreams[c := stream];
    assert streams.Keys == s.connectStreams.Keys + {c};
    assert |streams| == |streams.Keys| == |s.connectStreams.Keys| + 1;
  }

  lemma NewQueue(env: Env, s: Bridge, c: nat, stream: TcpConnectStream)
    requires Budgeted(env.limits, s.connectStreams, s.totalBytes)
    requires c !in s.connectStreams
    requires stream.pendingFrames == [] && stream.pendingBytes == 0
    ensures Budgeted(env.limits, s.connectStreams[c := stream], s.totalBytes)
  {
    BudgetedPut(env.limits, s.connectStreams, s.totalBytes, c, stream, s.totalBytes);
  }

  /** A reserved slot, held by no pair yet, and its settlement. */
  lemma Reserved(env: Env, base: nat, cap: nat, s: Bridge)
    requires Sound(env, base, cap, s)
    requires Exact(s, 0, [], [])
    requires s.entry.activeTcpStreams < cap
    ensures var s1 := s.(entry := s.entry.(activeTcpStreams := s.entry.activeTcpStreams + 1), ids := Next(s.ids).1);
            Sound(env, base + 1, cap, s1) && Exact(s1, 0, [], [])
    ensures Next(s.ids).0.Some? ==>
              var c := Next(s.ids).0.value; var ids := Next(s.ids).1;
              c !in s.origins && (c < ids.next || (ids.exhausted && c == ids.next))
  {
    hide Paired, Budgeted, Tracked, Prefixes, Untouched, Forwarded, Returned, Next;
    FreshId(s);
  }

  lemma Settled(env: Env, base: nat, cap: nat, s: Bridge, how: Settlement)
    requires Sound(env, base + 1, cap, s)
    ensures Sound(env, base, cap, Settle(s, how))
    ensures Exact(s, 0, [], []) ==> Exact(Settle(s, how), 0, [], [])
  {
    hide Paired, Budgeted, Tracked, Prefixes, Untouched, Forwarded, Returned;
  }

  lemma EntryOnly(env: Env, base: nat, cap: nat, s: Bridge, entry: ForwardPortEntry)
    requires Sound(env, base, cap, s)
    requires entry.activeTcpStreams == s.entry.activeTcpStreams
    ensures Sound(env, base, cap, s.(entry := entry))
    ensures Exact(s, 0, [], []) ==> Exact(s.(entry := entry), 0, [], [])
  {
    hide Paired, Budgeted, Tracked, Prefixes, Untouched, Forwarded, Returned;
  }

  lemma AcceptKeeps(env: Env, base: nat, cap: nat, s: Bridge, f: Frame)
    requires LegalEnv(env)
    requires Sound(env, base, cap, s)
    requires Exact(s, 0, [], [])
    requires f.streamId !in s.listenToConnect
    requires env.limits.maxActiveTcpStreams <= cap
    ensures var step := OnAccept(env, s, f);
            && Sound(env, base, cap, step.bridge)
            && (step.outcome.Continue? ==> Exact(step.bridge, 0, [], []))
  {
    hide Sound, Exact, SendConnect, SendListen, Settle, CloseActive, RecordPair, Next, LegalEnv;
    var issued := Next(s.ids);
    if s.entry.activeTcpStreams >= env.limits.maxActiveTcpStreams {
      OnListenTunnel(env, base, cap, s, CloseFrame(f.streamId), 0, [], []);
      var s1 := CloseListenStream(env, s, f.streamId).0;
      EntryOnly(env, base, cap, s1, RecordDroppedStreams(s1.entry, 1));
    } else {
      Reserved(env, base, cap, s);
      var s1 := s.(entry := s.entry.(activeTcpStreams := s.entry.activeTcpStreams + 1), ids := issued.1);
      match issued.0
      case None =>
        OnListenTunnel(env, base + 1, cap, s1, CloseFrame(f.streamId), 0, [], []);
        var s2 := CloseListenStream(env, s1, f.streamId).0;
        Settled(env, base, cap, s2, Dropped);
        ActiveClosed(env, base, cap, Settle(s2, Dropped));
      case Some(c) =>
        var open := Frame(TcpConnect, 0, c, env.endpointMeta, []);
        ControlOnConnectTunnel(env, base + 1, cap, s1, open, 0, [], []);
        var (s2, r) := SendConnect(env, s1, open);
        OpenFrame(env, s1, open);
        if r.Sent? {
          PairRecorded(env, base, cap, s2, f.streamId, c);
        } else {
          Settled(env, base, cap, s2, Dropped);
          OnListenTunnel(env, base + 1, cap, s2, CloseFrame(f.streamId), 0, [], []);
          Settled(env, base, cap, CloseListenStream(env, s2, f.streamId).0, Dropped);
        }
    }
  }

  lemma OpenFrame(env: Env, s: Bridge, f: Frame)
    ensures var s1 := SendConnect(env, s, f).0;
            s1.listenToConnect == s.listenToConnect && s1.origins == s.origins && s1.ids == s.ids
  {
  }

  lemma ListenPayloadKeeps(env: Env, base: nat, cap: nat, s: Bridge, f: Frame)
    requires LegalEnv(env)
    requires Sound(env, base, cap, s)
    requires IsPayload(f)
    requires if f.streamId in s.listenToConnect
             then Exact(s, s.listenToConnect[f.streamId], [Rewritten(f, s.listenToConnect[f.streamId])], [])
             else Exact(s, 0, [], [])
    ensures var step := if f.frameType.TcpData? then OnListenData(env, s, f) else OnListenEof(env, s, f);
            && Sound(env, base, cap, step.bridge)
            && (step.outcome.Continue? ==> Exact(step.bridge, 0, [], []))
  {
    hide Sound, Exact, QueueOrSend, ClosePairIfFullyEof, LegalEnv;
    if f.streamId in s.listenToConnect {
      var c := s.listenToConnect[f.streamId];
      var g := Rewritten(f, c);
      PairFacts(env, base, cap, s, f.streamId);
      if f.frameType.TcpData? {
        QueueOrSendKeeps(env, base, cap, s, c, g);
        Rest(QueueOrSend(env, s, c, g).bridge, c);
      } else {
        Flagged(env, base, cap, s, c, s.connectStreams[c].(listenEof := true), c, [g], []);
        var s1 := MarkListenEof(s, c);
        QueueOrSendKeeps(env, base, cap, s1, c, g);
        var step := QueueOrSend(env, s1, c, g);
        if step.outcome.Continue? {
          FullyEofClosed(env, base, cap, step.bridge, c);
          Rest(ClosePairIfFullyEof(env, step.bridge, c).bridge, c);
        }
      }
    }
  }

  lemma PairFacts(env: Env, base: nat, cap: nat, s: Bridge, l: nat)
    requires Sound(env, base, cap, s)
    requires l in s.listenToConnect
    ensures s.listenToConnect[l] in s.connectStreams
    ensures s.connectStreams[s.listenToConnect[l]].listenStreamId == l
  {
    hide Budgeted, Tracked, Prefixes, Untouched;
  }

  lemma Rest(s: Bridge, c: nat)
    ensures Exact(s, c, [], []) <==> Exact(s, 0, [], [])
  {
    Idle(s, c, 0);
    hide Forwarded, Returned;
  }

  /** Dropping the listen mapping first does not change what removing the pair does. */
  lemma UnmappedFirst(s: Bridge, l: nat, c: nat)
    requires c in s.connectStreams && s.connectStreams[c].listenStreamId == l
    ensures Unpair(s.(listenToConnect := s.listenToConnect - {l}), c, Release) == Unpair(s, c, Release)
  {
    assert s.listenToConnect - {l} - {l} == s.listenToConnect - {l};
  }

  /** A listen stream that closes or fails takes its pair with it. */
  lemma ListenEndKeeps(env: Env, base: nat, cap: nat, s: Bridge, f: Frame)
    requires Sound(env, base, cap, s)
    requires Exact(s, 0, [], [])
    ensures Sound(env, base, cap, OnListenClose(env, s, f).bridge)
    ensures Exact(OnListenClose(env, s, f).bridge, 0, [], [])
    ensures Sound(env, base, cap, OnListenError(env, s, f).bridge)
    ensures Exact(OnListenError(env, s, f).bridge, 0, [], [])
  {
    hide Sound, Exact, Unpair, SendConnect, SendListen;
    EntryOnly(env, base, cap, s, RecordDroppedStreams(s.entry, 1));
    if f.streamId in s.listenToConnect {
      var c := s.listenToConnect[f.streamId];
      PairFacts(env, base, cap, s, f.streamId);
      UnmappedFirst(s, f.streamId, c);
      Rest(s, c);
      Unpaired(env, base, cap, s, c, Release, [], []);
      ControlOnConnectTunnel(env, base, cap, Unpair(s, c, Release), CloseFrame(c), c, [], []);
      Rest(CloseConnectStream(env, Unpair(s, c, Release), c).0, c);
    }
  }

  // ----- Handlers of the connect tunnel -----------------------------------

  lemma ConnectOkKeeps(env: Env, base: nat, cap: nat, s: Bridge, f: Frame)
    requires LegalEnv(env)
    requires Sound(env, base, cap, s)
    requires Exact(s, 0, [], [])
    ensures var step := OnConnectOk(env, s, f);
            && Sound(env, base, cap, step.bridge)
            && (step.outcome.Continue? ==> Exact(step.bridge, 0, [], []))
  {
    hide Sound, Exact, Flush, LegalEnv;
    if f.streamId in s.connectStreams {
      var c := f.streamId;
      var pending := s.connectStreams[c].pendingFrames;
      QueueFacts(env, base, cap, s, c);
      Rest(s, c);
      PendingTaken(env, base, cap, s, c);
      FlushKeeps(env, base, cap, TakePending(s, c), c, pending);
      var (step, remove) := Flush(env, TakePending(s, c), c, pending, false);
      if remove {
        assert step.bridge.connectStreams - {c} == step.bridge.connectStreams;
        assert step.bridge == step.bridge.(connectStreams := step.bridge.connectStreams - {c});
      }
      Rest(step.bridge, c);
    }
  }

  lemma ConnectPayloadKeeps(env: Env, base: nat, cap: nat, s: Bridge, f: Frame)
    requires Sound(env, base, cap, s)
    requires IsPayload(f)
    requires if f.streamId in s.connectStreams
             then Exact(s, f.streamId, [], [Rewritten(f, s.connectStreams[f.streamId].listenStreamId)])
             else Exact(s, 0, [], [])
    ensures var step := if f.frameType.TcpData? then OnConnectData(env, s, f) else OnConnectEof(env, s, f);
            && Sound(env, base, cap, step.bridge)
            && (step.outcome.Continue? ==> Exact(step.bridge, 0, [], []))
  {
    hide Sound, Exact, ClosePairIfFullyEof;
    if f.streamId in s.connectStreams {
      var c := f.streamId;
      if f.frameType.TcpData? {
        SendBackKeeps(env, base, cap, s, c, f);
        Rest(SendBack(env, s, c, f).bridge, c);
      } else {
        var g := Rewritten(f, s.connectStreams[c].listenStreamId);
        Flagged(env, base, cap, s, c, s.connectStreams[c].(connectEof := true), c, [], [g]);
        var s1 := s.(connectStreams := s.connectStreams[c := s.connectStreams[c].(connectEof := true)]);
        SendBackKeeps(env, base, cap, s1, c, f);
        var step := SendBack(env, s1, c, f);
        if step.outcome.Continue? {
          FullyEofClosed(env, base, cap, step.bridge, c);
          Rest(ClosePairIfFullyEof(env, step.bridge, c).bridge, c);
        }
      }
    }
  }

  lemma SendBackKeeps(env: Env, base: nat, cap: nat, s: Bridge, c: nat, f: Frame)
    requires Sound(env, base, cap, s)
    requires c in s.connectStreams
    requires IsPayload(f)
    requires Exact(s, c, [], [Rewritten(f, s.connectStreams[c].listenStreamId)])
    ensures Sound(env, base, cap, SendBack(env, s, c, f).bridge)
    ensures SendBack(env, s, c, f).outcome.Continue? ==> Exact(SendBack(env, s, c, f).bridge, c, [], [])
  {
    hide Sound, Exact;
    var g := Rewritten(f, s.connectStreams[c].listenStreamId);
    OnListenTunnel(env, base, cap, s, g, c, [], [g]);
  }

  lemma ConnectEndKeeps(env: Env, base: nat, cap: nat, s: Bridge, f: Frame)
    requires Sound(env, base, cap, s)
    requires Exact(s, 0, [], [])
    ensures Sound(env, base, cap, OnConnectClose(env, s, f).bridge)
    ensures Exact(OnConnectClose(env, s, f).bridge, 0, [], [])
    ensures Sound(env, base, cap, ClosePair(env, s, f.streamId, ConnectError).bridge)
    ensures Exact(ClosePair(env, s, f.streamId, ConnectError).bridge, 0, [], [])
  {
    hide Sound, Exact, Unpair, SendListen;
    var c := f.streamId;
    Rest(s, c);
    PairClosed(env, base, cap, s, c, ConnectError, []);
    Rest(ClosePair(env, s, c, ConnectError).bridge, c);
  }

  // ----- One event, and a whole epoch -------------------------------------

  lemma ListenFrameKeeps(env: Env, base: nat, cap: nat, s: Bridge, f: Frame)
    requires LegalEnv(env)
    requires Sound(env, base, cap, s)
    requires Exact(s, 0, [], [])
    requires FreshAccept(s, ListenFrame(f))
    requires env.limits.maxActiveTcpStreams <= cap
    ensures var step := Handle(env, s, ListenFrame(f));
            && Sound(env, base, cap, step.bridge)
            && (step.outcome.Continue? ==> Exact(step.bridge, 0, [], []))
  {
    hide Sound, Exact, OnAccept, OnListenData, OnListenEof, OnListenClose, OnListenError, LegalEnv;
    ReceiveListen(env, base, cap, s, f);
    var s1 := s.(listenReceived := s.listenReceived + [f]);
    match f.frameType
    case TcpAccept => AcceptKeeps(env, base, cap, s1, f);
    case TcpData => ListenPayloadKeeps(env, base, cap, s1, f);
    case TcpEof => ListenPayloadKeeps(env, base, cap, s1, f);
    case Close => ListenEndKeeps(env, base, cap, s1, f);
    case Error => ListenEndKeeps(env, base, cap, s1, f);
    case ForwardDrop =>
      EntryOnly(env, base, cap, s1, OnForwardDrop(env, s1, f).bridge.entry);
    case _ =>
  }

  lemma ConnectFrameKeeps(env: Env, base: nat, cap: nat, s: Bridge, f: Frame)
    requires LegalEnv(env)
    requires Sound(env, base, cap, s)
    requires Exact(s, 0, [], [])
    ensures var step := Handle(env, s, ConnectFrame(f));
            && Sound(env, base, cap, step.bridge)
            && (step.outcome.Continue? ==> Exact(step.bridge, 0, [], []))
  {
    hide Sound, Exact, OnConnectOk, OnConnectData, OnConnectEof, OnConnectClose, ClosePair, LegalEnv;
    ReceiveConnect(env, base, cap, s, f);
    var s1 := s.(connectReceived := s.connectReceived + [f]);
    match f.frameType
    case TcpConnectOk => ConnectOkKeeps(env, base, cap, s1, f);
    case TcpData => ConnectPayloadKeeps(env, base, cap, s1, f);
    case TcpEof => ConnectPayloadKeeps(env, base, cap, s1, f);
    case Close => ConnectEndKeeps(env, base, cap, s1, f);
    case Error => ConnectEndKeeps(env, base, cap, s1, f);
    case _ =>
  }

  /** Every event keeps the invariant; unless it ends the epoch, it also leaves
      both directions of every live pair exact. */
  lemma HandleKeeps(env: Env, base: nat, cap: nat, s: Bridge, e: Event)
    requires LegalEnv(env)
    requires Sound(env, base, cap, s)
    requires Exact(s, 0, [], [])
    requires FreshAccept(s, e)
    requires env.limits.maxActiveTcpStreams <= cap
    ensures var step := Handle(env, s, e);
            && Sound(env, base, cap, step.bridge)
            && (step.outcome.Continue? ==> Exact(step.bridge, 0, [], []))
  {
    hide Sound, Exact, OnListenFrame, OnConnectFrame, CloseActive, LegalEnv;
    match e
    case ListenFrame(f) => ListenFrameKeeps(env, base, cap, s, f);
    case ConnectFrame(f) => ConnectFrameKeeps(env, base, cap, s, f);
    case ConnectLost => ActiveClosed(env, base, cap, s);
    case _ =>
  }

  function Cap(env: Env, entry: ForwardPortEntry): nat {
    if entry.activeTcpStreams <= env.limits.maxActiveTcpStreams
    then env.limits.maxActiveTcpStreams else entry.activeTcpStreams
  }

  lemma {:induction false} RunKeeps(env: Env, entry: ForwardPortEntry, events: seq<Event>)
    requires LegalEnv(env)
    requires FreshAccepts(env, entry, events)
    ensures var r := Run(env, entry, events);
            && Sound(env, entry.activeTcpStreams, Cap(env, entry), r.bridge)
            && (r.outcome.Continue? ==> Exact(r.bridge, 0, [], []))
  {
    var base, cap := entry.activeTcpStreams, Cap(env, entry);
    if events == [] {
      assert Pending(map[]) == map[];
    } else {
      var n := |events| - 1;
      var before := events[..n];
      assert forall k :: 0 <= k <= n ==> before[..k] == events[..k];
      assert FreshAccept(Run(env, entry, events[..n]).bridge, events[n]);
      RunKeeps(env, entry, before);
      hide Sound, Exact, Handle, FreshAccept, LegalEnv;
      if Run(env, entry, before).outcome.Continue? {
        HandleKeeps(env, base, cap, Run(env, entry, before).bridge, events[n]);
      }
    }
  }

  // ----- What the bridge promises -----------------------------------------

  /** Relay refinement. In every run of an epoch, for every live pair: what the
      connect tunnel took for it, followed by its queue, is exactly the payload
      received for its connection; and what the listen tunnel took back is
      exactly the payload received on its connect stream. */
  lemma RelayIsExact(env: Env, entry: ForwardPortEntry, events: seq<Event>, c: nat)
    requires LegalEnv(env)
    requires FreshAccepts(env, entry, events)
    requires Run(env, entry, events).outcome.Continue?
    requires c in Run(env, entry, events).bridge.connectStreams
    ensures var s := Run(env, entry, events).bridge;
            && c in s.origins
            && var o := s.origins[c];
            && o.listenStreamId == s.connectStreams[c].listenStreamId
            && o.listenFrom <= |s.listenReceived| && o.connectFrom <= |s.connectReceived| && o.listenSentFrom <= |s.listenSent|
            && OnStream(s.connectSent, c) + s.connectStreams[c].pendingFrames
               == Relayed(s.listenReceived[o.listenFrom..], o.listenStreamId, c)
            && OnStream(s.listenSent[o.listenSentFrom..], o.listenStreamId)
               == Relayed(s.connectReceived[o.connectFrom..], c, o.listenStreamId)
  {
    RunKeeps(env, entry, events);
    var s := Run(env, entry, events).bridge;
    assert Owed(c, 0, []) == [];
    hide Run, Paired, Budgeted, Untouched, Prefixes, LegalEnv, FreshAccepts;
    assert OnStream(s.connectSent, c) + s.connectStreams[c].pendingFrames + []
        == OnStream(s.connectSent, c) + s.connectStreams[c].pendingFrames;
  }

  /** However its run ends, a pair has sent nothing but a prefix of the payload of
      its own connection, even if its listen id was used again since. */
  lemma ClosedPairsSentAPrefix(env: Env, entry: ForwardPortEntry, events: seq<Event>, c: nat)
    requires LegalEnv(env)
    requires FreshAccepts(env, entry, events)
    requires c in Run(env, entry, events).bridge.origins
    ensures var s := Run(env, entry, events).bridge; var o := s.origins[c];
            && o.listenFrom <= |s.listenReceived|
            && OnStream(s.connectSent, c)
               <= Relayed(Session(s.listenReceived[o.listenFrom..], o.listenStreamId), o.listenStreamId, c)
  {
    RunKeeps(env, entry, events);
    hide Run, Paired, Budgeted, Untouched, LegalEnv, FreshAccepts;
  }

  /** Slot conservation: at every moment of an epoch the forward holds one slot
      per live pair beyond those it held at the start, and never exceeds the limit. */
  lemma SlotsConserved(env: Env, entry: ForwardPortEntry, events: seq<Event>)
    requires LegalEnv(env)
    requires FreshAccepts(env, entry, events)
    ensures var s := Run(env, entry, events).bridge;
            && s.entry.activeTcpStreams == entry.activeTcpStreams + |s.connectStreams|
            && (entry.activeTcpStreams <= env.limits.maxActiveTcpStreams ==>
                  s.entry.activeTcpStreams <= env.limits.maxActiveTcpStreams)
  {
    RunKeeps(env, entry, events);
    hide Run, Paired, Budgeted, Tracked, Untouched, Prefixes, LegalEnv, FreshAccepts;
  }

  /** The shared byte total is the sum of the queues, each counted exactly, and
      both stay within their limits; the maps are inverse; ready streams queue nothing. */
  lemma BudgetsExact(env: Env, entry: ForwardPortEntry, events: seq<Event>)
    requires LegalEnv(env)
    requires FreshAccepts(env, entry, events)
    ensures var s := Run(env, entry, events).bridge;
            && Paired(s.listenToConnect, s.connectStreams)
            && Budgeted(env.limits, s.connectStreams, s.totalBytes)
  {
    RunKeeps(env, entry, events);
    hide Run, Paired, Budgeted, Tracked, Untouched, Prefixes, LegalEnv, FreshAccepts;
  }

  lemma RunOneMore(env: Env, entry: ForwardPortEntry, events: seq<Event>, e: Event)
    requires LegalEnv(env)
    ensures var before := Run(env, entry, events);
            Run(env, entry, events + [e]) == if before.outcome.Continue? then Handle(env, before.bridge, e) else before
  {
    hide Handle, LegalEnv;
    assert (events + [e])[..|events|] == events;
  }
}
