/** Exactly when a live pair ends, and exactly what each event adds to the
    forward's count of dropped streams. */
module TcpEndings {
  import opened Common
  import opened Frames
  import opened StreamIds
  import opened ForwardEntries
  import opened TcpBridge
  import opened TcpInvariants

  /** The first of the next `n` sends that does not succeed. */
  function FirstFailure(env: Env, attempts: nat, n: nat): Option<SendResult>
    decreases n
  {
    if n == 0 then None
    else if !env.net(attempts).Sent? then Some(env.net(attempts))
    else FirstFailure(env, attempts + 1, n - 1)
  }

  /** The stream that a payload frame of the listen side is meant for. */
  predicate Addressed(s: Bridge, f: Frame) {
    f.streamId in s.listenToConnect && s.listenToConnect[f.streamId] in s.connectStreams
  }

  /** The event makes the bridge give up every pair: the connect tunnel is lost
      to the reader or to a payload frame, or its stream ids are exhausted. A loss
      found while opening or closing one stream does not. */
  predicate DropsEveryPair(env: Env, s: Bridge, e: Event) {
    match e
    case ConnectLost => true
    case ListenFrame(f) =>
      if f.frameType.TcpAccept? then
        && env.acceptDecodes(f)
        && s.entry.activeTcpStreams < env.limits.maxActiveTcpStreams
        && s.ids.exhausted
      else
        && IsPayload(f)
        && Addressed(s, f)
        && s.connectStreams[s.listenToConnect[f.streamId]].ready
        && env.net(s.attempts).Retryable?
    case ConnectFrame(f) =>
      && f.frameType.TcpConnectOk?
      && f.streamId in s.connectStreams
      && FirstFailure(env, s.attempts, |s.connectStreams[f.streamId].pendingFrames|) == Some(Retryable)
    case _ => false
  }

  /** A frame more would stay within both byte limits. */
  predicate HasRoom(env: Env, s: Bridge, c: nat, f: Frame)
    requires c in s.connectStreams
  {
    && s.connectStreams[c].pendingBytes + |f.meta| + |f.data| <= env.limits.maxPendingPerStream
    && s.totalBytes + |f.meta| + |f.data| <= env.limits.maxPendingPerForward
  }

  lemma RoomIsFits(env: Env, s: Bridge, c: nat, f: Frame)
    requires LegalEnv(env) && c in s.connectStreams
    ensures FitsPending(env, s, c, f) <==> HasRoom(env, s, c, f)
  {
  }

  /** Pressure: the connect tunnel refuses a frame of this pair, or its queue has no room for it. */
  predicate Overflows(env: Env, s: Bridge, e: Event, c: nat)
    requires c in s.connectStreams
  {
    var stream := s.connectStreams[c];
    match e
    case ListenFrame(f) =>
      && IsPayload(f)
      && f.streamId == stream.listenStreamId
      && (if stream.ready then env.net(s.attempts).Backpressure? else !HasRoom(env, s, c, Rewritten(f, c)))
    case ConnectFrame(f) =>
      && f.frameType.TcpConnectOk?
      && f.streamId == c
      && FirstFailure(env, s.attempts, |stream.pendingFrames|) == Some(Backpressure)
    case _ => false
  }

  /** One side closes or fails the stream. */
  predicate ClosedByPeer(env: Env, s: Bridge, e: Event, c: nat)
    requires c in s.connectStreams
  {
    match e
    case ListenFrame(f) =>
      && f.streamId == s.connectStreams[c].listenStreamId
      && (f.frameType.Close? || (f.frameType.Error? && !env.isFatal(f) && f.streamId != env.listenerStreamId))
    case ConnectFrame(f) =>
      f.streamId == c && (f.frameType.Close? || (f.frameType.Error? && !env.isFatal(f)))
    case _ => false
  }

  /** The second half-close of the pair, when it was relayed or queued. */
  predicate Completes(env: Env, s: Bridge, e: Event, c: nat)
    requires c in s.connectStreams
  {
    var stream := s.connectStreams[c];
    match e
    case ListenFrame(f) =>
      && f.frameType.TcpEof?
      && f.streamId == stream.listenStreamId
      && stream.connectEof
      && (if stream.ready then env.net(s.attempts).Sent? else HasRoom(env, s, c, Rewritten(f, c)))
    case ConnectFrame(f) =>
      f.frameType.TcpEof? && f.streamId == c && stream.listenEof && env.net(s.attempts).Sent?
    case _ => false
  }

  // ----- What the composite operations leave ------------------------------

  lemma {:induction false} CloseEachLeaves(
    env: Env, s: Bridge, streams: map<nat, TcpConnectStream>, order: seq<nat>, first: Option<SendResult>)
    requires forall c :: c in order ==> c in streams
    ensures var s' := CloseEach(env, s, streams, order, first).0;
            s'.connectStreams == s.connectStreams && s'.entry == s.entry
    decreases |order|
  {
    if order != [] {
      var s1 := s.(totalBytes := SaturatingSub(s.totalBytes, streams[order[0]].pendingBytes));
      var (s2, r) := CloseListenStream(env, s1, streams[order[0]].listenStreamId);
      CloseEachLeaves(env, s2, streams, order[1..], if first.None? && !r.Sent? then Some(r) else first);
    }
  }

  lemma CloseActiveLeaves(env: Env, s: Bridge)
    requires LegalEnv(env)
    ensures CloseActive(env, s).bridge.connectStreams == map[]
    ensures CloseActive(env, s).bridge.entry == DropActive(s.entry, |s.connectStreams|)
  {
    var s1 := s.(connectStreams := map[], listenToConnect := map[]);
    CloseEachLeaves(env, s1, s.connectStreams, env.order(s.attempts, s.connectStreams.Keys), None);
  }

  /** What a queue-or-send or a flush with result `failure` leaves of the streams and of the entry. */
  ghost predicate Leaves(s: Bridge, s': Bridge, c: nat, failure: Option<SendResult>) {
    match failure
    case Some(Backpressure) =>
      && s'.connectStreams == s.connectStreams - {c}
      && s'.entry == DropActive(s.entry, 1)
    case Some(Retryable) =>
      && s'.connectStreams == map[]
      && s'.entry == DropActive(s.entry, |s.connectStreams|)
    case _ =>
      && s'.connectStreams.Keys == s.connectStreams.Keys
      && s'.entry == s.entry
  }

  lemma QueueOrSendLeaves(env: Env, s: Bridge, c: nat, f: Frame)
    requires LegalEnv(env)
    requires c in s.connectStreams
    ensures var failure := if s.connectStreams[c].ready then Some(env.net(s.attempts))
                           else if HasRoom(env, s, c, f) then None else Some(Backpressure);
            && Leaves(s, QueueOrSend(env, s, c, f).bridge, c, failure)
            && QueueOrSend(env, s, c, f).outcome.Continue?
               == (failure.None? || failure.value.Sent? || failure.value.Backpressure?)
    ensures c in QueueOrSend(env, s, c, f).bridge.connectStreams ==>
              var now := QueueOrSend(env, s, c, f).bridge.connectStreams[c]; var was := s.connectStreams[c];
              now.listenEof == was.listenEof && now.connectEof == was.connectEof
  {
    hide CloseActive, LegalEnv, FitsPending, HasRoom;
    RoomIsFits(env, s, c, f);
    var s1 := SendConnect(env, s, f).0;
    CloseActiveLeaves(env, s1);
    assert (s.connectStreams - {c}).Keys == s.connectStreams.Keys - {c};
  }

  lemma {:induction false} FlushLeaves(env: Env, s: Bridge, c: nat, frames: seq<Frame>)
    requires LegalEnv(env)
    requires c in s.connectStreams
    requires forall f :: f in frames ==> !f.frameType.Close?
    ensures var (step, remove) := Flush(env, s, c, frames, false);
            && Leaves(s, step.bridge, c, FirstFailure(env, s.attempts, |frames|))
            && (remove <==> FirstFailure(env, s.attempts, |frames|) == Some(Backpressure))
    decreases |frames|
  {
    hide CloseActive, LegalEnv;
    if frames != [] {
      assert frames[0] in frames;
      var (s1, r) := SendConnect(env, s, frames[0]);
      CloseActiveLeaves(env, s1);
      if r.Sent? {
        FlushLeaves(env, s1, c, frames[1..]);
      }
    }
  }

  lemma FullyEofLeaves(env: Env, s: Bridge, c: nat)
    ensures var s' := ClosePairIfFullyEof(env, s, c).bridge;
            && s'.connectStreams == (if c in s.connectStreams && s.connectStreams[c].listenEof && s.connectStreams[c].connectEof
                                     then s.connectStreams - {c} else s.connectStreams)
            && s'.entry.droppedTcpStreams == s.entry.droppedTcpStreams
  {
  }

  // ----- The two results --------------------------------------------------

  ghost predicate EndsPair(env: Env, s: Bridge, e: Event, c: nat)
    requires c in s.connectStreams
  {
    DropsEveryPair(env, s, e) || Overflows(env, s, e, c) || ClosedByPeer(env, s, e, c) || Completes(env, s, e, c)
  }

  /** The part of the invariant these results rest on. */
  ghost predicate Wired(env: Env, l2c: map<nat, nat>, streams: map<nat, TcpConnectStream>, total: nat) {
    Paired(l2c, streams) && Budgeted(env.limits, streams, total)
  }

  lemma StreamFacts(env: Env, s: Bridge, c: nat)
    requires Wired(env, s.listenToConnect, s.connectStreams, s.totalBytes)
    requires c in s.connectStreams
    ensures s.connectStreams[c].listenStreamId in s.listenToConnect
    ensures s.listenToConnect[s.connectStreams[c].listenStreamId] == c
    ensures forall f :: f in s.connectStreams[c].pendingFrames ==> !f.frameType.Close?
    ensures forall l :: l in s.listenToConnect && s.listenToConnect[l] == c ==> l == s.connectStreams[c].listenStreamId
  {
    assert QueueOk(c, s.connectStreams[c]);
  }

  lemma MappedFacts(env: Env, s: Bridge, l: nat)
    requires Wired(env, s.listenToConnect, s.connectStreams, s.totalBytes)
    requires l in s.listenToConnect
    ensures s.listenToConnect[l] in s.connectStreams
    ensures s.connectStreams[s.listenToConnect[l]].listenStreamId == l
  {
    hide Budgeted;
  }

  /** Payload from the listen side: who is left, and what was dropped. */
  ghost predicate PayloadLeaves(env: Env, s: Bridge, s': Bridge, f: Frame, d: nat)
    requires d in s.connectStreams
  {
    var e := ListenFrame(f);
    if DropsEveryPair(env, s, e) then
      && s'.connectStreams.Keys == {}
      && s'.entry.droppedTcpStreams == Counted(s.entry.droppedTcpStreams, |s.connectStreams|)
    else if Overflows(env, s, e, d) then
      && s'.connectStreams.Keys == s.connectStreams.Keys - {d}
      && s'.entry.droppedTcpStreams == Counted(s.entry.droppedTcpStreams, 1)
    else
      && s'.connectStreams.Keys == s.connectStreams.Keys - (if Completes(env, s, e, d) then {d} else {})
      && s'.entry.droppedTcpStreams == s.entry.droppedTcpStreams
  }

  lemma ListenDataLeaves(env: Env, s: Bridge, f: Frame, d: nat)
    requires LegalEnv(env)
    requires f.frameType.TcpData?
    requires f.streamId in s.listenToConnect && s.listenToConnect[f.streamId] == d
    requires d in s.connectStreams && s.connectStreams[d].listenStreamId == f.streamId
    ensures PayloadLeaves(env, s, OnListenData(env, s, f).bridge, f, d)
  {
    hide QueueOrSend, LegalEnv, HasRoom;
    QueueOrSendLeaves(env, s, d, Rewritten(f, d));
  }

  lemma ListenEofLeaves(env: Env, s: Bridge, f: Frame, d: nat)
    requires LegalEnv(env)
    requires f.frameType.TcpEof?
    requires f.streamId in s.listenToConnect && s.listenToConnect[f.streamId] == d
    requires d in s.connectStreams && s.connectStreams[d].listenStreamId == f.streamId
    ensures PayloadLeaves(env, s, OnListenEof(env, s, f).bridge, f, d)
  {
    hide QueueOrSend, ClosePairIfFullyEof, LegalEnv;
    var g := Rewritten(f, d);
    var s1 := MarkListenEof(s, d);
    QueueOrSendLeaves(env, s1, d, g);
    assert s1.connectStreams.Keys == s.connectStreams.Keys;
    assert |s1.connectStreams| == |s1.connectStreams.Keys| == |s.connectStreams|;
    FullyEofLeaves(env, QueueOrSend(env, s1, d, g).bridge, d);
  }

  lemma ConnectOkLeaves(env: Env, s: Bridge, f: Frame)
    requires LegalEnv(env)
    requires f.frameType.TcpConnectOk?
    requires f.streamId in s.connectStreams
    requires forall g :: g in s.connectStreams[f.streamId].pendingFrames ==> !g.frameType.Close?
    ensures var e := ConnectFrame(f); var s' := OnConnectFrame(env, s, f).bridge;
            && s'.connectStreams.Keys == (if DropsEveryPair(env, s, e) then {}
                                          else if Overflows(env, s, e, f.streamId) then s.connectStreams.Keys - {f.streamId}
                                          else s.connectStreams.Keys)
            && s'.entry.droppedTcpStreams == Counted(s.entry.droppedTcpStreams,
                 if DropsEveryPair(env, s, e) then |s.connectStreams| else if Overflows(env, s, e, f.streamId) then 1 else 0)
  {
    hide Flush, LegalEnv;
    var c := f.streamId;
    var s1 := TakePending(s, c);
    assert s1.connectStreams.Keys == s.connectStreams.Keys;
    assert |s1.connectStreams| == |s1.connectStreams.Keys| == |s.connectStreams|;
    FlushLeaves(env, s1, c, s.connectStreams[c].pendingFrames);
  }

  lemma AcceptLeaves(env: Env, s: Bridge, f: Frame)
    requires LegalEnv(env)
    requires f.frameType.TcpAccept?
    ensures var e := ListenFrame(f); var s' := OnListenFrame(env, s, f).bridge;
            && (if DropsEveryPair(env, s, e) then s'.connectStreams == map[]
                else s.connectStreams.Keys <= s'.connectStreams.Keys)
            && s'.entry.droppedTcpStreams == Counted(s.entry.droppedTcpStreams, Drops(env, s, e))
  {
    hide CloseActive, LegalEnv, Next, Overflows, OpenPair;
    IssuesItsNext(s.ids);
    if env.acceptDecodes(f) && HasFreeSlot(s.entry, env.limits.maxActiveTcpStreams) {
      var (id, ids) := Next(s.ids);
      var s1 := s.(entry := ReserveActiveEntry(s.entry, env.limits.maxActiveTcpStreams), ids := ids);
      if id.None? {
        CloseActiveLeaves(env, Settle(CloseListenStream(env, s1, f.streamId).0, Dropped));
      } else {
        OpenPairLeaves(env, s1, f.streamId, id.value);
      }
    }
  }

  lemma OpenPairLeaves(env: Env, s: Bridge, l: nat, c: nat)
    ensures var s' := OpenPair(env, s, l, c).bridge;
            && s.connectStreams.Keys <= s'.connectStreams.Keys
            && s'.entry.droppedTcpStreams == Counted(s.entry.droppedTcpStreams, if env.net(s.attempts).Sent? then 0 else 1)
  {
  }

  /** How many streams an event adds to the forward's dropped count. */
  function Drops(env: Env, s: Bridge, e: Event): nat {
    match e
    case ConnectLost => |s.connectStreams|
    case ListenFrame(f) =>
      (match f.frameType
       case TcpAccept =>
         if !env.acceptDecodes(f) then 0
         else if s.entry.activeTcpStreams >= env.limits.maxActiveTcpStreams then 1
         else if s.ids.exhausted then 1 + |s.connectStreams|
         else if env.net(s.attempts).Sent? then 0 else 1
       case Error => if !env.isFatal(f) && f.streamId == env.listenerStreamId && env.isPressure(f) then 1 else 0
       case ForwardDrop =>
         var report := env.dropReport(f);
         if report.None? || !report.value.tcp then 0 else if report.value.count == 0 then 1 else report.value.count
       case _ =>
         if !IsPayload(f) || !Addressed(s, f) then 0
         else if DropsEveryPair(env, s, e) then |s.connectStreams|
         else if Overflows(env, s, e, s.listenToConnect[f.streamId]) then 1 else 0)
    case ConnectFrame(f) =>
      if f.streamId !in s.connectStreams then 0
      else if DropsEveryPair(env, s, e) then |s.connectStreams|
      else if Overflows(env, s, e, f.streamId) then 1 else 0
    case _ => 0
  }

  /** What an event makes of the dropped count and of one pair. */
  ghost predicate EndsAsTold(env: Env, s: Bridge, s': Bridge, e: Event, c: nat) {
    && s'.entry.droppedTcpStreams == Counted(s.entry.droppedTcpStreams, Drops(env, s, e))
    && (c in s.connectStreams ==> (c !in s'.connectStreams <==> EndsPair(env, s, e, c)))
  }

  lemma AcceptTold(env: Env, s: Bridge, f: Frame, c: nat)
    requires LegalEnv(env) && f.frameType.TcpAccept?
    ensures EndsAsTold(env, s, OnListenFrame(env, s, f).bridge, ListenFrame(f), c)
  {
    hide LegalEnv, OnListenFrame, Drops, DropsEveryPair;
    AcceptLeaves(env, s, f);
  }

  lemma ListenPayloadTold(env: Env, s: Bridge, f: Frame, c: nat)
    requires LegalEnv(env) && IsPayload(f)
    requires Wired(env, s.listenToConnect, s.connectStreams, s.totalBytes)
    ensures EndsAsTold(env, s, OnListenFrame(env, s, f).bridge, ListenFrame(f), c)
  {
    hide Wired, LegalEnv, QueueOrSend, ClosePairIfFullyEof, HasRoom;
    if c in s.connectStreams {
      StreamFacts(env, s, c);
    }
    if f.streamId in s.listenToConnect {
      MappedFacts(env, s, f.streamId);
      var d := s.listenToConnect[f.streamId];
      hide OnListenData, OnListenEof;
      if f.frameType.TcpData? {
        ListenDataLeaves(env, s, f, d);
      } else {
        ListenEofLeaves(env, s, f, d);
      }
    }
  }

  lemma ListenControlTold(env: Env, s: Bridge, f: Frame, c: nat)
    requires LegalEnv(env) && !f.frameType.TcpAccept? && !IsPayload(f)
    requires Wired(env, s.listenToConnect, s.connectStreams, s.totalBytes)
    ensures EndsAsTold(env, s, OnListenFrame(env, s, f).bridge, ListenFrame(f), c)
  {
    hide Wired, LegalEnv, OnAccept, OnListenData, OnListenEof, HasRoom;
    if c in s.connectStreams {
      StreamFacts(env, s, c);
    }
    if f.streamId in s.listenToConnect {
      MappedFacts(env, s, f.streamId);
    }
  }

  lemma ListenFrameLeaves(env: Env, s: Bridge, f: Frame, c: nat)
    requires LegalEnv(env)
    requires Wired(env, s.listenToConnect, s.connectStreams, s.totalBytes)
    ensures EndsAsTold(env, s, OnListenFrame(env, s, f).bridge, ListenFrame(f), c)
  {
    hide Wired, LegalEnv, OnListenFrame, EndsAsTold;
    if f.frameType.TcpAccept? {
      AcceptTold(env, s, f, c);
    } else if IsPayload(f) {
      ListenPayloadTold(env, s, f, c);
    } else {
      ListenControlTold(env, s, f, c);
    }
  }

  lemma ConnectEofLeaves(env: Env, s: Bridge, f: Frame)
    requires f.frameType.TcpEof?
    requires f.streamId in s.connectStreams
    ensures var s' := OnConnectEof(env, s, f).bridge;
            && s'.connectStreams.Keys == (if Completes(env, s, ConnectFrame(f), f.streamId)
                                          then s.connectStreams.Keys - {f.streamId} else s.connectStreams.Keys)
            && s'.entry.droppedTcpStreams == s.entry.droppedTcpStreams
  {
    hide ClosePairIfFullyEof;
    var s1 := s.(connectStreams := s.connectStreams[f.streamId := s.connectStreams[f.streamId].(connectEof := true)]);
    assert s1.connectStreams.Keys == s.connectStreams.Keys;
    FullyEofLeaves(env, SendBack(env, s1, f.streamId, f).bridge, f.streamId);
  }

  lemma ConnectEndLeaves(env: Env, s: Bridge, f: Frame)
    requires f.streamId in s.connectStreams
    ensures OnConnectClose(env, s, f).bridge.connectStreams == s.connectStreams - {f.streamId}
    ensures OnConnectClose(env, s, f).bridge.entry.droppedTcpStreams == s.entry.droppedTcpStreams
    ensures ClosePair(env, s, f.streamId, ConnectError).bridge.connectStreams == s.connectStreams - {f.streamId}
    ensures ClosePair(env, s, f.streamId, ConnectError).bridge.entry.droppedTcpStreams == s.entry.droppedTcpStreams
  {
  }

  lemma ConnectFrameLeaves(env: Env, s: Bridge, f: Frame, c: nat)
    requires LegalEnv(env)
    requires Wired(env, s.listenToConnect, s.connectStreams, s.totalBytes)
    ensures EndsAsTold(env, s, OnConnectFrame(env, s, f).bridge, ConnectFrame(f), c)
  {
    hide Wired, LegalEnv, OnConnectFrame, EndsAsTold;
    if f.streamId !in s.connectStreams {
      ConnectIgnored(env, s, f);
      NothingTold(env, s, f, c);
    } else if f.frameType.TcpConnectOk? {
      StreamFacts(env, s, f.streamId);
      ConnectOkTold(env, s, f, c);
    } else {
      ConnectOtherTold(env, s, f, c);
    }
  }

  lemma NothingTold(env: Env, s: Bridge, f: Frame, c: nat)
    requires f.streamId !in s.connectStreams
    ensures EndsAsTold(env, s, s, ConnectFrame(f), c)
  {
    hide FirstFailure;
  }

  lemma ConnectOkTold(env: Env, s: Bridge, f: Frame, c: nat)
    requires LegalEnv(env) && f.frameType.TcpConnectOk? && f.streamId in s.connectStreams
    requires forall g :: g in s.connectStreams[f.streamId].pendingFrames ==> !g.frameType.Close?
    ensures EndsAsTold(env, s, OnConnectFrame(env, s, f).bridge, ConnectFrame(f), c)
  {
    hide LegalEnv, OnConnectFrame, FirstFailure;
    ConnectOkLeaves(env, s, f);
  }

  lemma ConnectOtherTold(env: Env, s: Bridge, f: Frame, c: nat)
    requires LegalEnv(env) && !f.frameType.TcpConnectOk? && f.streamId in s.connectStreams
    ensures EndsAsTold(env, s, OnConnectFrame(env, s, f).bridge, ConnectFrame(f), c)
  {
    hide LegalEnv, OnConnectOk, OnConnectData, OnConnectEof, OnConnectClose, ClosePair, FirstFailure;
    ConnectEndLeaves(env, s, f);
    ConnectDataLeaves(env, s, f);
    if f.frameType.TcpEof? {
      ConnectEofLeaves(env, s, f);
    }
  }

  lemma ConnectDataLeaves(env: Env, s: Bridge, f: Frame)
    ensures OnConnectData(env, s, f).bridge.connectStreams == s.connectStreams
    ensures OnConnectData(env, s, f).bridge.entry == s.entry
  {
  }

  /** Frames of a stream that is not live change nothing. */
  lemma ConnectIgnored(env: Env, s: Bridge, f: Frame)
    requires LegalEnv(env) && f.streamId !in s.connectStreams
    ensures OnConnectFrame(env, s, f).bridge == s
  {
    hide LegalEnv, Flush, ClosePairIfFullyEof;
  }

  /** Reading a frame does not change what it will drop or end. */
  lemma ToldOnArrival(env: Env, s: Bridge, r: Bridge, s': Bridge, e: Event, c: nat)
    requires r == s.(listenReceived := r.listenReceived, connectReceived := r.connectReceived)
    requires EndsAsTold(env, r, s', e, c)
    ensures EndsAsTold(env, s, s', e, c)
  {
    hide FirstFailure, Next;
  }

  lemma OtherTold(env: Env, s: Bridge, e: Event, c: nat)
    requires LegalEnv(env) && !e.ListenFrame? && !e.ConnectFrame?
    ensures EndsAsTold(env, s, Handle(env, s, e).bridge, e, c)
  {
    hide LegalEnv, CloseActive;
    CloseActiveLeaves(env, s);
  }

  lemma EventTold(env: Env, s: Bridge, e: Event, c: nat)
    requires LegalEnv(env)
    requires Wired(env, s.listenToConnect, s.connectStreams, s.totalBytes)
    ensures EndsAsTold(env, s, Handle(env, s, e).bridge, e, c)
  {
    hide Wired, LegalEnv, OnListenFrame, OnConnectFrame, EndsAsTold;
    match e
    case ListenFrame(f) =>
      var r := s.(listenReceived := s.listenReceived + [f]);
      ListenFrameLeaves(env, r, f, c);
      ToldOnArrival(env, s, r, Handle(env, s, e).bridge, e, c);
    case ConnectFrame(f) =>
      var r := s.(connectReceived := s.connectReceived + [f]);
      ConnectFrameLeaves(env, r, f, c);
      ToldOnArrival(env, s, r, Handle(env, s, e).bridge, e, c);
    case _ => OtherTold(env, s, e, c);
  }

  /** In every state with the bridge invariant, an event ends a live pair if and only if the
      event drops every pair, the pair overflows, a peer closes it, or it
      completes its second half-close. */
  lemma PairEndsExactly(env: Env, s: Bridge, e: Event, c: nat)
    requires LegalEnv(env)
    requires Wired(env, s.listenToConnect, s.connectStreams, s.totalBytes)
    requires c in s.connectStreams
    ensures c !in Handle(env, s, e).bridge.connectStreams <==> EndsPair(env, s, e, c)
  {
    hide Wired, LegalEnv, Handle, Drops, EndsPair;
    EventTold(env, s, e, c);
  }

  /** The forward's dropped count, a 64-bit counter that stops at its maximum,
      grows by exactly the streams the event drops. */
  lemma DropsCounted(env: Env, s: Bridge, e: Event)
    requires LegalEnv(env)
    requires Wired(env, s.listenToConnect, s.connectStreams, s.totalBytes)
    requires s.entry.droppedTcpStreams <= U64_MAX
    ensures Handle(env, s, e).bridge.entry.droppedTcpStreams == Capped(s.entry.droppedTcpStreams + Drops(env, s, e))
  {
    hide Wired, LegalEnv, Handle, Drops, EndsPair;
    EventTold(env, s, e, 0);
  }

  // ----- Who is live afterwards -------------------------------------------

  lemma AcceptAddsAtMostItsPair(env: Env, s: Bridge, f: Frame)
    requires LegalEnv(env)
    ensures !OnAccept(env, s, f).outcome.Continue? ==>
              OnAccept(env, s, f).bridge.connectStreams.Keys <= s.connectStreams.Keys
  {
    hide CloseActive, LegalEnv, Next;
    var (id, ids) := Next(s.ids);
    var s1 := s.(entry := ReserveActiveEntry(s.entry, env.limits.maxActiveTcpStreams), ids := ids);
    CloseActiveLeaves(env, Settle(CloseListenStream(env, s1, f.streamId).0, Dropped));
  }

  lemma ListenFrameAddsNoPair(env: Env, s: Bridge, f: Frame)
    requires LegalEnv(env)
    requires Wired(env, s.listenToConnect, s.connectStreams, s.totalBytes)
    requires !OnListenFrame(env, s, f).outcome.Continue?
    ensures OnListenFrame(env, s, f).bridge.connectStreams.Keys <= s.connectStreams.Keys
  {
    hide Wired, LegalEnv, OnAccept, QueueOrSend, ClosePairIfFullyEof, HasRoom;
    if f.streamId in s.listenToConnect {
      MappedFacts(env, s, f.streamId);
    }
    if f.frameType.TcpAccept? {
      AcceptAddsAtMostItsPair(env, s, f);
    } else if f.streamId in s.listenToConnect {
      var d := s.listenToConnect[f.streamId];
      if f.frameType.TcpData? {
        ListenDataLeaves(env, s, f, d);
      } else if f.frameType.TcpEof? {
        ListenEofLeaves(env, s, f, d);
      }
    }
  }

  lemma ConnectFrameAddsNoPair(env: Env, s: Bridge, f: Frame)
    requires LegalEnv(env)
    requires Wired(env, s.listenToConnect, s.connectStreams, s.totalBytes)
    ensures OnConnectFrame(env, s, f).bridge.connectStreams.Keys <= s.connectStreams.Keys
  {
    hide Wired, FirstFailure;
    if f.streamId in s.connectStreams {
      hide LegalEnv, OnConnectOk, OnConnectEof, OnConnectClose, ClosePair;
      StreamFacts(env, s, f.streamId);
      ConnectEndLeaves(env, s, f);
      if f.frameType.TcpConnectOk? {
        ConnectOkLeaves(env, s, f);
      } else if f.frameType.TcpEof? {
        ConnectEofLeaves(env, s, f);
      }
    }
  }

  /** An event that ends the epoch makes no new pair. */
  lemma LastEventAddsNoPair(env: Env, s: Bridge, e: Event)
    requires LegalEnv(env)
    requires Wired(env, s.listenToConnect, s.connectStreams, s.totalBytes)
    requires !Handle(env, s, e).outcome.Continue?
    ensures Handle(env, s, e).bridge.connectStreams.Keys <= s.connectStreams.Keys
  {
    hide Wired, LegalEnv, OnListenFrame, OnConnectFrame, CloseActive;
    CloseActiveLeaves(env, s);
    match e
    case ListenFrame(f) => ListenFrameAddsNoPair(env, s.(listenReceived := s.listenReceived + [f]), f);
    case ConnectFrame(f) => ConnectFrameAddsNoPair(env, s.(connectReceived := s.connectReceived + [f]), f);
    case _ =>
  }

  /** Unless it drops every pair, an event ends one pair at most. */
  lemma EndsOnePair(env: Env, s: Bridge, e: Event, c: nat, d: nat)
    requires Paired(s.listenToConnect, s.connectStreams)
    requires c in s.connectStreams && d in s.connectStreams
    requires !DropsEveryPair(env, s, e) && EndsPair(env, s, e, c) && EndsPair(env, s, e, d)
    ensures c == d
  {
    hide DropsEveryPair, HasRoom, FirstFailure;
  }
}
