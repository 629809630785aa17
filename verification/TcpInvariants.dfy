/** What every event of the TCP bridge keeps. The parts are stated over the
    fields they read, so that a step which leaves those fields alone keeps them
    without further argument. */
module TcpInvariants {
  import opened Common
  import opened Frames
  import opened StreamIds
  import opened ForwardEntries
  import opened MapSums
  import opened TcpBridge

  // ----- The parts --------------------------------------------------------

  /** The two stream maps are inverse to each other. */
  ghost predicate Paired(l2c: map<nat, nat>, streams: map<nat, TcpConnectStream>) {
    && (forall l :: l in l2c ==> l2c[l] in streams && streams[l2c[l]].listenStreamId == l)
    && (forall c :: c in streams ==> streams[c].listenStreamId in l2c && l2c[streams[c].listenStreamId] == c)
  }

  function QueueBytes(fs: seq<Frame>): nat {
    if fs == [] then 0 else QueueBytes(fs[..|fs| - 1]) + |fs[|fs| - 1].meta| + |fs[|fs| - 1].data|
  }

  /** One stream's queue: only payload frames of that stream, counted exactly,
      and empty once the stream is ready. */
  ghost predicate QueueOk(c: nat, stream: TcpConnectStream) {
    && stream.pendingBytes == QueueBytes(stream.pendingFrames)
    && (stream.ready ==> stream.pendingFrames == [])
    && (forall f :: f in stream.pendingFrames ==> IsPayload(f) && f.streamId == c)
  }

  ghost function Pending(streams: map<nat, TcpConnectStream>): map<nat, nat> {
    map c | c in streams :: streams[c].pendingBytes
  }

  ghost predicate Budgeted(limits: Limits, streams: map<nat, TcpConnectStream>, total: nat) {
    && (forall c :: c in streams ==> QueueOk(c, streams[c]) && streams[c].pendingBytes <= limits.maxPendingPerStream)
    && total == Sum(Pending(streams))
    && total <= limits.maxPendingPerForward
  }

  /** Beyond `base`, one slot is held per live pair, and never more than `cap` in all. */
  ghost predicate SlotsHeld(base: nat, cap: nat, entry: ForwardPortEntry, streams: map<nat, TcpConnectStream>) {
    entry.activeTcpStreams == base + |streams| && entry.activeTcpStreams <= cap
  }

  /** Connect ids are never issued twice, and a live pair still runs the
      connection it was made for. */
  ghost predicate Tracked(
    streams: map<nat, TcpConnectStream>, origins: map<nat, Origin>, ids: Allocator,
    listenReceived: seq<Frame>, connectReceived: seq<Frame>, listenSent: seq<Frame>)
  {
    && ids.step == 2
    && (forall c :: c in origins ==>
          && (c < ids.next || (ids.exhausted && c == ids.next))
          && origins[c].listenFrom <= |listenReceived|
          && origins[c].connectFrom <= |connectReceived|
          && origins[c].listenSentFrom <= |listenSent|)
    && (forall c :: c in streams ==>
          && c in origins
          && streams[c].listenStreamId == origins[c].listenStreamId
          && !Reopens(listenReceived[origins[c].listenFrom..], origins[c].listenStreamId))
  }

  /** The payload that arrived for the connection of a pair, as the connect side must see it. */
  function Input(o: Origin, listenReceived: seq<Frame>, c: nat): seq<Frame> {
    if o.listenFrom <= |listenReceived|
    then Relayed(Session(listenReceived[o.listenFrom..], o.listenStreamId), o.listenStreamId, c)
    else []
  }

  /** The payload that came back on the connect stream of a pair, as the listen side must see it. */
  function Reply(o: Origin, connectReceived: seq<Frame>, c: nat): seq<Frame> {
    if o.connectFrom <= |connectReceived| then Relayed(connectReceived[o.connectFrom..], c, o.listenStreamId) else []
  }

  function SentBack(o: Origin, listenSent: seq<Frame>): seq<Frame> {
    if o.listenSentFrom <= |listenSent| then OnStream(listenSent[o.listenSentFrom..], o.listenStreamId) else []
  }

  ghost predicate Untouched(origins: map<nat, Origin>, connectSent: seq<Frame>) {
    forall c :: c !in origins ==> OnStream(connectSent, c) == []
  }

  /** No pair, live or closed, ever sent anything but a prefix of its input. */
  ghost predicate Prefixes(origins: map<nat, Origin>, connectSent: seq<Frame>, listenReceived: seq<Frame>) {
    forall c :: c in origins ==> OnStream(connectSent, c) <= Input(origins[c], listenReceived, c)
  }

  function Owed(c: nat, busy: nat, owed: seq<Frame>): seq<Frame> {
    if c == busy then owed else []
  }

  /** What a live pair sent, then what it queues, then what is still owed to it
      in the middle of a handler, is its input. */
  ghost predicate Forwarded(
    streams: map<nat, TcpConnectStream>, origins: map<nat, Origin>,
    connectSent: seq<Frame>, listenReceived: seq<Frame>, busy: nat, owed: seq<Frame>)
  {
    forall c :: c in streams ==>
      && c in origins
      && OnStream(connectSent, c) + streams[c].pendingFrames + Owed(c, busy, owed)
         == Input(origins[c], listenReceived, c)
  }

  ghost predicate Returned(
    streams: map<nat, TcpConnectStream>, origins: map<nat, Origin>,
    listenSent: seq<Frame>, connectReceived: seq<Frame>, busy: nat, owed: seq<Frame>)
  {
    forall c :: c in streams ==>
      && c in origins
      && SentBack(origins[c], listenSent) + Owed(c, busy, owed) == Reply(origins[c], connectReceived, c)
  }

  // ----- The whole --------------------------------------------------------

  /** Holds after every event, however the event ends. */
  ghost predicate Sound(env: Env, base: nat, cap: nat, s: Bridge) {
    && Paired(s.listenToConnect, s.connectStreams)
    && Budgeted(env.limits, s.connectStreams, s.totalBytes)
    && SlotsHeld(base, cap, s.entry, s.connectStreams)
    && Tracked(s.connectStreams, s.origins, s.ids, s.listenReceived, s.connectReceived, s.listenSent)
    && Untouched(s.origins, s.connectSent)
    && Prefixes(s.origins, s.connectSent, s.listenReceived)
  }

  /** Both directions of every live pair are exact, up to the frames the running
      handler still owes to the pair of connect stream `busy`. */
  ghost predicate Exact(s: Bridge, busy: nat, owed: seq<Frame>, back: seq<Frame>) {
    && Forwarded(s.connectStreams, s.origins, s.connectSent, s.listenReceived, busy, owed)
    && Returned(s.connectStreams, s.origins, s.listenSent, s.connectReceived, busy, back)
  }

  // ----- Receiving --------------------------------------------------------

  lemma InputGrows(o: Origin, received: seq<Frame>, f: Frame, c: nat)
    requires o.listenFrom <= |received|
    ensures Input(o, received, c) <= Input(o, received + [f], c)
    ensures !Reopens((received + [f])[o.listenFrom..], o.listenStreamId) ==>
              Input(o, received + [f], c) == Input(o, received, c)
                + (if IsPayload(f) && f.streamId == o.listenStreamId then [Rewritten(f, c)] else [])
  {
    hide Session, Relayed, Reopens, IsPayload, Rewritten;
    var fs := received[o.listenFrom..];
    assert (received + [f])[o.listenFrom..] == fs + [f];
    SessionUnbroken(fs, o.listenStreamId);
    SessionAppend(fs, f, o.listenStreamId);
    ReopensAppend(fs, f, o.listenStreamId);
    RelayedAppend(Session(fs, o.listenStreamId), f, o.listenStreamId, c);
  }

  lemma ListenTracked(s: Bridge, f: Frame)
    requires Paired(s.listenToConnect, s.connectStreams)
    requires Tracked(s.connectStreams, s.origins, s.ids, s.listenReceived, s.connectReceived, s.listenSent)
    requires FreshAccept(s, ListenFrame(f))
    ensures Tracked(s.connectStreams, s.origins, s.ids, s.listenReceived + [f], s.connectReceived, s.listenSent)
  {
    var received := s.listenReceived + [f];
    forall c | c in s.connectStreams
      ensures !Reopens(received[s.origins[c].listenFrom..], s.origins[c].listenStreamId)
    {
      var o := s.origins[c];
      assert received[o.listenFrom..] == s.listenReceived[o.listenFrom..] + [f];
      ReopensAppend(s.listenReceived[o.listenFrom..], f, o.listenStreamId);
    }
  }

  lemma ListenPrefixes(s: Bridge, f: Frame)
    requires Tracked(s.connectStreams, s.origins, s.ids, s.listenReceived, s.connectReceived, s.listenSent)
    requires Prefixes(s.origins, s.connectSent, s.listenReceived)
    ensures Prefixes(s.origins, s.connectSent, s.listenReceived + [f])
  {
    forall c | c in s.origins
      ensures OnStream(s.connectSent, c) <= Input(s.origins[c], s.listenReceived + [f], c)
    {
      InputGrows(s.origins[c], s.listenReceived, f, c);
    }
  }

  lemma ListenForwarded(s: Bridge, f: Frame)
    requires Paired(s.listenToConnect, s.connectStreams)
    requires Tracked(s.connectStreams, s.origins, s.ids, s.listenReceived, s.connectReceived, s.listenSent)
    requires Tracked(s.connectStreams, s.origins, s.ids, s.listenReceived + [f], s.connectReceived, s.listenSent)
    requires Forwarded(s.connectStreams, s.origins, s.connectSent, s.listenReceived, 0, [])
    ensures if IsPayload(f) && f.streamId in s.listenToConnect
            then Forwarded(s.connectStreams, s.origins, s.connectSent, s.listenReceived + [f],
                           s.listenToConnect[f.streamId], [Rewritten(f, s.listenToConnect[f.streamId])])
            else Forwarded(s.connectStreams, s.origins, s.connectSent, s.listenReceived + [f], 0, [])
  {
    hide Input, OnStream;
    forall c | c in s.connectStreams
      ensures Input(s.origins[c], s.listenReceived + [f], c)
           == Input(s.origins[c], s.listenReceived, c)
                + (if IsPayload(f) && f.streamId == s.connectStreams[c].listenStreamId then [Rewritten(f, c)] else [])
    {
      InputGrows(s.origins[c], s.listenReceived, f, c);
    }
  }

  /** With nothing owed, it does not matter which pair is busy. */
  lemma Idle(s: Bridge, busy: nat, other: nat)
    ensures Forwarded(s.connectStreams, s.origins, s.connectSent, s.listenReceived, busy, [])
       <==> Forwarded(s.connectStreams, s.origins, s.connectSent, s.listenReceived, other, [])
    ensures Returned(s.connectStreams, s.origins, s.listenSent, s.connectReceived, busy, [])
       <==> Returned(s.connectStreams, s.origins, s.listenSent, s.connectReceived, other, [])
  {
    assert forall c :: Owed(c, busy, []) == Owed(c, other, []);
  }

  lemma ReceiveListen(env: Env, base: nat, cap: nat, s: Bridge, f: Frame)
    requires Sound(env, base, cap, s)
    requires Exact(s, 0, [], [])
    requires FreshAccept(s, ListenFrame(f))
    ensures var s' := s.(listenReceived := s.listenReceived + [f]);
            && Sound(env, base, cap, s')
            && (if IsPayload(f) && f.streamId in s.listenToConnect
                then Exact(s', s.listenToConnect[f.streamId], [Rewritten(f, s.listenToConnect[f.streamId])], [])
                else Exact(s', 0, [], []))
  {
    hide Paired, Budgeted, Tracked, Prefixes, Untouched, Forwarded, Returned;
    ListenTracked(s, f);
    ListenPrefixes(s, f);
    ListenForwarded(s, f);
    if IsPayload(f) && f.streamId in s.listenToConnect {
      Idle(s, 0, s.listenToConnect[f.streamId]);
    }
  }

  lemma Longer(s: Bridge, connectReceived: seq<Frame>, listenSent: seq<Frame>)
    requires Tracked(s.connectStreams, s.origins, s.ids, s.listenReceived, s.connectReceived, s.listenSent)
    requires |s.connectReceived| <= |connectReceived| && |s.listenSent| <= |listenSent|
    ensures Tracked(s.connectStreams, s.origins, s.ids, s.listenReceived, connectReceived, listenSent)
  {
  }

  lemma ReplyGrows(o: Origin, connectReceived: seq<Frame>, f: Frame, c: nat)
    requires o.connectFrom <= |connectReceived|
    ensures Reply(o, connectReceived + [f], c) == Reply(o, connectReceived, c)
         + (if IsPayload(f) && f.streamId == c then [Rewritten(f, o.listenStreamId)] else [])
  {
    assert (connectReceived + [f])[o.connectFrom..] == connectReceived[o.connectFrom..] + [f];
    RelayedAppend(connectReceived[o.connectFrom..], f, c, o.listenStreamId);
  }

  lemma ConnectReturned(s: Bridge, f: Frame)
    requires Tracked(s.connectStreams, s.origins, s.ids, s.listenReceived, s.connectReceived, s.listenSent)
    requires Returned(s.connectStreams, s.origins, s.listenSent, s.connectReceived, 0, [])
    ensures if IsPayload(f) && f.streamId in s.connectStreams
            then Returned(s.connectStreams, s.origins, s.listenSent, s.connectReceived + [f],
                          f.streamId, [Rewritten(f, s.connectStreams[f.streamId].listenStreamId)])
            else Returned(s.connectStreams, s.origins, s.listenSent, s.connectReceived + [f], 0, [])
  {
    hide Reply, SentBack, Reopens;
    forall c | c in s.connectStreams
      ensures Reply(s.origins[c], s.connectReceived + [f], c) == Reply(s.origins[c], s.connectReceived, c)
           + (if IsPayload(f) && f.streamId == c then [Rewritten(f, s.connectStreams[c].listenStreamId)] else [])
    {
      ReplyGrows(s.origins[c], s.connectReceived, f, c);
    }
  }

  lemma ReceiveConnect(env: Env, base: nat, cap: nat, s: Bridge, f: Frame)
    requires Sound(env, base, cap, s)
    requires Exact(s, 0, [], [])
    ensures var s' := s.(connectReceived := s.connectReceived + [f]);
            && Sound(env, base, cap, s')
            && (if IsPayload(f) && f.streamId in s.connectStreams
                then Exact(s', f.streamId, [], [Rewritten(f, s.connectStreams[f.streamId].listenStreamId)])
                else Exact(s', 0, [], []))
  {
    hide Paired, Budgeted, Tracked, Prefixes, Untouched, Forwarded, Returned;
    Longer(s, s.connectReceived + [f], s.listenSent);
    ConnectReturned(s, f);
    Idle(s, 0, f.streamId);
  }

  // ----- Sending ----------------------------------------------------------

  lemma SentBackAppend(o: Origin, listenSent: seq<Frame>, f: Frame)
    requires o.listenSentFrom <= |listenSent|
    ensures SentBack(o, listenSent + [f]) == SentBack(o, listenSent)
         + (if IsPayload(f) && f.streamId == o.listenStreamId then [f] else [])
  {
    assert (listenSent + [f])[o.listenSentFrom..] == listenSent[o.listenSentFrom..] + [f];
    OnStreamAppend(listenSent[o.listenSentFrom..], f, o.listenStreamId);
  }

  /** A frame on the listen tunnel: a control frame leaves every account as it
      is, the owed payload frame of the busy pair settles its debt. */
  lemma ListenReturned(s: Bridge, f: Frame, busy: nat, back: seq<Frame>)
    requires Paired(s.listenToConnect, s.connectStreams)
    requires Tracked(s.connectStreams, s.origins, s.ids, s.listenReceived, s.connectReceived, s.listenSent)
    requires Returned(s.connectStreams, s.origins, s.listenSent, s.connectReceived, busy, back)
    requires IsPayload(f) ==>
               && busy in s.connectStreams
               && f.streamId == s.connectStreams[busy].listenStreamId
               && back == [f]
    ensures Returned(s.connectStreams, s.origins, s.listenSent + [f], s.connectReceived, busy,
                     if IsPayload(f) then [] else back)
  {
    hide SentBack, Reply, IsPayload, Reopens;
    forall c | c in s.connectStreams
      ensures SentBack(s.origins[c], s.listenSent + [f]) + Owed(c, busy, if IsPayload(f) then [] else back)
           == SentBack(s.origins[c], s.listenSent) + Owed(c, busy, back)
    {
      SentBackAppend(s.origins[c], s.listenSent, f);
      assert IsPayload(f) ==> (f.streamId == s.origins[c].listenStreamId <==> c == busy);
    }
  }

  lemma OnListenTunnel(env: Env, base: nat, cap: nat, s: Bridge, f: Frame, busy: nat, owed: seq<Frame>, back: seq<Frame>)
    requires Sound(env, base, cap, s)
    requires IsPayload(f) ==>
               && busy in s.connectStreams
               && f.streamId == s.connectStreams[busy].listenStreamId
               && back == [f]
    ensures Sound(env, base, cap, SendListen(env, s, f).0)
    ensures var (s', r) := SendListen(env, s, f);
            Exact(s, busy, owed, back) ==> Exact(s', busy, owed, if IsPayload(f) && r.Sent? then [] else back)
  {
    hide Paired, Budgeted, Tracked, Prefixes, Untouched, Forwarded, Returned;
    Longer(s, s.connectReceived, s.listenSent + [f]);
    if Exact(s, busy, owed, back) {
      ListenReturned(s, f, busy, back);
    }
  }

  lemma ConnectUntouched(s: Bridge, f: Frame)
    requires Untouched(s.origins, s.connectSent)
    requires IsPayload(f) ==> f.streamId in s.origins
    ensures Untouched(s.origins, s.connectSent + [f])
  {
    forall c | c !in s.origins ensures OnStream(s.connectSent + [f], c) == [] {
      OnStreamAppend(s.connectSent, f, c);
    }
  }

  /** A frame on the connect tunnel: control frames do not count, a payload frame
      is the first one owed to a pair with an empty queue. */
  lemma ConnectForwarded(s: Bridge, f: Frame, busy: nat, owed: seq<Frame>, rest: seq<Frame>)
    requires Forwarded(s.connectStreams, s.origins, s.connectSent, s.listenReceived, busy, owed)
    requires if IsPayload(f)
             then && busy == f.streamId
                  && busy in s.connectStreams
                  && s.connectStreams[busy].pendingFrames == []
                  && owed == [f] + rest
             else owed == rest
    ensures Forwarded(s.connectStreams, s.origins, s.connectSent + [f], s.listenReceived, busy, rest)
  {
    hide Input, OnStream, IsPayload;
    forall c | c in s.connectStreams
      ensures OnStream(s.connectSent + [f], c) + s.connectStreams[c].pendingFrames + Owed(c, busy, rest)
           == OnStream(s.connectSent, c) + s.connectStreams[c].pendingFrames + Owed(c, busy, owed)
    {
      OnStreamAppend(s.connectSent, f, c);
      if IsPayload(f) && f.streamId == c {
        assert OnStream(s.connectSent, c) + [f] + [] + rest == OnStream(s.connectSent, c) + [] + ([f] + rest);
      } else {
        assert OnStream(s.connectSent, c) + [] == OnStream(s.connectSent, c);
      }
    }
  }

  lemma ControlPrefixes(s: Bridge, f: Frame)
    requires Prefixes(s.origins, s.connectSent, s.listenReceived)
    requires !IsPayload(f)
    ensures Prefixes(s.origins, s.connectSent + [f], s.listenReceived)
  {
    forall c | c in s.origins ensures OnStream(s.connectSent + [f], c) == OnStream(s.connectSent, c) {
      OnStreamAppend(s.connectSent, f, c);
    }
  }

  lemma PayloadPrefixes(s: Bridge, f: Frame, rest: seq<Frame>)
    requires Prefixes(s.origins, s.connectSent, s.listenReceived)
    requires Forwarded(s.connectStreams, s.origins, s.connectSent + [f], s.listenReceived, f.streamId, rest)
    requires f.streamId in s.connectStreams
    ensures Prefixes(s.origins, s.connectSent + [f], s.listenReceived)
  {
    forall c | c in s.origins
      ensures OnStream(s.connectSent + [f], c) <= Input(s.origins[c], s.listenReceived, c)
    {
      OnStreamAppend(s.connectSent, f, c);
    }
  }

  lemma ControlOnConnectTunnel(env: Env, base: nat, cap: nat, s: Bridge, f: Frame, busy: nat, owed: seq<Frame>, back: seq<Frame>)
    requires Sound(env, base, cap, s)
    requires !IsPayload(f)
    ensures Sound(env, base, cap, SendConnect(env, s, f).0)
    ensures Exact(s, busy, owed, back) ==> Exact(SendConnect(env, s, f).0, busy, owed, back)
  {
    hide Paired, Budgeted, Tracked, Prefixes, Untouched, Forwarded, Returned;
    ConnectUntouched(s, f);
    ControlPrefixes(s, f);
    if Exact(s, busy, owed, back) {
      ConnectForwarded(s, f, busy, owed, owed);
    }
  }

  lemma Known(s: Bridge, c: nat)
    requires Tracked(s.connectStreams, s.origins, s.ids, s.listenReceived, s.connectReceived, s.listenSent)
    requires c in s.connectStreams
    ensures c in s.origins && s.origins[c].listenStreamId == s.connectStreams[c].listenStreamId
  {
  }

  /** Sending the first owed frame to a pair with an empty queue. */
  lemma PayloadOnConnectTunnel(env: Env, base: nat, cap: nat, s: Bridge, f: Frame, rest: seq<Frame>)
    requires Sound(env, base, cap, s)
    requires IsPayload(f)
    requires f.streamId in s.connectStreams && s.connectStreams[f.streamId].pendingFrames == []
    requires Exact(s, f.streamId, [f] + rest, [])
    ensures var (s', r) := SendConnect(env, s, f);
            && Sound(env, base, cap, s')
            && Exact(s', f.streamId, if r.Sent? then rest else [f] + rest, [])
  {
    hide Paired, Budgeted, Tracked, Prefixes, Untouched, Forwarded, Returned;
    Known(s, f.streamId);
    ConnectUntouched(s, f);
    ConnectForwarded(s, f, f.streamId, [f] + rest, rest);
    PayloadPrefixes(s, f, rest);
  }

  // ----- Changing one stream ----------------------------------------------

  lemma PendingPut(streams: map<nat, TcpConnectStream>, c: nat, stream: TcpConnectStream)
    ensures Sum(Pending(streams[c := stream])) == stream.pendingBytes + Sum(Pending(streams - {c}))
    ensures c in streams ==> Sum(Pending(streams)) == streams[c].pendingBytes + Sum(Pending(streams - {c}))
    ensures c !in streams ==> Sum(Pending(streams - {c})) == Sum(Pending(streams))
  {
    assert Pending(streams[c := stream]) == Pending(streams)[c := stream.pendingBytes];
    assert Pending(streams - {c}) == Pending(streams) - {c};
    SumPut(Pending(streams), c, stream.pendingBytes);
    if c in streams {
      SumSplit(Pending(streams), c);
    } else {
      assert streams - {c} == streams;
    }
  }

  lemma QueueBytesAppend(fs: seq<Frame>, f: Frame)
    ensures QueueBytes(fs + [f]) == QueueBytes(fs) + |f.meta| + |f.data|
  {
    assert (fs + [f])[..|fs|] == fs;
  }

  lemma BudgetedPut(limits: Limits, streams: map<nat, TcpConnectStream>, total: nat, c: nat, stream: TcpConnectStream, total': nat)
    requires Budgeted(limits, streams, total)
    requires c in streams ==> total' + streams[c].pendingBytes == total + stream.pendingBytes
    requires c !in streams ==> total' == total + stream.pendingBytes
    requires total' <= limits.maxPendingPerForward
    requires QueueOk(c, stream) && stream.pendingBytes <= limits.maxPendingPerStream
    ensures Budgeted(limits, streams[c := stream], total')
  {
    PendingPut(streams, c, stream);
  }

  /** The parts that read a stream's identity only. */
  lemma PutSize(streams: map<nat, TcpConnectStream>, c: nat, stream: TcpConnectStream)
    requires c in streams
    ensures |streams[c := stream]| == |streams|
  {
    assert streams[c := stream].Keys == streams.Keys;
    assert |streams[c := stream].Keys| == |streams[c := stream]|;
  }

  lemma SameListenPut(s: Bridge, c: nat, stream: TcpConnectStream)
    requires Paired(s.listenToConnect, s.connectStreams)
    requires Tracked(s.connectStreams, s.origins, s.ids, s.listenReceived, s.connectReceived, s.listenSent)
    requires c in s.connectStreams && stream.listenStreamId == s.connectStreams[c].listenStreamId
    ensures Paired(s.listenToConnect, s.connectStreams[c := stream])
    ensures Tracked(s.connectStreams[c := stream], s.origins, s.ids, s.listenReceived, s.connectReceived, s.listenSent)
    ensures |s.connectStreams[c := stream]| == |s.connectStreams|
  {
    hide Reopens;
    PutSize(s.connectStreams, c, stream);
  }

  lemma ReturnedPut(s: Bridge, c: nat, stream: TcpConnectStream, busy: nat, back: seq<Frame>)
    requires Returned(s.connectStreams, s.origins, s.listenSent, s.connectReceived, busy, back)
    requires c in s.connectStreams
    ensures Returned(s.connectStreams[c := stream], s.origins, s.listenSent, s.connectReceived, busy, back)
  {
  }

  lemma ForwardedPut(s: Bridge, c: nat, stream: TcpConnectStream, busy: nat, owed: seq<Frame>, owed': seq<Frame>)
    requires Forwarded(s.connectStreams, s.origins, s.connectSent, s.listenReceived, busy, owed)
    requires c in s.connectStreams
    requires busy == c || owed == owed'
    requires s.connectStreams[c].pendingFrames + Owed(c, busy, owed) == stream.pendingFrames + Owed(c, busy, owed')
    ensures Forwarded(s.connectStreams[c := stream], s.origins, s.connectSent, s.listenReceived, busy, owed')
  {
    hide Input, OnStream;
    var sent := OnStream(s.connectSent, c);
    assert sent + s.connectStreams[c].pendingFrames + Owed(c, busy, owed)
        == sent + (s.connectStreams[c].pendingFrames + Owed(c, busy, owed));
    assert sent + stream.pendingFrames + Owed(c, busy, owed')
        == sent + (stream.pendingFrames + Owed(c, busy, owed'));
  }

  lemma QueueRoom(env: Env, s: Bridge, c: nat, f: Frame)
    requires LegalEnv(env)
    requires Budgeted(env.limits, s.connectStreams, s.totalBytes)
    requires c in s.connectStreams && !s.connectStreams[c].ready
    requires IsPayload(f) && f.streamId == c
    requires FitsPending(env, s, c, f)
    ensures Budgeted(env.limits, Enqueue(s, c, f).connectStreams, Enqueue(s, c, f).totalBytes)
  {
    var s' := Enqueue(s, c, f);
    QueueBytesAppend(s.connectStreams[c].pendingFrames, f);
    assert QueueOk(c, s'.connectStreams[c]);
    BudgetedPut(env.limits, s.connectStreams, s.totalBytes, c, s'.connectStreams[c], s'.totalBytes);
  }

  lemma Enqueued(env: Env, base: nat, cap: nat, s: Bridge, c: nat, f: Frame)
    requires LegalEnv(env)
    requires Sound(env, base, cap, s)
    requires c in s.connectStreams && !s.connectStreams[c].ready
    requires IsPayload(f) && f.streamId == c
    requires FitsPending(env, s, c, f)
    requires Exact(s, c, [f], [])
    ensures Sound(env, base, cap, Enqueue(s, c, f))
    ensures Exact(Enqueue(s, c, f), c, [], [])
  {
    hide Paired, Budgeted, Tracked, Prefixes, Untouched, Forwarded, Returned;
    var stream := Enqueue(s, c, f).connectStreams[c];
    QueueRoom(env, s, c, f);
    SameListenPut(s, c, stream);
    ForwardedPut(s, c, stream, c, [f], []);
    ReturnedPut(s, c, stream, c, []);
  }

  /** Changing only the half-close flags of a stream. */
  lemma Flagged(env: Env, base: nat, cap: nat, s: Bridge, c: nat, stream: TcpConnectStream, busy: nat, owed: seq<Frame>, back: seq<Frame>)
    requires Sound(env, base, cap, s)
    requires c in s.connectStreams
    requires stream == s.connectStreams[c].(listenEof := stream.listenEof, connectEof := stream.connectEof)
    requires Exact(s, busy, owed, back)
    ensures Sound(env, base, cap, s.(connectStreams := s.connectStreams[c := stream]))
    ensures Exact(s.(connectStreams := s.connectStreams[c := stream]), busy, owed, back)
  {
    hide Paired, Tracked, Prefixes, Untouched, Forwarded, Returned;
    BudgetedPut(env.limits, s.connectStreams, s.totalBytes, c, stream, s.totalBytes);
    hide Budgeted;
    SameListenPut(s, c, stream);
    ForwardedPut(s, c, stream, busy, owed, owed);
    ReturnedPut(s, c, stream, busy, back);
  }

  lemma BudgetReturned(env: Env, s: Bridge, c: nat)
    requires Budgeted(env.limits, s.connectStreams, s.totalBytes)
    requires c in s.connectStreams
    ensures s.connectStreams[c].pendingBytes <= s.totalBytes
    ensures Budgeted(env.limits, s.connectStreams - {c}, s.totalBytes - s.connectStreams[c].pendingBytes)
    ensures Budgeted(env.limits, TakePending(s, c).connectStreams, TakePending(s, c).totalBytes)
  {
    PendingPut(s.connectStreams, c, s.connectStreams[c]);
    BudgetedPut(env.limits, s.connectStreams, s.totalBytes, c, TakePending(s, c).connectStreams[c], TakePending(s, c).totalBytes);
  }

  lemma PendingTaken(env: Env, base: nat, cap: nat, s: Bridge, c: nat)
    requires Sound(env, base, cap, s)
    requires c in s.connectStreams
    requires Exact(s, c, [], [])
    ensures Sound(env, base, cap, TakePending(s, c))
    ensures Exact(TakePending(s, c), c, s.connectStreams[c].pendingFrames, [])
  {
    hide Paired, Budgeted, Tracked, Prefixes, Untouched, Forwarded, Returned;
    var stream := TakePending(s, c).connectStreams[c];
    BudgetReturned(env, s, c);
    SameListenPut(s, c, stream);
    ForwardedPut(s, c, stream, c, [], s.connectStreams[c].pendingFrames);
    ReturnedPut(s, c, stream, c, []);
  }

  // ----- Removing pairs ---------------------------------------------------

  lemma PairGone(s: Bridge, c: nat)
    requires Paired(s.listenToConnect, s.connectStreams)
    requires Tracked(s.connectStreams, s.origins, s.ids, s.listenReceived, s.connectReceived, s.listenSent)
    requires c in s.connectStreams
    ensures Paired(s.listenToConnect - {s.connectStreams[c].listenStreamId}, s.connectStreams - {c})
    ensures Tracked(s.connectStreams - {c}, s.origins, s.ids, s.listenReceived, s.connectReceived, s.listenSent)
    ensures |s.connectStreams - {c}| == |s.connectStreams| - 1
  {
    assert (s.connectStreams - {c}).Keys == s.connectStreams.Keys - {c};
    assert |(s.connectStreams - {c}).Keys| == |s.connectStreams - {c}|;
  }

  /** Whatever was owed to a pair is forgotten with it. */
  lemma DebtGone(s: Bridge, c: nat, owed: seq<Frame>, back: seq<Frame>)
    requires Forwarded(s.connectStreams, s.origins, s.connectSent, s.listenReceived, c, owed)
    requires Returned(s.connectStreams, s.origins, s.listenSent, s.connectReceived, c, back)
    ensures Forwarded(s.connectStreams - {c}, s.origins, s.connectSent, s.listenReceived, c, [])
    ensures Returned(s.connectStreams - {c}, s.origins, s.listenSent, s.connectReceived, c, [])
  {
  }

  lemma UnpairedSlot(base: nat, cap: nat, s: Bridge, c: nat, how: Settlement)
    requires SlotsHeld(base, cap, s.entry, s.connectStreams) && c in s.connectStreams
    requires |s.connectStreams - {c}| == |s.connectStreams| - 1
    ensures SlotsHeld(base, cap, Unpair(s, c, how).entry, s.connectStreams - {c})
    ensures 1 <= s.entry.activeTcpStreams
  {
  }

  /** Removing a live pair gives back its slot and its budget, and neither subtraction saturates. */
  lemma UnpairedSound(env: Env, base: nat, cap: nat, s: Bridge, c: nat, how: Settlement)
    requires Sound(env, base, cap, s)
    requires c in s.connectStreams
    ensures Sound(env, base, cap, Unpair(s, c, how))
    ensures s.connectStreams[c].pendingBytes <= s.totalBytes && 1 <= s.entry.activeTcpStreams
  {
    hide Paired, Budgeted, Tracked, Prefixes, Untouched, SlotsHeld;
    PairGone(s, c);
    BudgetReturned(env, s, c);
    UnpairedSlot(base, cap, s, c, how);
  }

  lemma Unpaired(env: Env, base: nat, cap: nat, s: Bridge, c: nat, how: Settlement, owed: seq<Frame>, back: seq<Frame>)
    requires Sound(env, base, cap, s)
    requires c in s.connectStreams
    ensures Sound(env, base, cap, Unpair(s, c, how))
    ensures s.connectStreams[c].pendingBytes <= s.totalBytes && 1 <= s.entry.activeTcpStreams
    ensures Exact(s, c, owed, back) ==> Exact(Unpair(s, c, how), c, [], [])
  {
    hide Sound, Forwarded, Returned;
    UnpairedSound(env, base, cap, s, c, how);
    if Exact(s, c, owed, back) {
      DebtGone(s, c, owed, back);
    }
  }

  /** Walking the streams gives the whole shared budget back. */
  lemma NoneLeft(order: seq<nat>, keys: set<nat>)
    requires Enumerates(order, keys) && order == []
    ensures keys == {}
  {
    assert forall k :: k in keys ==> k in order;
  }

  lemma OneLeft(order: seq<nat>, keys: set<nat>)
    requires Enumerates(order, keys) && order != []
    ensures order[0] in keys && Enumerates(order[1..], keys - {order[0]})
    ensures forall k :: k in order ==> k in keys
  {
    assert order[0] in order && order == [order[0]] + order[1..];
  }

  lemma NonePending()
    ensures Sum(Pending(map[])) == 0
  {
    assert Pending(map[]) == map[];
  }

  lemma {:induction false} ClosedEach(
    env: Env, s: Bridge, streams: map<nat, TcpConnectStream>, order: seq<nat>, first: Option<SendResult>, rest: map<nat, TcpConnectStream>)
    requires Enumerates(order, rest.Keys)
    requires forall c :: c in rest ==> c in streams && streams[c] == rest[c]
    requires s.totalBytes == Sum(Pending(rest))
    ensures var s' := CloseEach(env, s, streams, order, first).0;
            && s' == s.(totalBytes := 0, attempts := s'.attempts, listenSent := s'.listenSent)
            && |s.listenSent| <= |s'.listenSent|
    decreases |order|
  {
    hide Sum, Pending, Enumerates;
    if order == [] {
      NoneLeft(order, rest.Keys);
      assert rest == map[];
      NonePending();
    } else {
      var c := order[0];
      OneLeft(order, rest.Keys);
      PendingPut(rest, c, rest[c]);
      assert (rest - {c}).Keys == rest.Keys - {c};
      var s1 := s.(totalBytes := SaturatingSub(s.totalBytes, streams[c].pendingBytes));
      var (s2, r) := CloseListenStream(env, s1, streams[c].listenStreamId);
      ClosedEach(env, s2, streams, order[1..], if first.None? && !r.Sent? then Some(r) else first, rest - {c});
    }
  }

  lemma WalksAll(env: Env, n: nat, keys: set<nat>)
    requires LegalEnv(env)
    ensures Enumerates(env.order(n, keys), keys)
    ensures forall c :: c in env.order(n, keys) ==> c in keys
  {
  }

  lemma BudgetTotal(env: Env, s: Bridge)
    requires Budgeted(env.limits, s.connectStreams, s.totalBytes)
    ensures s.totalBytes == Sum(Pending(s.connectStreams))
  {
  }

  lemma AllGone(env: Env, s: Bridge, listenSent: seq<Frame>)
    requires Tracked(s.connectStreams, s.origins, s.ids, s.listenReceived, s.connectReceived, s.listenSent)
    requires |s.listenSent| <= |listenSent|
    ensures Paired(map[], map[])
    ensures Budgeted(env.limits, map[], 0)
    ensures Tracked(map[], s.origins, s.ids, s.listenReceived, s.connectReceived, listenSent)
    ensures Forwarded(map[], s.origins, s.connectSent, s.listenReceived, 0, [])
    ensures Returned(map[], s.origins, listenSent, s.connectReceived, 0, [])
  {
    assert Pending(map[]) == map[];
  }

  /** Losing the connect tunnel settles every live pair as dropped. */
  lemma ActiveClosed(env: Env, base: nat, cap: nat, s: Bridge)
    requires LegalEnv(env)
    requires Sound(env, base, cap, s)
    ensures var s' := CloseActive(env, s).bridge;
            && Sound(env, base, cap, s')
            && Exact(s', 0, [], [])
            && s'.connectStreams == map[]
            && s'.entry.activeTcpStreams == base
  {
    hide Paired, Budgeted, Tracked, Prefixes, Untouched, Forwarded, Returned, CloseEach, Enumerates;
    var order := env.order(s.attempts, s.connectStreams.Keys);
    WalksAll(env, s.attempts, s.connectStreams.Keys);
    var s1 := s.(connectStreams := map[], listenToConnect := map[]);
    BudgetTotal(env, s);
    ClosedEach(env, s1, s.connectStreams, order, None, s.connectStreams);
    AllGone(env, s, CloseEach(env, s1, s.connectStreams, order, None).0.listenSent);
  }

  lemma PairClosed(env: Env, base: nat, cap: nat, s: Bridge, c: nat, reason: PairCloseReason, owed: seq<Frame>)
    requires Sound(env, base, cap, s)
    requires c in s.connectStreams || owed == []
    requires Exact(s, c, owed, [])
    ensures Sound(env, base, cap, ClosePair(env, s, c, reason).bridge)
    ensures Exact(ClosePair(env, s, c, reason).bridge, c, [], [])
  {
    hide Sound, Exact, Unpair, SendListen, SendConnect;
    if c in s.connectStreams {
      var listenId := s.connectStreams[c].listenStreamId;
      match reason
      case ConnectError =>
        Unpaired(env, base, cap, s, c, Release, owed, []);
        OnListenTunnel(env, base, cap, Unpair(s, c, Release), CloseFrame(listenId), c, [], []);
      case ConnectPressure =>
        Unpaired(env, base, cap, s, c, Dropped, owed, []);
        BothClosed(env, base, cap, Unpair(s, c, Dropped), c, listenId);
    }
  }

  /** Closing the connect stream and then the listen stream of a removed pair. */
  lemma BothClosed(env: Env, base: nat, cap: nat, s: Bridge, c: nat, listenId: nat)
    requires Sound(env, base, cap, s)
    requires Exact(s, c, [], [])
    ensures var s1 := CloseConnectStream(env, s, c).0;
            && Sound(env, base, cap, s1) && Exact(s1, c, [], [])
            && Sound(env, base, cap, CloseListenStream(env, s1, listenId).0)
            && Exact(CloseListenStream(env, s1, listenId).0, c, [], [])
  {
    hide Sound, Exact, SendListen, SendConnect;
    ControlOnConnectTunnel(env, base, cap, s, CloseFrame(c), c, [], []);
    OnListenTunnel(env, base, cap, CloseConnectStream(env, s, c).0, CloseFrame(listenId), c, [], []);
  }

  lemma FullyEofClosed(env: Env, base: nat, cap: nat, s: Bridge, c: nat)
    requires Sound(env, base, cap, s)
    requires Exact(s, c, [], [])
    ensures Sound(env, base, cap, ClosePairIfFullyEof(env, s, c).bridge)
    ensures Exact(ClosePairIfFullyEof(env, s, c).bridge, c, [], [])
  {
    hide Sound, Exact, Unpair, SendListen, SendConnect;
    if c in s.connectStreams {
      Unpaired(env, base, cap, s, c, Release, [], []);
      BothClosed(env, base, cap, Unpair(s, c, Release), c, s.connectStreams[c].listenStreamId);
    }
  }
}
