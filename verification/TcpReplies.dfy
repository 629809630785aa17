/** The way back of pairs that have ended: whatever happens to a pair or to its
    epoch, the listen side has been sent a prefix of the pair's replies. */
module TcpReplies {
  import opened Common
  import opened Frames
  import opened StreamIds
  import opened ForwardEntries
  import opened TcpBridge
  import opened TcpInvariants
  import opened TcpRuns

  // ----- Which steps put payload on the listen tunnel ---------------------

  predicate NoPayload(fs: seq<Frame>) {
    forall f <- fs :: !IsPayload(f)
  }

  /** Nothing but control frames went to the listen side, and no pair was made. */
  ghost predicate Calm(s: Bridge, s': Bridge) {
    && s'.origins == s.origins
    && s'.connectReceived == s.connectReceived
    && s'.connectStreams.Keys <= s.connectStreams.Keys
    && s.listenSent <= s'.listenSent
    && NoPayload(s'.listenSent[|s.listenSent|..])
  }

  lemma CalmThen(s: Bridge, s1: Bridge, s2: Bridge)
    requires Calm(s, s1) && Calm(s1, s2)
    ensures Calm(s, s2)
  {
    var a, b := s1.listenSent[|s.listenSent|..], s2.listenSent[|s1.listenSent|..];
    assert s2.listenSent[|s.listenSent|..] == a + b;
  }

  lemma CloseListenCalm(env: Env, s: Bridge, l: nat)
    ensures Calm(s, CloseListenStream(env, s, l).0)
  {
    assert (s.listenSent + [CloseFrame(l)])[|s.listenSent|..] == [CloseFrame(l)];
  }

  lemma {:induction false} CloseEachCalm(
    env: Env, s: Bridge, streams: map<nat, TcpConnectStream>, order: seq<nat>, first: Option<SendResult>)
    requires forall c :: c in order ==> c in streams
    ensures Calm(s, CloseEach(env, s, streams, order, first).0)
    decreases |order|
  {
    hide Calm;
    if order == [] {
      CalmSame(s, s);
    } else {
      var s1 := s.(totalBytes := SaturatingSub(s.totalBytes, streams[order[0]].pendingBytes));
      var (s2, r) := CloseListenStream(env, s1, streams[order[0]].listenStreamId);
      CalmSame(s, s1);
      CloseListenCalm(env, s1, streams[order[0]].listenStreamId);
      CalmThen(s, s1, s2);
      var first' := if first.None? && !r.Sent? then Some(r) else first;
      CloseEachCalm(env, s2, streams, order[1..], first');
      CalmThen(s, s2, CloseEach(env, s2, streams, order[1..], first').0);
    }
  }

  lemma CalmSame(s: Bridge, s': Bridge)
    requires s'.origins == s.origins && s'.connectReceived == s.connectReceived && s'.listenSent == s.listenSent
    requires s'.connectStreams.Keys <= s.connectStreams.Keys
    ensures Calm(s, s')
  {
  }

  lemma CloseActiveCalm(env: Env, s: Bridge)
    requires LegalEnv(env)
    ensures Calm(s, CloseActive(env, s).bridge)
  {
    hide Calm, CloseEach;
    var s1 := s.(connectStreams := map[], listenToConnect := map[]);
    var order := env.order(s.attempts, s.connectStreams.Keys);
    var s2 := CloseEach(env, s1, s.connectStreams, order, None).0;
    CalmSame(s, s1);
    CloseEachCalm(env, s1, s.connectStreams, order, None);
    CalmThen(s, s1, s2);
    CalmSame(s2, CloseActive(env, s).bridge);
    CalmThen(s, s2, CloseActive(env, s).bridge);
  }

  lemma ClosePairCalm(env: Env, s: Bridge, c: nat, reason: PairCloseReason)
    ensures Calm(s, ClosePair(env, s, c, reason).bridge)
  {
    hide Calm;
    if c in s.connectStreams {
      var l := s.connectStreams[c].listenStreamId;
      var s1 := if reason.ConnectError? then Unpair(s, c, Release) else CloseConnectStream(env, Unpair(s, c, Dropped), c).0;
      CalmSame(s, s1);
      CloseListenCalm(env, s1, l);
      CalmThen(s, s1, CloseListenStream(env, s1, l).0);
    } else {
      CalmSame(s, s);
    }
  }

  lemma FullyEofCalm(env: Env, s: Bridge, c: nat)
    ensures Calm(s, ClosePairIfFullyEof(env, s, c).bridge)
  {
    hide Calm;
    CalmSame(s, s);
    if c in s.connectStreams {
      var l := s.connectStreams[c].listenStreamId;
      var s1 := CloseConnectStream(env, Unpair(s, c, Release), c).0;
      CalmSame(s, s1);
      CloseListenCalm(env, s1, l);
      CalmThen(s, s1, CloseListenStream(env, s1, l).0);
    }
  }

  lemma QueueOrSendCalm(env: Env, s: Bridge, c: nat, f: Frame)
    requires LegalEnv(env)
    ensures Calm(s, QueueOrSend(env, s, c, f).bridge)
  {
    hide Calm, CloseActive, LegalEnv;
    CalmSame(s, s);
    if c in s.connectStreams {
      var s1 := SendConnect(env, s, f).0;
      CalmSame(s, s1);
      CalmSame(s, Enqueue(s, c, f));
      ClosePairCalm(env, s1, c, ConnectPressure);
      CalmThen(s, s1, ClosePair(env, s1, c, ConnectPressure).bridge);
      CloseActiveCalm(env, s1);
      CalmThen(s, s1, CloseActive(env, s1).bridge);
      ClosePairCalm(env, s, c, ConnectPressure);
    }
  }

  lemma {:induction false} FlushCalm(env: Env, s: Bridge, c: nat, frames: seq<Frame>, remove: bool)
    requires LegalEnv(env)
    ensures Calm(s, Flush(env, s, c, frames, remove).0.bridge)
    decreases |frames|
  {
    hide Calm, CloseActive, LegalEnv, ClosePair;
    CalmSame(s, s);
    if frames != [] {
      var (s1, r) := SendConnect(env, s, frames[0]);
      CalmSame(s, s1);
      if r.Sent? {
        var s2 := if !frames[0].frameType.Close? then s1
                  else Settle(if c in s1.connectStreams
                              then s1.(listenToConnect := s1.listenToConnect - {s1.connectStreams[c].listenStreamId})
                              else s1, Release);
        CalmSame(s, s2);
        FlushCalm(env, s2, c, frames[1..], remove || frames[0].frameType.Close?);
        CalmThen(s, s2, Flush(env, s2, c, frames[1..], remove || frames[0].frameType.Close?).0.bridge);
      } else {
        ClosePairCalm(env, s1, c, ConnectPressure);
        CalmThen(s, s1, ClosePair(env, s1, c, ConnectPressure).bridge);
        CloseActiveCalm(env, s1);
        CalmThen(s, s1, CloseActive(env, s1).bridge);
      }
    }
  }

  /** The accepted connection got its pair, as stream `c`. */
  ghost predicate Opened(s: Bridge, s': Bridge, l: nat, c: nat) {
    && s'.origins == s.origins[c := Origin(l, |s.listenReceived|, |s.connectReceived|, |s.listenSent|)]
    && s'.connectReceived == s.connectReceived
    && s'.connectStreams.Keys == s.connectStreams.Keys + {c}
    && s'.listenSent == s.listenSent
  }

  lemma AcceptStep(env: Env, s: Bridge, f: Frame)
    requires LegalEnv(env)
    ensures var s' := OnAccept(env, s, f).bridge;
            || Calm(s, s')
            || (Next(s.ids).0.Some? && Opened(s, s', f.streamId, Next(s.ids).0.value))
  {
    hide Calm, CloseActive, LegalEnv, Next;
    CalmSame(s, s);
    CloseListenCalm(env, s, f.streamId);
    var s0 := CloseListenStream(env, s, f.streamId).0;
    CalmSame(s0, s0.(entry := RecordDroppedStreams(s0.entry, 1)));
    CalmThen(s, s0, s0.(entry := RecordDroppedStreams(s0.entry, 1)));
    var (id, ids) := Next(s.ids);
    var s1 := s.(entry := ReserveActiveEntry(s.entry, env.limits.maxActiveTcpStreams), ids := ids);
    CalmSame(s, s1);
    if id.None? {
      var s2 := CloseListenStream(env, s1, f.streamId).0;
      CloseListenCalm(env, s1, f.streamId);
      CalmThen(s, s1, s2);
      CalmSame(s2, Settle(s2, Dropped));
      CalmThen(s, s2, Settle(s2, Dropped));
      CloseActiveCalm(env, Settle(s2, Dropped));
      CalmThen(s, Settle(s2, Dropped), CloseActive(env, Settle(s2, Dropped)).bridge);
    } else {
      OpenStep(env, s1, f.streamId, id.value);
      if Calm(s1, OpenPair(env, s1, f.streamId, id.value).bridge) {
        CalmThen(s, s1, OpenPair(env, s1, f.streamId, id.value).bridge);
      }
    }
  }

  lemma OpenStep(env: Env, s: Bridge, l: nat, c: nat)
    ensures Calm(s, OpenPair(env, s, l, c).bridge) || Opened(s, OpenPair(env, s, l, c).bridge, l, c)
  {
    hide Calm;
    var s1 := SendConnect(env, s, Frame(TcpConnect, 0, c, env.endpointMeta, [])).0;
    var s2 := CloseListenStream(env, s1, l).0;
    CalmSame(s, s1);
    CalmSame(s1, Settle(s1, Dropped));
    CalmThen(s, s1, Settle(s1, Dropped));
    CloseListenCalm(env, s1, l);
    CalmThen(s, s1, s2);
    CalmSame(s2, Settle(s2, Dropped));
    CalmThen(s, s2, Settle(s2, Dropped));
  }

  lemma ListenEndCalm(env: Env, s: Bridge, f: Frame)
    ensures Calm(s, OnListenClose(env, s, f).bridge) && Calm(s, OnListenError(env, s, f).bridge)
    ensures Calm(s, OnForwardDrop(env, s, f).bridge)
  {
    hide Calm;
    CalmSame(s, OnListenClose(env, s, f).bridge);
    CalmSame(s, OnListenError(env, s, f).bridge);
    CalmSame(s, OnForwardDrop(env, s, f).bridge);
  }

  lemma ListenPayloadCalm(env: Env, s: Bridge, f: Frame)
    requires LegalEnv(env)
    ensures Calm(s, OnListenData(env, s, f).bridge) && Calm(s, OnListenEof(env, s, f).bridge)
  {
    hide Calm, QueueOrSend, ClosePairIfFullyEof, LegalEnv;
    CalmSame(s, s);
    if f.streamId in s.listenToConnect {
      var c := s.listenToConnect[f.streamId];
      QueueOrSendCalm(env, s, c, f.(streamId := c));
      var s1 := MarkListenEof(s, c);
      var g := Frame(f.frameType, 0, c, [], []);
      CalmSame(s, s1);
      QueueOrSendCalm(env, s1, c, g);
      var s2 := QueueOrSend(env, s1, c, g).bridge;
      CalmThen(s, s1, s2);
      FullyEofCalm(env, s2, c);
      CalmThen(s, s2, ClosePairIfFullyEof(env, s2, c).bridge);
    }
  }

  lemma ListenFrameStep(env: Env, s: Bridge, f: Frame)
    requires LegalEnv(env)
    ensures var s' := OnListenFrame(env, s, f).bridge;
            || Calm(s, s')
            || (f.frameType.TcpAccept? && Next(s.ids).0.Some? && Opened(s, s', f.streamId, Next(s.ids).0.value))
  {
    hide Calm, Opened, OnAccept, OnListenData, OnListenEof, OnListenClose, OnListenError, OnForwardDrop, LegalEnv, Next;
    CalmSame(s, s);
    AcceptStep(env, s, f);
    ListenPayloadCalm(env, s, f);
    ListenEndCalm(env, s, f);
  }

  /** The bridge with the reply that frame `f` of the connect side calls for, if
      the listen side takes it. */
  function Replied(env: Env, s: Bridge, f: Frame): Bridge {
    if IsPayload(f) && f.streamId in s.connectStreams && env.net(s.attempts).Sent?
    then s.(listenSent := s.listenSent + [Rewritten(f, s.connectStreams[f.streamId].listenStreamId)])
    else s
  }

  lemma ConnectPayloadStep(env: Env, s: Bridge, f: Frame)
    requires IsPayload(f)
    ensures Calm(Replied(env, s, f), if f.frameType.TcpData? then OnConnectData(env, s, f).bridge else OnConnectEof(env, s, f).bridge)
  {
    hide Calm, ClosePairIfFullyEof;
    var r := Replied(env, s, f);
    CalmSame(r, r);
    if f.streamId in s.connectStreams {
      var c := f.streamId;
      var s1 := if f.frameType.TcpData? then s
                else s.(connectStreams := s.connectStreams[c := s.connectStreams[c].(connectEof := true)]);
      var s2 := SendBack(env, s1, c, f).bridge;
      CalmSame(r, s2);
      FullyEofCalm(env, s2, c);
      CalmThen(r, s2, ClosePairIfFullyEof(env, s2, c).bridge);
    }
  }

  lemma ConnectOkCalm(env: Env, s: Bridge, f: Frame)
    requires LegalEnv(env)
    ensures Calm(s, OnConnectOk(env, s, f).bridge)
  {
    hide Calm, Flush, LegalEnv;
    CalmSame(s, s);
    if f.streamId in s.connectStreams {
      var c := f.streamId;
      var s1, pending := TakePending(s, c), s.connectStreams[c].pendingFrames;
      CalmSame(s, s1);
      FlushCalm(env, s1, c, pending, false);
      var s2 := Flush(env, s1, c, pending, false).0.bridge;
      CalmThen(s, s1, s2);
      CalmSame(s2, s2.(connectStreams := s2.connectStreams - {c}));
      CalmThen(s, s2, s2.(connectStreams := s2.connectStreams - {c}));
    }
  }

  lemma ConnectEndCalm(env: Env, s: Bridge, f: Frame)
    ensures Calm(s, OnConnectClose(env, s, f).bridge)
  {
  }

  lemma ConnectFrameStep(env: Env, s: Bridge, f: Frame)
    requires LegalEnv(env)
    ensures Calm(Replied(env, s, f), OnConnectFrame(env, s, f).bridge)
  {
    hide Calm, OnConnectOk, OnConnectData, OnConnectEof, OnConnectClose, ClosePair, LegalEnv;
    CalmSame(s, s);
    if IsPayload(f) {
      ConnectPayloadStep(env, s, f);
    } else {
      ConnectOkCalm(env, s, f);
      ClosePairCalm(env, s, f.streamId, ConnectError);
      ConnectEndCalm(env, s, f);
    }
  }

  // ----- The invariant ----------------------------------------------------

  /** A live pair is the last one made under its listen id. */
  ghost predicate Latest(s: Bridge) {
    forall c, d :: c in s.connectStreams && c in s.origins && d in s.origins ==>
      s.origins[d].listenStreamId == s.origins[c].listenStreamId ==> d <= c
  }

  /** Up to position `n` of `listenSent` no later pair uses the listen id of pair `c`. */
  ghost predicate NotReused(origins: map<nat, Origin>, c: nat, n: nat)
    requires c in origins
  {
    forall d :: d in origins && c < d && origins[d].listenStreamId == origins[c].listenStreamId ==>
      n <= origins[d].listenSentFrom
  }

  /** What went back under the listen id of pair `c`, up to position `n`. */
  function SentBackUpTo(o: Origin, listenSent: seq<Frame>, n: nat): seq<Frame>
    requires o.listenSentFrom <= n <= |listenSent|
  {
    OnStream(listenSent[o.listenSentFrom..n], o.listenStreamId)
  }

  ghost predicate ReplyOk(s: Bridge, c: nat, n: nat)
    requires c in s.origins
  {
    s.origins[c].listenSentFrom <= n <= |s.listenSent| && NotReused(s.origins, c, n) ==>
      SentBackUpTo(s.origins[c], s.listenSent, n) <= Reply(s.origins[c], s.connectReceived, c)
  }

  ghost predicate Replies(s: Bridge) {
    forall c, n: nat :: c in s.origins ==> ReplyOk(s, c, n)
  }

  lemma {:induction false} NoPayloadOnStream(fs: seq<Frame>, l: nat)
    requires NoPayload(fs)
    ensures OnStream(fs, l) == []
  {
    if fs != [] {
      NoPayloadOnStream(fs[..|fs| - 1], l);
      assert fs[|fs| - 1] in fs;
    }
  }

  /** Control frames do not count as replies. */
  lemma SentBackCalm(o: Origin, sent: seq<Frame>, longer: seq<Frame>, n: nat)
    requires sent <= longer && NoPayload(longer[|sent|..])
    requires o.listenSentFrom <= |sent| && |sent| <= n <= |longer|
    ensures SentBackUpTo(o, longer, n) == SentBackUpTo(o, sent, |sent|)
  {
    var a, b := sent[o.listenSentFrom..|sent|], longer[|sent|..n];
    assert longer[o.listenSentFrom..n] == a + b;
    forall f <- b ensures !IsPayload(f) {
      assert f in longer[|sent|..];
    }
    OnStreamConcat(a, b, o.listenStreamId);
    NoPayloadOnStream(b, o.listenStreamId);
  }

  /** The facts of the bridge invariant these results rest on. */
  ghost predicate Begun(s: Bridge) {
    && (forall c <- s.origins :: s.origins[c].listenSentFrom <= |s.listenSent| && s.origins[c].connectFrom <= |s.connectReceived|)
    && (forall c <- s.connectStreams :: c in s.origins)
  }

  lemma CalmReply(s: Bridge, s': Bridge, c: nat, n: nat)
    requires Calm(s, s') && Begun(s) && c in s.origins
    requires ReplyOk(s, c, n) && ReplyOk(s, c, |s.listenSent|)
    ensures ReplyOk(s', c, n)
  {
    hide Reply;
    var o := s.origins[c];
    if o.listenSentFrom <= n <= |s'.listenSent| && NotReused(s.origins, c, n) {
      if n <= |s.listenSent| {
        assert s'.listenSent[o.listenSentFrom..n] == s.listenSent[o.listenSentFrom..n];
      } else {
        SentBackCalm(o, s.listenSent, s'.listenSent, n);
      }
    }
  }

  lemma CalmKeeps(s: Bridge, s': Bridge)
    requires Calm(s, s') && Begun(s) && Replies(s) && Latest(s)
    ensures Replies(s') && Latest(s')
  {
    forall c, n: nat | c in s'.origins
      ensures ReplyOk(s', c, n)
    {
      assert ReplyOk(s, c, n) && ReplyOk(s, c, |s.listenSent|);
      hide ReplyOk;
      CalmReply(s, s', c, n);
    }
  }

  lemma OpenedKeeps(s: Bridge, s': Bridge, l: nat, c: nat)
    requires Opened(s, s', l, c) && Begun(s) && Replies(s) && Latest(s)
    requires forall d <- s.origins :: d < c
    requires forall d <- s.connectStreams :: d in s.origins && s.origins[d].listenStreamId != l
    ensures Replies(s') && Latest(s')
  {
    forall d, n: nat | d in s'.origins
      ensures ReplyOk(s', d, n)
    {
      var o := s'.origins[d];
      if d != c {
        assert ReplyOk(s, d, n);
        if NotReused(s'.origins, d, n) {
          forall x | x in s.origins && d < x && s.origins[x].listenStreamId == s.origins[d].listenStreamId
            ensures n <= s.origins[x].listenSentFrom
          {
            assert x in s'.origins;
          }
          assert NotReused(s.origins, d, n);
        }
      } else if o.listenSentFrom <= n <= |s'.listenSent| {
        assert s'.listenSent[o.listenSentFrom..n] == [];
      }
    }
  }

  // ----- A reply ----------------------------------------------------------

  lemma ReceivedReply(s: Bridge, f: Frame, c: nat, n: nat)
    requires Begun(s) && c in s.origins && ReplyOk(s, c, n)
    ensures ReplyOk(s.(connectReceived := s.connectReceived + [f]), c, n)
  {
    hide Reply, Relayed;
    ReplyGrows(s.origins[c], s.connectReceived, f, c);
  }

  /** The pair that a payload frame of the connect side belongs to, one frame on. */
  lemma RepliedOk(env: Env, s: Bridge, f: Frame, c: nat, n: nat)
    requires Begun(s) && Latest(s) && c in s.origins && ReplyOk(s, c, n) && ReplyOk(s, c, |s.listenSent|)
    requires forall d <- s.connectStreams :: s.connectStreams[d].listenStreamId == s.origins[d].listenStreamId
    requires c in s.connectStreams ==> SentBack(s.origins[c], s.listenSent) == Reply(s.origins[c], s.connectReceived, c)
    ensures ReplyOk(Replied(env, s.(connectReceived := s.connectReceived + [f]), f), c, n)
  {
    hide Reply, IsPayload, Rewritten, OnStream;
    var s1 := s.(connectReceived := s.connectReceived + [f]);
    var s2 := Replied(env, s1, f);
    var o := s.origins[c];
    ReceivedReply(s, f, c, n);
    ReplyGrows(o, s.connectReceived, f, c);
    if s2 != s1 && o.listenSentFrom <= n <= |s2.listenSent| && NotReused(s.origins, c, n) {
      var l := s.connectStreams[f.streamId].listenStreamId;
      var g := Rewritten(f, l);
      if n <= |s.listenSent| {
        assert s2.listenSent[o.listenSentFrom..n] == s.listenSent[o.listenSentFrom..n];
      } else {
        assert s2.listenSent[o.listenSentFrom..n] == s.listenSent[o.listenSentFrom..] + [g];
        assert s.listenSent[o.listenSentFrom..] == s.listenSent[o.listenSentFrom..|s.listenSent|];
        OnStreamAppend(s.listenSent[o.listenSentFrom..], g, o.listenStreamId);
        RewrittenFacts(f, l);
        assert NotReused(s.origins, c, |s.listenSent|);
        if o.listenStreamId == l {
          assert c <= f.streamId;
          assert c == f.streamId;
        }
      }
    }
  }

  lemma RewrittenFacts(f: Frame, l: nat)
    requires IsPayload(f)
    ensures IsPayload(Rewritten(f, l)) && Rewritten(f, l).streamId == l
  {
  }

  // ----- Every event, every run -------------------------------------------

  lemma SoundFacts(env: Env, base: nat, cap: nat, s: Bridge)
    requires Sound(env, base, cap, s)
    ensures Begun(s)
    ensures forall d <- s.connectStreams :: s.connectStreams[d].listenStreamId == s.origins[d].listenStreamId
    ensures forall d <- s.connectStreams :: s.connectStreams[d].listenStreamId in s.listenToConnect
    ensures Next(s.ids).0.Some? ==> forall d <- s.origins :: d < Next(s.ids).0.value
  {
    hide Budgeted, Untouched, Prefixes, Reopens;
  }

  lemma ExactFacts(s: Bridge, c: nat)
    requires Exact(s, 0, [], []) && c in s.connectStreams
    ensures c in s.origins && SentBack(s.origins[c], s.listenSent) == Reply(s.origins[c], s.connectReceived, c)
  {
    hide SentBack, Reply, Forwarded;
    assert SentBack(s.origins[c], s.listenSent) + [] == SentBack(s.origins[c], s.listenSent);
  }

  lemma ConnectStepKeeps(env: Env, base: nat, cap: nat, s: Bridge, f: Frame)
    requires LegalEnv(env)
    requires Sound(env, base, cap, s) && Exact(s, 0, [], []) && Replies(s) && Latest(s)
    ensures var s' := Handle(env, s, ConnectFrame(f)).bridge; Replies(s') && Latest(s')
  {
    hide Sound, Exact, Calm, Latest, ReplyOk, OnConnectFrame, LegalEnv, Reply, SentBack;
    SoundFacts(env, base, cap, s);
    var s1 := s.(connectReceived := s.connectReceived + [f]);
    var s2 := Replied(env, s1, f);
    forall c, n: nat | c in s2.origins
      ensures ReplyOk(s2, c, n)
    {
      assert ReplyOk(s, c, n) && ReplyOk(s, c, |s.listenSent|);
      if c in s.connectStreams {
        ExactFacts(s, c);
      }
      RepliedOk(env, s, f, c, n);
    }
    LatestSame(s, s2);
    ConnectFrameStep(env, s1, f);
    CalmKeeps(s2, OnConnectFrame(env, s1, f).bridge);
  }

  lemma LatestSame(s: Bridge, s': Bridge)
    requires Latest(s) && s'.origins == s.origins && s'.connectStreams == s.connectStreams
    ensures Latest(s')
  {
  }

  lemma ListenStepKeeps(env: Env, base: nat, cap: nat, s: Bridge, f: Frame)
    requires LegalEnv(env)
    requires Sound(env, base, cap, s) && Replies(s) && Latest(s) && FreshAccept(s, ListenFrame(f))
    ensures var s' := Handle(env, s, ListenFrame(f)).bridge; Replies(s') && Latest(s')
  {
    hide Sound, Calm, Opened, OnListenFrame, LegalEnv, Reply, Next;
    SoundFacts(env, base, cap, s);
    var s1 := s.(listenReceived := s.listenReceived + [f]);
    assert Replies(s1) by {
      forall c, n: nat | c in s1.origins
        ensures ReplyOk(s1, c, n)
      {
        assert ReplyOk(s, c, n);
      }
    }
    LatestSame(s, s1);
    ListenFrameStep(env, s1, f);
    var s' := OnListenFrame(env, s1, f).bridge;
    if Calm(s1, s') {
      CalmKeeps(s1, s');
    } else {
      OpenedKeeps(s1, s', f.streamId, Next(s1.ids).0.value);
    }
  }

  lemma StepKeepsReplies(env: Env, base: nat, cap: nat, s: Bridge, e: Event)
    requires LegalEnv(env)
    requires Sound(env, base, cap, s) && Exact(s, 0, [], []) && Replies(s) && Latest(s) && FreshAccept(s, e)
    ensures var s' := Handle(env, s, e).bridge; Replies(s') && Latest(s')
  {
    hide Sound, Exact, Replies, Latest, OnListenFrame, OnConnectFrame, CloseActive, LegalEnv, Calm;
    match e
    case ListenFrame(f) => ListenStepKeeps(env, base, cap, s, f);
    case ConnectFrame(f) => ConnectStepKeeps(env, base, cap, s, f);
    case ConnectLost =>
      SoundFacts(env, base, cap, s);
      CloseActiveCalm(env, s);
      CalmKeeps(s, CloseActive(env, s).bridge);
    case _ =>
  }

  lemma {:induction false} RunKeepsReplies(env: Env, entry: ForwardPortEntry, events: seq<Event>)
    requires LegalEnv(env)
    requires FreshAccepts(env, entry, events)
    ensures Replies(Run(env, entry, events).bridge) && Latest(Run(env, entry, events).bridge)
  {
    if events != [] {
      var n := |events| - 1;
      var before := events[..n];
      assert forall k :: 0 <= k <= n ==> before[..k] == events[..k];
      assert FreshAccept(Run(env, entry, events[..n]).bridge, events[n]);
      RunKeepsReplies(env, entry, before);
      RunKeeps(env, entry, before);
      hide Sound, Exact, Handle, FreshAccept, LegalEnv, Replies, Latest;
      if Run(env, entry, before).outcome.Continue? {
        StepKeepsReplies(env, entry.activeTcpStreams, Cap(env, entry), Run(env, entry, before).bridge, events[n]);
      }
    }
  }

  /** However its run ends, what the listen side took under the listen id of a
      pair, from the making of the pair until that id is used again, is a prefix
      of the payload received on the pair's connect stream. */
  lemma ClosedPairsReturnedAPrefix(env: Env, entry: ForwardPortEntry, events: seq<Event>, c: nat, n: nat)
    requires LegalEnv(env)
    requires FreshAccepts(env, entry, events)
    requires var s := Run(env, entry, events).bridge;
             c in s.origins && s.origins[c].listenSentFrom <= n <= |s.listenSent| && NotReused(s.origins, c, n)
    ensures var s := Run(env, entry, events).bridge; var o := s.origins[c];
            && o.connectFrom <= |s.connectReceived|
            && OnStream(s.listenSent[o.listenSentFrom..n], o.listenStreamId)
               <= Relayed(s.connectReceived[o.connectFrom..], c, o.listenStreamId)
  {
    RunKeeps(env, entry, events);
    RunKeepsReplies(env, entry, events);
    hide Run, Sound, LegalEnv, FreshAccepts, Latest;
    var s := Run(env, entry, events).bridge;
    SoundFacts(env, entry.activeTcpStreams, Cap(env, entry), s);
    assert ReplyOk(s, c, n);
  }
}
