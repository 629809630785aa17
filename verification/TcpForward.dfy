/** The bridge as its event loop runs it: state updated in place, frame by frame. Every
    method is tied to the transition of the same name in `TcpBridge`. */
module TcpForward {
  import opened Common
  import opened Frames
  import opened StreamIds
  import opened ForwardEntries
  import opened TcpBridge

  class TcpForwardTask {
    const env: Env
    const connectStreamIds: StreamIdAllocator
    var listenToConnect: map<nat, nat>
    var connectStreams: map<nat, TcpConnectStream>
    var totalBytes: nat
    var entry: ForwardPortEntry
    var attempts: nat
    ghost var listenSent: seq<Frame>
    ghost var connectSent: seq<Frame>
    ghost var listenReceived: seq<Frame>
    ghost var connectReceived: seq<Frame>
    ghost var origins: map<nat, Origin>

    ghost function View(): Bridge
      reads this, connectStreamIds
    {
      Bridge(listenToConnect, connectStreams, totalBytes, connectStreamIds.View(), entry, attempts,
             listenSent, connectSent, listenReceived, connectReceived, origins)
    }

    constructor (env: Env, entry: ForwardPortEntry)
      ensures this.env == env && fresh(connectStreamIds)
      ensures View() == Initial(entry)
    {
      this.env := env;
      var ids := new StreamIdAllocator.OddFrom(1);
      connectStreamIds := ids;
      listenToConnect, connectStreams, totalBytes := map[], map[], 0;
      this.entry, attempts := entry, 0;
      listenSent, connectSent, listenReceived, connectReceived, origins := [], [], [], [], map[];
    }

    // ----- Sends, slots, pairs --------------------------------------------

    method SendOnListen(f: Frame) returns (r: SendResult)
      modifies this
      ensures (View(), r) == SendListen(env, old(View()), f)
    {
      r := env.net(attempts);
      attempts := attempts + 1;
      if r.Sent? {
        listenSent := listenSent + [f];
      }
    }

    method SendOnConnect(f: Frame) returns (r: SendResult)
      modifies this
      ensures (View(), r) == SendConnect(env, old(View()), f)
    {
      r := env.net(attempts);
      attempts := attempts + 1;
      if r.Sent? {
        connectSent := connectSent + [f];
      }
    }

    method SettleActive(how: Settlement)
      modifies this
      ensures View() == Settle(old(View()), how)
    {
      match how {
        case Release => entry := ReleaseActive(entry, 1);
        case Dropped => entry := DropActive(entry, 1);
      }
    }

    method RecordStreamPair(listenId: nat, connectId: nat)
      modifies this
      ensures View() == RecordPair(old(View()), listenId, connectId)
    {
      listenToConnect := listenToConnect[listenId := connectId];
      connectStreams := connectStreams[connectId := TcpConnectStream(listenId, false, false, false, [], 0)];
      origins := origins[connectId := Origin(listenId, |listenReceived|, |connectReceived|, |listenSent|)];
    }

    method RemoveAndSettle(c: nat, how: Settlement) returns (removed: Option<TcpConnectStream>)
      modifies this
      ensures c in old(connectStreams) ==>
                removed == Some(old(connectStreams)[c]) && View() == Unpair(old(View()), c, how)
      ensures c !in old(connectStreams) ==> removed == None && View() == old(View())
    {
      if c !in connectStreams {
        return None;
      }
      var stream := connectStreams[c];
      connectStreams := connectStreams - {c};
      totalBytes := SaturatingSub(totalBytes, stream.pendingBytes);
      listenToConnect := listenToConnect - {stream.listenStreamId};
      SettleActive(how);
      return Some(stream);
    }

    method CloseListenStreams(streams: map<nat, TcpConnectStream>, order: seq<nat>) returns (first: Option<SendResult>)
      requires forall c :: c in order ==> c in streams
      modifies this
      ensures (View(), first) == CloseEach(env, old(View()), streams, order, None)
    {
      first := None;
      var i := 0;
      while i < |order|
        invariant 0 <= i <= |order|
        invariant CloseEach(env, View(), streams, order[i..], first) == CloseEach(env, old(View()), streams, order, None)
      {
        var stream := streams[order[i]];
        assert order[i..][0] == order[i] && order[i..][1..] == order[i + 1..];
        totalBytes := SaturatingSub(totalBytes, stream.pendingBytes);
        var r := SendOnListen(CloseFrame(stream.listenStreamId));
        if first.None? && !r.Sent? {
          first := Some(r);
        }
        i := i + 1;
      }
      assert order[i..] == [];
    }

    /** Closes every listen stream; `Failed` reports a close that cannot be retried. */
    method CloseActiveListenStreams() returns (outcome: Outcome)
      requires LegalEnv(env)
      modifies this
      ensures Step(View(), outcome) == CloseActive(env, old(View()))
    {
      hide CloseEach;
      var streams := connectStreams;
      var order := env.order(attempts, streams.Keys);
      assert Enumerates(order, streams.Keys);
      connectStreams := map[];
      listenToConnect := map[];
      var first := CloseListenStreams(streams, order);
      entry := DropActive(entry, |streams|);
      outcome := if first.Some? && !first.value.Retryable? then Failed else Continue;
    }

    method CloseTcpPair(c: nat, reason: PairCloseReason) returns (outcome: Outcome)
      modifies this
      ensures Step(View(), outcome) == ClosePair(env, old(View()), c, reason)
    {
      var how := if reason.ConnectError? then Release else Dropped;
      var removed := RemoveAndSettle(c, how);
      if removed.None? {
        return Continue;
      }
      match reason {
        case ConnectError =>
          var r := SendOnListen(CloseFrame(removed.value.listenStreamId));
          outcome := if r.Sent? || r.Retryable? then Continue else Failed;
        case ConnectPressure =>
          var _ := SendOnConnect(CloseFrame(c));
          var _ := SendOnListen(CloseFrame(removed.value.listenStreamId));
          outcome := Continue;
      }
    }

    method ClosePairIfDone(c: nat) returns (outcome: Outcome)
      modifies this
      ensures Step(View(), outcome) == ClosePairIfFullyEof(env, old(View()), c)
    {
      if c !in connectStreams || !(connectStreams[c].listenEof && connectStreams[c].connectEof) {
        return Continue;
      }
      var stream := connectStreams[c];
      var _ := RemoveAndSettle(c, Release);
      var r := SendOnConnect(CloseFrame(c));
      if !r.Sent? && !r.Retryable? {
        return Failed;
      }
      var r2 := SendOnListen(CloseFrame(stream.listenStreamId));
      if !r2.Sent? {
        return ClassifyFailure(r2, Listen);
      }
      return if r.Sent? then Continue else Recover(Connect);
    }

    // ----- Frames towards the connect side --------------------------------

    method TryQueue(c: nat, f: Frame) returns (queued: bool)
      requires c in connectStreams
      modifies this
      ensures queued == FitsPending(env, old(View()), c, f)
      ensures View() == if queued then Enqueue(old(View()), c, f) else old(View())
    {
      var stream := connectStreams[c];
      var added := DataBytes(f);
      var nextStream := SaturatingAdd(stream.pendingBytes, added, USIZE_MAX);
      var nextForward := SaturatingAdd(totalBytes, added, USIZE_MAX);
      if nextStream > env.limits.maxPendingPerStream || nextForward > env.limits.maxPendingPerForward {
        return false;
      }
      connectStreams := connectStreams[c := stream.(pendingFrames := stream.pendingFrames + [f], pendingBytes := nextStream)];
      totalBytes := nextForward;
      return true;
    }

    method QueueOrSendFrame(c: nat, f: Frame) returns (outcome: Outcome)
      requires LegalEnv(env)
      modifies this
      ensures Step(View(), outcome) == QueueOrSend(env, old(View()), c, f)
    {
      if c !in connectStreams {
        return Continue;
      }
      if connectStreams[c].ready {
        var r := SendOnConnect(f);
        match r {
          case Sent => outcome := Continue;
          case Backpressure => outcome := CloseTcpPair(c, ConnectPressure);
          case Retryable =>
            outcome := CloseActiveListenStreams();
            if outcome.Continue? {
              outcome := Recover(Connect);
            }
          case Fatal => outcome := Failed;
        }
      } else {
        var listenId := connectStreams[c].listenStreamId;
        var queued := TryQueue(c, f);
        if !queued {
          var _ := RemoveAndSettle(c, Dropped);
          var _ := SendOnConnect(CloseFrame(c));
          var _ := SendOnListen(CloseFrame(listenId));
        }
        outcome := Continue;
      }
    }

    method FlushPending(c: nat, frames: seq<Frame>) returns (outcome: Outcome, remove: bool)
      requires LegalEnv(env)
      modifies this
      ensures (Step(View(), outcome), remove) == Flush(env, old(View()), c, frames, false)
    {
      hide CloseActive, ClosePair, LegalEnv, Flush;
      remove := false;
      ghost var start := View();
      var i := 0;
      while i < |frames|
        invariant 0 <= i <= |frames|
        invariant Flush(env, View(), c, frames[i..], remove) == Flush(env, start, c, frames, false)
      {
        var f := frames[i];
        assert frames[i..][0] == f && frames[i..][1..] == frames[i + 1..];
        FlushFirst(env, View(), c, frames[i..], remove);
        var r := SendOnConnect(f);
        match r {
          case Sent =>
          case Backpressure =>
            outcome := CloseTcpPair(c, ConnectPressure);
            return outcome, true;
          case Retryable =>
            outcome := CloseActiveListenStreams();
            return if outcome.Failed? then Failed else Recover(Connect), false;
          case Fatal => return Failed, false;
        }
        if f.frameType.Close? {
          if c in connectStreams {
            listenToConnect := listenToConnect - {connectStreams[c].listenStreamId};
          }
          SettleActive(Release);
          remove := true;
        }
        i := i + 1;
      }
      assert frames[i..] == [];
      FlushNone(env, View(), c, remove);
      outcome := Continue;
    }

    // ----- Handlers of the listen tunnel ----------------------------------

    method OpenConnectStream(listenId: nat, c: nat) returns (outcome: Outcome)
      modifies this
      ensures Step(View(), outcome) == OpenPair(env, old(View()), listenId, c)
    {
      var r := SendOnConnect(Frame(TcpConnect, 0, c, env.endpointMeta, []));
      if r.Sent? {
        RecordStreamPair(listenId, c);
        return Continue;
      }
      if !r.Retryable? {
        SettleActive(Dropped);
        return Failed;
      }
      var closed := SendOnListen(CloseFrame(listenId));
      SettleActive(Dropped);
      return if closed.Sent? then Recover(Connect) else ClassifyFailure(closed, Listen);
    }

    method HandleAccept(f: Frame) returns (outcome: Outcome)
      requires LegalEnv(env)
      modifies this, connectStreamIds
      ensures Step(View(), outcome) == OnAccept(env, old(View()), f)
    {
      hide CloseActive, OpenPair, Next, LegalEnv;
      if !env.acceptDecodes(f) {
        return Failed;
      }
      if !HasFreeSlot(entry, env.limits.maxActiveTcpStreams) {
        var _ := SendOnListen(CloseFrame(f.streamId));
        entry := RecordDroppedStreams(entry, 1);
        return Continue;
      }
      entry := ReserveActiveEntry(entry, env.limits.maxActiveTcpStreams);
      var id := connectStreamIds.TakeNext();
      if id.None? {
        var _ := SendOnListen(CloseFrame(f.streamId));
        SettleActive(Dropped);
        outcome := CloseActiveListenStreams();
        return if outcome.Failed? then Failed else Recover(Connect);
      }
      outcome := OpenConnectStream(f.streamId, id.value);
    }

    method HandleListenData(f: Frame) returns (outcome: Outcome)
      requires LegalEnv(env)
      modifies this
      ensures Step(View(), outcome) == OnListenData(env, old(View()), f)
    {
      if f.streamId !in listenToConnect {
        return Continue;
      }
      var c := listenToConnect[f.streamId];
      outcome := QueueOrSendFrame(c, f.(streamId := c));
    }

    method HandleListenEof(f: Frame) returns (outcome: Outcome)
      requires LegalEnv(env)
      modifies this
      ensures Step(View(), outcome) == OnListenEof(env, old(View()), f)
    {
      if f.streamId !in listenToConnect {
        return Continue;
      }
      var c := listenToConnect[f.streamId];
      if c in connectStreams {
        connectStreams := connectStreams[c := connectStreams[c].(listenEof := true)];
      }
      outcome := QueueOrSendFrame(c, Frame(f.frameType, 0, c, [], []));
      if outcome.Continue? {
        outcome := ClosePairIfDone(c);
      }
    }

    method HandleListenClose(f: Frame)
      modifies this
      ensures Step(View(), Continue) == OnListenClose(env, old(View()), f)
    {
      if f.streamId in listenToConnect {
        var c := listenToConnect[f.streamId];
        listenToConnect := listenToConnect - {f.streamId};
        var removed := RemoveAndSettle(c, Release);
        if removed.Some? {
          var _ := SendOnConnect(CloseFrame(c));
        }
      }
    }

    method HandleListenError(f: Frame) returns (outcome: Outcome)
      modifies this
      ensures Step(View(), outcome) == OnListenError(env, old(View()), f)
    {
      if f.streamId == env.listenerStreamId {
        if env.isPressure(f) {
          entry := RecordDroppedStreams(entry, 1);
          return Continue;
        }
        return Failed;
      }
      if f.streamId in listenToConnect {
        var c := listenToConnect[f.streamId];
        listenToConnect := listenToConnect - {f.streamId};
        var _ := RemoveAndSettle(c, Release);
        var r := SendOnConnect(CloseFrame(c));
        if !r.Sent? {
          return ClassifyFailure(r, Connect);
        }
      }
      return Continue;
    }

    method HandleForwardDrop(f: Frame) returns (outcome: Outcome)
      modifies this
      ensures Step(View(), outcome) == OnForwardDrop(env, old(View()), f)
    {
      var report := env.dropReport(f);
      if report.None? {
        return Failed;
      }
      var count := if report.value.count == 0 then 1 else report.value.count;
      if report.value.tcp {
        entry := RecordDroppedStreams(entry, count);
      } else {
        entry := RecordDroppedDatagrams(entry, count);
      }
      return Continue;
    }

    method HandleListenFrame(f: Frame) returns (outcome: Outcome)
      requires LegalEnv(env)
      modifies this, connectStreamIds
      ensures Step(View(), outcome) == Handle(env, old(View()), ListenFrame(f))
    {
      hide OnAccept, OnListenData, OnListenEof, OnListenClose, OnListenError, OnForwardDrop, LegalEnv;
      listenReceived := listenReceived + [f];
      match f.frameType {
        case TcpAccept => outcome := HandleAccept(f);
        case TcpData => outcome := HandleListenData(f);
        case TcpEof => outcome := HandleListenEof(f);
        case Close =>
          HandleListenClose(f);
          outcome := Continue;
        case Error =>
          if env.isFatal(f) {
            outcome := Failed;
          } else {
            outcome := HandleListenError(f);
          }
        case ForwardDrop => outcome := HandleForwardDrop(f);
        case _ => outcome := Continue;
      }
    }

    // ----- Handlers of the connect tunnel ---------------------------------

    method HandleConnectOk(f: Frame) returns (outcome: Outcome)
      requires LegalEnv(env)
      modifies this
      ensures Step(View(), outcome) == OnConnectOk(env, old(View()), f)
    {
      if f.streamId !in connectStreams {
        return Continue;
      }
      var stream := connectStreams[f.streamId];
      connectStreams := connectStreams[f.streamId := stream.(ready := true, pendingFrames := [], pendingBytes := 0)];
      totalBytes := SaturatingSub(totalBytes, stream.pendingBytes);
      var remove;
      outcome, remove := FlushPending(f.streamId, stream.pendingFrames);
      if outcome.Continue? && remove {
        connectStreams := connectStreams - {f.streamId};
      }
    }

    method RelayToListen(c: nat, f: Frame) returns (outcome: Outcome)
      requires c in connectStreams
      modifies this
      ensures Step(View(), outcome) == SendBack(env, old(View()), c, f)
    {
      var r := SendOnListen(Rewritten(f, connectStreams[c].listenStreamId));
      outcome := if r.Sent? then Continue else ClassifyFailure(r, Listen);
    }

    method HandleConnectData(f: Frame) returns (outcome: Outcome)
      modifies this
      ensures Step(View(), outcome) == OnConnectData(env, old(View()), f)
    {
      if f.streamId !in connectStreams {
        return Continue;
      }
      outcome := RelayToListen(f.streamId, f);
    }

    method HandleConnectEof(f: Frame) returns (outcome: Outcome)
      modifies this
      ensures Step(View(), outcome) == OnConnectEof(env, old(View()), f)
    {
      var c := f.streamId;
      if c !in connectStreams {
        return Continue;
      }
      connectStreams := connectStreams[c := connectStreams[c].(connectEof := true)];
      outcome := RelayToListen(c, f);
      if outcome.Continue? {
        outcome := ClosePairIfDone(c);
      }
    }

    method HandleConnectClose(f: Frame) returns (outcome: Outcome)
      modifies this
      ensures Step(View(), outcome) == OnConnectClose(env, old(View()), f)
    {
      var removed := RemoveAndSettle(f.streamId, Release);
      if removed.None? {
        return Continue;
      }
      var r := SendOnListen(CloseFrame(removed.value.listenStreamId));
      outcome := if r.Sent? then Continue else ClassifyFailure(r, Listen);
    }

    method HandleConnectFrame(f: Frame) returns (outcome: Outcome)
      requires LegalEnv(env)
      modifies this
      ensures Step(View(), outcome) == Handle(env, old(View()), ConnectFrame(f))
    {
      hide OnConnectOk, OnConnectData, OnConnectEof, OnConnectClose, ClosePair, LegalEnv;
      connectReceived := connectReceived + [f];
      match f.frameType {
        case TcpConnectOk => outcome := HandleConnectOk(f);
        case Error =>
          if env.isFatal(f) {
            outcome := Failed;
          } else {
            outcome := CloseTcpPair(f.streamId, ConnectError);
          }
        case TcpData => outcome := HandleConnectData(f);
        case TcpEof => outcome := HandleConnectEof(f);
        case Close => outcome := HandleConnectClose(f);
        case _ => outcome := Continue;
      }
    }

    // ----- The epoch loop -------------------------------------------------

    method HandleEvent(e: Event) returns (outcome: Outcome)
      requires LegalEnv(env)
      modifies this, connectStreamIds
      ensures Step(View(), outcome) == Handle(env, old(View()), e)
    {
      match e {
        case ListenFrame(f) => outcome := HandleListenFrame(f);
        case ConnectFrame(f) => outcome := HandleConnectFrame(f);
        case ListenLost => outcome := Recover(Listen);
        case ConnectLost =>
          outcome := CloseActiveListenStreams();
          if outcome.Continue? {
            outcome := Recover(Connect);
          }
        case TerminalError => outcome := Failed;
        case Cancel => outcome := Cancelled;
      }
    }

    /** One epoch: from the initial state, events are handled until one ends it. */
    method RunEpoch(events: seq<Event>) returns (outcome: Outcome)
      requires LegalEnv(env)
      requires View() == Initial(entry)
      modifies this, connectStreamIds
      ensures Step(View(), outcome) == Run(env, old(entry), events)
    {
      outcome := Continue;
      ghost var first := entry;
      var i := 0;
      while i < |events| && outcome.Continue?
        invariant 0 <= i <= |events|
        invariant Step(View(), outcome) == Run(env, first, events[..i])
      {
        assert events[..i + 1][..i] == events[..i];
        outcome := HandleEvent(events[i]);
        i := i + 1;
      }
      Stopped(env, first, events, i);
    }
  }

  /** The bridge after the flush loop has sent `f`: a close frame would settle the slot. */
  function AfterFlushed(s: Bridge, c: nat, f: Frame): Bridge {
    if !f.frameType.Close? then s
    else Settle(if c in s.connectStreams
                then s.(listenToConnect := s.listenToConnect - {s.connectStreams[c].listenStreamId})
                else s, Release)
  }

  lemma FlushFirst(env: Env, s: Bridge, c: nat, frames: seq<Frame>, remove: bool)
    requires LegalEnv(env) && frames != []
    ensures var (s1, r) := SendConnect(env, s, frames[0]);
            Flush(env, s, c, frames, remove) ==
              match r
              case Sent => Flush(env, AfterFlushed(s1, c, frames[0]), c, frames[1..], remove || frames[0].frameType.Close?)
              case Backpressure => (ClosePair(env, s1, c, ConnectPressure), true)
              case Retryable => (CloseActiveThen(env, s1, Recover(Connect)), false)
              case Fatal => (Step(s1, Failed), false)
  {
    hide CloseActive, ClosePair, LegalEnv;
  }

  lemma FlushNone(env: Env, s: Bridge, c: nat, remove: bool)
    requires LegalEnv(env)
    ensures Flush(env, s, c, [], remove) == (Step(s, Continue), remove)
  {
  }

  /** Once an event has ended the epoch, later events change nothing. */
  lemma {:induction false} Stopped(env: Env, entry: ForwardPortEntry, events: seq<Event>, n: nat)
    requires LegalEnv(env)
    requires n <= |events|
    requires n == |events| || !Run(env, entry, events[..n]).outcome.Continue?
    ensures Run(env, entry, events) == Run(env, entry, events[..n])
    decreases |events| - n
  {
    if n == |events| {
      assert events[..n] == events;
    } else {
      assert events[..n + 1][..n] == events[..n];
      Stopped(env, entry, events, n + 1);
    }
  }
}
