/** The TCP bridge of one epoch (`tcp_bridge.rs`) as a transition system.

    Every handler runs to completion, so one event is one transition. What the
    environment decides (how each send ends, in which order a hash map is walked,
    how a meta block decodes) comes from `Env`, which is arbitrary: a statement
    about all `Env` covers every behaviour of the tunnels. */
module TcpBridge {
  import opened Common
  import opened Frames
  import opened StreamIds
  import opened ForwardEntries

  datatype Limits = Limits(maxActiveTcpStreams: nat, maxPendingPerStream: nat, maxPendingPerForward: nat)

  datatype Env = Env(
    net: nat -> SendResult,                  // how the n-th send of the epoch ends
    order: (nat, set<nat>) -> seq<nat>,      // walking order of a map's keys after n sends
    limits: Limits,
    listenerStreamId: nat,
    endpointMeta: seq<byte>,
    acceptDecodes: Frame -> bool,
    isFatal: Frame -> bool,                  // an Error frame that ends the forward
    isPressure: Frame -> bool,               // a recoverable limit report of the listener
    dropReport: Frame -> Option<DropReport>)

  datatype TcpConnectStream = TcpConnectStream(
    listenStreamId: nat,
    ready: bool,
    listenEof: bool,
    connectEof: bool,
    pendingFrames: seq<Frame>,
    pendingBytes: nat)

  /** Where a pair began: its listen stream, and how long the histories were then. */
  datatype Origin = Origin(listenStreamId: nat, listenFrom: nat, connectFrom: nat, listenSentFrom: nat)

  /** `TcpForwardState`, the allocator, the forward's entry in the store, and the
      history of the epoch: sends tried, frames each tunnel took, frames
      received, and the origin of every pair ever made. */
  datatype Bridge = Bridge(
    listenToConnect: map<nat, nat>,
    connectStreams: map<nat, TcpConnectStream>,
    totalBytes: nat,
    ids: Allocator,
    entry: ForwardPortEntry,
    attempts: nat,
    listenSent: seq<Frame>,
    connectSent: seq<Frame>,
    listenReceived: seq<Frame>,
    connectReceived: seq<Frame>,
    origins: map<nat, Origin>)

  datatype Settlement = Release | Dropped

  datatype Step = Step(bridge: Bridge, outcome: Outcome)

  datatype Event =
    | ListenFrame(frame: Frame)
    | ConnectFrame(frame: Frame)
    | ListenLost
    | ConnectLost
    | TerminalError
    | Cancel

  function Initial(entry: ForwardPortEntry): Bridge {
    Bridge(map[], map[], 0, NewOdd(), entry, 0, [], [], [], [], map[])
  }

  // ----- Sends ------------------------------------------------------------

  function SendListen(env: Env, s: Bridge, f: Frame): (Bridge, SendResult) {
    var r := env.net(s.attempts);
    (s.(attempts := s.attempts + 1, listenSent := if r.Sent? then s.listenSent + [f] else s.listenSent), r)
  }

  function SendConnect(env: Env, s: Bridge, f: Frame): (Bridge, SendResult) {
    var r := env.net(s.attempts);
    (s.(attempts := s.attempts + 1, connectSent := if r.Sent? then s.connectSent + [f] else s.connectSent), r)
  }

  function CloseListenStream(env: Env, s: Bridge, streamId: nat): (Bridge, SendResult) {
    SendListen(env, s, CloseFrame(streamId))
  }

  function CloseConnectStream(env: Env, s: Bridge, streamId: nat): (Bridge, SendResult) {
    SendConnect(env, s, CloseFrame(streamId))
  }

  // ----- Slots and pairs --------------------------------------------------

  function Settle(s: Bridge, how: Settlement): Bridge {
    s.(entry := if how.Release? then ReleaseActive(s.entry, 1) else DropActive(s.entry, 1))
  }

  function RecordPair(s: Bridge, listenId: nat, connectId: nat): Bridge {
    s.(listenToConnect := s.listenToConnect[listenId := connectId],
       connectStreams := s.connectStreams[connectId := TcpConnectStream(listenId, false, false, false, [], 0)],
       origins := s.origins[connectId :=
         Origin(listenId, |s.listenReceived|, |s.connectReceived|, |s.listenSent|)])
  }

  function RemoveEntry(s: Bridge, c: nat): Bridge
    requires c in s.connectStreams
  {
    var stream := s.connectStreams[c];
    s.(connectStreams := s.connectStreams - {c},
       totalBytes := SaturatingSub(s.totalBytes, stream.pendingBytes),
       listenToConnect := s.listenToConnect - {stream.listenStreamId})
  }

  /** `remove_tcp_stream_entry_and_settle_active` on a stream that is present. */
  function Unpair(s: Bridge, c: nat, how: Settlement): Bridge
    requires c in s.connectStreams
  {
    Settle(RemoveEntry(s, c), how)
  }

  /** The loop of `close_active_tcp_listen_streams`: give back each stream's
      budget and close its listen stream, remembering the first failed close. */
  function CloseEach(env: Env, s: Bridge, streams: map<nat, TcpConnectStream>, order: seq<nat>, first: Option<SendResult>)
    : (Bridge, Option<SendResult>)
    requires forall c :: c in order ==> c in streams
    decreases |order|
  {
    if order == [] then (s, first)
    else
      var stream := streams[order[0]];
      var s1 := s.(totalBytes := SaturatingSub(s.totalBytes, stream.pendingBytes));
      var (s2, r) := CloseListenStream(env, s1, stream.listenStreamId);
      CloseEach(env, s2, streams, order[1..], if first.None? && !r.Sent? then Some(r) else first)
  }

  /** `close_active_tcp_listen_streams`: `Continue` for success, `Failed` for its error. */
  function CloseActive(env: Env, s: Bridge): Step
    requires LegalEnv(env)
  {
    var streams := s.connectStreams;
    var s1 := s.(connectStreams := map[], listenToConnect := map[]);
    var (s2, first) := CloseEach(env, s1, streams, env.order(s.attempts, streams.Keys), None);
    var s3 := s2.(entry := DropActive(s2.entry, |streams|));
    if first.Some? && !first.value.Retryable? then Step(s3, Failed) else Step(s3, Continue)
  }

  function CloseActiveThen(env: Env, s: Bridge, next: Outcome): Step
    requires LegalEnv(env)
  {
    var step := CloseActive(env, s);
    if step.outcome.Failed? then step else Step(step.bridge, next)
  }

  /** A map walk visits every key exactly once. */
  ghost predicate Enumerates(order: seq<nat>, keys: set<nat>) {
    && (forall k :: k in order <==> k in keys)
    && (forall i, j :: 0 <= i < j < |order| ==> order[i] != order[j])
  }

  ghost predicate LegalEnv(env: Env) {
    && (forall n, keys :: Enumerates(env.order(n, keys), keys))
    && env.limits.maxPendingPerStream < USIZE_MAX
    && env.limits.maxPendingPerForward < USIZE_MAX
  }

  datatype PairCloseReason = ConnectError | ConnectPressure

  function ClosePair(env: Env, s: Bridge, c: nat, reason: PairCloseReason): Step {
    if c !in s.connectStreams then Step(s, Continue)
    else
      var listenId := s.connectStreams[c].listenStreamId;
      match reason
      case ConnectError =>
        var (s1, r) := CloseListenStream(env, Unpair(s, c, Release), listenId);
        Step(s1, if r.Sent? || r.Retryable? then Continue else Failed)
      case ConnectPressure =>
        var (s1, _) := CloseConnectStream(env, Unpair(s, c, Dropped), c);
        var (s2, _) := CloseListenStream(env, s1, listenId);
        Step(s2, Continue)
  }

  function ClosePairIfFullyEof(env: Env, s: Bridge, c: nat): Step {
    if c !in s.connectStreams || !(s.connectStreams[c].listenEof && s.connectStreams[c].connectEof)
    then Step(s, Continue)
    else
      var listenId := s.connectStreams[c].listenStreamId;
      var (s1, r) := CloseConnectStream(env, Unpair(s, c, Release), c);
      if r.Sent? then
        var (s2, r2) := CloseListenStream(env, s1, listenId);
        Step(s2, if r2.Sent? then Continue else ClassifyFailure(r2, Listen))
      else if r.Retryable? then
        var (s2, r2) := CloseListenStream(env, s1, listenId);
        Step(s2, if r2.Sent? then Recover(Connect) else ClassifyFailure(r2, Listen))
      else Step(s1, Failed)
  }

  // ----- Frames towards the connect side ----------------------------------

  predicate FitsPending(env: Env, s: Bridge, c: nat, f: Frame)
    requires c in s.connectStreams
  {
    && SaturatingAdd(s.connectStreams[c].pendingBytes, DataBytes(f), USIZE_MAX) <= env.limits.maxPendingPerStream
    && SaturatingAdd(s.totalBytes, DataBytes(f), USIZE_MAX) <= env.limits.maxPendingPerForward
  }

  function Enqueue(s: Bridge, c: nat, f: Frame): Bridge
    requires c in s.connectStreams
  {
    var stream := s.connectStreams[c];
    s.(connectStreams := s.connectStreams[c := stream.(
         pendingFrames := stream.pendingFrames + [f],
         pendingBytes := SaturatingAdd(stream.pendingBytes, DataBytes(f), USIZE_MAX))],
       totalBytes := SaturatingAdd(s.totalBytes, DataBytes(f), USIZE_MAX))
  }

  function QueueOrSend(env: Env, s: Bridge, c: nat, f: Frame): Step
    requires LegalEnv(env)
  {
    if c !in s.connectStreams then Step(s, Continue)
    else if s.connectStreams[c].ready then
      var (s1, r) := SendConnect(env, s, f);
      match r
      case Sent => Step(s1, Continue)
      case Backpressure => ClosePair(env, s1, c, ConnectPressure)
      case Retryable => CloseActiveThen(env, s1, Recover(Connect))
      case Fatal => Step(s1, Failed)
    else if FitsPending(env, s, c, f) then Step(Enqueue(s, c, f), Continue)
    else
      var listenId := s.connectStreams[c].listenStreamId;
      var (s1, _) := CloseConnectStream(env, Unpair(s, c, Dropped), c);
      var (s2, _) := CloseListenStream(env, s1, listenId);
      Step(s2, Continue)
  }

  /** The flush loop. A queued `Close` frame would settle the slot and drop the
      listen mapping; `remove` records that the caller must delete the stream. */
  function Flush(env: Env, s: Bridge, c: nat, frames: seq<Frame>, remove: bool): (Step, bool)
    requires LegalEnv(env)
    decreases |frames|
  {
    if frames == [] then (Step(s, Continue), remove)
    else
      var (s1, r) := SendConnect(env, s, frames[0]);
      match r
      case Sent =>
        if frames[0].frameType.Close? then
          var s2 := if c in s1.connectStreams
                    then s1.(listenToConnect := s1.listenToConnect - {s1.connectStreams[c].listenStreamId})
                    else s1;
          Flush(env, Settle(s2, Release), c, frames[1..], true)
        else Flush(env, s1, c, frames[1..], remove)
      case Backpressure => (ClosePair(env, s1, c, ConnectPressure), true)
      case Retryable => (CloseActiveThen(env, s1, Recover(Connect)), false)
      case Fatal => (Step(s1, Failed), false)
  }

  /** The stream turns ready; its queue is taken out and its budget given back. */
  function TakePending(s: Bridge, c: nat): Bridge
    requires c in s.connectStreams
  {
    var stream := s.connectStreams[c];
    s.(connectStreams := s.connectStreams[c := stream.(ready := true, pendingFrames := [], pendingBytes := 0)],
       totalBytes := SaturatingSub(s.totalBytes, stream.pendingBytes))
  }

  // ----- Events of the listen tunnel --------------------------------------

  /** Ask the connect side to open a stream for an accepted connection whose slot is reserved. */
  function OpenPair(env: Env, s: Bridge, listenId: nat, c: nat): Step {
    var (s1, r) := SendConnect(env, s, Frame(TcpConnect, 0, c, env.endpointMeta, []));
    if r.Sent? then Step(RecordPair(s1, listenId, c), Continue)
    else if r.Retryable? then
      var (s2, r2) := CloseListenStream(env, s1, listenId);
      Step(Settle(s2, Dropped), if r2.Sent? then Recover(Connect) else ClassifyFailure(r2, Listen))
    else Step(Settle(s1, Dropped), Failed)
  }

  function OnAccept(env: Env, s: Bridge, f: Frame): Step
    requires LegalEnv(env)
  {
    if !env.acceptDecodes(f) then Step(s, Failed)
    else if !HasFreeSlot(s.entry, env.limits.maxActiveTcpStreams) then
      var (s1, _) := CloseListenStream(env, s, f.streamId);
      Step(s1.(entry := RecordDroppedStreams(s1.entry, 1)), Continue)
    else
      var (id, ids) := Next(s.ids);
      var s1 := s.(entry := ReserveActiveEntry(s.entry, env.limits.maxActiveTcpStreams), ids := ids);
      match id
      case None =>
        var (s2, _) := CloseListenStream(env, s1, f.streamId);
        CloseActiveThen(env, Settle(s2, Dropped), Recover(Connect))
      case Some(c) => OpenPair(env, s1, f.streamId, c)
  }

  function OnListenData(env: Env, s: Bridge, f: Frame): Step
    requires LegalEnv(env)
  {
    if f.streamId !in s.listenToConnect then Step(s, Continue)
    else
      var c := s.listenToConnect[f.streamId];
      QueueOrSend(env, s, c, f.(streamId := c))
  }

  function MarkListenEof(s: Bridge, c: nat): Bridge {
    if c in s.connectStreams
    then s.(connectStreams := s.connectStreams[c := s.connectStreams[c].(listenEof := true)])
    else s
  }

  function OnListenEof(env: Env, s: Bridge, f: Frame): Step
    requires LegalEnv(env)
  {
    if f.streamId !in s.listenToConnect then Step(s, Continue)
    else
      var c := s.listenToConnect[f.streamId];
      var step := QueueOrSend(env, MarkListenEof(s, c), c, Frame(f.frameType, 0, c, [], []));
      if step.outcome.Continue? then ClosePairIfFullyEof(env, step.bridge, c) else step
  }

  function OnListenClose(env: Env, s: Bridge, f: Frame): Step {
    if f.streamId !in s.listenToConnect then Step(s, Continue)
    else
      var c := s.listenToConnect[f.streamId];
      var s1 := s.(listenToConnect := s.listenToConnect - {f.streamId});
      if c !in s1.connectStreams then Step(s1, Continue)
      else
        var (s2, _) := CloseConnectStream(env, Unpair(s1, c, Release), c);
        Step(s2, Continue)
  }

  function OnListenError(env: Env, s: Bridge, f: Frame): Step {
    if f.streamId == env.listenerStreamId then
      if env.isPressure(f)
      then Step(s.(entry := RecordDroppedStreams(s.entry, 1)), Continue)
      else Step(s, Failed)
    else if f.streamId !in s.listenToConnect then Step(s, Continue)
    else
      var c := s.listenToConnect[f.streamId];
      var s1 := s.(listenToConnect := s.listenToConnect - {f.streamId});
      var s2 := if c in s1.connectStreams then Unpair(s1, c, Release) else s1;
      var (s3, r) := CloseConnectStream(env, s2, c);
      Step(s3, if r.Sent? then Continue else ClassifyFailure(r, Connect))
  }

  function OnForwardDrop(env: Env, s: Bridge, f: Frame): Step {
    match env.dropReport(f)
    case None => Step(s, Failed)
    case Some(report) =>
      var count := if report.count == 0 then 1 else report.count;
      var entry := if report.tcp then RecordDroppedStreams(s.entry, count) else RecordDroppedDatagrams(s.entry, count);
      Step(s.(entry := entry), Continue)
  }

  function OnListenFrame(env: Env, s: Bridge, f: Frame): Step
    requires LegalEnv(env)
  {
    match f.frameType
    case TcpAccept => OnAccept(env, s, f)
    case TcpData => OnListenData(env, s, f)
    case TcpEof => OnListenEof(env, s, f)
    case Close => OnListenClose(env, s, f)
    case Error => if env.isFatal(f) then Step(s, Failed) else OnListenError(env, s, f)
    case ForwardDrop => OnForwardDrop(env, s, f)
    case _ => Step(s, Continue)
  }

  // ----- Events of the connect tunnel -------------------------------------

  function OnConnectOk(env: Env, s: Bridge, f: Frame): Step
    requires LegalEnv(env)
  {
    if f.streamId !in s.connectStreams then Step(s, Continue)
    else
      var pending := s.connectStreams[f.streamId].pendingFrames;
      var (step, remove) := Flush(env, TakePending(s, f.streamId), f.streamId, pending, false);
      if step.outcome.Continue? && remove
      then Step(step.bridge.(connectStreams := step.bridge.connectStreams - {f.streamId}), Continue)
      else step
  }

  /** Data and half-close of the connect side go straight to the listen side. */
  function SendBack(env: Env, s: Bridge, c: nat, f: Frame): Step
    requires c in s.connectStreams
  {
    var (s1, r) := SendListen(env, s, Rewritten(f, s.connectStreams[c].listenStreamId));
    Step(s1, if r.Sent? then Continue else ClassifyFailure(r, Listen))
  }

  function OnConnectData(env: Env, s: Bridge, f: Frame): Step {
    if f.streamId !in s.connectStreams then Step(s, Continue) else SendBack(env, s, f.streamId, f)
  }

  function OnConnectEof(env: Env, s: Bridge, f: Frame): Step {
    if f.streamId !in s.connectStreams then Step(s, Continue)
    else
      var c := f.streamId;
      var s1 := s.(connectStreams := s.connectStreams[c := s.connectStreams[c].(connectEof := true)]);
      var step := SendBack(env, s1, c, f);
      if step.outcome.Continue? then ClosePairIfFullyEof(env, step.bridge, c) else step
  }

  function OnConnectClose(env: Env, s: Bridge, f: Frame): Step {
    if f.streamId !in s.connectStreams then Step(s, Continue)
    else
      var listenId := s.connectStreams[f.streamId].listenStreamId;
      var (s1, r) := CloseListenStream(env, Unpair(s, f.streamId, Release), listenId);
      Step(s1, if r.Sent? then Continue else ClassifyFailure(r, Listen))
  }

  function OnConnectFrame(env: Env, s: Bridge, f: Frame): Step
    requires LegalEnv(env)
  {
    match f.frameType
    case TcpConnectOk => OnConnectOk(env, s, f)
    case Error => if env.isFatal(f) then Step(s, Failed) else ClosePair(env, s, f.streamId, ConnectError)
    case TcpData => OnConnectData(env, s, f)
    case TcpEof => OnConnectEof(env, s, f)
    case Close => OnConnectClose(env, s, f)
    case _ => Step(s, Continue)
  }

  // ----- One event, and a whole epoch -------------------------------------

  function Handle(env: Env, s: Bridge, e: Event): Step
    requires LegalEnv(env)
  {
    match e
    case ListenFrame(f) => OnListenFrame(env, s.(listenReceived := s.listenReceived + [f]), f)
    case ConnectFrame(f) => OnConnectFrame(env, s.(connectReceived := s.connectReceived + [f]), f)
    case ListenLost => Step(s, Recover(Listen))
    case ConnectLost => CloseActiveThen(env, s, Recover(Connect))
    case TerminalError => Step(s, Failed)
    case Cancel => Step(s, Cancelled)
  }

  /** The epoch loop: events are handled until one of them ends the epoch. */
  function Run(env: Env, entry: ForwardPortEntry, events: seq<Event>): Step
    requires LegalEnv(env)
  {
    if events == [] then Step(Initial(entry), Continue)
    else
      var before := Run(env, entry, events[..|events| - 1]);
      if before.outcome.Continue? then Handle(env, before.bridge, events[|events| - 1]) else before
  }

  /** The listen side does not announce a connection under the id of a live pair. */
  ghost predicate FreshAccept(s: Bridge, e: Event) {
    e.ListenFrame? && e.frame.frameType.TcpAccept? ==> e.frame.streamId !in s.listenToConnect
  }

  ghost predicate FreshAccepts(env: Env, entry: ForwardPortEntry, events: seq<Event>)
    requires LegalEnv(env)
  {
    forall n :: 0 <= n < |events| ==>
      FreshAccept(Run(env, entry, events[..n]).bridge, events[n])
  }
}
