/** The public entry of one port forward and the pure updates the store applies
    to it under its lock (`store.rs`). */
module ForwardEntries {
  import opened Common

  type ForwardId = nat

  datatype Status = StatusOpen | StatusClosed | StatusFailed
  datatype Phase = PhaseOpening | PhaseReady | PhaseReconnecting | PhaseDraining | PhaseClosing | PhaseClosed | PhaseFailed
  datatype Health = Starting | Ready | Reconnecting | Degraded | HealthClosed | HealthFailed
  datatype SideRole = ListenSide | ConnectSide

  datatype SideState = SideState(generation: nat, health: Health, lastError: Option<string>)

  datatype ForwardPortEntry = ForwardPortEntry(
    forwardId: ForwardId,
    listenSide: string,
    connectSide: string,
    status: Status,
    lastError: Option<string>,
    phase: Phase,
    listenState: SideState,
    connectState: SideState,
    activeTcpStreams: nat,
    droppedTcpStreams: nat,
    droppedUdpDatagrams: nat,
    reconnectAttempts: nat,
    lastReconnectAt: Option<nat>)

  /** What a tunnel reports in a drop frame: the kind and number of losses. */
  datatype DropReport = DropReport(tcp: bool, count: nat)

  function DerivePhase(e: ForwardPortEntry): Phase {
    if e.listenState.health.HealthFailed? || e.connectState.health.HealthFailed? then PhaseFailed
    else if e.listenState.health.HealthClosed? && e.connectState.health.HealthClosed? then PhaseClosed
    else if e.listenState.health.Ready? && e.connectState.health.Ready? then PhaseReady
    else PhaseReconnecting
  }

  predicate IsReconnecting(e: ForwardPortEntry) {
    e.status.StatusOpen? && DerivePhase(e).PhaseReconnecting?
  }

  function MarkEntryFailed(e: ForwardPortEntry, error: string): ForwardPortEntry {
    e.(status := StatusFailed,
       phase := PhaseFailed,
       listenState := e.listenState.(health := HealthFailed),
       connectState := e.connectState.(health := HealthFailed),
       lastError := Some(error))
  }

  function ClosedEntry(e: ForwardPortEntry): ForwardPortEntry {
    e.(status := StatusClosed,
       phase := PhaseClosed,
       listenState := e.listenState.(health := HealthClosed),
       connectState := e.connectState.(health := HealthClosed),
       lastError := None)
  }

  /** The same forward, whatever became of its status, phase, error and health. */
  predicate SameForward(e: ForwardPortEntry, e': ForwardPortEntry) {
    e' == e.(status := e'.status, phase := e'.phase, lastError := e'.lastError,
             listenState := e.listenState.(health := e'.listenState.health),
             connectState := e.connectState.(health := e'.connectState.health))
  }

  /** How a forward looks when it has been closed. */
  predicate ShowsClosed(e: ForwardPortEntry, e': ForwardPortEntry) {
    && SameForward(e, e')
    && e'.status.StatusClosed? && e'.phase.PhaseClosed? && e'.lastError.None?
    && e'.listenState.health.HealthClosed? && e'.connectState.health.HealthClosed?
  }

  /** How a forward looks when it has failed with this error. */
  predicate ShowsFailed(e: ForwardPortEntry, e': ForwardPortEntry, error: string) {
    && SameForward(e, e')
    && e'.status.StatusFailed? && e'.phase.PhaseFailed? && e'.lastError == Some(error)
    && e'.listenState.health.HealthFailed? && e'.connectState.health.HealthFailed?
  }

  predicate HasFreeSlot(e: ForwardPortEntry, max: nat) {
    e.activeTcpStreams < max
  }

  /** One more active stream, if there is room. */
  function ReserveActiveEntry(e: ForwardPortEntry, max: nat): ForwardPortEntry {
    if HasFreeSlot(e, max) then e.(activeTcpStreams := e.activeTcpStreams + 1) else e
  }

  function ReleaseActive(e: ForwardPortEntry, count: nat): ForwardPortEntry {
    e.(activeTcpStreams := SaturatingSub(e.activeTcpStreams, count))
  }

  /** A 64-bit event counter that stops at its maximum, `n` events later. */
  function Counted(count: nat, n: nat): nat {
    if n == 0 then count else SaturatingAdd(count, n, U64_MAX)
  }

  function RecordDroppedStreams(e: ForwardPortEntry, count: nat): ForwardPortEntry {
    e.(droppedTcpStreams := Counted(e.droppedTcpStreams, count))
  }

  function RecordDroppedDatagrams(e: ForwardPortEntry, count: nat): ForwardPortEntry {
    e.(droppedUdpDatagrams := Counted(e.droppedUdpDatagrams, count))
  }

  function DropActive(e: ForwardPortEntry, count: nat): ForwardPortEntry {
    ReleaseActive(RecordDroppedStreams(e, count), count)
  }

  function PrepareReconnect(e: ForwardPortEntry, now: nat): ForwardPortEntry {
    e.(reconnectAttempts := e.reconnectAttempts + 1, lastReconnectAt := Some(now))
  }

  function SideReconnecting(side: SideState, error: string): SideState {
    side.(health := Reconnecting, lastError := Some(error))
  }

  function SideReady(side: SideState): SideState {
    side.(health := Ready, lastError := None)
  }

  function WithDerivedPhase(e: ForwardPortEntry): ForwardPortEntry {
    e.(phase := DerivePhase(e))
  }
}
