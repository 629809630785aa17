/** Tunnel frames, and the ways the bridges rewrite and select them. */
module Frames {
  import opened Common

  datatype FrameType =
    | Error | Close
    | SessionOpen | SessionReady | SessionResume | SessionResumed
    | TunnelOpen | TunnelReady | TunnelClose
    | TcpListen | TcpListenOk | TcpAccept | TcpConnect | TcpConnectOk | TcpData | TcpEof
    | TunnelClosed | TunnelHeartbeat | TunnelHeartbeatAck
    | ForwardRecovering | ForwardRecovered | ForwardDrop
    | UdpBind | UdpBindOk | UdpDatagram

  datatype Frame = Frame(frameType: FrameType, flags: byte, streamId: nat, meta: seq<byte>, data: seq<byte>)

  /** How one attempt to put a frame on a tunnel ends. `Fatal` stands for every
      error that is neither backpressure nor a lost transport. */
  datatype SendResult = Sent | Backpressure | Retryable | Fatal

  datatype Role = Listen | Connect

  /** How the handling of one event ends for the epoch loop: it goes on, it
      leaves to recover a tunnel, it is cancelled, or it returns an error. */
  datatype Outcome = Continue | Recover(role: Role) | Cancelled | Failed

  function CloseFrame(streamId: nat): Frame {
    Frame(Close, 0, streamId, [], [])
  }

  function DataBytes(f: Frame): nat {
    SaturatingAdd(|f.meta|, |f.data|, USIZE_MAX)
  }

  function ClassifyFailure(result: SendResult, role: Role): Outcome {
    if result.Retryable? then Recover(role) else Failed
  }

  /** How an event ends whose failed send matters. */
  function EndOf(result: SendResult, role: Role): Outcome {
    match result
    case Sent => Continue
    case Retryable => Recover(role)
    case Backpressure => Failed
    case Fatal => Failed
  }

  /** The frames that carry a TCP byte stream: data and half-close. */
  predicate IsPayload(f: Frame) {
    f.frameType.TcpData? || f.frameType.TcpEof?
  }

  /** What the bridge forwards for a payload frame: data keeps everything but
      the stream id, a half-close is stripped to its type. */
  function Rewritten(f: Frame, streamId: nat): Frame {
    if f.frameType.TcpEof? then Frame(TcpEof, 0, streamId, [], [])
    else f.(streamId := streamId)
  }

  /** The payload frames of `fs` on one stream, in order. */
  function OnStream(fs: seq<Frame>, streamId: nat): seq<Frame> {
    if fs == [] then []
    else
      var rest := OnStream(fs[..|fs| - 1], streamId);
      var last := fs[|fs| - 1];
      if IsPayload(last) && last.streamId == streamId then rest + [last] else rest
  }

  /** All frames of `fs` on one stream, control frames too, in order. */
  function AllOn(fs: seq<Frame>, streamId: nat): seq<Frame> {
    if fs == [] then []
    else
      var rest := AllOn(fs[..|fs| - 1], streamId);
      var last := fs[|fs| - 1];
      if last.streamId == streamId then rest + [last] else rest
  }

  /** `fs` holds a frame of this type on this stream. */
  predicate Holds(fs: seq<Frame>, frameType: FrameType, streamId: nat) {
    exists i :: 0 <= i < |fs| && fs[i].frameType == frameType && fs[i].streamId == streamId
  }

  /** The payload frames of `fs` on stream `from`, as they look when relayed to stream `to`. */
  function Relayed(fs: seq<Frame>, from: nat, to: nat): seq<Frame> {
    if fs == [] then []
    else
      var rest := Relayed(fs[..|fs| - 1], from, to);
      var last := fs[|fs| - 1];
      if IsPayload(last) && last.streamId == from then rest + [Rewritten(last, to)] else rest
  }

  /** `fs` announces a new connection under this id. */
  predicate Reopens(fs: seq<Frame>, streamId: nat) {
    exists i :: 0 <= i < |fs| && fs[i].frameType.TcpAccept? && fs[i].streamId == streamId
  }

  /** The part of `fs` that belongs to the connection already running under this id. */
  function Session(fs: seq<Frame>, streamId: nat): seq<Frame> {
    if fs == [] || !Reopens(fs, streamId) then fs else Session(fs[..|fs| - 1], streamId)
  }

  lemma OnStreamAppend(fs: seq<Frame>, f: Frame, streamId: nat)
    ensures OnStream(fs + [f], streamId)
         == OnStream(fs, streamId) + (if IsPayload(f) && f.streamId == streamId then [f] else [])
  {
    assert (fs + [f])[..|fs|] == fs;
  }

  lemma AllOnAppend(fs: seq<Frame>, f: Frame, streamId: nat)
    ensures AllOn(fs + [f], streamId) == AllOn(fs, streamId) + (if f.streamId == streamId then [f] else [])
  {
    assert (fs + [f])[..|fs|] == fs;
  }

  lemma {:induction false} OnStreamConcat(a: seq<Frame>, b: seq<Frame>, streamId: nat)
    ensures OnStream(a + b, streamId) == OnStream(a, streamId) + OnStream(b, streamId)
  {
    if b == [] {
      assert a + b == a;
    } else {
      var n := |b| - 1;
      OnStreamConcat(a, b[..n], streamId);
      assert a + b == (a + b[..n]) + [b[n]] && b == b[..n] + [b[n]];
      OnStreamAppend(a + b[..n], b[n], streamId);
      OnStreamAppend(b[..n], b[n], streamId);
    }
  }

  lemma {:induction false} AllOnConcat(a: seq<Frame>, b: seq<Frame>, streamId: nat)
    ensures AllOn(a + b, streamId) == AllOn(a, streamId) + AllOn(b, streamId)
  {
    if b == [] {
      assert a + b == a;
    } else {
      var n := |b| - 1;
      AllOnConcat(a, b[..n], streamId);
      assert a + b == (a + b[..n]) + [b[n]] && b == b[..n] + [b[n]];
      AllOnAppend(a + b[..n], b[n], streamId);
      AllOnAppend(b[..n], b[n], streamId);
    }
  }

  lemma HoldsAppend(fs: seq<Frame>, f: Frame, frameType: FrameType, streamId: nat)
    ensures Holds(fs + [f], frameType, streamId)
       <==> Holds(fs, frameType, streamId) || (f.frameType == frameType && f.streamId == streamId)
  {
    if Holds(fs, frameType, streamId) {
      var i :| 0 <= i < |fs| && fs[i].frameType == frameType && fs[i].streamId == streamId;
      assert (fs + [f])[i] == fs[i];
    }
    assert (fs + [f])[|fs|] == f;
  }

  lemma RelayedAppend(fs: seq<Frame>, f: Frame, from: nat, to: nat)
    ensures Relayed(fs + [f], from, to)
         == Relayed(fs, from, to) + (if IsPayload(f) && f.streamId == from then [Rewritten(f, to)] else [])
  {
    assert (fs + [f])[..|fs|] == fs;
  }

  lemma ReopensAppend(fs: seq<Frame>, f: Frame, streamId: nat)
    ensures Reopens(fs + [f], streamId)
       <==> Reopens(fs, streamId) || (f.frameType.TcpAccept? && f.streamId == streamId)
  {
    if Reopens(fs, streamId) {
      var i :| 0 <= i < |fs| && fs[i].frameType.TcpAccept? && fs[i].streamId == streamId;
      assert (fs + [f])[i] == fs[i];
    }
    assert (fs + [f])[|fs|] == f;
  }

  lemma SessionUnbroken(fs: seq<Frame>, streamId: nat)
    ensures !Reopens(fs, streamId) ==> Session(fs, streamId) == fs
  {
  }

  lemma SessionAppend(fs: seq<Frame>, f: Frame, streamId: nat)
    ensures Session(fs + [f], streamId) == Session(fs, streamId)
         || Session(fs + [f], streamId) == Session(fs, streamId) + [f]
    ensures !Reopens(fs + [f], streamId) ==> Session(fs + [f], streamId) == fs + [f]
  {
    ReopensAppend(fs, f, streamId);
    assert (fs + [f])[..|fs|] == fs;
  }
}
