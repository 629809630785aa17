/** The byte budget of one port tunnel (`tunnel.rs`): any number of senders
    reserve bytes of a shared atomic counter with a compare-exchange loop, pass
    their frame through a bounded channel, and one writer gives the bytes back.
    Every atomic action is one step; a run is any interleaving of steps. */
module TunnelBudget {
  import opened Common
  import opened Frames
  import opened MapSums

  const HEADER_LEN: nat := 16
  const CHANNEL_CAPACITY: nat := 128

  /** Frames without data and frames of stream 0 are not charged. */
  function Charge(f: Frame): nat {
    if f.streamId != 0 && f.data != [] then
      SaturatingAdd(SaturatingAdd(HEADER_LEN, |f.meta|, USIZE_MAX), |f.data|, USIZE_MAX)
    else 0
  }

  /** What a frame takes on the wire, header, meta and data, as far as the
      counter can count. Frames without data and frames of stream 0 are free. */
  function Bytes(f: Frame): nat {
    if f.streamId == 0 || |f.data| == 0 then 0
    else if 16 + |f.meta| + |f.data| <= USIZE_MAX then 16 + |f.meta| + |f.data|
    else USIZE_MAX
  }

  /** A send that has read the counter as `current` and has yet to reserve, or
      one that waits for room in the channel. */
  datatype Sender = Trying(frame: Frame, current: nat) | Holding(frame: Frame)

  /** `begun` holds the frame of every send, by number. The last three fields are
      history: the bytes whose holder disappeared without giving them back, the
      sends the channel took, and the frames that went out. */
  datatype Tunnel = Tunnel(
    queued: nat, senders: map<nat, Sender>, begun: seq<Frame>,
    channel: seq<Frame>, writing: Option<Frame>, open: bool,
    lost: nat, accepted: seq<nat>, written: seq<Frame>)

  const Idle: Tunnel := Tunnel(0, map[], [], [], None, true, 0, [], [])

  datatype Step =
    | Begin(frame: Frame)
    | Attempt(id: nat, spurious: bool)
    | Enqueue(id: nat)
    | Reject(id: nat)
    | Abandon(id: nat)
    | Dequeue
    | Written(ok: bool)
    | Stop

  /** `fetch_sub` on the 64-bit counter wraps around. */
  function FetchSub(counter: nat, n: nat): nat {
    if n <= counter then counter - n else (counter - n) % (USIZE_MAX + 1)
  }

  predicate Fits(current: nat, charge: nat, max: nat) {
    var next := CheckedAdd(current, charge, USIZE_MAX);
    next.Some? && next.value <= max
  }

  predicate Enabled(t: Tunnel, step: Step) {
    match step
    case Begin(_) => true
    case Attempt(id, _) => id in t.senders && t.senders[id].Trying?
    case Enqueue(id) => id in t.senders && t.senders[id].Holding? && t.open && |t.channel| < CHANNEL_CAPACITY
    case Reject(id) => id in t.senders && t.senders[id].Holding? && !t.open
    case Abandon(id) => id in t.senders && t.senders[id].Holding?
    case Dequeue => t.open && t.writing.None? && t.channel != []
    case Written(_) => t.writing.Some?
    case Stop => t.open
  }

  function Next(max: nat, t: Tunnel, step: Step): Tunnel
    requires Enabled(t, step)
  {
    match step
    case Begin(f) => Started(max, t, f)
    case Attempt(id, spurious) => Attempted(max, t, id, spurious)
    case Enqueue(id) =>
      t.(senders := t.senders - {id}, channel := t.channel + [t.senders[id].frame], accepted := t.accepted + [id])
    case Reject(id) => t.(senders := t.senders - {id}, queued := FetchSub(t.queued, Charge(t.senders[id].frame)))
    case Abandon(id) => t.(senders := t.senders - {id}, lost := t.lost + Bytes(t.senders[id].frame))
    case Dequeue => t.(channel := t.channel[1..], writing := Some(t.channel[0]))
    case Written(ok) =>
      var released := t.(queued := FetchSub(t.queued, Charge(t.writing.value)), writing := None);
      if ok then released.(written := t.written + [t.writing.value]) else Stopped(released)
    case Stop => Stopped(t)
  }

  /** A new send: too large a frame is refused at once, an uncharged one needs
      no reservation, any other begins by reading the counter. */
  function Started(max: nat, t: Tunnel, f: Frame): Tunnel {
    var t' := t.(begun := t.begun + [f]);
    if Charge(f) > max then t'
    else if Charge(f) == 0 then t'.(senders := t.senders[|t.begun| := Holding(f)])
    else t'.(senders := t.senders[|t.begun| := Trying(f, t.queued)])
  }

  /** One turn of the reservation loop. The weak compare-exchange may fail even
      though the counter still holds the value read. */
  function Attempted(max: nat, t: Tunnel, id: nat, spurious: bool): Tunnel
    requires id in t.senders && t.senders[id].Trying?
  {
    var sender := t.senders[id];
    if !Fits(sender.current, Charge(sender.frame), max) then t.(senders := t.senders - {id})
    else if t.queued == sender.current && !spurious then
      t.(queued := sender.current + Charge(sender.frame), senders := t.senders[id := Holding(sender.frame)])
    else t.(senders := t.senders[id := Trying(sender.frame, t.queued)])
  }

  /** The writer ends: it drops the frame it was writing, if it was aborted, and
      every frame left in the channel. */
  function Stopped(t: Tunnel): Tunnel {
    t.(open := false, writing := None, channel := [], lost := t.lost + InHand(t.writing) + Total(t.channel))
  }

  function Total(frames: seq<Frame>): nat {
    if frames == [] then 0 else Bytes(frames[0]) + Total(frames[1..])
  }

  function InHand(writing: Option<Frame>): nat {
    if writing.Some? then Bytes(writing.value) else 0
  }

  // ----- Runs -------------------------------------------------------------

  ghost predicate Legal(max: nat, steps: seq<Step>)
    decreases |steps|, 0
  {
    steps == [] ||
    (var before := steps[..|steps| - 1];
     Legal(max, before) && Enabled(Exec(max, before), steps[|steps| - 1]))
  }

  ghost function Exec(max: nat, steps: seq<Step>): Tunnel
    requires Legal(max, steps)
    decreases |steps|, 1
  {
    if steps == [] then Idle
    else Next(max, Exec(max, steps[..|steps| - 1]), steps[|steps| - 1])
  }

  lemma {:induction false} PrefixLegal(max: nat, steps: seq<Step>, k: nat)
    requires Legal(max, steps) && k <= |steps|
    ensures Legal(max, steps[..k])
  {
    if k < |steps| {
      PrefixLegal(max, steps[..|steps| - 1], k);
      assert steps[..|steps| - 1][..k] == steps[..k];
    } else {
      assert steps[..k] == steps;
    }
  }

  // ----- The invariant ----------------------------------------------------

  function Held(senders: map<nat, Sender>): map<nat, nat> {
    map id | id in senders :: HeldBy(senders[id])
  }

  function HeldBy(sender: Sender): nat {
    if sender.Holding? then Bytes(sender.frame) else 0
  }

  /** The bytes of frames that wait for the channel, sit in it or are being written. */
  ghost function Live(t: Tunnel): nat {
    Sum(Held(t.senders)) + Total(t.channel) + InHand(t.writing)
  }

  ghost predicate Sane(max: nat, t: Tunnel) {
    && (!t.open ==> t.channel == [] && t.writing.None?)
    && OwnFrames(t.senders, t.begun)
    && (forall id <- t.senders :: t.senders[id].Trying? ==> 0 < Bytes(t.senders[id].frame) <= max)
  }

  ghost predicate Balanced(max: nat, t: Tunnel) {
    && Sane(max, t)
    && t.queued == Live(t) + t.lost
    && t.queued <= max
  }

  lemma HeldPut(senders: map<nat, Sender>, id: nat, sender: Sender)
    ensures id !in senders ==> Sum(Held(senders[id := sender])) == Sum(Held(senders)) + HeldBy(sender)
    ensures id in senders ==>
      Sum(Held(senders[id := sender])) + HeldBy(senders[id]) == Sum(Held(senders)) + HeldBy(sender)
  {
    assert Held(senders[id := sender]) == Held(senders)[id := HeldBy(sender)];
    SumPut(Held(senders), id, HeldBy(sender));
  }

  lemma HeldLess(senders: map<nat, Sender>, id: nat)
    requires id in senders
    ensures Sum(Held(senders - {id})) + HeldBy(senders[id]) == Sum(Held(senders))
  {
    assert Held(senders - {id}) == Held(senders) - {id};
    SumSplit(Held(senders), id);
  }

  lemma ChargeIsBytes(f: Frame)
    ensures Charge(f) == Bytes(f)
  {
  }

  lemma {:induction false} TotalAppend(a: seq<Frame>, b: seq<Frame>)
    ensures Total(a + b) == Total(a) + Total(b)
  {
    if a == [] {
      assert a + b == b;
    } else {
      assert (a + b)[1..] == a[1..] + b;
      TotalAppend(a[1..], b);
    }
  }

  lemma StepKeeps(max: nat, t: Tunnel, step: Step)
    requires Balanced(max, t) && Enabled(t, step)
    ensures Balanced(max, Next(max, t, step))
  {
    hide Sum, Held, Total, Charge, Bytes;
    match step {
      case Begin(f) => StartKeeps(max, t, f);
      case Attempt(id, spurious) => AttemptKeeps(max, t, id, spurious);
      case Enqueue(id) =>
        HeldLess(t.senders, id);
        TotalAppend(t.channel, [t.senders[id].frame]);
        TotalOne(t.senders[id].frame);
      case Reject(id) =>
        HeldLess(t.senders, id);
        ChargeIsBytes(t.senders[id].frame);
      case Abandon(id) => HeldLess(t.senders, id);
      case Dequeue => TotalFirst(t.channel);
      case Written(_) =>
        ChargeIsBytes(t.writing.value);
        TotalNone();
      case Stop => TotalNone();
    }
  }

  lemma TotalOne(f: Frame)
    ensures Total([f]) == Bytes(f)
  {
  }

  lemma TotalNone()
    ensures Total([]) == 0
  {
  }

  lemma TotalFirst(frames: seq<Frame>)
    requires frames != []
    ensures Total(frames) == Bytes(frames[0]) + Total(frames[1..])
  {
  }

  lemma StartKeeps(max: nat, t: Tunnel, f: Frame)
    requires Balanced(max, t)
    ensures Balanced(max, Started(max, t, f))
  {
    hide Sum, Held, Total, Charge, Bytes;
    ChargeIsBytes(f);
    HeldPut(t.senders, |t.begun|, Holding(f));
    HeldPut(t.senders, |t.begun|, Trying(f, t.queued));
  }

  lemma AttemptKeeps(max: nat, t: Tunnel, id: nat, spurious: bool)
    requires Balanced(max, t) && id in t.senders && t.senders[id].Trying?
    ensures Balanced(max, Attempted(max, t, id, spurious))
  {
    hide Sum, Held, Total, Charge, Bytes;
    ChargeIsBytes(t.senders[id].frame);
    HeldLess(t.senders, id);
    HeldPut(t.senders, id, Holding(t.senders[id].frame));
    HeldPut(t.senders, id, Trying(t.senders[id].frame, t.queued));
  }

  /** Whatever the interleaving, the counter is the bytes of live frames plus
      the bytes lost so far, and stays within the budget. */
  lemma {:induction false} BudgetHolds(max: nat, steps: seq<Step>)
    requires Legal(max, steps)
    ensures Balanced(max, Exec(max, steps))
  {
    if steps == [] {
      assert Held(map[]) == map[];
    } else {
      var before := steps[..|steps| - 1];
      BudgetHolds(max, before);
      StepKeeps(max, Exec(max, before), steps[|steps| - 1]);
    }
  }

  /** No release takes the counter below zero: the subtraction never wraps. */
  lemma ReleaseNeverUnderflows(max: nat, steps: seq<Step>, step: Step)
    requires Legal(max, steps) && Enabled(Exec(max, steps), step)
    ensures step.Reject? ==> Charge(Exec(max, steps).senders[step.id].frame) <= Exec(max, steps).queued
    ensures step.Written? ==> Charge(Exec(max, steps).writing.value) <= Exec(max, steps).queued
  {
    BudgetHolds(max, steps);
    ReleaseCovered(max, Exec(max, steps), step);
  }

  lemma ReleaseCovered(max: nat, t: Tunnel, step: Step)
    requires Balanced(max, t) && Enabled(t, step)
    ensures step.Reject? ==> Charge(t.senders[step.id].frame) <= t.queued
    ensures step.Written? ==> Charge(t.writing.value) <= t.queued
  {
    hide Sum, Held, Total, Charge, Bytes;
    if step.Reject? {
      HeldLess(t.senders, step.id);
      ChargeIsBytes(t.senders[step.id].frame);
    } else if step.Written? {
      ChargeIsBytes(t.writing.value);
    }
  }

  /** The steps in which a frame disappears with its reservation. */
  predicate Loses(step: Step) {
    step.Abandon? || step.Stop? || step == Written(false)
  }

  /** With no send dropped half-way and no writer stopped, the counter is
      exactly the bytes of the live frames; once they are all written it is 0. */
  lemma {:induction false} ExactWithoutLoss(max: nat, steps: seq<Step>)
    requires Legal(max, steps)
    requires forall step <- steps :: !Loses(step)
    ensures Exec(max, steps).queued == Live(Exec(max, steps))
  {
    NothingLost(max, steps);
    BudgetHolds(max, steps);
  }

  lemma {:induction false} NothingLost(max: nat, steps: seq<Step>)
    requires Legal(max, steps)
    requires forall step <- steps :: !Loses(step)
    ensures Exec(max, steps).lost == 0
  {
    if steps != [] {
      NothingLost(max, steps[..|steps| - 1]);
      assert !Loses(steps[|steps| - 1]);
    }
  }

  // ----- Refusals ---------------------------------------------------------

  /** The send that takes this step ends here with a backpressure error. */
  predicate Refuses(max: nat, t: Tunnel, step: Step)
    requires Enabled(t, step)
  {
    match step
    case Begin(_) => |t.begun| !in Next(max, t, step).senders
    case Attempt(id, _) => id !in Next(max, t, step).senders
    case _ => false
  }

  /** After `k` steps send `id` was under way and the counter stood at `value`. */
  ghost predicate SeenAt(max: nat, steps: seq<Step>, k: nat, id: nat, value: nat)
    requires Legal(max, steps) && k <= |steps|
  {
    PrefixLegal(max, steps, k);
    id in Exec(max, steps[..k]).senders && Exec(max, steps[..k]).queued == value
  }

  /** What a send believes the counter to be is what it was at some moment since
      the send began. */
  lemma {:induction false} CurrentWasSeen(max: nat, steps: seq<Step>, id: nat) returns (k: nat)
    requires Legal(max, steps)
    requires id in Exec(max, steps).senders && Exec(max, steps).senders[id].Trying?
    ensures k <= |steps| && SeenAt(max, steps, k, id, Exec(max, steps).senders[id].current)
  {
    var before := steps[..|steps| - 1];
    var t := Exec(max, before);
    if id in t.senders && t.senders[id].Trying? && Exec(max, steps).senders[id] == t.senders[id] {
      k := CurrentWasSeen(max, before, id);
      assert before[..k] == steps[..k];
    } else {
      NewlyRead(max, t, steps[|steps| - 1], id);
      k := |steps|;
      assert steps[..k] == steps;
    }
  }

  /** A send that has just read the counter holds its present value. */
  lemma NewlyRead(max: nat, t: Tunnel, step: Step, id: nat)
    requires Enabled(t, step)
    requires var t' := Next(max, t, step);
             id in t'.senders && t'.senders[id].Trying? && !(id in t.senders && t.senders[id] == t'.senders[id])
    ensures Next(max, t, step).queued == Next(max, t, step).senders[id].current
  {
  }

  /** A send is refused exactly when its frame is larger than the whole budget,
      or when the frame does not fit beside the bytes queued at some moment since
      the send began. Free frames are never refused. */
  lemma RefusalIsJustified(max: nat, steps: seq<Step>, step: Step) returns (k: nat)
    requires max <= USIZE_MAX
    requires Legal(max, steps) && Enabled(Exec(max, steps), step)
    ensures step.Begin? ==> (Refuses(max, Exec(max, steps), step) <==> max < Bytes(step.frame))
    ensures step.Attempt? ==>
      && k <= |steps|
      && var sender := Exec(max, steps).senders[step.id];
         && SeenAt(max, steps, k, step.id, sender.current)
         && 0 < Bytes(sender.frame)
         && (Refuses(max, Exec(max, steps), step) <==> max < sender.current + Bytes(sender.frame))
  {
    hide Exec, Legal, Next, Bytes, Charge, Balanced, Sane, SeenAt;
    BudgetHolds(max, steps);
    k := 0;
    if step.Attempt? {
      k := CurrentWasSeen(max, steps, step.id);
      AttemptRefuses(max, Exec(max, steps), step.id, step.spurious);
    } else if step.Begin? {
      BeginRefuses(max, Exec(max, steps), step.frame);
    }
  }

  lemma BeginRefuses(max: nat, t: Tunnel, f: Frame)
    requires Balanced(max, t)
    ensures |t.begun| !in Next(max, t, Begin(f)).senders <==> max < Bytes(f)
  {
    hide Charge, Bytes, Live;
    ChargeIsBytes(f);
  }

  lemma AttemptRefuses(max: nat, t: Tunnel, id: nat, spurious: bool)
    requires max <= USIZE_MAX && Balanced(max, t) && id in t.senders && t.senders[id].Trying?
    ensures id !in Next(max, t, Attempt(id, spurious)).senders <==>
            max < t.senders[id].current + Bytes(t.senders[id].frame)
    ensures 0 < Bytes(t.senders[id].frame)
  {
    hide Charge, Bytes, Live;
    ChargeIsBytes(t.senders[id].frame);
  }

  // ----- What goes out ----------------------------------------------------

  predicate AllBegun(ids: seq<nat>, begun: seq<Frame>) {
    forall i :: 0 <= i < |ids| ==> ids[i] < |begun|
  }

  function FramesOf(begun: seq<Frame>, ids: seq<nat>): seq<Frame>
    requires AllBegun(ids, begun)
  {
    if ids == [] then [] else FramesOf(begun, ids[..|ids| - 1]) + [begun[ids[|ids| - 1]]]
  }

  ghost predicate OwnFrames(senders: map<nat, Sender>, begun: seq<Frame>) {
    forall id <- senders :: id < |begun| && senders[id].frame == begun[id]
  }

  /** No send was accepted twice, and none that is still under way. */
  ghost predicate AcceptedOnce(accepted: seq<nat>, ids: set<nat>) {
    && (forall i :: 0 <= i < |accepted| ==> accepted[i] !in ids)
    && (forall i, j :: 0 <= i < j < |accepted| ==> accepted[i] != accepted[j])
  }

  ghost predicate Known(t: Tunnel) {
    && OwnFrames(t.senders, t.begun)
    && AllBegun(t.accepted, t.begun)
    && AcceptedOnce(t.accepted, t.senders.Keys)
  }

  /** What was written, is being written and waits, in this order, is what the channel took. */
  ghost predicate InOrder(t: Tunnel)
    requires AllBegun(t.accepted, t.begun)
  {
    var all := FramesOf(t.begun, t.accepted);
    if t.open then t.written + Hand(t.writing) + t.channel == all
    else t.writing.None? && t.channel == [] && t.written <= all
  }

  function Hand(writing: Option<Frame>): seq<Frame> {
    if writing.Some? then [writing.value] else []
  }

  /** Frames go out in the order in which the channel took them, each send's own
      frame, none twice; while the writer runs none is left out. */
  lemma {:induction false} WrittenInOrder(max: nat, steps: seq<Step>)
    requires Legal(max, steps)
    ensures Known(Exec(max, steps)) && InOrder(Exec(max, steps))
  {
    if steps != [] {
      var before := steps[..|steps| - 1];
      WrittenInOrder(max, before);
      StepKnown(max, Exec(max, before), steps[|steps| - 1]);
      StepInOrder(max, Exec(max, before), steps[|steps| - 1]);
    }
  }

  /** The channel holds at most 128 frames, and a send that has its reservation can
      go on whenever it holds fewer. */
  lemma {:induction false} ChannelHolds128(max: nat, steps: seq<Step>, id: nat)
    requires Legal(max, steps)
    ensures |Exec(max, steps).channel| <= 128
    ensures var t := Exec(max, steps);
            id in t.senders && t.senders[id].Holding? && t.open ==> (Enabled(t, Enqueue(id)) <==> |t.channel| < 128)
  {
    if steps != [] {
      ChannelHolds128(max, steps[..|steps| - 1], id);
      hide Exec, Legal, Charge, Bytes, Total, Fits;
      LastStep(max, steps);
    }
  }

  lemma LastStep(max: nat, steps: seq<Step>)
    requires Legal(max, steps) && steps != []
    ensures var before := steps[..|steps| - 1];
            && Legal(max, before) && Enabled(Exec(max, before), steps[|steps| - 1])
            && Exec(max, steps) == Next(max, Exec(max, before), steps[|steps| - 1])
  {
  }

  lemma StepKnown(max: nat, t: Tunnel, step: Step)
    requires Known(t) && Enabled(t, step)
    ensures Known(Next(max, t, step))
  {
    hide Fits, Charge, Bytes, Total, FetchSub, OwnFrames, AllBegun, AcceptedOnce;
    match step {
      case Begin(f) => BeginKnown(t, f);
      case Attempt(id, _) => SenderKnown(t, id);
      case Enqueue(id) => EnqueueKnown(t, id);
      case Reject(id) => SenderKnown(t, id);
      case Abandon(id) => SenderKnown(t, id);
      case Dequeue =>
      case Written(_) =>
      case Stop =>
    }
  }

  lemma BeginKnown(t: Tunnel, f: Frame)
    requires Known(t)
    ensures OwnFrames(t.senders, t.begun + [f])
    ensures OwnFrames(t.senders[|t.begun| := Holding(f)], t.begun + [f])
    ensures OwnFrames(t.senders[|t.begun| := Trying(f, t.queued)], t.begun + [f])
    ensures AllBegun(t.accepted, t.begun + [f])
    ensures AcceptedOnce(t.accepted, t.senders[|t.begun| := Holding(f)].Keys)
    ensures AcceptedOnce(t.accepted, t.senders[|t.begun| := Trying(f, t.queued)].Keys)
  {
  }

  lemma SenderKnown(t: Tunnel, id: nat)
    requires Known(t) && id in t.senders
    ensures OwnFrames(t.senders - {id}, t.begun) && AcceptedOnce(t.accepted, (t.senders - {id}).Keys)
    ensures OwnFrames(t.senders[id := Holding(t.senders[id].frame)], t.begun)
    ensures OwnFrames(t.senders[id := Trying(t.senders[id].frame, t.queued)], t.begun)
    ensures AcceptedOnce(t.accepted, t.senders[id := Holding(t.senders[id].frame)].Keys)
    ensures AcceptedOnce(t.accepted, t.senders[id := Trying(t.senders[id].frame, t.queued)].Keys)
  {
  }

  lemma EnqueueKnown(t: Tunnel, id: nat)
    requires Known(t) && id in t.senders
    ensures OwnFrames(t.senders - {id}, t.begun)
    ensures AllBegun(t.accepted + [id], t.begun)
    ensures AcceptedOnce(t.accepted + [id], (t.senders - {id}).Keys)
  {
  }

  lemma StepInOrder(max: nat, t: Tunnel, step: Step)
    requires Known(t) && InOrder(t) && Enabled(t, step)
    requires Known(Next(max, t, step))
    ensures InOrder(Next(max, t, step))
  {
    hide FramesOf, Fits, Charge, Bytes, Total, FetchSub, OwnFrames, AcceptedOnce;
    match step {
      case Begin(f) => FramesKept(t.begun, f, t.accepted);
      case Attempt(_, _) =>
      case Enqueue(id) => EnqueueInOrder(t, id);
      case Reject(_) =>
      case Abandon(_) =>
      case Dequeue => DequeueInOrder(t);
      case Written(ok) => WrittenNext(t, ok);
      case Stop => WrittenNext(t, false);
    }
  }

  lemma EnqueueInOrder(t: Tunnel, id: nat)
    requires Known(t) && InOrder(t) && id in t.senders && t.open
    ensures AllBegun(t.accepted + [id], t.begun)
    ensures t.written + Hand(t.writing) + (t.channel + [t.senders[id].frame]) == FramesOf(t.begun, t.accepted + [id])
  {
    hide FramesOf;
    FramesMore(t.begun, t.accepted, id);
  }

  lemma DequeueInOrder(t: Tunnel)
    requires t.writing.None? && t.channel != []
    ensures t.written + Hand(t.writing) + t.channel == t.written + Hand(Some(t.channel[0])) + t.channel[1..]
  {
  }

  lemma WrittenNext(t: Tunnel, ok: bool)
    requires AllBegun(t.accepted, t.begun) && InOrder(t)
    ensures t.written <= FramesOf(t.begun, t.accepted)
    ensures t.open && t.writing.Some? ==>
              t.written + [t.writing.value] + Hand(None) + t.channel == FramesOf(t.begun, t.accepted)
  {
    hide FramesOf;
  }

  lemma FramesMore(begun: seq<Frame>, ids: seq<nat>, id: nat)
    requires id < |begun| && AllBegun(ids, begun)
    ensures AllBegun(ids + [id], begun)
    ensures FramesOf(begun, ids + [id]) == FramesOf(begun, ids) + [begun[id]]
  {
    assert (ids + [id])[..|ids|] == ids;
  }

  lemma {:induction false} FramesKept(begun: seq<Frame>, f: Frame, ids: seq<nat>)
    requires AllBegun(ids, begun)
    ensures FramesOf(begun + [f], ids) == FramesOf(begun, ids)
  {
    if ids != [] {
      FramesKept(begun, f, ids[..|ids| - 1]);
    }
  }

  // ----- Nothing stays reserved -------------------------------------------

  function TryingIds(t: Tunnel): set<nat> {
    set id | id in t.senders && t.senders[id].Trying?
  }

  function HoldingIds(t: Tunnel): set<nat> {
    set id | id in t.senders && t.senders[id].Holding?
  }

  /** The sends whose next compare-exchange must fail. */
  function StaleIds(t: Tunnel): set<nat> {
    set id | id in t.senders && t.senders[id].Trying? && t.senders[id].current != t.queued
  }

  ghost predicate Busy(t: Tunnel) {
    t.writing.Some? || t.channel != [] || t.senders != map[]
  }

  /** The step that brings a busy tunnel closer to idle: the writer first, then
      the channel, then the senders. */
  ghost function Drain(t: Tunnel): Step
    requires Busy(t)
  {
    if t.writing.Some? then Written(true)
    else if t.channel != [] then Dequeue
    else if HoldingIds(t) != {} then
      var id :| id in HoldingIds(t);
      if t.open then Enqueue(id) else Reject(id)
    else
      var id :| id in t.senders;
      Attempt(id, false)
  }

  ghost predicate Closer(a: Tunnel, b: Tunnel) {
    var tryA, tryB := |TryingIds(a)|, |TryingIds(b)|;
    var holdA, holdB := |HoldingIds(a)|, |HoldingIds(b)|;
    var staleA, staleB := |StaleIds(a)|, |StaleIds(b)|;
    || tryB < tryA
    || (tryB == tryA && holdB < holdA)
    || (tryB == tryA && holdB == holdA && |b.channel| < |a.channel|)
    || (tryB == tryA && holdB == holdA && |b.channel| == |a.channel| && a.writing.Some? && b.writing.None?)
    || (tryB == tryA && holdB == holdA && |b.channel| == |a.channel| && a.writing == b.writing && staleB < staleA)
  }

  lemma Shrinks(a: set<nat>, b: set<nat>, id: nat)
    requires id in a && b == a - {id}
    ensures |b| < |a|
  {
  }

  lemma AttemptCloser(max: nat, t: Tunnel, id: nat)
    requires id in TryingIds(t)
    ensures Closer(t, Attempted(max, t, id, false))
  {
    var t' := Attempted(max, t, id, false);
    if id in TryingIds(t') {
      assert TryingIds(t') == TryingIds(t);
      assert HoldingIds(t') == HoldingIds(t);
      Shrinks(StaleIds(t), StaleIds(t'), id);
    } else {
      Shrinks(TryingIds(t), TryingIds(t'), id);
    }
  }

  lemma LeaveCloser(t: Tunnel, t': Tunnel, id: nat)
    requires id in HoldingIds(t) && t'.senders == t.senders - {id}
    ensures Closer(t, t')
  {
    assert TryingIds(t') == TryingIds(t);
    Shrinks(HoldingIds(t), HoldingIds(t'), id);
  }

  lemma SameSenders(t: Tunnel, t': Tunnel)
    requires t'.senders == t.senders
    ensures TryingIds(t') == TryingIds(t) && HoldingIds(t') == HoldingIds(t)
  {
  }

  lemma DrainCloser(max: nat, t: Tunnel)
    requires Balanced(max, t) && Busy(t)
    ensures Enabled(t, Drain(t)) && !Loses(Drain(t))
    ensures Next(max, t, Drain(t)).lost == t.lost
    ensures Closer(t, Next(max, t, Drain(t)))
  {
    hide Sum, Held, Total;
    assert forall id <- t.senders :: id in HoldingIds(t) || id in TryingIds(t);
    var t' := Next(max, t, Drain(t));
    match Drain(t) {
      case Attempt(id, _) => AttemptCloser(max, t, id);
      case Enqueue(id) => LeaveCloser(t, t', id);
      case Reject(id) => LeaveCloser(t, t', id);
      case _ => SameSenders(t, t');
    }
  }

  ghost predicate Continues(max: nat, t: Tunnel, steps: seq<Step>, t': Tunnel)
    decreases |steps|
  {
    if steps == [] then t' == t
    else Enabled(t, steps[0]) && !Loses(steps[0]) && Continues(max, Next(max, t, steps[0]), steps[1..], t')
  }

  /** From every reachable state some continuation, in which nothing more is
      lost, gives back every byte but those lost already: no reservation can be
      stuck in a send, in the channel or in the writer. */
  lemma {:induction false} Drains(max: nat, t: Tunnel) returns (steps: seq<Step>, idle: Tunnel)
    requires Balanced(max, t)
    ensures Continues(max, t, steps, idle)
    ensures !Busy(idle) && idle.lost == t.lost && idle.queued == t.lost
    decreases |TryingIds(t)|, |HoldingIds(t)|, |t.channel|, (if t.writing.Some? then 1 else 0), |StaleIds(t)|
  {
    if Busy(t) {
      DrainCloser(max, t);
      StepKeeps(max, t, Drain(t));
      var rest;
      rest, idle := Drains(max, Next(max, t, Drain(t)));
      steps := [Drain(t)] + rest;
    } else {
      assert Held(t.senders) == map[];
      steps, idle := [], t;
    }
  }

  lemma NeverStuck(max: nat, steps: seq<Step>) returns (more: seq<Step>, idle: Tunnel)
    requires Legal(max, steps)
    ensures Continues(max, Exec(max, steps), more, idle)
    ensures !Busy(idle) && idle.queued == Exec(max, steps).lost
  {
    BudgetHolds(max, steps);
    more, idle := Drains(max, Exec(max, steps));
  }
}
