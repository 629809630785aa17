/** The pool of idle reverse connections (`reverse_transport.rs`): daemons dial in
    and park lanes, requests take them. A daemon that restarts has a new instance
    id, and the pool remembers the last instances it has seen replaced. */
module LanePool {
  import opened Common

  const MAX_RETIRED: nat := 64

  type Instance = string

  datatype Lane = Lane(io: nat, instance: Instance)

  /** The pool, then history: every lane ever accepted, how many of them have
      left the queue, which were handed out and how many were dropped, and every
      instance ever replaced. */
  datatype Pool = Pool(
    lanes: seq<Lane>,
    active: Option<Instance>,
    retired: seq<Instance>,
    closed: bool,
    accepted: seq<Lane>,
    gone: nat,
    taken: seq<nat>,
    dropped: nat,
    replaced: seq<Instance>)

  datatype InsertOutcome = PoolClosed | InstanceRetired | Added | Replaced(previous: Instance, droppedLanes: nat)
  datatype TakeOutcome = Taken(lane: Lane) | TakeClosed | Waits

  const New: Pool := Pool([], None, [], false, [], 0, [], 0, [])

  /** Remember one more replaced instance, forgetting the oldest beyond the bound. */
  function Remember(retired: seq<Instance>, previous: Instance): seq<Instance> {
    var longer := retired + [previous];
    if |longer| > MAX_RETIRED then longer[1..] else longer
  }

  function DropQueued(p: Pool): Pool {
    p.(lanes := [], gone := p.gone + |p.lanes|, dropped := p.dropped + |p.lanes|)
  }

  /** `sawClosed` is the flag as it was read before the lock was taken; it may
      have been set since, so it is not tied to `closed`. */
  function Insert(p: Pool, lane: Lane, sawClosed: bool): (Pool, InsertOutcome) {
    if sawClosed then (p, PoolClosed)
    else if lane.instance in p.retired then (p, InstanceRetired)
    else if p.active.Some? && p.active.value != lane.instance then
      var q := DropQueued(p).(retired := Remember(p.retired, p.active.value), replaced := p.replaced + [p.active.value]);
      (Park(q, lane), Replaced(p.active.value, |p.lanes|))
    else (Park(p, lane), Added)
  }

  function Park(p: Pool, lane: Lane): Pool {
    p.(active := Some(lane.instance), lanes := p.lanes + [lane], accepted := p.accepted + [lane])
  }

  /** One turn of the waiting loop. */
  function Take(p: Pool): (Pool, TakeOutcome) {
    if p.lanes != [] then
      (p.(lanes := p.lanes[1..], gone := p.gone + 1, taken := p.taken + [p.gone]), Taken(p.lanes[0]))
    else (p, if p.closed then TakeClosed else Waits)
  }

  datatype Step = InsertLane(lane: Lane, sawClosed: bool) | TakeLane | ResetIdle | Close

  function Next(p: Pool, step: Step): Pool {
    match step
    case InsertLane(lane, sawClosed) => Insert(p, lane, sawClosed).0
    case TakeLane => Take(p).0
    case ResetIdle => DropQueued(p)
    case Close => p.(closed := true)
  }

  /** The pool after the first `n` steps of a run. */
  function State(steps: seq<Step>, n: nat): Pool
    requires n <= |steps|
  {
    if n == 0 then New else Next(State(steps, n - 1), steps[n - 1])
  }

  // ----- The invariant ----------------------------------------------------

  predicate NoRepeats<T(==)>(s: seq<T>) {
    forall i, j :: 0 <= i < j < |s| ==> s[i] != s[j]
  }

  /** The last `MAX_RETIRED` entries, or all of them. */
  function Recent(replaced: seq<Instance>): seq<Instance> {
    if |replaced| > MAX_RETIRED then replaced[|replaced| - MAX_RETIRED..] else replaced
  }

  predicate OneInstance(lanes: seq<Lane>, active: Option<Instance>) {
    forall lane <- lanes :: active == Some(lane.instance)
  }

  predicate Retirement(active: Option<Instance>, retired: seq<Instance>, replaced: seq<Instance>) {
    && retired == Recent(replaced)
    && NoRepeats(retired)
    && (active.Some? ==> active.value !in retired)
    && (active.None? ==> replaced == [])
  }

  /** The queue is the accepted lanes that have not left; those handed out left
      in the order in which they were accepted. */
  predicate Queue(p: Pool) {
    && p.gone <= |p.accepted|
    && p.lanes == p.accepted[p.gone..]
    && |p.taken| + p.dropped == p.gone
    && (forall k <- p.taken :: k < p.gone)
    && (forall i, j :: 0 <= i < j < |p.taken| ==> p.taken[i] < p.taken[j])
  }

  predicate Sound(p: Pool) {
    OneInstance(p.lanes, p.active) && Retirement(p.active, p.retired, p.replaced) && Queue(p)
  }

  lemma RememberRecent(replaced: seq<Instance>, previous: Instance)
    ensures Remember(Recent(replaced), previous) == Recent(replaced + [previous])
  {
  }

  lemma RetireKeeps(active: Instance, retired: seq<Instance>, replaced: seq<Instance>, next: Instance)
    requires Retirement(Some(active), retired, replaced)
    requires next !in retired && next != active
    ensures Retirement(Some(next), Remember(retired, active), replaced + [active])
  {
    RememberRecent(replaced, active);
    var longer := retired + [active];
    assert NoRepeats(longer);
    assert forall x :: x in Remember(retired, active) ==> x in longer;
  }

  lemma DropKeeps(p: Pool)
    requires Queue(p)
    ensures Queue(DropQueued(p))
  {
  }

  lemma ParkKeeps(p: Pool, lane: Lane)
    requires Queue(p) && OneInstance(p.lanes, Some(lane.instance))
    ensures Queue(Park(p, lane)) && OneInstance(Park(p, lane).lanes, Some(lane.instance))
  {
  }

  lemma InsertKeeps(p: Pool, lane: Lane, sawClosed: bool)
    requires Sound(p)
    ensures Sound(Insert(p, lane, sawClosed).0)
  {
    hide Queue, Retirement, OneInstance, Park, DropQueued, Remember;
    var q, outcome := Insert(p, lane, sawClosed).0, Insert(p, lane, sawClosed).1;
    match outcome {
      case Replaced(previous, _) =>
        RetireKeeps(previous, p.retired, p.replaced, lane.instance);
        DropKeeps(p);
        ReplaceParks(p, previous, lane);
      case Added => AddKeeps(p, lane);
      case _ =>
    }
  }

  lemma ReplaceParks(p: Pool, previous: Instance, lane: Lane)
    requires Queue(DropQueued(p))
    requires Retirement(Some(lane.instance), Remember(p.retired, previous), p.replaced + [previous])
    ensures Sound(Park(DropQueued(p).(retired := Remember(p.retired, previous), replaced := p.replaced + [previous]), lane))
  {
    var q := DropQueued(p).(retired := Remember(p.retired, previous), replaced := p.replaced + [previous]);
    ParkKeeps(q, lane);
  }

  lemma AddKeeps(p: Pool, lane: Lane)
    requires Sound(p) && lane.instance !in p.retired
    requires p.active.None? || p.active.value == lane.instance
    ensures Sound(Park(p, lane))
  {
    ParkKeeps(p, lane);
  }

  lemma TakeKeeps(p: Pool)
    requires Sound(p)
    ensures Sound(Take(p).0)
  {
    if p.lanes != [] {
      assert p.accepted[p.gone..][1..] == p.accepted[p.gone + 1..];
      assert forall i :: 0 <= i < |p.taken| ==> p.taken[i] in p.taken;
    }
  }

  /** After every step of every run. */
  lemma {:induction false} PoolHolds(steps: seq<Step>, n: nat)
    requires n <= |steps|
    ensures Sound(State(steps, n))
  {
    hide Sound, Next;
    if n == 0 {
      NewIsSound();
    } else {
      PoolHolds(steps, n - 1);
      StepKeeps(State(steps, n - 1), steps[n - 1]);
    }
  }

  lemma NewIsSound()
    ensures Sound(New)
  {
  }

  lemma StepKeeps(p: Pool, step: Step)
    requires Sound(p)
    ensures Sound(Next(p, step))
  {
    match step {
      case InsertLane(lane, sawClosed) => InsertKeeps(p, lane, sawClosed);
      case TakeLane => TakeKeeps(p);
      case ResetIdle => DropKeeps(p);
      case Close =>
    }
  }

  // ----- Over every run ---------------------------------------------------

  /** Queued lanes, and so every lane handed out, belong to the active instance;
      that one is not retired; the retired ids are distinct and at most 64. */
  lemma LanesAreCurrent(steps: seq<Step>, n: nat)
    requires n <= |steps|
    ensures var p := State(steps, n);
            && (forall lane <- p.lanes :: p.active == Some(lane.instance))
            && (Take(p).1.Taken? ==> p.active == Some(Take(p).1.lane.instance))
            && (p.active.Some? ==> p.active.value !in p.retired)
            && NoRepeats(p.retired) && |p.retired| <= 64
  {
    PoolHolds(steps, n);
  }

  /** What becomes of a lane that dials in while the pool looks open: it is
      refused, and nothing changes, exactly when its instance is one of the last
      64 replaced; otherwise it is queued last, behind the lanes of its own
      instance, or alone if it belongs to a new one. */
  lemma InsertExactly(steps: seq<Step>, n: nat, lane: Lane)
    requires n <= |steps|
    ensures var p := State(steps, n);
            var (q, outcome) := Insert(p, lane, false);
            var last := if |p.replaced| > 64 then p.replaced[|p.replaced| - 64..] else p.replaced;
            if lane.instance in last then outcome == InstanceRetired && q == p
            else
              && q.active == Some(lane.instance) && q.accepted == p.accepted + [lane] && q.closed == p.closed && q.taken == p.taken
              && (if p.active.Some? && p.active.value != lane.instance
                  then outcome == Replaced(p.active.value, |p.lanes|) && q.lanes == [lane] && q.dropped == p.dropped + |p.lanes|
                  else outcome == Added && q.lanes == p.lanes + [lane] && q.dropped == p.dropped)
    ensures Insert(State(steps, n), lane, true) == (State(steps, n), PoolClosed)
  {
    hide State, NoRepeats, Queue, OneInstance, Remember;
    PoolHolds(steps, n);
  }

  /** So an instance replaced as number `k` is refused until 64 others have been
      replaced after it. */
  lemma RefusedExactly(steps: seq<Step>, n: nat, lane: Lane)
    requires n <= |steps|
    ensures var p := State(steps, n);
            && (Insert(p, lane, false).1 == InstanceRetired <==> lane.instance in Recent(p.replaced))
            && (Insert(p, lane, false).1 != InstanceRetired ==>
                  forall k :: 0 <= k < |p.replaced| && p.replaced[k] == lane.instance ==> |p.replaced| >= k + 65)
  {
    hide State, Recent, NoRepeats, Queue, OneInstance, Park, DropQueued, Remember;
    PoolHolds(steps, n);
    var p := State(steps, n);
    forall k | 0 <= k < |p.replaced| && p.replaced[k] == lane.instance && |p.replaced| < k + 65
      ensures lane.instance in Recent(p.replaced)
    {
      RecentHas(p.replaced, k);
    }
  }

  lemma RecentHas(replaced: seq<Instance>, k: nat)
    requires k < |replaced| < k + 1 + MAX_RETIRED
    ensures replaced[k] in Recent(replaced)
  {
    var first := if |replaced| > MAX_RETIRED then |replaced| - MAX_RETIRED else 0;
    assert Recent(replaced)[k - first] == replaced[k];
  }

  /** Lanes leave in the order they came, each once: what `take` hands out next
      is the oldest lane still queued, later than all handed out before; and
      every accepted lane is handed out, dropped or still queued. */
  lemma FirstInFirstOut(steps: seq<Step>, n: nat)
    requires n <= |steps|
    ensures var p := State(steps, n);
            && |p.accepted| == |p.taken| + p.dropped + |p.lanes|
            && (forall i, j :: 0 <= i < j < |p.taken| ==> p.taken[i] < p.taken[j])
            && (Take(p).1.Taken? <==> p.lanes != [])
            && (Take(p).1.Taken? ==>
                  && Take(p).0.lanes == p.lanes[1..]
                  && p.gone < |p.accepted| && Take(p).1.lane == p.accepted[p.gone]
                  && Take(p).0.taken == p.taken + [p.gone]
                  && forall k <- p.taken :: k < p.gone)
  {
    PoolHolds(steps, n);
  }

  /** The list of replaced instances is the run's own record: it grows exactly
      when an instance gives way to another, and by the one that gave way. */
  lemma ReplacedExactly(steps: seq<Step>, n: nat)
    requires n < |steps|
    ensures var p, q := State(steps, n), State(steps, n + 1);
            if p.active.Some? && q.active != p.active
            then q.replaced == p.replaced + [p.active.value]
            else q.replaced == p.replaced
  {
    hide State, Remember;
    StateStep(steps, n);
  }

  /** Only an empty pool makes a request wait, and it fails the request once the
      pool has been closed, which is for ever. */
  lemma {:induction false} ClosedForEver(steps: seq<Step>, n: nat)
    requires n <= |steps|
    ensures State(steps, n).closed <==> Close in steps[..n]
    ensures var p := State(steps, n);
            p.lanes == [] ==> Take(p) == (p, if Close in steps[..n] then TakeClosed else Waits)
  {
    if n > 0 {
      hide State, Next;
      ClosedForEver(steps, n - 1);
      StateStep(steps, n - 1);
      StepCloses(State(steps, n - 1), steps[n - 1]);
      CloseAmong(steps, n);
    }
  }

  lemma CloseAmong(steps: seq<Step>, n: nat)
    requires 0 < n <= |steps|
    ensures Close in steps[..n] <==> Close in steps[..n - 1] || steps[n - 1] == Close
  {
    assert steps[..n] == steps[..n - 1] + [steps[n - 1]];
  }

  lemma StepCloses(p: Pool, step: Step)
    ensures Next(p, step).closed <==> p.closed || step == Close
  {
    hide Remember;
  }

  /** Resetting the idle connections drops exactly the queued lanes. */
  lemma ResetDropsQueued(steps: seq<Step>, n: nat)
    requires n < |steps| && steps[n] == ResetIdle
    ensures var p, q := State(steps, n), State(steps, n + 1);
            && q.lanes == [] && q.dropped == p.dropped + |p.lanes| && q.taken == p.taken && q.accepted == p.accepted
            && q.active == p.active && q.retired == p.retired && q.closed == p.closed
  {
    hide State, Insert;
    StateStep(steps, n);
  }

  lemma StateStep(steps: seq<Step>, n: nat)
    requires n < |steps|
    ensures State(steps, n + 1) == Next(State(steps, n), steps[n])
  {
    hide Next;
  }

  // ----- The pool as an object --------------------------------------------

  class LanePoolState {
    var lanes: seq<Lane>
    var activeInstance: Option<Instance>
    var retiredInstances: seq<Instance>
    var closed: bool
    ghost var accepted: seq<Lane>
    ghost var gone: nat
    ghost var taken: seq<nat>
    ghost var dropped: nat
    ghost var replaced: seq<Instance>

    ghost function View(): Pool reads this {
      Pool(lanes, activeInstance, retiredInstances, closed, accepted, gone, taken, dropped, replaced)
    }

    constructor ()
      ensures View() == New
    {
      lanes, activeInstance, retiredInstances, closed := [], None, [], false;
      accepted, gone, taken, dropped, replaced := [], 0, [], 0, [];
    }

    method InsertLane(lane: Lane, sawClosed: bool) returns (outcome: InsertOutcome)
      modifies this
      ensures (View(), outcome) == Insert(old(View()), lane, sawClosed)
    {
      if sawClosed {
        return PoolClosed;
      }
      if lane.instance in retiredInstances {
        return InstanceRetired;
      }
      outcome := Added;
      if activeInstance.Some? && activeInstance.value != lane.instance {
        var previous := activeInstance.value;
        var droppedLanes := ResetIdleConnections();
        retiredInstances := retiredInstances + [previous];
        if |retiredInstances| > MAX_RETIRED {
          retiredInstances := retiredInstances[1..];
        }
        replaced := replaced + [previous];
        outcome := Replaced(previous, droppedLanes);
      }
      activeInstance := Some(lane.instance);
      lanes := lanes + [lane];
      accepted := accepted + [lane];
    }

    method ResetIdleConnections() returns (droppedLanes: nat)
      modifies this
      ensures View() == DropQueued(old(View())) && droppedLanes == |old(lanes)|
    {
      droppedLanes := |lanes|;
      gone, dropped := gone + |lanes|, dropped + |lanes|;
      lanes := [];
    }

    method TakeLane() returns (outcome: TakeOutcome)
      modifies this
      ensures (View(), outcome) == Take(old(View()))
    {
      if lanes != [] {
        outcome := Taken(lanes[0]);
        lanes := lanes[1..];
        taken, gone := taken + [gone], gone + 1;
      } else if closed {
        outcome := TakeClosed;
      } else {
        outcome := Waits;
      }
    }

    method ClosePool()
      modifies this
      ensures View() == old(View()).(closed := true)
    {
      closed := true;
    }
  }
}
