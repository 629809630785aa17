/** How the broker replaces the HTTP client of a daemon after timeouts
    (`client.rs`). The recovery lock lets one caller rebuild at a time; while it
    builds, other requests may still report success. Each critical section is
    one step, and a run is any interleaving of steps. */
module TimeoutRecovery {
  import opened Common

  const TIMEOUTS_BEFORE_RESET: nat := 2
  const U8_MAX: nat := 255

  /** `rebuilding` holds the generation that the holder of the recovery lock is
      about to replace, while its new client is being built. */
  datatype Connection = Connection(client: nat, generation: nat, timeouts: nat, rebuilding: Option<nat>)

  datatype Step =
    | Success(generation: nat)
    | Timeout(expected: Option<nat>)
    | BuildFailed
    | BuildDone(client: nat)

  datatype Outcome = Deferred(timeouts: nat) | Superseded | Building | Reset

  function Initial(client: nat): Connection {
    Connection(client, 0, 0, None)
  }

  function WrappingInc(n: nat): nat {
    if n >= U64_MAX then 0 else n + 1
  }

  function RecordSuccess(c: Connection, generation: nat): Connection {
    if c.generation == generation then c.(timeouts := 0) else c
  }

  predicate IsStale(c: Connection, expected: Option<nat>) {
    expected.Some? && c.generation != expected.value
  }

  /** The first critical section of `recover_after_timeout`. */
  function Begin(c: Connection, expected: Option<nat>): (Connection, Outcome) {
    if IsStale(c, expected) then (c, Superseded)
    else
      var c' := c.(timeouts := SaturatingAdd(c.timeouts, 1, U8_MAX));
      if c'.timeouts < TIMEOUTS_BEFORE_RESET then (c', Deferred(c'.timeouts))
      else (c'.(rebuilding := Some(c.generation)), Building)
  }

  /** The second one, with the client just built. */
  function Finish(c: Connection, client: nat): (Connection, Outcome)
    requires c.rebuilding.Some?
  {
    if c.generation != c.rebuilding.value || c.timeouts < TIMEOUTS_BEFORE_RESET
    then (c.(rebuilding := None), Superseded)
    else (Connection(client, WrappingInc(c.generation), 0, None), Reset)
  }

  /** A timeout needs the recovery lock; a build ends only once it has begun. */
  predicate Enabled(c: Connection, step: Step) {
    match step
    case Success(_) => true
    case Timeout(_) => c.rebuilding.None?
    case _ => c.rebuilding.Some?
  }

  function Next(c: Connection, step: Step): Connection {
    if !Enabled(c, step) then c
    else
      match step
      case Success(generation) => RecordSuccess(c, generation)
      case Timeout(expected) => Begin(c, expected).0
      case BuildFailed => c.(rebuilding := None)
      case BuildDone(client) => Finish(c, client).0
  }

  // ----- Runs -------------------------------------------------------------

  /** The connection after the first `n` steps. */
  function State(client: nat, steps: seq<Step>, n: nat): Connection
    requires n <= |steps|
  {
    if n == 0 then Initial(client) else Next(State(client, steps, n - 1), steps[n - 1])
  }

  predicate Legal(client: nat, steps: seq<Step>) {
    forall n :: 0 <= n < |steps| ==> Enabled(State(client, steps, n), steps[n])
  }

  /** Step `n` counts a timeout. */
  predicate Counts(client: nat, steps: seq<Step>, n: nat)
    requires n < |steps|
  {
    StepCounts(State(client, steps, n), steps[n])
  }

  /** Step `n` is a success of the current generation. */
  predicate Succeeds(client: nat, steps: seq<Step>, n: nat)
    requires n < |steps|
  {
    StepSucceeds(State(client, steps, n), steps[n])
  }

  /** Step `n` installs a new client. */
  predicate Resets(client: nat, steps: seq<Step>, n: nat)
    requires n < |steps|
  {
    StepResets(State(client, steps, n), steps[n])
  }

  predicate Clears(client: nat, steps: seq<Step>, n: nat)
    requires n < |steps|
  {
    Succeeds(client, steps, n) || Resets(client, steps, n)
  }

  /** The timeouts counted by steps `from` to `to`. */
  function Counted(client: nat, steps: seq<Step>, from: nat, to: nat): nat
    requires from <= to <= |steps|
  {
    if from == to then 0
    else Counted(client, steps, from, to - 1) + (if Counts(client, steps, to - 1) then 1 else 0)
  }

  /** The resets of the first `n` steps. */
  function ResetCount(client: nat, steps: seq<Step>, n: nat): nat
    requires n <= |steps|
  {
    if n == 0 then 0 else ResetCount(client, steps, n - 1) + (if Resets(client, steps, n - 1) then 1 else 0)
  }

  // ----- One step ---------------------------------------------------------

  /** The request carried no generation, or the current one. */
  predicate StepCounts(c: Connection, step: Step) {
    step.Timeout? && (step.expected.None? || step.expected.value == c.generation)
  }

  predicate StepSucceeds(c: Connection, step: Step) {
    step.Success? && step.generation == c.generation
  }

  predicate StepResets(c: Connection, step: Step) {
    step.BuildDone? && c.rebuilding.Some? && Finish(c, step.client).1 == Reset
  }

  /** The builder replaces the current generation, and the fields fit their types. */
  predicate Consistent(c: Connection) {
    && (c.rebuilding.Some? ==> c.rebuilding.value == c.generation)
    && c.timeouts <= U8_MAX && c.generation <= U64_MAX
  }

  lemma OneStep(c: Connection, step: Step)
    requires Consistent(c) && Enabled(c, step)
    ensures var c' := Next(c, step);
            && Consistent(c')
            && c'.generation == (if StepResets(c, step) then WrappingInc(c.generation) else c.generation)
            && c'.timeouts == (if StepSucceeds(c, step) || StepResets(c, step) then 0
                               else if StepCounts(c, step) then SaturatingAdd(c.timeouts, 1, U8_MAX)
                               else c.timeouts)
            && c'.client == (if StepResets(c, step) then step.client else c.client)
            && (c'.rebuilding.Some? && c.rebuilding.None? ==>
                  StepCounts(c, step) && TIMEOUTS_BEFORE_RESET <= c'.timeouts)
  {
  }

  lemma StateZero(client: nat, steps: seq<Step>)
    ensures State(client, steps, 0) == Initial(client)
  {
  }

  lemma StateStep(client: nat, steps: seq<Step>, n: nat)
    requires Legal(client, steps) && 0 < n <= |steps|
    ensures State(client, steps, n) == Next(State(client, steps, n - 1), steps[n - 1])
    ensures Enabled(State(client, steps, n - 1), steps[n - 1])
  {
  }

  // ----- What every run keeps ---------------------------------------------

  /** The generation cannot change while a client is being built. */
  lemma {:induction false} BuildsForItsGeneration(client: nat, steps: seq<Step>, n: nat)
    requires Legal(client, steps) && n <= |steps|
    ensures Consistent(State(client, steps, n))
  {
    hide State, Next, Enabled;
    if n == 0 {
      StateZero(client, steps);
    } else {
      BuildsForItsGeneration(client, steps, n - 1);
      StateStep(client, steps, n);
      OneStep(State(client, steps, n - 1), steps[n - 1]);
    }
  }

  /** What step `n - 1` did to the state of the run. */
  lemma RunStep(client: nat, steps: seq<Step>, n: nat)
    requires Legal(client, steps) && 0 < n <= |steps|
    ensures var c, c' := State(client, steps, n - 1), State(client, steps, n);
            && c'.generation == (if Resets(client, steps, n - 1) then WrappingInc(c.generation) else c.generation)
            && c'.timeouts == (if Clears(client, steps, n - 1) then 0
                               else if Counts(client, steps, n - 1) then SaturatingAdd(c.timeouts, 1, U8_MAX)
                               else c.timeouts)
            && (c'.rebuilding.Some? && c.rebuilding.None? ==>
                  Counts(client, steps, n - 1) && TIMEOUTS_BEFORE_RESET <= c'.timeouts)
  {
    hide State, Next, Enabled, Consistent;
    BuildsForItsGeneration(client, steps, n - 1);
    StateStep(client, steps, n);
    OneStep(State(client, steps, n - 1), steps[n - 1]);
  }

  /** The counter is the number of timeouts counted since the last success or
      reset of the current generation, up to 255. */
  lemma {:induction false} CounterIsCapped(client: nat, steps: seq<Step>, from: nat, n: nat)
    requires Legal(client, steps) && from <= n <= |steps|
    requires from == 0 || Clears(client, steps, from - 1)
    requires forall m :: from <= m < n ==> !Clears(client, steps, m)
    ensures var counted := Counted(client, steps, from, n);
            State(client, steps, n).timeouts == if counted > 255 then 255 else counted
  {
    hide State, Clears, Counts, Legal;
    if n == 0 {
      StateZero(client, steps);
    } else {
      RunStep(client, steps, n);
      if from < n {
        CounterIsCapped(client, steps, from, n - 1);
      }
    }
  }

  /** Such a last clearing step always exists, or there was none. */
  lemma {:induction false} LastClear(client: nat, steps: seq<Step>, n: nat) returns (from: nat)
    requires n <= |steps|
    ensures from <= n && (from == 0 || Clears(client, steps, from - 1))
    ensures forall m :: from <= m < n ==> !Clears(client, steps, m)
  {
    if n == 0 || Clears(client, steps, n - 1) {
      from := n;
    } else {
      from := LastClear(client, steps, n - 1);
    }
  }

  /** The last timeout counted before step `n`, when one was. */
  lemma {:induction false} LastCounted(client: nat, steps: seq<Step>, from: nat, n: nat) returns (k: nat)
    requires from <= n <= |steps| && Counted(client, steps, from, n) > 0
    ensures from <= k < n && Counts(client, steps, k)
    ensures Counted(client, steps, from, k) == Counted(client, steps, from, n) - 1
  {
    if Counts(client, steps, n - 1) {
      k := n - 1;
    } else {
      k := LastCounted(client, steps, from, n - 1);
    }
  }

  /** Between clearing steps the generation stands still. */
  lemma {:induction false} SameGeneration(client: nat, steps: seq<Step>, from: nat, n: nat)
    requires Legal(client, steps) && from <= n <= |steps|
    requires forall m :: from <= m < n ==> !Clears(client, steps, m)
    ensures State(client, steps, n).generation == State(client, steps, from).generation
    decreases n
  {
    hide State, Legal, Succeeds, Resets;
    if from < n {
      RunStep(client, steps, n);
      assert !Clears(client, steps, n - 1);
      SameGeneration(client, steps, from, n - 1);
    }
  }

  /** A reset is preceded by two counted timeouts of the generation it replaces,
      with no success of that generation and no reset since the first of them. */
  lemma ResetNeedsTwoTimeouts(client: nat, steps: seq<Step>, n: nat) returns (i: nat, j: nat)
    requires Legal(client, steps) && n < |steps| && Resets(client, steps, n)
    ensures i < j < n && Counts(client, steps, i) && Counts(client, steps, j)
    ensures State(client, steps, i).generation == State(client, steps, n).generation
    ensures State(client, steps, j).generation == State(client, steps, n).generation
    ensures forall m :: i <= m < n ==> !Clears(client, steps, m)
  {
    var from := LastClear(client, steps, n);
    CounterIsCapped(client, steps, from, n);
    j := LastCounted(client, steps, from, n);
    i := LastCounted(client, steps, from, j);
    SameGeneration(client, steps, i, n);
    SameGeneration(client, steps, j, n);
  }

  /** Reports that carry another generation than the current one change nothing. */
  lemma StaleChangesNothing(c: Connection, step: Step)
    requires (step.Success? && step.generation != c.generation) || (step.Timeout? && IsStale(c, step.expected))
    ensures Next(c, step) == c
  {
  }

  // ----- A rebuild and what can overtake it -------------------------------

  /** Step `start` began the build that is still under way before step `n`. */
  predicate BuildBegan(client: nat, steps: seq<Step>, start: nat, n: nat)
    requires start < n <= |steps|
  {
    && Counts(client, steps, start)
    && (forall m :: start < m <= n ==> State(client, steps, m).rebuilding.Some?)
    && State(client, steps, start).rebuilding.None?
  }

  lemma {:induction false} BuildHasBegun(client: nat, steps: seq<Step>, n: nat) returns (start: nat)
    requires Legal(client, steps) && n <= |steps| && State(client, steps, n).rebuilding.Some?
    ensures start < n && BuildBegan(client, steps, start, n)
  {
    hide State, Legal, Counts;
    StateZero(client, steps);
    RunStep(client, steps, n);
    if State(client, steps, n - 1).rebuilding.Some? {
      start := BuildHasBegun(client, steps, n - 1);
    } else {
      start := n - 1;
    }
  }

  /** While a build is under way no timeout is counted and nothing is reset. */
  lemma BuildGoesOn(client: nat, steps: seq<Step>, n: nat)
    requires Legal(client, steps) && n < |steps|
    requires State(client, steps, n).rebuilding.Some? && State(client, steps, n + 1).rebuilding.Some?
    ensures !Counts(client, steps, n) && !Resets(client, steps, n)
  {
    hide State;
    StateStep(client, steps, n + 1);
  }

  /** So the counter only falls, and only by a success. */
  lemma {:induction false} DuringBuild(client: nat, steps: seq<Step>, start: nat, n: nat)
    requires Legal(client, steps) && start < n <= |steps| && BuildBegan(client, steps, start, n)
    ensures State(client, steps, n).timeouts < TIMEOUTS_BEFORE_RESET <==>
              exists m :: start < m < n && Succeeds(client, steps, m)
  {
    hide State, Legal, Counts, Succeeds, Resets;
    RunStep(client, steps, n);
    if start + 1 < n {
      DuringBuild(client, steps, start, n - 1);
      BuildGoesOn(client, steps, n - 1);
      if Succeeds(client, steps, n - 1) {
        assert start < n - 1 < n;
      }
    } else {
      BuildCleared(client, steps, start);
    }
  }

  /** The step that begins a build clears nothing. */
  lemma BuildCleared(client: nat, steps: seq<Step>, start: nat)
    requires start < |steps| && Counts(client, steps, start)
    ensures !Clears(client, steps, start)
  {
  }

  /** When the new client is ready it is installed, unless a request of the
      current generation succeeded while it was being built: nothing else can
      overtake a rebuild. */
  lemma SupersededExactlyBySuccess(client: nat, steps: seq<Step>, n: nat) returns (start: nat)
    requires Legal(client, steps) && n < |steps| && steps[n].BuildDone?
    ensures start < n && BuildBegan(client, steps, start, n)
    ensures Resets(client, steps, n) <==> !exists m :: start < m < n && Succeeds(client, steps, m)
    ensures var c := State(client, steps, n);
            State(client, steps, n + 1) ==
              if Resets(client, steps, n) then Connection(steps[n].client, (c.generation + 1) % 0x1_0000_0000_0000_0000, 0, None)
              else c.(rebuilding := None)
  {
    hide State, Legal, Counts, Succeeds, WrappingInc;
    StateStep(client, steps, n + 1);
    start := BuildHasBegun(client, steps, n);
    DuringBuild(client, steps, start, n);
    BuildsForItsGeneration(client, steps, n);
    WrapsAround(State(client, steps, n).generation);
  }

  lemma WrapsAround(generation: nat)
    requires generation <= U64_MAX
    ensures WrappingInc(generation) == (generation + 1) % 0x1_0000_0000_0000_0000
  {
  }

  /** A counted timeout begins a rebuild of the current generation exactly when it
      is the second or a later one since the last success or reset; the first
      one is only counted. Any other timeout is stale. */
  lemma SecondTimeoutRebuilds(client: nat, steps: seq<Step>, from: nat, n: nat)
    requires Legal(client, steps) && from <= n < |steps| && steps[n].Timeout?
    requires from == 0 || Clears(client, steps, from - 1)
    requires forall m :: from <= m < n ==> !Clears(client, steps, m)
    ensures var c := State(client, steps, n);
            var outcome := Begin(c, steps[n].expected).1;
            if !Counts(client, steps, n) then outcome == Superseded && State(client, steps, n + 1) == c
            else if Counted(client, steps, from, n) == 0 then outcome == Deferred(1) && State(client, steps, n + 1).rebuilding.None?
            else outcome == Building && State(client, steps, n + 1).rebuilding == Some(c.generation)
  {
    hide State, Clears, Counted;
    CounterIsCapped(client, steps, from, n);
    StateStep(client, steps, n + 1);
  }

  /** A client that cannot be built leaves everything as it is, and the next
      counted timeout tries again. */
  lemma FailedBuildChangesNothing(client: nat, steps: seq<Step>, n: nat)
    requires Legal(client, steps) && n < |steps| && steps[n].BuildFailed?
    ensures State(client, steps, n + 1) == State(client, steps, n).(rebuilding := None)
    ensures State(client, steps, n).rebuilding.Some?
  {
    hide State;
    StateStep(client, steps, n + 1);
  }

  // ----- One reset per generation -----------------------------------------

  /** The generation counts the resets, modulo 2^64. */
  lemma {:induction false} GenerationCountsResets(client: nat, steps: seq<Step>, n: nat)
    requires Legal(client, steps) && n <= |steps|
    ensures State(client, steps, n).generation == ResetCount(client, steps, n) % (U64_MAX + 1)
  {
    hide State, Legal, Resets, Clears, Counts;
    if n == 0 {
      StateZero(client, steps);
    } else {
      GenerationCountsResets(client, steps, n - 1);
      RunStep(client, steps, n);
      NextRound(ResetCount(client, steps, n - 1));
    }
  }

  lemma NextRound(n: nat)
    ensures (n + 1) % (U64_MAX + 1) == WrappingInc(n % (U64_MAX + 1))
  {
  }

  lemma {:induction false} ResetCountGrows(client: nat, steps: seq<Step>, i: nat, j: nat)
    requires i < j <= |steps| && Resets(client, steps, i)
    ensures ResetCount(client, steps, i) < ResetCount(client, steps, j)
    decreases j
  {
    if i + 1 < j {
      ResetCountGrows(client, steps, i, j - 1);
    }
  }

  /** However many requests time out with the same generation, they cause one
      reset: a second reset of a generation is possible only after the 64-bit
      number has gone all the way round. */
  lemma OneResetPerGeneration(client: nat, steps: seq<Step>, i: nat, j: nat)
    requires Legal(client, steps) && i < j < |steps|
    requires Resets(client, steps, i) && Resets(client, steps, j)
    requires State(client, steps, i).generation == State(client, steps, j).generation
    ensures ResetCount(client, steps, j) - ResetCount(client, steps, i) >= U64_MAX + 1
  {
    GenerationCountsResets(client, steps, i);
    GenerationCountsResets(client, steps, j);
    ResetCountGrows(client, steps, i, j);
    ApartByARound(ResetCount(client, steps, i), ResetCount(client, steps, j));
  }

  lemma ApartByARound(a: nat, b: nat)
    requires a < b && a % (U64_MAX + 1) == b % (U64_MAX + 1)
    ensures b - a >= U64_MAX + 1
  {
  }

  lemma {:induction false} GenerationDuringBuild(client: nat, steps: seq<Step>, start: nat, n: nat)
    requires Legal(client, steps) && start < n <= |steps| && BuildBegan(client, steps, start, n)
    ensures State(client, steps, n).generation == State(client, steps, start).generation
  {
    hide State, Legal, Counts, Succeeds, Resets;
    RunStep(client, steps, n);
    if start + 1 < n {
      GenerationDuringBuild(client, steps, start, n - 1);
      BuildGoesOn(client, steps, n - 1);
    } else {
      BuildCleared(client, steps, start);
    }
  }

  /** The same for the requests: if two resets go back to timeouts of requests
      that carried the same generation, all generations lie between them. */
  lemma OneResetPerCarriedGeneration(
    client: nat, steps: seq<Step>, carried: nat, start: nat, i: nat, start': nat, j: nat)
    requires Legal(client, steps) && start < i < j < |steps| && start' < j
    requires BuildBegan(client, steps, start, i) && steps[start].expected == Some(carried)
    requires BuildBegan(client, steps, start', j) && steps[start'].expected == Some(carried)
    requires Resets(client, steps, i) && Resets(client, steps, j)
    ensures ResetCount(client, steps, j) - ResetCount(client, steps, i) >= U64_MAX + 1
  {
    hide State, Legal, Resets, ResetCount;
    GenerationDuringBuild(client, steps, start, i);
    GenerationDuringBuild(client, steps, start', j);
    OneResetPerGeneration(client, steps, i, j);
  }

  /** Once a generation has been replaced, whatever a request that carries it
      reports changes nothing, until the 64-bit number comes round again. */
  lemma ReplacedGenerationIsStale(client: nat, steps: seq<Step>, i: nat, n: nat)
    requires Legal(client, steps) && i < n < |steps| && Resets(client, steps, i)
    requires ResetCount(client, steps, n) - ResetCount(client, steps, i) < U64_MAX + 1
    requires var g := State(client, steps, i).generation; steps[n] == Success(g) || steps[n] == Timeout(Some(g))
    ensures State(client, steps, n + 1) == State(client, steps, n)
  {
    hide State, Legal, Resets, ResetCount;
    GenerationCountsResets(client, steps, i);
    GenerationCountsResets(client, steps, n);
    ResetCountGrows(client, steps, i, n);
    if State(client, steps, i).generation == State(client, steps, n).generation {
      ApartByARound(ResetCount(client, steps, i), ResetCount(client, steps, n));
    }
    StateStep(client, steps, n + 1);
    StaleChangesNothing(State(client, steps, n), steps[n]);
  }

  // ----- The connection as an object --------------------------------------

  class DaemonConnection {
    var client: nat
    var generation: nat
    var consecutiveTimeouts: nat
    /** The recovery lock: held by a rebuild of this generation. */
    ghost var rebuilding: Option<nat>

    ghost function View(): Connection reads this {
      Connection(client, generation, consecutiveTimeouts, rebuilding)
    }

    constructor (client: nat)
      ensures View() == Initial(client)
    {
      this.client, generation, consecutiveTimeouts, rebuilding := client, 0, 0, None;
    }

    method ReportSuccess(of: nat)
      modifies this
      ensures View() == RecordSuccess(old(View()), of)
    {
      if generation == of {
        consecutiveTimeouts := 0;
      }
    }

    /** Up to the build: the generation to replace, or the outcome. */
    method BeginRecovery(expected: Option<nat>) returns (recovery: Option<nat>, outcome: Outcome)
      requires rebuilding.None?
      modifies this
      ensures (View(), outcome) == Begin(old(View()), expected)
      ensures recovery == rebuilding
    {
      recovery := None;
      if expected.Some? && generation != expected.value {
        return None, Superseded;
      }
      consecutiveTimeouts := SaturatingAdd(consecutiveTimeouts, 1, U8_MAX);
      if consecutiveTimeouts < TIMEOUTS_BEFORE_RESET {
        return None, Deferred(consecutiveTimeouts);
      }
      rebuilding := Some(generation);
      return Some(generation), Building;
    }

    /** From the build on. */
    method FinishRecovery(recovery: nat, built: nat) returns (outcome: Outcome)
      requires rebuilding == Some(recovery)
      modifies this
      ensures (View(), outcome) == Finish(old(View()), built)
    {
      rebuilding := None;
      if generation != recovery || consecutiveTimeouts < TIMEOUTS_BEFORE_RESET {
        return Superseded;
      }
      client := built;
      generation := WrappingInc(generation);
      consecutiveTimeouts := 0;
      return Reset;
    }
  }
}
