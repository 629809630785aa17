/** What an epoch leaves reserved when it ends. The next epoch starts with empty
    maps, so a slot that its last event does not settle stays reserved. */
module TcpExits {
  import opened Common
  import opened Frames
  import opened StreamIds
  import opened ForwardEntries
  import opened TcpBridge
  import opened TcpInvariants
  import opened TcpRuns
  import opened TcpEndings

  /** The pairs that event `e` does not end, told by the state before it. */
  ghost function Survivors(env: Env, s: Bridge, e: Event): set<nat> {
    set c | c in s.connectStreams && !EndsPair(env, s, e, c)
  }

  lemma SurvivorsAreLive(env: Env, s: Bridge, e: Event)
    requires LegalEnv(env)
    requires Wired(env, s.listenToConnect, s.connectStreams, s.totalBytes)
    requires !Handle(env, s, e).outcome.Continue?
    ensures Handle(env, s, e).bridge.connectStreams.Keys == Survivors(env, s, e)
  {
    hide Wired, LegalEnv, Handle, EndsPair;
    LastEventAddsNoPair(env, s, e);
    forall c | c in s.connectStreams
      ensures c !in Handle(env, s, e).bridge.connectStreams <==> EndsPair(env, s, e, c)
    {
      PairEndsExactly(env, s, e, c);
    }
  }

  lemma WiredOf(env: Env, base: nat, cap: nat, s: Bridge)
    requires Sound(env, base, cap, s)
    ensures Wired(env, s.listenToConnect, s.connectStreams, s.totalBytes)
    ensures Paired(s.listenToConnect, s.connectStreams)
  {
    hide Paired, Budgeted;
  }

  /** An epoch that ends with event `e` leaves reserved, beyond the slots it
      started with, exactly one slot for each pair that `e` does not end. */
  lemma SlotsLeftAtExit(env: Env, entry: ForwardPortEntry, events: seq<Event>, e: Event)
    requires LegalEnv(env)
    requires FreshAccepts(env, entry, events + [e])
    requires Run(env, entry, events).outcome.Continue?
    requires !Run(env, entry, events + [e]).outcome.Continue?
    ensures Run(env, entry, events + [e]).bridge.entry.activeTcpStreams
         == entry.activeTcpStreams + |Survivors(env, Run(env, entry, events).bridge, e)|
  {
    FreshPrefix(env, entry, events, e);
    hide Run, Sound, Exact, Handle, LegalEnv, FreshAccepts, Wired, Survivors, EndsPair;
    RunKeeps(env, entry, events);
    SlotsConserved(env, entry, events + [e]);
    RunOneMore(env, entry, events, e);
    var s, s' := Run(env, entry, events).bridge, Run(env, entry, events + [e]).bridge;
    WiredOf(env, entry.activeTcpStreams, Cap(env, entry), s);
    SurvivorsAreLive(env, s, e);
    assert |s'.connectStreams| == |s'.connectStreams.Keys|;
  }

  lemma FreshPrefix(env: Env, entry: ForwardPortEntry, events: seq<Event>, e: Event)
    requires LegalEnv(env)
    requires FreshAccepts(env, entry, events + [e])
    ensures FreshAccepts(env, entry, events)
  {
    hide Run, LegalEnv;
    forall n | 0 <= n < |events|
      ensures FreshAccept(Run(env, entry, events[..n]).bridge, events[n])
    {
      assert (events + [e])[..n] == events[..n] && (events + [e])[n] == events[n];
    }
  }

  /** So the epoch gives all its slots back exactly when its last event drops
      every pair, or no pair is live, or it ends the only live one. */
  lemma AllSlotsReturnedExactly(env: Env, entry: ForwardPortEntry, events: seq<Event>, e: Event)
    requires LegalEnv(env)
    requires FreshAccepts(env, entry, events + [e])
    requires Run(env, entry, events).outcome.Continue?
    requires !Run(env, entry, events + [e]).outcome.Continue?
    ensures var s := Run(env, entry, events).bridge;
            Run(env, entry, events + [e]).bridge.entry.activeTcpStreams == entry.activeTcpStreams <==>
              || DropsEveryPair(env, s, e)
              || s.connectStreams == map[]
              || exists c :: c in s.connectStreams && s.connectStreams.Keys == {c} && EndsPair(env, s, e, c)
  {
    FreshPrefix(env, entry, events, e);
    SlotsLeftAtExit(env, entry, events, e);
    RunKeeps(env, entry, events);
    hide Run, Sound, Exact, LegalEnv, FreshAccepts, Wired, DropsEveryPair, Paired;
    var s := Run(env, entry, events).bridge;
    WiredOf(env, entry.activeTcpStreams, Cap(env, entry), s);
    NobodySurvives(env, s, e);
  }

  lemma NobodySurvives(env: Env, s: Bridge, e: Event)
    requires Paired(s.listenToConnect, s.connectStreams)
    ensures Survivors(env, s, e) == {} <==>
              || DropsEveryPair(env, s, e)
              || s.connectStreams == map[]
              || exists c :: c in s.connectStreams && s.connectStreams.Keys == {c} && EndsPair(env, s, e, c)
  {
    hide DropsEveryPair, Overflows, ClosedByPeer, Completes, Paired;
    if Survivors(env, s, e) == {} && !DropsEveryPair(env, s, e) && s.connectStreams != map[] {
      var c :| c in s.connectStreams;
      forall d | d in s.connectStreams
        ensures d == c && EndsPair(env, s, e, c)
      {
        assert d !in Survivors(env, s, e) && c !in Survivors(env, s, e);
        EndsOnePair(env, s, e, c, d);
      }
      assert s.connectStreams.Keys == {c};
    }
  }

  // ----- Exits that leave slots behind ------------------------------------

  /** Losing the listen tunnel: one accepted connection and then the loss leaves
      its slot reserved. */
  lemma ListenLossKeepsSlots(env: Env, entry: ForwardPortEntry, f: Frame)
    requires LegalEnv(env)
    requires f.frameType.TcpAccept? && env.acceptDecodes(f)
    requires entry.activeTcpStreams < env.limits.maxActiveTcpStreams
    requires env.net(0).Sent?
    ensures var r := Run(env, entry, [ListenFrame(f), ListenLost]);
            && r.outcome == Recover(Listen)
            && r.bridge.entry.activeTcpStreams == entry.activeTcpStreams + 1
  {
    RunTwo(env, entry, ListenFrame(f), ListenLost);
  }

  lemma RunTwo(env: Env, entry: ForwardPortEntry, first: Event, second: Event)
    requires LegalEnv(env)
    ensures var before := Handle(env, Initial(entry), first);
            Run(env, entry, [first, second]) == if before.outcome.Continue? then Handle(env, before.bridge, second) else before
  {
    hide Handle, LegalEnv;
    RunOneMore(env, entry, [], first);
    RunOneMore(env, entry, [first], second);
    assert [] + [first] == [first] && [first] + [second] == [first, second];
  }

  /** Losing the connect tunnel, when that is found out while opening a stream:
      two connections are accepted, the request for the second one meets the
      loss, and the slot of the first stays reserved. */
  lemma OpenLossKeepsSlots(env: Env, entry: ForwardPortEntry, f: Frame, g: Frame)
    requires LegalEnv(env)
    requires f.frameType.TcpAccept? && env.acceptDecodes(f)
    requires g.frameType.TcpAccept? && env.acceptDecodes(g) && f.streamId != g.streamId
    requires entry.activeTcpStreams + 1 < env.limits.maxActiveTcpStreams
    requires env.net(0).Sent? && env.net(1).Retryable? && env.net(2).Sent?
    ensures FreshAccepts(env, entry, [ListenFrame(f), ListenFrame(g)])
    ensures var r := Run(env, entry, [ListenFrame(f), ListenFrame(g)]);
            && r.outcome == Recover(Connect)
            && r.bridge.entry.activeTcpStreams == entry.activeTcpStreams + 1
  {
    hide Run, Handle, LegalEnv, Initial;
    var events := [ListenFrame(f), ListenFrame(g)];
    var s := Handle(env, Initial(entry), events[0]).bridge;
    FirstAccept(env, entry, f);
    RefusedAccept(env, s, g);
    RunTwo(env, entry, events[0], events[1]);
    RunOneMore(env, entry, [], events[0]);
    RunNone(env, entry);
    assert events[..0] == [] && events[..1] == [] + [events[0]];
    forall n | 0 <= n < |events|
      ensures FreshAccept(Run(env, entry, events[..n]).bridge, events[n])
    {
    }
  }

  lemma RunNone(env: Env, entry: ForwardPortEntry)
    requires LegalEnv(env)
    ensures Run(env, entry, []) == Step(Initial(entry), Continue) && Initial(entry).listenToConnect == map[]
  {
  }

  /** The first connection of an epoch gets its pair. */
  lemma FirstAccept(env: Env, entry: ForwardPortEntry, f: Frame)
    requires LegalEnv(env)
    requires f.frameType.TcpAccept? && env.acceptDecodes(f)
    requires entry.activeTcpStreams < env.limits.maxActiveTcpStreams && env.net(0).Sent?
    ensures var step := Handle(env, Initial(entry), ListenFrame(f));
            && step.outcome == Continue
            && step.bridge.listenToConnect.Keys == {f.streamId}
            && step.bridge.attempts == 1 && !step.bridge.ids.exhausted
            && step.bridge.entry == entry.(activeTcpStreams := entry.activeTcpStreams + 1)
  {
    hide LegalEnv, CloseActive;
  }

  /** A connection whose open request meets the loss of the connect tunnel. */
  lemma RefusedAccept(env: Env, s: Bridge, g: Frame)
    requires LegalEnv(env)
    requires g.frameType.TcpAccept? && env.acceptDecodes(g)
    requires s.entry.activeTcpStreams < env.limits.maxActiveTcpStreams && !s.ids.exhausted
    requires env.net(s.attempts).Retryable? && env.net(s.attempts + 1).Sent?
    ensures var step := Handle(env, s, ListenFrame(g));
            step.outcome == Recover(Connect) && step.bridge.entry.activeTcpStreams == s.entry.activeTcpStreams
  {
    hide LegalEnv, CloseActive;
  }

  /** The same loss found while closing a pair whose two half-closes are through:
      every other live pair keeps its slot. */
  lemma CompletionLossKeepsSlots(env: Env, base: nat, cap: nat, s: Bridge, f: Frame)
    requires LegalEnv(env) && Sound(env, base, cap, s)
    requires f.frameType.TcpEof? && f.streamId in s.connectStreams && s.connectStreams[f.streamId].listenEof
    requires env.net(s.attempts).Sent? && env.net(s.attempts + 1).Retryable? && env.net(s.attempts + 2).Sent?
    ensures var step := Handle(env, s, ConnectFrame(f));
            && step.outcome == Recover(Connect)
            && step.bridge.entry.activeTcpStreams == base + |s.connectStreams| - 1
  {
    hide LegalEnv, Paired, Budgeted, Tracked, Untouched, Prefixes;
  }
}
