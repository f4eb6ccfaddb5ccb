/** What the datapath does not promise, each with the run that shows it. */
module DatapathLimits {
  import opened Options
  import opened Ulongs
  import opened FilterModule
  import opened Datapath
  import opened DatapathInvariants
  import opened DatapathTheorems
  import opened ReceiveCounts

  lemma StepOn(s: System, step: Step, rest: seq<Step>)
    requires Enabled(s, step) && Legal(Apply(s, step), rest)
    ensures Legal(s, [step] + rest)
    ensures After(s, [step] + rest) == After(Apply(s, step), rest)
  {
    assert ([step] + rest)[1..] == rest;
  }

  const PAUSE: seq<Step> := [Control, Control, Control]

  /** One step of FilterPause. */
  lemma PauseStep(s: System)
    requires s.ndis == NdisRunning || s.ndis == NdisCallingPause || s.ndis == NdisAwaitingPause
    ensures var s' := Administer(s);
            && s'.threads == s.threads && s'.log == s.log && s'.sendLower == s.sendLower
            && s'.filter == s.filter.(state := s'.filter.state)
            && (s.ndis == NdisRunning ==> s'.ndis == NdisCallingPause)
            && (s.ndis == NdisCallingPause ==> s'.ndis == NdisAwaitingPause)
            && (s.ndis == NdisAwaitingPause ==> s'.ndis == NdisPaused && s'.filter.state == FilterPaused)
  {
  }

  /**
   * FilterPause waits for nothing: it succeeds at once and leaves both counters and every
   * activation as they were, so "paused" implies "nothing outstanding" only if that held before.
   */
  lemma PauseWaitsForNothing(s: System)
    requires s.ndis == NdisRunning
    ensures Legal(s, PAUSE)
    ensures var s' := After(s, PAUSE);
            && s'.ndis == NdisPaused && s'.filter == s.filter.(state := FilterPaused)
            && s'.threads == s.threads && s'.log == s.log && s'.sendLower == s.sendLower
  {
    hide Administer;
    var s1 := Administer(s);
    var s2 := Administer(s1);
    PauseStep(s);
    PauseStep(s1);
    PauseStep(s2);
    StepOn(s2, Control, []);
    StepOn(s1, Control, [Control]);
    StepOn(s, Control, [Control, Control]);
    assert PAUSE == [Control] + [Control, Control] && [Control, Control] == [Control] + [Control];
    hide Legal, After;
  }

  lemma {:induction false} Compose(s: System, a: seq<Step>, b: seq<Step>)
    requires Legal(s, a) && Legal(After(s, a), b)
    ensures Legal(s, a + b) && After(s, a + b) == After(After(s, a), b)
    decreases |a|
  {
    hide Apply, Enabled;
    if a == [] {
      assert a + b == b;
    } else {
      Compose(Apply(s, a[0]), a[1..], b);
      assert (a + b)[1..] == a[1..] + b;
    }
  }

  lemma TwoSteps(s: System, first: Step, second: Step)
    requires Enabled(s, first) && Enabled(Apply(s, first), second)
    ensures Legal(s, [first, second]) && After(s, [first, second]) == Apply(Apply(s, first), second)
  {
    hide Apply, Enabled;
    StepOn(Apply(s, first), second, []);
    StepOn(s, first, [second]);
    assert [first, second] == [first] + [second];
  }

  lemma OneStep(s: System, step: Step)
    requires Enabled(s, step)
    ensures Legal(s, [step]) && After(s, [step]) == Apply(s, step)
  {
    StepOn(s, step, []);
  }

  lemma SendCountedNext(s: System, t: nat)
    requires t < |s.threads| && s.threads[t].stage == SendAdmitted
    ensures Continue(s, t) == s.(threads := s.threads[t := s.threads[t].(stage := SendCounted)],
                                 filter := s.filter.CountSends(|s.threads[t].chain|))
  {
  }

  lemma SendForwardedNext(s: System, t: nat)
    requires t < |s.threads| && s.threads[t].stage == SendCounted
    ensures var s' := Continue(s, t);
            && s'.filter == s.filter && s'.ndis == s.ndis
            && |s'.log| == |s.log| + 1 && s'.log[..|s.log|] == s.log
            && s'.log[|s.log|].call == Forward && s'.log[|s.log|].chain == s.threads[t].chain
            && multiset(s.threads[t].chain) <= s'.sendLower
  {
    hide Next;
  }

  /** An admitted send is counted and handed down whatever State has become since. */
  lemma {:induction false} AdmittedSendPasses(s: System, t: nat)
    requires t < |s.threads| && s.threads[t].stage == SendAdmitted
    ensures Legal(s, [Run(t), Run(t)])
    ensures var s' := After(s, [Run(t), Run(t)]);
            && s'.filter == s.filter.CountSends(|s.threads[t].chain|)
            && |s'.log| == |s.log| + 1 && s'.log[..|s.log|] == s.log
            && s'.log[|s.log|].call == Forward && s'.log[|s.log|].chain == s.threads[t].chain
            && s'.ndis == s.ndis && multiset(s.threads[t].chain) <= s'.sendLower
  {
    SendCountedNext(s, t);
    SendForwardedNext(Continue(s, t), t);
    TwoSteps(s, Run(t), Run(t));
    hide Continue, Legal, After, Filter.CountSends;
  }

  /** Without DBG a send goes through in any lifecycle state. */
  lemma {:induction false} UngatedSendPasses(s: System, c: Chain)
    requires !s.dbg && c != [] && multiset(c) <= s.sendUpper
    ensures var t := |s.threads|;
            var steps := [CallHandler(Submit, c, false)] + [Run(t), Run(t)];
            && Legal(s, steps)
            && After(s, steps).filter == s.filter.CountSends(|c|)
            && |After(s, steps).log| == |s.log| + 2
            && After(s, steps).log[|s.log| + 1].call == Forward && After(s, steps).log[|s.log| + 1].chain == c
  {
    var submit := CallHandler(Submit, c, false);
    var t := |s.threads|;
    var s1 := Apply(s, submit);
    assert s1.threads[t] == Activity(SendAdmitted, c, false) && s1.filter == s.filter && |s1.log| == |s.log| + 1;
    OneStep(s, submit);
    hide Apply;
    AdmittedSendPasses(s1, t);
    Compose(s, [submit], [Run(t), Run(t)]);
  }

  // ---- OutstandingSends in a paused module ----

  /** A send that arrives at a running module is admitted. */
  lemma SendAdmittedWhenRunning(s: System, c: Chain) returns (steps: seq<Step>)
    requires s.filter.state == FilterRunning && c != [] && multiset(c) <= s.sendUpper
    ensures Legal(s, steps)
    ensures var s' := After(s, steps);
            && |s'.threads| == |s.threads| + 1
            && s'.threads[|s.threads|] == Activity(SendAdmitted, c, false)
            && s'.filter == s.filter && s'.ndis == s.ndis
  {
    var submit, t := CallHandler(Submit, c, false), |s.threads|;
    hide Transfer, Legal, After, Continue;
    SendArrives(s, c);
    if s.dbg {
      SendChecked(Apply(s, submit), t);
      steps := [submit, Run(t)];
      TwoSteps(s, submit, Run(t));
    } else {
      steps := [submit];
      OneStep(s, submit);
    }
  }

  lemma SendArrives(s: System, c: Chain)
    requires c != [] && multiset(c) <= s.sendUpper
    ensures var submit := CallHandler(Submit, c, false);
            && Enabled(s, submit)
            && var s' := Apply(s, submit);
               && s'.threads == s.threads + [Activity(if s.dbg then SendArrived else SendAdmitted, c, false)]
               && s'.filter == s.filter && s'.ndis == s.ndis
  {
    hide Shift;
  }

  lemma SendChecked(s: System, t: nat)
    requires t < |s.threads| && s.threads[t].stage == SendArrived && s.filter.state == FilterRunning
    ensures var s' := Continue(s, t);
            && s'.threads == s.threads[t := s.threads[t].(stage := SendAdmitted)]
            && s'.filter == s.filter && s'.ndis == s.ndis
  {
    hide Shift;
  }

  /** From any running state, a send and a pause can end in a paused module with that send below. */
  lemma PausedWithOutstandingSend(s: System, c: Chain)
    requires s.filter.state == FilterRunning && s.ndis == NdisRunning && s.filter.trackSends
    requires c != [] && multiset(c) <= s.sendUpper
    ensures exists steps :: Legal(s, steps)
                            && After(s, steps).ndis == NdisPaused && After(s, steps).filter.state == FilterPaused
                            && multiset(c) <= After(s, steps).sendLower
                            && After(s, steps).filter.outstandingSends == Wrap(s.filter.outstandingSends + |c|)
  {
    hide Legal, After, Filter.CountSends;
    var steps := SendAdmittedWhenRunning(s, c);
    var t := |s.threads|;
    var s1 := After(s, steps);
    AdmittedSendPasses(s1, t);
    PauseWaitsForNothing(After(s1, [Run(t), Run(t)]));
    Compose(s, steps, [Run(t), Run(t)]);
    Compose(s, steps + [Run(t), Run(t)], PAUSE);
    CountedSend(s.filter, |c|);
  }

  lemma CountedSend(f: Filter, n: nat)
    requires f.trackSends
    ensures f.CountSends(n).outstandingSends == Wrap(f.outstandingSends + n)
  {
  }

  // ---- The state assertions ----

  /** A lifecycle call fires its entry assertion exactly if the module is not in the state NDIS takes it to be in. */
  lemma {:induction false} StateAssertIff(s: System)
    ensures Legal(s, [Control])
    ensures After(s, [Control]).assertsHeld <==>
            && s.assertsHeld
            && (s.ndis == NdisPaused ==> s.filter.state == FilterPaused)
            && (s.ndis == NdisRunning ==> s.filter.state == FilterRunning)
  {
    OneStep(s, Control);
    hide Legal, After;
  }

  // ---- NBLs counted twice ----

  /** The receive handler's check lets a chain through. */
  predicate Open(s: System) {
    s.dbg ==> s.filter.state == FilterRunning
  }

  /** The part of a system that the runs below leave alone. */
  predicate SameSetting(s: System, s': System) {
    s'.dbg == s.dbg && s'.recvPool == s.recvPool && s'.filter == s.filter && s'.ndis == s.ndis
  }

  lemma ReceiveArrives(s: System, c: Chain)
    requires c != [] && multiset(c) <= s.recvLower
    ensures var receive := CallHandler(Receive, c, true);
            && Enabled(s, receive)
            && var s' := Apply(s, receive);
               && s'.threads == s.threads + [Activity(if s.dbg then RecvArrived else RecvAdmitted, c, true)]
               && SameSetting(s, s')
  {
    hide Shift;
  }

  lemma ReceiveChecked(s: System, t: nat)
    requires t < |s.threads| && s.threads[t].stage == RecvArrived && s.filter.state == FilterRunning
    ensures var s' := Continue(s, t);
            && s'.threads == s.threads[t := s.threads[t].(stage := RecvAdmitted)]
            && SameSetting(s, s')
  {
    hide Shift;
  }

  lemma ReceiveAdmitted(s: System, c: Chain) returns (steps: seq<Step>)
    requires Open(s) && c != [] && multiset(c) <= s.recvLower
    ensures Legal(s, steps)
    ensures var s' := After(s, steps);
            s'.threads == s.threads + [Activity(RecvAdmitted, c, true)] && SameSetting(s, s')
  {
    var receive, t := CallHandler(Receive, c, true), |s.threads|;
    hide Transfer, Legal, After, Continue;
    ReceiveArrives(s, c);
    if s.dbg {
      ReceiveChecked(Apply(s, receive), t);
      steps := [receive, Run(t)];
      TwoSteps(s, receive, Run(t));
    } else {
      steps := [receive];
      OneStep(s, receive);
    }
  }

  lemma ReceiveCounted(s: System, t: nat)
    requires t < |s.threads| && s.threads[t].stage == RecvAdmitted
    ensures var s' := Continue(s, t);
            && s'.threads == s.threads[t := s.threads[t].(stage := RecvCounted)]
            && SameSetting(s.(filter := s'.filter), s') && s'.filter == s.filter.CountRcvs(|s.threads[t].chain|)
            && (s'.countAssertsHeld ==> Wrap(|s.threads[t].chain|) >= 1)
  {
    hide Shift;
  }

  lemma ReceivedAndCounted(s: System, c: Chain) returns (steps: seq<Step>)
    requires Open(s) && c != [] && multiset(c) <= s.recvLower
    ensures Legal(s, steps)
    ensures var s' := After(s, steps);
            && s'.threads == s.threads + [Activity(RecvCounted, c, true)]
            && SameSetting(s.(filter := s'.filter), s') && s'.filter == s.filter.CountRcvs(|c|)
            && (s'.countAssertsHeld ==> Wrap(|c|) >= 1)
  {
    hide Legal, After, Continue, Wrap;
    var admitted := ReceiveAdmitted(s, c);
    var s1 := After(s, admitted);
    ReceiveCounted(s1, |s.threads|);
    OneStep(s1, Run(|s.threads|));
    Compose(s, admitted, [Run(|s.threads|)]);
    steps := admitted + [Run(|s.threads|)];
  }

  lemma ReceiveIndicated(s: System, t: nat)
    requires t < |s.threads| && s.threads[t].stage == RecvCounted && s.threads[t].canPend
    ensures var s' := Continue(s, t);
            && s'.threads == s.threads[t := s.threads[t].(stage := Finished)]
            && SameSetting(s, s') && multiset(s.threads[t].chain) <= s'.recvUpper
  {
    assert CallFrom(s.threads[t]) == Some(IndicatePending);
    hide CallFrom, Section, Shift;
    Shifted(s.recvUpper, RunEvent(s, t, IndicatePending));
  }

  lemma Shifted(pool: multiset<Nbl>, e: Event)
    ensures e.call == IndicatePending ==> multiset(e.chain) <= Shift(pool, RecvUpper, e)
    ensures e.call == HandBack ==> multiset(e.chain) <= Shift(pool, RecvLower, e)
  {
  }

  lemma ReceiveReturned(s: System, c: Chain)
    requires c != [] && multiset(c) <= s.recvUpper
    ensures var back := CallHandler(Return, c, false);
            && Enabled(s, back)
            && var s' := Apply(s, back);
               && s'.threads == s.threads + [Activity(ReturnArrived, c, false)]
               && SameSetting(s, s')
  {
    hide Shift;
  }

  lemma ReceiveHandedBack(s: System, t: nat)
    requires t < |s.threads| && s.threads[t].stage == ReturnArrived
    ensures var s' := Continue(s, t);
            && s'.threads == s.threads[t := s.threads[t].(stage := ReturnHandedBack)]
            && SameSetting(s, s') && multiset(s.threads[t].chain) <= s'.recvLower
  {
    assert CallFrom(s.threads[t]) == Some(HandBack);
    hide CallFrom, Section, Shift;
    Shifted(s.recvLower, RunEvent(s, t, HandBack));
  }

  /** A counted chain goes up, comes back and is handed back, with its decrement pending. */
  lemma RoundTrip(s: System, t: nat, c: Chain) returns (steps: seq<Step>)
    requires t < |s.threads| && s.threads[t] == Activity(RecvCounted, c, true) && c != []
    ensures Legal(s, steps)
    ensures var s' := After(s, steps);
            && s'.threads == s.threads[t := Activity(Finished, c, true)] + [Activity(ReturnHandedBack, c, false)]
            && SameSetting(s, s') && multiset(c) <= s'.recvLower
  {
    var back := CallHandler(Return, c, false);
    hide Continue, Legal, After, Transfer, Entry;
    ReceiveIndicated(s, t);
    ReceiveReturned(Apply(s, Run(t)), c);
    TwoSteps(s, Run(t), back);
    var s2 := After(s, [Run(t), back]);
    ReceiveHandedBack(s2, |s.threads|);
    OneStep(s2, Run(|s.threads|));
    Compose(s, [Run(t), back], [Run(|s.threads|)]);
    steps := [Run(t), back] + [Run(|s.threads|)];
  }

  /**
   * The return handler hands NBLs back before it discounts them, so the lower layer may indicate
   * the same NBLs again first: all of them are then counted twice.
   */
  lemma ReceivesCountedTwice(s: System, c: Chain)
    requires Open(s) && s.filter.trackReceives && c != [] && multiset(c) <= s.recvLower
    ensures exists steps :: Legal(s, steps)
                            && (forall x :: x in c ==> OutstandingRcvNbls(After(s, steps))[x] >= 2)
                            && After(s, steps).filter.outstandingRcvs == Wrap(s.filter.outstandingRcvs + 2 * |c|)
  {
    var t := |s.threads|;
    hide Legal, After, Wrap, Enabled, OutstandingRcvNbls;
    var steps1 := ReceivedAndCounted(s, c);
    var s1 := After(s, steps1);
    var steps2 := RoundTrip(s1, t, c);
    var s2 := After(s1, steps2);
    var steps3 := ReceivedAndCounted(s2, c);
    var s3 := After(s2, steps3);
    Compose(s, steps1, steps2);
    Compose(s, steps1 + steps2, steps3);
    CountedTwice(s.filter, |c|);
    forall x | x in c
      ensures OutstandingRcvNbls(s3)[x] >= 2
    {
      CountedAndBack(s3, t + 1, t + 2, c, x);
    }
  }

  lemma CountedAndBack(s: System, t: nat, u: nat, c: Chain, x: Nbl)
    requires t < |s.threads| && u < |s.threads| && x in c
    requires s.threads[t] == Activity(ReturnHandedBack, c, false) && s.threads[u] == Activity(RecvCounted, c, true)
    ensures OutstandingRcvNbls(s)[x] >= 2
  {
    OneChain(s.threads, RCVS_BACK, t, x);
    OneChain(s.threads, RCVS_HELD, u, x);
    hide ChainsAt;
  }

  lemma CountedTwice(f: Filter, n: nat)
    requires f.trackReceives
    ensures f.CountRcvs(n).CountRcvs(n).outstandingRcvs == Wrap(f.outstandingRcvs + 2 * n)
  {
    assert Wrap(f.outstandingRcvs) == f.outstandingRcvs;
    WrapSum(f.outstandingRcvs, n);
    WrapSum(f.outstandingRcvs + n, n);
    hide Wrap;
  }

  // ---- The assertion on NumberOfNetBufferLists ----

  lemma {:induction false} ChainFrom(pool: set<Nbl>, n: nat) returns (c: Chain)
    requires n <= |pool|
    ensures |c| == n && multiset(c) <= multiset(pool)
  {
    c := [];
    if n > 0 {
      var x :| x in pool;
      c := ChainFrom(pool - {x}, n - 1);
      c := [x] + c;
    }
  }

  /** A module that starts can run. */
  lemma Started(s: System)
    requires Initial(s)
    ensures Legal(s, [Control, Control])
    ensures var s' := After(s, [Control, Control]);
            s'.filter.state == FilterRunning && s'.recvPool == s.recvPool && s'.recvLower == s.recvLower
  {
    TwoSteps(s, Control, Control);
    hide Legal, After;
  }

  /** It holds in all runs exactly if the receive pool is too small for a chain whose length wraps to 0. */
  lemma CountAssertIff(s0: System)
    requires Initial(s0)
    ensures (forall steps | Legal(s0, steps) :: After(s0, steps).countAssertsHeld) <==> |s0.recvPool| < ULONG_MODULUS
  {
    if |s0.recvPool| < ULONG_MODULUS {
      forall steps | Legal(s0, steps)
        ensures After(s0, steps).countAssertsHeld
      {
        CountAssertHolds(s0, steps);
      }
    } else {
      hide Legal, After, Wrap;
      var c := ChainFrom(s0.recvPool, ULONG_MODULUS);
      Started(s0);
      var s1 := After(s0, [Control, Control]);
      var steps := ReceivedAndCounted(s1, c);
      Compose(s0, [Control, Control], steps);
      WrapUnique(ULONG_MODULUS, 1, 0);
    }
  }

  lemma CountAssertHolds(s0: System, steps: seq<Step>)
    requires Initial(s0) && Legal(s0, steps) && |s0.recvPool| < ULONG_MODULUS
    ensures After(s0, steps).countAssertsHeld
  {
    ReachableInv(s0, steps);
    RunKeepsPools(s0, steps);
    hide Legal, After, Initial, Located, CountersAgree, RefusalsMarked, LifecycleAgrees, ChainsProper;
  }
}
