/**
 * The state check of DBG builds as a gate: from the write of FilterPausing to the next write of
 * FilterRunning, exactly what was past the check when the period began gets through.
 */
module PauseGate {
  import opened Options
  import opened Ulongs
  import opened FilterModule
  import opened Datapath
  import opened DatapathInvariants
  import opened DatapathTheorems

  predicate IsGate(m: Measure) {
    m.PastSendCheck? || m.PastRecvCheck?
  }

  predicate PassesOn(m: Measure, call: Call) {
    if m.PastSendCheck? then call == Forward else call == IndicatePending || call == IndicateLoan
  }

  /** How often the logged hand-downs, or indications, carried the NBL that `m` asks for. */
  function Passed(log: seq<Event>, m: Measure): nat
    requires IsGate(m)
  {
    if log == [] then 0
    else
      var e := log[|log| - 1];
      Passed(log[..|log| - 1], m) + if PassesOn(m, e.call) then multiset(e.chain)[m.nbl] else 0
  }

  predicate Restarts(s: System, step: Step) {
    step.Control? && s.ndis == NdisCallingRestart
  }

  /** A legal run in which FilterRestart does not get as far as setting the module running. */
  predicate StaysDown(s: System, steps: seq<Step>)
    decreases |steps|
  {
    steps == []
    || (Enabled(s, steps[0]) && !Restarts(s, steps[0]) && StaysDown(Apply(s, steps[0]), steps[1..]))
  }

  lemma {:induction false} StaysDownIsLegal(s: System, steps: seq<Step>)
    requires StaysDown(s, steps)
    ensures Legal(s, steps)
    decreases |steps|
  {
    hide Apply, Enabled, Restarts;
    if steps != [] {
      StaysDownIsLegal(Apply(s, steps[0]), steps[1..]);
    }
  }

  predicate Down(s: System) {
    s.dbg && s.filter.state != FilterRunning
  }

  lemma DownStays(s: System, step: Step)
    requires Down(s) && Enabled(s, step) && !Restarts(s, step)
    ensures Down(Apply(s, step))
  {
    PoolsKept(s, step);
    FilterAfter(s, step);
    if step.Run? {
      SectionFrame(s.threads[step.t], s.filter);
    }
    hide Section, Continue, Transfer;
  }

  /** In a module that is down, an activation is past the check before its step iff after it, or it passes on. */
  lemma NextAtGate(a: Activity, m: Measure)
    requires IsGate(m)
    ensures var a' := a.(stage := Next(a, false));
            var passed := match CallFrom(a) case Some(call) => PassesOn(m, call) case None => false;
            Share(m, a') + (if passed then multiset(a.chain)[m.nbl] else 0) == Share(m, a)
  {
  }

  predicate GateMoves(s: System, s': System, m: Measure)
    requires IsGate(m)
  {
    Passed(s'.log, m) + Tally(s', m) == Passed(s.log, m) + Tally(s, m)
  }

  lemma PassedOn(log: seq<Event>, e: Event, m: Measure)
    requires IsGate(m)
    ensures Passed(log + [e], m) == Passed(log, m) + if PassesOn(m, e.call) then multiset(e.chain)[m.nbl] else 0
  {
    assert (log + [e])[..|log|] == log;
  }

  function Through(call: Option<Event>, m: Measure): nat
    requires IsGate(m)
  {
    match call
    case Some(e) => if PassesOn(m, e.call) then multiset(e.chain)[m.nbl] else 0
    case None => 0
  }

  lemma GateRunThreads(s: System, t: nat, m: Measure)
    requires Down(s) && t < |s.threads| && IsGate(m)
    ensures Total(Continue(s, t).threads, m) + Through(CallOf(s, Run(t)), m) == Total(s.threads, m)
  {
    NextAtGate(s.threads[t], m);
    ContinueTotals(s, t, m);
    hide Next, CallFrom, Section, Total, Share, Shift, Continue, PassesOn;
  }

  lemma StepLog(s: System, step: Step, m: Measure)
    requires Enabled(s, step) && IsGate(m)
    ensures Passed(Apply(s, step).log, m) == Passed(s.log, m) + Through(CallOf(s, step), m)
  {
    StepMoves(s, step, SendUpper, 0);
    hide Apply, CallOf, Passed, Enabled, PassesOn;
    match CallOf(s, step) {
      case Some(e) => PassedOn(s.log, e, m);
      case None =>
    }
  }

  lemma GateRun(s: System, t: nat, m: Measure)
    requires Down(s) && t < |s.threads| && IsGate(m)
    ensures GateMoves(s, Continue(s, t), m)
  {
    GateRunThreads(s, t, m);
    StepLog(s, Run(t), m);
    hide CallOf, Continue, Total, Passed, Through;
  }

  lemma GateTally(s: System, m: Measure)
    requires IsGate(m)
    ensures Tally(s, m) == Total(s.threads, m)
  {
    hide Total;
  }

  lemma EnteredBeforeGate(dbg: bool, call: Call, c: Chain, canPend: bool, m: Measure)
    requires dbg && EntersHandler(call) && IsGate(m)
    ensures Share(m, Activity(Entry(dbg, call), c, canPend)) == 0 && !PassesOn(m, call)
  {
  }

  lemma GateEntry(s: System, step: Step, m: Measure)
    requires Down(s) && Enabled(s, step) && step.CallHandler? && IsGate(m)
    ensures GateMoves(s, Apply(s, step), m)
  {
    EnterTotals(s, step, m);
    EnteredBeforeGate(s.dbg, step.call, step.chain, step.canPend, m);
    PassedOn(s.log, EntryEvent(s, step), m);
    GateTally(s, m);
    GateTally(Apply(s, step), m);
    hide Entry, Tally, Total, Share, Passed, PassesOn, Layer, Apply;
  }

  lemma GateStep(s: System, step: Step, m: Measure)
    requires Down(s) && Enabled(s, step) && IsGate(m)
    ensures GateMoves(s, Apply(s, step), m)
  {
    match step {
      case CallHandler(_, _, _) => GateEntry(s, step, m);
      case Run(t) => GateRun(s, t, m);
      case Control => hide Passed, Total;
    }
  }

  /** Over a whole period: what was passed on in it plus what is still past the check was past it at the start. */
  lemma {:induction false} GateConservation(s: System, steps: seq<Step>, m: Measure)
    requires Down(s) && StaysDown(s, steps) && IsGate(m)
    ensures Legal(s, steps)
    ensures Down(After(s, steps))
    ensures Passed(After(s, steps).log, m) + Tally(After(s, steps), m) == Passed(s.log, m) + Tally(s, m)
    decreases |steps|
  {
    hide Apply, Enabled, Restarts, Passed, Tally, Down;
    StaysDownIsLegal(s, steps);
    if steps != [] {
      DownStays(s, steps[0]);
      GateStep(s, steps[0], m);
      GateConservation(Apply(s, steps[0]), steps[1..], m);
    }
  }

  // ---- When a period is silent ----

  function Gate(receiving: bool, x: Nbl): Measure {
    if receiving then PastRecvCheck(x) else PastSendCheck(x)
  }

  function PassedBy(s: System, steps: seq<Step>, receiving: bool, x: Nbl): nat
    requires StaysDown(s, steps)
  {
    StaysDownIsLegal(s, steps);
    Passed(After(s, steps).log, Gate(receiving, x))
  }

  /** Nothing more is handed down (or indicated), however long the module stays down. */
  ghost predicate Silent(s: System, receiving: bool) {
    forall steps, x | StaysDown(s, steps) :: PassedBy(s, steps, receiving, x) == Passed(s.log, Gate(receiving, x))
  }

  predicate AtGate(a: Activity, receiving: bool) {
    && a.chain != []
    && if receiving then a.stage == RecvAdmitted || a.stage == RecvCounted
       else a.stage == SendAdmitted || a.stage == SendCounted
  }

  lemma {:induction false} NobodyAtGate(threads: seq<Activity>, receiving: bool, x: Nbl)
    requires forall t :: 0 <= t < |threads| ==> !AtGate(threads[t], receiving)
    ensures Total(threads, Gate(receiving, x)) == 0
  {
    if threads != [] {
      NobodyAtGate(threads[1..], receiving, x);
    }
  }

  lemma StepPasses(s: System, step: Step, m: Measure)
    requires Enabled(s, step) && IsGate(m)
    ensures Passed(Apply(s, step).log, m) >= Passed(s.log, m)
  {
    StepLog(s, step, m);
    hide Apply, CallOf, Passed;
  }

  lemma {:induction false} PassedGrows(s: System, steps: seq<Step>, m: Measure)
    requires Legal(s, steps) && IsGate(m)
    ensures Passed(After(s, steps).log, m) >= Passed(s.log, m)
    decreases |steps|
  {
    hide Apply, Enabled, Passed;
    if steps != [] {
      StepPasses(s, steps[0], m);
      PassedGrows(Apply(s, steps[0]), steps[1..], m);
    }
  }

  lemma ContinuePast(s: System, t: nat, receiving: bool, x: Nbl)
    requires t < |s.threads| && AtGate(s.threads[t], receiving)
    ensures var s' := Continue(s, t);
            var m := Gate(receiving, x);
            && t < |s'.threads| && s'.threads[t].chain == s.threads[t].chain
            && if s.threads[t].stage == SendAdmitted || s.threads[t].stage == RecvAdmitted
               then AtGate(s'.threads[t], receiving) && s'.threads[t].stage != s.threads[t].stage
               else Passed(s'.log, m) == Passed(s.log, m) + multiset(s.threads[t].chain)[x]
  {
    var m := Gate(receiving, x);
    StepLog(s, Run(t), m);
    GateCall(s.threads[t], receiving);
    ContinuedAt(s, t);
    if s.threads[t].stage == SendAdmitted || s.threads[t].stage == RecvAdmitted {
      AfterGate(s.threads[t], s.filter.Admits(), receiving);
    }
    hide Passed, Continue, Next, CallFrom;
  }

  lemma ContinuedAt(s: System, t: nat)
    requires t < |s.threads|
    ensures |Continue(s, t).threads| == |s.threads| && Continue(s, t).threads[t] == Moved(s, t)
  {
    hide Next, CallFrom, Section, Shift;
  }

  /** From the later of the two stages past the check, the chain is passed on. */
  lemma GateCall(a: Activity, receiving: bool)
    requires AtGate(a, receiving)
    ensures if a.stage == SendAdmitted || a.stage == RecvAdmitted then CallFrom(a).None?
            else CallFrom(a).Some? && forall x :: PassesOn(Gate(receiving, x), CallFrom(a).value)
  {
  }

  lemma AfterGate(a: Activity, admits: bool, receiving: bool)
    requires AtGate(a, receiving) && (a.stage == SendAdmitted || a.stage == RecvAdmitted)
    ensures var a' := a.(stage := Next(a, admits)); AtGate(a', receiving) && a'.stage != a.stage
    ensures Next(a, admits) == SendCounted || Next(a, admits) == RecvCounted
  {
  }

  lemma Prepend(s: System, step: Step, rest: seq<Step>)
    requires Enabled(s, step) && !Restarts(s, step) && StaysDown(Apply(s, step), rest)
    ensures StaysDown(s, [step] + rest)
    ensures Legal(s, [step] + rest) && Legal(Apply(s, step), rest)
    ensures After(s, [step] + rest) == After(Apply(s, step), rest)
  {
    StaysDownIsLegal(Apply(s, step), rest);
    assert ([step] + rest)[1..] == rest;
    hide Apply, Enabled, Restarts;
  }

  /** An activation past the check can be run until it passes its chain on, whatever the state and the build. */
  lemma {:induction false} PassOn(s: System, t: nat, receiving: bool, x: Nbl) returns (steps: seq<Step>)
    requires t < |s.threads| && AtGate(s.threads[t], receiving)
    ensures StaysDown(s, steps)
    ensures PassedBy(s, steps, receiving, x) >= Passed(s.log, Gate(receiving, x)) + multiset(s.threads[t].chain)[x]
    decreases s.threads[t].stage == SendAdmitted || s.threads[t].stage == RecvAdmitted
  {
    ContinuePast(s, t, receiving, x);
    StepPasses(s, Run(t), Gate(receiving, x));
    var rest: seq<Step> := [];
    assert Apply(s, Run(t)) == Continue(s, t) && !Restarts(s, Run(t));
    hide Continue, Passed, Down, Apply, Gate;
    if s.threads[t].stage == SendAdmitted || s.threads[t].stage == RecvAdmitted {
      rest := PassOn(Continue(s, t), t, receiving, x);
    }
    Prepend(s, Run(t), rest);
    steps := [Run(t)] + rest;
  }

  /** A period with the module down is silent iff no activation stands past the check when it begins. */
  lemma SilentIff(s: System, receiving: bool)
    requires Down(s)
    ensures Silent(s, receiving) <==> forall t :: 0 <= t < |s.threads| ==> !AtGate(s.threads[t], receiving)
  {
    if forall t :: 0 <= t < |s.threads| ==> !AtGate(s.threads[t], receiving) {
      forall steps, x | StaysDown(s, steps)
        ensures PassedBy(s, steps, receiving, x) == Passed(s.log, Gate(receiving, x))
      {
        GateConservation(s, steps, Gate(receiving, x));
        PassedGrows(s, steps, Gate(receiving, x));
        NobodyAtGate(s.threads, receiving, x);
      }
    } else {
      var t :| 0 <= t < |s.threads| && AtGate(s.threads[t], receiving);
      var x := s.threads[t].chain[0];
      var steps := PassOn(s, t, receiving, x);
      assert multiset(s.threads[t].chain)[x] > 0;
      assert !Silent(s, receiving);
    }
  }

  // ---- When a paused module has nothing outstanding ----

  function CounterOf(receiving: bool): Measure {
    if receiving then CountedRcvs else CountedSends
  }

  /** What is counted at the end of a period. */
  function OutstandingAfter(s: System, steps: seq<Step>, receiving: bool): nat
    requires StaysDown(s, steps)
  {
    StaysDownIsLegal(s, steps);
    Tally(After(s, steps), CounterOf(receiving))
  }

  /** About to count its chain. */
  predicate IsAdmitted(a: Activity, receiving: bool) {
    a.chain != [] && a.stage == if receiving then RecvAdmitted else SendAdmitted
  }

  predicate NoneAdmitted(s: System, receiving: bool) {
    forall t :: 0 <= t < |s.threads| ==> !IsAdmitted(s.threads[t], receiving)
  }

  predicate Clear(s: System, receiving: bool) {
    Tally(s, CounterOf(receiving)) == 0 && NoneAdmitted(s, receiving)
  }

  lemma NeverAdmitted(a: Activity, receiving: bool)
    requires !IsAdmitted(a, receiving)
    ensures Adds(a, CounterOf(receiving)) == 0
    ensures !IsAdmitted(a.(stage := Next(a, false)), receiving)
  {
  }

  lemma EnteredBefore(call: Call, c: Chain, canPend: bool, receiving: bool)
    ensures !IsAdmitted(Activity(Entry(true, call), c, canPend), receiving)
  {
  }

  lemma StaysNoneAdmitted(s: System, step: Step, receiving: bool)
    requires Down(s) && Enabled(s, step) && NoneAdmitted(s, receiving)
    ensures NoneAdmitted(Apply(s, step), receiving)
  {
    hide Next, Entry, CallFrom, Section, Shift, IsAdmitted;
    match step {
      case CallHandler(call, c, canPend) =>
        EnteredBefore(call, c, canPend, receiving);
        assert Apply(s, step).threads == s.threads + [Entered(s, step)];
      case Run(t) =>
        NeverAdmitted(s.threads[t], receiving);
        assert Apply(s, step).threads == s.threads[t := Moved(s, t)];
      case Control =>
    }
  }

  lemma StaysClear(s: System, step: Step, receiving: bool)
    requires Down(s) && Enabled(s, step) && Clear(s, receiving)
    ensures Clear(Apply(s, step), receiving)
  {
    StepCounts(s, step, CounterOf(receiving));
    StaysNoneAdmitted(s, step, receiving);
    if step.Run? {
      NeverAdmitted(s.threads[step.t], receiving);
    }
    RunnerRuns(s, step, CounterOf(receiving));
    hide Apply, Tally, NoneAdmitted, Adds, Subtracts;
  }

  lemma {:induction false} ClearRun(s: System, steps: seq<Step>, receiving: bool)
    requires Down(s) && StaysDown(s, steps) && Clear(s, receiving)
    ensures OutstandingAfter(s, steps, receiving) == 0
    decreases |steps|
  {
    hide Apply, Enabled, Restarts, Down, Tally, NoneAdmitted;
    StaysDownIsLegal(s, steps);
    if steps != [] {
      DownStays(s, steps[0]);
      StaysClear(s, steps[0], receiving);
      ClearRun(Apply(s, steps[0]), steps[1..], receiving);
    }
  }

  lemma AdmittedCounts(s: System, t: nat, receiving: bool)
    requires t < |s.threads| && IsAdmitted(s.threads[t], receiving)
    ensures StaysDown(s, [Run(t)]) && OutstandingAfter(s, [Run(t)], receiving) > 0
  {
    AdmittedAdds(s.threads[t], receiving);
    assert Enabled(s, Run(t)) && !Restarts(s, Run(t));
    AfterOne(s, Run(t), receiving);
    StepCounts(s, Run(t), CounterOf(receiving));
    assert Runner(s, Run(t)) == s.threads[t];
    hide *;
  }

  lemma AdmittedAdds(a: Activity, receiving: bool)
    requires IsAdmitted(a, receiving)
    ensures Adds(a, CounterOf(receiving)) > 0 && Subtracts(a, CounterOf(receiving)) == 0
    ensures IsCounter(CounterOf(receiving))
  {
  }

  lemma AfterOne(s: System, step: Step, receiving: bool)
    requires Enabled(s, step) && !Restarts(s, step)
    ensures StaysDown(s, [step])
    ensures OutstandingAfter(s, [step], receiving) == Tally(Apply(s, step), CounterOf(receiving))
  {
    Prepend(s, step, []);
    assert [step] + [] == [step];
    hide Tally, Apply, Enabled, Restarts;
  }

  /**
   * In a DBG build nothing is outstanding at any time of a period, however it goes on, exactly if
   * nothing was when it began and no activation was about to count.
   */
  lemma NothingOutstandingIff(s: System, receiving: bool)
    requires Down(s)
    ensures (forall steps | StaysDown(s, steps) :: OutstandingAfter(s, steps, receiving) == 0) <==>
            Clear(s, receiving)
  {
    if Clear(s, receiving) {
      forall steps | StaysDown(s, steps)
        ensures OutstandingAfter(s, steps, receiving) == 0
      {
        ClearRun(s, steps, receiving);
      }
    } else if !NoneAdmitted(s, receiving) {
      var t :| 0 <= t < |s.threads| && IsAdmitted(s.threads[t], receiving);
      AdmittedCounts(s, t, receiving);
    } else {
      assert StaysDown(s, []) && OutstandingAfter(s, [], receiving) == Tally(s, CounterOf(receiving));
    }
    hide Tally;
  }

  lemma SendsExact(s: System)
    requires Inv(s) && |s.sendPool| < ULONG_MODULUS
    ensures s.filter.outstandingSends == Tally(s, CountedSends)
  {
    OutstandingSendsBounded(s);
    assert s.filter.outstandingSends == Wrap(Tally(s, CountedSends));
    hide Inv, Tally, OutstandingSendNbls;
  }

  lemma ExactAfter(s: System, steps: seq<Step>)
    requires Inv(s) && StaysDown(s, steps) && |s.sendPool| < ULONG_MODULUS
    ensures Legal(s, steps)
    ensures After(s, steps).filter.outstandingSends == OutstandingAfter(s, steps, false)
  {
    StaysDownIsLegal(s, steps);
    RunKeepsInv(s, steps);
    RunKeepsPools(s, steps);
    SendsExact(After(s, steps));
    hide Inv, After, Tally;
  }

  function SendCounterAfter(s: System, steps: seq<Step>): Ulong
    requires StaysDown(s, steps)
  {
    StaysDownIsLegal(s, steps);
    After(s, steps).filter.outstandingSends
  }

  /**
   * In terms of the driver's own counter: it reads 0 throughout exactly if it does at the start and
   * no send is admitted then.
   */
  lemma CounterStaysZeroIff(s: System)
    requires Inv(s) && Down(s) && |s.sendPool| < ULONG_MODULUS
    ensures (forall steps | StaysDown(s, steps) :: SendCounterAfter(s, steps) == 0) <==>
            s.filter.outstandingSends == 0 && NoneAdmitted(s, false)
  {
    forall steps | StaysDown(s, steps)
      ensures SendCounterAfter(s, steps) == OutstandingAfter(s, steps, false)
    {
      ExactAfter(s, steps);
    }
    SendsExact(s);
    NothingOutstandingIff(s, false);
    hide Inv, Down, Tally, NoneAdmitted, OutstandingAfter, SendCounterAfter;
  }
}
