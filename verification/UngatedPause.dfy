/**
 * The same question without the gate: in builds without DBG a module that stays down has something
 * outstanding sooner or later in some run, unless there are no NBLs at all.
 */
module UngatedPause {
  import opened Options
  import opened Ulongs
  import opened FilterModule
  import opened Datapath
  import opened DatapathInvariants
  import opened DatapathTheorems
  import opened ReceiveCounts
  import opened PauseGate

  /** Where NBLs are while no handler and no other layer has them. */
  function Source(receiving: bool): Place {
    if receiving then RecvLower else SendUpper
  }

  function EntryCall(receiving: bool): Call {
    if receiving then Receive else Submit
  }

  function PoolOf(s: System, receiving: bool): set<Nbl> {
    if receiving then s.recvPool else s.sendPool
  }

  lemma {:induction false} NoThreadAtLayer(threads: seq<Activity>, p: Place, x: Nbl)
    requires IsLayer(p)
    ensures Total(threads, At(p, x)) == 0
  {
    if threads != [] {
      NoThreadAtLayer(threads[1..], p, x);
      StandingInHandlers(threads[0].stage);
      hide Standing;
    }
  }

  lemma {:induction false} SomeShare(threads: seq<Activity>, p: Place, x: Nbl) returns (t: nat)
    requires Total(threads, At(p, x)) > 0
    ensures t < |threads| && Standing(threads[t].stage) == p && x in threads[t].chain
  {
    if Share(At(p, x), threads[0]) > 0 {
      t := 0;
    } else {
      t := SomeShare(threads[1..], p, x);
      t := t + 1;
    }
    hide Standing;
  }

  /** An NBL at its source is taken by a handler, let in and counted. */
  lemma FromSource(s: System, x: Nbl, receiving: bool) returns (steps: seq<Step>)
    requires !s.dbg && Layer(s, Source(receiving))[x] > 0
    ensures StaysDown(s, steps) && OutstandingAfter(s, steps, receiving) > 0
  {
    var enter, t := CallHandler(EntryCall(receiving), [x], true), |s.threads|;
    EntersAdmitted(s, x, receiving);
    hide Apply, OutstandingAfter, Enabled;
    AdmittedCounts(Apply(s, enter), t, receiving);
    Before(s, enter, [Run(t)], receiving);
    steps := [enter] + [Run(t)];
  }

  lemma EntersAdmitted(s: System, x: Nbl, receiving: bool)
    requires !s.dbg && Layer(s, Source(receiving))[x] > 0
    ensures var enter := CallHandler(EntryCall(receiving), [x], true);
            && Enabled(s, enter) && !Restarts(s, enter)
            && var s' := Apply(s, enter);
               |s'.threads| == |s.threads| + 1 && IsAdmitted(s'.threads[|s.threads|], receiving)
  {
    hide Shift;
  }

  lemma Before(s: System, step: Step, rest: seq<Step>, receiving: bool)
    requires Enabled(s, step) && !Restarts(s, step) && StaysDown(Apply(s, step), rest)
    ensures StaysDown(s, [step] + rest)
    ensures OutstandingAfter(s, [step] + rest, receiving) == OutstandingAfter(Apply(s, step), rest, receiving)
  {
    Prepend(s, step, rest);
    hide Apply, Tally, Enabled, Restarts;
  }

  /** A handler has the chain but has not counted it, or no longer does. */
  predicate Uncounted(stage: Stage, receiving: bool) {
    if receiving then stage == RecvArrived || stage == RecvRefused || stage == RecvAdmitted
    else stage == SendArrived || stage == SendRefused || stage == SendMarked || stage == SendAdmitted
         || stage == CompleteDiscounted
  }

  function Rank(stage: Stage): nat {
    match stage
    case SendArrived | RecvArrived => 3
    case SendRefused => 2
    case SendMarked | RecvRefused | CompleteDiscounted => 1
    case _ => 0
  }

  /** Its next step admits it, brings it closer, or hands the chain back to its source. */
  lemma NextUncounted(a: Activity, admits: bool, receiving: bool)
    requires Uncounted(a.stage, receiving) && (receiving ==> a.stage != RecvAdmitted) && a.stage != SendAdmitted
    ensures match CallFrom(a)
            case None => Uncounted(Next(a, admits), receiving) && Rank(Next(a, admits)) < Rank(a.stage)
            case Some(call) => call.To() == Source(receiving) && call.From() != Source(receiving)
  {
  }

  lemma Reached(s: System, t: nat, x: Nbl, receiving: bool)
    requires t < |s.threads| && x in s.threads[t].chain && CallFrom(s.threads[t]).Some?
    requires CallFrom(s.threads[t]).value.To() == Source(receiving) != CallFrom(s.threads[t]).value.From()
    ensures Layer(Continue(s, t), Source(receiving))[x] > 0
  {
    ContinueLayers(s, t, CallOf(s, Run(t)).value, Source(receiving), x);
    hide Continue, CallFrom, Call.From, Call.To, Layer;
  }

  lemma FromThread(s: System, t: nat, x: Nbl, receiving: bool) returns (steps: seq<Step>)
    requires !s.dbg && t < |s.threads| && x in s.threads[t].chain && Uncounted(s.threads[t].stage, receiving)
    ensures StaysDown(s, steps) && OutstandingAfter(s, steps, receiving) > 0
    decreases Rank(s.threads[t].stage)
  {
    var a := s.threads[t];
    hide Continue, OutstandingAfter, CallFrom, Next;
    if IsAdmitted(a, receiving) {
      AdmittedCounts(s, t, receiving);
      steps := [Run(t)];
    } else {
      NextUncounted(a, s.filter.Admits(), receiving);
      ContinuedAt(s, t);
      PoolsKept(s, Run(t));
      var rest;
      if CallFrom(a).Some? {
        Reached(s, t, x, receiving);
        rest := FromSource(Continue(s, t), x, receiving);
      } else {
        rest := FromThread(Continue(s, t), t, x, receiving);
      }
      Before(s, Run(t), rest, receiving);
      steps := [Run(t)] + rest;
    }
  }

  lemma CountedAlready(s: System, receiving: bool)
    requires Tally(s, CounterOf(receiving)) > 0
    ensures StaysDown(s, []) && OutstandingAfter(s, [], receiving) > 0
  {
    hide Tally;
  }

  lemma HandlerStages(stage: Stage, receiving: bool)
    requires Standing(stage) != Astray && OnSendSide(Standing(stage)) == !receiving
    ensures Uncounted(stage, receiving) || Concerns(CounterOf(receiving), stage)
  {
  }

  lemma FromAnywhere(s: System, x: Nbl, receiving: bool) returns (steps: seq<Step>)
    requires Inv(s) && !s.dbg && x in PoolOf(s, receiving)
    ensures StaysDown(s, steps) && OutstandingAfter(s, steps, receiving) > 0
  {
    var p := Whereabouts(s, x);
    assert Located(s, x);
    assert LocatedAt(s, x, p);
    WalkKeepsSide(s.log, x, Home(s, x));
    hide Walk, OutstandingAfter, Located;
    if IsLayer(p) {
      NoThreadAtLayer(s.threads, p, x);
      hide Total;
      if p == Source(receiving) {
        steps := FromSource(s, x, receiving);
      } else {
        assert p == CountedLayer(CounterOf(receiving)) && Layer(s, p)[x] > 0;
        LayerCounts(s, p, x, receiving);
        CountedAlready(s, receiving);
        steps := [];
      }
    } else {
      assert Total(s.threads, At(p, x)) > 0;
      var t := SomeShare(s.threads, p, x);
      HandlerStages(s.threads[t].stage, receiving);
      if Uncounted(s.threads[t].stage, receiving) {
        steps := FromThread(s, t, x, receiving);
      } else {
        ShareInTotal(s.threads, t, CounterOf(receiving));
        CountedAlready(s, receiving);
        steps := [];
      }
    }
  }

  lemma LayerCounts(s: System, p: Place, x: Nbl, receiving: bool)
    requires p == CountedLayer(CounterOf(receiving)) && Layer(s, p)[x] > 0
    ensures Tally(s, CounterOf(receiving)) > 0
  {
    hide Total;
  }

  lemma EmptyPool(s: System, steps: seq<Step>)
    requires Inv(s) && StaysDown(s, steps) && s.sendPool == {}
    ensures OutstandingAfter(s, steps, false) == 0
  {
    StaysDownIsLegal(s, steps);
    RunKeepsInv(s, steps);
    RunKeepsPools(s, steps);
    OutstandingSendsBounded(After(s, steps));
    hide Inv, After, Tally;
  }

  /** Without DBG a period in which no send is ever outstanding exists only if there are no NBLs to send. */
  lemma UngatedSendsIff(s: System)
    requires Inv(s) && !s.dbg
    ensures (forall steps | StaysDown(s, steps) :: OutstandingAfter(s, steps, false) == 0) <==> s.sendPool == {}
  {
    hide Inv, OutstandingAfter;
    if s.sendPool == {} {
      forall steps | StaysDown(s, steps)
        ensures OutstandingAfter(s, steps, false) == 0
      {
        EmptyPool(s, steps);
      }
    } else {
      var x :| x in s.sendPool;
      var steps := FromAnywhere(s, x, false);
    }
  }

  lemma NothingToCount(s: System, step: Step)
    requires Inv(s) && Enabled(s, step) && s.recvPool == {} && Tally(s, CountedRcvs) == 0
    ensures Tally(Apply(s, step), CountedRcvs) == 0
  {
    StepCounts(s, step, CountedRcvs);
    if CountsReceive(s, step) {
      assert forall x :: Located(s, x);
      hide Inv;
      ReceivedFits(s, step.t);
    }
    OnlyReceivesAdd(s, step);
    hide Inv, Apply, Tally, Enabled, Located, Adds, Subtracts, Standing;
  }

  lemma OnlyReceivesAdd(s: System, step: Step)
    requires Enabled(s, step)
    ensures if CountsReceive(s, step) then Adds(Runner(s, step), CountedRcvs) == |s.threads[step.t].chain|
            else Adds(Runner(s, step), CountedRcvs) == 0
  {
  }

  lemma {:induction false} EmptyRecvPool(s: System, steps: seq<Step>)
    requires Inv(s) && StaysDown(s, steps) && s.recvPool == {} && Tally(s, CountedRcvs) == 0
    ensures OutstandingAfter(s, steps, true) == 0
    decreases |steps|
  {
    StaysDownIsLegal(s, steps);
    if steps != [] {
      NothingToCount(s, steps[0]);
      StepKeepsInv(s, steps[0]);
      PoolsKept(s, steps[0]);
      EmptyRecvPool(Apply(s, steps[0]), steps[1..]);
    }
    hide Inv, Apply, Tally, Enabled, Restarts;
  }

  /** Likewise for receives, unless one is handed back and not yet discounted from the start. */
  lemma UngatedReceivesIff(s: System)
    requires Inv(s) && !s.dbg
    ensures (forall steps | StaysDown(s, steps) :: OutstandingAfter(s, steps, true) == 0) <==>
            s.recvPool == {} && Tally(s, CountedRcvs) == 0
  {
    hide Inv;
    assert StaysDown(s, []) && OutstandingAfter(s, [], true) == Tally(s, CountedRcvs);
    hide OutstandingAfter, Tally;
    if s.recvPool == {} && Tally(s, CountedRcvs) == 0 {
      forall steps | StaysDown(s, steps)
        ensures OutstandingAfter(s, steps, true) == 0
      {
        EmptyRecvPool(s, steps);
      }
    } else if s.recvPool != {} {
      var x :| x in s.recvPool;
      var steps := FromAnywhere(s, x, true);
    }
  }
}
