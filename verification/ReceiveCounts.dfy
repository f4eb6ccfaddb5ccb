/**
 * What OutstandingRcvs stands for: the NBLs held above or on their way, each once, and those that a
 * return handler has handed back but not yet discounted, which may have come up again meanwhile.
 */
module ReceiveCounts {
  import opened Options
  import opened Ulongs
  import opened FilterModule
  import opened Datapath
  import opened DatapathInvariants
  import opened DatapathTheorems

  const RCVS_HELD := {RecvCounted, RecvLent, RecvSpent, ReturnArrived}
  const RCVS_BACK := {ReturnHandedBack}

  /** Counted NBLs that have not been handed back. */
  function HeldRcvs(s: System): multiset<Nbl> {
    s.recvUpper + ChainsAt(s.threads, RCVS_HELD)
  }

  /** NBLs handed back whose decrement is pending. */
  function HandedBack(s: System): multiset<Nbl> {
    ChainsAt(s.threads, RCVS_BACK)
  }

  function OutstandingRcvNbls(s: System): multiset<Nbl> {
    HeldRcvs(s) + HandedBack(s)
  }

  lemma {:induction false} ChainsAtUnion(threads: seq<Activity>, a: set<Stage>, b: set<Stage>)
    requires a !! b
    ensures ChainsAt(threads, a + b) == ChainsAt(threads, a) + ChainsAt(threads, b)
  {
    if threads != [] {
      ChainsAtUnion(threads[1..], a, b);
    }
  }

  /** The places of the stages at which counted NBLs are held. */
  lemma {:induction false} HeldAt(threads: seq<Activity>, x: Nbl)
    ensures ChainsAt(threads, RCVS_HELD)[x]
         <= Total(threads, At(RecvHandler, x)) + Total(threads, At(RecvLoan, x))
            + Total(threads, At(RecvAfterLoan, x)) + Total(threads, At(ReturnHandler, x))
  {
    if threads != [] {
      HeldAt(threads[1..], x);
    }
  }

  /** At and above the filter x is at most once, and not at all while it is below. */
  lemma OnceAbove(s: System, x: Nbl)
    requires Located(s, x)
    ensures s.recvUpper[x] + Total(s.threads, At(RecvHandler, x)) + Total(s.threads, At(RecvLoan, x))
            + Total(s.threads, At(RecvAfterLoan, x)) + Total(s.threads, At(ReturnHandler, x))
         <= if x in s.recvPool && Whereabouts(s, x) != RecvLower then 1 else 0
  {
    WalkKeepsSide(s.log, x, Home(s, x));
    hide Total, Walk;
    assert LocatedAt(s, x, RecvHandler) && LocatedAt(s, x, RecvLoan) && LocatedAt(s, x, RecvAfterLoan);
    assert LocatedAt(s, x, ReturnHandler) && LocatedAt(s, x, RecvUpper);
  }

  lemma HeldOnce(s: System, x: Nbl)
    requires Located(s, x)
    ensures HeldRcvs(s)[x] <= if x in s.recvPool && Whereabouts(s, x) != RecvLower then 1 else 0
  {
    HeldAt(s.threads, x);
    OnceAbove(s, x);
    hide Total, Walk, ChainsAt, Located;
  }

  /** Both parts of the count; the first is bounded by the pool. */
  lemma ReceiveSplit(s: System)
    requires Inv(s)
    ensures Tally(s, CountedRcvs) == |HeldRcvs(s)| + |HandedBack(s)|
    ensures HeldRcvs(s) <= multiset(s.recvPool)
    ensures |HeldRcvs(s)| <= |s.recvPool|
  {
    ChainsAtSize(s.threads, RCVS_HELD + RCVS_BACK, CountedRcvs);
    ChainsAtUnion(s.threads, RCVS_HELD, RCVS_BACK);
    var pool := multiset(s.recvPool);
    forall x: Nbl
      ensures HeldRcvs(s)[x] <= pool[x]
    {
      assert Located(s, x);
      HeldOnce(s, x);
    }
    SubmultisetSize(HeldRcvs(s), pool);
    hide Inv, Total, ChainsAt;
  }

  // ---- Conservation ----

  predicate AboutToDiscount(stage: Stage) {
    stage == RecvSpent || stage == ReturnHandedBack
  }

  /**
   * The counter is exact while the pool and what is handed back are together below 2^32; then it is
   * never below what is held above nor below a pending decrement.
   */
  predicate RcvsConserved(s: System) {
    var held, back := HeldRcvs(s), HandedBack(s);
    var counter := s.filter.outstandingRcvs;
    && held <= multiset(s.recvPool)
    && counter == Wrap(|held| + |back|)
    && (|s.recvPool| + |back| < ULONG_MODULUS ==>
          && counter == |held| + |back| >= |s.recvUpper|
          && forall t :: 0 <= t < |s.threads| && AboutToDiscount(s.threads[t].stage)
                         ==> |s.threads[t].chain| <= counter)
    && (Quiet(s) && s.recvUpper == multiset{} ==> counter == 0)
  }

  lemma PendingRcvFits(s: System, t: nat)
    requires t < |s.threads| && AboutToDiscount(s.threads[t].stage)
    ensures |s.threads[t].chain| <= Tally(s, CountedRcvs)
  {
    PendingFits(s, t, CountedRcvs);
    hide Tally;
  }

  lemma QuietTally(s: System)
    requires Quiet(s) && s.recvUpper == multiset{}
    ensures Tally(s, CountedRcvs) == 0
  {
    QuietCountsNothing(s.threads, CountedRcvs);
  }

  lemma PendingRcvsFit(s: System)
    ensures forall t :: 0 <= t < |s.threads| && AboutToDiscount(s.threads[t].stage) ==>
                          |s.threads[t].chain| <= Tally(s, CountedRcvs)
  {
    hide AboutToDiscount, Tally;
    forall t | 0 <= t < |s.threads| && AboutToDiscount(s.threads[t].stage)
      ensures |s.threads[t].chain| <= Tally(s, CountedRcvs)
    {
      PendingRcvFits(s, t);
    }
  }

  lemma HeldAbove(s: System)
    ensures |HeldRcvs(s)| >= |s.recvUpper|
  {
    hide ChainsAt;
  }

  lemma InvConservesRcvs(s: System)
    requires Inv(s)
    ensures RcvsConserved(s)
  {
    ReceiveSplit(s);
    assert s.filter.outstandingRcvs == Wrap(Tally(s, CountedRcvs));
    hide Inv, Tally, HeldRcvs, HandedBack, AboutToDiscount;
    HeldAbove(s);
    PendingRcvsFit(s);
    if Quiet(s) && s.recvUpper == multiset{} {
      QuietTally(s);
    }
    WrapSmall(Tally(s, CountedRcvs));
    hide Quiet, Wrap;
  }

  lemma ReceiveConservation(s0: System, steps: seq<Step>)
    requires Initial(s0) && Legal(s0, steps)
    ensures RcvsConserved(After(s0, steps))
  {
    hide *;
    ReachableInv(s0, steps);
    InvConservesRcvs(After(s0, steps));
  }

  // ---- When no NBL is counted twice ----

  ghost predicate CountedOnce(s: System) {
    forall x :: OutstandingRcvNbls(s)[x] <= 1
  }

  predicate IsBack(s: System, t: nat) {
    t < |s.threads| && s.threads[t].stage == ReturnHandedBack
  }

  /** Handed-back chains have nothing in common with what is held, nor with each other. */
  ghost predicate BackApart(s: System) {
    && (forall t: nat, x | IsBack(s, t) && x in s.threads[t].chain :: x !in HeldRcvs(s))
    && (forall t: nat, u: nat, x | IsBack(s, t) && IsBack(s, u) && t != u && x in s.threads[t].chain ::
          x !in s.threads[u].chain)
  }

  /** How often an activation contributes x. */
  function Own(a: Activity, stages: set<Stage>, x: Nbl): nat {
    if a.stage in stages then multiset(a.chain)[x] else 0
  }

  lemma {:induction false} ChainsAtUpdate(threads: seq<Activity>, stages: set<Stage>, t: nat, a: Activity, x: Nbl)
    requires t < |threads|
    ensures ChainsAt(threads[t := a], stages)[x] + Own(threads[t], stages, x)
         == ChainsAt(threads, stages)[x] + Own(a, stages, x)
  {
    if t > 0 {
      ChainsAtUpdate(threads[1..], stages, t - 1, a, x);
      assert threads[t := a][1..] == threads[1..][t - 1 := a];
    } else {
      assert threads[t := a][1..] == threads[1..];
    }
  }

  lemma {:induction false} ChainsAtAppend(threads: seq<Activity>, stages: set<Stage>, a: Activity, x: Nbl)
    ensures ChainsAt(threads + [a], stages)[x] == ChainsAt(threads, stages)[x] + Own(a, stages, x)
  {
    if threads != [] {
      ChainsAtAppend(threads[1..], stages, a, x);
      assert (threads + [a])[1..] == threads[1..] + [a];
    } else {
      assert (threads + [a])[1..] == [];
    }
  }

  const SPENT := Activity(Finished, [], false)

  /** Two of the chains together are no more than all. */
  lemma TwoChains(threads: seq<Activity>, stages: set<Stage>, t: nat, u: nat, x: Nbl)
    requires t < |threads| && u < |threads| && t != u
    requires threads[t].stage in stages && threads[u].stage in stages && Finished !in stages
    ensures ChainsAt(threads, stages)[x] >= multiset(threads[t].chain)[x] + multiset(threads[u].chain)[x]
  {
    ChainsAtUpdate(threads, stages, t, SPENT, x);
    ChainsAtUpdate(threads[t := SPENT], stages, u, SPENT, x);
  }

  lemma OneChain(threads: seq<Activity>, stages: set<Stage>, t: nat, x: Nbl)
    requires t < |threads| && threads[t].stage in stages && Finished !in stages
    ensures ChainsAt(threads, stages)[x] >= multiset(threads[t].chain)[x]
  {
    ChainsAtUpdate(threads, stages, t, SPENT, x);
  }

  lemma {:induction false} SomeChain(threads: seq<Activity>, stages: set<Stage>, x: Nbl) returns (t: nat)
    requires ChainsAt(threads, stages)[x] > 0
    ensures t < |threads| && threads[t].stage in stages && x in threads[t].chain
  {
    if threads[0].stage in stages && x in threads[0].chain {
      t := 0;
    } else {
      t := SomeChain(threads[1..], stages, x);
      t := t + 1;
    }
  }

  lemma SecondChain(threads: seq<Activity>, stages: set<Stage>, t: nat, x: Nbl) returns (u: nat)
    requires t < |threads| && threads[t].stage in stages && Finished !in stages
    requires multiset(threads[t].chain)[x] <= 1 < ChainsAt(threads, stages)[x]
    ensures u < |threads| && u != t && threads[u].stage in stages && x in threads[u].chain
  {
    ChainsAtUpdate(threads, stages, t, SPENT, x);
    u := SomeChain(threads[t := SPENT], stages, x);
  }

  lemma ApartOnce(s: System, x: Nbl)
    requires Inv(s) && BackApart(s)
    ensures OutstandingRcvNbls(s)[x] <= 1
  {
    assert Located(s, x);
    HeldOnce(s, x);
    if HandedBack(s)[x] > 0 {
      var t := SomeChain(s.threads, RCVS_BACK, x);
      assert IsBack(s, t) && s.threads[t] in s.threads && Proper(s.threads[t].chain);
      assert x !in HeldRcvs(s);
      if HandedBack(s)[x] > 1 {
        var u := SecondChain(s.threads, RCVS_BACK, t, x);
        assert false;
      }
    }
    hide Located, HeldRcvs;
  }

  lemma OnceApart(s: System)
    requires CountedOnce(s)
    ensures BackApart(s)
  {
    forall t: nat, x | IsBack(s, t) && x in s.threads[t].chain
      ensures x !in HeldRcvs(s)
    {
      OneChain(s.threads, RCVS_BACK, t, x);
      assert OutstandingRcvNbls(s)[x] <= 1;
      hide HeldRcvs;
    }
    forall t: nat, u: nat, x | IsBack(s, t) && IsBack(s, u) && t != u && x in s.threads[t].chain
      ensures x !in s.threads[u].chain
    {
      TwoChains(s.threads, RCVS_BACK, t, u, x);
      assert OutstandingRcvNbls(s)[x] <= 1;
      hide HeldRcvs;
    }
    hide ChainsAt;
  }

  /** No NBL is counted twice exactly while the chains handed back are apart from the rest. */
  lemma CountedOnceIff(s: System)
    requires Inv(s)
    ensures CountedOnce(s) <==> BackApart(s)
  {
    hide Inv, BackApart, OutstandingRcvNbls;
    if CountedOnce(s) {
      OnceApart(s);
    }
    if BackApart(s) {
      forall x
        ensures OutstandingRcvNbls(s)[x] <= 1
      {
        ApartOnce(s, x);
      }
    }
  }

  // ---- Which steps count an NBL twice ----

  const RCVS_COUNTED := RCVS_HELD + RCVS_BACK

  lemma OutstandingAt(s: System, x: Nbl)
    ensures OutstandingRcvNbls(s)[x] == s.recvUpper[x] + ChainsAt(s.threads, RCVS_COUNTED)[x]
  {
    ChainsAtUnion(s.threads, RCVS_HELD, RCVS_BACK);
    hide ChainsAt;
  }

  predicate CountsReceive(s: System, step: Step) {
    step.Run? && step.t < |s.threads| && s.threads[step.t].stage == RecvAdmitted
  }

  /** How often the step's section counts x, and discounts it. */
  function Counted(a: Activity, x: Nbl): nat {
    if a.stage == RecvAdmitted then multiset(a.chain)[x] else 0
  }

  function Discounted(a: Activity, x: Nbl): nat {
    if AboutToDiscount(a.stage) then multiset(a.chain)[x] else 0
  }

  lemma NextOwn(a: Activity, admits: bool, x: Nbl)
    ensures var a' := a.(stage := Next(a, admits));
            var up := match CallFrom(a) case Some(call) => call.To() == RecvUpper case None => false;
            && (CallFrom(a).Some? ==> CallFrom(a).value.From() != RecvUpper)
            && Own(a', RCVS_COUNTED, x) + (if up then multiset(a.chain)[x] else 0) + Discounted(a, x)
               == Own(a, RCVS_COUNTED, x) + Counted(a, x)
  {
  }

  lemma ContinuedThreads(s: System, t: nat)
    requires t < |s.threads|
    ensures Continue(s, t).threads == s.threads[t := Moved(s, t)]
    ensures CallFrom(s.threads[t]).None? ==> Continue(s, t).recvUpper == s.recvUpper
  {
    hide Next, Section, Shift, CallFrom;
  }

  lemma RunOutstanding(s: System, t: nat, x: Nbl)
    requires t < |s.threads|
    ensures OutstandingRcvNbls(Continue(s, t))[x] + Discounted(s.threads[t], x)
         == OutstandingRcvNbls(s)[x] + Counted(s.threads[t], x)
  {
    var a := s.threads[t];
    NextOwn(a, s.filter.Admits(), x);
    ContinuedThreads(s, t);
    ChainsAtUpdate(s.threads, RCVS_COUNTED, t, Moved(s, t), x);
    OutstandingAt(s, x);
    OutstandingAt(Continue(s, t), x);
    if CallFrom(a).Some? {
      ContinueLayers(s, t, CallOf(s, Run(t)).value, RecvUpper, x);
    }
    hide ChainsAt, Continue, OutstandingRcvNbls, Next, CallFrom, Own, Call.From, Call.To, Counted, Discounted;
  }

  lemma EntryOwn(dbg: bool, call: Call, c: Chain, canPend: bool, x: Nbl)
    requires EntersHandler(call)
    ensures call.To() != RecvUpper
    ensures Own(Activity(Entry(dbg, call), c, canPend), RCVS_COUNTED, x)
         == if call.From() == RecvUpper then multiset(c)[x] else 0
  {
  }

  lemma EnterOutstanding(s: System, step: Step, x: Nbl)
    requires Enabled(s, step) && step.CallHandler?
    ensures OutstandingRcvNbls(Apply(s, step))[x] == OutstandingRcvNbls(s)[x]
  {
    var e := EntryEvent(s, step);
    EntryOwn(s.dbg, step.call, step.chain, step.canPend, x);
    ChainsAtAppend(s.threads, RCVS_COUNTED, Entered(s, step), x);
    OutstandingAt(s, x);
    OutstandingAt(Apply(s, step), x);
    EnterLayers(s, step, e, RecvUpper, x);
    EnteredThreads(s, step);
    hide ChainsAt, Apply, OutstandingRcvNbls, Entry, Own, Call.From, Call.To;
  }

  lemma EnteredThreads(s: System, step: Step)
    requires Enabled(s, step) && step.CallHandler?
    ensures Apply(s, step).threads == s.threads + [Entered(s, step)]
  {
    hide Shift, Entry;
  }

  lemma ControlOutstanding(s: System)
    ensures OutstandingRcvNbls(Administer(s)) == OutstandingRcvNbls(s)
  {
    hide ChainsAt;
  }

  lemma StepOutstanding(s: System, step: Step, x: Nbl)
    requires Enabled(s, step)
    ensures OutstandingRcvNbls(Apply(s, step))[x] + Discounted(Runner(s, step), x)
         == OutstandingRcvNbls(s)[x] + Counted(Runner(s, step), x)
  {
    hide OutstandingRcvNbls, Continue, Transfer, Administer;
    match step {
      case CallHandler(_, _, _) => EnterOutstanding(s, step, x);
      case Run(t) => RunOutstanding(s, t, x);
      case Control => ControlOutstanding(s);
    }
  }

  /** What the receive handler is about to count it has not been counted for, other than as handed back. */
  lemma AboutToCount(s: System, t: nat, x: Nbl)
    requires Inv(s) && t < |s.threads| && s.threads[t].stage == RecvAdmitted && x in s.threads[t].chain
    ensures HeldRcvs(s)[x] == 0 && multiset(s.threads[t].chain)[x] == 1
  {
    assert Located(s, x);
    HeldBut(s, t, x);
    OnceAbove(s, x);
    hide Total, ChainsAt, Located, Whereabouts, HeldRcvs, CountersAgree, RefusalsMarked;
  }

  lemma HeldBut(s: System, t: nat, x: Nbl)
    requires t < |s.threads| && s.threads[t].stage == RecvAdmitted
    ensures HeldRcvs(s)[x] + multiset(s.threads[t].chain)[x]
         <= s.recvUpper[x] + Total(s.threads, At(RecvHandler, x)) + Total(s.threads, At(RecvLoan, x))
            + Total(s.threads, At(RecvAfterLoan, x)) + Total(s.threads, At(ReturnHandler, x))
  {
    var rest := s.threads[t := SPENT];
    ChainsAtUpdate(s.threads, RCVS_HELD, t, SPENT, x);
    HeldAt(rest, x);
    TotalUpdate(s.threads, t, SPENT, At(RecvHandler, x));
    TotalUpdate(s.threads, t, SPENT, At(RecvLoan, x));
    TotalUpdate(s.threads, t, SPENT, At(RecvAfterLoan, x));
    TotalUpdate(s.threads, t, SPENT, At(ReturnHandler, x));
    hide Total, ChainsAt;
  }

  /** The step counts an NBL that a return handler has yet to discount. */
  ghost predicate CountsBack(s: System, step: Step) {
    CountsReceive(s, step) && exists x :: x in s.threads[step.t].chain && HandedBack(s)[x] > 0
  }

  lemma StepOnceAt(s: System, step: Step, x: Nbl)
    requires Inv(s) && Enabled(s, step) && OutstandingRcvNbls(s)[x] <= 1
    ensures OutstandingRcvNbls(Apply(s, step))[x] <= 1 <==>
            !(CountsReceive(s, step) && x in s.threads[step.t].chain && HandedBack(s)[x] > 0)
  {
    StepOutstanding(s, step, x);
    if CountsReceive(s, step) && x in s.threads[step.t].chain {
      AboutToCount(s, step.t, x);
    }
    hide Inv, Apply, HeldRcvs, HandedBack;
  }

  /** While nothing is counted twice, exactly such a step makes it so. */
  lemma StepOnceIff(s: System, step: Step)
    requires Inv(s) && Enabled(s, step) && CountedOnce(s)
    ensures CountedOnce(Apply(s, step)) <==> !CountsBack(s, step)
  {
    forall x
      ensures OutstandingRcvNbls(Apply(s, step))[x] <= 1 <==>
              !(CountsReceive(s, step) && x in s.threads[step.t].chain && HandedBack(s)[x] > 0)
    {
      StepOnceAt(s, step, x);
    }
    hide Inv, Apply, OutstandingRcvNbls, HandedBack, CountsReceive;
  }

  /** Nothing is counted twice in any state of the run. */
  ghost predicate CountedOnceThroughout(s: System, steps: seq<Step>)
    requires Legal(s, steps)
    decreases |steps|
  {
    CountedOnce(s) && (steps != [] ==> CountedOnceThroughout(Apply(s, steps[0]), steps[1..]))
  }

  ghost predicate NeverCountsBack(s: System, steps: seq<Step>)
    requires Legal(s, steps)
    decreases |steps|
  {
    steps != [] ==> !CountsBack(s, steps[0]) && NeverCountsBack(Apply(s, steps[0]), steps[1..])
  }

  lemma {:induction false} RunOnceIff(s: System, steps: seq<Step>)
    requires Inv(s) && CountedOnce(s) && Legal(s, steps)
    ensures CountedOnceThroughout(s, steps) <==> NeverCountsBack(s, steps)
    decreases |steps|
  {
    if steps != [] {
      StepOnceIff(s, steps[0]);
      StepKeepsInv(s, steps[0]);
      if CountedOnce(Apply(s, steps[0])) {
        RunOnceIff(Apply(s, steps[0]), steps[1..]);
      }
    }
    hide Inv, Apply, Enabled, CountedOnce, CountsBack;
  }

  lemma InitiallyOnce(s: System)
    requires Initial(s)
    ensures CountedOnce(s)
  {
  }

  /** So in the runs of a freshly attached module. */
  lemma ReachableOnceIff(s0: System, steps: seq<Step>)
    requires Initial(s0) && Legal(s0, steps)
    ensures CountedOnceThroughout(s0, steps) <==> NeverCountsBack(s0, steps)
  {
    InitialInv(s0);
    InitiallyOnce(s0);
    RunOnceIff(s0, steps);
    hide *;
  }

  // ---- A lower layer that waits for the return handler ----

  /** No Receive carries an NBL that a return handler has yet to discount. */
  ghost predicate Waits(s: System, step: Step) {
    step.CallHandler? && step.call == Receive ==> forall x :: x in step.chain ==> HandedBack(s)[x] == 0
  }

  ghost predicate WaitsThroughout(s: System, steps: seq<Step>)
    requires Legal(s, steps)
    decreases |steps|
  {
    steps != [] ==> Waits(s, steps[0]) && WaitsThroughout(Apply(s, steps[0]), steps[1..])
  }

  /** What is handed back and not yet discounted is below, and there only once. */
  ghost predicate Settled(s: System) {
    forall x :: SettledAt(s, x)
  }

  predicate SettledAt(s: System, x: Nbl) {
    HandedBack(s)[x] <= 1 && (HandedBack(s)[x] > 0 ==> x in s.recvPool && Whereabouts(s, x) == RecvLower)
  }

  function Returned(a: Activity, stage: Stage, x: Nbl): nat {
    if a.stage == stage then multiset(a.chain)[x] else 0
  }

  lemma NextBack(a: Activity, admits: bool, x: Nbl)
    ensures Own(a.(stage := Next(a, admits)), RCVS_BACK, x) == Returned(a, ReturnArrived, x)
    ensures Own(a, RCVS_BACK, x) == Returned(a, ReturnHandedBack, x)
  {
  }

  lemma StepBack(s: System, step: Step, x: Nbl)
    requires Enabled(s, step)
    ensures HandedBack(Apply(s, step))[x] + Returned(Runner(s, step), ReturnHandedBack, x)
         == HandedBack(s)[x] + Returned(Runner(s, step), ReturnArrived, x)
  {
    hide ChainsAt, Next, Own, Continue, Transfer, Entry;
    match step {
      case CallHandler(call, c, canPend) =>
        EnteredThreads(s, step);
        ChainsAtAppend(s.threads, RCVS_BACK, Entered(s, step), x);
        EntryNotBack(s.dbg, call, c, canPend, x);
      case Run(t) =>
        NextBack(s.threads[t], s.filter.Admits(), x);
        ContinuedThreads(s, t);
        ChainsAtUpdate(s.threads, RCVS_BACK, t, Moved(s, t), x);
      case Control =>
    }
  }

  lemma EntryNotBack(dbg: bool, call: Call, c: Chain, canPend: bool, x: Nbl)
    requires EntersHandler(call)
    ensures Own(Activity(Entry(dbg, call), c, canPend), RCVS_BACK, x) == 0
  {
  }

  lemma StandsThere(s: System, t: nat, x: Nbl)
    requires t < |s.threads| && Located(s, x) && x in s.threads[t].chain && Standing(s.threads[t].stage) != Astray
    ensures Whereabouts(s, x) == Standing(s.threads[t].stage)
    ensures !OnSendSide(Standing(s.threads[t].stage)) ==> x in s.recvPool
  {
    var p := Standing(s.threads[t].stage);
    ShareInTotal(s.threads, t, At(p, x));
    assert LocatedAt(s, x, p);
    if !OnSendSide(p) {
      OfRecvPool(s, p, x);
    }
    hide Total, Walk, Standing, Located;
  }

  lemma HeldByLayer(s: System, p: Place, x: Nbl)
    requires Located(s, x) && Layer(s, p)[x] > 0
    ensures Whereabouts(s, x) == p
  {
    assert LocatedAt(s, x, p);
    hide Total, Walk;
  }

  lemma EntryWhereabouts(s: System, step: Step, x: Nbl)
    requires Enabled(s, step) && step.CallHandler? && Located(s, x)
    ensures if x in step.chain
            then Whereabouts(s, x) == step.call.From() && Whereabouts(Apply(s, step), x) == step.call.To()
            else Whereabouts(Apply(s, step), x) == Whereabouts(s, x)
  {
    PoolsKept(s, step);
    EnterTotals(s, step, CountedRcvs);
    WalkOn(s, Apply(s, step), EntryEvent(s, step), x);
    if x in step.chain {
      assert Layer(s, step.call.From())[x] > 0;
      HeldByLayer(s, step.call.From(), x);
    }
    hide Apply, Located, Walk, Whereabouts, Layer, Total, Share, Call.From, Call.To;
  }

  lemma EntersFromBelow(call: Call)
    requires EntersHandler(call) && call.From() == RecvLower
    ensures call == Receive
  {
  }

  lemma EntrySettled(s: System, step: Step, x: Nbl)
    requires Inv(s) && SettledAt(s, x) && Enabled(s, step) && step.CallHandler? && Waits(s, step)
    ensures SettledAt(Apply(s, step), x)
  {
    assert Located(s, x);
    StepBack(s, step, x);
    PoolsKept(s, step);
    EntryWhereabouts(s, step, x);
    hide Inv, Apply, Located, HandedBack, Whereabouts, Layer, Call.From, Call.To;
    if x in step.chain && step.call.From() == RecvLower {
      EntersFromBelow(step.call);
    }
  }

  /** Of the stages' calls only the return handler's leads below what it then has yet to discount. */
  lemma StageCalls(a: Activity)
    ensures CallFrom(a).Some? ==> Standing(a.stage) == CallFrom(a).value.From() != RecvLower
    ensures CallFrom(a).Some? ==> Standing(a.stage) != Astray
    ensures a.stage == ReturnArrived ==> CallFrom(a) == Some(HandBack) && HandBack.To() == RecvLower
    ensures a.stage == ReturnHandedBack ==> CallFrom(a).None?
    ensures a.stage == ReturnArrived ==> !OnSendSide(Standing(a.stage))
  {
  }

  lemma RunWhereabouts(s: System, t: nat, x: Nbl)
    requires t < |s.threads| && Located(s, x)
    ensures var call := CallFrom(s.threads[t]);
            if call.Some? && x in s.threads[t].chain
            then Whereabouts(s, x) == call.value.From() && Whereabouts(Continue(s, t), x) == call.value.To()
            else Whereabouts(Continue(s, t), x) == Whereabouts(s, x)
  {
    PoolsKept(s, Run(t));
    StepMoves(s, Run(t), RecvLower, x);
    StageCalls(s.threads[t]);
    hide Continue, Located, Walk, Tally, CallFrom, Call.From, Call.To, Standing;
    match CallOf(s, Run(t)) {
      case Some(e) =>
        WalkOn(s, Continue(s, t), e, x);
        if x in s.threads[t].chain {
          StandsThere(s, t, x);
        }
      case None =>
    }
  }

  lemma RunSettled(s: System, t: nat, x: Nbl)
    requires Inv(s) && SettledAt(s, x) && t < |s.threads|
    ensures SettledAt(Continue(s, t), x)
  {
    var a := s.threads[t];
    assert Located(s, x) && a in s.threads && Proper(a.chain);
    StepBack(s, Run(t), x);
    PoolsKept(s, Run(t));
    RunWhereabouts(s, t, x);
    StageCalls(a);
    hide Inv, Continue, Located, HandedBack, Whereabouts, CallFrom, Call.From, Call.To, Standing;
    if x in a.chain && a.stage == ReturnArrived {
      StandsThere(s, t, x);
    }
  }

  lemma AnySettled(s: System, step: Step, x: Nbl)
    requires Inv(s) && SettledAt(s, x) && Enabled(s, step) && Waits(s, step)
    ensures SettledAt(Apply(s, step), x)
  {
    hide Continue, Waits, Inv, ChainsAt, Walk;
    match step {
      case CallHandler(_, _, _) => EntrySettled(s, step, x);
      case Run(t) => RunSettled(s, t, x);
      case Control =>
    }
  }

  lemma StepSettled(s: System, step: Step)
    requires Inv(s) && Settled(s) && Enabled(s, step) && Waits(s, step)
    ensures Settled(Apply(s, step))
  {
    hide Inv, Enabled, Waits, Apply, SettledAt;
    forall x
      ensures SettledAt(Apply(s, step), x)
    {
      AnySettled(s, step, x);
    }
  }

  lemma {:induction false} WaitingRun(s: System, steps: seq<Step>)
    requires Inv(s) && Settled(s) && Legal(s, steps) && WaitsThroughout(s, steps)
    ensures Inv(After(s, steps)) && Settled(After(s, steps))
    decreases |steps|
  {
    if steps != [] {
      StepKeepsInv(s, steps[0]);
      StepSettled(s, steps[0]);
      WaitingRun(Apply(s, steps[0]), steps[1..]);
    }
    hide Inv, Settled, Apply, Enabled, Waits;
  }

  lemma InitiallySettled(s: System)
    requires Initial(s)
    ensures Settled(s)
  {
  }

  lemma WithinPoolAt(s: System, x: Nbl)
    requires Inv(s) && SettledAt(s, x)
    ensures OutstandingRcvNbls(s)[x] <= if x in s.recvPool then 1 else 0
  {
    assert Located(s, x);
    HeldOnce(s, x);
    hide Inv, Located, Whereabouts, HeldRcvs, HandedBack;
  }

  /** So nothing is counted twice, and no more than the pool. */
  lemma SettledCounts(s: System)
    requires Inv(s) && Settled(s)
    ensures CountedOnce(s) && |OutstandingRcvNbls(s)| <= |s.recvPool|
  {
    var pool := multiset(s.recvPool);
    hide Inv, SettledAt, OutstandingRcvNbls;
    forall x
      ensures OutstandingRcvNbls(s)[x] <= 1 && OutstandingRcvNbls(s)[x] <= pool[x]
    {
      WithinPoolAt(s, x);
    }
    SubmultisetSize(OutstandingRcvNbls(s), pool);
  }

  lemma SettledExact(s: System)
    requires Inv(s) && Settled(s) && |s.recvPool| < ULONG_MODULUS
    ensures s.filter.outstandingRcvs == |OutstandingRcvNbls(s)|
  {
    SettledCounts(s);
    ReceiveSplit(s);
    assert s.filter.outstandingRcvs == Wrap(Tally(s, CountedRcvs));
    hide Inv, Settled, CountedOnce, Tally, HeldRcvs, HandedBack;
  }

  /**
   * If the lower layer does not indicate NBLs again before the return handler has discounted them, no
   * NBL is ever counted twice, and the counter is exact while the pool has fewer than 2^32.
   */
  lemma WaitingCountsOnce(s0: System, steps: seq<Step>)
    requires Initial(s0) && Legal(s0, steps) && WaitsThroughout(s0, steps)
    ensures var s := After(s0, steps);
            && CountedOnce(s)
            && (|s0.recvPool| < ULONG_MODULUS ==>
                  s.filter.outstandingRcvs == |OutstandingRcvNbls(s)| <= |s0.recvPool|)
  {
    hide *;
    InitialInv(s0);
    InitiallySettled(s0);
    WaitingRun(s0, steps);
    RunKeepsPools(s0, steps);
    var s := After(s0, steps);
    SettledCounts(s);
    if |s0.recvPool| < ULONG_MODULUS {
      SettledExact(s);
    }
  }
}
