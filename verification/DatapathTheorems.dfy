/** The driver's promises on the datapath, over every run of a freshly attached module. */
module DatapathTheorems {
  import opened Ulongs
  import opened FilterModule
  import opened Datapath
  import opened DatapathInvariants

  // ---- Outstanding sends ----

  /** The NBLs of the activations at certain stages, with their multiplicity. */
  function ChainsAt(threads: seq<Activity>, stages: set<Stage>): multiset<Nbl> {
    if threads == [] then multiset{}
    else
      (if threads[0].stage in stages then multiset(threads[0].chain) else multiset{})
      + ChainsAt(threads[1..], stages)
  }

  lemma {:induction false} ChainsAtSize(threads: seq<Activity>, stages: set<Stage>, m: Measure)
    requires IsCounter(m) && forall st :: Concerns(m, st) <==> st in stages
    ensures |ChainsAt(threads, stages)| == Total(threads, m)
  {
    if threads != [] {
      ChainsAtSize(threads[1..], stages, m);
      hide Concerns;
    }
  }

  const SENDS_COUNTED := {SendCounted, CompleteArrived}

  /** The NBLs that OutstandingSends stands for. */
  function OutstandingSendNbls(s: System): multiset<Nbl> {
    s.sendLower + ChainsAt(s.threads, SENDS_COUNTED)
  }

  lemma {:induction false} SendsCountedAt(threads: seq<Activity>, x: Nbl)
    ensures ChainsAt(threads, SENDS_COUNTED)[x]
         <= Total(threads, At(SendHandler, x)) + Total(threads, At(CompleteHandler, x))
  {
    if threads != [] {
      SendsCountedAt(threads[1..], x);
    }
  }

  lemma OutstandingOnce(s: System, x: Nbl)
    requires Inv(s)
    ensures OutstandingSendNbls(s)[x] <= if x in s.sendPool then 1 else 0
  {
    SendsCountedAt(s.threads, x);
    assert Located(s, x);
    WalkKeepsSide(s.log, x, Home(s, x));
    hide Total, Walk, Inv, ChainsAt;
    assert LocatedAt(s, x, SendHandler) && LocatedAt(s, x, CompleteHandler) && LocatedAt(s, x, SendLower);
  }

  /** No NBL is counted twice. */
  lemma OutstandingSendsBounded(s: System)
    requires Inv(s)
    ensures OutstandingSendNbls(s) <= multiset(s.sendPool)
    ensures |OutstandingSendNbls(s)| == Tally(s, CountedSends) <= |s.sendPool|
  {
    ChainsAtSize(s.threads, SENDS_COUNTED, CountedSends);
    var pool := multiset(s.sendPool);
    forall x: Nbl
      ensures OutstandingSendNbls(s)[x] <= pool[x]
    {
      OutstandingOnce(s, x);
    }
    SubmultisetSize(OutstandingSendNbls(s), pool);
    hide Inv, Total, ChainsAt;
  }

  // ---- The theorems ----

  predicate Quiet(s: System) {
    forall t :: 0 <= t < |s.threads| ==> s.threads[t].stage == Finished
  }

  lemma {:induction false} QuietCountsNothing(threads: seq<Activity>, m: Measure)
    requires forall t :: 0 <= t < |threads| ==> threads[t].stage == Finished
    ensures Total(threads, m) == 0
  {
    if threads != [] {
      QuietCountsNothing(threads[1..], m);
    }
  }

  /** A pending decrement is never larger than what is counted. */
  lemma PendingFits(s: System, t: nat, m: Measure)
    requires t < |s.threads| && IsCounter(m)
    ensures Subtracts(s.threads[t], m) <= Tally(s, m)
  {
    StepCounts(s, Run(t), m);
    hide Apply, Tally, Subtracts;
  }

  lemma {:induction false} RunKeepsPools(s: System, steps: seq<Step>)
    requires Legal(s, steps)
    ensures After(s, steps).sendPool == s.sendPool && After(s, steps).recvPool == s.recvPool
    decreases |steps|
  {
    if steps != [] {
      PoolsKept(s, steps[0]);
      RunKeepsPools(Apply(s, steps[0]), steps[1..]);
    }
    hide Apply, Enabled;
  }

  lemma {:induction false} ReachableInv(s: System, steps: seq<Step>)
    requires Initial(s) && Legal(s, steps)
    ensures Inv(After(s, steps))
  {
    InitialInv(s);
    RunKeepsInv(s, steps);
    hide Inv, Initial, Legal, After;
  }

  /**
   * OutstandingSends stands for distinct NBLs of the send pool, is exact while that pool has fewer
   * than 2^32, never goes below a pending decrement, and is 0 when nothing is under way.
   */
  predicate SendsConserved(s: System) {
    var outstanding := OutstandingSendNbls(s);
    var counter := s.filter.outstandingSends;
    && outstanding <= multiset(s.sendPool)
    && counter == Wrap(|outstanding|)
    && (|s.sendPool| < ULONG_MODULUS ==>
          && counter == |outstanding|
          && forall t :: 0 <= t < |s.threads| && s.threads[t].stage == CompleteArrived
                         ==> |s.threads[t].chain| <= counter)
    && (Quiet(s) && s.sendLower == multiset{} ==> counter == 0)
  }

  lemma PendingSendFits(s: System, t: nat)
    requires t < |s.threads| && s.threads[t].stage == CompleteArrived
    ensures |s.threads[t].chain| <= Tally(s, CountedSends)
  {
    PendingFits(s, t, CountedSends);
    hide Tally;
  }

  lemma InvConservesSends(s: System)
    requires Inv(s)
    ensures SendsConserved(s)
  {
    OutstandingSendsBounded(s);
    assert s.filter.outstandingSends == Wrap(Tally(s, CountedSends));
    if Quiet(s) && s.sendLower == multiset{} {
      QuietCountsNothing(s.threads, CountedSends);
      assert Tally(s, CountedSends) == 0;
    }
    hide Inv, OutstandingSendNbls, Tally;
    forall t | 0 <= t < |s.threads| && s.threads[t].stage == CompleteArrived
      ensures |s.threads[t].chain| <= Tally(s, CountedSends)
    {
      PendingSendFits(s, t);
    }
  }

  lemma {:induction false} SendConservation(s0: System, steps: seq<Step>)
    requires Initial(s0) && Legal(s0, steps)
    ensures SendsConserved(After(s0, steps))
  {
    hide *;
    ReachableInv(s0, steps);
    InvConservesSends(After(s0, steps));
  }

  lemma InvLocates(s: System, x: Nbl, p: Place)
    requires Inv(s)
    ensures LocatedAt(s, x, p) && (x in s.sendPool || x in s.recvPool ==> Whereabouts(s, x) != Astray)
  {
    assert Located(s, x);
    hide LocatedAt;
  }

  /**
   * Every NBL has exactly one owner, and the calls that carried it so far form one connected path:
   * each submission is forwarded or refused but not both, each completion is passed up once, each
   * received chain is indicated or given back but not both, each indicated one comes back once.
   */
  lemma SingleOwnerAndDisposition(s0: System, steps: seq<Step>, x: Nbl, p: Place)
    requires Initial(s0) && Legal(s0, steps)
    ensures var s := After(s0, steps);
            var owned := x in s0.sendPool || x in s0.recvPool;
            && (owned ==> Walk(s.log, x, Home(s0, x)) != Astray)
            && Layer(s, p)[x] + Total(s.threads, At(p, x)) ==
               if owned && p == Walk(s.log, x, Home(s0, x)) then 1 else 0
  {
    RunKeepsPools(s0, steps);
    hide Legal, After, Inv, Walk, Total, Layer, Initial;
    ReachableInv(s0, steps);
    InvLocates(After(s0, steps), x, p);
  }

  /** Refused sends come back up with every NBL marked paused. */
  lemma {:induction false} RefusedSendsAreMarked(s0: System, steps: seq<Step>, i: nat)
    requires Initial(s0) && Legal(s0, steps)
    requires i < |After(s0, steps).log| && After(s0, steps).log[i].call == RefuseUp
    ensures AllMarked(After(s0, steps).log[i])
  {
    ReachableInv(s0, steps);
    hide Legal, After, CountersAgree, Located, LifecycleAgrees;
  }

  /** No assertion fires, tracking stays on, and between lifecycle calls the module is paused or running. */
  lemma {:induction false} LifecycleSafety(s0: System, steps: seq<Step>)
    requires Initial(s0) && Legal(s0, steps)
    ensures var s := After(s0, steps);
            && s.assertsHeld
            && (|s0.recvPool| < ULONG_MODULUS ==> s.countAssertsHeld)
            && s.filter.trackSends && s.filter.trackReceives
            && (s.filter.state == FilterPausing <==> s.ndis == NdisAwaitingPause)
            && (s.filter.state == FilterRunning <==> s.ndis == NdisRunning || s.ndis == NdisCallingPause)
            && (s.filter.state == FilterPaused <==> s.ndis == NdisPaused || s.ndis == NdisCallingRestart)
  {
    ReachableInv(s0, steps);
    RunKeepsPools(s0, steps);
    hide Legal, After, Located, RefusalsMarked;
  }
}
