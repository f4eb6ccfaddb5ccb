/**
 * Each handler run from its call to its end with nobody in between: the steps of the transition system
 * then make the calls, and leave the fields and marks, that the handlers on the heap are proved to.
 */
module HandlersAlone {
  import opened Options
  import opened FilterModule
  import opened Datapath
  import opened DatapathInvariants
  import opened DatapathLimits
  import opened Dispositions
  import FilterHandlers

  /** n steps of activation t. */
  function Runs(t: nat, n: nat): seq<Step> {
    if n == 0 then [] else [Run(t)] + Runs(t, n - 1)
  }

  function Ran(s: System, t: nat, n: nat): (s': System)
    requires t < |s.threads|
    ensures t < |s'.threads|
    decreases n
  {
    if n == 0 then s
    else
      ContinuedThread(s, t);
      Ran(Continue(s, t), t, n - 1)
  }

  /** What one step of activation t does, stage by stage. */
  lemma ContinuedThread(s: System, t: nat)
    requires t < |s.threads|
    ensures var s' := Continue(s, t);
            var a := s.threads[t];
            && |s'.threads| == |s.threads| && s'.threads[t] == Moved(s, t) && s'.dbg == s.dbg
            && s'.filter == Section(a, s.filter)
            && s'.marked == (if a.stage == SendRefused then s.marked + Elements(a.chain) else s.marked)
            && s'.log == (match CallFrom(a) case Some(call) => s.log + [RunEvent(s, t, call)] case None => s.log)
  {
    hide Next, Section, CallFrom, Shift;
  }

  lemma {:induction false} RunsLegal(s: System, t: nat, n: nat)
    requires t < |s.threads|
    ensures Legal(s, Runs(t, n)) && After(s, Runs(t, n)) == Ran(s, t, n)
    decreases n
  {
    hide Continue;
    if n > 0 {
      ContinuedThread(s, t);
      RunsLegal(Continue(s, t), t, n - 1);
      assert Runs(t, n)[1..] == Runs(t, n - 1);
    }
  }

  /** The handler's call, then its steps. */
  function Alone(s: System, step: Step, n: nat): seq<Step> {
    [step] + Runs(|s.threads|, n)
  }

  lemma Called(s: System, step: Step, n: nat)
    requires Enabled(s, step) && step.CallHandler?
    ensures Legal(s, Alone(s, step, n))
    ensures var s1 := Apply(s, step);
            && |s1.threads| == |s.threads| + 1 && s1.threads[|s.threads|] == Entered(s, step)
            && s1.filter == s.filter && s1.dbg == s.dbg && s1.marked == MarkedOnEntry(s, step)
            && s1.log == s.log + [EntryEvent(s, step)]
            && After(s, Alone(s, step, n)) == Ran(s1, |s.threads|, n)
  {
    EntryFrame(s, step);
    FilterAfter(s, step);
    PoolsKept(s, step);
    RunsLegal(Apply(s, step), |s.threads|, n);
    assert Alone(s, step, n)[1..] == Runs(|s.threads|, n);
    hide Apply, Entered, Ran;
  }

  /** The calls of the log without the marks. */
  datatype Made = Made(call: Call, chain: Chain)

  function Calls(log: seq<Event>): seq<Made> {
    seq(|log|, i requires 0 <= i < |log| => Made(log[i].call, log[i].chain))
  }

  /** The end of a handler: finished, with these calls logged, fields and marks. */
  predicate Ends(s: System, t: nat, s': System, calls: seq<Made>, f: Filter, marked: set<Nbl>) {
    && t < |s'.threads| && s'.threads[t].stage == Finished
    && Calls(s'.log) == Calls(s.log) + calls
    && s'.filter == f && s'.marked == marked
  }

  lemma CallsNext(log: seq<Event>, e: Event)
    ensures Calls(log + [e]) == Calls(log) + [Made(e.call, e.chain)]
  {
  }

  /** The same from the middle: what remains to be done from a stage on. */
  predicate Goes(s: System, t: nat, n: nat, calls: seq<Made>, f: Filter, marked: set<Nbl>)
    requires t < |s.threads|
  {
    Ends(s, t, Ran(s, t, n), calls, f, marked)
  }

  lemma GoesOn(s: System, t: nat, n: nat, calls: seq<Made>, f: Filter, marked: set<Nbl>)
    requires t < |s.threads| && n > 0
    requires t < |Continue(s, t).threads| && Goes(Continue(s, t), t, n - 1, calls, f, marked)
    ensures Goes(s, t, n, Opening(s.threads[t]) + calls, f, marked)
  {
    ContinuedThread(s, t);
    Opened(s, t);
    RanOn(s, t, n);
    hide Continue, Ran, Calls, Opening;
    EndsEarlier(s, Continue(s, t), t, Ran(s, t, n), Opening(s.threads[t]), calls, f, marked);
    hide Ends;
  }

  lemma RanOn(s: System, t: nat, n: nat)
    requires t < |s.threads| && n > 0
    ensures t < |Continue(s, t).threads| && Ran(s, t, n) == Ran(Continue(s, t), t, n - 1)
  {
    ContinuedThread(s, t);
    hide Continue;
  }

  lemma EndsEarlier(s: System, s1: System, t: nat, s': System, first: seq<Made>, rest: seq<Made>,
                    f: Filter, marked: set<Nbl>)
    requires Calls(s1.log) == Calls(s.log) + first && Ends(s1, t, s', rest, f, marked)
    ensures Ends(s, t, s', first + rest, f, marked)
  {
    hide Calls;
    assert Calls(s.log) + first + rest == Calls(s.log) + (first + rest);
  }

  /** The call made by the next step, if it makes one. */
  function Opening(a: Activity): seq<Made> {
    match CallFrom(a)
    case Some(call) => [Made(call, a.chain)]
    case None => []
  }

  lemma Opened(s: System, t: nat)
    requires t < |s.threads|
    ensures Calls(Continue(s, t).log) == Calls(s.log) + Opening(s.threads[t])
  {
    ContinuedThread(s, t);
    if CallFrom(s.threads[t]).Some? {
      CallsNext(s.log, RunEvent(s, t, CallFrom(s.threads[t]).value));
    }
    hide Continue, CallFrom, Calls;
  }

  lemma Over(s: System, t: nat)
    requires t < |s.threads| && s.threads[t].stage == Finished
    ensures Goes(s, t, 0, [], s.filter, s.marked)
  {
  }

  // ---- Sends ----

  /** From past the check: count, hand down. */
  lemma SendGoes(s: System, t: nat)
    requires t < |s.threads| && s.threads[t].stage == SendAdmitted
    ensures Goes(s, t, 2, [Made(Forward, s.threads[t].chain)], s.filter.CountSends(|s.threads[t].chain|), s.marked)
  {
    hide Continue, Ends, Filter.CountSends, Ran;
    ContinuedThread(s, t);
    var s1 := Continue(s, t);
    ContinuedThread(s1, t);
    Over(Continue(s1, t), t);
    GoesOn(s1, t, 1, [], s1.filter, s.marked);
    GoesOn(s, t, 2, Opening(s1.threads[t]) + [], s1.filter, s.marked);
    assert Opening(s.threads[t]) + (Opening(s1.threads[t]) + []) == [Made(Forward, s.threads[t].chain)];
  }

  /** Marked, completed. */
  lemma RefusalGoes(s: System, t: nat)
    requires t < |s.threads| && s.threads[t].stage == SendRefused
    ensures Goes(s, t, 2, [Made(RefuseUp, s.threads[t].chain)], s.filter, s.marked + Elements(s.threads[t].chain))
  {
    hide Continue, Ends, Ran;
    ContinuedThread(s, t);
    var s1 := Continue(s, t);
    ContinuedThread(s1, t);
    Over(Continue(s1, t), t);
    GoesOn(s1, t, 1, [], s.filter, s1.marked);
    GoesOn(s, t, 2, Opening(s1.threads[t]) + [], s.filter, s1.marked);
    assert Opening(s.threads[t]) + (Opening(s1.threads[t]) + []) == [Made(RefuseUp, s.threads[t].chain)];
  }

  /** The state check of a DBG build. */
  lemma SendCheckGoes(s: System, t: nat)
    requires t < |s.threads| && s.threads[t].stage == SendArrived
    ensures var c := s.threads[t].chain;
            if s.filter.state == FilterRunning
            then Goes(s, t, 3, [Made(Forward, c)], s.filter.CountSends(|c|), s.marked)
            else Goes(s, t, 3, [Made(RefuseUp, c)], s.filter, s.marked + Elements(c))
  {
    hide Continue, Ends, Ran, Filter.CountSends;
    var c := s.threads[t].chain;
    ContinuedThread(s, t);
    var s1 := Continue(s, t);
    assert Opening(s.threads[t]) == [];
    if s.filter.state == FilterRunning {
      SendGoes(s1, t);
      GoesOn(s, t, 3, [Made(Forward, c)], s.filter.CountSends(|c|), s.marked);
      assert [] + [Made(Forward, c)] == [Made(Forward, c)];
    } else {
      RefusalGoes(s1, t);
      GoesOn(s, t, 3, [Made(RefuseUp, c)], s.filter, s.marked + Elements(c));
      assert [] + [Made(RefuseUp, c)] == [Made(RefuseUp, c)];
    }
  }

  /** From the handler's call on. */
  lemma AloneEnds(s: System, step: Step, n: nat, rest: seq<Made>, f: Filter, marked: set<Nbl>)
    requires Enabled(s, step) && step.CallHandler?
    requires |s.threads| < |Apply(s, step).threads| && Goes(Apply(s, step), |s.threads|, n, rest, f, marked)
    ensures Legal(s, Alone(s, step, n))
    ensures Ends(s, |s.threads|, After(s, Alone(s, step, n)), [Made(step.call, step.chain)] + rest, f, marked)
  {
    Called(s, step, n);
    CallsNext(s.log, EntryEvent(s, step));
    hide Apply, Ran, After, Legal, Calls, Alone, MarkedOnEntry, Entered;
    var s' := After(s, Alone(s, step, n));
    EndsEarlier(s, Apply(s, step), |s.threads|, s', [Made(step.call, step.chain)], rest, f, marked);
    hide Ends;
  }

  lemma SendEnters(s: System, c: Chain, canPend: bool)
    requires c != [] && multiset(c) <= s.sendUpper
    ensures var step := CallHandler(Submit, c, canPend);
            && Enabled(s, step) && MarkedOnEntry(s, step) == s.marked - Elements(c)
            && Entered(s, step) == Activity(if s.dbg then SendArrived else SendAdmitted, c, canPend)
  {
  }

  lemma SendRefusedAlone(s: System, c: Chain, canPend: bool)
    requires c != [] && multiset(c) <= s.sendUpper && !Open(s)
    ensures var steps := Alone(s, CallHandler(Submit, c, canPend), 3);
            && Legal(s, steps)
            && Ends(s, |s.threads|, After(s, steps), [Made(Submit, c)] + [Made(RefuseUp, c)],
                    s.filter, s.marked + Elements(c))
  {
    var step := CallHandler(Submit, c, canPend);
    assert s.dbg && s.filter.state != FilterRunning;
    assert s.marked - Elements(c) + Elements(c) == s.marked + Elements(c);
    hide *;
    SendEnters(s, c, canPend);
    Called(s, step, 0);
    SendCheckGoes(Apply(s, step), |s.threads|);
    AloneEnds(s, step, 3, [Made(RefuseUp, c)], s.filter, s.marked + Elements(c));
  }

  lemma SendAdmittedAlone(s: System, c: Chain, canPend: bool)
    requires c != [] && multiset(c) <= s.sendUpper && Open(s)
    ensures var steps := Alone(s, CallHandler(Submit, c, canPend), if s.dbg then 3 else 2);
            && Legal(s, steps)
            && Ends(s, |s.threads|, After(s, steps), [Made(Submit, c)] + [Made(Forward, c)],
                    s.filter.CountSends(|c|), s.marked - Elements(c))
  {
    var step := CallHandler(Submit, c, canPend);
    assert s.dbg ==> s.filter.state == FilterRunning;
    hide *;
    SendEnters(s, c, canPend);
    Called(s, step, 0);
    if s.dbg {
      SendCheckGoes(Apply(s, step), |s.threads|);
    } else {
      SendGoes(Apply(s, step), |s.threads|);
    }
    AloneEnds(s, step, if s.dbg then 3 else 2, [Made(Forward, c)], s.filter.CountSends(|c|), s.marked - Elements(c));
  }

  /**
   * FilterSendNetBufferLists alone: it hands the chain down counted and unmarked, or, in a DBG build that
   * is not running, completes it with every NBL marked and the fields as they were.
   */
  lemma SendAlone(s: System, c: Chain, canPend: bool)
    requires c != [] && multiset(c) <= s.sendUpper
    ensures var steps := Alone(s, CallHandler(Submit, c, canPend), if s.dbg then 3 else 2);
            && Legal(s, steps)
            && if Open(s)
               then Ends(s, |s.threads|, After(s, steps), [Made(Submit, c)] + [Made(Forward, c)],
                         s.filter.CountSends(|c|), s.marked - Elements(c))
               else Ends(s, |s.threads|, After(s, steps), [Made(Submit, c)] + [Made(RefuseUp, c)],
                         s.filter, s.marked + Elements(c))
  {
    if Open(s) {
      SendAdmittedAlone(s, c, canPend);
    } else {
      assert s.dbg;
      SendRefusedAlone(s, c, canPend);
    }
    hide *;
  }

  lemma CompletionGoes(s: System, t: nat)
    requires t < |s.threads| && s.threads[t].stage == CompleteArrived
    ensures var c := s.threads[t].chain;
            Goes(s, t, 2, [Made(CompleteUp, c)], s.filter.DiscountSends(|c|), s.marked)
  {
    hide Continue, Ends, Ran, Filter.DiscountSends;
    ContinuedThread(s, t);
    var s1 := Continue(s, t);
    ContinuedThread(s1, t);
    Over(Continue(s1, t), t);
    GoesOn(s1, t, 1, [], s1.filter, s.marked);
    GoesOn(s, t, 2, Opening(s1.threads[t]) + [], s1.filter, s.marked);
    assert Opening(s.threads[t]) + (Opening(s1.threads[t]) + []) == [Made(CompleteUp, s.threads[t].chain)];
  }

  /** FilterSendNetBufferListsComplete alone: discounted, then passed up. */
  lemma CompleteAlone(s: System, c: Chain, canPend: bool)
    requires c != [] && multiset(c) <= s.sendLower
    ensures var steps := Alone(s, CallHandler(Complete, c, canPend), 2);
            && Legal(s, steps)
            && Ends(s, |s.threads|, After(s, steps), [Made(Complete, c)] + [Made(CompleteUp, c)],
                    s.filter.DiscountSends(|c|), s.marked)
  {
    var step := CallHandler(Complete, c, canPend);
    assert Enabled(s, step) && Entered(s, step).stage == CompleteArrived;
    hide *;
    Called(s, step, 0);
    CompletionGoes(Apply(s, step), |s.threads|);
    AloneEnds(s, step, 2, [Made(CompleteUp, c)], s.filter.DiscountSends(|c|), s.marked);
  }

  // ---- Receives ----

  lemma ReturnGoes(s: System, t: nat)
    requires t < |s.threads| && s.threads[t].stage == ReturnArrived
    ensures Goes(s, t, 2, [Made(HandBack, s.threads[t].chain)], s.filter.DiscountRcvs(|s.threads[t].chain|), s.marked)
  {
    hide Continue, Ends, Ran, Filter.DiscountRcvs;
    ContinuedThread(s, t);
    var s1 := Continue(s, t);
    ContinuedThread(s1, t);
    var s2 := Continue(s1, t);
    Over(s2, t);
    GoesOn(s1, t, 1, [], s2.filter, s.marked);
    GoesOn(s, t, 2, Opening(s1.threads[t]) + [], s2.filter, s.marked);
    assert Opening(s.threads[t]) + (Opening(s1.threads[t]) + []) == [Made(HandBack, s.threads[t].chain)];
  }

  /** FilterReturnNetBufferLists alone: handed back, then discounted. */
  lemma ReturnAlone(s: System, c: Chain, canPend: bool)
    requires c != [] && multiset(c) <= s.recvUpper
    ensures var steps := Alone(s, CallHandler(Return, c, canPend), 2);
            && Legal(s, steps)
            && Ends(s, |s.threads|, After(s, steps), [Made(Return, c)] + [Made(HandBack, c)],
                    s.filter.DiscountRcvs(|c|), s.marked)
  {
    var step := CallHandler(Return, c, canPend);
    assert Enabled(s, step) && Entered(s, step).stage == ReturnArrived && MarkedOnEntry(s, step) == s.marked;
    assert Entered(s, step).chain == c;
    hide *;
    Called(s, step, 0);
    ReturnGoes(Apply(s, step), |s.threads|);
    AloneEnds(s, step, 2, [Made(HandBack, c)], s.filter.DiscountRcvs(|c|), s.marked);
  }

  function Indicated(c: Chain, canPend: bool): seq<Made> {
    if canPend then [Made(IndicatePending, c)] else [Made(IndicateLoan, c), Made(EndLoan, c), Made(Release, c)]
  }

  /** Counted and indicated; lent chains come back with the indication and are discounted again. */
  lemma KeptGoes(s: System, t: nat)
    requires t < |s.threads| && s.threads[t].stage == RecvAdmitted && s.threads[t].canPend
    ensures var c := s.threads[t].chain;
            Goes(s, t, 2, Indicated(c, true), s.filter.CountRcvs(|c|), s.marked)
  {
    hide Continue, Ends, Ran, Filter.CountRcvs;
    ContinuedThread(s, t);
    var s1 := Continue(s, t);
    ContinuedThread(s1, t);
    Over(Continue(s1, t), t);
    GoesOn(s1, t, 1, [], s1.filter, s.marked);
    GoesOn(s, t, 2, Opening(s1.threads[t]) + [], s1.filter, s.marked);
    assert Opening(s.threads[t]) + (Opening(s1.threads[t]) + []) == Indicated(s.threads[t].chain, true);
  }

  lemma LentGoes(s: System, t: nat)
    requires t < |s.threads| && s.threads[t].stage == RecvAdmitted && !s.threads[t].canPend
    ensures Goes(s, t, 4, Indicated(s.threads[t].chain, false), s.filter, s.marked)
  {
    hide Continue, Ends, Ran, Filter.CountRcvs, Filter.DiscountRcvs;
    var c := s.threads[t].chain;
    ContinuedThread(s, t);
    var s1 := Continue(s, t);
    ContinuedThread(s1, t);
    var s2 := Continue(s1, t);
    ContinuedThread(s2, t);
    var s3 := Continue(s2, t);
    ContinuedThread(s3, t);
    var s4 := Continue(s3, t);
    FilterHandlers.LoanRestores(s.filter, |c|);
    Over(s4, t);
    GoesOn(s3, t, 1, [], s.filter, s.marked);
    GoesOn(s2, t, 2, Opening(s3.threads[t]) + [], s.filter, s.marked);
    GoesOn(s1, t, 3, Opening(s2.threads[t]) + (Opening(s3.threads[t]) + []), s.filter, s.marked);
    var rest := Opening(s1.threads[t]) + (Opening(s2.threads[t]) + (Opening(s3.threads[t]) + []));
    GoesOn(s, t, 4, rest, s.filter, s.marked);
    assert Opening(s.threads[t]) + rest == Indicated(c, false);
  }

  function AdmittedSteps(canPend: bool): nat {
    if canPend then 2 else 4
  }

  function AdmittedFilter(f: Filter, n: nat, canPend: bool): Filter {
    if canPend then f.CountRcvs(n) else f
  }

  lemma AdmittedGoes(s: System, t: nat)
    requires t < |s.threads| && s.threads[t].stage == RecvAdmitted
    ensures var a := s.threads[t];
            Goes(s, t, AdmittedSteps(a.canPend), Indicated(a.chain, a.canPend),
                 AdmittedFilter(s.filter, |a.chain|, a.canPend), s.marked)
  {
    hide Continue, Ends, Ran, Indicated, Filter.CountRcvs;
    if s.threads[t].canPend {
      KeptGoes(s, t);
    } else {
      LentGoes(s, t);
    }
  }

  function Refused(c: Chain, canPend: bool): seq<Made> {
    [Made(if canPend then GiveBack else LeaveBack, c)]
  }

  lemma RecvRefusedGoes(s: System, t: nat)
    requires t < |s.threads| && s.threads[t].stage == RecvRefused
    ensures Goes(s, t, 1, Refused(s.threads[t].chain, s.threads[t].canPend), s.filter, s.marked)
  {
    hide Continue, Ends, Ran;
    ContinuedThread(s, t);
    Over(Continue(s, t), t);
    GoesOn(s, t, 1, [], s.filter, s.marked);
    assert Opening(s.threads[t]) + [] == Refused(s.threads[t].chain, s.threads[t].canPend);
  }

  lemma RecvCheckGoes(s: System, t: nat)
    requires t < |s.threads| && s.threads[t].stage == RecvArrived
    ensures var a := s.threads[t];
            if s.filter.state == FilterRunning
            then Goes(s, t, 1 + AdmittedSteps(a.canPend), Indicated(a.chain, a.canPend),
                      AdmittedFilter(s.filter, |a.chain|, a.canPend), s.marked)
            else Goes(s, t, 2, Refused(a.chain, a.canPend), s.filter, s.marked)
  {
    hide Continue, Ends, Ran, Indicated, Refused, AdmittedFilter, AdmittedSteps;
    var a := s.threads[t];
    ContinuedThread(s, t);
    var s1 := Continue(s, t);
    assert Opening(a) == [];
    if s.filter.state == FilterRunning {
      AdmittedGoes(s1, t);
      GoesOn(s, t, 1 + AdmittedSteps(a.canPend), Indicated(a.chain, a.canPend),
             AdmittedFilter(s.filter, |a.chain|, a.canPend), s.marked);
      assert [] + Indicated(a.chain, a.canPend) == Indicated(a.chain, a.canPend);
    } else {
      RecvRefusedGoes(s1, t);
      GoesOn(s, t, 2, Refused(a.chain, a.canPend), s.filter, s.marked);
      assert [] + Refused(a.chain, a.canPend) == Refused(a.chain, a.canPend);
    }
  }

  lemma ReceiveEnters(s: System, c: Chain, canPend: bool)
    requires c != [] && multiset(c) <= s.recvLower
    ensures var step := CallHandler(Receive, c, canPend);
            && Enabled(s, step) && MarkedOnEntry(s, step) == s.marked
            && Entered(s, step) == Activity(if s.dbg then RecvArrived else RecvAdmitted, c, canPend)
  {
  }

  lemma ReceiveRefusedAlone(s: System, c: Chain, canPend: bool)
    requires c != [] && multiset(c) <= s.recvLower && !Open(s)
    ensures var steps := Alone(s, CallHandler(Receive, c, canPend), 2);
            && Legal(s, steps)
            && Ends(s, |s.threads|, After(s, steps), [Made(Receive, c)] + Refused(c, canPend), s.filter, s.marked)
  {
    var step := CallHandler(Receive, c, canPend);
    assert s.dbg && s.filter.state != FilterRunning;
    hide *;
    ReceiveEnters(s, c, canPend);
    Called(s, step, 0);
    RecvCheckGoes(Apply(s, step), |s.threads|);
    AloneEnds(s, step, 2, Refused(c, canPend), s.filter, s.marked);
  }

  /** The steps of an activation that is let in. */
  function LetInSteps(s: System, canPend: bool): nat {
    (if s.dbg then 1 else 0) + AdmittedSteps(canPend)
  }

  lemma ReceiveAdmittedAlone(s: System, c: Chain, canPend: bool)
    requires c != [] && multiset(c) <= s.recvLower && Open(s)
    ensures var steps := Alone(s, CallHandler(Receive, c, canPend), LetInSteps(s, canPend));
            && Legal(s, steps)
            && Ends(s, |s.threads|, After(s, steps), [Made(Receive, c)] + Indicated(c, canPend),
                    AdmittedFilter(s.filter, |c|, canPend), s.marked)
  {
    var step := CallHandler(Receive, c, canPend);
    assert s.dbg ==> s.filter.state == FilterRunning;
    assert LetInSteps(s, canPend) == (if s.dbg then 1 else 0) + AdmittedSteps(canPend);
    hide *;
    ReceiveEnters(s, c, canPend);
    Called(s, step, 0);
    if s.dbg {
      RecvCheckGoes(Apply(s, step), |s.threads|);
    } else {
      AdmittedGoes(Apply(s, step), |s.threads|);
    }
    AloneEnds(s, step, LetInSteps(s, canPend), Indicated(c, canPend), AdmittedFilter(s.filter, |c|, canPend), s.marked);
  }

  /**
   * FilterReceiveNetBufferLists alone: a chain that may pend is counted and indicated, one that may not is
   * lent with the counter back where it was; a DBG build that is not running gives back the one and leaves
   * the other.
   */
  lemma ReceiveAlone(s: System, c: Chain, canPend: bool)
    requires c != [] && multiset(c) <= s.recvLower
    ensures var steps := Alone(s, CallHandler(Receive, c, canPend), if Open(s) then LetInSteps(s, canPend) else 2);
            && Legal(s, steps)
            && var s' := After(s, steps);
               if !Open(s) then
                 Ends(s, |s.threads|, s', [Made(Receive, c)] + [Made(if canPend then GiveBack else LeaveBack, c)],
                      s.filter, s.marked)
               else if canPend then
                 Ends(s, |s.threads|, s', [Made(Receive, c)] + [Made(IndicatePending, c)],
                      s.filter.CountRcvs(|c|), s.marked)
               else
                 Ends(s, |s.threads|, s',
                      [Made(Receive, c)] + [Made(IndicateLoan, c), Made(EndLoan, c), Made(Release, c)],
                      s.filter, s.marked)
  {
    if Open(s) {
      ReceiveAdmittedAlone(s, c, canPend);
    } else {
      ReceiveRefusedAlone(s, c, canPend);
    }
    hide Ends, Legal, After, Alone, Open, LetInSteps, Filter.CountRcvs;
  }
}
