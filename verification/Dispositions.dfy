/**
 * What becomes of each chain: only refused sends are ever marked paused, and a received chain is given
 * back, left back, indicated or lent as it was received, with leave to pend or without.
 */
module Dispositions {
  import opened Options
  import opened FilterModule
  import opened Datapath
  import opened DatapathInvariants
  import opened DatapathTheorems
  import opened ReceiveCounts

  lemma {:induction false} TwoShares(threads: seq<Activity>, t: nat, u: nat, m: Measure)
    requires t < |threads| && u < |threads| && t != u
    ensures Share(m, threads[t]) + Share(m, threads[u]) <= Total(threads, m)
  {
    var spent := Activity(Finished, [], false);
    TotalUpdate(threads, t, spent, m);
    ShareInTotal(threads[t := spent], u, m);
  }

  lemma AtMostOnce(s: System, p: Place, x: Nbl)
    requires Located(s, x)
    ensures Total(s.threads, At(p, x)) <= 1
  {
    assert LocatedAt(s, x, p);
    hide Total, Walk;
  }

  /** No two activations have the same NBL. */
  lemma ThreadsApart(s: System, t: nat, u: nat, x: Nbl)
    requires t < |s.threads| && u < |s.threads| && t != u && Located(s, x)
    requires Standing(s.threads[t].stage) != Astray && Standing(s.threads[u].stage) != Astray
    requires x in s.threads[t].chain
    ensures x !in s.threads[u].chain
  {
    if x in s.threads[u].chain {
      var p := Standing(s.threads[t].stage);
      StandsThere(s, t, x);
      StandsThere(s, u, x);
      TwoShares(s.threads, t, u, At(p, x));
      AtMostOnce(s, p, x);
      hide Total, Standing, Walk, Located;
    }
  }

  // ---- Marks ----

  /** The chain at this stage is a send that was not refused, or not yet. */
  predicate Clean(stage: Stage) {
    || stage == SendArrived || stage == SendAdmitted || stage == SendCounted || stage == SendRefused
    || stage == CompleteArrived || stage == CompleteDiscounted
  }

  predicate UnmarkedAt(s: System, t: nat) {
    t < |s.threads| && Clean(s.threads[t].stage) ==> Elements(s.threads[t].chain) !! s.marked
  }

  predicate CarriesUnmarked(call: Call) {
    call == Submit || call == Forward || call == Complete || call == CompleteUp
  }

  ghost predicate OnlyRefusedMarked(s: System) {
    && (forall t: nat :: UnmarkedAt(s, t))
    && (forall x :: x in s.sendLower ==> x !in s.marked)
    && (forall i :: 0 <= i < |s.log| && CarriesUnmarked(s.log[i].call) ==> s.log[i].marked == {})
  }

  /** How a step changes marks and activations. */
  lemma EntryFrame(s: System, step: Step)
    requires Enabled(s, step) && step.CallHandler?
    ensures var s' := Apply(s, step);
            && s'.threads == s.threads + [Entered(s, step)] && s'.marked == MarkedOnEntry(s, step)
            && s'.log == s.log + [EntryEvent(s, step)]
            && s'.sendLower <= s.sendLower
  {
    hide Entry, MarkedOnEntry;
  }

  lemma RunFrame(s: System, t: nat)
    requires t < |s.threads|
    ensures var s' := Continue(s, t);
            var a := s.threads[t];
            && s'.threads == s.threads[t := Moved(s, t)]
            && s'.marked == (if a.stage == SendRefused then s.marked + Elements(a.chain) else s.marked)
            && s'.log == (match CallFrom(a) case Some(call) => s.log + [RunEvent(s, t, call)] case None => s.log)
  {
    hide Next, Section, CallFrom, Shift;
  }

  lemma RunBelow(s: System, t: nat, x: Nbl)
    requires t < |s.threads| && x in Continue(s, t).sendLower
    ensures x in s.sendLower || (s.threads[t].stage == SendCounted && x in s.threads[t].chain)
  {
    SendsDown(s.threads[t]);
    hide Next, Section, CallFrom, Call.From, Call.To;
  }

  lemma SendsDown(a: Activity)
    ensures CallFrom(a).Some? && CallFrom(a).value.To() == SendLower ==> a.stage == SendCounted
  {
  }

  lemma ControlFrame(s: System)
    ensures var s' := Administer(s);
            s'.threads == s.threads && s'.marked == s.marked && s'.log == s.log && s'.sendLower == s.sendLower
  {
  }

  lemma EntryUnmarked(s: System, step: Step, t: nat)
    requires Enabled(s, step) && step.CallHandler? && OnlyRefusedMarked(s)
    ensures UnmarkedAt(Apply(s, step), t)
  {
    EntryFrame(s, step);
    EnteredClean(s, step);
    assert UnmarkedAt(s, t);
    hide Apply, Enabled, Entered, Clean, CarriesUnmarked, OnlyRefusedMarked;
    if t < |s.threads| {
      assert Apply(s, step).threads[t] == s.threads[t];
    }
  }

  lemma EntryCleanly(s: System, step: Step)
    requires Enabled(s, step) && step.CallHandler? && OnlyRefusedMarked(s)
    ensures OnlyRefusedMarked(Apply(s, step))
  {
    EntryFrame(s, step);
    EnteredClean(s, step);
    hide Apply, Enabled, Entered, Clean, UnmarkedAt;
    forall t: nat
      ensures UnmarkedAt(Apply(s, step), t)
    {
      EntryUnmarked(s, step, t);
    }
  }

  lemma EnteredClean(s: System, step: Step)
    requires Enabled(s, step) && step.CallHandler? && OnlyRefusedMarked(s)
    ensures Clean(Entered(s, step).stage) || CarriesUnmarked(step.call)
            ==> Elements(step.chain) !! MarkedOnEntry(s, step)
    ensures Entered(s, step).chain == step.chain
  {
    if step.call == Complete {
      forall x | x in step.chain
        ensures x in s.sendLower
      {
        assert multiset(step.chain)[x] <= s.sendLower[x];
      }
    }
    hide UnmarkedAt;
  }

  /** Marking a refused chain marks nobody else's. */
  lemma MarkingApart(s: System, t: nat, u: nat)
    requires t < |s.threads| && s.threads[t].stage == SendRefused && u != t && forall x :: Located(s, x)
    requires UnmarkedAt(s, u)
    ensures UnmarkedAt(s.(marked := s.marked + Elements(s.threads[t].chain)), u)
  {
    if u < |s.threads| && Clean(s.threads[u].stage) {
      forall x | x in s.threads[t].chain
        ensures x !in s.threads[u].chain
      {
        ThreadsApart(s, t, u, x);
      }
    }
    hide Located;
  }

  lemma MarkingAbove(s: System, t: nat)
    requires t < |s.threads| && s.threads[t].stage == SendRefused && forall x :: Located(s, x)
    ensures forall x :: x in s.threads[t].chain ==> x !in s.sendLower
  {
    forall x | x in s.threads[t].chain
      ensures x !in s.sendLower
    {
      Apart(s, t, SendHandler, SendLower, x);
    }
    hide Located;
  }

  /** The next stage of a clean chain is clean, marked, or the chain is gone; no other becomes clean. */
  lemma NextClean(a: Activity, admits: bool)
    ensures Clean(Next(a, admits)) ==> Clean(a.stage) && a.stage != SendRefused
    ensures CallFrom(a).Some? && CarriesUnmarked(CallFrom(a).value) ==> Clean(a.stage)
    ensures a.stage == SendCounted ==> Clean(a.stage)
  {
  }

  lemma RunUnmarked(s: System, t: nat, u: nat)
    requires t < |s.threads| && OnlyRefusedMarked(s) && forall x :: Located(s, x)
    ensures UnmarkedAt(Continue(s, t), u)
  {
    assert UnmarkedAt(s, u);
    RunFrame(s, t);
    NextClean(s.threads[t], s.filter.Admits());
    if s.threads[t].stage == SendRefused && u != t {
      MarkingApart(s, t, u);
    }
    hide Continue, Located, Next, CallFrom, Clean;
  }

  lemma RunCleanly(s: System, t: nat)
    requires t < |s.threads| && OnlyRefusedMarked(s) && forall x :: Located(s, x)
    ensures OnlyRefusedMarked(Continue(s, t))
  {
    RunFrame(s, t);
    NextClean(s.threads[t], true);
    assert UnmarkedAt(s, t);
    if s.threads[t].stage == SendRefused {
      MarkingAbove(s, t);
    }
    hide Continue, Next, CallFrom, Clean, Located;
    forall x | x in Continue(s, t).sendLower
      ensures x in s.sendLower || (s.threads[t].stage == SendCounted && x in s.threads[t].chain)
    {
      RunBelow(s, t, x);
    }
    forall u: nat
      ensures UnmarkedAt(Continue(s, t), u)
    {
      RunUnmarked(s, t, u);
    }
    hide UnmarkedAt;
  }

  lemma StepCleanly(s: System, step: Step)
    requires Inv(s) && OnlyRefusedMarked(s) && Enabled(s, step)
    ensures OnlyRefusedMarked(Apply(s, step))
  {
    assert forall x :: Located(s, x);
    hide Continue, Transfer, Inv, Located;
    match step {
      case CallHandler(_, _, _) => EntryCleanly(s, step);
      case Run(t) => RunCleanly(s, t);
      case Control => ControlCleanly(s);
    }
  }

  lemma ControlCleanly(s: System)
    requires OnlyRefusedMarked(s)
    ensures OnlyRefusedMarked(Administer(s))
  {
    ControlFrame(s);
    hide Administer;
    forall t: nat
      ensures UnmarkedAt(Administer(s), t)
    {
      assert UnmarkedAt(s, t);
    }
  }

  lemma {:induction false} RunsCleanly(s: System, steps: seq<Step>)
    requires Inv(s) && OnlyRefusedMarked(s) && Legal(s, steps)
    ensures OnlyRefusedMarked(After(s, steps))
    decreases |steps|
  {
    if steps != [] {
      StepKeepsInv(s, steps[0]);
      StepCleanly(s, steps[0]);
      RunsCleanly(Apply(s, steps[0]), steps[1..]);
    }
    hide Inv, OnlyRefusedMarked, Apply, Enabled;
  }

  lemma InitiallyClean(s: System)
    requires Initial(s)
    ensures OnlyRefusedMarked(s)
  {
  }

  /**
   * A send that passes the check is never marked: no NBL below or with a completion handler is, and none
   * was when it was handed down or passed up completed.
   */
  lemma AdmittedSendsAreUnmarked(s0: System, steps: seq<Step>)
    requires Initial(s0) && Legal(s0, steps)
    ensures var s := After(s0, steps);
            && (forall x :: x in s.sendLower ==> x !in s.marked)
            && (forall a, x :: a in s.threads && Clean(a.stage) && x in a.chain ==> x !in s.marked)
            && (forall i :: 0 <= i < |s.log| && CarriesUnmarked(s.log[i].call) ==> s.log[i].marked == {})
  {
    InitialInv(s0);
    InitiallyClean(s0);
    RunsCleanly(s0, steps);
    var s := After(s0, steps);
    hide After, Legal, Initial;
    forall a, x | a in s.threads && Clean(a.stage) && x in a.chain
      ensures x !in s.marked
    {
      var t :| 0 <= t < |s.threads| && s.threads[t] == a;
      assert UnmarkedAt(s, t) && x in Elements(a.chain);
    }
  }

  // ---- Leave to pend ----

  /** Whether x was last received with leave to pend. */
  function MayPend(log: seq<Event>, x: Nbl): bool {
    if log == [] then false
    else
      var e := log[|log| - 1];
      if e.call == Receive && x in e.chain then e.canPend else MayPend(log[..|log| - 1], x)
  }

  /** The calls that a chain must have leave to pend for, and those for which it must not. */
  predicate Suits(call: Call, mayPend: bool) {
    && (call == GiveBack || call == IndicatePending ==> mayPend)
    && (call == LeaveBack || call == IndicateLoan || call == EndLoan || call == Release ==> !mayPend)
  }

  predicate SuitsAt(log: seq<Event>, i: nat)
    requires i < |log|
  {
    forall x :: x in log[i].chain ==> Suits(log[i].call, MayPend(log[..i], x))
  }

  /** The receive handler has the chain, or has lent it. */
  predicate Receiving(stage: Stage) {
    Standing(stage) == RecvHandler || Standing(stage) == RecvLoan || Standing(stage) == RecvAfterLoan
  }

  predicate KnowsLeave(s: System, t: nat) {
    t < |s.threads| && Receiving(s.threads[t].stage) ==>
      && (forall x :: x in s.threads[t].chain ==> MayPend(s.log, x) == s.threads[t].canPend)
      && (s.threads[t].stage == RecvLent || s.threads[t].stage == RecvSpent ==> !s.threads[t].canPend)
  }

  ghost predicate AsReceived(s: System) {
    && (forall t: nat :: KnowsLeave(s, t))
    && (forall i :: 0 <= i < |s.log| ==> SuitsAt(s.log, i))
  }

  lemma MayPendNext(log: seq<Event>, e: Event, x: Nbl)
    ensures MayPend(log + [e], x) == if e.call == Receive && x in e.chain then e.canPend else MayPend(log, x)
  {
    assert (log + [e])[..|log|] == log;
  }

  lemma SuitsNext(log: seq<Event>, e: Event)
    requires forall i :: 0 <= i < |log| ==> SuitsAt(log, i)
    requires forall x :: x in e.chain ==> Suits(e.call, MayPend(log, x))
    ensures forall i :: 0 <= i < |log + [e]| ==> SuitsAt(log + [e], i)
  {
    forall i | 0 <= i < |log + [e]|
      ensures SuitsAt(log + [e], i)
    {
      if i < |log| {
        assert SuitsAt(log, i) && (log + [e])[..i] == log[..i];
      } else {
        assert (log + [e])[..i] == log;
      }
    }
  }

  lemma EntrySuits(call: Call, mayPend: bool)
    requires EntersHandler(call)
    ensures Suits(call, mayPend)
  {
  }

  lemma EnteredReceiving(dbg: bool, call: Call)
    requires EntersHandler(call)
    ensures Receiving(Entry(dbg, call)) <==> call == Receive
    ensures Entry(dbg, call) != RecvLent && Entry(dbg, call) != RecvSpent
  {
  }

  lemma EntryMayPend(s: System, step: Step, x: Nbl)
    requires Enabled(s, step) && step.CallHandler?
    ensures MayPend(Apply(s, step).log, x)
         == if step.call == Receive && x in step.chain then step.canPend else MayPend(s.log, x)
  {
    EntryFrame(s, step);
    MayPendNext(s.log, EntryEvent(s, step), x);
    hide Apply, MayPend;
  }

  lemma ReceivedFromBelow(s: System, step: Step)
    requires Enabled(s, step) && step.CallHandler? && step.call == Receive
    ensures forall x :: x in step.chain ==> x in s.recvLower
  {
    forall x | x in step.chain
      ensures x in s.recvLower
    {
      assert multiset(step.chain)[x] > 0;
    }
  }

  /** A receiving activation has none of the NBLs that are received now. */
  lemma OthersReceived(s: System, step: Step, t: nat)
    requires Enabled(s, step) && step.CallHandler? && step.call == Receive && forall x :: Located(s, x)
    requires t < |s.threads| && Receiving(s.threads[t].stage)
    ensures forall x :: x in s.threads[t].chain ==> x !in step.chain
  {
    ReceivedFromBelow(s, step);
    forall x | x in s.threads[t].chain
      ensures x !in step.chain
    {
      Apart(s, t, Standing(s.threads[t].stage), RecvLower, x);
    }
    hide Located, Standing, Enabled;
  }

  lemma EntryKnows(s: System, step: Step, t: nat)
    requires Enabled(s, step) && step.CallHandler? && KnowsLeave(s, t) && forall x :: Located(s, x)
    ensures KnowsLeave(Apply(s, step), t)
  {
    EntryFrame(s, step);
    EnteredReceiving(s.dbg, step.call);
    forall x
      ensures MayPend(Apply(s, step).log, x)
           == if step.call == Receive && x in step.chain then step.canPend else MayPend(s.log, x)
    {
      EntryMayPend(s, step, x);
    }
    if t < |s.threads| {
      if step.call == Receive && Receiving(s.threads[t].stage) {
        OthersReceived(s, step, t);
      }
      assert Apply(s, step).threads[t] == s.threads[t];
    }
    hide Apply, MayPend, Located, Receiving, Entry, MarkedOnEntry, Enabled;
  }

  /** A step of an activation keeps it a receiving one or ends that, and its call suits what it knows. */
  lemma NextReceiving(a: Activity, admits: bool)
    ensures Receiving(Next(a, admits)) ==> Receiving(a.stage)
    ensures Next(a, admits) == RecvLent || Next(a, admits) == RecvSpent ==>
              !a.canPend || a.stage == RecvLent || a.stage == RecvSpent
    ensures match CallFrom(a)
            case None => true
            case Some(call) =>
              call != Receive && (Suits(call, a.canPend) || a.stage == RecvLent || a.stage == RecvSpent)
    ensures match CallFrom(a)
            case None => true
            case Some(call) => Receiving(a.stage) || forall p: bool :: Suits(call, p)
    ensures CallFrom(a).Some? ==> Suits(CallFrom(a).value, false) || a.canPend
  {
  }

  lemma RunKnows(s: System, t: nat, u: nat)
    requires t < |s.threads| && KnowsLeave(s, u)
    ensures KnowsLeave(Continue(s, t), u)
  {
    RunFrame(s, t);
    NextReceiving(s.threads[t], s.filter.Admits());
    forall x
      ensures MayPend(Continue(s, t).log, x) == MayPend(s.log, x)
    {
      if CallFrom(s.threads[t]).Some? {
        MayPendNext(s.log, RunEvent(s, t, CallFrom(s.threads[t]).value), x);
      }
    }
    hide Continue, Next, CallFrom, MayPend, Receiving, Suits;
  }

  lemma RunSuits(s: System, t: nat)
    requires t < |s.threads| && AsReceived(s)
    ensures forall i :: 0 <= i < |Continue(s, t).log| ==> SuitsAt(Continue(s, t).log, i)
  {
    RunFrame(s, t);
    NextReceiving(s.threads[t], true);
    assert KnowsLeave(s, t);
    hide Continue, Next, CallFrom, MayPend, Receiving;
    if CallFrom(s.threads[t]).Some? {
      var e := RunEvent(s, t, CallFrom(s.threads[t]).value);
      forall x | x in e.chain
        ensures Suits(e.call, MayPend(s.log, x))
      {
      }
      SuitsNext(s.log, e);
    }
  }

  lemma EntryAsReceived(s: System, step: Step)
    requires Enabled(s, step) && step.CallHandler? && AsReceived(s) && forall x :: Located(s, x)
    ensures AsReceived(Apply(s, step))
  {
    EntrySuitsAll(s, step);
    hide Apply, Enabled, Located, SuitsAt, KnowsLeave;
    forall t: nat
      ensures KnowsLeave(Apply(s, step), t)
    {
      EntryKnows(s, step, t);
    }
  }

  lemma RunAsReceived(s: System, t: nat)
    requires t < |s.threads| && AsReceived(s)
    ensures AsReceived(Continue(s, t))
  {
    RunSuits(s, t);
    hide Continue, SuitsAt, KnowsLeave;
    forall u: nat
      ensures KnowsLeave(Continue(s, t), u)
    {
      RunKnows(s, t, u);
    }
  }

  lemma StepAsReceived(s: System, step: Step)
    requires Inv(s) && AsReceived(s) && Enabled(s, step)
    ensures AsReceived(Apply(s, step))
  {
    assert forall x :: Located(s, x);
    hide Continue, Transfer, Inv, Located, AsReceived;
    match step {
      case CallHandler(_, _, _) => EntryAsReceived(s, step);
      case Run(t) => RunAsReceived(s, t);
      case Control => ControlAsReceived(s);
    }
  }

  lemma EntrySuitsAll(s: System, step: Step)
    requires Enabled(s, step) && step.CallHandler? && AsReceived(s)
    ensures forall i :: 0 <= i < |Apply(s, step).log| ==> SuitsAt(Apply(s, step).log, i)
  {
    EntryFrame(s, step);
    forall x
      ensures Suits(step.call, MayPend(s.log, x))
    {
      EntrySuits(step.call, MayPend(s.log, x));
    }
    hide Apply, MayPend, Suits;
    SuitsNext(s.log, EntryEvent(s, step));
  }

  lemma ControlAsReceived(s: System)
    requires AsReceived(s)
    ensures AsReceived(Administer(s))
  {
    ControlFrame(s);
    hide Administer, MayPend, SuitsAt;
    forall t: nat
      ensures KnowsLeave(Administer(s), t)
    {
      assert KnowsLeave(s, t);
    }
  }

  lemma {:induction false} RunsAsReceived(s: System, steps: seq<Step>)
    requires Inv(s) && AsReceived(s) && Legal(s, steps)
    ensures AsReceived(After(s, steps))
    decreases |steps|
  {
    if steps != [] {
      StepKeepsInv(s, steps[0]);
      StepAsReceived(s, steps[0]);
      RunsAsReceived(Apply(s, steps[0]), steps[1..]);
    }
    hide Inv, AsReceived, Apply, Enabled;
  }

  lemma InitiallyAsReceived(s: System)
    requires Initial(s)
    ensures AsReceived(s)
  {
  }

  /**
   * In every run each chain that is given back or indicated to keep was last received with leave to pend,
   * and each that is left back or lent was not.
   */
  lemma ReceivedChainsGoAsReceived(s0: System, steps: seq<Step>, i: nat, x: Nbl)
    requires Initial(s0) && Legal(s0, steps)
    requires i < |After(s0, steps).log| && x in After(s0, steps).log[i].chain
    ensures var log := After(s0, steps).log; Suits(log[i].call, MayPend(log[..i], x))
  {
    InitialInv(s0);
    InitiallyAsReceived(s0);
    RunsAsReceived(s0, steps);
    assert SuitsAt(After(s0, steps).log, i);
    hide After, Legal, Initial, MayPend, Suits;
  }
}
