/** What every interleaving of the datapath keeps. */
module DatapathInvariants {
  import opened Options
  import opened Ulongs
  import opened FilterModule
  import opened Datapath

  function Home(s: System, x: Nbl): Place {
    if x in s.sendPool then SendUpper else if x in s.recvPool then RecvLower else Astray
  }

  function Whereabouts(s: System, x: Nbl): Place {
    Walk(s.log, x, Home(s, x))
  }

  predicate LocatedAt(s: System, x: Nbl, p: Place) {
    Tally(s, At(p, x)) == if (x in s.sendPool || x in s.recvPool) && p == Whereabouts(s, x) then 1 else 0
  }

  /** x is exactly where the logged calls put it, once, and nowhere else; foreign NBLs are nowhere. */
  ghost predicate Located(s: System, x: Nbl) {
    && (x in s.sendPool || x in s.recvPool ==> Whereabouts(s, x) != Astray)
    && forall p :: LocatedAt(s, x, p)
  }

  predicate LifecycleAgrees(s: System) {
    match s.ndis
    case NdisPaused | NdisCallingRestart => s.filter.state == FilterPaused
    case NdisRunning | NdisCallingPause => s.filter.state == FilterRunning
    case NdisAwaitingPause => s.filter.state == FilterPausing
  }

  predicate CountersAgree(s: System) {
    && s.filter.trackSends && s.filter.trackReceives
    && s.filter.outstandingSends == Wrap(Tally(s, CountedSends))
    && s.filter.outstandingRcvs == Wrap(Tally(s, CountedRcvs))
  }

  predicate MarkedAt(s: System, t: nat) {
    t < |s.threads| && s.threads[t].stage == SendMarked ==> Elements(s.threads[t].chain) <= s.marked
  }

  predicate AllMarked(e: Event) {
    e.marked == Elements(e.chain)
  }

  ghost predicate RefusalsMarked(s: System) {
    && (forall t: nat :: MarkedAt(s, t))
    && (forall i :: 0 <= i < |s.log| && s.log[i].call == RefuseUp ==> AllMarked(s.log[i]))
  }

  /** Not empty, and no NBL twice. */
  ghost predicate Proper(c: Chain) {
    c != [] && forall x :: multiset(c)[x] <= 1
  }

  ghost predicate ChainsProper(s: System) {
    forall a :: a in s.threads ==> Proper(a.chain)
  }

  ghost predicate Inv(s: System) {
    && s.sendPool !! s.recvPool
    && ChainsProper(s)
    && (|s.recvPool| < ULONG_MODULUS ==> s.countAssertsHeld)
    && LifecycleAgrees(s) && s.assertsHeld
    && CountersAgree(s)
    && (forall x :: Located(s, x))
    && RefusalsMarked(s)
  }

  // ---- Bookkeeping of totals ----

  lemma {:induction false} TotalUpdate(threads: seq<Activity>, t: nat, a: Activity, m: Measure)
    requires t < |threads|
    ensures Total(threads[t := a], m) + Share(m, threads[t]) == Total(threads, m) + Share(m, a)
  {
    if t == 0 {
      assert threads[0 := a][1..] == threads[1..];
    } else {
      assert threads[t := a][1..] == threads[1..][t - 1 := a];
      TotalUpdate(threads[1..], t - 1, a, m);
    }
  }

  lemma {:induction false} TotalAppend(threads: seq<Activity>, a: Activity, m: Measure)
    ensures Total(threads + [a], m) == Total(threads, m) + Share(m, a)
  {
    if threads == [] {
      assert threads + [a] == [a];
    } else {
      assert (threads + [a])[1..] == threads[1..] + [a];
      TotalAppend(threads[1..], a, m);
    }
  }

  predicate IsLayer(p: Place) {
    p == SendUpper || p == SendLower || p == RecvLower || p == RecvUpper
  }

  function Carried(e: Event, x: Nbl, here: bool): nat {
    if here then multiset(e.chain)[x] else 0
  }

  /** The call a step makes. */
  function CallOf(s: System, step: Step): Option<Event>
    requires Enabled(s, step)
  {
    match step
    case CallHandler(_, _, _) => Some(EntryEvent(s, step))
    case Control => None
    case Run(t) =>
      var a := s.threads[t];
      match CallFrom(a)
      case Some(call) => Some(RunEvent(s, t, call))
      case None => None
  }

  lemma CallsMove(call: Call)
    ensures call.From() != call.To() && call.From() != Astray && call.To() != Astray
  {
  }

  lemma ShiftMoves(pool: multiset<Nbl>, layer: Place, e: Event, x: Nbl)
    requires e.call.From() == layer ==> multiset(e.chain) <= pool
    ensures Shift(pool, layer, e)[x] + Carried(e, x, layer == e.call.From())
         == pool[x] + Carried(e, x, layer == e.call.To())
  {
    CallsMove(e.call);
    hide Call.From, Call.To;
  }

  lemma TransferMoves(s: System, e: Event, p: Place, x: Nbl)
    requires IsLayer(e.call.From()) ==> multiset(e.chain) <= Layer(s, e.call.From())
    ensures Layer(Transfer(s, e), p)[x] + Carried(e, x, IsLayer(p) && p == e.call.From())
         == Layer(s, p)[x] + Carried(e, x, IsLayer(p) && p == e.call.To())
  {
    hide Call.From, Call.To, Shift;
    match p {
      case SendUpper => ShiftMoves(s.sendUpper, p, e, x);
      case SendLower => ShiftMoves(s.sendLower, p, e, x);
      case RecvLower => ShiftMoves(s.recvLower, p, e, x);
      case RecvUpper => ShiftMoves(s.recvUpper, p, e, x);
      case _ =>
    }
  }

  /** Every place gains and loses exactly the chain of the call made. */
  predicate TallyMoves(s: System, call: Option<Event>, s': System, p: Place, x: Nbl) {
    match call
    case None => s'.log == s.log && Tally(s', At(p, x)) == Tally(s, At(p, x))
    case Some(e) =>
      && s'.log == s.log + [e]
      && Carried(e, x, p == e.call.From()) <= Tally(s, At(p, x))
      && Tally(s', At(p, x)) == Tally(s, At(p, x)) - Carried(e, x, p == e.call.From()) + Carried(e, x, p == e.call.To())
  }

  /** A stage's call leaves the place where its activation stands, for the place where it stands next. */
  lemma NextStanding(a: Activity, admits: bool)
    ensures var next := Standing(Next(a, admits));
            match CallFrom(a)
            case None => next == Standing(a.stage)
            case Some(call) =>
              && call.From() == Standing(a.stage) != Astray
              && !IsLayer(call.From())
              && next == if IsLayer(call.To()) then Astray else call.To()
  {
  }

  /** What the threads lose and gain by a call that changes the layers accordingly. */
  predicate ThreadsMove(s: System, e: Event, s': System, p: Place, x: Nbl) {
    Total(s'.threads, At(p, x)) + Carried(e, x, !IsLayer(p) && p == e.call.From())
    == Total(s.threads, At(p, x)) + Carried(e, x, !IsLayer(p) && p == e.call.To())
  }

  predicate LayersMove(s: System, e: Event, s': System, p: Place, x: Nbl) {
    Layer(s', p)[x] + Carried(e, x, IsLayer(p) && p == e.call.From())
    == Layer(s, p)[x] + Carried(e, x, IsLayer(p) && p == e.call.To())
  }

  lemma Balance(s: System, e: Event, s': System, p: Place, x: Nbl)
    requires s'.log == s.log + [e]
    requires ThreadsMove(s, e, s', p, x) && LayersMove(s, e, s', p, x)
    ensures TallyMoves(s, Some(e), s', p, x)
  {
    CallsMove(e.call);
    hide Call.From, Call.To, Layer, Total, IsLayer;
  }

  /** The chain of an activation that goes from stage to stage is carried from place to place. */
  lemma ShareMoves(a: Activity, a': Activity, e: Event, p: Place, x: Nbl)
    requires a'.chain == a.chain == e.chain
    requires e.call.From() == Standing(a.stage) != Astray && !IsLayer(e.call.From())
    requires Standing(a'.stage) == if IsLayer(e.call.To()) then Astray else e.call.To()
    ensures Share(At(p, x), a) == Carried(e, x, !IsLayer(p) && p == e.call.From())
    ensures Share(At(p, x), a') == Carried(e, x, !IsLayer(p) && p == e.call.To())
  {
    hide Call.From, Call.To, Standing;
    CallsMove(e.call);
    StandingInHandlers(a.stage);
    StandingInHandlers(a'.stage);
  }

  lemma StandingInHandlers(stage: Stage)
    ensures !IsLayer(Standing(stage))
  {
  }

  /** The threads after a step of activation t. */
  lemma ContinueTotals(s: System, t: nat, m: Measure)
    requires t < |s.threads|
    ensures Total(Continue(s, t).threads, m) + Share(m, s.threads[t]) == Total(s.threads, m) + Share(m, Moved(s, t))
  {
    TotalUpdate(s.threads, t, Moved(s, t), m);
    hide Total, Share, Next, Section, Shift;
  }

  function Moved(s: System, t: nat): Activity
    requires t < |s.threads|
  {
    s.threads[t].(stage := Next(s.threads[t], s.filter.Admits()))
  }

  lemma ContinueThreads(s: System, t: nat, e: Event, p: Place, x: Nbl)
    requires t < |s.threads| && CallOf(s, Run(t)) == Some(e)
    ensures ThreadsMove(s, e, Continue(s, t), p, x)
    ensures Continue(s, t).log == s.log + [e]
  {
    var a := s.threads[t];
    NextStanding(a, s.filter.Admits());
    ContinueTotals(s, t, At(p, x));
    hide Next, CallFrom, Section, Total, Standing, Call.From, Call.To, Shift, Share;
    ShareMoves(a, Moved(s, t), e, p, x);
  }

  lemma ContinueLayers(s: System, t: nat, e: Event, p: Place, x: Nbl)
    requires t < |s.threads| && CallOf(s, Run(t)) == Some(e)
    ensures LayersMove(s, e, Continue(s, t), p, x)
  {
    NextStanding(s.threads[t], true);
    hide Next, CallFrom, Section, Standing, Call.From, Call.To, Layer, Shift, Carried, IsLayer;
    TransferMoves(s, e, p, x);
    SameLayer(Transfer(s, e), Continue(s, t), p);
  }

  lemma ContinueQuietly(s: System, t: nat, p: Place, x: Nbl)
    requires t < |s.threads| && CallOf(s, Run(t)) == None
    ensures TallyMoves(s, None, Continue(s, t), p, x)
  {
    NextStanding(s.threads[t], s.filter.Admits());
    ContinueTotals(s, t, At(p, x));
    hide Next, CallFrom, Section, Total, Standing, Layer, Shift, Share;
    SameLayer(s, Continue(s, t), p);
    SameShare(s.threads[t], Moved(s, t), p, x);
  }

  lemma ContinueMoves(s: System, t: nat, p: Place, x: Nbl)
    requires t < |s.threads|
    ensures TallyMoves(s, CallOf(s, Run(t)), Continue(s, t), p, x)
  {
    hide CallOf, Continue, TallyMoves;
    match CallOf(s, Run(t)) {
      case Some(e) =>
        ContinueThreads(s, t, e, p, x);
        ContinueLayers(s, t, e, p, x);
        Balance(s, e, Continue(s, t), p, x);
      case None =>
        ContinueQuietly(s, t, p, x);
    }
  }

  lemma SameLayer(s: System, s': System, p: Place)
    requires s.sendUpper == s'.sendUpper && s.sendLower == s'.sendLower
    requires s.recvUpper == s'.recvUpper && s.recvLower == s'.recvLower
    ensures Layer(s, p) == Layer(s', p)
  {
  }

  lemma SameShare(a: Activity, a': Activity, p: Place, x: Nbl)
    requires a.chain == a'.chain && Standing(a.stage) == Standing(a'.stage)
    ensures Share(At(p, x), a) == Share(At(p, x), a')
  {
    hide Standing;
  }

  /** The activation a handler call starts. */
  function Entered(s: System, step: Step): Activity
    requires step.CallHandler?
  {
    Activity(Entry(s.dbg, step.call), step.chain, step.canPend)
  }

  lemma EntryStanding(dbg: bool, call: Call)
    requires EntersHandler(call)
    ensures Standing(Entry(dbg, call)) == call.To() && !IsLayer(call.To()) && IsLayer(call.From())
  {
  }

  lemma EnterTotals(s: System, step: Step, m: Measure)
    requires Enabled(s, step) && step.CallHandler?
    ensures Total(Apply(s, step).threads, m) == Total(s.threads, m) + Share(m, Entered(s, step))
    ensures Apply(s, step).log == s.log + [EntryEvent(s, step)]
  {
    TotalAppend(s.threads, Entered(s, step), m);
    hide Total, Share, Entry, Shift, Layer;
  }

  lemma EnterThreads(s: System, step: Step, e: Event, p: Place, x: Nbl)
    requires Enabled(s, step) && step.CallHandler? && CallOf(s, step) == Some(e)
    ensures ThreadsMove(s, e, Apply(s, step), p, x)
  {
    EntryStanding(s.dbg, step.call);
    EnterTotals(s, step, At(p, x));
    hide Entry, Standing, Call.From, Call.To, Layer, Shift, Total, Apply;
    CallsMove(e.call);
  }

  lemma EnterLayers(s: System, step: Step, e: Event, p: Place, x: Nbl)
    requires Enabled(s, step) && step.CallHandler? && CallOf(s, step) == Some(e)
    ensures LayersMove(s, e, Apply(s, step), p, x)
  {
    hide Entry, Call.From, Call.To, Layer, Shift;
    TransferMoves(s, e, p, x);
    SameLayer(Transfer(s, e), Apply(s, step), p);
  }

  lemma EnterMoves(s: System, step: Step, p: Place, x: Nbl)
    requires Enabled(s, step) && step.CallHandler?
    ensures TallyMoves(s, CallOf(s, step), Apply(s, step), p, x)
  {
    var e := EntryEvent(s, step);
    EnterTotals(s, step, At(p, x));
    EnterThreads(s, step, e, p, x);
    EnterLayers(s, step, e, p, x);
    hide Apply, TallyMoves, ThreadsMove, LayersMove;
    Balance(s, e, Apply(s, step), p, x);
  }

  /** A step logs the call it makes, and every place gains and loses exactly that call's chain. */
  lemma StepMoves(s: System, step: Step, p: Place, x: Nbl)
    requires Enabled(s, step)
    ensures TallyMoves(s, CallOf(s, step), Apply(s, step), p, x)
  {
    hide TallyMoves, Continue, Administer, CallOf, Transfer;
    match step {
      case CallHandler(_, _, _) => EnterMoves(s, step, p, x);
      case Run(t) => ContinueMoves(s, t, p, x);
      case Control =>
        ControlMoves(s, p, x);
        NoCall(s);
    }
  }

  lemma NoCall(s: System)
    ensures CallOf(s, Control) == None
  {
  }

  lemma ControlMoves(s: System, p: Place, x: Nbl)
    ensures TallyMoves(s, None, Administer(s), p, x)
  {
    hide Layer, Total;
    SameLayer(s, Administer(s), p);
  }

  // ---- What the counters stand for ----

  /** The number of NBLs the next section of an activation adds to the counter that `m` stands for. */
  function Adds(a: Activity, m: Measure): nat {
    match a.stage
    case SendAdmitted => if m == CountedSends then |a.chain| else 0
    case RecvAdmitted => if m == CountedRcvs then |a.chain| else 0
    case _ => 0
  }

  /** The number of NBLs it takes off. */
  function Subtracts(a: Activity, m: Measure): nat {
    match a.stage
    case CompleteArrived => if m == CountedSends then |a.chain| else 0
    case RecvSpent | ReturnHandedBack => if m == CountedRcvs then |a.chain| else 0
    case _ => 0
  }

  predicate IsCounter(m: Measure) {
    m == CountedSends || m == CountedRcvs
  }

  function CountedLayer(m: Measure): Place {
    if m == CountedSends then SendLower else RecvUpper
  }

  lemma ShiftSize(pool: multiset<Nbl>, layer: Place, e: Event)
    requires e.call.From() == layer ==> multiset(e.chain) <= pool
    ensures |Shift(pool, layer, e)| + (if layer == e.call.From() then |e.chain| else 0)
         == |pool| + (if layer == e.call.To() then |e.chain| else 0)
  {
    CallsMove(e.call);
    hide Call.From, Call.To;
    if e.call.From() == layer {
      assert pool == (pool - multiset(e.chain)) + multiset(e.chain);
    }
  }

  /** How many NBLs a call takes out of, and puts into, the layer whose holdings `m` counts. */
  lemma TransferCounts(s: System, e: Event, m: Measure)
    requires IsLayer(e.call.From()) ==> multiset(e.chain) <= Layer(s, e.call.From())
    requires IsCounter(m)
    ensures Pooled(Transfer(s, e), m) + (if CountedLayer(m) == e.call.From() then |e.chain| else 0)
         == Pooled(s, m) + (if CountedLayer(m) == e.call.To() then |e.chain| else 0)
  {
    if m == CountedSends {
      ShiftSize(s.sendLower, SendLower, e);
    } else {
      ShiftSize(s.recvUpper, RecvUpper, e);
    }
  }

  /** A stage's step moves its chain between counted places, or is one of the counting sections. */
  lemma NextCounted(a: Activity, admits: bool, m: Measure)
    requires IsCounter(m)
    ensures var a' := a.(stage := Next(a, admits));
            var down := match CallFrom(a) case Some(call) => CountedLayer(m) == call.To() case None => false;
            && Subtracts(a, m) <= Share(m, a)
            && Share(m, a') + (if down then |a.chain| else 0) + Subtracts(a, m) == Share(m, a) + Adds(a, m)
  {
  }

  function Runner(s: System, step: Step): Activity {
    if step.Run? && step.t < |s.threads| then s.threads[step.t] else Activity(Finished, [], false)
  }

  lemma EnterCounts(s: System, step: Step, m: Measure)
    requires Enabled(s, step) && step.CallHandler? && IsCounter(m)
    ensures Tally(Apply(s, step), m) == Tally(s, m)
  {
    EntryCounted(s, step, m);
    EnterTotals(s, step, m);
    EnterPools(s, step, m);
    TransferCounts(s, EntryEvent(s, step), m);
    hide Entry, Call.From, Call.To, Layer, Total, Share, Apply, Transfer, Pooled, CountedLayer;
  }

  lemma EnterPools(s: System, step: Step, m: Measure)
    requires Enabled(s, step) && step.CallHandler? && IsCounter(m)
    ensures Pooled(Apply(s, step), m) == Pooled(Transfer(s, EntryEvent(s, step)), m)
  {
    hide Entry, Shift;
  }

  lemma EntryCounted(s: System, step: Step, m: Measure)
    requires step.CallHandler? && EntersHandler(step.call) && IsCounter(m)
    ensures Share(m, Entered(s, step)) == if CountedLayer(m) == step.call.From() then |step.chain| else 0
    ensures CountedLayer(m) != step.call.To()
  {
  }

  lemma ContinueCounts(s: System, t: nat, m: Measure)
    requires t < |s.threads| && IsCounter(m)
    ensures Subtracts(s.threads[t], m) <= Tally(s, m)
    ensures Tally(Continue(s, t), m) == Tally(s, m) - Subtracts(s.threads[t], m) + Adds(s.threads[t], m)
  {
    var a := s.threads[t];
    NextCounted(a, s.filter.Admits(), m);
    NextStanding(a, s.filter.Admits());
    ContinueTotals(s, t, m);
    hide Next, CallFrom, Section, Total, Standing, Call.From, Call.To, Layer, Shift, Share, Adds, Subtracts;
    if CallFrom(a).Some? {
      TransferCounts(s, RunEvent(s, t, CallFrom(a).value), m);
    }
  }

  /** Only the counting sections change what is counted, and none takes off more than is counted. */
  lemma StepCounts(s: System, step: Step, m: Measure)
    requires Enabled(s, step) && IsCounter(m)
    ensures Subtracts(Runner(s, step), m) <= Tally(s, m)
    ensures Tally(Apply(s, step), m) == Tally(s, m) - Subtracts(Runner(s, step), m) + Adds(Runner(s, step), m)
  {
    hide Total, Continue, Layer;
    match step {
      case CallHandler(_, _, _) => EnterCounts(s, step, m);
      case Run(t) => ContinueCounts(s, t, m);
      case Control =>
    }
  }

  function Counter(f: Filter, m: Measure): Ulong {
    if m == CountedSends then f.outstandingSends else f.outstandingRcvs
  }

  /** A section keeps a counter equal, modulo 2^32, to the tally that it changes. */
  lemma SectionCounts(a: Activity, f: Filter, m: Measure, tally: nat)
    requires IsCounter(m) && f.trackSends && f.trackReceives
    requires Counter(f, m) == Wrap(tally)
    ensures Counter(Section(a, f), m) == Wrap(tally - Subtracts(a, m) + Adds(a, m))
  {
    WrapShift(tally, |a.chain|);
    WrapSum(tally, |a.chain|);
    hide Wrap;
  }

  lemma SectionFrame(a: Activity, f: Filter)
    ensures Section(a, f).state == f.state
    ensures Section(a, f).trackSends == f.trackSends && Section(a, f).trackReceives == f.trackReceives
  {
  }

  lemma FilterAfter(s: System, step: Step)
    requires Enabled(s, step)
    ensures var f := Apply(s, step).filter;
            match step
            case CallHandler(_, _, _) => f == s.filter
            case Run(t) => f == Section(s.threads[t], s.filter)
            case Control => f == s.filter.(state := f.state)
  {
  }

  lemma FilterCounts(s: System, step: Step, m: Measure, tally: nat)
    requires Enabled(s, step) && IsCounter(m) && s.filter.trackSends && s.filter.trackReceives
    requires Counter(s.filter, m) == Wrap(tally)
    ensures Counter(Apply(s, step).filter, m)
         == Wrap(tally - Subtracts(Runner(s, step), m) + Adds(Runner(s, step), m))
  {
    hide *;
    FilterAfter(s, step);
    RunnerRuns(s, step, m);
    if step.Run? {
      SectionCounts(Runner(s, step), s.filter, m, tally);
    } else {
      SameCounter(s.filter, Apply(s, step).filter, m);
    }
  }

  lemma SameCounter(f: Filter, f': Filter, m: Measure)
    requires f' == f.(state := f'.state)
    ensures Counter(f', m) == Counter(f, m)
  {
  }

  lemma RunnerRuns(s: System, step: Step, m: Measure)
    requires Enabled(s, step)
    ensures if step.Run? then Runner(s, step) == s.threads[step.t]
            else Subtracts(Runner(s, step), m) == Adds(Runner(s, step), m) == 0
  {
  }

  lemma CounterKept(s: System, step: Step, m: Measure)
    requires Enabled(s, step) && IsCounter(m) && s.filter.trackSends && s.filter.trackReceives
    requires Counter(s.filter, m) == Wrap(Tally(s, m))
    ensures Counter(Apply(s, step).filter, m) == Wrap(Tally(Apply(s, step), m))
  {
    hide *;
    StepCounts(s, step, m);
    FilterCounts(s, step, m, Tally(s, m));
  }

  lemma CountersKept(s: System, step: Step)
    requires Enabled(s, step) && CountersAgree(s)
    ensures CountersAgree(Apply(s, step))
  {
    CounterKept(s, step, CountedSends);
    CounterKept(s, step, CountedRcvs);
    FilterAfter(s, step);
    SectionFrame(Runner(s, step), s.filter);
    hide Tally, Wrap, Section, Apply;
  }

  // ---- Every step keeps the invariant ----

  lemma WalkOn(s: System, s': System, e: Event, x: Nbl)
    requires s'.log == s.log + [e] && s'.sendPool == s.sendPool && s'.recvPool == s.recvPool
    ensures Whereabouts(s', x) == if x !in e.chain then Whereabouts(s, x)
                                  else if e.call.From() == Whereabouts(s, x) then e.call.To()
                                  else Astray
  {
    assert s'.log[..|s.log|] == s.log;
  }

  lemma PoolsKept(s: System, step: Step)
    requires Enabled(s, step)
    ensures Apply(s, step).sendPool == s.sendPool && Apply(s, step).recvPool == s.recvPool
    ensures Apply(s, step).dbg == s.dbg
  {
  }

  lemma LocationMoved(s: System, e: Event, s': System, p: Place, x: Nbl)
    requires Located(s, x) && s'.sendPool == s.sendPool && s'.recvPool == s.recvPool
    requires TallyMoves(s, Some(e), s', e.call.From(), x) && TallyMoves(s, Some(e), s', p, x)
    ensures x in s.sendPool || x in s.recvPool ==> Whereabouts(s', x) != Astray
    ensures LocatedAt(s', x, p)
  {
    CallsMove(e.call);
    WalkOn(s, s', e, x);
    assert LocatedAt(s, x, p) && LocatedAt(s, x, e.call.From());
    hide Tally, Whereabouts, Call.From, Call.To;
  }

  lemma LocationKept(s: System, step: Step, x: Nbl)
    requires Enabled(s, step) && Located(s, x)
    ensures Located(Apply(s, step), x)
  {
    var s' := Apply(s, step);
    hide Tally, Apply, CallOf, Walk, TallyMoves, Enabled, Call.From;
    PoolsKept(s, step);
    StepMoves(s, step, SendUpper, x);
    forall p
      ensures LocatedAt(s', x, p)
      ensures x in s.sendPool || x in s.recvPool ==> Whereabouts(s', x) != Astray
    {
      StepMoves(s, step, p, x);
      match CallOf(s, step) {
        case Some(e) =>
          StepMoves(s, step, e.call.From(), x);
          LocationMoved(s, e, s', p, x);
        case None =>
          QuietWalk(s, s', p, x);
      }
    }
    assert LocatedAt(s', x, Astray);
  }

  lemma QuietWalk(s: System, s': System, p: Place, x: Nbl)
    requires TallyMoves(s, None, s', p, x) && s'.sendPool == s.sendPool && s'.recvPool == s.recvPool
    requires Located(s, x)
    ensures LocatedAt(s', x, p) && Whereabouts(s', x) == Whereabouts(s, x)
  {
    assert LocatedAt(s, x, p);
    hide Tally;
  }

  /** A chain held by an activation and one held by a layer never meet. */
  lemma Apart(s: System, t: nat, p: Place, q: Place, x: Nbl)
    requires t < |s.threads| && Located(s, x) && x in s.threads[t].chain
    requires Standing(s.threads[t].stage) == p != Astray && p != q
    ensures x !in Layer(s, q)
  {
    TotalUpdate(s.threads, t, Activity(Finished, [], false), At(p, x));
    assert LocatedAt(s, x, p) && LocatedAt(s, x, q);
    hide Total, Standing, Layer;
  }

  /** So a chain once marked stays marked until it is completed. */
  lemma MarkSurvivesEntry(s: System, step: Step, t: nat)
    requires Enabled(s, step) && step.CallHandler? && MarkedAt(s, t) && forall x :: Located(s, x)
    ensures MarkedAt(Apply(s, step), t)
  {
    assert Entry(s.dbg, step.call) != SendMarked;
    hide Shift, Entry, Located, Call.To;
    if step.call == Submit && t < |s.threads| && s.threads[t].stage == SendMarked {
      forall x | x in s.threads[t].chain
        ensures x !in step.chain
      {
        Apart(s, t, SendHandler, SendUpper, x);
      }
    }
  }

  lemma MarkSurvivesRun(s: System, t': nat, t: nat)
    requires t' < |s.threads| && MarkedAt(s, t)
    ensures MarkedAt(Continue(s, t'), t)
  {
    assert Next(s.threads[t'], s.filter.Admits()) == SendMarked ==> s.threads[t'].stage == SendRefused;
    hide Next, Shift, Section, CallFrom;
  }

  lemma MarkKept(s: System, step: Step, t: nat)
    requires Enabled(s, step) && MarkedAt(s, t) && forall x :: Located(s, x)
    ensures MarkedAt(Apply(s, step), t)
  {
    hide Continue, Transfer, Located, Layer;
    match step {
      case CallHandler(_, _, _) => MarkSurvivesEntry(s, step, t);
      case Run(t') => MarkSurvivesRun(s, t', t);
      case Control =>
    }
  }

  lemma RefusalIsMarked(s: System, step: Step)
    requires Enabled(s, step) && RefusalsMarked(s)
    ensures match CallOf(s, step) case Some(e) => e.call == RefuseUp ==> AllMarked(e) case None => true
  {
    if step.Run? {
      assert MarkedAt(s, step.t);
      assert CallFrom(s.threads[step.t]) == Some(RefuseUp) ==> s.threads[step.t].stage == SendMarked;
      hide CallFrom;
    }
  }

  lemma RefusalLogged(s: System, step: Step)
    requires Enabled(s, step) && RefusalsMarked(s)
    ensures var log := Apply(s, step).log;
            forall i :: 0 <= i < |log| && log[i].call == RefuseUp ==> AllMarked(log[i])
  {
    RefusalIsMarked(s, step);
    StepMoves(s, step, SendUpper, 0);
    hide CallOf, Apply, Enabled, MarkedAt, Tally;
  }

  lemma MarksKept(s: System, step: Step)
    requires Enabled(s, step) && RefusalsMarked(s) && forall x :: Located(s, x)
    ensures RefusalsMarked(Apply(s, step))
  {
    RefusalLogged(s, step);
    hide Apply, Located, MarkedAt, Enabled;
    forall t: nat
      ensures MarkedAt(Apply(s, step), t)
    {
      MarkKept(s, step, t);
    }
  }

  lemma RunLifecycle(s: System, t: nat)
    requires t < |s.threads|
    ensures var s' := Continue(s, t);
            s'.filter.state == s.filter.state && s'.ndis == s.ndis && s'.assertsHeld == s.assertsHeld
  {
    SectionFrame(s.threads[t], s.filter);
    hide Section, Shift, Next, CallFrom;
  }

  lemma EntryLifecycle(s: System, step: Step)
    requires Enabled(s, step) && step.CallHandler?
    ensures var s' := Apply(s, step);
            s'.filter == s.filter && s'.ndis == s.ndis && s'.assertsHeld == s.assertsHeld
  {
    hide Layer, Shift, Entry;
  }

  lemma ControlLifecycle(s: System)
    requires LifecycleAgrees(s) && s.assertsHeld
    ensures LifecycleAgrees(Administer(s)) && Administer(s).assertsHeld
  {
  }

  lemma LifecycleKept(s: System, step: Step)
    requires Enabled(s, step) && LifecycleAgrees(s) && s.assertsHeld
    ensures LifecycleAgrees(Apply(s, step)) && Apply(s, step).assertsHeld
  {
    hide Continue, Transfer, Administer;
    match step {
      case Run(t) => RunLifecycle(s, t);
      case CallHandler(_, _, _) => EntryLifecycle(s, step);
      case Control => ControlLifecycle(s);
    }
  }

  /** A layer holds no NBL twice, so the chains it passes are proper. */
  lemma EntersProper(s: System, step: Step)
    requires Enabled(s, step) && step.CallHandler? && forall x :: Located(s, x)
    ensures Proper(step.chain)
  {
    forall x
      ensures multiset(step.chain)[x] <= 1
    {
      assert Located(s, x);
      assert LocatedAt(s, x, step.call.From());
      assert Layer(s, step.call.From())[x] <= 1;
    }
  }

  lemma StepChains(s: System, step: Step)
    requires Enabled(s, step)
    ensures match step
            case CallHandler(_, c, _) =>
              exists a: Activity :: a.chain == c && Apply(s, step).threads == s.threads + [a]
            case Run(t) =>
              exists a: Activity :: a.chain == s.threads[t].chain && Apply(s, step).threads == s.threads[t := a]
            case Control => Apply(s, step).threads == s.threads
  {
    hide Shift, Entry, CallFrom, Section, Next;
    match step {
      case CallHandler(_, _, _) => assert Apply(s, step).threads == s.threads + [Entered(s, step)];
      case Run(t) =>
        var a := s.threads[t].(stage := Next(s.threads[t], s.filter.Admits()));
        assert Apply(s, step).threads == s.threads[t := a];
      case Control =>
    }
  }

  lemma ProperKept(s: System, step: Step)
    requires Enabled(s, step) && ChainsProper(s) && forall x :: Located(s, x)
    ensures ChainsProper(Apply(s, step))
  {
    StepChains(s, step);
    if step.CallHandler? {
      EntersProper(s, step);
    }
    hide Proper, Located, Apply;
  }

  lemma {:induction false} ShareInTotal(threads: seq<Activity>, t: nat, m: Measure)
    requires t < |threads|
    ensures Share(m, threads[t]) <= Total(threads, m)
  {
    if t > 0 {
      ShareInTotal(threads[1..], t - 1, m);
    }
  }

  /** Calls never carry an NBL from the receive side to the send side or back. */
  lemma {:induction false} WalkKeepsSide(log: seq<Event>, x: Nbl, home: Place)
    ensures var p := Walk(log, x, home); p == Astray || OnSendSide(p) == OnSendSide(home)
  {
    if log != [] {
      WalkKeepsSide(log[..|log| - 1], x, home);
    }
  }

  predicate OnSendSide(p: Place) {
    p == SendUpper || p == SendHandler || p == SendLower || p == CompleteHandler
  }

  /** An NBL that is somewhere on the receive side is one of the receive pool's. */
  lemma OfRecvPool(s: System, p: Place, x: Nbl)
    requires Located(s, x) && Tally(s, At(p, x)) > 0 && p != Astray && !OnSendSide(p)
    ensures x in s.recvPool && Tally(s, At(p, x)) == 1 && Whereabouts(s, x) == p
  {
    assert LocatedAt(s, x, p);
    WalkKeepsSide(s.log, x, Home(s, x));
    hide Tally, Walk;
  }

  lemma SubmultisetSize(a: multiset<Nbl>, b: multiset<Nbl>)
    requires forall x :: a[x] <= b[x]
    ensures a <= b && |a| <= |b|
  {
    assert b == a + (b - a);
  }

  /** A received chain consists of NBLs of the pool, so it is no longer than the pool is large. */
  lemma ReceivedFits(s: System, t: nat)
    requires t < |s.threads| && Standing(s.threads[t].stage) == RecvHandler && forall x :: Located(s, x)
    ensures |s.threads[t].chain| <= |s.recvPool|
  {
    var c, pool := s.threads[t].chain, multiset(s.recvPool);
    forall x
      ensures multiset(c)[x] <= pool[x]
    {
      ShareInTotal(s.threads, t, At(RecvHandler, x));
      if multiset(c)[x] > 0 {
        OfRecvPool(s, RecvHandler, x);
      }
      hide Located, Whereabouts, Total;
    }
    SubmultisetSize(multiset(c), pool);
    hide Located;
  }

  lemma CountAssertKept(s: System, step: Step)
    requires Enabled(s, step) && ChainsProper(s) && forall x :: Located(s, x)
    requires |s.recvPool| < ULONG_MODULUS && s.countAssertsHeld
    ensures Apply(s, step).countAssertsHeld
  {
    if step.Run? {
      var a := s.threads[step.t];
      if a.stage == RecvAdmitted {
        ReceivedFits(s, step.t);
        assert Proper(a.chain);
      }
    }
    hide Shift, Entry, CallFrom, Section, Next, Located;
  }

  lemma StepKeepsInv(s: System, step: Step)
    requires Inv(s) && Enabled(s, step)
    ensures Inv(Apply(s, step))
  {
    PoolsKept(s, step);
    ProperKept(s, step);
    if |s.recvPool| < ULONG_MODULUS {
      CountAssertKept(s, step);
    }
    LifecycleKept(s, step);
    CountersKept(s, step);
    MarksKept(s, step);
    forall x
      ensures Located(Apply(s, step), x)
    {
      LocationKept(s, step, x);
    }
    hide Apply, Located, LifecycleAgrees, CountersAgree, RefusalsMarked, ChainsProper;
  }

  lemma InitialInv(s: System)
    requires Initial(s)
    ensures Inv(s)
  {
  }

  lemma {:induction false} RunKeepsInv(s: System, steps: seq<Step>)
    requires Inv(s) && Legal(s, steps)
    ensures Inv(After(s, steps))
    decreases |steps|
  {
    if steps != [] {
      StepKeepsInv(s, steps[0]);
      RunKeepsInv(Apply(s, steps[0]), steps[1..]);
    }
    hide Inv, Apply, Enabled;
  }
}
