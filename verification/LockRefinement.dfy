/**
 * Why a critical section may be one step: a finer system, in which the holder of MS_FILTER.Lock
 * loads and stores the counters one access at a time while everybody else goes on with what takes
 * no lock, does nothing that the system of Datapath cannot do.
 */
module LockRefinement {
  import opened Options
  import opened Ulongs
  import opened FilterModule
  import opened Datapath
  import opened DatapathInvariants
  import opened DatapathTheorems
  import opened ReceiveCounts

  predicate Checks(stage: Stage) {
    stage == SendArrived || stage == RecvArrived
  }

  predicate CountsSends(stage: Stage) {
    stage == SendAdmitted || stage == CompleteArrived
  }

  predicate CountsRcvs(stage: Stage) {
    stage == RecvAdmitted || stage == RecvSpent || stage == ReturnHandedBack
  }

  predicate Counts(stage: Stage) {
    CountsSends(stage) || CountsRcvs(stage)
  }

  function CounterAt(stage: Stage, f: Filter): Ulong {
    if CountsSends(stage) then f.outstandingSends else f.outstandingRcvs
  }

  function WithCounter(stage: Stage, f: Filter, v: Ulong): Filter {
    if CountsSends(stage) then f.(outstandingSends := v) else f.(outstandingRcvs := v)
  }

  /** Load-store rounds of the section: one per NBL in the send handler's loop, else one; none if not tracked. */
  function Rounds(a: Activity, f: Filter): nat {
    if !(if CountsSends(a.stage) then f.trackSends else f.trackReceives) then 0
    else if a.stage == SendAdmitted then |a.chain|
    else 1
  }

  /** What a round stores, having loaded v. */
  function Stored(a: Activity, v: Ulong): Ulong {
    match a.stage
    case SendAdmitted => Wrap(v + 1)
    case RecvAdmitted => Wrap(v + Wrap(|a.chain|))
    case _ => Wrap(v - Wrap(|a.chain|))
  }

  /** The counter after n rounds that began at `saved`. */
  function Reached(a: Activity, saved: Ulong, n: nat): Ulong {
    if n == 0 then saved else Stored(a, Reached(a, saved, n - 1))
  }

  /** The holder of the lock, and how far it is. */
  datatype Lock =
    | Free
    | Checking(t: nat)                                                    // State not yet read
    | Counting(t: nat, ghost saved: Ulong, left: nat, register: Option<Ulong>)
    | Pausing                                                             // State not yet written
    | Ending(owner: Option<nat>)                                          // an activation, or FilterPause

  datatype Fine = Fine(sys: System, lock: Lock)

  datatype FineStep = Acquire(t: nat) | AcquireForPause | Access | Unlock | Unlocked(step: Step)

  /** The step is a section under the lock. */
  predicate Guarded(s: System, step: Step)
    requires Enabled(s, step)
  {
    match step
    case CallHandler(_, _, _) => false
    case Run(t) => Checks(s.threads[t].stage) || Counts(s.threads[t].stage)
    case Control => s.ndis == NdisCallingPause
  }

  predicate ByHolder(lock: Lock, step: Step) {
    match lock
    case Ending(Some(t)) => step == Run(t)
    case Ending(None) => step == Control
    case _ => false
  }

  predicate FineEnabled(f: Fine, step: FineStep) {
    match step
    case Acquire(t) =>
      f.lock.Free? && t < |f.sys.threads| && (Checks(f.sys.threads[t].stage) || Counts(f.sys.threads[t].stage))
    case AcquireForPause => f.lock.Free? && f.sys.ndis == NdisCallingPause
    case Access => f.lock.Checking? || f.lock.Pausing? || (f.lock.Counting? && f.lock.left > 0)
    case Unlock => f.lock.Ending? || (f.lock.Counting? && f.lock.left == 0)
    case Unlocked(c) => Enabled(f.sys, c) && !Guarded(f.sys, c) && !ByHolder(f.lock, c)
  }

  /** Everything that `Continue` does but the section itself. */
  function Advance(s: System, t: nat): System
    requires t < |s.threads|
  {
    Continue(s, t).(filter := s.filter)
  }

  /** Some rounds are over, and a counter that was loaded has not changed since. */
  ghost predicate Midway(a: Activity, f: Filter, lock: Lock)
    requires lock.Counting?
  {
    && lock.left <= Rounds(a, f)
    && CounterAt(a.stage, f) == Reached(a, lock.saved, Rounds(a, f) - lock.left)
    && (lock.register.Some? ==> lock.register.value == CounterAt(a.stage, f))
  }

  ghost predicate FineInv(f: Fine) {
    match f.lock
    case Checking(t) => t < |f.sys.threads| && Checks(f.sys.threads[t].stage)
    case Counting(t, _, _, _) =>
      t < |f.sys.threads| && Counts(f.sys.threads[t].stage) && Midway(f.sys.threads[t], f.sys.filter, f.lock)
    case Pausing => f.sys.ndis == NdisCallingPause
    case _ => true
  }

  ghost function FineApply(f: Fine, step: FineStep): Fine
    requires FineInv(f) && FineEnabled(f, step)
  {
    match step
    case Acquire(t) =>
      var a := f.sys.threads[t];
      f.(lock := if Checks(a.stage) then Checking(t)
                 else Counting(t, CounterAt(a.stage, f.sys.filter), Rounds(a, f.sys.filter), None))
    case AcquireForPause => f.(lock := Pausing)
    case Access => AccessMemory(f)
    case Unlock => Fine(if f.lock.Counting? then Advance(f.sys, f.lock.t) else f.sys, Free)
    case Unlocked(c) => f.(sys := Apply(f.sys, c))
  }

  ghost function AccessMemory(f: Fine): Fine
    requires FineInv(f) && FineEnabled(f, Access)
  {
    match f.lock
    case Checking(t) => Fine(Continue(f.sys, t), Ending(Some(t)))
    case Pausing => Fine(Administer(f.sys), Ending(None))
    case Counting(t, _, left, register) =>
      var a := f.sys.threads[t];
      match register {
        case None => f.(lock := f.lock.(register := Some(CounterAt(a.stage, f.sys.filter))))
        case Some(v) =>
          Fine(f.sys.(filter := WithCounter(a.stage, f.sys.filter, Stored(a, v))),
               f.lock.(left := left - 1, register := None))
      }
    case _ => f
  }

  /** What the finer state stands for: a section that is under way has not begun. */
  ghost function Abstract(f: Fine): System
    requires FineInv(f)
  {
    if f.lock.Counting? then
      f.sys.(filter := WithCounter(f.sys.threads[f.lock.t].stage, f.sys.filter, f.lock.saved))
    else f.sys
  }

  /** The step of Datapath, if any, that the finer step completes. */
  ghost function Completes(f: Fine, step: FineStep): Option<Step> {
    match step
    case Access =>
      if f.lock.Checking? then Some(Run(f.lock.t)) else if f.lock.Pausing? then Some(Control) else None
    case Unlock => if f.lock.Counting? then Some(Run(f.lock.t)) else None
    case Unlocked(c) => Some(c)
    case _ => None
  }

  ghost predicate Simulates(f: Fine, step: FineStep)
    requires FineInv(f) && FineEnabled(f, step)
  {
    var f' := FineApply(f, step);
    && FineInv(f')
    && match Completes(f, step)
       case None => Abstract(f') == Abstract(f)
       case Some(c) => Enabled(Abstract(f), c) && Abstract(f') == Apply(Abstract(f), c)
  }

  // ---- Sections ----

  lemma {:induction false} SendLoop(a: Activity, saved: Ulong, n: nat)
    requires a.stage == SendAdmitted
    ensures Reached(a, saved, n) == Wrap(saved + n)
  {
    if n > 0 {
      SendLoop(a, saved, n - 1);
      WrapShift(saved + n - 1, 1);
    }
  }

  /** All rounds together are the section. */
  lemma RoundsAreSection(a: Activity, f: Filter, saved: Ulong)
    requires Counts(a.stage)
    requires CounterAt(a.stage, f) == Reached(a, saved, Rounds(a, f))
    ensures Section(a, WithCounter(a.stage, f, saved)) == f
  {
    if a.stage == SendAdmitted {
      SendLoop(a, saved, Rounds(a, f));
    } else {
      assert Reached(a, saved, 1) == Stored(a, Reached(a, saved, 0));
    }
  }

  /** Of the filter's fields, a step of an activation uses State; the section uses what it likes. */
  lemma ContinueWith(s: System, t: nat, g: Filter)
    requires t < |s.threads| && g.state == s.filter.state
    ensures Continue(s.(filter := g), t) == Continue(s, t).(filter := Section(s.threads[t], g))
    ensures Continue(s, t).filter == Section(s.threads[t], s.filter)
    ensures Continue(s, t).ndis == s.ndis
    ensures |Continue(s, t).threads| == |s.threads|
  {
    hide Section, Next, CallFrom, Shift;
  }

  /** A section whose memory accesses are over, and which then ends, is the step of Datapath. */
  lemma SectionDone(s: System, t: nat, g: Filter)
    requires t < |s.threads| && g.state == s.filter.state && Section(s.threads[t], g) == s.filter
    ensures Advance(s, t) == Continue(s.(filter := g), t)
  {
    ContinueWith(s, t, g);
    hide Section, Continue;
  }

  lemma KeepsState(stage: Stage, f: Filter, v: Ulong)
    ensures WithCounter(stage, f, v).state == f.state
  {
  }

  lemma CountingUnlocks(f: Fine)
    requires FineInv(f) && FineEnabled(f, Unlock) && f.lock.Counting?
    ensures Simulates(f, Unlock)
  {
    var t, a := f.lock.t, f.sys.threads[f.lock.t];
    var g := WithCounter(a.stage, f.sys.filter, f.lock.saved);
    RoundsAreSection(a, f.sys.filter, f.lock.saved);
    KeepsState(a.stage, f.sys.filter, f.lock.saved);
    SectionDone(f.sys, t, g);
    hide Section, Continue, Advance, Reached, Rounds, Checks, Counts, CounterAt, WithCounter;
  }

  lemma UnlockSimulates(f: Fine)
    requires FineInv(f) && FineEnabled(f, Unlock)
    ensures Simulates(f, Unlock)
  {
    if f.lock.Counting? {
      CountingUnlocks(f);
      hide Simulates;
    }
  }

  lemma AccessSimulates(f: Fine)
    requires FineInv(f) && FineEnabled(f, Access)
    ensures Simulates(f, Access)
  {
    hide Continue, Administer;
  }

  predicate SameCounters(f: Filter, f': Filter, stage: Stage) {
    CounterAt(stage, f') == CounterAt(stage, f) && f'.trackSends == f.trackSends && f'.trackReceives == f.trackReceives
  }

  lemma NoSection(a: Activity, f: Filter)
    requires !Checks(a.stage) && !Counts(a.stage)
    ensures Section(a, f) == f
  {
  }

  predicate Commutes(s: System, c: Step, stage: Stage, v: Ulong)
    requires Enabled(s, c)
  {
    var s1 := s.(filter := WithCounter(stage, s.filter, v));
    && Enabled(s1, c)
    && Apply(s1, c) == Apply(s, c).(filter := WithCounter(stage, Apply(s, c).filter, v))
    && SameCounters(s.filter, Apply(s, c).filter, stage)
  }

  lemma EntryCommutes(s: System, c: Step, stage: Stage, v: Ulong)
    requires Enabled(s, c) && c.CallHandler?
    ensures Commutes(s, c, stage, v)
  {
    hide Shift, Entry, WithCounter, CounterAt;
  }

  lemma RunCommutes(s: System, t: nat, stage: Stage, v: Ulong)
    requires Enabled(s, Run(t)) && !Guarded(s, Run(t))
    ensures Commutes(s, Run(t), stage, v)
  {
    var g := WithCounter(stage, s.filter, v);
    ContinueWith(s, t, g);
    NoSection(s.threads[t], s.filter);
    NoSection(s.threads[t], g);
    hide Continue, Section, Checks, Counts;
  }

  lemma PauseCommutes(s: System, stage: Stage, v: Ulong)
    ensures Commutes(s, Control, stage, v)
  {
    AdministerWith(s, WithCounter(stage, s.filter, v));
    hide Administer;
  }

  lemma AdministerWith(s: System, g: Filter)
    requires g.state == s.filter.state
    ensures var s' := Administer(s);
            && Administer(s.(filter := g)) == s'.(filter := g.(state := s'.filter.state))
            && s'.filter == s.filter.(state := s'.filter.state)
  {
    var s1, s' := s.(filter := g), Administer(s);
    assert s1.ndis == s.ndis;
    match s.ndis {
      case NdisPaused => assert Administer(s1) == s'.(filter := g);
      case NdisCallingRestart =>
      case NdisRunning => assert Administer(s1) == s'.(filter := g);
      case NdisCallingPause =>
      case NdisAwaitingPause =>
    }
  }

  /** A step that takes no lock neither reads nor writes the counters. */
  lemma UnlockedCommutes(s: System, c: Step, stage: Stage, v: Ulong)
    requires Enabled(s, c) && !Guarded(s, c)
    ensures Commutes(s, c, stage, v)
  {
    hide Commutes;
    match c {
      case CallHandler(_, _, _) => EntryCommutes(s, c, stage, v);
      case Run(t) => RunCommutes(s, t, stage, v);
      case Control => PauseCommutes(s, stage, v);
    }
  }

  lemma UnlockedLeaves(s: System, c: Step, t: nat)
    requires Enabled(s, c) && !Guarded(s, c) && t < |s.threads| && c != Run(t)
    ensures t < |Apply(s, c).threads| && Apply(s, c).threads[t] == s.threads[t]
  {
    hide Shift, CallFrom, Entry, Section, Next;
  }

  lemma PauseWaits(s: System, c: Step)
    requires Enabled(s, c) && !Guarded(s, c) && s.ndis == NdisCallingPause
    ensures Apply(s, c).ndis == NdisCallingPause
  {
    hide Shift, CallFrom, Entry, Section, Next;
  }

  lemma StillMidway(a: Activity, f: Filter, f': Filter, lock: Lock)
    requires lock.Counting? && SameCounters(f, f', a.stage) && Midway(a, f, lock)
    ensures Midway(a, f', lock)
  {
    hide Reached;
  }

  lemma CountingKept(f: Fine, c: Step)
    requires FineInv(f) && FineEnabled(f, Unlocked(c)) && f.lock.Counting?
    ensures FineInv(f.(sys := Apply(f.sys, c)))
  {
    var a := f.sys.threads[f.lock.t];
    UnlockedCommutes(f.sys, c, a.stage, f.lock.saved);
    UnlockedLeaves(f.sys, c, f.lock.t);
    StillMidway(a, f.sys.filter, Apply(f.sys, c).filter, f.lock);
    hide Apply, Enabled, Guarded, Counts, CounterAt, WithCounter, Checks, Midway;
  }

  lemma CountingGoesOn(f: Fine, c: Step)
    requires FineInv(f) && FineEnabled(f, Unlocked(c)) && f.lock.Counting?
    ensures Simulates(f, Unlocked(c))
  {
    CountingKept(f, c);
    UnlockedCommutes(f.sys, c, f.sys.threads[f.lock.t].stage, f.lock.saved);
    UnlockedLeaves(f.sys, c, f.lock.t);
    hide Apply, Enabled, Guarded, Midway, SameCounters, WithCounter, Counts;
  }

  lemma CheckingGoesOn(f: Fine, c: Step)
    requires FineInv(f) && FineEnabled(f, Unlocked(c)) && f.lock.Checking?
    ensures Simulates(f, Unlocked(c))
  {
    UnlockedLeaves(f.sys, c, f.lock.t);
    hide Apply, Enabled, Guarded, Counts;
  }

  lemma PausingGoesOn(f: Fine, c: Step)
    requires FineInv(f) && FineEnabled(f, Unlocked(c)) && f.lock.Pausing?
    ensures Simulates(f, Unlocked(c))
  {
    PauseWaits(f.sys, c);
    hide Apply, Enabled, Guarded;
  }

  lemma OthersGoOn(f: Fine, c: Step)
    requires FineInv(f) && FineEnabled(f, Unlocked(c)) && (f.lock.Free? || f.lock.Ending?)
    ensures Simulates(f, Unlocked(c))
  {
    hide Apply, Enabled, Guarded;
  }

  lemma UnlockedSimulates(f: Fine, c: Step)
    requires FineInv(f) && FineEnabled(f, Unlocked(c))
    ensures Simulates(f, Unlocked(c))
  {
    hide Simulates, FineInv, FineEnabled;
    match f.lock {
      case Counting(_, _, _, _) => CountingGoesOn(f, c);
      case Checking(_) => CheckingGoesOn(f, c);
      case Pausing => PausingGoesOn(f, c);
      case _ => OthersGoOn(f, c);
    }
  }

  lemma StepSimulates(f: Fine, step: FineStep)
    requires FineInv(f) && FineEnabled(f, step)
    ensures Simulates(f, step)
  {
    match step {
      case Acquire(t) => hide Rounds;
      case AcquireForPause =>
      case Access => AccessSimulates(f);
      case Unlock => UnlockSimulates(f);
      case Unlocked(c) => UnlockedSimulates(f, c);
    }
  }

  // ---- Runs ----

  ghost function NextFine(f: Fine, step: FineStep): (f': Fine)
    requires FineInv(f) && FineEnabled(f, step)
    ensures FineInv(f')
  {
    StepSimulates(f, step);
    FineApply(f, step)
  }

  ghost predicate FineLegal(f: Fine, steps: seq<FineStep>)
    requires FineInv(f)
    decreases |steps|
  {
    steps == [] || (FineEnabled(f, steps[0]) && FineLegal(NextFine(f, steps[0]), steps[1..]))
  }

  ghost function FineAfter(f: Fine, steps: seq<FineStep>): (f': Fine)
    requires FineInv(f) && FineLegal(f, steps)
    ensures FineInv(f')
    decreases |steps|
  {
    if steps == [] then f else FineAfter(NextFine(f, steps[0]), steps[1..])
  }

  /** What a finer run does, a run of Datapath does. */
  lemma {:induction false} RunSimulates(f: Fine, steps: seq<FineStep>) returns (coarse: seq<Step>)
    requires FineInv(f) && FineLegal(f, steps)
    ensures Legal(Abstract(f), coarse) && After(Abstract(f), coarse) == Abstract(FineAfter(f, steps))
    decreases |steps|
  {
    coarse := [];
    if steps != [] {
      StepSimulates(f, steps[0]);
      var rest := RunSimulates(NextFine(f, steps[0]), steps[1..]);
      hide Abstract, FineApply, FineInv, FineEnabled, Apply, Enabled, Completes;
      match Completes(f, steps[0]) {
        case None => coarse := rest;
        case Some(c) =>
          coarse := [c] + rest;
          assert coarse[1..] == rest;
      }
    }
  }

  /**
   * So wherever the lock is free, the counters of the finer system say what those of Datapath do,
   * although they were stepped up and down one access at a time.
   */
  lemma FineCountersConserved(s: System, steps: seq<FineStep>)
    requires Initial(s) && FineLegal(Fine(s, Free), steps)
    ensures var f := FineAfter(Fine(s, Free), steps);
            f.lock.Free? ==> SendsConserved(f.sys) && RcvsConserved(f.sys) && Inv(f.sys)
  {
    var coarse := RunSimulates(Fine(s, Free), steps);
    var f := FineAfter(Fine(s, Free), steps);
    hide SendsConserved, RcvsConserved, Inv, Initial, Legal, After, FineAfter, FineLegal;
    SendConservation(s, coarse);
    ReceiveConservation(s, coarse);
    ReachableInv(s, coarse);
  }

  // ---- The other direction ----

  lemma Onwards(f: Fine, step: FineStep, rest: seq<FineStep>)
    requires FineInv(f) && FineEnabled(f, step) && FineLegal(NextFine(f, step), rest)
    ensures FineLegal(f, [step] + rest) && FineAfter(f, [step] + rest) == FineAfter(NextFine(f, step), rest)
  {
    assert ([step] + rest)[1..] == rest;
    hide FineInv, FineEnabled, FineApply;
  }

  /** Accesses left to the holder: a load and a store for each round, less a load that is done. */
  function AccessesLeft(lock: Lock): nat
    requires lock.Counting? && (lock.register.Some? ==> lock.left > 0)
  {
    2 * lock.left - if lock.register.Some? then 1 else 0
  }

  /** With nobody in between the holder gets to the end of its section. */
  lemma {:induction false} CountsOut(f: Fine) returns (steps: seq<FineStep>)
    requires FineInv(f) && f.lock.Counting? && (f.lock.register.Some? ==> f.lock.left > 0)
    ensures FineLegal(f, steps)
    ensures Enabled(Abstract(f), Run(f.lock.t))
    ensures FineAfter(f, steps) == Fine(Apply(Abstract(f), Run(f.lock.t)), Free)
    decreases AccessesLeft(f.lock)
  {
    var step := if f.lock.left == 0 then Unlock else Access;
    StepSimulates(f, step);
    var f' := NextFine(f, step);
    if f.lock.left == 0 {
      steps := [Unlock];
      Onwards(f, Unlock, []);
      assert [Unlock] + [] == [Unlock];
      assert f' == Fine(Apply(Abstract(f), Run(f.lock.t)), Free);
    } else {
      AccessProgress(f);
      hide FineApply, FineInv, Abstract, Apply;
      var rest := CountsOut(f');
      Onwards(f, Access, rest);
      steps := [Access] + rest;
    }
    hide Apply, FineInv;
  }

  lemma AccessProgress(f: Fine)
    requires FineInv(f) && f.lock.Counting? && f.lock.left > 0
    ensures var lock := NextFine(f, Access).lock;
            && lock.Counting? && lock.t == f.lock.t && (lock.register.Some? ==> lock.left > 0)
            && AccessesLeft(lock) < AccessesLeft(f.lock)
  {
    hide FineInv;
  }

  lemma Checked(s: System, t: nat) returns (steps: seq<FineStep>)
    requires t < |s.threads| && Checks(s.threads[t].stage)
    ensures FineLegal(Fine(s, Free), steps) && FineAfter(Fine(s, Free), steps) == Fine(Continue(s, t), Free)
  {
    hide Continue;
    var f0 := Fine(s, Free);
    var f1 := NextFine(f0, Acquire(t));
    assert f1 == Fine(s, Checking(t));
    var f2 := NextFine(f1, Access);
    assert f2 == Fine(Continue(s, t), Ending(Some(t)));
    steps := [Acquire(t)] + ([Access] + ([Unlock] + []));
    Onwards(f2, Unlock, []);
    Onwards(f1, Access, [Unlock] + []);
    Onwards(f0, Acquire(t), [Access] + ([Unlock] + []));
  }

  lemma PausedUnderLock(s: System) returns (steps: seq<FineStep>)
    requires s.ndis == NdisCallingPause
    ensures FineLegal(Fine(s, Free), steps) && FineAfter(Fine(s, Free), steps) == Fine(Administer(s), Free)
  {
    hide Administer;
    var f0 := Fine(s, Free);
    var f1 := NextFine(f0, AcquireForPause);
    assert f1 == Fine(s, Pausing);
    var f2 := NextFine(f1, Access);
    assert f2 == Fine(Administer(s), Ending(None));
    steps := [AcquireForPause] + ([Access] + ([Unlock] + []));
    Onwards(f2, Unlock, []);
    Onwards(f1, Access, [Unlock] + []);
    Onwards(f0, AcquireForPause, [Access] + ([Unlock] + []));
  }

  lemma Counted(s: System, t: nat) returns (steps: seq<FineStep>)
    requires t < |s.threads| && Counts(s.threads[t].stage)
    ensures FineLegal(Fine(s, Free), steps) && FineAfter(Fine(s, Free), steps) == Fine(Continue(s, t), Free)
  {
    var f0 := Fine(s, Free);
    var f1 := NextFine(f0, Acquire(t));
    StepSimulates(f0, Acquire(t));
    assert f1.lock.Counting? && f1.lock.t == t && f1.lock.register == None && Abstract(f1) == s;
    hide Continue, Abstract, FineApply, FineInv, Counts;
    var rest := CountsOut(f1);
    Onwards(f0, Acquire(t), rest);
    steps := [Acquire(t)] + rest;
  }

  /** Every step of Datapath is one that the finer system can make, from a free lock to a free lock. */
  lemma StepRealised(s: System, step: Step) returns (steps: seq<FineStep>)
    requires Enabled(s, step)
    ensures FineLegal(Fine(s, Free), steps) && FineAfter(Fine(s, Free), steps) == Fine(Apply(s, step), Free)
  {
    hide Continue, Administer, FineLegal, FineAfter;
    if !Guarded(s, step) {
      steps := [Unlocked(step)] + [];
      Alone(s, step);
    } else if step.Control? {
      steps := PausedUnderLock(s);
    } else if Checks(s.threads[step.t].stage) {
      steps := Checked(s, step.t);
    } else {
      steps := Counted(s, step.t);
    }
  }

  lemma Alone(s: System, step: Step)
    requires Enabled(s, step) && !Guarded(s, step)
    ensures FineLegal(Fine(s, Free), [Unlocked(step)] + [])
    ensures FineAfter(Fine(s, Free), [Unlocked(step)] + []) == Fine(Apply(s, step), Free)
  {
    Onwards(Fine(s, Free), Unlocked(step), []);
    hide Apply, Enabled, Guarded;
  }

  lemma First(f: Fine, steps: seq<FineStep>)
    requires FineInv(f) && FineLegal(f, steps) && steps != []
    ensures FineEnabled(f, steps[0]) && FineLegal(NextFine(f, steps[0]), steps[1..])
    ensures FineAfter(f, steps) == FineAfter(NextFine(f, steps[0]), steps[1..])
  {
    hide FineInv, FineEnabled, FineApply;
  }

  lemma NothingFirst(f: Fine, a: seq<FineStep>, b: seq<FineStep>)
    requires FineInv(f) && FineLegal(f, a) && a == []
    ensures FineAfter(f, a) == f && a + b == b
  {
  }

  lemma {:induction false} Joined(f: Fine, a: seq<FineStep>, b: seq<FineStep>)
    requires FineInv(f) && FineLegal(f, a) && FineLegal(FineAfter(f, a), b)
    ensures FineLegal(f, a + b) && FineAfter(f, a + b) == FineAfter(FineAfter(f, a), b)
    decreases |a|
  {
    hide *;
    if a == [] {
      NothingFirst(f, a, b);
    } else {
      First(f, a);
      Joined(NextFine(f, a[0]), a[1..], b);
      Onwards(f, a[0], a[1..] + b);
      SplitFirst(a, b);
    }
  }

  lemma SplitFirst(a: seq<FineStep>, b: seq<FineStep>)
    requires a != []
    ensures a + b == [a[0]] + (a[1..] + b)
  {
  }

  /** So the two systems have the same runs: what a run of Datapath does, a run of single accesses does. */
  lemma {:induction false} RunRealised(s: System, steps: seq<Step>) returns (fine: seq<FineStep>)
    requires Legal(s, steps)
    ensures FineLegal(Fine(s, Free), fine) && FineAfter(Fine(s, Free), fine) == Fine(After(s, steps), Free)
    decreases |steps|
  {
    fine := [];
    hide Apply, Enabled;
    if steps != [] {
      var first := StepRealised(s, steps[0]);
      var rest := RunRealised(Apply(s, steps[0]), steps[1..]);
      Joined(Fine(s, Free), first, rest);
      fine := first + rest;
    }
  }
}
