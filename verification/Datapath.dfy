/**
 * The datapath of one attached filter module as a transition system.  One step is one critical
 * section under MS_FILTER.Lock, one call into NDIS, or one unlocked write of State.  Handler
 * activations are unbounded in number and interleave freely.
 */
module Datapath {
  import opened Options
  import opened Ulongs
  import opened FilterModule

  type Nbl = nat
  type Chain = seq<Nbl>

  /** Where a handler activation stands between two of its steps. */
  datatype Stage =
    | SendArrived          // FilterSendNetBufferLists entered, state not yet checked
    | SendAdmitted         // past the check, lock dropped, not yet counted
    | SendRefused          // check failed, lock dropped
    | SendMarked           // every NBL marked, not yet completed
    | SendCounted          // counted, not yet handed down
    | CompleteArrived      // FilterSendNetBufferListsComplete entered
    | CompleteDiscounted   // discounted, not yet handed up
    | RecvArrived          // FilterReceiveNetBufferLists entered, state not yet checked
    | RecvAdmitted
    | RecvRefused
    | RecvCounted          // counted, not yet indicated
    | RecvLent             // inside the indication of a chain that cannot pend
    | RecvSpent            // that indication returned, decrement pending
    | ReturnArrived        // FilterReturnNetBufferLists entered
    | ReturnHandedBack     // handed back down, decrement pending
    | Finished

  datatype Activity = Activity(stage: Stage, chain: Chain, canPend: bool)

  /** Who has an NBL. */
  datatype Place =
    | SendUpper | SendHandler | SendLower | CompleteHandler
    | RecvLower | RecvHandler | RecvUpper | RecvLoan | RecvAfterLoan | ReturnHandler
    | Astray

  /** The calls and returns across the filter's two edges that change who has a chain. */
  datatype Call =
    | Submit | RefuseUp | Forward | Complete | CompleteUp
    | Receive | GiveBack | LeaveBack | IndicatePending | IndicateLoan | EndLoan | Release
    | Return | HandBack
  {
    function From(): Place {
      match this
      case Submit => SendUpper
      case RefuseUp | Forward => SendHandler
      case Complete => SendLower
      case CompleteUp => CompleteHandler
      case Receive => RecvLower
      case GiveBack | LeaveBack | IndicatePending | IndicateLoan => RecvHandler
      case EndLoan => RecvLoan
      case Release => RecvAfterLoan
      case Return => RecvUpper
      case HandBack => ReturnHandler
    }

    function To(): Place {
      match this
      case Submit => SendHandler
      case RefuseUp | CompleteUp => SendUpper
      case Forward => SendLower
      case Complete => CompleteHandler
      case Receive => RecvHandler
      case GiveBack | LeaveBack | Release | HandBack => RecvLower
      case IndicatePending => RecvUpper
      case IndicateLoan => RecvLoan
      case EndLoan => RecvAfterLoan
      case Return => ReturnHandler
    }
  }

  /** `marked`: those NBLs of the chain whose status was NDIS_STATUS_PAUSED at the call. */
  datatype Event = Event(call: Call, chain: Chain, marked: set<Nbl>, canPend: bool)

  /** What NDIS knows of the module: it makes lifecycle calls one at a time. */
  datatype Ndis = NdisPaused | NdisCallingRestart | NdisRunning | NdisCallingPause | NdisAwaitingPause

  datatype System = System(
    dbg: bool,
    filter: Filter,
    threads: seq<Activity>,
    sendPool: set<Nbl>,
    recvPool: set<Nbl>,
    sendUpper: multiset<Nbl>,
    sendLower: multiset<Nbl>,
    recvLower: multiset<Nbl>,
    recvUpper: multiset<Nbl>,
    marked: set<Nbl>,          // NBLs whose status is NDIS_STATUS_PAUSED
    ndis: Ndis,
    assertsHeld: bool,         // no FILTER_ASSERT on the state evaluated so far was false
    countAssertsHeld: bool,    // nor the ASSERT on NumberOfNetBufferLists
    log: seq<Event>)

  function Elements(c: Chain): set<Nbl> {
    set x | x in c
  }

  /** A freshly attached module; all NBLs are with their originators. */
  predicate Initial(s: System) {
    && s.filter == ATTACHED
    && s.threads == [] && s.log == []
    && s.sendPool !! s.recvPool
    && s.sendUpper == multiset(s.sendPool) && s.sendLower == multiset{}
    && s.recvLower == multiset(s.recvPool) && s.recvUpper == multiset{}
    && s.ndis == NdisPaused
    && s.assertsHeld && s.countAssertsHeld
  }

  /** One scheduling choice: a handler call, progress of an activation, or of the lifecycle. */
  datatype Step =
    | CallHandler(call: Call, chain: Chain, canPend: bool)
    | Run(t: nat)
    | Control

  predicate EntersHandler(c: Call) {
    c == Submit || c == Complete || c == Receive || c == Return
  }

  function Layer(s: System, p: Place): multiset<Nbl> {
    match p
    case SendUpper => s.sendUpper
    case SendLower => s.sendLower
    case RecvLower => s.recvLower
    case RecvUpper => s.recvUpper
    case _ => multiset{}
  }

  /** Each layer passes a non-empty chain of NBLs it holds, grouped and ordered as it likes. */
  predicate Enabled(s: System, step: Step) {
    match step
    case CallHandler(call, c, _) => EntersHandler(call) && c != [] && multiset(c) <= Layer(s, call.From())
    case Run(t) => t < |s.threads|
    case Control => true
  }

  /** A submitted NBL comes without that status. */
  function MarkedOnEntry(s: System, step: Step): set<Nbl>
    requires step.CallHandler?
  {
    if step.call == Submit then s.marked - Elements(step.chain) else s.marked
  }

  function EntryEvent(s: System, step: Step): Event
    requires step.CallHandler?
  {
    Event(step.call, step.chain, Elements(step.chain) * MarkedOnEntry(s, step), step.canPend)
  }

  function RunEvent(s: System, t: nat, call: Call): Event
    requires t < |s.threads|
  {
    Event(call, s.threads[t].chain, Elements(s.threads[t].chain) * s.marked, s.threads[t].canPend)
  }

  function Apply(s: System, step: Step): System
    requires Enabled(s, step)
  {
    match step
    case CallHandler(call, c, canPend) =>
      Transfer(s, EntryEvent(s, step)).(
        threads := s.threads + [Activity(Entry(s.dbg, call), c, canPend)],
        marked := MarkedOnEntry(s, step))
    case Run(t) => Continue(s, t)
    case Control => Administer(s)
  }

  /** Where a handler starts; without DBG the state check is not compiled in. */
  function Entry(dbg: bool, call: Call): Stage {
    match call
    case Submit => if dbg then SendArrived else SendAdmitted
    case Complete => CompleteArrived
    case Receive => if dbg then RecvArrived else RecvAdmitted
    case Return => ReturnArrived
    case _ => Finished
  }

  function Next(a: Activity, admits: bool): Stage {
    match a.stage
    case SendArrived => if admits then SendAdmitted else SendRefused
    case SendRefused => SendMarked
    case SendAdmitted => SendCounted
    case CompleteArrived => CompleteDiscounted
    case RecvArrived => if admits then RecvAdmitted else RecvRefused
    case RecvAdmitted => RecvCounted
    case RecvCounted => if a.canPend then Finished else RecvLent
    case RecvLent => RecvSpent
    case ReturnArrived => ReturnHandedBack
    case SendMarked | SendCounted | CompleteDiscounted | RecvRefused | RecvSpent | ReturnHandedBack | Finished =>
      Finished
  }

  function Section(a: Activity, f: Filter): Filter {
    match a.stage
    case SendAdmitted => f.CountSends(|a.chain|)
    case CompleteArrived => f.DiscountSends(|a.chain|)
    case RecvAdmitted => f.CountRcvs(|a.chain|)
    case RecvSpent | ReturnHandedBack => f.DiscountRcvs(|a.chain|)
    case _ => f
  }

  /** The NDIS call made, or the return to it, if the step from this stage is one. */
  function CallFrom(a: Activity): Option<Call> {
    match a.stage
    case SendMarked => Some(RefuseUp)
    case SendCounted => Some(Forward)
    case CompleteDiscounted => Some(CompleteUp)
    case RecvRefused => Some(if a.canPend then GiveBack else LeaveBack)
    case RecvCounted => Some(if a.canPend then IndicatePending else IndicateLoan)
    case RecvLent => Some(EndLoan)
    case RecvSpent => Some(Release)
    case ReturnArrived => Some(HandBack)
    case _ => None
  }

  /** Past the check the receive handler asserts that NumberOfNetBufferLists, 32 bits wide, is not 0. */
  predicate CountAssert(a: Activity) {
    a.stage == RecvAdmitted ==> Wrap(|a.chain|) >= 1
  }

  function Continue(s: System, t: nat): System
    requires t < |s.threads|
  {
    var a := s.threads[t];
    var s' := s.(
      threads := s.threads[t := a.(stage := Next(a, s.filter.Admits()))],
      filter := Section(a, s.filter),
      marked := if a.stage == SendRefused then s.marked + Elements(a.chain) else s.marked,
      countAssertsHeld := s.countAssertsHeld && CountAssert(a));
    match CallFrom(a)
    case Some(call) => Transfer(s', RunEvent(s, t, call))
    case None => s'
  }

  /** A layer's holdings after the call `e`. */
  function Shift(pool: multiset<Nbl>, layer: Place, e: Event): multiset<Nbl> {
    if e.call.From() == layer then pool - multiset(e.chain)
    else if e.call.To() == layer then pool + multiset(e.chain)
    else pool
  }

  function Transfer(s: System, e: Event): System {
    s.(sendUpper := Shift(s.sendUpper, SendUpper, e),
       sendLower := Shift(s.sendLower, SendLower, e),
       recvLower := Shift(s.recvLower, RecvLower, e),
       recvUpper := Shift(s.recvUpper, RecvUpper, e),
       log := s.log + [e])
  }

  /**
   * NDIS calls FilterRestart only on a module it knows to be paused and FilterPause only on one
   * it knows to be running; the steps inside are the entry assertion and each write of State.
   */
  function Administer(s: System): System {
    match s.ndis
    case NdisPaused =>
      s.(ndis := NdisCallingRestart, assertsHeld := s.assertsHeld && s.filter.state == FilterPaused)
    case NdisCallingRestart => s.(ndis := NdisRunning, filter := s.filter.(state := FilterRunning))
    case NdisRunning =>
      s.(ndis := NdisCallingPause, assertsHeld := s.assertsHeld && s.filter.state == FilterRunning)
    case NdisCallingPause => s.(ndis := NdisAwaitingPause, filter := s.filter.(state := FilterPausing))
    case NdisAwaitingPause => s.(ndis := NdisPaused, filter := s.filter.(state := FilterPaused))
  }

  predicate Legal(s: System, steps: seq<Step>)
    decreases |steps|
  {
    steps == [] || (Enabled(s, steps[0]) && Legal(Apply(s, steps[0]), steps[1..]))
  }

  function After(s: System, steps: seq<Step>): System
    requires Legal(s, steps)
    decreases |steps|
  {
    if steps == [] then s else After(Apply(s, steps[0]), steps[1..])
  }

  // ---- What is counted ----

  /** Occurrences of an NBL at a place or past the check, or the NBLs a counter stands for. */
  datatype Measure =
    | At(place: Place, nbl: Nbl)
    | PastSendCheck(nbl: Nbl)
    | PastRecvCheck(nbl: Nbl)
    | CountedSends
    | CountedRcvs

  /** The place of the chain of an activation; Astray when it no longer has one. */
  function Standing(stage: Stage): Place {
    match stage
    case SendArrived | SendAdmitted | SendRefused | SendMarked | SendCounted => SendHandler
    case CompleteArrived | CompleteDiscounted => CompleteHandler
    case RecvArrived | RecvAdmitted | RecvRefused | RecvCounted => RecvHandler
    case RecvLent => RecvLoan
    case RecvSpent => RecvAfterLoan
    case ReturnArrived => ReturnHandler
    case ReturnHandedBack | Finished => Astray
  }

  predicate Concerns(m: Measure, stage: Stage) {
    match m
    case At(p, _) => p != Astray && Standing(stage) == p
    case PastSendCheck(_) => stage == SendAdmitted || stage == SendCounted
    case PastRecvCheck(_) => stage == RecvAdmitted || stage == RecvCounted
    case CountedSends => stage == SendCounted || stage == CompleteArrived
    case CountedRcvs =>
      || stage == RecvCounted || stage == RecvLent || stage == RecvSpent
      || stage == ReturnArrived || stage == ReturnHandedBack
  }

  function Weight(m: Measure, c: Chain): nat {
    match m
    case At(_, x) => multiset(c)[x]
    case PastSendCheck(x) => multiset(c)[x]
    case PastRecvCheck(x) => multiset(c)[x]
    case CountedSends => |c|
    case CountedRcvs => |c|
  }

  function Share(m: Measure, a: Activity): nat {
    if Concerns(m, a.stage) then Weight(m, a.chain) else 0
  }

  function Total(threads: seq<Activity>, m: Measure): nat {
    if threads == [] then 0 else Share(m, threads[0]) + Total(threads[1..], m)
  }

  function Pooled(s: System, m: Measure): nat {
    match m
    case At(p, x) => Layer(s, p)[x]
    case PastSendCheck(_) => 0
    case PastRecvCheck(_) => 0
    case CountedSends => |s.sendLower|
    case CountedRcvs => |s.recvUpper|
  }

  /** The count in the layers and in all activations together. */
  function Tally(s: System, m: Measure): nat {
    Pooled(s, m) + Total(s.threads, m)
  }

  /** Where the logged calls say an NBL that started at `home` is; Astray if they contradict each other. */
  function Walk(log: seq<Event>, x: Nbl, home: Place): Place {
    if log == [] then home
    else
      var before := Walk(log[..|log| - 1], x, home);
      var e := log[|log| - 1];
      if x !in e.chain then before
      else if e.call.From() == before then e.call.To()
      else Astray
  }
}
