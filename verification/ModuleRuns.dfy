/** The adapters NDIS believes to be bound to the filter, over runs of its callbacks. */
module ModuleRuns {
  import opened FilterModule
  import opened FilterHandlers
  import opened ModuleList
  import opened ListEntries

  datatype Adapter = Adapter(handle: nat, running: bool)

  type View = seq<Adapter>

  datatype Command =
    | Attach(handle: nat, c: Circumstances)
    | Detach(handle: nat)
    | Pause(handle: nat)
    | Restart(handle: nat, configuration: NdisStatus)

  predicate Listed(view: View, h: nat) {
    exists i :: 0 <= i < |view| && view[i].handle == h
  }

  /** NDIS passes back the registered driver context, and calls only what the module's state allows. */
  predicate Permitted(view: View, cmd: Command) {
    match cmd
    case Attach(h, c) => !Listed(view, h) && c.driverContextMatches
    case Detach(h) => Adapter(h, false) in view
    case Pause(h) => Adapter(h, true) in view
    case Restart(h, _) => Adapter(h, false) in view
  }

  function Without(view: View, h: nat): View {
    if view == [] then []
    else if view[0].handle == h then view[1..]
    else [view[0]] + Without(view[1..], h)
  }

  function Set(view: View, h: nat, running: bool): View {
    seq(|view|, i requires 0 <= i < |view| => if view[i].handle == h then Adapter(h, running) else view[i])
  }

  function Bound(view: View, cmd: Command): View {
    match cmd
    case Attach(h, c) => if AttachStatus(c) == StatusSuccess then [Adapter(h, false)] + view else view
    case Detach(h) => Without(view, h)
    case Pause(h) => Set(view, h, false)
    case Restart(h, _) => Set(view, h, true)
  }

  function ViewAfter(cmds: seq<Command>): View {
    if cmds == [] then [] else Bound(ViewAfter(cmds[..|cmds| - 1]), cmds[|cmds| - 1])
  }

  predicate Legal(cmds: seq<Command>) {
    cmds == []
    || (Legal(cmds[..|cmds| - 1]) && Permitted(ViewAfter(cmds[..|cmds| - 1]), cmds[|cmds| - 1]))
  }

  predicate Attaches(cmd: Command, h: nat) {
    cmd.Attach? && cmd.handle == h && AttachStatus(cmd.c) == StatusSuccess
  }

  predicate Detaches(cmd: Command, h: nat) {
    cmd == Detach(h)
  }

  /** The moment of the latest successful attachment of h, or -1. */
  function LastAttach(cmds: seq<Command>, h: nat): int {
    if cmds == [] then -1
    else if Attaches(cmds[|cmds| - 1], h) then |cmds| - 1
    else LastAttach(cmds[..|cmds| - 1], h)
  }

  function LastDetach(cmds: seq<Command>, h: nat): int {
    if cmds == [] then -1
    else if Detaches(cmds[|cmds| - 1], h) then |cmds| - 1
    else LastDetach(cmds[..|cmds| - 1], h)
  }

  // ---- What the view is ----

  lemma {:induction false} WithoutAt(view: View, h: nat, k: nat)
    requires k < |view| && view[k].handle == h
    requires forall i, j :: 0 <= i < j < |view| ==> view[i].handle != view[j].handle
    ensures Without(view, h) == view[..k] + view[k + 1..]
  {
    if k > 0 {
      assert view[0].handle != view[k].handle;
      WithoutAt(view[1..], h, k - 1);
    }
  }

  lemma {:induction false} LastWithin(cmds: seq<Command>, h: nat)
    ensures -1 <= LastAttach(cmds, h) < |cmds| && -1 <= LastDetach(cmds, h) < |cmds|
  {
    if cmds != [] {
      LastWithin(cmds[..|cmds| - 1], h);
    }
  }

  predicate Distinct(view: View) {
    forall i, j :: 0 <= i < j < |view| ==> view[i].handle != view[j].handle
  }

  predicate MostRecentFirst(view: View, cmds: seq<Command>) {
    forall i, j :: 0 <= i < j < |view| ==> LastAttach(cmds, view[i].handle) > LastAttach(cmds, view[j].handle)
  }

  lemma WithoutListed(view: View, k: nat, h: nat)
    requires Distinct(view) && k < |view|
    ensures Listed(view[..k] + view[k + 1..], h) <==> Listed(view, h) && h != view[k].handle
  {
    var view' := view[..k] + view[k + 1..];
    if i :| 0 <= i < |view| && view[i].handle == h && i != k {
      assert view'[if i < k then i else i - 1].handle == h;
    }
    if i :| 0 <= i < |view'| && view'[i].handle == h {
      assert view[if i < k then i else i + 1].handle == h;
    }
  }

  lemma AttachedListed(view: View, a: Adapter, h: nat)
    ensures Listed([a] + view, h) <==> Listed(view, h) || h == a.handle
  {
    var view' := [a] + view;
    assert view'[0] == a;
    if i :| 0 <= i < |view| && view[i].handle == h {
      assert view'[i + 1].handle == h;
    }
  }

  lemma SetListed(view: View, h': nat, running: bool, h: nat)
    ensures Listed(Set(view, h', running), h) <==> Listed(view, h)
  {
    if i :| 0 <= i < |view| && view[i].handle == h {
      assert Set(view, h', running)[i].handle == h;
    }
  }

  /** The place of the adapter that NDIS detaches. */
  lemma {:induction false} DetachedAt(view: View, h: nat) returns (k: nat)
    requires Distinct(view) && Adapter(h, false) in view
    ensures k < |view| && view[k] == Adapter(h, false) && Without(view, h) == view[..k] + view[k + 1..]
  {
    k :| 0 <= k < |view| && view[k] == Adapter(h, false);
    WithoutAt(view, h, k);
  }

  lemma BoundListed(view: View, cmd: Command, h: nat)
    requires Permitted(view, cmd) && Distinct(view)
    ensures Listed(Bound(view, cmd), h) <==> (Listed(view, h) && !Detaches(cmd, h)) || Attaches(cmd, h)
  {
    match cmd {
      case Attach(h', _) => AttachedListed(view, Adapter(h', false), h);
      case Detach(h') =>
        var k := DetachedAt(view, h');
        WithoutListed(view, k, h);
      case Pause(h') => SetListed(view, h', false, h);
      case Restart(h', _) => SetListed(view, h', true, h);
    }
    hide Listed;
  }

  lemma LastAttachStep(before: seq<Command>, cmd: Command, h: nat)
    ensures LastAttach(before + [cmd], h) == if Attaches(cmd, h) then |before| else LastAttach(before, h)
  {
    assert (before + [cmd])[..|before|] == before;
  }

  lemma StillOrdered(view: View, before: seq<Command>, cmd: Command)
    requires MostRecentFirst(view, before)
    requires forall i :: 0 <= i < |view| ==> !Attaches(cmd, view[i].handle)
    ensures MostRecentFirst(view, before + [cmd])
  {
    forall i | 0 <= i < |view| {
      LastAttachStep(before, cmd, view[i].handle);
    }
    hide LastAttach;
  }

  /** A permitted attachment is of an adapter that is not listed. */
  lemma NotAgain(view: View, before: seq<Command>, cmd: Command)
    requires Permitted(view, cmd)
    ensures forall i :: 0 <= i < |view| ==>
                          !Attaches(cmd, view[i].handle) && LastAttach(before + [cmd], view[i].handle) < |before|
  {
    forall i | 0 <= i < |view|
      ensures !Attaches(cmd, view[i].handle) && LastAttach(before + [cmd], view[i].handle) < |before|
    {
      assert Listed(view, view[i].handle);
      LastAttachStep(before, cmd, view[i].handle);
      LastWithin(before, view[i].handle);
      hide LastAttach, Listed;
    }
  }

  /** Leaving one out keeps the order, and so does changing what is running. */
  lemma RestOrdered(view: View, cmds: seq<Command>, k: nat)
    requires MostRecentFirst(view, cmds) && k < |view|
    ensures MostRecentFirst(view[..k] + view[k + 1..], cmds)
  {
    hide LastAttach;
  }

  lemma SetOrdered(view: View, cmds: seq<Command>, h: nat, running: bool)
    requires MostRecentFirst(view, cmds)
    ensures MostRecentFirst(Set(view, h, running), cmds)
  {
    hide LastAttach;
  }

  lemma BoundOrdered(view: View, before: seq<Command>, cmd: Command)
    requires Permitted(view, cmd) && MostRecentFirst(view, before)
    ensures MostRecentFirst(Bound(view, cmd), before + [cmd])
  {
    OrderedIsDistinct(view, before);
    NotAgain(view, before, cmd);
    StillOrdered(view, before, cmd);
    LastAttachStep(before, cmd, cmd.handle);
    hide LastAttach, Listed, MostRecentFirst, Distinct, Set, Without;
    match cmd {
      case Attach(h, c) =>
        if AttachStatus(c) == StatusSuccess {
          HeadOrdered(Adapter(h, false), view, before + [cmd]);
        }
      case Detach(h) =>
        var k := DetachedAt(view, h);
        RestOrdered(view, before + [cmd], k);
      case Pause(h) => SetOrdered(view, before + [cmd], h, false);
      case Restart(h, _) => SetOrdered(view, before + [cmd], h, true);
    }
  }

  lemma HeadOrdered(a: Adapter, view: View, cmds: seq<Command>)
    requires MostRecentFirst(view, cmds)
    requires forall i :: 0 <= i < |view| ==> LastAttach(cmds, view[i].handle) < LastAttach(cmds, a.handle)
    ensures MostRecentFirst([a] + view, cmds)
  {
    hide LastAttach;
  }

  /**
   * The list holds exactly the adapters attached and not detached since, each once, the most
   * recently attached first.
   */
  lemma {:induction false} ViewIsWhatIsAttached(cmds: seq<Command>, h: nat)
    requires Legal(cmds)
    ensures MostRecentFirst(ViewAfter(cmds), cmds)
    ensures Listed(ViewAfter(cmds), h) <==> LastAttach(cmds, h) > LastDetach(cmds, h)
  {
    if cmds != [] {
      var before, cmd := cmds[..|cmds| - 1], cmds[|cmds| - 1];
      assert cmds == before + [cmd];
      ViewIsWhatIsAttached(before, h);
      BoundOrdered(ViewAfter(before), before, cmd);
      BoundListed(ViewAfter(before), cmd, h);
      LastWithin(before, h);
      hide Listed, MostRecentFirst, Bound, Permitted;
    }
  }

  lemma {:induction false} LastAttachIs(cmds: seq<Command>, h: nat)
    requires LastAttach(cmds, h) >= 0
    ensures LastAttach(cmds, h) < |cmds| && Attaches(cmds[LastAttach(cmds, h)], h)
  {
    if cmds != [] && !Attaches(cmds[|cmds| - 1], h) {
      LastAttachIs(cmds[..|cmds| - 1], h);
    }
  }

  /** A listed adapter was attached with everything in order: driver context, medium, memory, attributes. */
  lemma ListedWasInOrder(cmds: seq<Command>, h: nat)
    requires Legal(cmds) && Listed(ViewAfter(cmds), h)
    ensures exists i ::
              && 0 <= i < |cmds| && cmds[i].Attach? && cmds[i].handle == h
              && cmds[i].c.driverContextMatches && cmds[i].c.mediumSupported && cmds[i].c.memoryAvailable
              && cmds[i].c.attributesStatus == StatusSuccess
  {
    ViewIsWhatIsAttached(cmds, h);
    LastWithin(cmds, h);
    LastAttachIs(cmds, h);
    var i := LastAttach(cmds, h);
    hide Listed, ViewAfter, Legal, LastAttach, LastDetach, MostRecentFirst;
    assert Attaches(cmds[i], h);
  }

  // ---- The driver under such runs ----

  /** NDIS's view is right, and it holds the context pointer of every bound adapter. */
  ghost predicate Tracks(modules: seq<MsFilter>, view: View, contexts: map<nat, MsFilter>)
    reads modules
  {
    && |view| == |modules|
    && forall k | 0 <= k < |modules| ::
         && view[k] == Adapter(modules[k].filterHandle, modules[k].state == FilterRunning)
         && modules[k].filterHandle in contexts && contexts[modules[k].filterHandle] == modules[k]
  }

  method PerformAttach(driver: FilterDriver, contexts: map<nat, MsFilter>, h: nat, c: Circumstances, ghost view: View)
    returns (contexts': map<nat, MsFilter>)
    requires driver.Valid() && driver.NamesNull() && Tracks(driver.modules, view, contexts)
    requires Permitted(view, Attach(h, c)) && driver.assertsHeld
    modifies driver`modules, driver`assertsHeld, driver.memory`live, driver.memory`freed, driver.Ring()
    ensures driver.Valid() && driver.NamesNull() && driver.assertsHeld
    ensures Tracks(driver.modules, Bound(view, Attach(h, c)), contexts')
    ensures forall m | m in driver.modules :: m in old(driver.modules) || (fresh(m) && fresh(m.link))
  {
    forall k | 0 <= k < |view|
      ensures view[k].handle != h
    {
      assert Listed(view, view[k].handle);
    }
    hide Listed, RingOf;
    ghost var before := driver.modules;
    var status, context := driver.FilterAttach(h, c);
    hide Circular, Members;
    contexts' := contexts;
    if status == StatusSuccess {
      contexts' := contexts[h := context];
      assert forall k | 0 < k < |driver.modules| :: driver.modules[k] == before[k - 1];
    }
  }

  /** Detaching a paused module whose name buffer is null, seen from the list of modules. */
  method DetachNamed(driver: FilterDriver, context: MsFilter, ghost at: nat)
    requires driver.Valid() && driver.NamesNull() && driver.assertsHeld
    requires at < |driver.modules| && driver.modules[at] == context && context.state == FilterPaused
    requires forall k :: 0 <= k < |driver.modules| && driver.modules[k] == context ==> k == at
    modifies driver`modules, driver`assertsHeld, driver.memory, driver.Ring()
    ensures driver.Valid() && driver.NamesNull() && driver.assertsHeld
    ensures driver.modules == old(driver.modules)[..at] + old(driver.modules)[at + 1..]
    ensures forall m | m in driver.modules :: m in old(driver.modules)
    ensures driver.memory.buffersFreed == old(driver.memory.buffersFreed)
  {
    ghost var before := driver.modules;
    hide Circular, RingOf, Members, FilterDriver.LedgerBalances, FilterDriver.AtRest;
    ghost var k := driver.FilterDetach(context);
    assert k == at;
    RestMembers(before, at);
  }

  lemma RestMembers(modules: seq<MsFilter>, at: nat)
    requires at < |modules|
    ensures forall m | m in modules[..at] + modules[at + 1..] :: m in modules
  {
  }

  method PerformDetach(driver: FilterDriver, contexts: map<nat, MsFilter>, h: nat, ghost view: View)
    requires driver.Valid() && driver.NamesNull() && Tracks(driver.modules, view, contexts)
    requires Permitted(view, Detach(h)) && Distinct(view) && driver.assertsHeld
    modifies driver`modules, driver`assertsHeld, driver.memory, driver.Ring()
    ensures driver.Valid() && driver.NamesNull() && driver.assertsHeld
    ensures Tracks(driver.modules, Bound(view, Detach(h)), contexts)
    ensures forall m | m in driver.modules :: m in old(driver.modules)
    ensures driver.memory.buffersFreed == old(driver.memory.buffersFreed)
  {
    ghost var at := DetachedAt(view, h);
    RestTracked(driver.modules, view, contexts, at);
    DetachedContext(driver.modules, view, contexts, at);
    assert driver.modules[at] in driver.modules && contexts[h].state == FilterPaused;
    hide Circular, RingOf, Without, Tracks, Permitted, Distinct, FilterDriver.Valid, FilterDriver.NamesNull;
    DetachNamed(driver, contexts[h], at);
  }

  /** The context that NDIS passes back is the one listed for the adapter, and it is paused. */
  lemma DetachedContext(modules: seq<MsFilter>, view: View, contexts: map<nat, MsFilter>, at: nat)
    requires Tracks(modules, view, contexts) && Distinct(view) && at < |view| && !view[at].running
    ensures |modules| == |view| && view[at].handle in contexts && contexts[view[at].handle] == modules[at]
    ensures modules[at].state != FilterRunning
    ensures forall k :: 0 <= k < |modules| && modules[k] == modules[at] ==> k == at
  {
    forall k | 0 <= k < |modules| && modules[k] == modules[at]
      ensures k == at
    {
      TrackedHandle(modules, view, contexts, k);
      TrackedHandle(modules, view, contexts, at);
    }
  }

  lemma TrackedHandle(modules: seq<MsFilter>, view: View, contexts: map<nat, MsFilter>, k: nat)
    requires k < |modules| && Tracks(modules, view, contexts)
    ensures k < |view| && view[k].handle == modules[k].filterHandle
  {
  }

  lemma RestTracked(modules: seq<MsFilter>, view: View, contexts: map<nat, MsFilter>, at: nat)
    requires at < |modules| && Tracks(modules, view, contexts)
    ensures Tracks(modules[..at] + modules[at + 1..], view[..at] + view[at + 1..], contexts)
  {
  }

  method PerformLifecycle(driver: FilterDriver, contexts: map<nat, MsFilter>, cmd: Command, ghost view: View)
    requires driver.Valid() && driver.NamesNull() && Tracks(driver.modules, view, contexts)
    requires (cmd.Pause? || cmd.Restart?) && Permitted(view, cmd) && Distinct(view) && driver.assertsHeld
    modifies driver`assertsHeld, driver.modules
    ensures driver.Valid() && driver.NamesNull() && driver.assertsHeld
    ensures Tracks(driver.modules, Bound(view, cmd), contexts)
    ensures driver.memory.buffersFreed == old(driver.memory.buffersFreed)
  {
    var h := cmd.handle;
    ghost var k :| 0 <= k < |view| && view[k] == Adapter(h, cmd.Pause?);
    var context := contexts[h];
    assert driver.modules[k] == context;
    if cmd.Pause? {
      var status := driver.FilterPause(context);
    } else {
      var status := driver.FilterRestart(context, cmd.configuration);
    }
  }

  /** One callback, in a run in which all objects are the run's own. */
  method Perform(driver: FilterDriver, contexts: map<nat, MsFilter>, cmd: Command, ghost view: View)
    returns (contexts': map<nat, MsFilter>)
    requires driver.Valid() && driver.NamesNull() && Tracks(driver.modules, view, contexts)
    requires Permitted(view, cmd) && Distinct(view) && driver.assertsHeld
    modifies driver`modules, driver`assertsHeld, driver.memory, driver.Ring(), driver.modules
    ensures driver.Valid() && driver.NamesNull() && driver.assertsHeld
    ensures Tracks(driver.modules, Bound(view, cmd), contexts')
    ensures forall m | m in driver.modules :: m in old(driver.modules) || (fresh(m) && fresh(m.link))
    ensures driver.memory.buffersFreed == old(driver.memory.buffersFreed)
  {
    contexts' := contexts;
    match cmd {
      case Attach(h, c) => contexts' := PerformAttach(driver, contexts, h, c, view);
      case Detach(h) => PerformDetach(driver, contexts, h, view);
      case Pause(_) => PerformLifecycle(driver, contexts, cmd, view);
      case Restart(_, _) => PerformLifecycle(driver, contexts, cmd, view);
    }
  }

  lemma OrderedIsDistinct(view: View, cmds: seq<Command>)
    requires MostRecentFirst(view, cmds)
    ensures Distinct(view)
  {
    forall i, j | 0 <= i < j < |view|
      ensures view[i].handle != view[j].handle
    {
      assert LastAttach(cmds, view[i].handle) > LastAttach(cmds, view[j].handle);
    }
    hide LastAttach;
  }

  /**
   * Loads the driver and makes the callbacks of a run: no assertion fires, the linked list is what
   * the run says is attached, and no context's name buffer is ever freed.
   */
  method RunCallbacks(cmds: seq<Command>) returns (driver: FilterDriver, contexts: map<nat, MsFilter>)
    requires Legal(cmds)
    ensures driver.Valid() && driver.assertsHeld
    ensures Tracks(driver.modules, ViewAfter(cmds), contexts)
    ensures driver.NamesNull() && driver.memory.buffersFreed == 0
    ensures fresh(driver) && fresh(driver.memory) && fresh(driver.moduleList)
    ensures forall m | m in driver.modules :: fresh(m) && fresh(m.link)
    decreases |cmds|
  {
    if cmds == [] {
      driver := new FilterDriver();
      contexts := map[];
    } else {
      ghost var before := cmds[..|cmds| - 1];
      var cmd := cmds[|cmds| - 1];
      driver, contexts := RunCallbacks(cmds[..|cmds| - 1]);
      ghost var view := ViewAfter(before);
      ViewIsWhatIsAttached(before, 0);
      OrderedIsDistinct(view, before);
      RingFresh(driver.moduleList, driver.modules);
      assert Permitted(view, cmd);
      assert fresh(driver.modules);
      assert fresh(driver.Ring());
      hide RingOf, Legal, Permitted, Circular;
      contexts := Perform(driver, contexts, cmd, view);
    }
  }

  lemma RingFresh(head: ListEntry, modules: seq<MsFilter>)
    ensures forall e | e in RingOf(head, modules) :: e == head || exists m | m in modules :: e == m.link
  {
    forall i | 0 <= i < |modules|
      ensures RingOf(head, modules)[i + 1] == modules[i].link && modules[i] in modules
    {
    }
  }

  /** Once every adapter is detached, unloading finds the list empty and every context freed. */
  method RunToUnload(cmds: seq<Command>, dbg: bool) returns (driver: FilterDriver)
    requires Legal(cmds) && forall h: nat :: LastAttach(cmds, h) <= LastDetach(cmds, h)
    ensures driver.assertsHeld && driver.memory.live == {}
  {
    var contexts;
    driver, contexts := RunCallbacks(cmds);
    if ViewAfter(cmds) != [] {
      assert Listed(ViewAfter(cmds), ViewAfter(cmds)[0].handle);
      ViewIsWhatIsAttached(cmds, ViewAfter(cmds)[0].handle);
    }
    driver.DriverUnload(dbg);
  }
}
