/**
 * The filter contexts of all adapters: their allocation ledger, the global module list that links
 * them, and the lifecycle callbacks that NDIS makes on them.
 */
module ModuleList {
  import opened FilterModule
  import opened FilterHandlers
  import opened ListEntries

  /** Where FILTER_ALLOC_MEM takes contexts from and FILTER_FREE_MEM returns them to. */
  class ContextMemory {
    ghost var live: set<MsFilter>
    ghost var freed: seq<MsFilter>
    ghost var buffersFreed: nat

    constructor ()
      ensures live == {} && freed == [] && buffersFreed == 0
    {
      live, freed, buffersFreed := {}, [], 0;
    }

    method Alloc(available: bool) returns (p: MsFilter?)
      modifies this`live
      ensures freed == old(freed)
      ensures !available ==> p == null && live == old(live)
      ensures available ==> && p != null && fresh(p) && fresh(p.link) && live == old(live) + {p}
                            && p.Fields() == Filter(FilterStateUnspecified, 0, 0, false, false)
                            && p.filterNameBuffer == 0
    {
      p := null;
      if available {
        p := new MsFilter.Zeroed();
        live := live + {p};
      }
    }

    /** Freeing memory that is not live would be a double or stray free: no caller may. */
    method Free(p: MsFilter)
      requires p in live
      modifies this`live, this`freed
      ensures live == old(live) - {p} && freed == old(freed) + [p]
    {
      live := live - {p};
      freed := freed + [p];
    }

    method FreeBuffer(address: nat)
      modifies this`buffersFreed
      ensures buffersFreed == old(buffersFreed) + 1
    {
      buffersFreed := buffersFreed + 1;
    }
  }

  /** What FilterAttach meets: its arguments, the allocator, NdisFSetAttributes. */
  datatype Circumstances = Circumstances(
    driverContextMatches: bool,
    mediumSupported: bool,
    memoryAvailable: bool,
    attributesStatus: NdisStatus)

  function AttachStatus(c: Circumstances): (status: NdisStatus)
    ensures status == StatusSuccess <==>
            c.driverContextMatches && c.mediumSupported && c.memoryAvailable && c.attributesStatus == StatusSuccess
  {
    if !c.driverContextMatches || !c.mediumSupported then StatusInvalidParameter
    else if !c.memoryAvailable then StatusResources
    else c.attributesStatus
  }

  function Links(modules: seq<MsFilter>): seq<ListEntry> {
    seq(|modules|, i requires 0 <= i < |modules| => modules[i].link)
  }

  function Members(modules: seq<MsFilter>): set<MsFilter> {
    set m | m in modules
  }

  /** The list head, then the links of the contexts. */
  function RingOf(head: ListEntry, modules: seq<MsFilter>): seq<ListEntry> {
    [head] + Links(modules)
  }

  lemma RingHead(head: ListEntry, modules: seq<MsFilter>)
    ensures |RingOf(head, modules)| == |modules| + 1 && RingOf(head, modules)[0] == head
  {
  }

  lemma RingInsert(head: ListEntry, context: MsFilter, modules: seq<MsFilter>)
    ensures RingOf(head, [context] + modules) == [head, context.link] + RingOf(head, modules)[1..]
  {
  }

  lemma RingDistinct(head: ListEntry, modules: seq<MsFilter>)
    requires Circular(RingOf(head, modules))
    ensures forall i, j :: 0 <= i < j < |modules| ==> modules[i] != modules[j]
  {
    forall i, j | 0 <= i < j < |modules|
      ensures modules[i] != modules[j]
    {
      assert RingOf(head, modules)[i + 1] == modules[i].link && RingOf(head, modules)[j + 1] == modules[j].link;
    }
  }

  lemma RingRemove(head: ListEntry, modules: seq<MsFilter>, k: nat)
    requires k < |modules|
    ensures var ring := RingOf(head, modules);
            && ring[k + 1] == modules[k].link
            && RingOf(head, modules[..k] + modules[k + 1..]) == ring[..k + 1] + ring[k + 2..]
  {
  }

  class FilterDriver {
    const moduleList: ListEntry
    const memory: ContextMemory
    var assertsHeld: bool
    ghost var modules: seq<MsFilter>  // attached and not yet detached, most recent first

    ghost function Ring(): seq<ListEntry>
      reads this`modules
    {
      RingOf(moduleList, modules)
    }

    /** No context is freed while listed, or twice, and none is live but unlisted. */
    ghost predicate LedgerBalances()
      reads this, memory
    {
      && memory.live == Members(modules)
      && (forall m | m in memory.freed :: m !in memory.live)
      && (forall i, j :: 0 <= i < j < |memory.freed| ==> memory.freed[i] != memory.freed[j])
    }

    ghost predicate AtRest()
      reads this, modules
    {
      forall m | m in modules ::
        && (m.state == FilterPaused || m.state == FilterRunning)
        && m.trackSends && m.trackReceives
    }

    /** Nothing has given a listed context a name buffer of its own. */
    ghost predicate NamesNull()
      reads this, modules
    {
      forall m | m in modules :: m.filterNameBuffer == 0
    }

    ghost predicate Valid()
      reads this, memory, modules, Ring()
    {
      Circular(Ring()) && LedgerBalances() && AtRest()
    }

    /** InitializeListHead in DriverEntry. */
    constructor ()
      ensures Valid() && modules == [] && assertsHeld
      ensures fresh(moduleList) && fresh(memory) && memory.freed == [] && memory.buffersFreed == 0
    {
      moduleList := new ListEntry.Head();
      memory := new ContextMemory();
      assertsHeld := true;
      modules := [];
    }

    method Insert(context: MsFilter)
      requires Circular(Ring()) && context.link !in Ring()
      modifies this`modules, Ring(), context.link
      ensures modules == [context] + old(modules) && Circular(Ring())
    {
      hide RingOf;
      RingInsert(moduleList, context, modules);
      RingHead(moduleList, modules);
      InsertHeadList(moduleList, context.link, Ring());
      modules := [context] + modules;
    }

    method Remove(context: MsFilter) returns (ghost k: nat)
      requires Circular(Ring()) && context in modules
      modifies this`modules, Ring()
      ensures k < |old(modules)| && old(modules)[k] == context
      ensures modules == old(modules)[..k] + old(modules)[k + 1..] && Circular(Ring())
      ensures Members(modules) == Members(old(modules)) - {context}
    {
      RingDistinct(moduleList, modules);
      k :| 0 <= k < |modules| && modules[k] == context;
      LeavesOut(modules, k);
      hide RingOf, Members;
      RingRemove(moduleList, modules, k);
      RingHead(moduleList, modules);
      RemoveEntryList(context.link, Ring(), k + 1);
      modules := modules[..k] + modules[k + 1..];
    }

    /** All that Valid says, when one more context is live than is listed. */
    ghost predicate ValidBut(context: MsFilter)
      reads this, memory, modules, Ring()
    {
      && Circular(Ring()) && AtRest()
      && context !in modules && context !in memory.freed
      && memory.live == Members(modules) + {context}
      && (forall m | m in memory.freed :: m !in memory.live)
      && (forall i, j :: 0 <= i < j < |memory.freed| ==> memory.freed[i] != memory.freed[j])
    }

    method Release(context: MsFilter)
      requires ValidBut(context)
      modifies memory`live, memory`freed
      ensures Valid() && memory.freed == old(memory.freed) + [context]
    {
      memory.Free(context);
      assert memory.live == Members(modules);
    }

    /** The end of FilterAttach: list the context, or free it if it could not be set up. */
    method Conclude(context: MsFilter, status: NdisStatus)
      requires ValidBut(context) && context.link !in Ring()
      requires context.Fields() == ATTACHED.(state := FilterStateUnspecified)
      modifies this`modules, memory`live, memory`freed, Ring(), context`state, context.link
      ensures Valid()
      ensures status != StatusSuccess ==> modules == old(modules) && memory.freed == old(memory.freed) + [context]
      ensures status == StatusSuccess ==>
                && modules == [context] + old(modules) && memory.freed == old(memory.freed)
                && context.Fields() == ATTACHED
    {
      if status == StatusSuccess {
        context.state := FilterPaused;
        Insert(context);
      } else {
        Release(context);
      }
    }

    /** FILTER_ALLOC_MEM and NdisZeroMemory, then the fields the driver sets. */
    method Allocate(handle: nat, available: bool) returns (context: MsFilter?)
      requires Valid()
      modifies memory`live
      ensures !available ==> context == null && Valid() && memory.freed == old(memory.freed)
      ensures available ==>
                && context != null && fresh(context) && fresh(context.link)
                && ValidBut(context) && context.link !in Ring()
                && context.Fields() == ATTACHED.(state := FilterStateUnspecified)
                && context.filterNameBuffer == 0 && context.filterHandle == handle
                && memory.freed == old(memory.freed)
    {
      assert forall e | e in Ring() :: allocated(e);
      context := memory.Alloc(available);
      if context != null {
        context.trackReceives, context.trackSends := true, true;
        context.filterHandle := handle;
        assert context.link !in Ring();
      }
    }

    method FilterAttach(handle: nat, c: Circumstances) returns (status: NdisStatus, context: MsFilter?)
      requires Valid()
      modifies this`modules, this`assertsHeld, memory`live, memory`freed, Ring()
      ensures Valid()
      ensures status == AttachStatus(c)
      ensures status == StatusSuccess <==>
              c.driverContextMatches && c.mediumSupported && c.memoryAvailable && c.attributesStatus == StatusSuccess
      ensures !c.driverContextMatches || !c.mediumSupported ==> status == StatusInvalidParameter
      ensures c.driverContextMatches && c.mediumSupported && !c.memoryAvailable ==> status == StatusResources
      ensures c.driverContextMatches && c.mediumSupported && c.memoryAvailable ==> status == c.attributesStatus
      ensures assertsHeld == (old(assertsHeld) && c.driverContextMatches)
      ensures status != StatusSuccess ==> modules == old(modules)
      ensures var hasMemory := c.driverContextMatches && c.mediumSupported && c.memoryAvailable;
              |memory.freed| == |old(memory.freed)| + if hasMemory && status != StatusSuccess then 1 else 0
      ensures status == StatusSuccess ==>
                && context != null && fresh(context) && fresh(context.link)
                && modules == [context] + old(modules)
                && context.Fields() == ATTACHED && context.filterHandle == handle && context.filterNameBuffer == 0
    {
      assertsHeld := assertsHeld && c.driverContextMatches;
      if !c.driverContextMatches {
        return StatusInvalidParameter, null;
      }
      if !c.mediumSupported {
        return StatusInvalidParameter, null;
      }
      context := Allocate(handle, c.memoryAvailable);
      if context == null {
        return StatusResources, null;
      }
      status := c.attributesStatus;
      Conclude(context, status);
    }

    method FilterDetach(context: MsFilter) returns (ghost k: nat)
      requires Valid() && context in modules
      modifies this`modules, this`assertsHeld, memory, Ring()
      ensures Valid()
      ensures k < |old(modules)| && old(modules)[k] == context
      ensures modules == old(modules)[..k] + old(modules)[k + 1..]
      ensures assertsHeld == old(assertsHeld && context.state == FilterPaused)
      ensures memory.freed == old(memory.freed) + [context]
      ensures memory.buffersFreed == old(memory.buffersFreed) + if old(context.filterNameBuffer) != 0 then 1 else 0
    {
      assertsHeld := assertsHeld && context.state == FilterPaused;
      if context.filterNameBuffer != 0 {
        memory.FreeBuffer(context.filterNameBuffer);
      }
      k := Remove(context);
      hide RingOf, Circular;
      Release(context);
    }

    method FilterPause(context: MsFilter) returns (status: NdisStatus)
      requires Valid() && context in modules
      modifies this`assertsHeld, context`state
      ensures Valid() && status == StatusSuccess
      ensures assertsHeld == old(assertsHeld && context.state == FilterRunning)
      ensures context.Fields() == old(context.Fields()).(state := FilterPaused)
    {
      assertsHeld := assertsHeld && context.state == FilterRunning;
      context.state := FilterPausing;
      status := StatusSuccess;
      context.state := FilterPaused;
    }

    /** Restarts whether or not NdisOpenConfigurationEx succeeds. */
    method FilterRestart(context: MsFilter, configuration: NdisStatus) returns (status: NdisStatus)
      requires Valid() && context in modules
      modifies this`assertsHeld, context`state
      ensures Valid() && status == StatusSuccess
      ensures assertsHeld == old(assertsHeld && context.state == FilterPaused)
      ensures context.Fields() == old(context.Fields()).(state := FilterRunning)
    {
      assertsHeld := assertsHeld && context.state == FilterPaused;
      status := configuration;
      context.state := FilterRunning;
      status := StatusSuccess;  // so the branch that would pause again is never taken
    }

    /** The check that a DBG build makes in DriverUnload. */
    method DriverUnload(dbg: bool)
      requires Valid()
      modifies this`assertsHeld
      ensures assertsHeld == (old(assertsHeld) && (dbg ==> modules == []))
    {
      if dbg {
        RingHead(moduleList, modules);
        var empty := IsListEmpty(moduleList, Ring());
        assertsHeld := assertsHeld && empty;
      }
    }
  }

  lemma LeavesOut(modules: seq<MsFilter>, k: nat)
    requires k < |modules| && forall i, j :: 0 <= i < j < |modules| ==> modules[i] != modules[j]
    ensures Members(modules[..k] + modules[k + 1..]) == Members(modules) - {modules[k]}
  {
    var rest := modules[..k] + modules[k + 1..];
    forall m | m in modules && m != modules[k]
      ensures m in rest
    {
      var i :| 0 <= i < |modules| && modules[i] == m;
      assert m == if i < k then rest[i] else rest[i - 1];
    }
  }
}
