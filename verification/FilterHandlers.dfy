/**
 * The datapath handlers on the heap: NET_BUFFER_LIST chains walked by loops, MS_FILTER fields
 * updated in place, NDIS calls recorded.  Each is proved against the section functions that the
 * transition system interleaves.
 */
module FilterHandlers {
  import opened Ulongs
  import opened FilterModule
  import opened ListEntries

  datatype NdisStatus =
    | StatusSuccess | StatusPaused | StatusInvalidParameter | StatusResources | StatusOther(code: int)

  class NetBufferList {
    var next: NetBufferList?
    var status: NdisStatus

    constructor (next: NetBufferList?, status: NdisStatus)
      ensures this.next == next && this.status == status
    {
      this.next := next;
      this.status := status;
    }
  }

  /** `nodes` are the NBLs met from `head` on to the null link. */
  ghost predicate IsChain(head: NetBufferList?, nodes: seq<NetBufferList>)
    reads (set n | n in nodes)`next
  {
    if nodes == [] then head == null else head == nodes[0] && IsChain(nodes[0].next, nodes[1..])
  }

  /** Walking on from any node of a chain meets the rest of the chain. */
  lemma ChainFrom(head: NetBufferList?, nodes: seq<NetBufferList>, i: nat)
    requires IsChain(head, nodes) && i < |nodes|
    ensures IsChain(nodes[i], nodes[i..]) && IsChain(nodes[i].next, nodes[i + 1..])
  {
    if i == 0 {
      assert nodes[0..] == nodes;
    } else {
      ChainFrom(nodes[0].next, nodes[1..], i - 1);
      assert nodes[1..][i - 1..] == nodes[i..] && nodes[1..][i..] == nodes[i + 1..];
    }
  }

  datatype NdisCall =
    | SendNetBufferLists(chain: NetBufferList?)
    | SendNetBufferListsComplete(chain: NetBufferList?, atDispatch: bool)
    | IndicateReceiveNetBufferLists(chain: NetBufferList?, count: Ulong, canPend: bool)
    | ReturnNetBufferLists(chain: NetBufferList?, atDispatch: bool)

  /** The NDIS calls that the filter has made. */
  class Ndis {
    var calls: seq<NdisCall>

    constructor ()
      ensures calls == []
    {
      calls := [];
    }

    method Call(c: NdisCall)
      modifies this
      ensures calls == old(calls) + [c]
    {
      calls := calls + [c];
    }
  }

  class MsFilter {
    var state: FilterState
    var outstandingSends: Ulong
    var outstandingRcvs: Ulong
    var trackSends: bool
    var trackReceives: bool

    function Fields(): Filter
      reads this
    {
      Filter(state, outstandingSends, outstandingRcvs, trackSends, trackReceives)
    }

    const link: ListEntry      // FilterModuleLink, embedded in the context
    var filterHandle: nat
    var filterNameBuffer: nat  // address of FilterName.Buffer, 0 for NULL

    /** A freshly allocated context after NdisZeroMemory. */
    constructor Zeroed()
      ensures Fields() == Filter(FilterStateUnspecified, 0, 0, false, false)
      ensures filterNameBuffer == 0 && fresh(link)
    {
      state := FilterStateUnspecified;
      outstandingSends, outstandingRcvs := 0, 0;
      trackSends, trackReceives := false, false;
      filterHandle, filterNameBuffer := 0, 0;
      link := new ListEntry();
    }

    // ---- Critical sections ----

    /** Counts one by one while walking the chain. */
    method CountSends(nbls: NetBufferList?, ghost nodes: seq<NetBufferList>)
      requires IsChain(nbls, nodes) && trackSends
      modifies this`outstandingSends
      ensures Fields() == old(Fields().CountSends(|nodes|))
    {
      var curr := nbls;
      ghost var i := 0;
      while curr != null
        invariant 0 <= i <= |nodes| && IsChain(curr, nodes[i..])
        invariant outstandingSends == Wrap(old(outstandingSends) + i)
        decreases |nodes| - i
      {
        WrapShift(old(outstandingSends) + i, 1);
        outstandingSends := Wrap(outstandingSends + 1);
        ChainFrom(curr, nodes[i..], 0);
        assert nodes[i..][1..] == nodes[i + 1..];
        curr := curr.next;
        i := i + 1;
      }
    }

    method DiscountSends(n: Ulong)
      requires trackSends
      modifies this`outstandingSends
      ensures Fields() == old(Fields().DiscountSends(n))
    {
      outstandingSends := Wrap(outstandingSends - n);
    }

    method CountRcvs(n: Ulong)
      requires trackReceives
      modifies this`outstandingRcvs
      ensures Fields() == old(Fields().CountRcvs(n))
    {
      outstandingRcvs := Wrap(outstandingRcvs + n);
    }

    method DiscountRcvs(n: Ulong)
      requires trackReceives
      modifies this`outstandingRcvs
      ensures Fields() == old(Fields().DiscountRcvs(n))
    {
      outstandingRcvs := Wrap(outstandingRcvs - n);
    }

    // ---- Handlers, run without interference ----

    method FilterSendNetBufferLists(ndis: Ndis, dbg: bool, nbls: NetBufferList?, ghost nodes: seq<NetBufferList>,
                                    atDispatch: bool)
      requires IsChain(nbls, nodes)
      modifies this`outstandingSends, ndis, (set n | n in nodes)`status
      ensures old(dbg && state != FilterRunning) ==>
                && Fields() == old(Fields())
                && ndis.calls == old(ndis.calls) + [SendNetBufferListsComplete(nbls, atDispatch)]
                && forall n | n in nodes :: n.status == StatusPaused
      ensures !old(dbg && state != FilterRunning) ==>
                && Fields() == old(Fields().CountSends(|nodes|))
                && ndis.calls == old(ndis.calls) + [SendNetBufferLists(nbls)]
                && forall n | n in nodes :: n.status == old(n.status)
      ensures !old(trackSends) ==> Fields() == old(Fields())
    {
      if dbg {
        if state != FilterRunning {
          MarkPaused(nbls, nodes);
          ndis.Call(SendNetBufferListsComplete(nbls, atDispatch));
          return;
        }
      }
      if trackSends {
        CountSends(nbls, nodes);
      }
      ndis.Call(SendNetBufferLists(nbls));
    }

    method FilterSendNetBufferListsComplete(ndis: Ndis, nbls: NetBufferList?, ghost nodes: seq<NetBufferList>,
                                            atDispatch: bool)
      requires IsChain(nbls, nodes)
      modifies this`outstandingSends, ndis
      ensures Fields() == old(Fields().DiscountSends(|nodes|))
      ensures ndis.calls == old(ndis.calls) + [SendNetBufferListsComplete(nbls, atDispatch)]
      ensures !old(trackSends) ==> Fields() == old(Fields())
    {
      if trackSends {
        var n := CountChain(nbls, nodes);
        DiscountSends(n);
      }
      ndis.Call(SendNetBufferListsComplete(nbls, atDispatch));
    }

    /** `count` is NumberOfNetBufferLists. */
    method FilterReceiveNetBufferLists(ndis: Ndis, dbg: bool, nbls: NetBufferList?, count: Ulong,
                                       canPend: bool, atDispatch: bool)
      modifies this`outstandingRcvs, ndis
      ensures old(dbg && state != FilterRunning) ==>
                && Fields() == old(Fields())
                && ndis.calls == old(ndis.calls) + if canPend then [ReturnNetBufferLists(nbls, atDispatch)] else []
      ensures !old(dbg && state != FilterRunning) ==>
                && Fields() == (if canPend then old(Fields().CountRcvs(count)) else old(Fields()))
                && ndis.calls == old(ndis.calls) + [IndicateReceiveNetBufferLists(nbls, count, canPend)]
      ensures !old(trackReceives) ==> Fields() == old(Fields())
    {
      if dbg {
        if state != FilterRunning {
          if canPend {
            ndis.Call(ReturnNetBufferLists(nbls, atDispatch));
          }
          return;
        }
      }
      if trackReceives {
        CountRcvs(count);
      }
      ndis.Call(IndicateReceiveNetBufferLists(nbls, count, canPend));
      if !canPend && trackReceives {
        DiscountRcvs(count);
        LoanRestores(old(Fields()), count);
      }
    }

    method FilterReturnNetBufferLists(ndis: Ndis, nbls: NetBufferList?, ghost nodes: seq<NetBufferList>,
                                      atDispatch: bool)
      requires IsChain(nbls, nodes)
      modifies this`outstandingRcvs, ndis
      ensures Fields() == old(Fields().DiscountRcvs(|nodes|))
      ensures ndis.calls == old(ndis.calls) + [ReturnNetBufferLists(nbls, atDispatch)]
      ensures !old(trackReceives) ==> Fields() == old(Fields())
    {
      var n := 0;
      if trackReceives {
        n := CountChain(nbls, nodes);
      }
      ndis.Call(ReturnNetBufferLists(nbls, atDispatch));
      if trackReceives {
        DiscountRcvs(n);
      }
    }
  }

  /** Counting a lent chain and discounting it again restores the counter, whatever it was. */
  lemma LoanRestores(f: Filter, n: nat)
    ensures f.CountRcvs(n).DiscountRcvs(n) == f
  {
    WrapUndone(f.outstandingRcvs, Wrap(n));
    hide Wrap;
  }

  method CountChain(nbls: NetBufferList?, ghost nodes: seq<NetBufferList>) returns (n: Ulong)
    requires IsChain(nbls, nodes)
    ensures n == Wrap(|nodes|)
  {
    n := 0;
    var curr := nbls;
    ghost var i := 0;
    while curr != null
      invariant 0 <= i <= |nodes| && IsChain(curr, nodes[i..])
      invariant n == Wrap(i)
      decreases |nodes| - i
    {
      WrapShift(i, 1);
      n := Wrap(n + 1);
      ChainFrom(curr, nodes[i..], 0);
      assert nodes[i..][1..] == nodes[i + 1..];
      curr := curr.next;
      i := i + 1;
    }
  }

  method MarkPaused(nbls: NetBufferList?, ghost nodes: seq<NetBufferList>)
    requires IsChain(nbls, nodes)
    modifies (set n | n in nodes)`status
    ensures forall n | n in nodes :: n.status == StatusPaused
  {
    var curr := nbls;
    ghost var i := 0;
    while curr != null
      invariant 0 <= i <= |nodes| && IsChain(curr, nodes[i..])
      invariant forall k | 0 <= k < i :: nodes[k].status == StatusPaused
      decreases |nodes| - i
    {
      ChainFrom(curr, nodes[i..], 0);
      assert nodes[i..][1..] == nodes[i + 1..];
      curr.status := StatusPaused;
      curr := curr.next;
      i := i + 1;
    }
  }
}
