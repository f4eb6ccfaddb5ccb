/**
 * The fields of MS_FILTER that the datapath handlers and the lifecycle callbacks share,
 * and what each of their critical sections does to them.
 */
module FilterModule {
  import opened Ulongs

  datatype FilterState =
    | FilterStateUnspecified
    | FilterInitialized
    | FilterPausing
    | FilterPaused
    | FilterRunning
    | FilterRestarting
    | FilterDetaching

  datatype Filter = Filter(
    state: FilterState,
    outstandingSends: Ulong,
    outstandingRcvs: Ulong,
    trackSends: bool,
    trackReceives: bool)
  {
    predicate Admits() {
      state == FilterRunning
    }

    function CountSends(n: nat): Filter {
      if trackSends then this.(outstandingSends := Wrap(outstandingSends + n)) else this
    }

    function DiscountSends(n: nat): Filter {
      if trackSends then this.(outstandingSends := Wrap(outstandingSends - Wrap(n))) else this
    }

    function CountRcvs(n: nat): Filter {
      if trackReceives then this.(outstandingRcvs := Wrap(outstandingRcvs + Wrap(n))) else this
    }

    function DiscountRcvs(n: nat): Filter {
      if trackReceives then this.(outstandingRcvs := Wrap(outstandingRcvs - Wrap(n))) else this
    }
  }

  /** A context as a successful FilterAttach leaves it. */
  const ATTACHED := Filter(FilterPaused, 0, 0, true, true)
}
