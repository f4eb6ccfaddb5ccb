/** Socket::Connect, Close and Move as functions of the open handles and the object's fields. */
module SocketModel {
  import opened Options

  /** socket() never answers INVALID_SOCKET but for failure; 0 is a handle like any other. */
  type Handle = nat

  const INVALID_SOCKET: Handle := 0xFFFF_FFFF_FFFF_FFFF
  const AF_INET := 2
  const AF_INET6 := 23

  /** An entry of the address list, and how the calls made for it turn out. */
  datatype Address = Address(family: int, handle: Handle, getOk: bool, setOk: bool, connectOk: bool, closeOk: bool)

  /** What GetAddrInfoW answers. */
  type Lookup = Option<seq<Address>>

  /** The handles that are open, and those closed so far, in order. */
  datatype Ledger = Ledger(open: set<Handle>, closed: seq<Handle>) {
    /** closesocket fails on a handle that is not open. */
    function Close(h: Handle, ok: bool): Ledger {
      if ok && h in open then Ledger(open - {h}, closed + [h]) else this
    }
  }

  datatype Fields = Fields(host: string, portNumber: nat, socket: Handle, addressFamily: int, preconnectTTL: nat)

  const UNCONNECTED := Fields("", 0, INVALID_SOCKET, 0, 0)

  datatype Exit = Success | LookupFailed | SocketFailed | TTLFailed | CloseFailed | AllFailed

  datatype Fate = Connects | Refuses | NoSocket | NoTTL | StaysOpen

  predicate TTLSettable(h: Handle, family: int, getOk: bool, setOk: bool) {
    h != 0 && h != INVALID_SOCKET && (family == AF_INET || family == AF_INET6) && getOk && setOk
  }

  function FateOf(a: Address, ttl: nat): Fate {
    if a.handle == INVALID_SOCKET then NoSocket
    else if ttl != 0 && !TTLSettable(a.handle, a.family, a.getOk, a.setOk) then NoTTL
    else if a.connectOk then Connects
    else if a.closeOk then Refuses
    else StaysOpen
  }

  predicate AllRefuse(addresses: seq<Address>, ttl: nat, n: nat)
    requires n <= |addresses|
  {
    forall i :: 0 <= i < n ==> FateOf(addresses[i], ttl) == Refuses
  }

  /** The first address at which the search stops, or their number. */
  function Stop(addresses: seq<Address>, ttl: nat): (n: nat)
    ensures n <= |addresses| && AllRefuse(addresses, ttl, n)
    ensures n < |addresses| ==> FateOf(addresses[n], ttl) != Refuses
  {
    if addresses == [] || FateOf(addresses[0], ttl) != Refuses then 0 else 1 + Stop(addresses[1..], ttl)
  }

  lemma {:induction false} StopIs(addresses: seq<Address>, ttl: nat, n: nat)
    requires n <= |addresses| && AllRefuse(addresses, ttl, n)
    requires n < |addresses| ==> FateOf(addresses[n], ttl) != Refuses
    ensures Stop(addresses, ttl) == n
  {
    if n > 0 {
      assert FateOf(addresses[0], ttl) == Refuses;
      StopIs(addresses[1..], ttl, n - 1);
    }
  }

  function Handles(addresses: seq<Address>): seq<Handle> {
    seq(|addresses|, i requires 0 <= i < |addresses| => addresses[i].handle)
  }

  /** The family of the last address for which there was a socket. */
  function LastFamily(addresses: seq<Address>, n: nat, before: int): int
    requires n <= |addresses|
  {
    if n == 0 then before else addresses[n - 1].family
  }

  function ExitOf(fate: Fate): Exit {
    match fate
    case Connects => Success
    case NoSocket => SocketFailed
    case NoTTL => TTLFailed
    case StaysOpen => CloseFailed
    case Refuses => AllFailed
  }

  function Connect(l: Ledger, f: Fields, lookup: Lookup): (Ledger, Fields, Exit) {
    match lookup
    case None => (l, f, LookupFailed)
    case Some(addresses) =>
      var n := Stop(addresses, f.preconnectTTL);
      var closed := l.closed + Handles(addresses[..n]);
      if n == |addresses| || addresses[n].handle == INVALID_SOCKET then
        (Ledger(l.open, closed),
         f.(socket := INVALID_SOCKET, addressFamily := LastFamily(addresses, n, f.addressFamily)),
         if n == |addresses| then AllFailed else SocketFailed)
      else
        (Ledger(l.open + {addresses[n].handle}, closed),
         f.(socket := addresses[n].handle, addressFamily := addresses[n].family),
         ExitOf(FateOf(addresses[n], f.preconnectTTL)))
  }

  function Close(l: Ledger, f: Fields, ok: bool): (Ledger, Fields) {
    if f.socket == 0 || f.socket == INVALID_SOCKET then (l, f)
    else (l.Close(f.socket, ok), f.(socket := INVALID_SOCKET))
  }

  /** Move assignment of `from` into f, which is closed first; `from` loses its host and its handle. */
  function Move(l: Ledger, f: Fields, from: Fields, ok: bool): (Ledger, Fields, Fields) {
    (Close(l, f, ok).0, from, from.(host := "", socket := INVALID_SOCKET))
  }

  /** Moving an object into itself closes it and forgets even handle 0; its host stays. */
  function MoveSelf(l: Ledger, f: Fields, ok: bool): (Ledger, Fields) {
    (Close(l, f, ok).0, f.(socket := INVALID_SOCKET))
  }

  /** Handles that socket() answers are not open already. */
  predicate Fresh(l: Ledger, lookup: Lookup) {
    lookup.Some? ==>
      forall a :: a in lookup.value ==> a.handle == INVALID_SOCKET || a.handle !in l.open
  }

  // ---- What Connect promises ----

  /** The first address that does not merely refuse connects. */
  ghost predicate Reaches(addresses: seq<Address>, ttl: nat, n: int) {
    0 <= n < |addresses| && AllRefuse(addresses, ttl, n) && FateOf(addresses[n], ttl) == Connects
  }

  /**
   * At every exit the only handle that the call may have left open is the object's. It returns normally
   * exactly if some address connects after others that were only refused, holding that address's handle;
   * if all refuse, nothing is left open.
   */
  lemma ConnectLedger(l: Ledger, f: Fields, addresses: seq<Address>)
    ensures var (l', f', exit) := Connect(l, f, Some(addresses));
            && l.open <= l'.open <= l.open + {f'.socket}
            && (exit == Success <==> exists n :: Reaches(addresses, f.preconnectTTL, n))
            && (forall n :: Reaches(addresses, f.preconnectTTL, n) ==>
                              && f'.socket == addresses[n].handle && f'.addressFamily == addresses[n].family
                              && f'.socket in l'.open
                              && l'.closed == l.closed + Handles(addresses[..n]))
            && (exit == AllFailed <==> AllRefuse(addresses, f.preconnectTTL, |addresses|))
            && (exit == AllFailed || exit == SocketFailed ==> l'.open == l.open && f'.socket == INVALID_SOCKET)
            && (exit == TTLFailed || exit == CloseFailed ==> f'.socket in l'.open)
  {
    var ttl := f.preconnectTTL;
    var m := Stop(addresses, ttl);
    if m < |addresses| && FateOf(addresses[m], ttl) == Connects {
      assert Reaches(addresses, ttl, m);
    }
    forall n | Reaches(addresses, ttl, n)
      ensures n == m
    {
      StopIs(addresses, ttl, n);
    }
    if AllRefuse(addresses, ttl, |addresses|) {
      StopIs(addresses, ttl, |addresses|);
    }
  }
}
