/** The Winsock calls of Socket::Connect with their results, and what each of its exits says about them. */
module SocketCalls {
  import opened Options
  import opened SocketModel

  const IPPROTO_IP := 0
  const IP_TTL := 4
  const IPPROTO_IPV6 := 41
  const IPV6_UNICAST_HOPS := 4

  /** A call and whether it succeeded; socket() fails by answering INVALID_SOCKET. */
  datatype Call =
    | SocketCall(address: Address)
    | GetOption(handle: Handle, level: int, option: int, ok: bool)
    | SetOption(handle: Handle, level: int, option: int, value: nat, ok: bool)
    | ConnectCall(handle: Handle, address: Address, ok: bool)
    | CloseCall(handle: Handle, ok: bool)

  /** The calls that set a TTL, for a handle and a family that allow it. */
  function OptionCalls(a: Address, ttl: nat): seq<Call> {
    var level := if a.family == AF_INET then IPPROTO_IP else IPPROTO_IPV6;
    var option := if a.family == AF_INET then IP_TTL else IPV6_UNICAST_HOPS;
    if a.getOk then [GetOption(a.handle, level, option, true), SetOption(a.handle, level, option, ttl, a.setOk)]
    else [GetOption(a.handle, level, option, false)]
  }

  predicate TakesTTL(a: Address) {
    a.handle != 0 && (a.family == AF_INET || a.family == AF_INET6)
  }

  function AttemptCalls(a: Address): seq<Call> {
    if a.connectOk then [ConnectCall(a.handle, a, true)]
    else [ConnectCall(a.handle, a, false), CloseCall(a.handle, a.closeOk)]
  }

  /** The calls made for one address. */
  function RoundCalls(a: Address, ttl: nat): (calls: seq<Call>)
    ensures calls != []
  {
    [SocketCall(a)]
    + if a.handle == INVALID_SOCKET then []
      else if ttl == 0 then AttemptCalls(a)
      else if !TakesTTL(a) then []
      else if a.getOk && a.setOk then OptionCalls(a, ttl) + AttemptCalls(a)
      else OptionCalls(a, ttl)
  }

  /** The cases, by where the round ends. */
  lemma RoundBeforeTTL(a: Address, ttl: nat)
    requires a.handle == INVALID_SOCKET || (ttl != 0 && !TakesTTL(a))
    ensures RoundCalls(a, ttl) == [SocketCall(a)]
  {
  }

  lemma RoundAtTTL(a: Address, ttl: nat)
    requires a.handle != INVALID_SOCKET && ttl != 0 && TakesTTL(a) && !(a.getOk && a.setOk)
    ensures RoundCalls(a, ttl) == [SocketCall(a)] + OptionCalls(a, ttl)
  {
  }

  lemma RoundToConnect(a: Address, ttl: nat)
    requires a.handle != INVALID_SOCKET && (ttl == 0 || (TakesTTL(a) && a.getOk && a.setOk))
    ensures RoundCalls(a, ttl) == [SocketCall(a)] + (if ttl == 0 then [] else OptionCalls(a, ttl)) + AttemptCalls(a)
  {
    assert [SocketCall(a)] + [] + AttemptCalls(a) == [SocketCall(a)] + AttemptCalls(a);
  }

  /** The option calls are made of handle, family and results only. */
  lemma SameOptions(a: Address, ttl: nat)
    ensures OptionCalls(Address(a.family, a.handle, a.getOk, a.setOk, false, false), ttl) == OptionCalls(a, ttl)
  {
  }

  /** The calls made for the first n addresses. */
  function CallsUpTo(addresses: seq<Address>, ttl: nat, n: nat): seq<Call>
    requires n <= |addresses|
  {
    if n == 0 then [] else CallsUpTo(addresses, ttl, n - 1) + RoundCalls(addresses[n - 1], ttl)
  }

  /** How many addresses Connect gets to. */
  function Rounds(addresses: seq<Address>, ttl: nat): (n: nat)
    ensures n <= |addresses|
  {
    var n := Stop(addresses, ttl);
    if n < |addresses| then n + 1 else n
  }

  // ---- What the exits say ----

  function Last(calls: seq<Call>): Call
    requires calls != []
  {
    calls[|calls| - 1]
  }

  predicate Connected(calls: seq<Call>) {
    calls != [] && Last(calls).ConnectCall? && Last(calls).ok
  }

  predicate NoHandle(calls: seq<Call>) {
    calls != [] && Last(calls).SocketCall? && Last(calls).address.handle == INVALID_SOCKET
  }

  /** An option call failed, or there is a socket for which none was made. */
  predicate TTLNotSet(calls: seq<Call>) {
    && calls != []
    && (|| ((Last(calls).GetOption? || Last(calls).SetOption?) && !Last(calls).ok)
        || (Last(calls).SocketCall? && Last(calls).address.handle != INVALID_SOCKET
            && !TakesTTL(Last(calls).address)))
  }

  predicate NotClosed(calls: seq<Call>) {
    calls != [] && Last(calls).CloseCall? && !Last(calls).ok
  }

  predicate Closed(calls: seq<Call>) {
    calls != [] && Last(calls).CloseCall? && Last(calls).ok
  }

  /** The fate of an address is the result of the last call made for it. */
  lemma FateIs(a: Address, ttl: nat)
    ensures var calls := RoundCalls(a, ttl);
            && (FateOf(a, ttl) == Connects <==> Connected(calls))
            && (FateOf(a, ttl) == NoSocket <==> NoHandle(calls))
            && (FateOf(a, ttl) == NoTTL <==> TTLNotSet(calls))
            && (FateOf(a, ttl) == StaysOpen <==> NotClosed(calls))
            && (FateOf(a, ttl) == Refuses <==> Closed(calls))
  {
  }

  /** A successful connect is the last call, and only what did not connect is closed, at once. */
  predicate OrderedAt(calls: seq<Call>, k: nat)
    requires k < |calls|
  {
    && (calls[k].ConnectCall? && calls[k].ok ==> k == |calls| - 1)
    && (calls[k].CloseCall? ==>
          k > 0 && calls[k - 1].ConnectCall? && !calls[k - 1].ok && calls[k - 1].handle == calls[k].handle)
  }

  predicate InOrder(calls: seq<Call>) {
    forall k :: 0 <= k < |calls| ==> OrderedAt(calls, k)
  }

  /** The call right before a connect: socket(), or with a TTL asked for the one that set it on the handle. */
  predicate Prepares(before: Call, connect: Call, ttl: nat)
    requires connect.ConnectCall?
  {
    if ttl == 0 then before == SocketCall(connect.address)
    else if connect.address.family == AF_INET then before == SetOption(connect.handle, IPPROTO_IP, IP_TTL, ttl, true)
    else
      && connect.address.family == AF_INET6
      && before == SetOption(connect.handle, IPPROTO_IPV6, IPV6_UNICAST_HOPS, ttl, true)
  }

  predicate PreparedAt(calls: seq<Call>, k: nat, ttl: nat)
    requires k < |calls|
  {
    calls[k].ConnectCall? ==> k > 0 && Prepares(calls[k - 1], calls[k], ttl)
  }

  predicate TTLFirst(calls: seq<Call>, ttl: nat) {
    forall k :: 0 <= k < |calls| ==> PreparedAt(calls, k, ttl)
  }

  lemma RoundInOrder(a: Address, ttl: nat)
    ensures InOrder(RoundCalls(a, ttl)) && TTLFirst(RoundCalls(a, ttl), ttl)
    ensures Connected(RoundCalls(a, ttl)) ==> Last(RoundCalls(a, ttl)) == ConnectCall(a.handle, a, true)
  {
  }

  lemma InOrderBoth(first: seq<Call>, second: seq<Call>)
    requires InOrder(first) && InOrder(second) && !Connected(first)
    ensures InOrder(first + second)
  {
    var both := first + second;
    forall k | 0 <= k < |both|
      ensures OrderedAt(both, k)
    {
      if k < |first| {
        assert OrderedAt(first, k);
      } else {
        assert OrderedAt(second, k - |first|);
      }
    }
  }

  lemma TTLFirstBoth(first: seq<Call>, second: seq<Call>, ttl: nat)
    requires TTLFirst(first, ttl) && TTLFirst(second, ttl)
    ensures TTLFirst(first + second, ttl)
  {
    var both := first + second;
    hide Prepares;
    forall k | 0 <= k < |both|
      ensures PreparedAt(both, k, ttl)
    {
      if k < |first| {
        assert PreparedAt(first, k, ttl);
      } else {
        assert PreparedAt(second, k - |first|, ttl);
      }
    }
  }

  /** The addresses for which socket() was called, in order. */
  function Tried(calls: seq<Call>): seq<Address> {
    if calls == [] then []
    else Tried(calls[..|calls| - 1]) + if Last(calls).SocketCall? then [Last(calls).address] else []
  }

  lemma {:induction false} TriedBoth(first: seq<Call>, second: seq<Call>)
    ensures Tried(first + second) == Tried(first) + Tried(second)
    decreases |second|
  {
    if second == [] {
      assert first + second == first;
    } else {
      var rest := second[..|second| - 1];
      assert (first + second)[..|first + second| - 1] == first + rest;
      TriedBoth(first, rest);
    }
  }

  lemma TriedRound(a: Address, ttl: nat)
    ensures Tried(RoundCalls(a, ttl)) == [a]
  {
    var calls := RoundCalls(a, ttl);
    TriedBoth([SocketCall(a)], calls[1..]);
    assert calls == [SocketCall(a)] + calls[1..];
    NoneTried(calls[1..]);
    assert [SocketCall(a)][..0] == [];
  }

  lemma {:induction false} NoneTried(calls: seq<Call>)
    requires forall k :: 0 <= k < |calls| ==> !calls[k].SocketCall?
    ensures Tried(calls) == []
  {
    if calls != [] {
      NoneTried(calls[..|calls| - 1]);
    }
  }

  /** What went before does not matter to the last call. */
  lemma LastAfter(before: seq<Call>, calls: seq<Call>)
    requires calls != []
    ensures Last(before + calls) == Last(calls) && (Connected(before + calls) <==> Connected(calls))
  {
  }

  /** The last call of the first n rounds is that of round n. */
  lemma LastRound(addresses: seq<Address>, ttl: nat, n: nat)
    requires 0 < n <= |addresses|
    ensures var calls := CallsUpTo(addresses, ttl, n);
            && calls != [] && Last(calls) == Last(RoundCalls(addresses[n - 1], ttl))
            && (Connected(calls) <==> Connected(RoundCalls(addresses[n - 1], ttl)))
            && (NoHandle(calls) <==> NoHandle(RoundCalls(addresses[n - 1], ttl)))
            && (TTLNotSet(calls) <==> TTLNotSet(RoundCalls(addresses[n - 1], ttl)))
            && (NotClosed(calls) <==> NotClosed(RoundCalls(addresses[n - 1], ttl)))
            && (Closed(calls) <==> Closed(RoundCalls(addresses[n - 1], ttl)))
  {
    LastAfter(CallsUpTo(addresses, ttl, n - 1), RoundCalls(addresses[n - 1], ttl));
    hide RoundCalls;
  }

  lemma NotYetConnected(addresses: seq<Address>, ttl: nat, n: nat)
    requires n <= |addresses| && AllRefuse(addresses, ttl, n)
    ensures !Connected(CallsUpTo(addresses, ttl, n))
  {
    if n > 0 {
      LastRound(addresses, ttl, n);
      FateIs(addresses[n - 1], ttl);
      assert FateOf(addresses[n - 1], ttl) == Refuses;
      hide RoundCalls, FateOf, CallsUpTo;
    }
  }

  lemma {:induction false} CallsInOrder(addresses: seq<Address>, ttl: nat, n: nat)
    requires n <= |addresses| && (n > 0 ==> AllRefuse(addresses, ttl, n - 1))
    ensures var calls := CallsUpTo(addresses, ttl, n);
            InOrder(calls) && TTLFirst(calls, ttl) && Tried(calls) == addresses[..n]
  {
    if n > 0 {
      var a := addresses[n - 1];
      var before := CallsUpTo(addresses, ttl, n - 1);
      assert n > 1 ==> AllRefuse(addresses, ttl, n - 2);
      assert CallsUpTo(addresses, ttl, n) == before + RoundCalls(a, ttl);
      hide *;
      CallsInOrder(addresses, ttl, n - 1);
      RoundInOrder(a, ttl);
      TriedRound(a, ttl);
      TriedBoth(before, RoundCalls(a, ttl));
      NotYetConnected(addresses, ttl, n - 1);
      InOrderBoth(before, RoundCalls(a, ttl));
      TTLFirstBoth(before, RoundCalls(a, ttl), ttl);
      NextPrefix(addresses, n);
    } else {
      hide FateOf, RoundCalls;
    }
  }

  lemma NextPrefix(addresses: seq<Address>, n: nat)
    requires 0 < n <= |addresses|
    ensures addresses[..n] == addresses[..n - 1] + [addresses[n - 1]]
  {
  }

  /** The exit for the round at which Connect stops. */
  lemma ExitOfRound(l: Ledger, f: Fields, addresses: seq<Address>)
    ensures var exit := Connect(l, f, Some(addresses)).2;
            var n := Rounds(addresses, f.preconnectTTL);
            if n == 0 then exit == AllFailed
            else
              var fate := FateOf(addresses[n - 1], f.preconnectTTL);
              && (exit == Success <==> fate == Connects)
              && (exit == SocketFailed <==> fate == NoSocket)
              && (exit == TTLFailed <==> fate == NoTTL)
              && (exit == CloseFailed <==> fate == StaysOpen)
              && (exit == AllFailed <==> fate == Refuses)
              && (fate == Refuses ==> n == |addresses|)
  {
    var ttl := f.preconnectTTL;
    var m := Stop(addresses, ttl);
    FateHandle(addresses, ttl, m);
    if m == |addresses| && m > 0 {
      assert FateOf(addresses[m - 1], ttl) == Refuses;
    }
    hide FateOf, Stop;
  }

  lemma ExitFields(l: Ledger, f: Fields, addresses: seq<Address>)
    ensures var (l', f', exit) := Connect(l, f, Some(addresses));
            var n := Rounds(addresses, f.preconnectTTL);
            && f' == f.(socket := f'.socket, addressFamily := f'.addressFamily)
            && (exit == Success || exit == TTLFailed || exit == CloseFailed ==>
                  n > 0 && f'.socket == addresses[n - 1].handle && f'.addressFamily == addresses[n - 1].family)
            && (exit == SocketFailed || exit == AllFailed ==> f'.socket == INVALID_SOCKET)
            && (exit == AllFailed && n > 0 ==> f'.addressFamily == addresses[n - 1].family)
            && (exit == SocketFailed && n > 1 ==> f'.addressFamily == addresses[n - 2].family)
  {
    FateHandle(addresses, f.preconnectTTL, Stop(addresses, f.preconnectTTL));
    hide FateOf, Stop;
  }

  /**
   * Every exit of Connect is the one for the result of its last call: it returns normally exactly if that
   * was a successful connect, of the handle it holds, and each exception stands for the call that failed.
   * Addresses are tried in order, each closed handle is one whose connect has just failed, and a TTL asked
   * for is set before connecting.
   */
  lemma ExitIs(l: Ledger, f: Fields, addresses: seq<Address>)
    ensures var (l', f', exit) := Connect(l, f, Some(addresses));
            var n := Rounds(addresses, f.preconnectTTL);
            var calls := CallsUpTo(addresses, f.preconnectTTL, n);
            && (exit == Success <==> Connected(calls))
            && (exit == Success ==> Last(calls) == ConnectCall(f'.socket, addresses[n - 1], true))
            && (exit == SocketFailed <==> NoHandle(calls))
            && (exit == TTLFailed <==> TTLNotSet(calls))
            && (exit == CloseFailed <==> NotClosed(calls))
            && (exit == AllFailed <==> calls == [] || Closed(calls))
            && (exit == AllFailed ==> n == |addresses|)
            && InOrder(calls) && TTLFirst(calls, f.preconnectTTL) && Tried(calls) == addresses[..n]
  {
    var ttl := f.preconnectTTL;
    var n := Rounds(addresses, ttl);
    RoundsFound(addresses, ttl);
    CallsInOrder(addresses, ttl, n);
    ExitOfRound(l, f, addresses);
    ExitFields(l, f, addresses);
    hide RoundCalls, FateOf, InOrder, TTLFirst, Tried, Stop, NoHandle, TTLNotSet, NotClosed, Closed, Rounds;
    hide SocketModel.Connect;
    if n > 0 {
      LastRound(addresses, ttl, n);
      FateIs(addresses[n - 1], ttl);
      RoundInOrder(addresses[n - 1], ttl);
      hide CallsUpTo, Connected;
    } else {
      Empty();
    }
  }

  lemma Empty()
    ensures !Connected([]) && !NoHandle([]) && !TTLNotSet([]) && !NotClosed([])
  {
  }

  lemma RoundsFound(addresses: seq<Address>, ttl: nat)
    ensures var n := Rounds(addresses, ttl);
            && (n > 0 ==> AllRefuse(addresses, ttl, n - 1))
            && (n == 0 ==> addresses == [])
  {
    hide FateOf;
  }

  lemma FateHandle(addresses: seq<Address>, ttl: nat, n: nat)
    ensures n < |addresses| ==> (FateOf(addresses[n], ttl) == NoSocket <==> addresses[n].handle == INVALID_SOCKET)
  {
  }

  lemma ExitShown(before: seq<Call>, after: seq<Call>, l: Ledger, f: Fields, addresses: seq<Address>)
    requires after == before + CallsUpTo(addresses, f.preconnectTTL, Rounds(addresses, f.preconnectTTL))
    ensures var (_, f', exit) := Connect(l, f, Some(addresses));
            && (exit == Success <==> |after| > |before| && Connected(after))
            && (exit == Success ==> Last(after).handle == f'.socket)
  {
    ExitIs(l, f, addresses);
    var calls := CallsUpTo(addresses, f.preconnectTTL, Rounds(addresses, f.preconnectTTL));
    hide SocketModel.Connect, CallsUpTo, Rounds, InOrder, TTLFirst, Tried;
    if calls != [] {
      LastAfter(before, calls);
    }
  }
}
