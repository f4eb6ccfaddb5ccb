/** The Socket class as it is written, its fields updated in place. */
module SocketObjects {
  import opened Options
  import opened SocketModel
  import opened SocketCalls
  import opened SocketRuns

  /** Winsock: the open handles, the hop limit set on each, and the calls made. */
  class Winsock {
    var ledger: Ledger
    var limits: map<Handle, nat>
    var calls: seq<Call>

    constructor ()
      ensures ledger == Ledger({}, []) && limits == map[] && calls == []
    {
      ledger, limits, calls := Ledger({}, []), map[], [];
    }

    method OpenSocket(a: Address) returns (h: Handle)
      requires a.handle == INVALID_SOCKET || a.handle !in ledger.open
      modifies this
      ensures h == a.handle && calls == old(calls) + [SocketCall(a)]
      ensures ledger == if h == INVALID_SOCKET then old(ledger) else old(ledger).(open := old(ledger).open + {h})
    {
      h := a.handle;
      calls := calls + [SocketCall(a)];
      if h != INVALID_SOCKET {
        ledger := ledger.(open := ledger.open + {h});
        limits := limits - {h};
      }
    }

    method GetSockOpt(h: Handle, level: int, option: int, ok: bool) returns (failed: bool)
      modifies this`calls
      ensures failed == !ok && calls == old(calls) + [GetOption(h, level, option, ok)]
    {
      calls := calls + [GetOption(h, level, option, ok)];
      failed := !ok;
    }

    method SetSockOpt(h: Handle, level: int, option: int, value: nat, ok: bool) returns (failed: bool)
      modifies this`calls, this`limits
      ensures failed == !ok && calls == old(calls) + [SetOption(h, level, option, value, ok)]
      ensures limits == if ok then old(limits)[h := value] else old(limits)
    {
      calls := calls + [SetOption(h, level, option, value, ok)];
      failed := !ok;
      if ok {
        limits := limits[h := value];
      }
    }

    method ConnectSocket(h: Handle, a: Address) returns (failed: bool)
      modifies this`calls
      ensures failed == !a.connectOk && calls == old(calls) + [ConnectCall(h, a, a.connectOk)]
    {
      calls := calls + [ConnectCall(h, a, a.connectOk)];
      failed := !a.connectOk;
    }

    method CloseSocket(h: Handle, ok: bool) returns (failed: bool)
      modifies this`ledger, this`calls
      ensures ledger == old(ledger).Close(h, ok)
      ensures failed <==> !ok || h !in old(ledger).open
      ensures calls == old(calls) + [CloseCall(h, !failed)]
    {
      failed := !ok || h !in ledger.open;
      calls := calls + [CloseCall(h, !failed)];
      if !failed {
        ledger := Ledger(ledger.open - {h}, ledger.closed + [h]);
      }
    }
  }

  datatype TTLError = NoError | NotConnectable | UnknownFamily | NotSupported | NotSet

  class Socket {
    var host: string
    var portNumber: nat
    var socket: Handle
    var addressFamily: int
    var preconnectTTL: nat

    function View(): Fields
      reads this
    {
      Fields(host, portNumber, socket, addressFamily, preconnectTTL)
    }

    constructor (host: string, portNumber: nat)
      ensures View() == Fields(host, portNumber, INVALID_SOCKET, 0, 0)
    {
      this.host, this.portNumber := host, portNumber;
      socket, addressFamily, preconnectTTL := INVALID_SOCKET, 0, 0;
    }

    method SetPreconnectTTL(ttl: nat)
      modifies this
      ensures View() == old(View()).(preconnectTTL := ttl)
    {
      preconnectTTL := ttl;
    }

    method SetSocketTTL(net: Winsock, ttl: nat, getOk: bool, setOk: bool) returns (error: TTLError)
      modifies net`limits, net`calls
      ensures error == NoError <==> TTLSettable(socket, addressFamily, getOk, setOk)
      ensures error == NotConnectable <==> socket == 0 || socket == INVALID_SOCKET
      ensures error == UnknownFamily ==> addressFamily != AF_INET && addressFamily != AF_INET6
      ensures error == NotConnectable || error == UnknownFamily ==> net.calls == old(net.calls)
      ensures error == NotSupported || error == NotSet || error == NoError ==>
                && (addressFamily == AF_INET || addressFamily == AF_INET6)
                && (getOk <==> error != NotSupported) && (error == NoError ==> setOk) && (error == NotSet ==> !setOk)
                && net.calls == old(net.calls) + OptionCalls(
                       Address(addressFamily, socket, getOk, setOk, false, false), ttl)
      ensures net.limits == if error == NoError then old(net.limits)[socket := ttl] else old(net.limits)
    {
      if socket == 0 || socket == INVALID_SOCKET {
        return NotConnectable;
      }
      var layer;
      var argument;
      if addressFamily == AF_INET {
        layer, argument := IPPROTO_IP, IP_TTL;
      } else if addressFamily == AF_INET6 {
        layer, argument := IPPROTO_IPV6, IPV6_UNICAST_HOPS;
      } else {
        return UnknownFamily;
      }
      var failed := net.GetSockOpt(socket, layer, argument, getOk);
      if failed {
        return NotSupported;
      }
      failed := net.SetSockOpt(socket, layer, argument, ttl, setOk);
      if failed {
        return NotSet;
      }
      return NoError;
    }

    /** The first half of a round: a socket, and its TTL if one is asked for. */
    method OpenFor(net: Winsock, a: Address) returns (ready: bool)
      requires socket == INVALID_SOCKET && (a.handle == INVALID_SOCKET || a.handle !in net.ledger.open)
      modifies this, net
      ensures ready <==> a.handle != INVALID_SOCKET && (preconnectTTL == 0 || (TakesTTL(a) && a.getOk && a.setOk))
      ensures View() == old(View()).(socket := a.handle, addressFamily := addressFamily)
      ensures addressFamily == if a.handle == INVALID_SOCKET then old(addressFamily) else a.family
      ensures net.ledger == if a.handle == INVALID_SOCKET then old(net.ledger)
                            else old(net.ledger).(open := old(net.ledger).open + {a.handle})
      ensures ready && preconnectTTL != 0 ==> socket in net.limits && net.limits[socket] == preconnectTTL
      ensures net.calls == old(net.calls)
                         + if !ready then RoundCalls(a, preconnectTTL)
                           else [SocketCall(a)] + if preconnectTTL == 0 then [] else OptionCalls(a, preconnectTTL)
    {
      hide RoundCalls, OptionCalls;
      socket := net.OpenSocket(a);
      if socket == INVALID_SOCKET {
        RoundBeforeTTL(a, preconnectTTL);
        return false;
      }
      addressFamily := a.family;
      if preconnectTTL != 0 {
        SameOptions(a, preconnectTTL);
        var error := SetSocketTTL(net, preconnectTTL, a.getOk, a.setOk);
        if error != NoError {
          if TakesTTL(a) {
            RoundAtTTL(a, preconnectTTL);
          } else {
            RoundBeforeTTL(a, preconnectTTL);
          }
          return false;
        }
      }
      return true;
    }

    /** The second half: connect, or close again. */
    method AttemptConnect(net: Winsock, a: Address) returns (fate: Fate)
      requires socket == a.handle != INVALID_SOCKET && socket in net.ledger.open
      modifies this, net`ledger, net`calls
      ensures fate == if a.connectOk then Connects else if a.closeOk then Refuses else StaysOpen
      ensures View() == old(View()).(socket := socket, addressFamily := addressFamily)
      ensures addressFamily == if fate == Connects then a.family else old(addressFamily)
      ensures socket == if fate == Refuses then INVALID_SOCKET else a.handle
      ensures net.ledger == if fate == Refuses then old(net.ledger).Close(a.handle, true) else old(net.ledger)
      ensures net.calls == old(net.calls) + AttemptCalls(a)
    {
      var failed := net.ConnectSocket(socket, a);
      if !failed {
        addressFamily := a.family;
        return Connects;
      }
      failed := net.CloseSocket(socket, a.closeOk);
      if failed {
        return StaysOpen;
      }
      socket := INVALID_SOCKET;
      return Refuses;
    }

    /** One round of the failover loop. */
    method TryAddress(net: Winsock, a: Address) returns (fate: Fate)
      requires socket == INVALID_SOCKET && (a.handle == INVALID_SOCKET || a.handle !in net.ledger.open)
      modifies this, net
      ensures fate == FateOf(a, preconnectTTL)
      ensures View() == old(View()).(socket := socket, addressFamily := addressFamily)
      ensures addressFamily == if fate == NoSocket then old(addressFamily) else a.family
      ensures socket == if fate == Refuses then INVALID_SOCKET else a.handle
      ensures net.ledger == if fate == NoSocket then old(net.ledger)
                            else if fate == Refuses
                            then Ledger(old(net.ledger).open, old(net.ledger).closed + [a.handle])
                            else Ledger(old(net.ledger).open + {a.handle}, old(net.ledger).closed)
      ensures fate == Connects && preconnectTTL != 0 ==> socket in net.limits && net.limits[socket] == preconnectTTL
      ensures net.calls == old(net.calls) + RoundCalls(a, preconnectTTL)
    {
      hide RoundCalls, OptionCalls, AttemptCalls;
      var ready := OpenFor(net, a);
      if !ready {
        return if socket == INVALID_SOCKET then NoSocket else NoTTL;
      }
      RoundToConnect(a, preconnectTTL);
      fate := AttemptConnect(net, a);
      assert old(net.ledger).open + {a.handle} - {a.handle} == old(net.ledger).open;
    }

    /** The failover loop: it stops at the first address that does not merely refuse. */
    method TryAll(net: Winsock, addresses: seq<Address>) returns (ghost n: nat, fate: Fate)
      requires Fresh(net.ledger, Some(addresses)) && socket == INVALID_SOCKET
      modifies this, net
      ensures n == Stop(addresses, preconnectTTL)
      ensures fate == if n < |addresses| then FateOf(addresses[n], preconnectTTL) else Refuses
      ensures View() == old(View()).(socket := socket, addressFamily := addressFamily)
      ensures net.calls == old(net.calls) + CallsUpTo(addresses, preconnectTTL, Rounds(addresses, preconnectTTL))
      ensures net.ledger.closed == old(net.ledger).closed + Handles(addresses[..n])
      ensures if n < |addresses| && addresses[n].handle != INVALID_SOCKET
              then net.ledger.open == old(net.ledger).open + {socket} && socket == addresses[n].handle
                   && addressFamily == addresses[n].family
              else net.ledger.open == old(net.ledger).open && socket == INVALID_SOCKET
                   && addressFamily == LastFamily(addresses, n, old(addressFamily))
      ensures fate == Connects && preconnectTTL != 0 ==>
                socket in net.limits && net.limits[socket] == preconnectTTL
    {
      hide FateOf, Stop, RoundCalls;
      var i := 0;
      n, fate := 0, Refuses;
      while i < |addresses| && socket == INVALID_SOCKET
        invariant 0 <= n == i <= |addresses| && socket == INVALID_SOCKET && fate == Refuses
        invariant View() == old(View()).(addressFamily := addressFamily)
        invariant net.calls == old(net.calls) + CallsUpTo(addresses, preconnectTTL, n)
        invariant AllRefuse(addresses, preconnectTTL, n)
        invariant net.ledger == Ledger(old(net.ledger).open, old(net.ledger).closed + Handles(addresses[..n]))
        invariant addressFamily == LastFamily(addresses, n, old(addressFamily))
        decreases |addresses| - i
      {
        fate := TryAddress(net, addresses[i]);
        FateOfHandle(addresses[i], preconnectTTL);
        if fate != Refuses {
          StopIs(addresses, preconnectTTL, n);
          return;
        }
        HandlesNext(addresses, i);
        i := i + 1;
        n := i;
      }
      StopIs(addresses, preconnectTTL, n);
    }

    /** Five ways out by exception and the normal one. */
    method Connect(net: Winsock, lookup: Lookup) returns (exit: Exit)
      requires Fresh(net.ledger, lookup)
      modifies this, net
      ensures (net.ledger, View(), exit) == SocketModel.Connect(old(net.ledger), old(View()), lookup)
      ensures exit == Success && preconnectTTL != 0 ==> socket in net.limits && net.limits[socket] == preconnectTTL
      ensures exit == LookupFailed <==> lookup.None?
      ensures net.calls == old(net.calls)
                         + if lookup.None? then []
                           else CallsUpTo(lookup.value, preconnectTTL, Rounds(lookup.value, preconnectTTL))
      ensures exit == Success <==> |net.calls| > |old(net.calls)| && Connected(net.calls)
      ensures exit == Success ==> Last(net.calls).handle == socket
    {
      hide FateOf, Stop, RoundCalls, Connected, CallsUpTo;
      if lookup.None? {
        return LookupFailed;
      }
      var addresses := lookup.value;
      socket := INVALID_SOCKET;
      ghost var n;
      var fate;
      n, fate := TryAll(net, addresses);
      if n < |addresses| {
        FateOfHandle(addresses[n], preconnectTTL);
      }
      exit := ExitOf(fate);
      ExitShown(old(net.calls), net.calls, old(net.ledger), old(View()), addresses);
    }

    /** Also the destructor. The result of closesocket is not looked at. */
    method Close(net: Winsock, ok: bool)
      modifies this, net
      ensures (net.ledger, View()) == SocketModel.Close(old(net.ledger), old(View()), ok)
      ensures if old(socket) == 0 || old(socket) == INVALID_SOCKET
              then net.calls == old(net.calls) && View() == old(View())
              else |net.calls| == |old(net.calls)| + 1 && Last(net.calls).CloseCall?
                   && Last(net.calls).handle == old(socket) && View() == old(View()).(socket := INVALID_SOCKET)
    {
      if socket == 0 {
        return;
      }
      if socket == INVALID_SOCKET {
        return;
      }
      var _ := net.CloseSocket(socket, ok);
      socket := INVALID_SOCKET;
    }

    /** Move assignment. Assigning a string to itself leaves it as it is. */
    method Move(other: Socket, net: Winsock, ok: bool)
      modifies this, other, net
      ensures other == this || (net.ledger, View(), other.View())
                            == SocketModel.Move(old(net.ledger), old(View()), old(other.View()), ok)
      ensures other != this ==>
                View() == old(other.View()) && other.View() == old(other.View()).(host := "", socket := INVALID_SOCKET)
      ensures other == this ==> (net.ledger, View()) == MoveSelf(old(net.ledger), old(View()), ok)
    {
      Close(net, ok);
      if other != this {
        host := other.host;
        other.host := "";
      }
      portNumber := other.portNumber;
      var handle := other.socket;
      other.socket := INVALID_SOCKET;
      socket := if other == this then INVALID_SOCKET else handle;
      addressFamily := other.addressFamily;
      preconnectTTL := other.preconnectTTL;
    }
  }

  lemma FateOfHandle(a: Address, ttl: nat)
    ensures FateOf(a, ttl) == NoSocket <==> a.handle == INVALID_SOCKET
  {
  }

  lemma HandlesNext(addresses: seq<Address>, i: nat)
    requires i < |addresses|
    ensures Handles(addresses[..i + 1]) == Handles(addresses[..i]) + [addresses[i].handle]
  {
  }

  // ---- Runs of the objects ----

  /** The objects are different ones, and their fields and the open handles are those of w. */
  ghost predicate Shows(net: Winsock, sockets: seq<Socket>, w: World)
    reads net, sockets
  {
    && net.ledger == w.ledger && |sockets| == |w.sockets|
    && (forall i :: 0 <= i < |sockets| ==> sockets[i].View() == w.sockets[i])
    && (forall i, j :: 0 <= i < j < |sockets| ==> sockets[i] != sockets[j])
  }

  method Execute(net: Winsock, sockets: seq<Socket>, c: Command, ghost w: World) returns (sockets': seq<Socket>)
    requires Shows(net, sockets, w) && Legal(w, c)
    modifies net, set s | s in sockets
    ensures Shows(net, sockets', Exec(w, c))
    ensures forall s :: s in sockets' ==> s in sockets || fresh(s)
  {
    hide SocketModel.Connect, SocketModel.Close;
    sockets' := sockets;
    match c {
      case SetTTL(i, ttl) => sockets[i].SetPreconnectTTL(ttl);
      case ConnectTo(i, lookup) => var _ := sockets[i].Connect(net, lookup);
      case CloseIt(i, ok) => sockets[i].Close(net, ok);
      case MoveInto(i, from, ok) => sockets[i].Move(sockets[from], net, ok);
      case Destroy(i, ok) =>
        sockets[i].Close(net, ok);
        var empty := new Socket("", 0);
        sockets' := sockets[i := empty];
    }
  }

  /** Newly constructed objects. */
  function Constructed(peers: seq<(string, nat)>): seq<Fields> {
    seq(|peers|, i requires 0 <= i < |peers| => Fields(peers[i].0, peers[i].1, INVALID_SOCKET, 0, 0))
  }

  method Construct(peers: seq<(string, nat)>) returns (net: Winsock, sockets: seq<Socket>)
    ensures fresh(net) && fresh(sockets)
    ensures Shows(net, sockets, Start(Constructed(peers)))
  {
    net := new Winsock();
    sockets := [];
    for i := 0 to |peers|
      invariant fresh(sockets) && |sockets| == i && net.ledger == Ledger({}, [])
      invariant forall j :: 0 <= j < i ==> sockets[j].View() == Fields(peers[j].0, peers[j].1, INVALID_SOCKET, 0, 0)
      invariant forall j, k :: 0 <= j < k < i ==> sockets[j] != sockets[k]
    {
      var s := new Socket(peers[i].0, peers[i].1);
      sockets := sockets + [s];
    }
  }

  /** Any legal run, on the objects: what is proved of runs holds of them. */
  method PlayOn(peers: seq<(string, nat)>, cmds: seq<Command>) returns (net: Winsock, sockets: seq<Socket>)
    requires LegalRun(Start(Constructed(peers)), cmds)
    ensures fresh(net) && Shows(net, sockets, Run(Start(Constructed(peers)), cmds))
  {
    net, sockets := Construct(peers);
    ghost var w := Start(Constructed(peers));
    hide Exec, Legal, Shows, Start, Constructed;
    for i := 0 to |cmds|
      invariant fresh(net) && forall s :: s in sockets ==> fresh(s)
      invariant Shows(net, sockets, w)
      invariant LegalRun(w, cmds[i..]) && Run(w, cmds[i..]) == Run(Start(Constructed(peers)), cmds)
    {
      assert cmds[i..][1..] == cmds[i + 1..];
      sockets := Execute(net, sockets, cmds[i], w);
      w := Exec(w, cmds[i]);
    }
  }
}
