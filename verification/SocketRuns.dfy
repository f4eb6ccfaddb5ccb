/** Which handles any number of sockets lose, over every sequence of their operations. */
module SocketRuns {
  import opened Options
  import opened SocketModel

  datatype World = World(ledger: Ledger, sockets: seq<Fields>)

  datatype Command =
    | SetTTL(i: nat, ttl: nat)
    | ConnectTo(i: nat, lookup: Lookup)
    | CloseIt(i: nat, ok: bool)
    | MoveInto(i: nat, from: nat, ok: bool)
    | Destroy(i: nat, ok: bool)

  ghost predicate Legal(w: World, c: Command) {
    && c.i < |w.sockets|
    && (c.ConnectTo? ==> Fresh(w.ledger, c.lookup))
    && (c.MoveInto? ==> c.from < |w.sockets|)
  }

  /** A destroyed object no longer has a handle, not even 0. */
  ghost function Exec(w: World, c: Command): World
    requires Legal(w, c)
  {
    match c
    case SetTTL(i, ttl) =>
      World(w.ledger, w.sockets[i := w.sockets[i].(preconnectTTL := ttl)])
    case ConnectTo(i, lookup) =>
      var (l, f, _) := Connect(w.ledger, w.sockets[i], lookup);
      World(l, w.sockets[i := f])
    case CloseIt(i, ok) =>
      var (l, f) := Close(w.ledger, w.sockets[i], ok);
      World(l, w.sockets[i := f])
    case MoveInto(i, from, ok) =>
      if i == from then
        var (l, f) := MoveSelf(w.ledger, w.sockets[i], ok);
        World(l, w.sockets[i := f])
      else
      var (l, f, g) := Move(w.ledger, w.sockets[i], w.sockets[from], ok);
      World(l, w.sockets[i := f][from := g])
    case Destroy(i, ok) =>
      World(Close(w.ledger, w.sockets[i], ok).0, w.sockets[i := UNCONNECTED])
  }

  predicate Holds(w: World, i: nat, h: Handle) {
    i < |w.sockets| && w.sockets[i].socket == h
  }

  ghost predicate Held(w: World, h: Handle) {
    exists i :: Holds(w, i, h)
  }

  /** Open, but no object has it: nobody can close it any more. */
  ghost predicate Lost(w: World, h: Handle) {
    h in w.ledger.open && !Held(w, h)
  }

  /** Objects with a handle have an open one, and no two of them the same. */
  ghost predicate Owned(w: World) {
    && INVALID_SOCKET !in w.ledger.open
    && (forall i, h :: Holds(w, i, h) && h != INVALID_SOCKET ==> h in w.ledger.open)
    && (forall i, j, h :: Holds(w, i, h) && Holds(w, j, h) && h != INVALID_SOCKET ==> i == j)
  }

  /**
   * The command makes the handle of its object unreachable while open: Connect overwrites it, or
   * closesocket fails, or it is 0 and the object is moved into or destroyed.
   */
  predicate Loses(w: World, c: Command, h: Handle)
    requires c.i < |w.sockets|
  {
    && w.sockets[c.i].socket == h && h != INVALID_SOCKET
    && match c
       case SetTTL(_, _) => false
       case ConnectTo(_, lookup) => lookup.Some?
       case CloseIt(_, ok) => h != 0 && !ok
       case MoveInto(_, _, ok) => h == 0 || !ok
       case Destroy(_, ok) => h == 0 || !ok
  }

  // ---- One command ----

  /** The world after object i changes to f. */
  ghost function Put(w: World, i: nat, l: Ledger, f: Fields): World
    requires i < |w.sockets|
  {
    World(l, w.sockets[i := f])
  }

  lemma PutHeld(w: World, i: nat, l: Ledger, f: Fields, h: Handle)
    requires i < |w.sockets|
    ensures Held(Put(w, i, l, f), h) <==> f.socket == h || exists j: nat :: j != i && Holds(w, j, h)
  {
    var w' := Put(w, i, l, f);
    assert forall j: nat :: Holds(w', j, h) <==> if j == i then f.socket == h else Holds(w, j, h);
    if f.socket == h {
      assert Holds(w', i, h);
    }
  }

  /** Object i's handle h becomes f's, which is none, h itself or a new one; h is closed if it is in `gone`. */
  ghost predicate Replaces(w: World, i: nat, l: Ledger, f: Fields, gone: set<Handle>)
    requires i < |w.sockets|
  {
    var h := w.sockets[i].socket;
    && gone <= {h} - {f.socket, INVALID_SOCKET}
    && (f.socket == INVALID_SOCKET || f.socket == h || f.socket !in w.ledger.open)
    && l.open == w.ledger.open - gone + ({f.socket} - {INVALID_SOCKET})
  }

  lemma ReplaceOwns(w: World, i: nat, l: Ledger, f: Fields, gone: set<Handle>)
    requires Owned(w) && i < |w.sockets| && Replaces(w, i, l, f, gone)
    ensures Owned(Put(w, i, l, f))
  {
    var w' := Put(w, i, l, f);
    assert forall j: nat, h :: Holds(w', j, h) <==> if j == i then f.socket == h else Holds(w, j, h);
    assert Holds(w, i, w.sockets[i].socket);
    hide Holds;
  }

  lemma ReplaceLoses(w: World, i: nat, l: Ledger, f: Fields, gone: set<Handle>, h: Handle)
    requires Owned(w) && i < |w.sockets| && Replaces(w, i, l, f, gone)
    ensures Lost(Put(w, i, l, f), h) <==>
            Lost(w, h) || (w.sockets[i].socket == h && h !in gone + {f.socket, INVALID_SOCKET})
  {
    PutHeld(w, i, l, f, h);
    assert Holds(w, i, w.sockets[i].socket);
    if w.sockets[i].socket != h && Held(w, h) {
      var j :| Holds(w, j, h);
      assert j != i;
    }
    hide Put;
  }

  lemma ConnectReplaces(w: World, i: nat, lookup: Lookup)
    requires Owned(w) && Legal(w, ConnectTo(i, lookup))
    ensures var (l, f, _) := Connect(w.ledger, w.sockets[i], lookup);
            && Replaces(w, i, l, f, {})
            && (lookup.None? ==> f.socket == w.sockets[i].socket)
            && (lookup.Some? ==> f.socket == INVALID_SOCKET || f.socket != w.sockets[i].socket)
  {
    assert Holds(w, i, w.sockets[i].socket);
    if lookup.Some? {
      var n := Stop(lookup.value, w.sockets[i].preconnectTTL);
      assert n < |lookup.value| ==> lookup.value[n] in lookup.value;
    }
  }

  lemma KeepReplaces(w: World, i: nat, f: Fields)
    requires Owned(w) && i < |w.sockets| && f.socket == w.sockets[i].socket
    ensures Replaces(w, i, w.ledger, f, {})
  {
    assert Holds(w, i, f.socket);
  }

  /** The handle that Close gives back. */
  ghost function Given(w: World, i: nat, ok: bool): set<Handle>
    requires i < |w.sockets|
  {
    if w.sockets[i].socket != 0 && ok then {w.sockets[i].socket} - {INVALID_SOCKET} else {}
  }

  lemma CloseReplaces(w: World, i: nat, ok: bool)
    requires Owned(w) && i < |w.sockets|
    ensures var (l, f) := Close(w.ledger, w.sockets[i], ok);
            && (w.sockets[i].socket != 0 ==> f.socket == INVALID_SOCKET)
            && (w.sockets[i].socket == 0 ==> f == w.sockets[i])
            && Replaces(w, i, l, f, Given(w, i, ok))
    ensures forall f: Fields :: f.socket == INVALID_SOCKET ==>
                                  Replaces(w, i, Close(w.ledger, w.sockets[i], ok).0, f, Given(w, i, ok))
  {
    assert Holds(w, i, w.sockets[i].socket);
  }

  /** An object without a handle takes over what another has. */
  lemma HandOver(w: World, i: nat, from: nat, f: Fields, g: Fields)
    requires Owned(w) && i < |w.sockets| && from < |w.sockets| && i != from
    requires w.sockets[i].socket == INVALID_SOCKET == g.socket && f.socket == w.sockets[from].socket
    ensures var w' := Put(Put(w, i, w.ledger, f), from, w.ledger, g);
            Owned(w') && forall h :: Lost(w', h) <==> Lost(w, h)
  {
    var w' := Put(Put(w, i, w.ledger, f), from, w.ledger, g);
    assert forall j: nat, h :: h != INVALID_SOCKET ==>
                                 (Holds(w', j, h) <==> j != from && Holds(w, if j == i then from else j, h));
    forall h
      ensures Lost(w', h) <==> Lost(w, h)
    {
      if h in w.ledger.open && Held(w, h) {
        var j :| Holds(w, j, h);
        assert Holds(w', if j == from then i else j, h);
      }
    }
  }

  lemma MoveByParts(w: World, i: nat, from: nat, ok: bool)
    requires Legal(w, MoveInto(i, from, ok)) && i != from
    ensures var w1 := Put(w, i, Close(w.ledger, w.sockets[i], ok).0, UNCONNECTED);
            Exec(w, MoveInto(i, from, ok))
            == Put(Put(w1, i, w1.ledger, w.sockets[from]), from, w1.ledger,
                   w.sockets[from].(host := "", socket := INVALID_SOCKET))
  {
    assert w.sockets[i := UNCONNECTED][i := w.sockets[from]] == w.sockets[i := w.sockets[from]];
  }

  lemma MoveKeeps(w: World, i: nat, from: nat, ok: bool, h: Handle)
    requires Owned(w) && Legal(w, MoveInto(i, from, ok))
    ensures var w' := Exec(w, MoveInto(i, from, ok));
            Owned(w') && (Lost(w', h) <==> Lost(w, h) || Loses(w, MoveInto(i, from, ok), h))
  {
    var l := Close(w.ledger, w.sockets[i], ok).0;
    CloseReplaces(w, i, ok);
    if i == from {
      var f := MoveSelf(w.ledger, w.sockets[i], ok).1;
      ReplaceOwns(w, i, l, f, Given(w, i, ok));
      ReplaceLoses(w, i, l, f, Given(w, i, ok), h);
      hide Owned, Lost, Close, Replaces;
      return;
    }
    var w1 := Put(w, i, l, UNCONNECTED);
    ReplaceOwns(w, i, l, UNCONNECTED, Given(w, i, ok));
    ReplaceLoses(w, i, l, UNCONNECTED, Given(w, i, ok), h);
    HandOver(w1, i, from, w.sockets[from], w.sockets[from].(host := "", socket := INVALID_SOCKET));
    MoveByParts(w, i, from, ok);
    hide Owned, Lost, Exec, Close, Replaces;
  }

  /** Ownership is kept, and a handle is lost exactly if it was or the command is one that loses it. */
  lemma ExecKeeps(w: World, c: Command, h: Handle)
    requires Owned(w) && Legal(w, c)
    ensures Owned(Exec(w, c))
    ensures Lost(Exec(w, c), h) <==> Lost(w, h) || Loses(w, c, h)
  {
    hide Owned, Lost, Connect, Close, Replaces;
    match c {
      case SetTTL(i, ttl) =>
        var f := w.sockets[i].(preconnectTTL := ttl);
        KeepReplaces(w, i, f);
        ReplaceOwns(w, i, w.ledger, f, {});
        ReplaceLoses(w, i, w.ledger, f, {}, h);
      case ConnectTo(i, lookup) =>
        var (l, f, _) := Connect(w.ledger, w.sockets[i], lookup);
        ConnectReplaces(w, i, lookup);
        ReplaceOwns(w, i, l, f, {});
        ReplaceLoses(w, i, l, f, {}, h);
      case CloseIt(i, ok) =>
        var (l, f) := Close(w.ledger, w.sockets[i], ok);
        CloseReplaces(w, i, ok);
        ReplaceOwns(w, i, l, f, Given(w, i, ok));
        ReplaceLoses(w, i, l, f, Given(w, i, ok), h);
      case MoveInto(i, from, ok) =>
        MoveKeeps(w, i, from, ok, h);
      case Destroy(i, ok) =>
        var l := Close(w.ledger, w.sockets[i], ok).0;
        CloseReplaces(w, i, ok);
        ReplaceOwns(w, i, l, UNCONNECTED, Given(w, i, ok));
        ReplaceLoses(w, i, l, UNCONNECTED, Given(w, i, ok), h);
    }
  }

  // ---- Every run ----

  predicate NoHandles(objects: seq<Fields>) {
    forall i :: 0 <= i < |objects| ==> objects[i].socket == INVALID_SOCKET
  }

  /** Objects without handles, and no handle open. */
  function Start(objects: seq<Fields>): World {
    World(Ledger({}, []), objects)
  }

  ghost predicate LegalRun(w: World, cmds: seq<Command>)
    decreases |cmds|
  {
    cmds == [] || (Legal(w, cmds[0]) && LegalRun(Exec(w, cmds[0]), cmds[1..]))
  }

  ghost function Run(w: World, cmds: seq<Command>): World
    requires LegalRun(w, cmds)
    decreases |cmds|
  {
    if cmds == [] then w else Run(Exec(w, cmds[0]), cmds[1..])
  }

  /** Some command of the run loses h. */
  ghost predicate LosesIn(w: World, cmds: seq<Command>, h: Handle)
    requires LegalRun(w, cmds)
    decreases |cmds|
  {
    cmds != [] && (Loses(w, cmds[0], h) || LosesIn(Exec(w, cmds[0]), cmds[1..], h))
  }

  lemma {:induction false} RunKeeps(w: World, cmds: seq<Command>, h: Handle)
    requires Owned(w) && LegalRun(w, cmds)
    ensures Owned(Run(w, cmds))
    ensures Lost(Run(w, cmds), h) <==> Lost(w, h) || LosesIn(w, cmds, h)
    decreases |cmds|
  {
    hide Owned, Lost, Loses, Exec;
    if cmds != [] {
      ExecKeeps(w, cmds[0], h);
      RunKeeps(Exec(w, cmds[0]), cmds[1..], h);
    }
  }

  /**
   * Over every run: each handle that is open was lost by a command, or exactly one object has it; and
   * every handle that an object has is open.
   */
  lemma OpenIffHeldOrLost(objects: seq<Fields>, cmds: seq<Command>, h: Handle)
    requires NoHandles(objects) && LegalRun(Start(objects), cmds) && h != INVALID_SOCKET
    ensures var w := Run(Start(objects), cmds);
            && (h in w.ledger.open <==> Held(w, h) || LosesIn(Start(objects), cmds, h))
            && (forall i, j :: Holds(w, i, h) && Holds(w, j, h) ==> i == j)
            && !(Held(w, h) && LosesIn(Start(objects), cmds, h))
  {
    StartOwns(objects);
    RunKeeps(Start(objects), cmds, h);
    var w := Run(Start(objects), cmds);
    if Held(w, h) {
      var i :| Holds(w, i, h);
      assert h in w.ledger.open;
    }
    hide LosesIn, Run, Start, LegalRun;
  }

  lemma StartOwns(objects: seq<Fields>)
    requires NoHandles(objects)
    ensures Owned(Start(objects)) && forall h :: !Lost(Start(objects), h)
  {
  }

  /** Once no object has a handle, exactly the lost handles are still open. */
  lemma AllGone(objects: seq<Fields>, cmds: seq<Command>)
    requires NoHandles(objects) && LegalRun(Start(objects), cmds)
    requires NoHandles(Run(Start(objects), cmds).sockets)
    ensures Run(Start(objects), cmds).ledger.open == {} <==>
            forall h :: h != INVALID_SOCKET ==> !LosesIn(Start(objects), cmds, h)
  {
    var w := Run(Start(objects), cmds);
    assert forall h :: h != INVALID_SOCKET ==> !Held(w, h);
    forall h | h != INVALID_SOCKET
      ensures h in w.ledger.open <==> LosesIn(Start(objects), cmds, h)
    {
      OpenIffHeldOrLost(objects, cmds, h);
    }
    StartOwns(objects);
    RunKeeps(Start(objects), cmds, INVALID_SOCKET);
    hide LosesIn, Run, Start, LegalRun, Held, NoHandles;
    assert INVALID_SOCKET !in w.ledger.open;
    if w.ledger.open != {} {
      var h :| h in w.ledger.open;
      assert LosesIn(Start(objects), cmds, h);
    }
  }

  // ---- Runs that lose a handle ----

  /** One object, connected to the first and only address of its list. */
  function ConnectOnce(a: Address): Command {
    ConnectTo(0, Some([a]))
  }

  lemma OneCommand(w: World, c: Command)
    requires Legal(w, c)
    ensures LegalRun(w, [c]) && Run(w, [c]) == Exec(w, c)
    ensures forall h :: LosesIn(w, [c], h) <==> Loses(w, c, h)
  {
    assert [c][1..] == [];
    hide Exec, Loses, Legal;
  }

  lemma TwoCommands(w: World, c: Command, d: Command)
    requires Legal(w, c) && Legal(Exec(w, c), d)
    ensures LegalRun(w, [c, d]) && Run(w, [c, d]) == Exec(Exec(w, c), d)
    ensures forall h :: LosesIn(w, [c, d], h) <==> Loses(w, c, h) || Loses(Exec(w, c), d, h)
  {
    assert [c, d][1..] == [d];
    hide Exec, Loses, Legal;
    OneCommand(Exec(w, c), d);
  }

  lemma ConnectedFirst(f: Fields, a: Address)
    requires f.socket == INVALID_SOCKET && FateOf(a, f.preconnectTTL) == Connects
    ensures var w := Start([f]);
            && Legal(w, ConnectOnce(a))
            && var w1 := Exec(w, ConnectOnce(a));
               && |w1.sockets| == 1 && w1.sockets[0].socket == a.handle
               && w1.sockets[0].preconnectTTL == f.preconnectTTL && w1.ledger.open == {a.handle}
  {
    StopIs([a], f.preconnectTTL, 0);
    hide Stop;
  }

  /** Connecting a connected object again loses the handle that it had. */
  lemma ReconnectLoses(f: Fields, a: Address, b: Address)
    requires f.socket == INVALID_SOCKET && FateOf(a, f.preconnectTTL) == Connects
    requires b.handle != a.handle
    ensures var cmds := [ConnectOnce(a), ConnectOnce(b)];
            && LegalRun(Start([f]), cmds)
            && Lost(Run(Start([f]), cmds), a.handle)
  {
    var w := Start([f]);
    ConnectedFirst(f, a);
    var w1 := Exec(w, ConnectOnce(a));
    TwoCommands(w, ConnectOnce(a), ConnectOnce(b));
    StartOwns([f]);
    RunKeeps(w, [ConnectOnce(a), ConnectOnce(b)], a.handle);
    hide Exec, Run, LegalRun, LosesIn, Lost, Owned, FateOf;
    assert Loses(w1, ConnectOnce(b), a.handle) by {
      FateHandle(a, f.preconnectTTL);
    }
  }

  lemma FateHandle(a: Address, ttl: nat)
    ensures FateOf(a, ttl) == Connects ==> a.handle != INVALID_SOCKET
  {
  }

  /** Closing loses the handle if closesocket refuses, or, on destruction, if the handle is 0. */
  lemma CloseLoses(f: Fields, a: Address, c: Command)
    requires f.socket == INVALID_SOCKET && FateOf(a, f.preconnectTTL) == Connects
    requires (a.handle != 0 && c == CloseIt(0, false)) || (a.handle == 0 && c == Destroy(0, true))
    ensures var cmds := [ConnectOnce(a), c];
            && LegalRun(Start([f]), cmds)
            && Lost(Run(Start([f]), cmds), a.handle)
  {
    var w := Start([f]);
    ConnectedFirst(f, a);
    TwoCommands(w, ConnectOnce(a), c);
    StartOwns([f]);
    RunKeeps(w, [ConnectOnce(a), c], a.handle);
    FateHandle(a, f.preconnectTTL);
    hide Exec, Run, LegalRun, LosesIn, Lost, Owned, FateOf;
  }

  /** An object whose TTL cannot be set leaves Connect by exception, with the handle open and held. */
  lemma TTLFailureHolds(f: Fields, ttl: nat, a: Address)
    requires f.socket == INVALID_SOCKET && ttl != 0 && a.handle != INVALID_SOCKET
    requires !TTLSettable(a.handle, a.family, a.getOk, a.setOk)
    ensures var cmds := [SetTTL(0, ttl), ConnectOnce(a)];
            && LegalRun(Start([f]), cmds)
            && var w := Run(Start([f]), cmds);
               w.ledger.open == {a.handle} && Held(w, a.handle)
  {
    StopIs([a], ttl, 0);
    var w := Start([f]);
    TwoCommands(w, SetTTL(0, ttl), ConnectOnce(a));
    hide Stop, Run, LegalRun, LosesIn;
    assert Holds(Run(w, [SetTTL(0, ttl), ConnectOnce(a)]), 0, a.handle);
  }
}
