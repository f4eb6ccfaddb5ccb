/** Whole runs of the controller: re-opening, closing after clean runs, and destruction after any run. */
module WfpRuns {
  import opened Options
  import opened WfpModel
  import opened WfpInvariants
  import opened WfpTheorems

  predicate AllWellFormed(cmds: seq<Command>) {
    forall i :: 0 <= i < |cmds| ==> WellFormed(cmds[i])
  }

  /** The controller after commands, failed ones included. */
  function Play(cmds: seq<Command>): (s: Controller)
    requires AllWellFormed(cmds)
    ensures Shaped(s)
  {
    if cmds == [] then
      FRESH
    else
      var before, cmd := Play(cmds[..|cmds| - 1]), cmds[|cmds| - 1];
      ExecKeepsShape(before, cmd);
      Exec(before, cmd).0
  }

  lemma ExecKeepsShape(s: Controller, c: Command)
    requires Shaped(s) && WellFormed(c)
    ensures Shaped(Exec(s, c).0)
  {
    if c.AddAll? {
      AddKeepsShape(s, 0, c.lucks);
    }
  }

  /** Counts, registry and slots agree after every sequence of commands. */
  lemma {:induction false} PlayKeeps(cmds: seq<Command>)
    requires AllWellFormed(cmds)
    ensures Inv(Play(cmds))
  {
    if cmds == [] {
      FreshInv();
    } else {
      var before := cmds[..|cmds| - 1];
      PlayKeeps(before);
      ExecKeeps(Play(before), cmds[|cmds| - 1]);
      hide Inv, Exec;
    }
  }

  lemma FreshInv()
    ensures Inv(FRESH)
  {
  }

  /**
   * After any commands a session's count is the number of pointers to it, and FwpmEngineClose0 ran for
   * it once if it was opened and nothing points at it any more, otherwise never.
   */
  lemma SessionLifetime(cmds: seq<Command>, h: Session)
    requires AllWellFormed(cmds)
    ensures var s := Play(cmds);
            && s.world.Count(h) == Held(s, None, h)
            && (Held(s, None, h) > 0 ==> h < s.world.sessions)
            && multiset(s.world.closes)[h] == if h < s.world.sessions && Held(s, None, h) == 0 then 1 else 0
  {
    PlayKeeps(cmds);
    var s := Play(cmds);
    assert Sound(s.world, h, Held(s, None, h));
    hide Held, Play;
  }

  // ---- Re-opening ----

  /** Re-opening and adding again moves all four keys to the new session and closes every other one. */
  lemma ReopenMovesAll(s: Controller, lucks: seq<Luck>)
    requires Inv(s) && |lucks| == SLOTS
    ensures var s1 := OpenFilterEngine(s, true).0;
            var (s2, outcome) := AddCallouts(s1, lucks);
            outcome == Done ==>
              && (forall i :: 0 <= i < SLOTS ==> KeyOf(i) in s2.world.registry)
              && (forall k :: k in s2.world.registry ==> s2.world.registry[k] == s.world.sessions)
              && (forall h: nat :: IsOpen(s2.world, h) <==> h == s.world.sessions)
  {
    OpenKeeps(s, true);
    var s1 := OpenFilterEngine(s, true).0;
    AddFromKeeps(s1, 0, lucks);
    var (s2, outcome) := AddCallouts(s1, lucks);
    hide AddFrom, OpenFilterEngine, IsOpen, World.Count, Sound;
    if outcome == Done {
      forall i | 0 <= i < SLOTS
        ensures KeyOf(i) in s2.world.registry
      {
        assert Registered(s2, i);
      }
      forall h: nat
        ensures IsOpen(s2.world, h) <==> h == s.world.sessions
      {
        OpenIffHeld(s2, h);
      }
      forall k | k in s2.world.registry
        ensures s2.world.registry[k] == s.world.sessions
      {
        RegistryIsOpen(s2, k);
      }
    }
  }

  // ---- When an adder succeeds ----

  /** Clearing slot i takes k out of the registry: by deletion, or as the last pointer to its session. */
  predicate Frees(s: Controller, i: nat, k: Key, luck: Luck)
    requires Shaped(s) && i < SLOTS && k in s.world.registry
  {
    var c := s.slots[i];
    var h := s.world.registry[k];
    (c.id != 0 && c.key == k && luck.deleteOk) || Held(s, None, h) == Points(c.handle, h)
  }

  lemma ReleaseFrees(w: World, h: Session, k: Key)
    ensures k in w.Release(h).registry <==> k in w.registry && (w.Count(h) > 1 || w.registry[k] != h)
  {
  }

  lemma ClearingFrees(s: Controller, i: nat, k: Key, luck: Luck)
    requires Inv(s) && i < SLOTS && s.engine.Some?
    ensures k in Cleared(s, i, luck).world.registry <==> k in s.world.registry && !Frees(s, i, k, luck)
  {
    var e := s.engine.value;
    var w := s.world.Retain(e);
    var c := s.slots[i];
    assert Registered(s, i);
    if k in s.world.registry {
      var h := s.world.registry[k];
      assert Sound(s.world, h, Held(s, None, h));
      assert w.Count(h) == Held(s, None, h) + Points(s.engine, h);
      assert Held(s, None, h) >= Points(s.engine, h) + Points(c.handle, h);
      hide Held, Sound;
      if c.handle.Some? {
        ReleaseFrees(w, c.handle.value, k);
        ReleaseFrees(w.Delete(c.key, luck), c.handle.value, k);
      }
    }
  }

  /** An adder succeeds exactly if the platform is willing and the slot's key is free once it is cleared. */
  lemma AddSlotDoneIff(s: Controller, i: nat, luck: Luck)
    requires Inv(s) && i < SLOTS && s.engine.Some?
    ensures AddSlot(s, i, luck).1 == Done <==>
            luck.addOk && (KeyOf(i) in s.world.registry ==> Frees(s, i, KeyOf(i), luck))
  {
    AddSlotByParts(s, i, luck);
    ClearingFrees(s, i, KeyOf(i), luck);
    hide Cleared, Frees, AddSlot, Inv;
  }

  // ---- When re-opening succeeds ----

  /**
   * Slot i's key is free by the time AddCallouts comes to it: its callout is deleted, or none of the
   * slots still to come holds the session under which the key is registered.
   */
  predicate WillBeFree(s: Controller, i: nat, luck: Luck)
    requires Shaped(s) && i < SLOTS
  {
    KeyOf(i) in s.world.registry ==>
      || (s.slots[i].id != 0 && luck.deleteOk)
      || forall j :: i < j < SLOTS ==> s.slots[j].handle != Some(s.world.registry[KeyOf(i)])
  }

  predicate CanAdd(s: Controller, i: nat, luck: Luck)
    requires Shaped(s) && i < SLOTS
  {
    luck.addOk && WillBeFree(s, i, luck)
  }

  /** Slots below i are done: they hold the engine's session, to which no key of the others belongs. */
  predicate Underway(s: Controller, i: nat)
    requires Shaped(s) && i <= SLOTS
  {
    && s.engine.Some?
    && (forall j :: 0 <= j < i ==> s.slots[j].handle == s.engine)
    && (forall j :: i <= j < SLOTS ==> s.slots[j].handle != s.engine)
    && (forall j :: i <= j < SLOTS && KeyOf(j) in s.world.registry ==> Some(s.world.registry[KeyOf(j)]) != s.engine)
  }

  lemma HeldFrom(s: Controller, i: nat, h: Session)
    requires Shaped(s) && i < SLOTS && Underway(s, i) && s.engine != Some(h)
    ensures Held(s, None, h) == Points(s.slots[i].handle, h) <==>
            forall j :: i < j < SLOTS ==> s.slots[j].handle != Some(h)
  {
    assert i == 0 || i == 1 || i == 2 || i == 3;
  }

  lemma SlotDoneIff(s: Controller, i: nat, luck: Luck)
    requires Inv(s) && i < SLOTS && Underway(s, i)
    ensures AddSlot(s, i, luck).1 == Done <==> CanAdd(s, i, luck)
  {
    AddSlotDoneIff(s, i, luck);
    assert Registered(s, i);
    if KeyOf(i) in s.world.registry {
      HeldFrom(s, i, s.world.registry[KeyOf(i)]);
    }
    hide AddSlot, Held, Underway, Counted, RegistryHeld, AllRegistered;
  }

  lemma ReleaseRegistry(w: World, h: Session, k: Key)
    ensures k in w.Release(h).registry ==> k in w.registry && w.Release(h).registry[k] == w.registry[k]
  {
  }

  /** Clearing a slot changes no registration that it leaves. */
  lemma ClearingLeaves(s: Controller, i: nat, luck: Luck, k: Key)
    requires Shaped(s) && i < SLOTS && s.engine.Some?
    ensures k in Cleared(s, i, luck).world.registry ==>
              k in s.world.registry && Cleared(s, i, luck).world.registry[k] == s.world.registry[k]
  {
    var c := s.slots[i];
    var w := s.world.Retain(s.engine.value);
    if c.handle.Some? {
      ReleaseRegistry(w, c.handle.value, k);
      ReleaseRegistry(w.Delete(c.key, luck), c.handle.value, k);
    }
    hide World.Release;
  }

  /** What the adder of slot i leaves registered of the others. */
  lemma OthersRegistered(s: Controller, i: nat, luck: Luck, k: Key)
    requires Inv(s) && i < SLOTS && s.engine.Some? && AddSlot(s, i, luck).1 == Done && k != KeyOf(i)
    ensures var w := AddSlot(s, i, luck).0.world;
            && (k in w.registry <==> k in s.world.registry && !Frees(s, i, k, luck))
            && (k in w.registry ==> w.registry[k] == s.world.registry[k])
  {
    AddSlotByParts(s, i, luck);
    ClearingFrees(s, i, k, luck);
    ClearingLeaves(s, i, luck, k);
    hide Cleared, Frees, AddSlot, Inv;
  }

  /** The next slot: the conditions of the slots after it do not change. */
  lemma StillUnderway(s: Controller, i: nat, luck: Luck)
    requires Inv(s) && i < SLOTS && Underway(s, i) && AddSlot(s, i, luck).1 == Done
    ensures var s1 := AddSlot(s, i, luck).0; Inv(s1) && Underway(s1, i + 1)
  {
    AddSlotKeeps(s, i, luck);
    hide AddSlot, Inv;
    forall j | i < j < SLOTS
      ensures var s1 := AddSlot(s, i, luck).0;
              KeyOf(j) in s1.world.registry ==> Some(s1.world.registry[KeyOf(j)]) != s1.engine
    {
      OthersRegistered(s, i, luck, KeyOf(j));
    }
  }

  lemma SameCondition(s: Controller, i: nat, luck: Luck, j: nat, other: Luck)
    requires Inv(s) && i < j < SLOTS && Underway(s, i) && AddSlot(s, i, luck).1 == Done
    ensures var s1 := AddSlot(s, i, luck).0; Shaped(s1) && (CanAdd(s1, j, other) <==> CanAdd(s, j, other))
  {
    AddSlotKeeps(s, i, luck);
    OthersRegistered(s, i, luck, KeyOf(j));
    assert Registered(s, i);
    if KeyOf(j) in s.world.registry {
      HeldFrom(s, i, s.world.registry[KeyOf(j)]);
    }
    hide AddSlot, Inv, Held;
  }

  lemma {:induction false} AddFromDoneIff(s: Controller, i: nat, lucks: seq<Luck>)
    requires Inv(s) && i <= SLOTS && |lucks| == SLOTS && Underway(s, i)
    ensures AddFrom(s, i, lucks).1 == Done <==> forall j :: i <= j < SLOTS ==> CanAdd(s, j, lucks[j])
    decreases SLOTS - i
  {
    if i < SLOTS {
      SlotDoneIff(s, i, lucks[i]);
      hide AddSlot, Inv, CanAdd, Underway;
      if AddSlot(s, i, lucks[i]).1 == Done {
        StillUnderway(s, i, lucks[i]);
        AddFromDoneIff(AddSlot(s, i, lucks[i]).0, i + 1, lucks);
        forall j | i < j < SLOTS
          ensures CanAdd(AddSlot(s, i, lucks[i]).0, j, lucks[j]) <==> CanAdd(s, j, lucks[j])
        {
          SameCondition(s, i, lucks[i], j, lucks[j]);
        }
      }
    }
  }

  lemma OpenUnderway(s: Controller)
    requires Inv(s)
    ensures Inv(OpenFilterEngine(s, true).0) && Underway(OpenFilterEngine(s, true).0, 0)
  {
    var h, s1 := s.world.sessions, OpenFilterEngine(s, true).0;
    OpenKeeps(s, true);
    assert Sound(s.world, h, Held(s, None, h));
    forall j | 0 <= j < SLOTS && KeyOf(j) in s1.world.registry
      ensures s1.world.registry[KeyOf(j)] != h
    {
      OpenLeaves(s, KeyOf(j));
      assert s.world.Count(s.world.registry[KeyOf(j)]) > 0;
    }
    HeldBelow(s);
    hide Sound, Held, OpenFilterEngine, World.Count;
  }

  lemma HeldBelow(s: Controller)
    requires Inv(s)
    ensures forall j :: 0 <= j < SLOTS ==> s.slots[j].handle != Some(s.world.sessions)
  {
    assert Sound(s.world, s.world.sessions, Held(s, None, s.world.sessions));
  }

  /** Opening takes a key out of the registry only with the old session, which then no slot holds. */
  lemma OpenLeaves(s: Controller, k: Key)
    requires Inv(s)
    ensures var w := OpenFilterEngine(s, true).0.world;
            && (k in w.registry ==> k in s.world.registry && w.registry[k] == s.world.registry[k])
            && (k in s.world.registry && k !in w.registry ==>
                  forall j :: 0 <= j < SLOTS ==> s.slots[j].handle != Some(s.world.registry[k]))
  {
    var h := s.world.sessions;
    match s.engine {
      case None =>
      case Some(e) =>
        assert Sound(s.world, e, Held(s, None, e));
        ReleaseFrees(s.world.Open(), e, k);
        ReleaseRegistry(s.world.Open(), e, k);
        if s.world.Count(e) <= 1 {
          HeldByEngine(s, e);
        }
        hide Held, World.Release;
    }
  }

  lemma HeldByEngine(s: Controller, h: Session)
    requires Shaped(s) && s.engine == Some(h) && Held(s, None, h) <= 1
    ensures forall j :: 0 <= j < SLOTS ==> s.slots[j].handle != Some(h)
  {
  }

  lemma OpenKeepsCondition(s: Controller, i: nat, luck: Luck)
    requires Inv(s) && i < SLOTS
    ensures var s1 := OpenFilterEngine(s, true).0;
            Shaped(s1) && (CanAdd(s1, i, luck) <==> CanAdd(s, i, luck))
  {
    OpenKeeps(s, true);
    OpenLeaves(s, KeyOf(i));
    hide OpenFilterEngine, Inv;
  }

  /**
   * Re-opening and adding all callouts succeeds exactly if the platform accepts every callout and each
   * key that is still registered is deleted or no later slot keeps its session alive.
   */
  lemma ReopenSucceedsIff(s: Controller, lucks: seq<Luck>)
    requires Inv(s) && |lucks| == SLOTS
    ensures var s1 := OpenFilterEngine(s, true).0;
            && Shaped(s1)
            && (AddCallouts(s1, lucks).1 == Done <==> forall i :: 0 <= i < SLOTS ==> CanAdd(s, i, lucks[i]))
  {
    OpenKeeps(s, true);
    OpenUnderway(s);
    var s1 := OpenFilterEngine(s, true).0;
    AddFromDoneIff(s1, 0, lucks);
    forall i | 0 <= i < SLOTS
      ensures CanAdd(s1, i, lucks[i]) <==> CanAdd(s, i, lucks[i])
    {
      OpenKeepsCondition(s, i, lucks[i]);
    }
    hide Inv, CanAdd, Underway, OpenFilterEngine, AddFrom;
  }

  // ---- Runs without a failed Add ----

  predicate Clean(s: Controller)
    requires Shaped(s)
  {
    && (forall i :: 0 <= i < SLOTS ==> s.slots[i].id != 0 || s.slots[i].handle == None)
    && (s.engine == None ==> forall i :: 0 <= i < SLOTS ==> s.slots[i].handle == None)
  }

  predicate Adds(c: Command) {
    c.AddOne? || c.AddAll?
  }

  /** No adder that got as far as the platform failed. */
  ghost predicate NoFailedAdd(cmds: seq<Command>)
    requires AllWellFormed(cmds)
  {
    forall n | 0 <= n < |cmds| && Adds(cmds[n]) :: Exec(Play(cmds[..n]), cmds[n]).1 != PlatformError
  }

  lemma CleanStep(s: Controller, c: Command)
    requires Inv(s) && Clean(s) && WellFormed(c) && (Adds(c) ==> Exec(s, c).1 != PlatformError)
    ensures Shaped(Exec(s, c).0) && Clean(Exec(s, c).0)
  {
    match c {
      case OpenEngine(ok) => OpenKeeps(s, ok);
      case AddOne(i, luck) => AddSlotKeeps(s, i, luck);
      case AddAll(lucks) =>
        if s.engine.Some? {
          AddFromKeeps(s, 0, lucks);
        }
      case CloseEngine(lucks) =>
        if s.engine.Some? {
          CloseKeeps(s, lucks);
        }
    }
  }

  lemma {:induction false} CleanRun(cmds: seq<Command>)
    requires AllWellFormed(cmds) && NoFailedAdd(cmds)
    ensures Clean(Play(cmds))
  {
    if cmds != [] {
      var n := |cmds| - 1;
      var before := cmds[..n];
      assert forall k :: 0 <= k < n ==> before[k] == cmds[k] && before[..k] == cmds[..k];
      CleanRun(before);
      PlayKeeps(before);
      CleanStep(Play(before), cmds[n]);
    }
  }

  /** Closing after such a run leaves nothing registered, whichever deletions fail. */
  lemma {:induction false} CloseAfterCleanRun(cmds: seq<Command>, lucks: seq<Luck>)
    requires AllWellFormed(cmds) && NoFailedAdd(cmds) && |lucks| == SLOTS
    ensures AllClosed(Close(Play(cmds), lucks).world)
  {
    var s := Play(cmds);
    CleanRun(cmds);
    PlayKeeps(cmds);
    hide Play, NoFailedAdd, AllClosed;
    CloseCompletesIff(s, lucks);
  }

  lemma NothingPointed(s: Controller)
    requires Inv(s) && s.engine == None && forall i :: 0 <= i < SLOTS ==> s.slots[i].handle == None
    ensures AllClosed(s.world)
  {
    hide AllClosed, IsOpen;
    forall h: nat
      ensures !IsOpen(s.world, h)
    {
      OpenIffHeld(s, h);
    }
    NothingOpen(s);
  }

  // ---- A run with a failed Add ----

  function FailedAdd(luck: Luck): seq<Command> {
    [OpenEngine(true), AddOne(0, luck)]
  }

  lemma PlayOne(cmds: seq<Command>, c: Command)
    requires AllWellFormed(cmds) && WellFormed(c)
    ensures AllWellFormed(cmds + [c]) && Play(cmds + [c]) == Exec(Play(cmds), c).0
  {
    assert (cmds + [c])[..|cmds|] == cmds;
    hide Exec;
  }

  lemma AfterFailedAdd(luck: Luck)
    requires !luck.addOk
    ensures AllWellFormed(FailedAdd(luck))
    ensures var s := Play(FailedAdd(luck)); s.engine == Some(0) && s.slots[0] == Callout(KeyOf(0), Some(0), 0)
  {
    assert [] + [OpenEngine(true)] == [OpenEngine(true)];
    assert [OpenEngine(true)] + [AddOne(0, luck)] == FailedAdd(luck);
    PlayOne([], OpenEngine(true));
    PlayOne([OpenEngine(true)], AddOne(0, luck));
    FreshInv();
    OpenKeeps(FRESH, true);
    var s := Play([OpenEngine(true)]);
    PlayKeeps([OpenEngine(true)]);
    AddSlotKeeps(s, 0, luck);
    AddSlotDoneIff(s, 0, luck);
    hide Inv, AddSlot, OpenFilterEngine, Frees, Play;
  }

  /** Closing after it, once or twice, leaves session 0 open. */
  lemma FailedAddOutlivesClose(luck: Luck, lucks: seq<Luck>, again: seq<Luck>)
    requires !luck.addOk && |lucks| == SLOTS && |again| == SLOTS
    ensures AllWellFormed(FailedAdd(luck))
    ensures var once := Close(Play(FailedAdd(luck)), lucks);
            && Shaped(once) && once.engine == None && IsOpen(once.world, 0) && !AllClosed(once.world)
            && var twice := Close(once, again); IsOpen(twice.world, 0) && !AllClosed(twice.world)
  {
    AfterFailedAdd(luck);
    PlayKeeps(FailedAdd(luck));
    var s := Play(FailedAdd(luck));
    CloseKeeps(s, lucks);
    var once := Close(s, lucks);
    assert Stuck(s.slots[0], 0) && once.slots[0].handle == Some(0);
    CloseHolds(s, lucks, 0);
    OpenIsNotAllClosed(once.world, 0);
    CloseHolds(once, again, 0);
    OpenIsNotAllClosed(Close(once, again).world, 0);
    hide Inv, Play, Close, IsOpen, AllClosed;
  }

  // ---- Destruction ----

  lemma DestroySlotKeeps(s: Controller, i: nat, luck: Luck)
    requires Inv(s) && i < SLOTS
    ensures var s' := DestroySlot(s, i, luck);
            && Inv(s') && s'.engine == s.engine && s'.slots == s.slots[i := NO_CALLOUT]
  {
    RemoveSlotKeeps(s, None, i, luck);
    var s1 := RemoveSlot(s, i, luck);
    DropSlotHandle(s1, None, i);
    var s2 := PutHandle(s1, i, None).(world := s1.world.Drop(s1.slots[i].handle));
    EmptySlotKeeps(s2, i);
    hide World.Release, World.Delete, InvWith;
    assert s2.slots[i := NO_CALLOUT] == s.slots[i := NO_CALLOUT];
    assert DestroySlot(s, i, luck) == Fill(s2, i, NO_CALLOUT);
  }

  lemma EmptySlotKeeps(s: Controller, i: nat)
    requires Inv(s) && i < SLOTS && s.slots[i].id == 0 && s.slots[i].handle == None
    ensures Inv(Fill(s, i, NO_CALLOUT))
  {
    var s' := Fill(s, i, NO_CALLOUT);
    forall x: nat
      ensures Sound(s'.world, x, Held(s', None, x))
    {
      assert Sound(s.world, x, Held(s, None, x));
      hide Sound;
      HeldPut(s, None, i, None, x);
    }
    hide Held, Sound;
    forall j | 0 <= j < SLOTS
      ensures Registered(s', j)
    {
      assert Registered(s, j);
    }
  }

  /** Destroying the engine closes every session, also those that a failed Add left held. */
  lemma DestroyClosesAll(s: Controller, lucks: seq<Luck>)
    requires Inv(s) && |lucks| == SLOTS
    ensures AllClosed(DestroyEngine(s, lucks).world)
  {
    if s.engine.Some? {
      CloseKeeps(s, lucks);
    }
    var s1 := Close(s, lucks);
    DestroySlotKeeps(s1, 0, lucks[0]);
    var s2 := DestroySlot(s1, 0, lucks[0]);
    DestroySlotKeeps(s2, 3, lucks[3]);
    var s3 := DestroySlot(s2, 3, lucks[3]);
    DestroySlotKeeps(s3, 2, lucks[2]);
    var s4 := DestroySlot(s3, 2, lucks[2]);
    DestroySlotKeeps(s4, 1, lucks[1]);
    var s5 := DestroySlot(s4, 1, lucks[1]);
    hide InvWith, DestroySlot, Close, AllClosed, RemoveSlot;
    NothingPointed(s5);
    assert s5.(world := s5.world.Drop(s5.engine), engine := None).world == s5.world;
  }

  lemma {:induction false} DestroyAfterAnyRun(cmds: seq<Command>, lucks: seq<Luck>)
    requires AllWellFormed(cmds) && |lucks| == SLOTS
    ensures AllClosed(DestroyEngine(Play(cmds), lucks).world)
  {
    PlayKeeps(cmds);
    hide Play, AllClosed, DestroyEngine;
    DestroyClosesAll(Play(cmds), lucks);
  }
}
