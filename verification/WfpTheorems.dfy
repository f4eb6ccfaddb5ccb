/** What the controller promises over every sequence of its commands. */
module WfpTheorems {
  import opened Options
  import opened WfpModel
  import opened WfpInvariants

  // ---- Open and close ----

  /** The engine's pointer goes; the temporary's, if any, takes its place. */
  lemma DropEngineKeeps(s: Controller, t: Pointer)
    requires InvWith(s, t)
    ensures Inv(Controller(s.world.Drop(s.engine), t, s.slots))
  {
    var s' := Controller(s.world.Drop(s.engine), t, s.slots);
    match s.engine {
      case None =>
        forall x: nat
          ensures Sound(s'.world, x, Held(s', None, x))
        {
          assert Sound(s.world, x, Held(s, t, x));
        }
        hide Held, Sound;
        forall j | 0 <= j < SLOTS
          ensures Registered(s', j)
        {
          assert Registered(s, j);
        }
      case Some(h) =>
        assert Sound(s.world, h, Held(s, t, h));
        assert forall x: nat :: Held(s', None, x) + Points(Some(h), x) == Held(s, t, x);
        hide Held, Sound, Registered, World.Release;
        ReleaseCounted(s, t, h, s', None);
        ReleaseRegistered(s, t, h, s', None);
    }
  }

  lemma OpenKeeps(s: Controller, ok: bool)
    requires Inv(s)
    ensures var (s', outcome) := OpenFilterEngine(s, ok);
            && Inv(s') && s'.slots == s.slots
            && (ok ==> && outcome == Done
                       && s'.engine == Some(s.world.sessions) && s'.world.sessions == s.world.sessions + 1)
            && (!ok ==> outcome == PlatformError && s' == s)
  {
    if ok {
      var t := Some(s.world.sessions);
      var s1 := s.(world := s.world.Open());
      forall x: nat
        ensures Sound(s1.world, x, Held(s1, t, x))
      {
        assert Sound(s.world, x, Held(s, None, x));
        OpenSound(s.world, x, Held(s, None, x));
      }
      forall j | 0 <= j < SLOTS
        ensures Registered(s1, j)
      {
        assert Registered(s, j);
      }
      assert InvWith(s1, t);
      DropEngineKeeps(s1, t);
    }
  }

  function Emptied(c: Callout): Callout {
    if c.id == 0 then c else Callout(c.key, None, 0)
  }

  /** Close, slot by slot. */
  lemma CloseKeeps(s: Controller, lucks: seq<Luck>)
    requires Inv(s) && |lucks| == SLOTS && s.engine.Some?
    ensures var s' := Close(s, lucks);
            && Inv(s') && s'.engine == None && s'.world.sessions == s.world.sessions
            && forall i :: 0 <= i < SLOTS ==> s'.slots[i] == Emptied(s.slots[i])
  {
    var s1 := RemoveSlot(s, 1, lucks[1]);
    RemoveSlotKeeps(s, None, 1, lucks[1]);
    RemoveSlotFrame(s, 1, lucks[1]);
    var s2 := RemoveSlot(s1, 2, lucks[2]);
    RemoveSlotKeeps(s1, None, 2, lucks[2]);
    RemoveSlotFrame(s1, 2, lucks[2]);
    var s3 := RemoveSlot(s2, 3, lucks[3]);
    RemoveSlotKeeps(s2, None, 3, lucks[3]);
    RemoveSlotFrame(s2, 3, lucks[3]);
    var s4 := RemoveSlot(s3, 0, lucks[0]);
    RemoveSlotKeeps(s3, None, 0, lucks[0]);
    RemoveSlotFrame(s3, 0, lucks[0]);
    DropEngineKeeps(s4, None);
    hide InvWith, RemoveSlot;
  }

  lemma RemoveSlotFrame(s: Controller, i: nat, luck: Luck)
    requires Shaped(s) && i < SLOTS
    ensures var s' := RemoveSlot(s, i, luck);
            && s'.engine == s.engine && s'.world.sessions == s.world.sessions
            && forall j :: 0 <= j < SLOTS && j != i ==> s'.slots[j] == s.slots[j]
  {
  }

  predicate IsOpen(w: World, h: Session) {
    h < w.sessions && h !in w.closes
  }

  /** A session is open exactly while somebody points at it. */
  lemma OpenIffHeld(s: Controller, h: Session)
    requires Inv(s)
    ensures IsOpen(s.world, h) <==> Held(s, None, h) > 0
  {
    assert Sound(s.world, h, Held(s, None, h));
    hide Held;
  }

  predicate Stuck(c: Callout, h: Session) {
    c.id == 0 && c.handle == Some(h)
  }

  lemma RegistryIsOpen(s: Controller, k: Key)
    requires Inv(s) && k in s.world.registry
    ensures IsOpen(s.world, s.world.registry[k])
  {
    var h := s.world.registry[k];
    assert Sound(s.world, h, Held(s, None, h));
    hide Held;
  }

  predicate AnyStuck(s: Controller, h: Session)
    requires Shaped(s)
  {
    exists i :: 0 <= i < SLOTS && Stuck(s.slots[i], h)
  }

  lemma HeldOnceEmptied(s: Controller, s': Controller, h: Session)
    requires Shaped(s) && Shaped(s') && s'.engine == None
    requires forall i :: 0 <= i < SLOTS ==> s'.slots[i] == Emptied(s.slots[i])
    ensures Held(s', None, h) > 0 <==> AnyStuck(s, h)
  {
    assert forall i :: 0 <= i < SLOTS ==> (Points(s'.slots[i].handle, h) > 0 <==> Stuck(s.slots[i], h));
    if AnyStuck(s, h) {
      var i :| 0 <= i < SLOTS && Stuck(s.slots[i], h);
      assert i == 0 || i == 1 || i == 2 || i == 3;
    }
    hide Stuck, Emptied;
  }

  predicate AnyHolds(s: Controller, h: Session)
    requires Shaped(s)
  {
    exists i :: 0 <= i < SLOTS && s.slots[i].handle == Some(h)
  }

  /** Close, with an engine pointer or without, leaves session h held by a slot. */
  predicate LeavesHeld(s: Controller, h: Session)
    requires Shaped(s)
  {
    if s.engine.Some? then AnyStuck(s, h) else AnyHolds(s, h)
  }

  lemma HeldBySlots(s: Controller, h: Session)
    requires Shaped(s) && s.engine == None
    ensures Held(s, None, h) > 0 <==> AnyHolds(s, h)
  {
    if AnyHolds(s, h) {
      var i :| 0 <= i < SLOTS && s.slots[i].handle == Some(h);
      assert i == 0 || i == 1 || i == 2 || i == 3;
    }
    assert forall i :: 0 <= i < SLOTS ==> (Points(s.slots[i].handle, h) > 0 <==> s.slots[i].handle == Some(h));
  }

  lemma CloseHolds(s: Controller, lucks: seq<Luck>, h: Session)
    requires Inv(s) && |lucks| == SLOTS
    ensures var s' := Close(s, lucks); Inv(s') && (IsOpen(s'.world, h) <==> LeavesHeld(s, h))
  {
    var s' := Close(s, lucks);
    if s.engine.Some? {
      CloseKeeps(s, lucks);
      hide Close, InvWith, Held, IsOpen, AnyStuck;
      OpenIffHeld(s', h);
      HeldOnceEmptied(s, s', h);
    } else {
      hide InvWith, Held, IsOpen, AnyHolds;
      OpenIffHeld(s, h);
      HeldBySlots(s, h);
    }
  }

  /**
   * After Close, whatever became of the deletions, exactly those sessions stay open that a callout
   * whose Add failed still points at, or any callout if the engine had no session; registrations
   * remain only in such sessions.
   */
  lemma CloseLeavesOpen(s: Controller, lucks: seq<Luck>, h: Session)
    requires Inv(s) && |lucks| == SLOTS
    ensures var s' := Close(s, lucks);
            && (IsOpen(s'.world, h) <==> LeavesHeld(s, h))
            && forall k :: k in s'.world.registry ==> LeavesHeld(s, s'.world.registry[k])
  {
    var s' := Close(s, lucks);
    hide Close, InvWith, IsOpen, LeavesHeld;
    CloseHolds(s, lucks, h);
    forall k | k in s'.world.registry
      ensures LeavesHeld(s, s'.world.registry[k])
    {
      RegistryIsOpen(s', k);
      CloseHolds(s, lucks, s'.world.registry[k]);
    }
  }

  /** Nothing is registered, and every session ever opened was closed, once. */
  ghost predicate AllClosed(w: World) {
    w.registry == map[] && forall h: nat :: h < w.sessions ==> multiset(w.closes)[h] == 1
  }

  lemma NothingOpen(s: Controller)
    requires Inv(s) && forall h: nat :: !IsOpen(s.world, h)
    ensures AllClosed(s.world)
  {
    forall h: nat
      ensures h < s.world.sessions ==> multiset(s.world.closes)[h] == 1
    {
      assert Sound(s.world, h, Held(s, None, h)) && !IsOpen(s.world, h);
    }
    forall k
      ensures k !in s.world.registry
    {
      if k in s.world.registry {
        RegistryIsOpen(s, k);
      }
    }
  }

  lemma OpenIsNotAllClosed(w: World, h: Session)
    requires IsOpen(w, h)
    ensures !AllClosed(w)
  {
    assert multiset(w.closes)[h] == 0;
  }

  /** What Close must find: no callout left over from a failed Add, or, without an engine pointer, none with one. */
  predicate Closable(s: Controller)
    requires Shaped(s)
  {
    forall i :: 0 <= i < SLOTS ==> s.slots[i].handle == None || (s.engine.Some? && s.slots[i].id != 0)
  }

  /** Close leaves nothing behind exactly then. */
  lemma CloseCompletesIff(s: Controller, lucks: seq<Luck>)
    requires Inv(s) && |lucks| == SLOTS
    ensures AllClosed(Close(s, lucks).world) <==> Closable(s)
  {
    var s' := Close(s, lucks);
    CloseHolds(s, lucks, 0);
    hide Close, InvWith, IsOpen, AllClosed;
    if Closable(s) {
      forall h: nat
        ensures !IsOpen(s'.world, h)
      {
        CloseHolds(s, lucks, h);
      }
      NothingOpen(s');
    } else {
      var i :| 0 <= i < SLOTS && s.slots[i].handle != None && (s.engine.None? || s.slots[i].id == 0);
      var h := s.slots[i].handle.value;
      assert s.engine.Some? ==> Stuck(s.slots[i], h);
      CloseHolds(s, lucks, h);
      OpenIsNotAllClosed(s'.world, h);
    }
  }

  // ---- Adding all callouts ----

  /** Slots below i are as they were; those from i on are added through the engine's session. */
  predicate FilledFrom(s: Controller, i: nat, lucks: seq<Luck>, s': Controller)
    requires Shaped(s) && Shaped(s') && i <= SLOTS && |lucks| == SLOTS
  {
    forall j :: 0 <= j < SLOTS ==>
                  s'.slots[j] == if j < i then s.slots[j] else Callout(KeyOf(j), s.engine, lucks[j].id)
  }

  lemma FilledStep(s: Controller, i: nat, lucks: seq<Luck>, s1: Controller, s': Controller)
    requires Shaped(s) && Shaped(s1) && Shaped(s') && i < SLOTS && |lucks| == SLOTS
    requires s1.engine == s.engine && s1.slots[i] == Callout(KeyOf(i), s.engine, lucks[i].id)
    requires forall j :: 0 <= j < SLOTS && j != i ==> s1.slots[j] == s.slots[j]
    requires FilledFrom(s1, i + 1, lucks, s')
    ensures FilledFrom(s, i, lucks, s')
  {
  }

  lemma {:induction false} AddFromKeeps(s: Controller, i: nat, lucks: seq<Luck>)
    requires Inv(s) && i <= SLOTS && |lucks| == SLOTS
    ensures var (s', outcome) := AddFrom(s, i, lucks);
            && Inv(s') && s'.engine == s.engine && s'.world.sessions == s.world.sessions
            && (outcome == Done ==> FilledFrom(s, i, lucks, s'))
    decreases SLOTS - i
  {
    if i < SLOTS {
      AddSlotKeeps(s, i, lucks[i]);
      var (s1, outcome) := AddSlot(s, i, lucks[i]);
      hide AddSlot, InvWith;
      if outcome == Done {
        AddFromKeeps(s1, i + 1, lucks);
        var (s', last) := AddFrom(s1, i + 1, lucks);
        if last == Done {
          FilledStep(s, i, lucks, s1, s');
        }
        hide FilledFrom;
      }
    }
  }

  lemma ExecKeeps(s: Controller, c: Command)
    requires Inv(s) && WellFormed(c)
    ensures Inv(Exec(s, c).0)
  {
    match c {
      case OpenEngine(ok) => OpenKeeps(s, ok);
      case AddOne(i, luck) => AddSlotKeeps(s, i, luck);
      case AddAll(lucks) =>
        if s.engine.Some? {
          AddFromKeeps(s, 0, lucks);
        }
      case CloseEngine(lucks) =>
        if s.engine.Some? {
          CloseKeeps(s, lucks);
        }
    }
  }
}
