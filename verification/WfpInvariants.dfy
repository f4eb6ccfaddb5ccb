/** What every controller command keeps: pointer counts, single closes, and the callout registry. */
module WfpInvariants {
  import opened Options
  import opened WfpModel

  function Points(p: Pointer, h: Session): nat {
    if p == Some(h) then 1 else 0
  }

  /** The pointers to h that the engine, its slots and the temporary `t` are. */
  function Held(s: Controller, t: Pointer, h: Session): nat
    requires Shaped(s)
  {
    Points(s.engine, h) + Points(t, h)
    + Points(s.slots[0].handle, h) + Points(s.slots[1].handle, h)
    + Points(s.slots[2].handle, h) + Points(s.slots[3].handle, h)
  }

  /** The count of h is n, and h was closed once if it was opened and has no pointer left, else never. */
  predicate Sound(w: World, h: Session, n: nat) {
    && w.Count(h) == n
    && (n > 0 ==> h < w.sessions)
    && multiset(w.closes)[h] == if h < w.sessions && n == 0 then 1 else 0
  }

  ghost predicate Counted(s: Controller, t: Pointer) {
    Shaped(s) && forall h: nat :: Sound(s.world, h, Held(s, t, h))
  }

  predicate RegistryHeld(w: World) {
    forall k :: k in w.registry ==> w.Count(w.registry[k]) > 0
  }

  /** An added callout holds the session through which its key is registered. */
  predicate Registered(s: Controller, i: nat)
    requires Shaped(s) && i < SLOTS
  {
    var c := s.slots[i];
    c.id != 0 ==>
      && c.key == KeyOf(i) && c.handle.Some?
      && c.key in s.world.registry && s.world.registry[c.key] == c.handle.value
  }

  predicate AllRegistered(s: Controller) {
    Shaped(s) && forall i :: 0 <= i < SLOTS ==> Registered(s, i)
  }

  ghost predicate InvWith(s: Controller, t: Pointer) {
    Counted(s, t) && RegistryHeld(s.world) && AllRegistered(s)
  }

  ghost predicate Inv(s: Controller) {
    InvWith(s, None)
  }

  // ---- Pointers ----

  lemma ReleaseSound(w: World, h: Session, x: Session, n: nat)
    requires Sound(w, h, w.Count(h)) && w.Count(h) >= 1 && Sound(w, x, n)
    ensures n >= Points(Some(h), x)
    ensures Sound(w.Release(h), x, n - Points(Some(h), x))
  {
  }

  lemma RetainSound(w: World, h: Session, x: Session, n: nat)
    requires Sound(w, h, w.Count(h)) && w.Count(h) >= 1 && Sound(w, x, n)
    ensures Sound(w.Retain(h), x, n + Points(Some(h), x))
  {
  }

  lemma OpenSound(w: World, x: Session, n: nat)
    requires Sound(w, x, n)
    ensures Sound(w.Open(), x, n + Points(Some(w.sessions), x))
  {
  }

  function PutHandle(s: Controller, i: nat, p: Pointer): Controller
    requires Shaped(s) && i < SLOTS
  {
    s.(slots := s.slots[i := s.slots[i].(handle := p)])
  }

  lemma HeldPut(s: Controller, t: Pointer, i: nat, p: Pointer, x: Session)
    requires Shaped(s) && i < SLOTS
    ensures Held(PutHandle(s, i, p), t, x) + Points(s.slots[i].handle, x) == Held(s, t, x) + Points(p, x)
  {
  }

  lemma ReleaseCounted(s: Controller, t: Pointer, h: Session, s': Controller, t': Pointer)
    requires Counted(s, t) && Shaped(s') && s.world.Count(h) >= 1
    requires s'.world == s.world.Release(h)
    requires forall x: nat :: Held(s', t', x) + Points(Some(h), x) == Held(s, t, x)
    ensures Counted(s', t')
  {
    forall x: nat
      ensures Sound(s'.world, x, Held(s', t', x))
    {
      assert Sound(s.world, h, Held(s, t, h)) && Sound(s.world, x, Held(s, t, x));
      ReleaseSound(s.world, h, x, Held(s, t, x));
    }
  }

  /** Releasing one of several pointers leaves every other callout's registration alone. */
  lemma ReleaseRegistered(s: Controller, t: Pointer, h: Session, s': Controller, t': Pointer)
    requires Counted(s, t) && RegistryHeld(s.world) && AllRegistered(s)
    requires Counted(s', t') && s'.world == s.world.Release(h)
    requires forall j :: 0 <= j < SLOTS ==> s'.slots[j].id != 0 ==> s'.slots[j] == s.slots[j]
    ensures RegistryHeld(s'.world) && AllRegistered(s')
  {
    forall j | 0 <= j < SLOTS
      ensures Registered(s', j)
    {
      assert Registered(s, j);
      if s'.slots[j].id != 0 {
        var g := s'.slots[j].handle.value;
        assert Held(s', t', g) >= 1 && Sound(s'.world, g, Held(s', t', g));
      }
    }
  }

  /** Letting go of a slot's pointer. */
  lemma DropSlotHandle(s: Controller, t: Pointer, i: nat)
    requires InvWith(s, t) && i < SLOTS && s.slots[i].id == 0
    ensures InvWith(PutHandle(s, i, None).(world := s.world.Drop(s.slots[i].handle)), t)
  {
    var s' := PutHandle(s, i, None).(world := s.world.Drop(s.slots[i].handle));
    match s.slots[i].handle {
      case None =>
        assert s' == s;
      case Some(h) =>
        assert Sound(s.world, h, Held(s, t, h));
        HeldPut(s, t, i, None, h);
        forall x: nat
          ensures Held(s', t, x) + Points(Some(h), x) == Held(s, t, x)
        {
          HeldPut(s, t, i, None, x);
        }
        hide Held, Sound, Registered, World.Release;
        ReleaseCounted(s, t, h, s', t);
        ReleaseRegistered(s, t, h, s', t);
    }
  }

  /** Unregistering a slot's key, or failing to. */
  lemma DeleteSlotKey(s: Controller, t: Pointer, i: nat, luck: Luck)
    requires InvWith(s, t) && i < SLOTS && s.slots[i].id != 0
    ensures InvWith(s.(world := s.world.Delete(s.slots[i].key, luck), slots := s.slots[i := s.slots[i].(id := 0)]), t)
  {
    var s' := s.(world := s.world.Delete(s.slots[i].key, luck), slots := s.slots[i := s.slots[i].(id := 0)]);
    forall x: nat
      ensures Sound(s'.world, x, Held(s', t, x))
    {
      assert Sound(s.world, x, Held(s, t, x));
    }
    hide Held, Sound;
    assert Registered(s, i);
    forall j | 0 <= j < SLOTS
      ensures Registered(s', j)
    {
      assert Registered(s, j);
    }
  }

  /** After it the slot is not added, and has no handle if it was. */
  lemma RemoveSlotKeeps(s: Controller, t: Pointer, i: nat, luck: Luck)
    requires InvWith(s, t) && i < SLOTS
    ensures InvWith(RemoveSlot(s, i, luck), t)
    ensures RemoveSlot(s, i, luck).slots[i]
         == if s.slots[i].id == 0 then s.slots[i] else Callout(s.slots[i].key, None, 0)
  {
    assert Registered(s, i);
    if s.slots[i].id == 0 {
      assert RemoveSlot(s, i, luck) == s;
    } else {
      DeleteSlotKey(s, t, i, luck);
      var s' := s.(world := s.world.Delete(s.slots[i].key, luck), slots := s.slots[i := s.slots[i].(id := 0)]);
      DropSlotHandle(s', t, i);
      hide Held, Sound, World.Release, World.Delete, Counted, RegistryHeld, AllRegistered;
      assert PutHandle(s', i, None).slots == s.slots[i := Callout(s.slots[i].key, None, 0)];
    }
  }

  /** A further pointer to the engine's session, held by a temporary. */
  lemma RetainKeeps(s: Controller, h: Session)
    requires Inv(s) && s.engine == Some(h)
    ensures InvWith(s.(world := s.world.Retain(h)), Some(h))
  {
    var s' := s.(world := s.world.Retain(h));
    assert Sound(s.world, h, Held(s, None, h));
    forall x: nat
      ensures Sound(s'.world, x, Held(s', Some(h), x))
    {
      assert Sound(s.world, x, Held(s, None, x));
      RetainSound(s.world, h, x, Held(s, None, x));
    }
    hide Held, Sound;
    forall j | 0 <= j < SLOTS
      ensures Registered(s', j)
    {
      assert Registered(s, j);
    }
  }

  function Fill(s: Controller, i: nat, c: Callout): Controller
    requires Shaped(s) && i < SLOTS
  {
    s.(slots := s.slots[i := c])
  }

  /** The temporary's pointer becomes that of an empty slot. */
  lemma FillKeeps(s: Controller, h: Session, i: nat)
    requires InvWith(s, Some(h)) && i < SLOTS && s.slots[i].handle == None
    ensures Inv(Fill(s, i, Callout(KeyOf(i), Some(h), 0)))
  {
    var s' := Fill(s, i, Callout(KeyOf(i), Some(h), 0));
    forall x: nat
      ensures Sound(s'.world, x, Held(s', None, x))
    {
      assert Sound(s.world, x, Held(s, Some(h), x));
      hide Sound;
      HeldPut(s, None, i, Some(h), x);
    }
    hide Held, Sound;
    forall j | 0 <= j < SLOTS
      ensures Registered(s', j)
    {
      assert Registered(s, j);
    }
  }

  /** Adding through a held session under a key nobody has. */
  lemma AddKeeps(s: Controller, i: nat, luck: Luck)
    requires Inv(s) && i < SLOTS && s.slots[i].key == KeyOf(i) && s.slots[i].id == 0
    ensures var (w, c, outcome) := Add(s.world, s.slots[i], luck);
            && Inv(Fill(s, i, c).(world := w))
            && (outcome == Done ==> c == Callout(KeyOf(i), s.slots[i].handle, luck.id))
            && (outcome != Done ==> c == s.slots[i] && w == s.world)
  {
    var (w, c, outcome) := Add(s.world, s.slots[i], luck);
    var s' := Fill(s, i, c).(world := w);
    if outcome == Done {
      var h := s.slots[i].handle.value;
      assert Sound(s.world, h, Held(s, None, h)) && Held(s, None, h) >= 1;
      forall x: nat
        ensures Sound(s'.world, x, Held(s', None, x))
      {
        assert Sound(s.world, x, Held(s, None, x));
      }
      hide Held, Sound;
      forall j | 0 <= j < SLOTS
        ensures Registered(s', j)
      {
        assert Registered(s, j);
      }
    } else {
      assert s' == s;
    }
  }

  /** The slot cleared for its new callout, seen from the outside. */
  function Cleared(s: Controller, i: nat, luck: Luck): Controller
    requires Shaped(s) && i < SLOTS && s.engine.Some?
  {
    var s1 := RemoveSlot(s.(world := s.world.Retain(s.engine.value)), i, luck);
    PutHandle(s1, i, None).(world := s1.world.Drop(s1.slots[i].handle))
  }

  lemma AddSlotByParts(s: Controller, i: nat, luck: Luck)
    requires Shaped(s) && i < SLOTS && s.engine.Some?
    ensures var s1 := Fill(Cleared(s, i, luck), i, Callout(KeyOf(i), s.engine, 0));
            var (w, c, outcome) := Add(s1.world, s1.slots[i], luck);
            AddSlot(s, i, luck) == (Fill(s1, i, c).(world := w), outcome)
  {
    hide World.Release, World.Delete, World.Retain;
    var (w, c) := Assign(s.world.Retain(s.engine.value), s.slots[i], Callout(KeyOf(i), s.engine, 0), luck);
    var s1 := Fill(Cleared(s, i, luck), i, Callout(KeyOf(i), s.engine, 0));
    assert s1.world == w && s1.slots == s.slots[i := c] && s1.slots[i] == c;
    var (w', c', outcome) := Add(w, c, luck);
    assert s1.slots[i := c'] == s.slots[i := c'];
  }

  /** What an adder does to the rest: a done one leaves its slot added through the engine's session. */
  lemma AddSlotKeeps(s: Controller, i: nat, luck: Luck)
    requires Inv(s) && i < SLOTS
    ensures var (s', outcome) := AddSlot(s, i, luck);
            && Inv(s') && s'.engine == s.engine && s'.world.sessions == s.world.sessions
            && (forall j :: 0 <= j < SLOTS && j != i ==> s'.slots[j] == s.slots[j])
            && (outcome == InvalidArgument <==> s.engine.None?)
            && (outcome == InvalidArgument ==> s' == s)
            && (outcome == Done ==> s'.slots[i] == Callout(KeyOf(i), s.engine, luck.id))
            && (outcome == PlatformError ==> s'.slots[i] == Callout(KeyOf(i), s.engine, 0))
  {
    if s.engine.Some? {
      var h := s.engine.value;
      var s0 := s.(world := s.world.Retain(h));
      RetainKeeps(s, h);
      RemoveSlotKeeps(s0, Some(h), i, luck);
      var s1 := RemoveSlot(s0, i, luck);
      DropSlotHandle(s1, Some(h), i);
      var s2 := PutHandle(s1, i, None).(world := s1.world.Drop(s1.slots[i].handle));
      FillKeeps(s2, h, i);
      var s3 := Fill(s2, i, Callout(KeyOf(i), Some(h), 0));
      AddKeeps(s3, i, luck);
      AddSlotByParts(s, i, luck);
      AddSlotFrame(s, i, luck);
      hide InvWith, AddSlot, World.Release, World.Retain, RemoveSlot;
    }
  }

  lemma AddSlotFrame(s: Controller, i: nat, luck: Luck)
    requires Shaped(s) && i < SLOTS
    ensures var s' := AddSlot(s, i, luck).0;
            && s'.engine == s.engine && s'.world.sessions == s.world.sessions
            && forall j :: 0 <= j < SLOTS && j != i ==> s'.slots[j] == s.slots[j]
  {
  }
}
