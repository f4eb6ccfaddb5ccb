/** Which registrations each command leaves, and the state that a failed AddCallouts leaves. */
module WfpRegistry {
  import opened Options
  import opened WfpModel
  import opened WfpInvariants
  import opened WfpTheorems

  /** Every registration is through an open session. */
  predicate RegistryOpen(w: World) {
    forall k :: k in w.registry ==> IsOpen(w, w.registry[k])
  }

  /**
   * No session is opened, and the keys outside `own` that stay registered are exactly those that are not
   * deleted and whose session stays open; each stays with its session.
   */
  ghost predicate Leaves(w: World, w': World, deleted: set<Key>, own: set<Key>) {
    && w'.sessions == w.sessions && w.closes <= w'.closes
    && forall k :: k !in own ==> LeavesKey(w, w', deleted, k)
  }

  predicate LeavesKey(w: World, w': World, deleted: set<Key>, k: Key) {
    && (k in w'.registry <==> k in w.registry && k !in deleted && IsOpen(w', w.registry[k]))
    && (k in w'.registry ==> w'.registry[k] == w.registry[k])
  }

  lemma OpenBefore(w: World, w': World, h: Session)
    requires w'.sessions == w.sessions && w.closes <= w'.closes && IsOpen(w', h)
    ensures IsOpen(w, h)
  {
    assert w'.closes == w.closes + w'.closes[|w.closes|..];
  }

  lemma LeavesBoth(w: World, w1: World, w2: World, d1: set<Key>, d2: set<Key>, o1: set<Key>, o2: set<Key>)
    requires Leaves(w, w1, d1, o1) && Leaves(w1, w2, d2, o2)
    ensures Leaves(w, w2, d1 + d2, o1 + o2)
  {
    hide IsOpen;
    forall k | k !in o1 + o2
      ensures LeavesKey(w, w2, d1 + d2, k)
    {
      assert LeavesKey(w, w1, d1, k) && LeavesKey(w1, w2, d2, k);
      if k in w.registry && IsOpen(w2, w.registry[k]) {
        OpenBefore(w1, w2, w.registry[k]);
      }
    }
  }

  /** The same for steps that have no keys of their own. */
  lemma LeavesOnly(w: World, w1: World, w2: World, d1: set<Key>, d2: set<Key>)
    requires Leaves(w, w1, d1, {}) && Leaves(w1, w2, d2, {})
    ensures Leaves(w, w2, d1 + d2, {})
  {
    LeavesBoth(w, w1, w2, d1, d2, {}, {});
    var none: set<Key> := {};
    assert none + none == none;
    hide Leaves;
  }

  lemma StillOpen(w: World, w': World, deleted: set<Key>, own: set<Key>)
    requires Leaves(w, w', deleted, own) && forall k :: k in own && k in w'.registry ==> IsOpen(w', w'.registry[k])
    ensures RegistryOpen(w')
  {
    forall k | k in w'.registry
      ensures IsOpen(w', w'.registry[k])
    {
      assert k !in own ==> LeavesKey(w, w', deleted, k);
    }
  }

  lemma ReleaseLeaves(w: World, h: Session)
    requires RegistryOpen(w)
    ensures Leaves(w, w.Release(h), {}, {})
  {
    var w' := w.Release(h);
    forall k
      ensures LeavesKey(w, w', {}, k)
    {
      if k in w.registry {
        assert IsOpen(w, w.registry[k]);
      }
    }
  }

  lemma DropLeaves(w: World, p: Pointer)
    requires RegistryOpen(w)
    ensures Leaves(w, w.Drop(p), {}, {}) && RegistryOpen(w.Drop(p))
  {
    if p.Some? {
      ReleaseLeaves(w, p.value);
    }
    hide World.Release;
    StillOpen(w, w.Drop(p), {}, {});
  }

  /** What removing c deletes. */
  function Deleted(c: Callout, luck: Luck): set<Key> {
    if c.id != 0 && c.handle.Some? && luck.deleteOk then {c.key} else {}
  }

  lemma DeleteLeaves(w: World, k: Key, luck: Luck)
    requires RegistryOpen(w)
    ensures Leaves(w, w.Delete(k, luck), if luck.deleteOk then {k} else {}, {}) && RegistryOpen(w.Delete(k, luck))
  {
  }

  lemma RemoveLeaves(w: World, c: Callout, luck: Luck)
    requires RegistryOpen(w)
    ensures var w' := Remove(w, c, luck).0; Leaves(w, w', Deleted(c, luck), {}) && RegistryOpen(w')
  {
    if c.id != 0 && c.handle.Some? {
      DeleteLeaves(w, c.key, luck);
      var w1 := w.Delete(c.key, luck);
      DropLeaves(w1, c.handle);
      LeavesOnly(w, w1, w1.Drop(c.handle), Deleted(c, luck), {});
      assert Deleted(c, luck) + {} == Deleted(c, luck);
    }
    hide World.Release, World.Delete, Leaves, RegistryOpen;
    SameLeaves(w);
  }

  lemma SameLeaves(w: World)
    ensures RegistryOpen(w) ==> Leaves(w, w, {}, {})
  {
  }

  lemma RetainLeaves(w: World, h: Session)
    requires RegistryOpen(w)
    ensures Leaves(w, w.Retain(h), {}, {}) && RegistryOpen(w.Retain(h))
  {
  }

  lemma InvRegistryOpen(s: Controller)
    requires Inv(s)
    ensures RegistryOpen(s.world)
  {
    hide Inv, IsOpen;
    forall k | k in s.world.registry
      ensures IsOpen(s.world, s.world.registry[k])
    {
      RegistryIsOpen(s, k);
    }
  }

  // ---- Close ----

  function AllDeleted(s: Controller, lucks: seq<Luck>): set<Key>
    requires Shaped(s) && |lucks| == SLOTS
  {
    Deleted(s.slots[1], lucks[1]) + Deleted(s.slots[2], lucks[2])
    + Deleted(s.slots[3], lucks[3]) + Deleted(s.slots[0], lucks[0])
  }

  lemma RemoveSlotLeaves(s: Controller, i: nat, luck: Luck)
    requires Shaped(s) && i < SLOTS && RegistryOpen(s.world)
    ensures var s' := RemoveSlot(s, i, luck);
            && Leaves(s.world, s'.world, Deleted(s.slots[i], luck), {}) && RegistryOpen(s'.world)
            && Shaped(s') && s'.engine == s.engine
            && forall j :: 0 <= j < SLOTS && j != i ==> s'.slots[j] == s.slots[j]
  {
    RemoveLeaves(s.world, s.slots[i], luck);
    hide Remove, Leaves, RegistryOpen;
  }

  lemma CloseLeaves(s: Controller, lucks: seq<Luck>)
    requires Shaped(s) && |lucks| == SLOTS && RegistryOpen(s.world) && s.engine.Some?
    ensures Leaves(s.world, Close(s, lucks).world, AllDeleted(s, lucks), {})
  {
    hide RemoveSlot, Leaves, RegistryOpen, Deleted;
    RemoveSlotLeaves(s, 1, lucks[1]);
    var s1 := RemoveSlot(s, 1, lucks[1]);
    RemoveSlotLeaves(s1, 2, lucks[2]);
    var s2 := RemoveSlot(s1, 2, lucks[2]);
    RemoveSlotLeaves(s2, 3, lucks[3]);
    var s3 := RemoveSlot(s2, 3, lucks[3]);
    RemoveSlotLeaves(s3, 0, lucks[0]);
    var s4 := RemoveSlot(s3, 0, lucks[0]);
    DropLeaves(s4.world, s4.engine);
    var d1, d2 := Deleted(s.slots[1], lucks[1]), Deleted(s.slots[2], lucks[2]);
    var d3, d0 := Deleted(s.slots[3], lucks[3]), Deleted(s.slots[0], lucks[0]);
    LeavesOnly(s.world, s1.world, s2.world, d1, d2);
    LeavesOnly(s.world, s2.world, s3.world, d1 + d2, d3);
    LeavesOnly(s.world, s3.world, s4.world, d1 + d2 + d3, d0);
    LeavesOnly(s.world, s4.world, s4.world.Drop(s4.engine), d1 + d2 + d3 + d0, {});
    assert AllDeleted(s, lucks) + {} == AllDeleted(s, lucks);
    hide World.Drop;
  }

  /** The deletion of some slot's callout takes k out of the registry. */
  predicate DeletedBySlot(s: Controller, lucks: seq<Luck>, k: Key)
    requires Shaped(s) && |lucks| == SLOTS
  {
    exists i :: 0 <= i < SLOTS && s.slots[i].id != 0 && s.slots[i].key == k && lucks[i].deleteOk
  }

  lemma DeletedIff(s: Controller, lucks: seq<Luck>, k: Key)
    requires Inv(s) && |lucks| == SLOTS
    ensures k in AllDeleted(s, lucks) <==> DeletedBySlot(s, lucks, k)
  {
    forall i | 0 <= i < SLOTS
      ensures k in Deleted(s.slots[i], lucks[i]) <==> s.slots[i].id != 0 && s.slots[i].key == k && lucks[i].deleteOk
    {
      assert Registered(s, i);
    }
    hide Inv, Deleted, Registered;
    if DeletedBySlot(s, lucks, k) {
      var i :| 0 <= i < SLOTS && s.slots[i].id != 0 && s.slots[i].key == k && lucks[i].deleteOk;
      assert i == 0 || i == 1 || i == 2 || i == 3;
    }
  }

  /**
   * Close with an engine session unregisters exactly the keys whose deletion succeeds and those of the
   * sessions that it closes; without one it changes nothing.
   */
  lemma CloseRegistryIff(s: Controller, lucks: seq<Luck>, k: Key)
    requires Inv(s) && |lucks| == SLOTS
    ensures var s' := Close(s, lucks);
            && (s.engine.None? ==> s' == s)
            && (s.engine.Some? ==>
                  (k in s'.world.registry <==>
                   k in s.world.registry && !DeletedBySlot(s, lucks, k) && LeavesHeld(s, s.world.registry[k])))
            && (k in s'.world.registry ==> k in s.world.registry && s'.world.registry[k] == s.world.registry[k])
  {
    if s.engine.Some? {
      InvRegistryOpen(s);
      CloseLeaves(s, lucks);
      assert LeavesKey(s.world, Close(s, lucks).world, AllDeleted(s, lucks), k);
      DeletedIff(s, lucks, k);
      if k in s.world.registry {
        CloseHolds(s, lucks, s.world.registry[k]);
      }
      hide Inv, Close, LeavesHeld, IsOpen, AllDeleted, DeletedBySlot;
    }
  }

  // ---- AddCallouts ----

  lemma Widen(w: World, w': World, deleted: set<Key>, own: set<Key>, all: set<Key>)
    requires Leaves(w, w', deleted, own) && deleted <= all && own <= all
    ensures Leaves(w, w', {}, all)
  {
    forall k | k !in all
      ensures LeavesKey(w, w', {}, k)
    {
      assert LeavesKey(w, w', deleted, k);
    }
    hide IsOpen;
  }

  lemma AddLeaves(w: World, c: Callout, luck: Luck)
    requires RegistryOpen(w)
    ensures Leaves(w, Add(w, c, luck).0, {}, {c.key})
  {
  }

  /** An adder leaves the registrations of the other slots alone, but for sessions that it closes. */
  lemma AddSlotLeaves(s: Controller, i: nat, luck: Luck)
    requires Inv(s) && i < SLOTS && s.engine.Some?
    ensures Leaves(s.world, AddSlot(s, i, luck).0.world, {}, {KeyOf(i)})
  {
    InvRegistryOpen(s);
    assert Registered(s, i);
    var h, c := s.engine.value, s.slots[i];
    var own := {KeyOf(i)};
    assert Deleted(c, luck) <= own;
    var w1 := s.world.Retain(h);
    RetainLeaves(s.world, h);
    var (w2, c2) := Remove(w1, c, luck);
    RemoveLeaves(w1, c, luck);
    var w3 := w2.Drop(c2.handle);
    DropLeaves(w2, c2.handle);
    var temporary := Callout(KeyOf(i), s.engine, 0);
    AddLeaves(w3, temporary, luck);
    var w4 := Add(w3, temporary, luck).0;
    assert AddSlot(s, i, luck).0.world == w4;
    hide *;
    LeavesOnly(s.world, w1, w2, {}, Deleted(c, luck));
    LeavesOnly(s.world, w2, w3, {} + Deleted(c, luck), {});
    LeavesBoth(s.world, w3, w4, {} + Deleted(c, luck) + {}, {}, {}, {temporary.key});
    Widen(s.world, w4, {} + Deleted(c, luck) + {} + {}, {} + {temporary.key}, own);
  }

  /** The keys of slots i to k. */
  function Keys(i: nat, k: nat): set<Key> {
    set j: nat | i <= j <= k :: KeyOf(j)
  }

  /** Slots i to k - 1 were added, slot k was refused, and the others are as they were. */
  predicate StoppedAt(s: Controller, i: nat, lucks: seq<Luck>, k: nat, s': Controller)
    requires Shaped(s) && Shaped(s') && i <= k < SLOTS && |lucks| == SLOTS
  {
    forall j :: 0 <= j < SLOTS ==>
                  s'.slots[j] == if j < i || k < j then s.slots[j]
                                 else if j == k then Callout(KeyOf(k), s.engine, 0)
                                 else Callout(KeyOf(j), s.engine, lucks[j].id)
  }

  lemma StoppedLater(s: Controller, i: nat, lucks: seq<Luck>, k: nat, s1: Controller, s': Controller)
    requires Shaped(s) && Shaped(s1) && Shaped(s') && i < k < SLOTS && |lucks| == SLOTS
    requires s1.engine == s.engine && s1.slots[i] == Callout(KeyOf(i), s.engine, lucks[i].id)
    requires forall j :: 0 <= j < SLOTS && j != i ==> s1.slots[j] == s.slots[j]
    requires StoppedAt(s1, i + 1, lucks, k, s')
    ensures StoppedAt(s, i, lucks, k, s')
  {
  }

  lemma {:induction false} AddFromStops(s: Controller, i: nat, lucks: seq<Luck>) returns (k: nat)
    requires Inv(s) && i < SLOTS && |lucks| == SLOTS && s.engine.Some? && AddFrom(s, i, lucks).1 != Done
    ensures i <= k < SLOTS
    ensures var (s', outcome) := AddFrom(s, i, lucks);
            && outcome == PlatformError
            && Shaped(s') && s'.engine == s.engine && StoppedAt(s, i, lucks, k, s')
            && Leaves(s.world, s'.world, {}, Keys(i, k))
    decreases SLOTS - i
  {
    AddSlotKeeps(s, i, lucks[i]);
    AddSlotLeaves(s, i, lucks[i]);
    AddFromKeeps(s, i, lucks);
    var (s1, outcome) := AddSlot(s, i, lucks[i]);
    hide AddSlot, Inv, Leaves;
    if outcome == Done {
      k := AddFromStops(s1, i + 1, lucks);
      var s' := AddFrom(s1, i + 1, lucks).0;
      StoppedLater(s, i, lucks, k, s1, s');
      LeavesBoth(s.world, s1.world, s'.world, {}, {}, {KeyOf(i)}, Keys(i + 1, k));
      assert {KeyOf(i)} + Keys(i + 1, k) == Keys(i, k) by {
        hide *;
        KeysStep(i, k);
      }
      hide StoppedAt;
    } else {
      k := i;
      assert Keys(i, i) == {KeyOf(i)};
    }
  }

  lemma KeysStep(i: nat, k: nat)
    requires i < k
    ensures {KeyOf(i)} + Keys(i + 1, k) == Keys(i, k)
  {
  }

  /**
   * AddCallouts without an engine session changes nothing; if it fails otherwise, it stopped at one slot:
   * those before are added, that one has a pointer but no id, and those after it are untouched, their
   * registrations included, but for sessions that were closed.
   */
  lemma AddCalloutsStops(s: Controller, lucks: seq<Luck>)
    requires Inv(s) && |lucks| == SLOTS
    ensures var (s', outcome) := AddCallouts(s, lucks);
            && (outcome == InvalidArgument <==> s.engine.None?)
            && (s.engine.None? ==> s' == s)
            && (outcome == PlatformError ==>
                  exists k :: 0 <= k < SLOTS && Shaped(s') && StoppedAt(s, 0, lucks, k, s')
                              && Leaves(s.world, s'.world, {}, Keys(0, k)))
  {
    if s.engine.Some? && AddFrom(s, 0, lucks).1 != Done {
      var k := AddFromStops(s, 0, lucks);
    }
    hide AddFrom, Inv, StoppedAt, Leaves;
  }
}
