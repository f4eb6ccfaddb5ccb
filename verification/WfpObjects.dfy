/**
 * The classes of the controller as they are written, fields updated in place: each method takes its
 * objects to the state that WfpModel gives.
 */
module WfpObjects {
  import opened Options
  import opened WfpModel
  import WfpRuns
  import WfpTheorems

  /** The filtering platform and the control blocks of the shared session pointers. */
  class Platform {
    var world: World

    constructor ()
      ensures world == FRESH.world
    {
      world := FRESH.world;
    }

    method Drop(p: Pointer)
      modifies this
      ensures world == old(world).Drop(p)
    {
      match p {
        case None =>
        case Some(h) =>
          if world.Count(h) > 1 {
            world := world.(count := world.count[h := world.Count(h) - 1]);
          } else {
            world := world.(count := world.count[h := 0]);
            CloseEngine(h);
          }
      }
    }

    /** FwpmEngineClose0 on a dynamic session. */
    method CloseEngine(h: Session)
      modifies this
      ensures world == old(world).(
                closes := old(world).closes + [h],
                registry := map k | k in old(world).registry && old(world).registry[k] != h :: old(world).registry[k])
    {
      var kept := map k | k in world.registry && world.registry[k] != h :: world.registry[k];
      world := world.(closes := world.closes + [h], registry := kept);
    }
  }

  class Callout {
    var calloutKey: Key
    var engineHandle: Pointer
    var calloutId: nat

    function View(): WfpModel.Callout
      reads this
    {
      WfpModel.Callout(calloutKey, engineHandle, calloutId)
    }

    constructor Empty()
      ensures View() == NO_CALLOUT
    {
      calloutKey, engineHandle, calloutId := 0, None, 0;
    }

    /** Copies the session pointer. */
    constructor (platform: Platform, handle: Session, key: Key)
      modifies platform
      ensures View() == WfpModel.Callout(key, Some(handle), 0)
      ensures platform.world == old(platform.world).Retain(handle)
    {
      calloutKey, engineHandle, calloutId := key, Some(handle), 0;
      new;
      platform.world := platform.world.Retain(handle);
    }

    method Remove(platform: Platform, luck: Luck)
      modifies this, platform
      ensures (platform.world, View()) == WfpModel.Remove(old(platform.world), old(View()), luck)
      ensures if old(calloutId) == 0 || old(engineHandle).None?
              then platform.world == old(platform.world) && View() == old(View())
              else platform.world == old(platform.world.Delete(calloutKey, luck).Release(engineHandle.value))
                   && View() == WfpModel.Callout(old(calloutKey), None, 0)
    {
      if calloutId == 0 || engineHandle.None? {
        return;
      }
      platform.world := platform.world.Delete(calloutKey, luck);
      calloutId := 0;
      platform.Drop(engineHandle);
      engineHandle := None;
    }

    /** Move assignment; the source keeps its key. Moving a callout into itself only forgets its id. */
    method Move(other: Callout, platform: Platform, luck: Luck)
      modifies this, other, platform
      ensures other != this ==>
                && (platform.world, View()) == Assign(old(platform.world), old(View()), old(other.View()), luck)
                && View() == old(other.View())
                && other.View() == old(other.View()).(handle := None, id := 0)
      ensures other == this ==>
                var (w, c) := WfpModel.Remove(old(platform.world), old(View()), luck);
                platform.world == w && View() == c.(id := 0)
    {
      Remove(platform, luck);
      calloutKey := other.calloutKey;
      var moved := other.engineHandle;
      other.engineHandle := None;
      platform.Drop(engineHandle);
      engineHandle := moved;
      var id := other.calloutId;
      other.calloutId := 0;
      calloutId := if other == this then 0 else id;
    }

    method Add(platform: Platform, luck: Luck) returns (outcome: Outcome)
      modifies this, platform
      ensures (platform.world, View(), outcome) == WfpModel.Add(old(platform.world), old(View()), luck)
      ensures outcome == InvalidArgument <==> old(engineHandle).None?
      ensures outcome == Done <==>
              old(engineHandle).Some? && luck.addOk && old(calloutKey) !in old(platform.world).registry
      ensures if outcome == Done
              then View() == old(View()).(id := luck.id)
                   && platform.world.registry
                      == old(platform.world).registry[old(calloutKey) := old(engineHandle).value]
              else View() == old(View()) && platform.world == old(platform.world)
    {
      if engineHandle.None? {
        return InvalidArgument;
      }
      if !platform.world.Accepts(calloutKey, luck) {
        return PlatformError;
      }
      platform.world := platform.world.(registry := platform.world.registry[calloutKey := engineHandle.value]);
      calloutId := luck.id;
      return Done;
    }

    /** The destructor. */
    method Destroy(platform: Platform, luck: Luck)
      modifies this, platform
      ensures platform.world == WfpModel.Destroy(old(platform.world), old(View()), luck)
      ensures View() == NO_CALLOUT
    {
      Remove(platform, luck);
      platform.Drop(engineHandle);
      calloutKey, engineHandle, calloutId := 0, None, 0;
    }
  }

  class WFPEngine {
    const platform: Platform
    const outboundIPv4Callout: Callout
    const inboundICMPErrorCallout: Callout
    const outboundICMPErrorCallout: Callout
    const outboundTCPCallout: Callout
    var engineHandle: Pointer

    ghost function Slots(): set<Callout> {
      {outboundTCPCallout, outboundIPv4Callout, inboundICMPErrorCallout, outboundICMPErrorCallout}
    }

    ghost function Slot(i: nat): Callout
      requires i < SLOTS
    {
      if i == 0 then outboundTCPCallout
      else if i == 1 then outboundIPv4Callout
      else if i == 2 then inboundICMPErrorCallout
      else outboundICMPErrorCallout
    }

    /** The callouts are different objects. */
    ghost predicate Valid() {
      && outboundTCPCallout != outboundIPv4Callout
      && outboundTCPCallout != inboundICMPErrorCallout
      && outboundTCPCallout != outboundICMPErrorCallout
      && outboundIPv4Callout != inboundICMPErrorCallout
      && outboundIPv4Callout != outboundICMPErrorCallout
      && inboundICMPErrorCallout != outboundICMPErrorCallout
    }

    ghost function View(): (s: Controller)
      reads this, platform, Slots()
      ensures Shaped(s)
    {
      Controller(platform.world, engineHandle, [
                   outboundTCPCallout.View(), outboundIPv4Callout.View(),
                   inboundICMPErrorCallout.View(), outboundICMPErrorCallout.View()])
    }

    constructor (p: Platform)
      ensures Valid() && platform == p && fresh(Slots())
      ensures View() == FRESH.(world := p.world)
    {
      platform := p;
      outboundIPv4Callout := new Callout.Empty();
      inboundICMPErrorCallout := new Callout.Empty();
      outboundICMPErrorCallout := new Callout.Empty();
      outboundTCPCallout := new Callout.Empty();
      engineHandle := None;
    }

    method RemoveCallout(ghost i: nat, slot: Callout, luck: Luck)
      requires Valid() && i < SLOTS && slot == Slot(i)
      modifies platform, slot
      ensures View() == RemoveSlot(old(View()), i, luck)
    {
      slot.Remove(platform, luck);
      assert View().slots == old(View()).slots[i := slot.View()];
    }

    method Close(lucks: seq<Luck>)
      requires Valid() && |lucks| == SLOTS
      modifies this, platform, Slots()
      ensures View() == WfpModel.Close(old(View()), lucks)
    {
      hide RemoveSlot;
      if engineHandle.None? {
        return;
      }
      RemoveCallout(1, outboundIPv4Callout, lucks[1]);
      RemoveCallout(2, inboundICMPErrorCallout, lucks[2]);
      RemoveCallout(3, outboundICMPErrorCallout, lucks[3]);
      RemoveCallout(0, outboundTCPCallout, lucks[0]);
      LetGo();
    }

    /** engineHandle = nullptr. */
    method LetGo()
      requires Valid()
      modifies this, platform
      ensures View() == old(View()).(world := old(platform.world).Drop(old(engineHandle)), engine := None)
    {
      platform.Drop(engineHandle);
      engineHandle := None;
      assert View().slots == old(View()).slots;
    }

    method OpenFilterEngine(ok: bool) returns (outcome: Outcome)
      requires Valid()
      modifies this, platform
      ensures (View(), outcome) == WfpModel.OpenFilterEngine(old(View()), ok)
    {
      if !ok {
        return PlatformError;
      }
      var h := platform.world.sessions;
      platform.world := platform.world.Open();
      var previous := engineHandle;
      engineHandle := Some(h);
      platform.Drop(previous);
      assert View().slots == old(View()).slots;
      return Done;
    }

    /** What the adders share: a temporary callout is moved into the slot, destroyed, and the slot added. */
    method Refill(ghost i: nat, slot: Callout, key: Key, luck: Luck) returns (outcome: Outcome)
      requires Valid() && i < SLOTS && slot == Slot(i) && key == KeyOf(i)
      modifies platform, slot
      ensures (View(), outcome) == AddSlot(old(View()), i, luck)
    {
      if engineHandle.None? {
        return InvalidArgument;
      }
      var temporary := new Callout(platform, engineHandle.value, key);
      slot.Move(temporary, platform, luck);
      temporary.Destroy(platform, luck);
      outcome := slot.Add(platform, luck);
      assert View().slots == old(View()).slots[i := slot.View()];
    }

    method AddOutboundTCPPacketCallout(luck: Luck) returns (outcome: Outcome)
      requires Valid()
      modifies platform, outboundTCPCallout
      ensures (View(), outcome) == AddSlot(old(View()), 0, luck)
    {
      outcome := Refill(0, outboundTCPCallout, KeyOf(0), luck);
    }

    method AddOutboundIPv4PacketCallout(luck: Luck) returns (outcome: Outcome)
      requires Valid()
      modifies platform, outboundIPv4Callout
      ensures (View(), outcome) == AddSlot(old(View()), 1, luck)
    {
      outcome := Refill(1, outboundIPv4Callout, KeyOf(1), luck);
    }

    method AddInboundICMPErrorCallout(luck: Luck) returns (outcome: Outcome)
      requires Valid()
      modifies platform, inboundICMPErrorCallout
      ensures (View(), outcome) == AddSlot(old(View()), 2, luck)
    {
      outcome := Refill(2, inboundICMPErrorCallout, KeyOf(2), luck);
    }

    method AddOutboundICMPErrorCallout(luck: Luck) returns (outcome: Outcome)
      requires Valid()
      modifies platform, outboundICMPErrorCallout
      ensures (View(), outcome) == AddSlot(old(View()), 3, luck)
    {
      outcome := Refill(3, outboundICMPErrorCallout, KeyOf(3), luck);
    }

    method AddCallouts(lucks: seq<Luck>) returns (outcome: Outcome)
      requires Valid() && |lucks| == SLOTS
      modifies platform, Slots()
      ensures (View(), outcome) == WfpModel.AddCallouts(old(View()), lucks)
    {
      hide AddSlot;
      if engineHandle.None? {
        return InvalidArgument;
      }
      outcome := AddOutboundTCPPacketCallout(lucks[0]);
      if outcome == Done {
        label L1:
        assert AddFrom(old(View()), 0, lucks) == AddFrom(View(), 1, lucks);
        outcome := AddOutboundIPv4PacketCallout(lucks[1]);
        if outcome == Done {
          assert AddFrom(old@L1(View()), 1, lucks) == AddFrom(View(), 2, lucks);
          label L2:
          outcome := AddInboundICMPErrorCallout(lucks[2]);
          if outcome == Done {
            assert AddFrom(old@L2(View()), 2, lucks) == AddFrom(View(), 3, lucks);
            label L3:
            outcome := AddOutboundICMPErrorCallout(lucks[3]);
            if outcome == Done {
              assert AddFrom(old@L3(View()), 3, lucks) == AddFrom(View(), 4, lucks);
            }
          }
        }
      }
    }

    method DestroyCallout(ghost i: nat, slot: Callout, luck: Luck)
      requires Valid() && i < SLOTS && slot == Slot(i)
      modifies platform, slot
      ensures View() == DestroySlot(old(View()), i, luck)
    {
      slot.Destroy(platform, luck);
      assert View().slots == old(View()).slots[i := NO_CALLOUT];
    }

    /** The destructor: Close, then the members in reverse order of declaration. */
    method Destroy(lucks: seq<Luck>)
      requires Valid() && |lucks| == SLOTS
      modifies this, platform, Slots()
      ensures View() == DestroyEngine(old(View()), lucks)
    {
      hide WfpModel.Close, DestroySlot;
      Close(lucks);
      DestroyCallout(0, outboundTCPCallout, lucks[0]);
      DestroyCallout(3, outboundICMPErrorCallout, lucks[3]);
      DestroyCallout(2, inboundICMPErrorCallout, lucks[2]);
      DestroyCallout(1, outboundIPv4Callout, lucks[1]);
      LetGo();
    }

    /** One command. */
    method Execute(c: Command) returns (outcome: Outcome)
      requires Valid() && WellFormed(c)
      modifies this, platform, Slots()
      ensures (View(), outcome) == Exec(old(View()), c)
      ensures match c
              case OpenEngine(ok) => (View(), outcome) == WfpModel.OpenFilterEngine(old(View()), ok)
              case AddOne(i, luck) => (View(), outcome) == AddSlot(old(View()), i, luck)
              case AddAll(lucks) => (View(), outcome) == WfpModel.AddCallouts(old(View()), lucks)
              case CloseEngine(lucks) => (View(), outcome) == (WfpModel.Close(old(View()), lucks), Done)
    {
      hide WfpModel.Close, WfpModel.OpenFilterEngine, WfpModel.AddCallouts, AddSlot;
      match c {
        case OpenEngine(ok) => outcome := OpenFilterEngine(ok);
        case AddOne(i, luck) =>
          if i == 0 {
            outcome := AddOutboundTCPPacketCallout(luck);
          } else if i == 1 {
            outcome := AddOutboundIPv4PacketCallout(luck);
          } else if i == 2 {
            outcome := AddInboundICMPErrorCallout(luck);
          } else {
            outcome := AddOutboundICMPErrorCallout(luck);
          }
        case AddAll(lucks) => outcome := AddCallouts(lucks);
        case CloseEngine(lucks) =>
          Close(lucks);
          outcome := Done;
      }
    }
  }

  /** Any sequence of commands, on the objects: what is proved of Play holds of them. */
  method PlayOn(cmds: seq<Command>) returns (engine: WFPEngine)
    requires WfpRuns.AllWellFormed(cmds)
    ensures fresh(engine) && fresh(engine.platform) && fresh(engine.Slots())
    ensures engine.Valid() && engine.View() == WfpRuns.Play(cmds)
  {
    var platform := new Platform();
    engine := new WFPEngine(platform);
    hide Exec;
    for i := 0 to |cmds|
      invariant fresh(engine) && fresh(engine.platform) && fresh(engine.Slots())
      invariant engine.Valid() && engine.View() == WfpRuns.Play(cmds[..i])
    {
      assert cmds[..i + 1][..i] == cmds[..i];
      var _ := engine.Execute(cmds[i]);
    }
    assert cmds[..|cmds|] == cmds;
  }

  /** So whatever was done, destroying the engine closes every session, once. */
  method PlayAndDestroy(cmds: seq<Command>, lucks: seq<Luck>) returns (platform: Platform)
    requires WfpRuns.AllWellFormed(cmds) && |lucks| == SLOTS
    ensures fresh(platform) && WfpTheorems.AllClosed(platform.world)
  {
    var engine := PlayOn(cmds);
    WfpRuns.DestroyAfterAnyRun(cmds, lucks);
    engine.Destroy(lucks);
    platform := engine.platform;
    hide DestroyEngine, WfpTheorems.AllClosed, WfpRuns.Play;
  }
}
