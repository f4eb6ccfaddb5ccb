/**
 * The filtering platform as the controller sees it: sessions with the number of shared pointers
 * that hold them, and the callouts registered through each, which go when their session closes.
 */
module WfpModel {
  import opened Options

  type Session = nat
  type Key = nat
  type Pointer = Option<Session>

  /** `closes` lists the FwpmEngineClose0 calls made so far. */
  datatype World = World(
    sessions: nat,
    closes: seq<Session>,
    registry: map<Key, Session>,
    count: map<Session, nat>)
  {
    function Count(h: Session): nat {
      if h in count then count[h] else 0
    }

    /** FwpmEngineOpen0 and the first shared pointer to the new session. */
    function Open(): World {
      this.(sessions := sessions + 1, count := count[sessions := 1])
    }

    /** A shared pointer to h is copied. */
    function Retain(h: Session): World {
      this.(count := count[h := Count(h) + 1])
    }

    /** A shared pointer to h goes; the last one closes the dynamic session and what it registered. */
    function Release(h: Session): World {
      if Count(h) > 1 then
        this.(count := count[h := Count(h) - 1])
      else
        this.(count := count[h := 0],
              closes := closes + [h],
              registry := map k | k in registry && registry[k] != h :: registry[k])
    }

    function Drop(p: Pointer): World {
      match p
      case None => this
      case Some(h) => Release(h)
    }

    /** FwpmCalloutAdd0 accepts a key only if it is not registered yet. */
    predicate Accepts(key: Key, luck: Luck) {
      luck.addOk && key !in registry
    }

    /** FwpmCalloutDeleteByKey0. */
    function Delete(key: Key, luck: Luck): World {
      if luck.deleteOk then this.(registry := registry - {key}) else this
    }
  }

  type CalloutId = n: nat | n > 0 witness 1

  /** How the platform's calls turn out. */
  datatype Luck = Luck(deleteOk: bool, addOk: bool, id: CalloutId)

  datatype Outcome = Done | InvalidArgument | PlatformError

  /** The fields of a Callout object; id 0 means not added. */
  datatype Callout = Callout(key: Key, handle: Pointer, id: nat)

  const NO_CALLOUT := Callout(0, None, 0)

  // ---- Callout ----

  function Remove(w: World, c: Callout, luck: Luck): (World, Callout) {
    if c.id == 0 || c.handle.None? then (w, c)
    else (w.Delete(c.key, luck).Release(c.handle.value), c.(id := 0, handle := None))
  }

  /** Move assignment into c: the new c; the source keeps its key but neither handle nor id. */
  function Assign(w: World, c: Callout, from: Callout, luck: Luck): (World, Callout) {
    var (w', c') := Remove(w, c, luck);
    (w'.Drop(c'.handle), from)
  }

  function Add(w: World, c: Callout, luck: Luck): (World, Callout, Outcome) {
    if c.handle.None? then (w, c, InvalidArgument)
    else if w.Accepts(c.key, luck) then
      (w.(registry := w.registry[c.key := c.handle.value]), c.(id := luck.id), Done)
    else (w, c, PlatformError)
  }

  /** Removes the callout, then destroys its shared pointer. */
  function Destroy(w: World, c: Callout, luck: Luck): World {
    var (w', c') := Remove(w, c, luck);
    w'.Drop(c'.handle)
  }

  // ---- WFPEngine ----

  /** The slots in the order in which AddCallouts fills them: TCP, IPv4, inbound and outbound ICMP error. */
  const SLOTS := 4

  /** The distinct callout keys of the slots. */
  function KeyOf(slot: nat): Key {
    slot + 1
  }

  datatype Controller = Controller(world: World, engine: Pointer, slots: seq<Callout>)

  const FRESH := Controller(World(0, [], map[], map[]), None, [NO_CALLOUT, NO_CALLOUT, NO_CALLOUT, NO_CALLOUT])

  predicate Shaped(s: Controller) {
    |s.slots| == SLOTS
  }

  /** OpenFilterEngine: a new session replaces whatever the engine held. */
  function OpenFilterEngine(s: Controller, ok: bool): (Controller, Outcome) {
    if !ok then (s, PlatformError)
    else
      var w := s.world.Open();
      (Controller(w.Drop(s.engine), Some(s.world.sessions), s.slots), Done)
  }

  /** One of the four adders: a temporary callout is moved into the slot and added there. */
  function AddSlot(s: Controller, i: nat, luck: Luck): (Controller, Outcome)
    requires Shaped(s) && i < SLOTS
  {
    if s.engine.None? then (s, InvalidArgument)
    else
      var temporary := Callout(KeyOf(i), s.engine, 0);
      var (w, c) := Assign(s.world.Retain(s.engine.value), s.slots[i], temporary, luck);
      var (w', c', outcome) := Add(w, c, luck);
      (s.(world := w', slots := s.slots[i := c']), outcome)
  }

  function AddFrom(s: Controller, i: nat, lucks: seq<Luck>): (Controller, Outcome)
    requires Shaped(s) && i <= SLOTS && |lucks| == SLOTS
    decreases SLOTS - i
  {
    if i == SLOTS then (s, Done)
    else
      var (s', outcome) := AddSlot(s, i, lucks[i]);
      if outcome == Done then AddFrom(s', i + 1, lucks) else (s', outcome)
  }

  function AddCallouts(s: Controller, lucks: seq<Luck>): (Controller, Outcome)
    requires Shaped(s) && |lucks| == SLOTS
  {
    if s.engine.None? then (s, InvalidArgument) else AddFrom(s, 0, lucks)
  }

  function RemoveSlot(s: Controller, i: nat, luck: Luck): Controller
    requires Shaped(s) && i < SLOTS
  {
    var (w, c) := Remove(s.world, s.slots[i], luck);
    s.(world := w, slots := s.slots[i := c])
  }

  /** Close removes IPv4, inbound and outbound ICMP error, TCP, then lets go of the session. */
  function Close(s: Controller, lucks: seq<Luck>): Controller
    requires Shaped(s) && |lucks| == SLOTS
  {
    if s.engine.None? then s
    else
      var s' := RemoveSlot(RemoveSlot(RemoveSlot(RemoveSlot(s, 1, lucks[1]), 2, lucks[2]), 3, lucks[3]), 0, lucks[0]);
      s'.(world := s'.world.Drop(s'.engine), engine := None)
  }

  function DestroySlot(s: Controller, i: nat, luck: Luck): Controller
    requires Shaped(s) && i < SLOTS
  {
    s.(world := Destroy(s.world, s.slots[i], luck), slots := s.slots[i := NO_CALLOUT])
  }

  /** The destructor closes, then the members go in reverse order of declaration, the handle last. */
  function DestroyEngine(s: Controller, lucks: seq<Luck>): Controller
    requires Shaped(s) && |lucks| == SLOTS
  {
    var s1 := Close(s, lucks);
    var s2 := DestroySlot(DestroySlot(s1, 0, lucks[0]), 3, lucks[3]);
    var s3 := DestroySlot(DestroySlot(s2, 2, lucks[2]), 1, lucks[1]);
    s3.(world := s3.world.Drop(s3.engine), engine := None)
  }

  datatype Command =
    | OpenEngine(ok: bool)
    | AddOne(slot: nat, luck: Luck)
    | AddAll(lucks: seq<Luck>)
    | CloseEngine(lucks: seq<Luck>)

  predicate WellFormed(c: Command) {
    match c
    case OpenEngine(_) => true
    case AddOne(i, _) => i < SLOTS
    case AddAll(lucks) => |lucks| == SLOTS
    case CloseEngine(lucks) => |lucks| == SLOTS
  }

  function Exec(s: Controller, c: Command): (Controller, Outcome)
    requires Shaped(s) && WellFormed(c)
  {
    match c
    case OpenEngine(ok) => OpenFilterEngine(s, ok)
    case AddOne(i, luck) => AddSlot(s, i, luck)
    case AddAll(lucks) => AddCallouts(s, lucks)
    case CloseEngine(lucks) => (Close(s, lucks), Done)
  }

  lemma {:induction false} AddKeepsShape(s: Controller, i: nat, lucks: seq<Luck>)
    requires Shaped(s) && i <= SLOTS && |lucks| == SLOTS
    ensures Shaped(AddFrom(s, i, lucks).0)
    decreases SLOTS - i
  {
    if i < SLOTS && AddSlot(s, i, lucks[i]).1 == Done {
      AddKeepsShape(AddSlot(s, i, lucks[i]).0, i + 1, lucks);
    }
  }
}
