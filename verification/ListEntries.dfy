/** Circular doubly linked lists through embedded LIST_ENTRY nodes. */
module ListEntries {

  class ListEntry {
    var flink: ListEntry?
    var blink: ListEntry?

    constructor ()
      ensures flink == null && blink == null
    {
      flink, blink := null, null;
    }

    /** InitializeListHead: an empty list. */
    constructor Head()
      ensures Circular([this])
    {
      new;
      flink, blink := this, this;
    }
  }

  function Succ(ring: seq<ListEntry>, i: nat): ListEntry
    requires i < |ring|
  {
    if i + 1 < |ring| then ring[i + 1] else ring[0]
  }

  /** The forward links lead once round `ring`, and the back links lead back. */
  ghost predicate Circular(ring: seq<ListEntry>)
    reads ring
  {
    && |ring| > 0
    && (forall i, j :: 0 <= i < j < |ring| ==> ring[i] != ring[j])
    && (forall i :: 0 <= i < |ring| ==> ring[i].flink == Succ(ring, i) && Succ(ring, i).blink == ring[i])
  }

  method InsertHeadList(head: ListEntry, entry: ListEntry, ghost ring: seq<ListEntry>)
    requires Circular(ring) && ring[0] == head && entry !in ring
    modifies ring, entry
    ensures Circular([head, entry] + ring[1..])
  {
    var first := head.flink;
    ghost var ring' := [head, entry] + ring[1..];
    assert first == Succ(ring, 0);
    entry.flink := first;
    entry.blink := head;
    first.blink := entry;
    head.flink := entry;
    forall i | 0 <= i < |ring'|
      ensures ring'[i].flink == Succ(ring', i) && Succ(ring', i).blink == ring'[i]
    {
      if i >= 2 {
        assert old(ring[i - 1].flink) == Succ(ring, i - 1) && old(Succ(ring, i - 1).blink) == ring[i - 1];
      }
    }
  }

  method RemoveEntryList(entry: ListEntry, ghost ring: seq<ListEntry>, ghost k: nat)
    requires Circular(ring) && 0 < k < |ring| && ring[k] == entry
    modifies ring
    ensures Circular(ring[..k] + ring[k + 1..])
  {
    var flink, blink := entry.flink, entry.blink;
    ghost var ring' := ring[..k] + ring[k + 1..];
    assert Succ(ring, k - 1) == entry && blink == ring[k - 1];
    blink.flink := flink;
    flink.blink := blink;
    forall i | 0 <= i < |ring'|
      ensures ring'[i].flink == Succ(ring', i) && Succ(ring', i).blink == ring'[i]
    {
      var j := if i < k then i else i + 1;
      assert ring'[i] == ring[j];
      assert old(ring[j].flink) == Succ(ring, j) && old(Succ(ring, j).blink) == ring[j];
    }
  }

  method IsListEmpty(head: ListEntry, ghost ring: seq<ListEntry>) returns (empty: bool)
    requires Circular(ring) && ring[0] == head
    ensures empty <==> ring == [head]
  {
    assert head.flink == Succ(ring, 0);
    empty := head.flink == head;
  }
}
