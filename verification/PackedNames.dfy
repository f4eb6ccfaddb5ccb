/**
 * The allocation of a filter context: MS_FILTER itself, and behind it the bytes of the three names
 * that FilterAttach copies there.
 */
module PackedNames {
  import opened Ulongs

  type Byte = b: int | 0 <= b < 0x100
  type Ushort = n: int | 0 <= n < 0x1_0000

  /** What an NDIS_STRING's 16-bit Length can describe. */
  type Name = s: seq<Byte> | |s| < 0x1_0000

  /** The largest sizeof(MS_FILTER), really some hundred bytes, for which Size cannot overflow. */
  const MAX_STRUCT_SIZE := ULONG_MODULUS - 1 - 3 * 0xFFFF
  type StructSize = n: nat | n <= MAX_STRUCT_SIZE

  /** An NDIS_STRING whose Buffer points `buffer` bytes into the allocation. */
  datatype NdisString = NdisString(length: Ushort, maximumLength: Ushort, buffer: nat) {
    function End(): nat {
      buffer + length
    }

    predicate Inside(memory: seq<Byte>) {
      End() <= |memory|
    }

    function Read(memory: seq<Byte>): seq<Byte>
      requires Inside(memory)
    {
      memory[buffer..End()]
    }
  }

  /** Size, a ULONG, as FilterAttach computes it. */
  function Size(structSize: nat, guid: nat, instance: nat, miniport: nat): Ulong {
    Wrap(structSize + guid + instance + miniport)
  }

  /** No choice of three 16-bit lengths overflows Size exactly if the struct is within this bound. */
  lemma SizeFitsIff(structSize: nat)
    ensures (forall a: Ushort, b: Ushort, c: Ushort :: Size(structSize, a, b, c) == structSize + a + b + c)
            <==> structSize <= MAX_STRUCT_SIZE
  {
    if structSize > MAX_STRUCT_SIZE {
      assert Size(structSize, 0xFFFF, 0xFFFF, 0xFFFF) != structSize + 0xFFFF + 0xFFFF + 0xFFFF;
    }
  }

  /** The bytes of `memory` with those from `at` on replaced by `source`. */
  function Moved(memory: seq<Byte>, at: nat, source: seq<Byte>): (after: seq<Byte>)
    requires at + |source| <= |memory|
    ensures |after| == |memory|
  {
    memory[..at] + source + memory[at + |source|..]
  }

  method NdisMoveMemory(memory: array<Byte>, at: nat, source: seq<Byte>)
    requires at + |source| <= memory.Length
    modifies memory
    ensures memory[..] == Moved(old(memory[..]), at, source)
  {
    forall i | 0 <= i < |source| {
      memory[at + i] := source[i];
    }
  }

  function Zeros(n: nat): seq<Byte> {
    seq(n, _ => 0)
  }

  method NdisZeroMemory(memory: array<Byte>, length: nat)
    requires length <= memory.Length
    modifies memory
    ensures memory[..length] == Zeros(length)
  {
    forall i | 0 <= i < length {
      memory[i] := 0;
    }
  }

  /** No byte belongs to both. */
  predicate Apart(s: NdisString, t: NdisString) {
    s.End() <= t.buffer || t.End() <= s.buffer
  }

  lemma MoveReadsBack(memory: seq<Byte>, s: NdisString, source: Name)
    requires s.Inside(memory) && s.length == |source|
    ensures s.Read(Moved(memory, s.buffer, source)) == source
  {
  }

  lemma MoveLeavesApart(memory: seq<Byte>, s: NdisString, source: Name, t: NdisString)
    requires s.Inside(memory) && s.length == |source| && t.Inside(memory) && Apart(s, t)
    ensures t.Read(Moved(memory, s.buffer, source)) == t.Read(memory)
  {
    var after := Moved(memory, s.buffer, source);
    forall i | t.buffer <= i < t.End()
      ensures after[i] == memory[i]
    {
    }
  }

  /** The names as FilterAttach leaves them. */
  class Context {
    const structSize: StructSize
    const memory: array<Byte>
    var filterModuleName: NdisString
    var miniportFriendlyName: NdisString
    var miniportName: NdisString

    /** The struct, then the three names, one behind the other up to the end of the allocation. */
    predicate Packed()
      reads this
    {
      && filterModuleName.maximumLength == filterModuleName.length
      && miniportFriendlyName.maximumLength == miniportFriendlyName.length
      && miniportName.maximumLength == miniportName.length
      && filterModuleName.buffer == structSize
      && miniportFriendlyName.buffer == filterModuleName.End()
      && miniportName.buffer == miniportFriendlyName.End()
      && miniportName.End() == memory.Length
    }

    constructor (structSize: StructSize, guid: Name, instance: Name, miniport: Name)
      ensures this.structSize == structSize && fresh(memory)
      ensures memory.Length == structSize + |guid| + |instance| + |miniport| < ULONG_MODULUS
      ensures Packed()
      ensures filterModuleName.Read(memory[..]) == guid
      ensures miniportFriendlyName.Read(memory[..]) == instance
      ensures miniportName.Read(memory[..]) == miniport
      ensures memory[..structSize] == Zeros(structSize)  // as NdisZeroMemory left it
    {
      this.structSize := structSize;
      SizeFitsIff(structSize);
      memory := new Byte[Size(structSize, |guid|, |instance|, |miniport|)];
      var a := NdisString(|guid|, |guid|, structSize);
      var b := NdisString(|instance|, |instance|, a.End());
      var c := NdisString(|miniport|, |miniport|, b.End());
      filterModuleName, miniportFriendlyName, miniportName := a, b, c;
      new;
      NdisZeroMemory(memory, structSize);
      CopyName(a, guid);
      CopyName(b, instance);
      CopyName(c, miniport);
    }

    /** One of the copies: other names, and the struct, keep their bytes. */
    method CopyName(s: NdisString, source: Name)
      requires s.length == |source| && s.End() <= memory.Length && structSize <= s.buffer
      modifies memory
      ensures s.Read(memory[..]) == source
      ensures forall t: NdisString :: t.End() <= memory.Length && Apart(s, t) ==>
                                        t.Read(memory[..]) == t.Read(old(memory[..]))
      ensures memory[..structSize] == old(memory[..structSize])
    {
      NdisMoveMemory(memory, s.buffer, source);
      MoveReadsBack(old(memory[..]), s, source);
      forall t: NdisString | t.End() <= memory.Length && Apart(s, t)
        ensures t.Read(memory[..]) == t.Read(old(memory[..]))
      {
        MoveLeavesApart(old(memory[..]), s, source, t);
      }
    }
  }
}
