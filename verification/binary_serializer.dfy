/** The relocatable binary format: a writer that keeps a raw segment, a pointer-data segment and a list of pending
    8-byte pointer slots, and patches every slot with the absolute offset of its payload on finish; and a reader
    that is a bounds-checked cursor over one loaded buffer. */
module BinarySerializer {
  import opened BasicTypes

  // ---------------------------------------------------------------------------------------------------------------
  // Host (x86, little-endian) layout of a uint64

  function Pow256(n: nat): (r: nat)
    ensures r > 0
  {
    if n == 0 then 1 else 256 * Pow256(n - 1)
  }

  /** The n low-order bytes of v, least significant first. */
  function LittleEndian(v: nat, n: nat): (r: seq<uint8>)
    ensures |r| == n
  {
    if n == 0 then [] else [v % 256] + LittleEndian(v / 256, n - 1)
  }

  function DecodeLittleEndian(s: seq<uint8>): nat
  {
    if |s| == 0 then 0 else s[0] + 256 * DecodeLittleEndian(s[1..])
  }

  lemma {:induction false} LittleEndianRoundTrip(v: nat, n: nat)
    requires v < Pow256(n)
    ensures DecodeLittleEndian(LittleEndian(v, n)) == v
  {
    if n > 0 {
      var s := LittleEndian(v, n);
      assert s[1..] == LittleEndian(v / 256, n - 1);
      assert v / 256 < Pow256(n - 1);
      LittleEndianRoundTrip(v / 256, n - 1);
    }
  }

  /** The width of a uint64 in bytes. */
  const UInt64Size: nat := 8

  /** The 8 bytes a `uint64* ptr; *ptr = v` store writes on the host. */
  function EncodeUInt64(v: uint64): (r: seq<uint8>)
    ensures |r| == 8
    ensures DecodeUInt64(r) == v
  {
    assert Pow256(UInt64Size) == UINT64_LIMIT by {
      assert Pow256(8) == UINT64_LIMIT;
    }
    LittleEndianRoundTrip(v, UInt64Size);
    LittleEndian(v, UInt64Size)
  }

  /** The value a `uint64` load reads from 8 bytes on the host. */
  function DecodeUInt64(s: seq<uint8>): nat
    requires |s| == 8
  {
    DecodeLittleEndian(s)
  }

  // ---------------------------------------------------------------------------------------------------------------
  // Pointer slots and the fixup pass

  /** A pending pointer slot: where its 8 bytes sit in the raw data, and where its payload starts in the pointer data. */
  datatype PointerDesc = PointerDesc(pointerOffset: nat, pointerDataOffset: nat)

  const SlotSize: nat := 8

  /** The placeholder a reserved slot holds until the fixup pass. */
  const ZeroSlot: seq<uint8> := [0, 0, 0, 0, 0, 0, 0, 0]

  /** Every slot's 8 bytes lie inside a raw segment of the given length. */
  ghost predicate SlotsInside(slots: seq<PointerDesc>, rawLength: nat)
  {
    forall i :: 0 <= i < |slots| ==> slots[i].pointerOffset + SlotSize <= rawLength
  }

  /** Slots are in reservation order: their byte ranges follow one another without overlap, and their payload
      offsets never decrease. */
  ghost predicate SlotsOrdered(slots: seq<PointerDesc>)
  {
    forall i, j :: 0 <= i < j < |slots| ==>
      slots[i].pointerOffset + SlotSize <= slots[j].pointerOffset && slots[i].pointerDataOffset <= slots[j].pointerDataOffset
  }

  /** The bookkeeping a writer keeps between calls. */
  ghost predicate SlotsWellFormed(slots: seq<PointerDesc>, rawLength: nat, pointerDataLength: nat)
  {
    && SlotsInside(slots, rawLength)
    && SlotsOrdered(slots)
    && (forall i :: 0 <= i < |slots| ==> slots[i].pointerDataOffset <= pointerDataLength)
  }

  /** Every patched value `base + pointerDataOffset` fits in a uint64. */
  ghost predicate OffsetsFit(slots: seq<PointerDesc>, base: nat)
  {
    forall i :: 0 <= i < |slots| ==> base + slots[i].pointerDataOffset < UINT64_LIMIT
  }

  /** s with the bytes at [at, at + |bytes|) replaced by bytes. */
  function Overwrite(s: seq<uint8>, at: nat, bytes: seq<uint8>): (r: seq<uint8>)
    requires at + |bytes| <= |s|
    ensures |r| == |s|
    ensures r[at..at + |bytes|] == bytes
    ensures forall k :: 0 <= k < |s| && !(at <= k < at + |bytes|) ==> r[k] == s[k]
  {
    s[..at] + bytes + s[at + |bytes|..]
  }

  /** The raw segment after the fixup loop has visited the given slots in order, writing
      `base + pointerDataOffset` into each. */
  function PatchSlots(raw: seq<uint8>, slots: seq<PointerDesc>, base: nat): (r: seq<uint8>)
    requires SlotsInside(slots, |raw|)
    requires OffsetsFit(slots, base)
    ensures |r| == |raw|
    decreases |slots|
  {
    if slots == [] then raw
    else
      var last := slots[|slots| - 1];
      Overwrite(PatchSlots(raw, slots[..|slots| - 1], base), last.pointerOffset, EncodeUInt64(base + last.pointerDataOffset))
  }

  /** Overwriting one range leaves a range that does not overlap it unchanged. */
  lemma OverwriteKeepsDisjoint(s: seq<uint8>, at: nat, bytes: seq<uint8>, p: nat, len: nat)
    requires at + |bytes| <= |s| && p + len <= |s|
    requires p + len <= at || at + |bytes| <= p
    ensures Overwrite(s, at, bytes)[p..p + len] == s[p..p + len]
  {
    var r := Overwrite(s, at, bytes);
    forall k | p <= k < p + len
      ensures r[k] == s[k]
    {
    }
  }

  /** The slot facts hold for every prefix of the slots. */
  lemma SlotFactsOfPrefix(raw: seq<uint8>, slots: seq<PointerDesc>, base: nat, n: nat)
    requires SlotsInside(slots, |raw|) && SlotsOrdered(slots) && OffsetsFit(slots, base)
    requires n <= |slots|
    ensures SlotsInside(slots[..n], |raw|) && SlotsOrdered(slots[..n]) && OffsetsFit(slots[..n], base)
  {
    assert forall j :: 0 <= j < n ==> slots[..n][j] == slots[j];
  }

  /** After the fixup pass, each slot's 8 bytes hold its own patched offset: no later slot overwrites an earlier one. */
  lemma {:induction false} PatchedSlotHoldsOffset(raw: seq<uint8>, slots: seq<PointerDesc>, base: nat, i: nat)
    requires SlotsInside(slots, |raw|) && SlotsOrdered(slots) && OffsetsFit(slots, base)
    requires i < |slots|
    ensures slots[i].pointerOffset + SlotSize <= |raw|
    ensures PatchSlots(raw, slots, base)[slots[i].pointerOffset..slots[i].pointerOffset + SlotSize]
         == EncodeUInt64(base + slots[i].pointerDataOffset)
  {
    var n := |slots| - 1;
    var init := slots[..n];
    SlotFactsOfPrefix(raw, slots, base, n);
    var prev := PatchSlots(raw, init, base);
    var p := slots[i].pointerOffset;
    if i < n {
      PatchedSlotHoldsOffset(raw, init, base, i);
      assert init[i] == slots[i];
      OverwriteKeepsDisjoint(prev, slots[n].pointerOffset, EncodeUInt64(base + slots[n].pointerDataOffset), p, SlotSize);
    }
  }

  /** The fixup pass leaves every raw byte outside the slots as it was. */
  lemma {:induction false} PatchLeavesOtherBytes(raw: seq<uint8>, slots: seq<PointerDesc>, base: nat, k: nat)
    requires SlotsInside(slots, |raw|) && OffsetsFit(slots, base)
    requires k < |raw|
    requires forall i :: 0 <= i < |slots| ==> !(slots[i].pointerOffset <= k < slots[i].pointerOffset + SlotSize)
    ensures PatchSlots(raw, slots, base)[k] == raw[k]
  {
    if slots != [] {
      var n := |slots| - 1;
      var init := slots[..n];
      assert forall i :: 0 <= i < |init| ==> init[i] == slots[i];
      PatchLeavesOtherBytes(raw, init, base, k);
      assert !(slots[n].pointerOffset <= k < slots[n].pointerOffset + SlotSize);
    }
  }

  /** The finished blob: the patched raw segment followed by the pointer data, patching each slot with
      `rawLength + pointerDataOffset`. */
  function Finish(raw: seq<uint8>, slots: seq<PointerDesc>, pointerData: seq<uint8>): (blob: seq<uint8>)
    requires SlotsWellFormed(slots, |raw|, |pointerData|)
    requires |raw| + |pointerData| < UINT64_LIMIT
    ensures |blob| == |raw| + |pointerData|
    ensures blob[|raw|..] == pointerData
  {
    PatchSlots(raw, slots, |raw|) + pointerData
  }

  /** What a loader relies on: the offset stored in slot i, read back from the finished blob, lies within the blob
      and addresses exactly the pointer data written after slot i was reserved. */
  lemma FinishedSlotAddressesPayload(raw: seq<uint8>, slots: seq<PointerDesc>, pointerData: seq<uint8>, i: nat)
    requires SlotsWellFormed(slots, |raw|, |pointerData|)
    requires |raw| + |pointerData| < UINT64_LIMIT
    requires i < |slots|
    ensures slots[i].pointerOffset + SlotSize <= |raw|
    ensures var blob := Finish(raw, slots, pointerData);
            var stored := DecodeUInt64(blob[slots[i].pointerOffset..slots[i].pointerOffset + SlotSize]);
            && stored == |raw| + slots[i].pointerDataOffset
            && stored <= |blob|
            && blob[stored..] == pointerData[slots[i].pointerDataOffset..]
  {
    var blob := Finish(raw, slots, pointerData);
    var p := slots[i].pointerOffset;
    PatchedSlotHoldsOffset(raw, slots, |raw|, i);
    assert blob[p..p + SlotSize] == PatchSlots(raw, slots, |raw|)[p..p + SlotSize];
  }

  /** The finished blob keeps every raw byte that is not part of a slot. */
  lemma FinishKeepsRawBytes(raw: seq<uint8>, slots: seq<PointerDesc>, pointerData: seq<uint8>, k: nat)
    requires SlotsWellFormed(slots, |raw|, |pointerData|)
    requires |raw| + |pointerData| < UINT64_LIMIT
    requires k < |raw|
    requires forall i :: 0 <= i < |slots| ==> !(slots[i].pointerOffset <= k < slots[i].pointerOffset + SlotSize)
    ensures Finish(raw, slots, pointerData)[k] == raw[k]
  {
    PatchLeavesOtherBytes(raw, slots, |raw|, k);
  }

  // ---------------------------------------------------------------------------------------------------------------
  // The writer

  class BinaryWriter {
    var rawData: seq<uint8>
    var pointers: seq<PointerDesc>
    var pointerData: seq<uint8>

    ghost predicate Valid()
      reads this
    {
      SlotsWellFormed(pointers, |rawData|, |pointerData|)
    }

    constructor ()
      ensures Valid()
      ensures rawData == [] && pointers == [] && pointerData == []
    {
      rawData, pointers, pointerData := [], [], [];
    }

    /** SerializerStart: empties all three arrays. The two sizes only reserve capacity, which the model does not
        track, so they have no other effect. */
    method Start(sizea: uint32, sizeb: uint32)
      modifies this
      ensures Valid()
      ensures rawData == [] && pointers == [] && pointerData == []
    {
      rawData := [];
      pointers := [];
      pointerData := [];
    }

    /** SerializerWrite: appends the bytes, in order, to the raw segment. */
    method Write(data: seq<uint8>)
      modifies this`rawData
      ensures rawData == old(rawData) + data
      ensures old(Valid()) ==> Valid()
    {
      var scan := 0;
      while scan < |data|
        invariant 0 <= scan <= |data|
        invariant rawData == old(rawData) + data[..scan]
      {
        rawData := rawData + [data[scan]];
        scan := scan + 1;
      }
      assert data[..|data|] == data;
    }

    /** SerializerWritePointerData: appends the bytes, in order, to the pointer-data segment. */
    method WritePointerData(data: seq<uint8>)
      modifies this`pointerData
      ensures pointerData == old(pointerData) + data
      ensures old(Valid()) ==> Valid()
    {
      var scan := 0;
      while scan < |data|
        invariant 0 <= scan <= |data|
        invariant pointerData == old(pointerData) + data[..scan]
      {
        pointerData := pointerData + [data[scan]];
        scan := scan + 1;
      }
      assert data[..|data|] == data;
    }

    /** SerializerWritePointerOffsetX64: records a slot at the current raw length whose payload starts at the current
        pointer-data length, then reserves its 8 bytes as zeros. */
    method WritePointerOffsetX64()
      requires Valid()
      modifies this`pointers, this`rawData
      ensures Valid()
      ensures pointers == old(pointers) + [PointerDesc(|old(rawData)|, |pointerData|)]
      ensures rawData == old(rawData) + ZeroSlot
    {
      var desc := PointerDesc(|rawData|, |pointerData|);
      pointers := pointers + [desc];
      Write(ZeroSlot);
    }

    /** The fixup loop of both SerializerEnd overloads: writes `rawLength + pointerDataOffset` into every slot. */
    method FixupPointers()
      requires Valid()
      requires |rawData| + |pointerData| < UINT64_LIMIT
      modifies this`rawData
      ensures Valid()
      ensures rawData == PatchSlots(old(rawData), pointers, |old(rawData)|)
    {
      var pointerDataOffset := |rawData|;
      var scan := 0;
      while scan < |pointers|
        invariant 0 <= scan <= |pointers|
        invariant rawData == PatchSlots(old(rawData), pointers[..scan], pointerDataOffset)
      {
        var offset := pointerDataOffset + pointers[scan].pointerDataOffset;
        assert pointers[..scan + 1][..scan] == pointers[..scan];
        rawData := Overwrite(rawData, pointers[scan].pointerOffset, EncodeUInt64(offset));
        scan := scan + 1;
      }
      assert pointers[..|pointers|] == pointers;
    }

    /** SerializerEnd to memory: fixes the slots up and returns the raw segment followed by the pointer data,
        together with its size. */
    method EndToBuffer() returns (data: seq<uint8>, dataSize: uint32)
      requires Valid()
      requires |rawData| + |pointerData| < UINT32_LIMIT
      modifies this`rawData
      ensures Valid()
      ensures rawData == PatchSlots(old(rawData), pointers, |old(rawData)|)
      ensures data == Finish(old(rawData), pointers, pointerData)
      ensures dataSize == |data| == |old(rawData)| + |pointerData|
    {
      dataSize := |rawData| + |pointerData|;
      FixupPointers();
      data := rawData + pointerData;
    }

    /** SerializerEnd to a file. Opening and closing the file are given as their outcomes; `written` is the byte
        stream handed to fwrite. Refusing a zero-sized output is an assertion in the source, hence a requirement. */
    method EndToFile(fileOpened: bool, closeResult: int) returns (err: Error, written: seq<uint8>)
      requires Valid()
      requires |rawData| < UINT32_LIMIT && |pointerData| < UINT32_LIMIT
      requires fileOpened ==> |rawData| + |pointerData| != 0
      modifies this`rawData
      ensures Valid()
      ensures !fileOpened ==> err.Failure? && written == [] && rawData == old(rawData)
      ensures fileOpened ==> rawData == PatchSlots(old(rawData), pointers, |old(rawData)|)
      ensures fileOpened ==> written == Finish(old(rawData), pointers, pointerData)
      ensures fileOpened ==> (err == Success <==> closeResult == 0)
    {
      if !fileOpened {
        return Failure("Failed to open file"), [];
      }
      FixupPointers();
      written := rawData + pointerData;
      if closeResult != 0 {
        return Failure("Failed to close file"), written;
      }
      err := Success;
    }
  }

  // ---------------------------------------------------------------------------------------------------------------
  // The reader

  class BinaryReader {
    var data: seq<uint8>
    var size: nat
    var offset: nat

    ghost predicate Valid()
      reads this
    {
      offset <= size <= |data|
    }

    constructor ()
      ensures Valid()
      ensures data == [] && size == 0 && offset == 0
    {
      data, size, offset := [], 0, 0;
    }

    /** SerializerStart: binds the cursor to the first `bufferSize` bytes of a buffer, at offset 0. */
    method Start(buffer: seq<uint8>, bufferSize: uint32)
      requires bufferSize <= |buffer|
      modifies this
      ensures Valid()
      ensures data == buffer && size == bufferSize && offset == 0
    {
      data := buffer;
      size := bufferSize;
      offset := 0;
    }

    /** SerializerEnd: unbinds the cursor. */
    method End()
      modifies this
      ensures Valid()
      ensures data == [] && size == 0 && offset == 0
    {
      data := [];
      size := 0;
      offset := 0;
    }

    /** SerializerRead: copies the next n bytes and advances past them; reading past the end is a contract
        violation (an assertion in the source). */
    method Read(n: uint32) returns (bytes: seq<uint8>)
      requires Valid()
      requires offset + n <= size
      modifies this`offset
      ensures Valid()
      ensures offset == old(offset) + n
      ensures bytes == data[old(offset)..offset]
    {
      bytes := data[offset..offset + n];
      offset := offset + n;
    }

    /** SerializerAttach: the same bound check and advance as Read, but nothing is copied: the result is the position
        of the attached bytes in the buffer. */
    method Attach(n: uint32) returns (position: nat)
      requires Valid()
      requires offset + n <= size
      modifies this`offset
      ensures Valid()
      ensures position == old(offset) && position + n <= size
      ensures offset == old(offset) + n
    {
      position := offset;
      offset := offset + n;
    }
  }

  /** One slot pointing at a payload, written, finished to memory and loaded back: attaching the 8-byte header and
      resolving its stored offset against the start of the buffer yields the payload. */
  method SlotRoundTrip(payload: seq<uint8>) returns (resolved: seq<uint8>)
    requires |payload| + SlotSize < UINT32_LIMIT
    ensures resolved == payload
  {
    var writer := new BinaryWriter();
    writer.Start(0, 0);
    writer.WritePointerOffsetX64();
    assert writer.pointers == [PointerDesc(0, 0)] && writer.rawData == ZeroSlot;
    writer.WritePointerData(payload);
    ghost var raw, slots := writer.rawData, writer.pointers;
    assert writer.pointerData == payload;
    var blob, blobSize := writer.EndToBuffer();
    FinishedSlotAddressesPayload(raw, slots, payload, 0);
    assert blob[SlotSize..] == payload;

    var reader := new BinaryReader();
    reader.Start(blob, blobSize);
    var header := reader.Attach(SlotSize);
    assert header == 0;
    var target := DecodeUInt64(blob[header..header + SlotSize]);
    assert target == SlotSize;
    resolved := blob[target..target + |payload|];
    reader.End();
  }
}
