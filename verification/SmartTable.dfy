/**
 * The 512-byte SMART READ DATA table: 30 attribute slots of 12 bytes from
 * offset 2 (id, two flag bytes, current, worst, 6-byte little-endian raw
 * value). Two scans read it: one builds the id -> raw map the score uses,
 * the other lists every non-empty slot for display.
 */
module SmartTable {
  import opened Bytes

  const SlotCount: nat := 30
  const SlotSize: nat := 12
  const TableOffset: nat := 2
  /** 2^48: raw values are 6 bytes wide. */
  const RawLimit: nat := 0x1_0000_0000_0000

  datatype Attribute = Attribute(id: byte, current: byte, worst: byte, raw: nat)

  function SlotOffset(i: nat): nat {
    TableOffset + i * SlotSize
  }

  /**
   * How many slots a scan of a buffer of `size` bytes visits: it stops at
   * the first slot whose offset + 11 is not inside the buffer, or after 30.
   */
  function VisitedCount(size: nat): (n: nat)
    ensures n <= SlotCount
    ensures forall i | 0 <= i < n :: SlotOffset(i) + 11 < size
    ensures n < SlotCount ==> SlotOffset(n) + 11 >= size
  {
    if size < 14 then 0
    else if (size - 14) / 12 + 1 < SlotCount then (size - 14) / 12 + 1
    else SlotCount
  }

  /** The slot at `offset`: id, current and worst bytes, and the raw value from offset + 5. */
  function DecodeSlot(data: seq<byte>, offset: nat): (a: Attribute)
    requires offset + 11 <= |data|
    ensures a.raw < RawLimit
  {
    FromLittleEndianBound(data[offset + 5..offset + 11]);
    assert Pow256(6) == RawLimit;
    Attribute(data[offset], data[offset + 3], data[offset + 4], FromLittleEndian(data[offset + 5..offset + 11]))
  }

  /** Every slot a scan visits, in order, empty (id 0) slots included. */
  function Slots(data: seq<byte>): (s: seq<Attribute>)
    ensures |s| == VisitedCount(|data|)
  {
    seq(VisitedCount(|data|), i requires 0 <= i < VisitedCount(|data|) => DecodeSlot(data, SlotOffset(i)))
  }

  /** The id -> raw map of a slot sequence: id 0 is skipped, a later slot overwrites an earlier one. */
  function AttributeMap(slots: seq<Attribute>): map<byte, nat>
  {
    if slots == [] then map[]
    else
      var m := AttributeMap(slots[..|slots| - 1]);
      var a := slots[|slots| - 1];
      if a.id == 0 then m else m[a.id := a.raw]
  }

  /** The non-empty slots, in order (what the display lists). */
  function Listing(slots: seq<Attribute>): seq<Attribute>
  {
    if slots == [] then []
    else
      var a := slots[|slots| - 1];
      Listing(slots[..|slots| - 1]) + if a.id == 0 then [] else [a]
  }

  /**
   * The inner loop of both scans: `raw += (b and 0xFF) shl (8 * k)` for the
   * six bytes from offset + 5, low byte first.
   */
  method ReadRaw(data: seq<byte>, offset: nat) returns (raw: nat)
    requires offset + 11 <= |data|
    ensures raw == DecodeSlot(data, offset).raw
    ensures raw < RawLimit
  {
    ghost var window := data[offset + 5..offset + 11];
    raw := 0;
    for k := 0 to 6
      invariant raw == FromLittleEndian(window[..k])
    {
      FromLittleEndianSnoc(window, k);
      raw := raw + data[offset + 5 + k] * Pow256(k);
    }
    assert window[..6] == window;
  }

  /** Slots(data) up to i + 1 is Slots(data) up to i and slot i. */
  lemma SlotsPrefix(data: seq<byte>, i: nat)
    requires i < VisitedCount(|data|)
    ensures Slots(data)[..i + 1][..i] == Slots(data)[..i]
    ensures Slots(data)[..i + 1][i] == DecodeSlot(data, SlotOffset(i))
  {
  }

  /**
   * The scoring path's scan: visits slots 0..29 until one runs past the
   * buffer, skips id 0 and stores id -> raw, the last slot of an id winning.
   */
  method BuildAttributeMap(data: seq<byte>) returns (attrMap: map<byte, nat>)
    ensures attrMap == AttributeMap(Slots(data))
  {
    attrMap := map[];
    for i := 0 to SlotCount
      invariant i <= VisitedCount(|data|)
      invariant attrMap == AttributeMap(Slots(data)[..i])
    {
      var offset := TableOffset + i * SlotSize;
      if offset + 11 >= |data| {
        assert Slots(data)[..i] == Slots(data);
        break;
      }
      SlotsPrefix(data, i);
      var id := data[offset];
      if id == 0 {
        continue;
      }
      var raw := ReadRaw(data, offset);
      attrMap := attrMap[id := raw];
    }
    assert Slots(data)[..VisitedCount(|data|)] == Slots(data);
  }

  /** The display path's scan: the same slots, each non-empty one listed with its current, worst and raw value. */
  method ListAttributes(data: seq<byte>) returns (rows: seq<Attribute>)
    ensures rows == Listing(Slots(data))
  {
    rows := [];
    for i := 0 to SlotCount
      invariant i <= VisitedCount(|data|)
      invariant rows == Listing(Slots(data)[..i])
    {
      var offset := TableOffset + i * SlotSize;
      if offset + 11 >= |data| {
        assert Slots(data)[..i] == Slots(data);
        break;
      }
      SlotsPrefix(data, i);
      var id := data[offset];
      if id == 0 {
        continue;
      }
      var current := data[offset + 3];
      var worst := data[offset + 4];
      var raw := ReadRaw(data, offset);
      rows := rows + [Attribute(id, current, worst, raw)];
    }
    assert Slots(data)[..VisitedCount(|data|)] == Slots(data);
  }

  /** A buffer of at least 362 bytes (so a 512-byte table) has all 30 slots visited, slot i at offset 2 + 12 * i. */
  lemma FullTableSlots(data: seq<byte>, i: nat)
    requires |data| >= SlotOffset(SlotCount - 1) + 12 && i < SlotCount
    ensures |Slots(data)| == SlotCount
    ensures Slots(data)[i].id == data[2 + 12 * i]
    ensures Slots(data)[i].current == data[2 + 12 * i + 3] && Slots(data)[i].worst == data[2 + 12 * i + 4]
    ensures Slots(data)[i].raw == FromLittleEndian(data[2 + 12 * i + 5..2 + 12 * i + 11])
  {
  }

  /** A shorter buffer has fewer than 30 slots visited. */
  lemma ShortTableSlots(data: seq<byte>)
    requires |data| < SlotOffset(SlotCount - 1) + 12
    ensures |Slots(data)| < SlotCount
  {
  }

  /** One step of the map: the last slot is skipped when empty, stored otherwise. */
  lemma AttributeMapLastSlot(slots: seq<Attribute>)
    requires slots != []
    ensures var init, a := slots[..|slots| - 1], slots[|slots| - 1];
      AttributeMap(slots) == if a.id == 0 then AttributeMap(init) else AttributeMap(init)[a.id := a.raw]
  {
  }

  /** The map's keys are exactly the non-zero ids of the slots. */
  lemma {:induction false} AttributeMapKeys(slots: seq<Attribute>, id: byte)
    ensures id in AttributeMap(slots) <==> id != 0 && exists k :: 0 <= k < |slots| && slots[k].id == id
  {
    if slots != [] {
      var init, a := slots[..|slots| - 1], slots[|slots| - 1];
      AttributeMapKeys(init, id);
      AttributeMapLastSlot(slots);
      if id != 0 && exists k :: 0 <= k < |slots| && slots[k].id == id {
        var k :| 0 <= k < |slots| && slots[k].id == id;
        if k < |init| {
          assert init[k].id == id;
        }
      }
      if id != 0 && exists k :: 0 <= k < |init| && init[k].id == id {
        var k :| 0 <= k < |init| && init[k].id == id;
        assert slots[k].id == id;
      }
    }
  }

  /** A key's value is the raw value of the last slot carrying that id. */
  lemma {:induction false} AttributeMapLastWins(slots: seq<Attribute>, id: byte)
    requires id in AttributeMap(slots)
    ensures exists k :: 0 <= k < |slots| && slots[k].id == id && AttributeMap(slots)[id] == slots[k].raw
                        && forall j :: k < j < |slots| ==> slots[j].id != id
  {
    AttributeMapKeys(slots, id);
    var init, a := slots[..|slots| - 1], slots[|slots| - 1];
    AttributeMapLastSlot(slots);
    if a.id == id {
      assert slots[|slots| - 1].id == id;
    } else {
      AttributeMapLastWins(init, id);
      var k :| 0 <= k < |init| && init[k].id == id && AttributeMap(init)[id] == init[k].raw
               && forall j :: k < j < |init| ==> init[j].id != id;
      assert slots[k] == init[k];
      forall j | k < j < |slots| ensures slots[j].id != id {
        if j < |init| {
          assert slots[j] == init[j];
        }
      }
    }
  }

  /**
   * The map holds exactly the non-zero ids of the slots, and for each one
   * the raw value of the LAST slot carrying that id.
   */
  lemma AttributeMapSpec(slots: seq<Attribute>, id: byte)
    ensures id in AttributeMap(slots) <==> id != 0 && exists k :: 0 <= k < |slots| && slots[k].id == id
    ensures id in AttributeMap(slots) ==>
      exists k :: 0 <= k < |slots| && slots[k].id == id && AttributeMap(slots)[id] == slots[k].raw
                  && forall j :: k < j < |slots| ==> slots[j].id != id
  {
    AttributeMapKeys(slots, id);
    if id in AttributeMap(slots) {
      AttributeMapLastWins(slots, id);
    }
  }

  /** Every raw value in the map of a decoded table fits in 48 bits. */
  lemma {:induction false} AttributeMapRawBound(slots: seq<Attribute>)
    requires forall k | 0 <= k < |slots| :: slots[k].raw < RawLimit
    ensures forall id | id in AttributeMap(slots) :: AttributeMap(slots)[id] < RawLimit
  {
    if slots != [] {
      AttributeMapRawBound(slots[..|slots| - 1]);
    }
  }

  /** The map of the scoring path for any buffer: no id 0, raw values below 2^48. */
  lemma ScanMapBounds(data: seq<byte>)
    ensures 0 !in AttributeMap(Slots(data))
    ensures forall id | id in AttributeMap(Slots(data)) :: AttributeMap(Slots(data))[id] < RawLimit
  {
    AttributeMapSpec(Slots(data), 0);
    AttributeMapRawBound(Slots(data));
  }

  /**
   * The display listing keeps the non-empty slots in their order: its
   * entries are slots with a non-zero id, and it lists an id exactly when
   * the scoring map has it.
   */
  lemma {:induction false} ListingSpec(slots: seq<Attribute>)
    ensures |Listing(slots)| <= |slots|
    ensures forall a | a in Listing(slots) :: a in slots && a.id != 0
    ensures forall id: byte :: id in AttributeMap(slots) <==> exists a :: a in Listing(slots) && a.id == id
  {
    if slots != [] {
      var init, last := slots[..|slots| - 1], slots[|slots| - 1];
      ListingSpec(init);
      assert forall a | a in init :: a in slots;
      forall id: byte ensures id in AttributeMap(slots) <==> exists a :: a in Listing(slots) && a.id == id {
        assert slots[..|slots| - 1] == init;
        assert AttributeMap(init).Keys <= AttributeMap(slots).Keys;
        if id in AttributeMap(slots) && !(last.id == id && id != 0) {
          assert id in AttributeMap(init);
          var a :| a in Listing(init) && a.id == id;
          assert a in Listing(slots);
        }
        if last.id == id && id != 0 {
          assert last in Listing(slots);
        }
      }
    }
  }

  /**
   * Where the two scans differ: two later slots with the same non-zero id
   * are both listed for display, in order, while the scoring map keeps only
   * the raw value of the second.
   */
  lemma DuplicateIdsListedButMapKeepsLast(slots: seq<Attribute>, a: Attribute, b: Attribute)
    requires a.id == b.id && a.id != 0
    ensures Listing(slots + [a, b]) == Listing(slots) + [a, b]
    ensures AttributeMap(slots + [a, b]) == AttributeMap(slots)[a.id := b.raw]
  {
    var withA, both := slots + [a], slots + [a, b];
    assert both[..|both| - 1] == withA && both[|both| - 1] == b;
    assert withA[..|withA| - 1] == slots && withA[|withA| - 1] == a;
  }

  /**
   * An empty slot is skipped, not a stop: the scan's extent depends only on
   * the buffer length, so clearing the id byte of slot i leaves the number of
   * slots and every other slot as they were, and a non-empty slot j still
   * reaches the map.
   */
  lemma ClearedSlotKeepsScan(data: seq<byte>, i: nat, j: nat)
    requires i < |Slots(data)| && j < |Slots(data)| && i != j && Slots(data)[j].id != 0
    ensures SlotOffset(i) < |data|
    ensures var cleared := data[SlotOffset(i) := 0];
      && |Slots(cleared)| == |Slots(data)|
      && Slots(cleared)[i].id == 0
      && Slots(cleared)[j] == Slots(data)[j]
      && Slots(data)[j].id in AttributeMap(Slots(cleared))
  {
    var cleared := data[SlotOffset(i) := 0];
    var o := SlotOffset(j);
    assert cleared[o..o + 11] == data[o..o + 11];
    assert Slots(cleared)[j] == DecodeSlot(cleared, o);
    AttributeMapSpec(Slots(cleared), Slots(data)[j].id);
  }
}
