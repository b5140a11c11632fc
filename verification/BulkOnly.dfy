/**
 * The 31-byte Command Block Wrapper of the USB Mass Storage Class
 * Bulk-Only Transport (revision 1.0, section 5.1) and the one CBW the
 * app sends: a data-in request for the 512-byte SMART table.
 */
module BulkOnly {
  import opened Bytes
  import opened Wrappers
  import opened ByteBuffers
  import opened AtaCommand

  const CbwLength: nat := 31
  /** "USBC" read as a little-endian 32-bit integer. */
  const CbwSignature: nat := 0x43425355
  /** The app's tag, `0xAA55AA55.toInt()`: a negative Kotlin Int. */
  const SmartTag: int := 0xAA55AA55 - 0x1_0000_0000
  const SmartDataLength: nat := 512
  /** bmCBWFlags with bit 7 set: data flows from device to host. */
  const DataIn: byte := 0x80

  /** A CBW's fields as they stand on the wire (the 32-bit fields unsigned). */
  datatype CommandBlockWrapper = Cbw(
    signature: nat,
    tag: nat,
    dataTransferLength: nat,
    flags: byte,
    lun: byte,
    cbLength: byte,
    cb: seq<byte>)

  predicate ValidCbw(w: CommandBlockWrapper) {
    w.signature < 0x1_0000_0000 && w.tag < 0x1_0000_0000
    && w.dataTransferLength < 0x1_0000_0000 && |w.cb| == 16
  }

  function EncodeCbw(w: CommandBlockWrapper): (b: seq<byte>)
    requires ValidCbw(w)
    ensures |b| == CbwLength && b[15..] == w.cb
    ensures b[12] == w.flags && b[13] == w.lun && b[14] == w.cbLength
  {
    LittleEndian(w.signature, 4) + LittleEndian(w.tag, 4) + LittleEndian(w.dataTransferLength, 4)
    + [w.flags, w.lun, w.cbLength] + w.cb
  }

  function DecodeCbw(b: seq<byte>): (r: Option<CommandBlockWrapper>)
    ensures r.Some? <==> |b| == CbwLength
    ensures r.Some? ==> ValidCbw(r.value)
  {
    if |b| != CbwLength then None
    else
      FromLittleEndianBound(b[0..4]);
      FromLittleEndianBound(b[4..8]);
      FromLittleEndianBound(b[8..12]);
      Some(Cbw(FromLittleEndian(b[0..4]), FromLittleEndian(b[4..8]), FromLittleEndian(b[8..12]),
               b[12], b[13], b[14], b[15..]))
  }

  lemma DecodeEncodeCbw(w: CommandBlockWrapper)
    requires ValidCbw(w)
    ensures DecodeCbw(EncodeCbw(w)) == Some(w)
  {
    var b := EncodeCbw(w);
    assert b[0..4] == LittleEndian(w.signature, 4);
    assert b[4..8] == LittleEndian(w.tag, 4);
    assert b[8..12] == LittleEndian(w.dataTransferLength, 4);
    FromLittleEndianOfLittleEndian(w.signature, 4);
    FromLittleEndianOfLittleEndian(w.tag, 4);
    FromLittleEndianOfLittleEndian(w.dataTransferLength, 4);
  }

  lemma EncodeDecodeCbw(b: seq<byte>)
    requires |b| == CbwLength
    ensures EncodeCbw(DecodeCbw(b).value) == b
  {
    LittleEndianOfFromLittleEndian(b[0..4]);
    LittleEndianOfFromLittleEndian(b[4..8]);
    LittleEndianOfFromLittleEndian(b[8..12]);
    assert b == b[0..4] + b[4..8] + b[8..12] + b[12..15] + b[15..];
  }

  /** The CBW of the SMART READ DATA transaction. */
  const SmartCbw: CommandBlockWrapper :=
    Cbw(CbwSignature, Int32Bits(SmartTag), SmartDataLength, DataIn, 0, 16, EncodePassThrough16(SmartReadData))

  lemma SmartCbwValid()
    ensures ValidCbw(SmartCbw)
  {
  }

  /** The SMART CBW, byte for byte: signature, tag, length 512, flags, LUN 0, CB length 16, then the CDB. */
  lemma SmartCbwBytes()
    ensures ValidCbw(SmartCbw)
    ensures EncodeCbw(SmartCbw) ==
      [0x55, 0x53, 0x42, 0x43, 0x55, 0xAA, 0x55, 0xAA, 0x00, 0x02, 0x00, 0x00, 0x80, 0x00, 16]
      + [0x85, 0x08, 0x2E, 0, 0xD0, 0, 0x01, 0, 0, 0, 0x4F, 0, 0xC2, 0, 0xB0, 0]
  {
    assert Int32Bits(SmartTag) == 0xAA55AA55;
    assert LittleEndian(CbwSignature, 4) == [0x55, 0x53, 0x42, 0x43];
    assert LittleEndian(0xAA55AA55, 4) == [0x55, 0xAA, 0x55, 0xAA];
    assert LittleEndian(SmartDataLength, 4) == [0x00, 0x02, 0x00, 0x00];
    SmartReadDataBytes();
  }

  /** The first 15 CBW bytes of the SMART request: signature, tag, data length, flags, LUN, CB length. */
  function SmartCbwHeader(): (h: seq<byte>)
    ensures |h| == 15 && h + EncodePassThrough16(SmartReadData) == EncodeCbw(SmartCbw)
  {
    LittleEndian(CbwSignature, 4) + LittleEndian(Int32Bits(SmartTag), 4) + LittleEndian(SmartDataLength, 4)
    + [DataIn, 0, 16]
  }

  /** The three `putInt` calls: signature, tag and data-transfer length. */
  method PutSmartCbwIntegers(buffer: ByteBuffer)
    requires buffer.Valid() && buffer.position == 0 && buffer.data.Length == CbwLength
    modifies buffer, buffer.data
    ensures buffer.Valid() && buffer.position == 12
    ensures buffer.data[..buffer.position] == SmartCbwHeader()[..12]
    ensures buffer.data[..] == SmartCbwHeader()[..12] + old(buffer.data[12..])
  {
    assert Int32Bits(CbwSignature) == CbwSignature && Int32Bits(SmartDataLength) == SmartDataLength;
    ghost var signature, tag, length :=
      LittleEndian(CbwSignature, 4), LittleEndian(Int32Bits(SmartTag), 4), LittleEndian(SmartDataLength, 4);
    assert SmartCbwHeader()[..12] == signature + tag + length;
    assert buffer.data[..buffer.position] == [];
    buffer.PutInt(CbwSignature);
    assert buffer.data[..buffer.position] == signature;
    buffer.PutInt(SmartTag);
    assert buffer.data[..buffer.position] == signature + tag;
    buffer.PutInt(SmartDataLength);
  }

  /**
   * Fills a 31-byte little-endian ByteBuffer by sequential puts (signature,
   * tag, length, flags, LUN, CB length, then the CDB array) and returns its
   * backing array.
   */
  method BuildSmartCbw() returns (cbw: array<byte>)
    ensures fresh(cbw)
    ensures ValidCbw(SmartCbw) && cbw[..] == EncodeCbw(SmartCbw)
  {
    var buffer := new ByteBuffer.Allocate(CbwLength);
    PutSmartCbwIntegers(buffer);
    buffer.Put(DataIn);
    buffer.Put(0);
    buffer.Put(16);
    assert buffer.data[..buffer.position] == SmartCbwHeader();
    var cdb := BuildSmartReadCdb();
    buffer.PutAll(cdb);
    cbw := buffer.data;
    assert cbw[..] == cbw[..buffer.position];
  }
}
