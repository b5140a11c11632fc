/**
 * The 16-byte ATA PASS-THROUGH(16) command descriptor block of T10 SAT
 * (SCSI / ATA Translation) that tunnels the ATA SMART READ DATA command,
 * as `executeScsiTransaction` assembles it in place.
 */
module AtaCommand {
  import opened Bytes
  import opened Wrappers

  const PassThrough16Opcode: byte := 0x85
  /** SAT protocol 4: PIO data-in. */
  const PioDataIn: nat := 4
  /** ATA command SMART, with its features sub-command READ DATA. */
  const SmartCommand: byte := 0xB0
  const SmartReadDataFeature: byte := 0xD0
  /** The LBA mid / high values every SMART command must carry. */
  const SmartLbaMid: byte := 0x4F
  const SmartLbaHigh: byte := 0xC2

  /**
   * The (28-bit, non-extended) ATA registers and pass-through flags that a
   * PASS-THROUGH(16) CDB carries. `transferFlags` is CDB byte 2: off-line,
   * check-condition, transfer type, direction, byte/block and length field.
   */
  datatype AtaRegisters = AtaRegisters(
    protocol: nat,
    transferFlags: byte,
    features: byte,
    count: byte,
    lbaLow: byte,
    lbaMid: byte,
    lbaHigh: byte,
    device: byte,
    command: byte)

  predicate ValidRegisters(r: AtaRegisters) {
    r.protocol < 16
  }

  /** The SMART READ DATA request SimpleSmartCtl issues. */
  const SmartReadData: AtaRegisters :=
    AtaRegisters(PioDataIn, 0x2E, SmartReadDataFeature, 1, 0, SmartLbaMid, SmartLbaHigh, 0, SmartCommand)

  /**
   * The CDB layout: byte 1 holds the protocol shifted left by one bit
   * (multiple count and the extend bit 0), byte 4 features, byte 6 count,
   * bytes 8/10/12 LBA low/mid/high, byte 13 device, byte 14 command; the
   * 48-bit upper halves and the control byte are 0.
   */
  function EncodePassThrough16(r: AtaRegisters): (cdb: seq<byte>)
    requires ValidRegisters(r)
    ensures |cdb| == 16 && cdb[0] == PassThrough16Opcode
    ensures forall i | i in {3, 5, 7, 9, 11, 15} :: cdb[i] == 0
  {
    [PassThrough16Opcode, r.protocol * 2, r.transferFlags, 0, r.features, 0, r.count, 0,
     r.lbaLow, 0, r.lbaMid, 0, r.lbaHigh, r.device, r.command, 0]
  }

  /** Reads the registers back out of a CDB; anything else than a 16-byte PASS-THROUGH(16) is refused. */
  function DecodePassThrough16(cdb: seq<byte>): (r: Option<AtaRegisters>)
    ensures r.Some? <==> |cdb| == 16 && cdb[0] == PassThrough16Opcode
    ensures r.Some? ==> ValidRegisters(r.value) && r.value.command == cdb[14]
  {
    if |cdb| != 16 || cdb[0] != PassThrough16Opcode then None
    else Some(AtaRegisters((cdb[1] / 2) % 16, cdb[2], cdb[4], cdb[6], cdb[8], cdb[10], cdb[12], cdb[13], cdb[14]))
  }

  lemma DecodeEncodePassThrough16(r: AtaRegisters)
    requires ValidRegisters(r)
    ensures DecodePassThrough16(EncodePassThrough16(r)) == Some(r)
  {
  }

  /** The CDB bytes of SMART READ DATA, written out. */
  lemma SmartReadDataBytes()
    ensures EncodePassThrough16(SmartReadData) ==
      [0x85, 0x08, 0x2E, 0, 0xD0, 0, 0x01, 0, 0, 0, 0x4F, 0, 0xC2, 0, 0xB0, 0]
  {
  }

  /**
   * Allocates a zeroed 16-byte array and sets the eight non-zero bytes of
   * the SMART READ DATA CDB in place; the result is the same on every call.
   */
  method BuildSmartReadCdb() returns (cdb: array<byte>)
    ensures fresh(cdb)
    ensures cdb[..] == EncodePassThrough16(SmartReadData)
  {
    cdb := new byte[16](_ => 0);
    cdb[0] := 0x85;
    cdb[1] := PioDataIn * 2;
    cdb[2] := 0x2E;
    cdb[4] := 0xD0;
    cdb[6] := 0x01;
    cdb[10] := 0x4F;
    cdb[12] := 0xC2;
    cdb[14] := 0xB0;
  }
}
