# SimpleSmartCtl core in Dafny

SimpleSmartCtl is an Android app. It reads the SMART attribute table of a disk
behind a USB mass-storage bridge, then turns that table into a health score.
This project models the four parts of `MainActivity.kt` that are plain byte
and integer logic, and proves properties about each:

- **Command framing.** `executeScsiTransaction` builds the 31-byte Command
  Block Wrapper (CBW) of the USB Mass Storage Class Bulk-Only Transport,
  revision 1.0, section 5.1. The CBW is filled into a little-endian
  `ByteBuffer` by sequential puts. It wraps a 16-byte ATA PASS-THROUGH(16)
  command descriptor block (CDB) from T10 SAT (SCSI / ATA Translation). That
  CDB carries ATA SMART READ DATA.
- **The transaction.** It writes the CBW, reads the 512-byte data phase, then
  reads the 13-byte Command Status Wrapper (CSW, section 5.2 of the same
  standard). It decides the outcome only from the write result and the
  data-phase length. The USB connection is a scripted transport
  (`BulkTransport.UsbConnection`): each `bulkTransfer` call takes the next
  reply of a script, and the connection records the call's endpoint, length,
  timeout and sent bytes.
- **The attribute-table parser.** There are two scans of the table. The
  scoring scan builds an id → raw map in which the last slot with an id wins.
  The display scan lists every non-empty slot with its current, worst and raw
  values.
- **The health score.** Five integer sub-scores in 1..10 are combined into a
  final score (the critical minimum, or the mean). The final score gets a rank
  S / A / B / C.
- **Interface and endpoint selection.** `hasStorageInterface`,
  `findStorageInterface` and `findEndpoints` work over descriptor records.

Modules: `Bytes` (unsigned bytes, little-endian integers), `Wrappers`
(Option), `AtaCommand` (the CDB), `ByteBuffers` (the `ByteBuffer` class),
`BulkOnly` (the CBW), `BulkTransport` (the connection and the transaction),
`UsbSelection`, `SmartTable` (the parser) and `HealthScore`.

A Kotlin `Byte` is modelled as its unsigned value 0..255. The code masks every
byte it reads with `and 0xFF`. A Kotlin `Int` written by `putInt` is modelled
as its 32-bit two's-complement pattern, `x % 2^32`. The tag
`0xAA55AA55.toInt()` is therefore the negative number it is in Kotlin, and it
is written as the bytes 55 AA 55 AA.

In two places the code does less than the transport standard or a careful
host would. The model follows the code in both:

- **CSW.** The Bulk-Only Transport standard (section 6.3 of the USB Mass
  Storage Class Bulk-Only Transport, revision 1.0) has the host check the
  CSW's signature, tag and status. The code reads the CSW and never looks at
  it (`MainActivity.kt:377-380`). The model does not validate the CSW, and
  `BulkTransport.TransactionResultSpec` proves that the outcome does not
  depend on the CSW reply.
- **Short CBW write.** The code rejects only a negative write result
  (`:372`); a write of fewer than 31 bytes goes on to the data phase, and so
  it does in the model.

## Model

| member | source | states |
|---|---|---|
| `Bytes.FromLittleEndianOfLittleEndian` | app/src/main/java/com/example/simplesmartctl/MainActivity.kt:352-355 | decoding the n-byte little-endian encoding that `putInt` writes gives back any value below 256^n |
| `Bytes.LittleEndianOfFromLittleEndian` | app/src/main/java/com/example/simplesmartctl/MainActivity.kt:352-355 | re-encoding a decoded little-endian sequence at its own width gives the same bytes |
| `Bytes.FromLittleEndianBound` | app/src/main/java/com/example/simplesmartctl/MainActivity.kt:245-248 | the value of n little-endian bytes is below 256^n |
| `Bytes.FromLittleEndianSnoc` | app/src/main/java/com/example/simplesmartctl/MainActivity.kt:245-248 | adding byte k shifted left by 8k bits to the value of the first k bytes gives the value of the first k+1 bytes (the step of the raw accumulation loop) |
| `Bytes.Int32Bits` | app/src/main/java/com/example/simplesmartctl/MainActivity.kt:351-354 | a Kotlin Int written by `putInt` is the 32-bit pattern congruent to it modulo 2^32 |
| `AtaCommand.EncodePassThrough16` | app/src/main/java/com/example/simplesmartctl/MainActivity.kt:360-368 | an ATA PASS-THROUGH(16) CDB is 16 bytes with opcode 85h, and its 48-bit high-order register bytes and control byte are 0 |
| `AtaCommand.DecodePassThrough16` | app/src/main/java/com/example/simplesmartctl/MainActivity.kt:360-368 | registers are read back exactly from a 16-byte CDB with opcode 85h, and any other input is refused |
| `AtaCommand.DecodeEncodePassThrough16` | app/src/main/java/com/example/simplesmartctl/MainActivity.kt:360-368 | decoding an encoded CDB gives back its protocol, flags, features, count, LBA, device and command registers |
| `AtaCommand.SmartReadDataBytes` | app/src/main/java/com/example/simplesmartctl/MainActivity.kt:360-368 | SMART READ DATA (PIO data-in, command B0h, feature D0h, count 1, LBA mid/high 4Fh/C2h, flags 2Eh) encodes to 85 08 2E 00 D0 00 01 00 00 00 4F 00 C2 00 B0 00 |
| `AtaCommand.BuildSmartReadCdb` | app/src/main/java/com/example/simplesmartctl/MainActivity.kt:360-368 | the zeroed 16-byte array, after its eight in-place assignments, is the SMART READ DATA CDB on every call |
| `ByteBuffers.ByteBuffer.Allocate` | app/src/main/java/com/example/simplesmartctl/MainActivity.kt:352 | a new buffer is all zero, at position 0, with the requested capacity |
| `ByteBuffers.ByteBuffer.Put` | app/src/main/java/com/example/simplesmartctl/MainActivity.kt:356-358 | a relative put writes one byte at the position, advances the position by one and changes nothing else |
| `ByteBuffers.ByteBuffer.PutInt` | app/src/main/java/com/example/simplesmartctl/MainActivity.kt:353-355 | a relative putInt writes the value's 32-bit pattern low byte first, advances the position by four and changes nothing else |
| `ByteBuffers.ByteBuffer.PutAll` | app/src/main/java/com/example/simplesmartctl/MainActivity.kt:369 | a relative bulk put copies the source array at the position, advances past it and changes nothing else |
| `BulkOnly.EncodeCbw` | app/src/main/java/com/example/simplesmartctl/MainActivity.kt:352-369 | a CBW serialises to 31 bytes: flags, LUN and CB length at bytes 12-14 and the CDB at bytes 15-30 |
| `BulkOnly.DecodeCbw` | app/src/main/java/com/example/simplesmartctl/MainActivity.kt:352-369 | exactly the 31-byte inputs parse as a CBW, and every parsed CBW has 32-bit fields and a 16-byte CDB |
| `BulkOnly.DecodeEncodeCbw` | app/src/main/java/com/example/simplesmartctl/MainActivity.kt:352-369 | parsing a serialised CBW gives the same CBW back |
| `BulkOnly.EncodeDecodeCbw` | app/src/main/java/com/example/simplesmartctl/MainActivity.kt:352-369 | serialising a parsed 31-byte CBW gives the same bytes back |
| `BulkOnly.SmartCbwBytes` | app/src/main/java/com/example/simplesmartctl/MainActivity.kt:351-369 | the SMART CBW is 55 53 42 43, 55 AA 55 AA, 00 02 00 00, 80, 00, 10h, then the SMART READ DATA CDB |
| `BulkOnly.PutSmartCbwIntegers` | app/src/main/java/com/example/simplesmartctl/MainActivity.kt:353-355 | the three putInt calls leave the signature, tag and length 512 in bytes 0-11, advance the position to 12 and leave bytes 12-30 as they were |
| `BulkOnly.BuildSmartCbw` | app/src/main/java/com/example/simplesmartctl/MainActivity.kt:351-371 | the sequential puts fill the whole 31-byte buffer, and its backing array is exactly the serialised SMART CBW |
| `BulkTransport.UsbConnection.BulkTransfer` | app/src/main/java/com/example/simplesmartctl/MainActivity.kt:372-378 | a transfer is appended to the call log with its endpoint, length, timeout and (for OUT) sent bytes; it returns the next scripted result, or -1 once the script is exhausted; an IN transfer writes the delivered bytes into the buffer, at most `length` of them |
| `BulkTransport.DeliverAt` | app/src/main/java/com/example/simplesmartctl/MainActivity.kt:374-375 | after an IN transfer, a buffer byte comes from the delivered bytes when it lies within both the transfer length and the delivery, and is unchanged otherwise |
| `BulkTransport.TransactionCalls` | app/src/main/java/com/example/simplesmartctl/MainActivity.kt:372-378 | the transaction issues OUT(31 bytes, 2000 ms) with the CBW and, only if that returned a non-negative value, IN(512, 3000) then IN(13, 2000) |
| `BulkTransport.ReadDataAndStatus` | app/src/main/java/com/example/simplesmartctl/MainActivity.kt:374-378 | the data read goes into a fresh zeroed 512-byte buffer, and the CSW read that follows changes only the call log and the script |
| `BulkTransport.ExecuteScsiTransaction` | app/src/main/java/com/example/simplesmartctl/MainActivity.kt:350-381 | the calls made are exactly `TransactionCalls`, and the result is the data buffer if and only if the CBW write was non-negative and the data read returned 512 |
| `BulkTransport.TransactionResultSpec` | app/src/main/java/com/example/simplesmartctl/MainActivity.kt:372-380 | a failed CBW write gives null; otherwise data is returned if and only if the data read returned 512; the outcome is the same for every CSW reply; the returned 512 bytes are the delivered bytes, zero-padded |
| `UsbSelection.AnyMassStorage` | app/src/main/java/com/example/simplesmartctl/MainActivity.kt:133-136 | the interface loop finds a class-8 interface if and only if one exists |
| `UsbSelection.HasStorageInterface` | app/src/main/java/com/example/simplesmartctl/MainActivity.kt:131-138 | true if and only if the device class is 8 or some interface has class 8 |
| `UsbSelection.FirstFrom` | app/src/main/java/com/example/simplesmartctl/MainActivity.kt:326-333 | an early-return search gives the first index satisfying the test, or none if no index does |
| `UsbSelection.FindStorageInterface` | app/src/main/java/com/example/simplesmartctl/MainActivity.kt:325-335 | the result is null exactly when the device has no interfaces, and is otherwise a valid interface index |
| `UsbSelection.FindStorageInterfaceSpec` | app/src/main/java/com/example/simplesmartctl/MainActivity.kt:325-335 | the result is the first class-8 protocol-50h interface if there is one; failing that, the first class-8 interface; failing that, interface 0 |
| `UsbSelection.FoundInterfaceIsStorage` | app/src/main/java/com/example/simplesmartctl/MainActivity.kt:325-335 | on a device that has a class-8 interface, the chosen interface has class 8 |
| `UsbSelection.FindEndpoints` | app/src/main/java/com/example/simplesmartctl/MainActivity.kt:337-348 | the results are the last bulk IN endpoint and the last bulk non-IN endpoint, each null exactly when no such endpoint exists |
| `SmartTable.VisitedCount` | app/src/main/java/com/example/simplesmartctl/MainActivity.kt:239-241 | the scan visits at most 30 slots, every visited slot has offset+11 inside the buffer, and the scan stops only at 30 slots or at the first slot where offset+11 ≥ size |
| `SmartTable.DecodeSlot` | app/src/main/java/com/example/simplesmartctl/MainActivity.kt:242-248 | the 6-byte little-endian raw value of a slot is below 2^48 |
| `SmartTable.ReadRaw` | app/src/main/java/com/example/simplesmartctl/MainActivity.kt:245-248 | the shift-and-add loop computes the 6-byte little-endian value at offset+5..offset+10, which is below 2^48 |
| `SmartTable.BuildAttributeMap` | app/src/main/java/com/example/simplesmartctl/MainActivity.kt:239-250 | the scoring scan's HashMap is the last-wins map of the visited non-empty slots |
| `SmartTable.ListAttributes` | app/src/main/java/com/example/simplesmartctl/MainActivity.kt:388-404 | the display scan lists every visited non-empty slot, in order, with id, current, worst and raw |
| `SmartTable.FullTableSlots` | app/src/main/java/com/example/simplesmartctl/MainActivity.kt:239-241 | a buffer of at least 362 bytes (so a 512-byte table) gets all 30 slots, with slot i read at offset 2+12i |
| `SmartTable.ShortTableSlots` | app/src/main/java/com/example/simplesmartctl/MainActivity.kt:239-241 | a buffer shorter than 362 bytes gets fewer than 30 slots |
| `SmartTable.AttributeMapKeys` | app/src/main/java/com/example/simplesmartctl/MainActivity.kt:243-249 | an id is a key of the scoring map exactly when it is non-zero and some visited slot carries it |
| `SmartTable.AttributeMapLastWins` | app/src/main/java/com/example/simplesmartctl/MainActivity.kt:243-249 | a key's value is the raw value of a slot with that id after which no slot carries the id |
| `SmartTable.AttributeMapSpec` | app/src/main/java/com/example/simplesmartctl/MainActivity.kt:239-249 | an id is in the map if and only if it is non-zero and some slot carries it, and its value is the raw value of the last slot with that id |
| `SmartTable.AttributeMapRawBound` | app/src/main/java/com/example/simplesmartctl/MainActivity.kt:245-249 | if every slot's raw value is below 2^48, so is every value in the map |
| `SmartTable.ScanMapBounds` | app/src/main/java/com/example/simplesmartctl/MainActivity.kt:239-249 | for any buffer, id 0 is never a key and every raw value is below 2^48 |
| `SmartTable.ListingSpec` | app/src/main/java/com/example/simplesmartctl/MainActivity.kt:388-403 | the display listing holds only slots with a non-zero id and no more entries than slots, and it shows an id exactly when the scoring map has it |
| `SmartTable.DuplicateIdsListedButMapKeepsLast` | app/src/main/java/com/example/simplesmartctl/MainActivity.kt:243-249 | two slots with the same non-zero id are both listed for display, in order, while the scoring map keeps only the second one's raw value |
| `SmartTable.ClearedSlotKeepsScan` | app/src/main/java/com/example/simplesmartctl/MainActivity.kt:243 | clearing the id byte of slot i leaves the slot count and every other slot unchanged, and a non-empty slot j still reaches the map: an empty slot is skipped, not a stop |
| `HealthScore.ReallocatedScore` | app/src/main/java/com/example/simplesmartctl/MainActivity.kt:252-253 | the reallocated-sector score lies in 1..10 and is 10 exactly when the raw count is 0 |
| `HealthScore.SectorScore` | app/src/main/java/com/example/simplesmartctl/MainActivity.kt:257-263 | the pending and uncorrectable scores are 1 or 10, and 10 exactly when the raw count is 0 |
| `HealthScore.TemperatureOf` | app/src/main/java/com/example/simplesmartctl/MainActivity.kt:267-268 | the temperature is the low byte of id 194's raw value if present, else of id 190's, else 0 |
| `HealthScore.TemperatureScore` | app/src/main/java/com/example/simplesmartctl/MainActivity.kt:269-275 | the temperature score lies in 2..10 |
| `HealthScore.HoursScore` | app/src/main/java/com/example/simplesmartctl/MainActivity.kt:278-286 | the power-on-hours score lies in 5..10 |
| `HealthScore.ScoreAttributes` | app/src/main/java/com/example/simplesmartctl/MainActivity.kt:252-287 | every sub-score lies in 1..10, and each is 10 exactly when its own attribute in the map is missing, 0 (ids 5, 197, 198), below 45 degrees in its low byte (194, else 190) or below 10000 hours (id 9) |
| `HealthScore.MissingAttributeReadsAsZero` | app/src/main/java/com/example/simplesmartctl/MainActivity.kt:253-278 | for every id except 194, a missing attribute scores exactly as if it were present with raw 0 |
| `HealthScore.MissingTemperatureFallsBack` | app/src/main/java/com/example/simplesmartctl/MainActivity.kt:267-270 | a missing 194 falls back to 190 (60 degrees scores 2), while a present 194 with raw 0 reads as no temperature and scores 10 |
| `HealthScore.Min3` | app/src/main/java/com/example/simplesmartctl/MainActivity.kt:289 | the critical minimum is one of the three scores and no larger than any of them |
| `HealthScore.FinalScore` | app/src/main/java/com/example/simplesmartctl/MainActivity.kt:289-291 | the final score lies in [1, 10]; it equals the critical minimum when that is below 5, and otherwise five times it is the sum of the sub-scores |
| `HealthScore.RankOf` | app/src/main/java/com/example/simplesmartctl/MainActivity.kt:296-301 | the rank is S from 9.0, A in [7.0, 9.0), B in [5.0, 7.0) and C below 5.0 |
| `HealthScore.Analyze` | app/src/main/java/com/example/simplesmartctl/MainActivity.kt:252-301 | every sub-score lies in 1..10, the final score in [1, 10], and the rank is the final score's band |
| `HealthScore.SubScoresMonotone` | app/src/main/java/com/example/simplesmartctl/MainActivity.kt:252-286 | a larger raw count, temperature or hour count never gives a higher sub-score |
| `HealthScore.HealthyMeanBound` | app/src/main/java/com/example/simplesmartctl/MainActivity.kt:289-301 | when no critical sub-score is below 5, the final score is at least 32/5 and the rank is not C |
| `HealthScore.RankCExactlyOnDamage` | app/src/main/java/com/example/simplesmartctl/MainActivity.kt:252-301 | the rank is C exactly when raw 197 ≠ 0, raw 198 ≠ 0 or raw 5 ≥ 10 |
| `HealthScore.CompositeExamples` | app/src/main/java/com/example/simplesmartctl/MainActivity.kt:289-301 | sub-scores (10,10,10,10,10) give 10.0 and S, (1,10,10,10,10) give 1.0 and C, and (5,10,10,8,9) give 8.4 and A |
| `HealthScore.ThresholdExamples` | app/src/main/java/com/example/simplesmartctl/MainActivity.kt:252-286 | sample boundary values give these sub-scores: temperature 44/45/54/55/59/60/0 scores 10/8/8/5/5/2/10, and hours 9999/10000/49999/50000 score 10/9/6/5 |
| `HealthScore.AnalyzeSmartData` | app/src/main/java/com/example/simplesmartctl/MainActivity.kt:235-301 | scanning a table and scoring its map ranks it C exactly when the map shows pending or uncorrectable sectors, or 10 or more reallocated ones |

## Left out

- The Android lifecycle and UI are not modelled: `onCreate`, the language toggle, disconnecting, status and log text, and the result dialog and clipboard. They are presentation only.
- The permission flow (`checkPermission`, the broadcast receiver) is not modelled. It is operating-system plumbing.
- The device loop in `findAndConnectDevice` and the threading in `runSmartCtl` are not modelled. The same goes for opening, claiming, releasing and closing the device, and for the cached buffer. This is concurrency plus foreign USB APIs. Only the selection rules they call are modelled.
- `getAttributeName` is not modelled. It is a display-only lookup table of names.
- The sub-score names and comment strings, and the formatted text of both scans, are not modelled. The model keeps only the numbers.
- The final score is a `real`, not a `Double`. The sum of five integers in 1..10 is exact in both, but a `Double` mean such as 42 / 5 is only the correctly rounded quotient k / 5. The band bounds 5.0, 7.0 and 9.0 are exact in `Double`, and rounding k / 5 cannot carry it across an exact bound, so the ranks agree; the displayed value may differ in its last binary digit.
- `ByteBuffers.ByteBuffer.Put`: it requires room in the buffer instead of modelling `BufferOverflowException`. The CBW builder always writes exactly 31 bytes into 31, so the exception is never reached. `PutInt`, `PutAll` and `PutBytes` require room in the same way.
- `BulkTransport.UsbConnection.BulkTransfer`: the scripted reply's return value and its delivered bytes are independent. A real device reports how many bytes it delivered. Timeouts are recorded, not enforced.
- `BulkTransport.ExecuteScsiTransaction`: it requires `epIn` to be an IN endpoint and `epOut` not to be one. `findEndpoints`, the only source of its arguments, guarantees this.
- `UsbSelection.FindStorageInterface` and `UsbSelection.FindEndpoints` return indices into the descriptor sequences rather than interface and endpoint objects. Records have no identity, so "the last bulk IN endpoint" can only be stated by position.
- CSW signature, tag and status validation is not modelled. The code does not perform it.
