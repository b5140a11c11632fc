/**
 * One Bulk-Only Transport command/data/status exchange over a USB
 * connection. The connection is abstract: it answers each `bulkTransfer`
 * with the next reply of a script and records every call made on it.
 */
module BulkTransport {
  import opened Bytes
  import opened Wrappers
  import opened UsbSelection
  import opened BulkOnly

  const CommandTimeoutMs: nat := 2000
  const DataTimeoutMs: nat := 3000
  const StatusTimeoutMs: nat := 2000
  /** The Command Status Wrapper of Bulk-Only Transport section 5.2 is 13 bytes. */
  const CswLength: nat := 13

  /** One `bulkTransfer(endpoint, buffer, length, timeout)` call; `sent` holds what an OUT transfer handed over. */
  datatype TransferCall = TransferCall(endpoint: Endpoint, length: nat, timeoutMs: nat, sent: seq<byte>)

  /** The scripted answer to one transfer: its return value and, for an IN transfer, the bytes the device delivers. */
  datatype Reply = Reply(status: int, payload: seq<byte>)

  /** The return value of the next transfer: -1 (failure) once the script is exhausted. */
  function NextStatus(replies: seq<Reply>): int {
    if replies == [] then -1 else replies[0].status
  }

  function NextPayload(replies: seq<Reply>): seq<byte> {
    if replies == [] then [] else replies[0].payload
  }

  function Consume(replies: seq<Reply>): seq<Reply> {
    if replies == [] then [] else replies[1..]
  }

  /** buf after an IN transfer of at most `length` bytes that delivered `payload`. */
  function Deliver(buf: seq<byte>, length: nat, payload: seq<byte>): (r: seq<byte>)
    requires length <= |buf|
    ensures |r| == |buf|
  {
    var n := if length < |payload| then length else |payload|;
    payload[..n] + buf[n..]
  }

  /** Byte i after the delivery: from the payload within the transfer length, else as before. */
  lemma DeliverAt(buf: seq<byte>, length: nat, payload: seq<byte>, i: nat)
    requires length <= |buf| && i < |buf|
    ensures Deliver(buf, length, payload)[i] == if i < length && i < |payload| then payload[i] else buf[i]
  {
  }

  class UsbConnection {
    /** Every transfer issued so far, oldest first. */
    var calls: seq<TransferCall>
    /** The answers still to be given. */
    var replies: seq<Reply>

    constructor (script: seq<Reply>)
      ensures calls == [] && replies == script
    {
      calls := [];
      replies := script;
    }

    /**
     * A bulk transfer on `ep` of `length` bytes of `buffer`. An IN transfer
     * writes the delivered bytes into the buffer; an OUT transfer leaves it
     * alone and is recorded with the bytes it sent.
     */
    method BulkTransfer(ep: Endpoint, buffer: array<byte>, length: nat, timeoutMs: nat) returns (r: int)
      requires length <= buffer.Length
      modifies this, buffer
      ensures calls == old(calls) + [TransferCall(ep, length, timeoutMs,
                                                  if ep.direction == DirIn then [] else old(buffer[..length]))]
      ensures replies == Consume(old(replies))
      ensures r == NextStatus(old(replies))
      ensures buffer[..] == if ep.direction == DirIn then Deliver(old(buffer[..]), length, NextPayload(old(replies)))
                            else old(buffer[..])
    {
      var payload := NextPayload(replies);
      r := NextStatus(replies);
      calls := calls + [TransferCall(ep, length, timeoutMs, if ep.direction == DirIn then [] else buffer[..length])];
      replies := Consume(replies);
      if ep.direction == DirIn {
        var n := if length < |payload| then length else |payload|;
        forall i | 0 <= i < n {
          buffer[i] := payload[i];
        }
      }
    }
  }

  /** The transfers one transaction issues: the CBW, then (only if it was accepted) the data and the CSW reads. */
  function TransactionCalls(epOut: Endpoint, epIn: Endpoint, replies: seq<Reply>): (r: seq<TransferCall>)
    ensures |r| == if NextStatus(replies) < 0 then 1 else 3
    ensures r[0] == TransferCall(epOut, CbwLength, CommandTimeoutMs, EncodeCbw(SmartCbw))
    ensures |r| == 3 ==>
              r[1] == TransferCall(epIn, SmartDataLength, DataTimeoutMs, [])
              && r[2] == TransferCall(epIn, CswLength, StatusTimeoutMs, [])
  {
    SmartCbwValid();
    [TransferCall(epOut, CbwLength, CommandTimeoutMs, EncodeCbw(SmartCbw))]
    + if NextStatus(replies) < 0 then []
      else [TransferCall(epIn, SmartDataLength, DataTimeoutMs, []), TransferCall(epIn, CswLength, StatusTimeoutMs, [])]
  }

  function RepliesLeft(replies: seq<Reply>): seq<Reply> {
    if NextStatus(replies) < 0 then Consume(replies) else Consume(Consume(Consume(replies)))
  }

  /** What the transaction returns: the 512-byte data buffer exactly when the CBW write succeeded and the data read returned 512. */
  function TransactionResult(replies: seq<Reply>): Option<seq<byte>> {
    if NextStatus(replies) < 0 then None
    else if NextStatus(Consume(replies)) == SmartDataLength then
      Some(Deliver(seq(SmartDataLength, _ => 0), SmartDataLength, NextPayload(Consume(replies))))
    else None
  }

  /**
   * The data and status phases: a 512-byte read into a fresh zeroed buffer
   * with the longer timeout, then a 13-byte CSW read whose result and
   * contents are dropped. Returns the data read's result and the buffer.
   */
  method ReadDataAndStatus(conn: UsbConnection, epIn: Endpoint) returns (readLen: int, data: seq<byte>)
    requires epIn.direction == DirIn
    modifies conn
    ensures conn.calls == old(conn.calls) + [TransferCall(epIn, SmartDataLength, DataTimeoutMs, []),
                                             TransferCall(epIn, CswLength, StatusTimeoutMs, [])]
    ensures conn.replies == Consume(Consume(old(conn.replies)))
    ensures readLen == NextStatus(old(conn.replies))
    ensures data == Deliver(seq(SmartDataLength, _ => 0), SmartDataLength, NextPayload(old(conn.replies)))
  {
    var dataBuffer := new byte[SmartDataLength](_ => 0);
    assert dataBuffer[..] == seq(SmartDataLength, _ => 0);
    readLen := conn.BulkTransfer(epIn, dataBuffer, dataBuffer.Length, DataTimeoutMs);
    data := dataBuffer[..];
    var cswBuffer := new byte[CswLength](_ => 0);
    var _ := conn.BulkTransfer(epIn, cswBuffer, cswBuffer.Length, StatusTimeoutMs);
  }

  /**
   * Writes the SMART CBW, reads the 512-byte data phase and the 13-byte CSW,
   * and returns the data buffer if the data read returned 512. The CSW is
   * read and then ignored.
   */
  method ExecuteScsiTransaction(conn: UsbConnection, epOut: Endpoint, epIn: Endpoint)
    returns (smartData: Option<seq<byte>>)
    requires epIn.direction == DirIn && epOut.direction != DirIn
    modifies conn
    ensures conn.calls == old(conn.calls) + TransactionCalls(epOut, epIn, old(conn.replies))
    ensures conn.replies == RepliesLeft(old(conn.replies))
    ensures smartData == TransactionResult(old(conn.replies))
  {
    SmartCbwValid();
    var cbwBytes := BuildSmartCbw();
    assert cbwBytes[..cbwBytes.Length] == EncodeCbw(SmartCbw);
    var written := conn.BulkTransfer(epOut, cbwBytes, cbwBytes.Length, CommandTimeoutMs);
    if written < 0 {
      return None;
    }
    var readLen, data := ReadDataAndStatus(conn, epIn);
    smartData := if readLen == SmartDataLength then Some(data) else None;
  }

  /**
   * The outcome rule: a failed CBW write gives no data; otherwise the data
   * buffer, zero-padded past what the device delivered, is returned exactly
   * when the data read returned 512, whatever the CSW read returned.
   */
  lemma TransactionResultSpec(replies: seq<Reply>, csw: Reply)
    ensures NextStatus(replies) < 0 ==> TransactionResult(replies).None?
    ensures NextStatus(replies) >= 0 ==>
      (TransactionResult(replies).Some? <==> NextStatus(Consume(replies)) == 512)
    ensures |replies| >= 3 ==>
      TransactionResult(replies) == TransactionResult(replies[..2] + [csw] + replies[3..])
    ensures TransactionResult(replies).Some? ==>
      var data := TransactionResult(replies).value; var delivered := replies[1].payload;
      |data| == 512 && forall i | 0 <= i < 512 :: data[i] == if i < |delivered| then delivered[i] else 0
  {
  }
}
