/** An abstract two-wire bus device standing in for the transport the driver is
    handed. It records every transaction it is asked to perform, in order, and
    answers each one from a fixed reply script indexed by the transaction's
    position in the trace. */
module Bus {

  /** A transport error, passed through to the driver's caller unchanged. */
  datatype BusError = BusError(code: nat)

  datatype Result<T> = Ok(value: T) | Err(error: BusError)

  /** One bus transaction: a write of some bytes, or a write of some bytes
      followed, in the same transaction, by a read of `len` bytes. */
  datatype Transaction =
    | Write(addr: bv8, bytes: seq<bv8>)
    | WriteRead(addr: bv8, bytes: seq<bv8>, len: nat)

  /** How the bus answers one transaction. For a read, `data` is what the
      device sends back. */
  datatype Reply = Ack(data: seq<bv8>) | Nack(error: BusError)

  /** The outcome a reply gives a transaction that returns no data. */
  function Status(reply: Reply): Result<()>
  {
    if reply.Ack? then Ok(()) else Err(reply.error)
  }

  /** The `len` bytes a read places in its buffer when the device sends `data`:
      the device's bytes in order, zero past their end. */
  function Fill(data: seq<bv8>, len: nat): (buf: seq<bv8>)
    ensures |buf| == len
    ensures forall i :: 0 <= i < len ==> buf[i] == if i < |data| then data[i] else 0
  {
    if len <= |data| then data[..len] else data + seq(len - |data|, _ => 0)
  }

  class I2c {
    /** Every transaction performed so far, oldest first. */
    var trace: seq<Transaction>
    /** The reply to the transaction at each position of the trace. */
    const replies: nat -> Reply

    constructor (replies: nat -> Reply)
      ensures trace == [] && this.replies == replies
    {
      trace := [];
      this.replies := replies;
    }

    /** Writes `bytes` to the device at `address`. */
    method Write(address: bv8, bytes: seq<bv8>) returns (r: Result<()>)
      modifies this
      ensures trace == old(trace) + [Transaction.Write(address, bytes)]
      ensures r == Status(replies(|old(trace)|))
    {
      r := Status(replies(|trace|));
      trace := trace + [Transaction.Write(address, bytes)];
    }

    /** Writes `bytes` to the device at `address`, then reads into all of `buf`.
        On an error, `buf` is left as it was. */
    method WriteRead(address: bv8, bytes: seq<bv8>, buf: array<bv8>) returns (r: Result<()>)
      modifies this, buf
      ensures trace == old(trace) + [Transaction.WriteRead(address, bytes, buf.Length)]
      ensures r == Status(replies(|old(trace)|))
      ensures replies(|old(trace)|).Ack? ==> buf[..] == Fill(replies(|old(trace)|).data, buf.Length)
      ensures replies(|old(trace)|).Nack? ==> buf[..] == old(buf[..])
    {
      var reply := replies(|trace|);
      r := Status(reply);
      if reply.Ack? {
        var data := Fill(reply.data, buf.Length);
        forall i | 0 <= i < buf.Length {
          buf[i] := data[i];
        }
      }
      trace := trace + [Transaction.WriteRead(address, bytes, buf.Length)];
    }
  }
}
