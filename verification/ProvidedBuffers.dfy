/** A multishot receive over a ring of provided buffers that the kernel fills incrementally: the receiver's own fields
    and its half of the ring, a kernel that may run ahead with queued completions, and the memory they share. */
module ProvidedBuffers {

  type Byte = bv8

  const NR_BUFS := 256
  const BUF_SIZE := 4096
  const POOL_SIZE := 1048576   // NR_BUFS * BUF_SIZE
  const TAIL_WRAP := 65536     // the ring's tail has 16 bits
  const ENOBUFS := 105

  /** A ring entry; the address is relative to the buffer memory. */
  datatype Entry = Entry(bid: nat, addr: nat, len: nat)

  datatype Cqe = Cqe(res: int, more: bool, bufMore: bool, bid: nat)

  datatype Receiver = Receiver(
    multishotLive: bool,
    bid: nat,
    offset: nat,
    len: nat,
    bufMore: bool,
    curOffset: nat,
    replenishPending: bool,
    replenishBid: nat,
    bufs: seq<Entry>,
    tail: nat)

  function Slot(bid: nat): nat {
    bid * BUF_SIZE
  }

  function FreshEntry(bid: nat): Entry {
    Entry(bid, Slot(bid), BUF_SIZE)
  }

  function Created(): Receiver {
    Receiver(false, 0, 0, 0, false, 0, false, 0, seq(NR_BUFS, i requires 0 <= i < NR_BUFS => FreshEntry(i)), NR_BUFS)
  }

  /** What handling a completion leaves behind. */
  function Completed(r: Receiver, cqe: Cqe): Receiver {
    if cqe.res == -ENOBUFS then r.(multishotLive := false, curOffset := 0)
    else if cqe.res <= 0 then r
    else
      r.(multishotLive := r.multishotLive && cqe.more,
         bid := cqe.bid, len := cqe.res, bufMore := cqe.bufMore, offset := r.curOffset,
         curOffset := if cqe.bufMore then r.curOffset + cqe.res else 0,
         replenishPending := r.replenishPending || !cqe.bufMore,
         replenishBid := if cqe.bufMore then r.replenishBid else cqe.bid)
  }

  function Replenished(r: Receiver, bid: nat): Receiver
    requires |r.bufs| == NR_BUFS
  {
    r.(bufs := r.bufs[r.tail % NR_BUFS := FreshEntry(bid)], tail := (r.tail + 1) % TAIL_WRAP)
  }

  /** What awaiting the next slice leaves behind. */
  function Suspended(r: Receiver): Receiver
    requires |r.bufs| == NR_BUFS
  {
    if r.replenishPending then Replenished(r, r.replenishBid).(replenishPending := false) else r
  }

  class AsyncReceive {
    var multishotLive: bool
    var bid: nat
    var offset: nat
    var len: nat
    var bufMore: bool
    var curOffset: nat
    var replenishPending: bool
    var replenishBid: nat
    const bufs: array<Entry>
    var tail: nat

    ghost function Value(): Receiver
      reads this, bufs
    {
      Receiver(multishotLive, bid, offset, len, bufMore, curOffset, replenishPending, replenishBid, bufs[..], tail)
    }

    /** Sets up the ring with every buffer in it. */
    constructor ()
      ensures fresh(bufs) && bufs.Length == NR_BUFS && Value() == Created()
      ensures tail == NR_BUFS && forall i :: 0 <= i < NR_BUFS ==> bufs[i] == FreshEntry(i)
      ensures !multishotLive && !replenishPending
    {
      multishotLive, bid, offset, len, bufMore := false, 0, 0, 0, false;
      curOffset, replenishPending, replenishBid := 0, false, 0;
      bufs := new Entry[NR_BUFS](i => Entry(0, 0, 0));
      tail := 0;
      new;
      for i := 0 to NR_BUFS
        invariant multishotLive == false && bid == offset == len == curOffset == replenishBid == 0
        invariant !bufMore && !replenishPending
        invariant forall j :: 0 <= j < i ==> bufs[j] == FreshEntry(j)
      {
        bufs[i] := Entry(i, Slot(i), BUF_SIZE);
      }
      tail := NR_BUFS;
    }

    method Replenish(b: nat)
      requires bufs.Length == NR_BUFS
      modifies this`tail, bufs
      ensures Value() == Replenished(old(Value()), b)
      ensures bufs[old(tail) % NR_BUFS] == FreshEntry(b)
      ensures forall i :: 0 <= i < NR_BUFS && i != old(tail) % NR_BUFS ==> bufs[i] == old(bufs[i])
    {
      var t := tail;
      bufs[t % NR_BUFS] := Entry(b, Slot(b), BUF_SIZE);
      tail := (t + 1) % TAIL_WRAP;
    }

    method Submit()
      modifies this`multishotLive
      ensures Value() == old(Value()).(multishotLive := true)
    {
      multishotLive := true;
    }

    /** Whether the receive is to be submitted again, or the coroutine resumed. */
    method Complete(cqe: Cqe) returns (submit: bool, resume: bool)
      modifies this
      ensures Value() == Completed(old(Value()), cqe)
      ensures submit == (cqe.res == -ENOBUFS) && resume == (cqe.res > 0)
      // The coroutine is given the bytes behind those of the slice before, and what ends the buffer ends the offset.
      ensures resume ==> offset == old(curOffset) && len == cqe.res && bid == cqe.bid
      ensures resume && offset + len <= BUF_SIZE && cqe.bufMore == (offset + len < BUF_SIZE) ==>
        curOffset == (offset + len) % BUF_SIZE && (offset + len == BUF_SIZE ==> replenishPending && replenishBid == bid)
      // Otherwise no slice is given and no buffer returned, and the ring is never touched.
      ensures !resume ==>
        (bid, offset, len, replenishPending) == (old(bid), old(offset), old(len), old(replenishPending))
      ensures tail == old(tail) && bufs[..] == old(bufs[..])
    {
      if cqe.res == -ENOBUFS {
        multishotLive := false;
        curOffset := 0;
        return true, false;
      }
      if cqe.res <= 0 {
        return false, false;
      }
      if !cqe.more {
        multishotLive := false;
      }
      bid := cqe.bid;
      len := cqe.res;
      bufMore := cqe.bufMore;
      offset := curOffset;
      if cqe.bufMore {
        curOffset := curOffset + len;
      } else {
        curOffset := 0;
        replenishPending := true;
        replenishBid := bid;
      }
      return false, true;
    }

    /** Whether the receive is to be submitted. */
    method AwaitSuspend() returns (submit: bool)
      requires bufs.Length == NR_BUFS
      modifies this, bufs
      ensures Value() == Suspended(old(Value())) && submit == !multishotLive
      // Only the entry at the old tail is rewritten, only for a buffer that is due, and no buffer is due afterwards.
      ensures !replenishPending && tail == if old(replenishPending) then (old(tail) + 1) % TAIL_WRAP else old(tail)
      ensures forall i :: 0 <= i < NR_BUFS ==>
        bufs[i] == if old(replenishPending) && i == old(tail) % NR_BUFS then FreshEntry(old(replenishBid))
          else old(bufs[i])
      ensures (bid, offset, len, curOffset) == (old(bid), old(offset), old(len), old(curOffset))
    {
      if replenishPending {
        Replenish(replenishBid);
        replenishPending := false;
      }
      submit := !multishotLive;
    }

    method AwaitResume() returns (data: nat, length: nat)
      ensures data == Slot(bid) + offset && length == len
    {
      data, length := Slot(bid) + offset, len;
    }
  }
}
