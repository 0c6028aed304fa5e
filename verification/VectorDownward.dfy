/** `vector_downward`: one allocation that holds two sequences, data growing down from its end and a
    scratch stack growing up from its start. */
module VectorDownward {
  import opened Wrappers
  import opened Bytes

  /** The values of `uoffset_t`, the type of sizes. */
  const SIZE_T32: nat := 0x1_0000_0000

  /** What a cast to `uoffset_t` keeps. */
  function Cast32(n: nat): (r: nat)
    ensures n < SIZE_T32 ==> r == n
  {
    n % SIZE_T32
  }

  /** The least multiple of `align` from `n` on. */
  function RoundUp(n: nat, align: nat): (r: nat)
    requires IsWidth(align)
    ensures n <= r < n + align && r % align == 0
  {
    n + PaddingBytes(n, align)
  }

  function Max(a: nat, b: nat): (r: nat)
    ensures r >= a && r >= b
  {
    if a < b then b else a
  }

  /** The size after writes of the given lengths, or `None` if the assertion of `ensure_space` stops one; it
      is made on the size before the new bytes, and for none at all not made. */
  function SizeAfter(maxSize: nat, size: nat, lens: seq<nat>): (r: Option<nat>) {
    if lens == [] then Some(size)
    else
      var before :- SizeAfter(maxSize, size, lens[..|lens| - 1]);
      var len := lens[|lens| - 1];
      if len == 0 || before < maxSize then Some(before + len) else None
  }

  lemma OneWrite(maxSize: nat, size: nat, len: nat)
    requires len > 0 ==> size < maxSize
    ensures SizeAfter(maxSize, size, [len]) == Some(size + len)
  {
    assert [len][..0] == [];
  }

  function Sum(lens: seq<nat>): nat {
    if lens == [] then 0 else Sum(lens[..|lens| - 1]) + lens[|lens| - 1]
  }

  lemma {:induction false} SizeIsSum(maxSize: nat, size: nat, lens: seq<nat>)
    requires SizeAfter(maxSize, size, lens).Some?
    ensures SizeAfter(maxSize, size, lens).value == size + Sum(lens)
  {
    if lens != [] { SizeIsSum(maxSize, size, lens[..|lens| - 1]); }
  }

  /** What the assertion guarantees over any number of writes: the bytes fit the limit if and only if they
      did before the last of them, and it fits as well; the limit is never passed by more than that last
      write, and is by any write that is too long, the assertion notwithstanding. */
  lemma {:induction false} LimitKept(maxSize: nat, size: nat, lens: seq<nat>)
    requires lens != [] && lens[|lens| - 1] > 0 && size <= maxSize
    ensures var before, len := SizeAfter(maxSize, size, lens[..|lens| - 1]), lens[|lens| - 1];
            var after := SizeAfter(maxSize, size, lens);
            && (after.Some? <==> before.Some? && before.value < maxSize)
            && (after.Some? ==>
                  && after.value < maxSize + len
                  && (after.value <= maxSize <==> size + Sum(lens) <= maxSize)
                  && (after.value > maxSize <==> len > maxSize - before.value))
  {
    if SizeAfter(maxSize, size, lens).Some? { SizeIsSum(maxSize, size, lens); }
  }

  /** `Allocator::reallocate_downward`: a larger allocation with the used bytes of both ends copied over. */
  method ReallocateDownward(oldMemory: array<byte>, newSize: nat, inUseBack: nat, inUseFront: nat) returns (newMemory: array<byte>)
    requires newSize > oldMemory.Length && inUseFront + inUseBack <= oldMemory.Length
    ensures fresh(newMemory) && newMemory.Length == newSize
    ensures newMemory[..inUseFront] == oldMemory[..inUseFront]
    ensures newMemory[newSize - inUseBack..] == oldMemory[oldMemory.Length - inUseBack..]
  {
    newMemory := new byte[newSize];
    forall i | 0 <= i < inUseBack {
      newMemory[newSize - inUseBack + i] := oldMemory[oldMemory.Length - inUseBack + i];
    }
    assert newMemory[newSize - inUseBack..] == oldMemory[oldMemory.Length - inUseBack..];
    forall i | 0 <= i < inUseFront {
      newMemory[i] := oldMemory[i];
    }
    assert newMemory[newSize - inUseBack..] == oldMemory[oldMemory.Length - inUseBack..];
  }

  /** Writes into the middle of an array. */
  method Overwrite(a: array<byte>, at: nat, bytes: seq<byte>)
    requires at + |bytes| <= a.Length
    modifies a
    ensures a[..] == Overwritten(old(a[..]), at, bytes)
  {
    forall i | 0 <= i < |bytes| {
      a[at + i] := bytes[i];
    }
  }

  function Overwritten(all: seq<byte>, at: nat, bytes: seq<byte>): seq<byte>
    requires at + |bytes| <= |all|
  {
    all[..at] + bytes + all[at + |bytes|..]
  }

  /** What that comes to, seen from both ends. */
  lemma TwoEnds(all: seq<byte>, cur: nat, scratch: nat, at: nat, bytes: seq<byte>)
    requires scratch <= cur <= at && at + |bytes| <= |all|
    ensures Overwritten(all, at, bytes)[cur..] == all[cur..][..at - cur] + bytes + all[cur..][at - cur + |bytes|..]
    ensures Overwritten(all, at, bytes)[..scratch] == all[..scratch]
  {
  }

  lemma NoZeros(data: seq<byte>)
    ensures Zeros(0) + data == data && data[0..] == data
  {
  }

  class Vector {
    const initialSize: nat
    const maxSize: nat
    const bufferMinalign: nat
    var reserved: nat
    var size: nat
    var buf: array?<byte>
    var cur: nat
    var scratch: nat

    ghost predicate Valid()
      reads this, buf
    {
      && IsWidth(bufferMinalign)
      && (buf == null ==> reserved == 0)
      && (buf != null ==> buf.Length == reserved)
      && scratch <= cur <= reserved && size == reserved - cur
      && size < SIZE_T32 && scratch < SIZE_T32
    }

    ghost function Data(): (s: seq<byte>)
      reads this, buf
      requires Valid()
      ensures |s| == size
    {
      if buf == null then [] else buf[cur..]
    }

    ghost function Scratch(): (s: seq<byte>)
      reads this, buf
      requires Valid()
      ensures |s| == scratch
    {
      if buf == null then [] else buf[..scratch]
    }

    constructor (initialSize: nat, bufferMinalign: nat, maxSize: nat)
      requires IsWidth(bufferMinalign)
      ensures Valid() && Data() == [] && Scratch() == []
      ensures this.maxSize == maxSize && this.initialSize == initialSize && buf == null
    {
      this.initialSize, this.bufferMinalign, this.maxSize := initialSize, bufferMinalign, maxSize;
      reserved, size, buf, cur, scratch := 0, 0, null, 0, 0;
    }

    method Clear()
      requires Valid()
      modifies this
      ensures Valid() && Data() == [] && Scratch() == [] && buf == old(buf)
    {
      if buf != null {
        cur := reserved;
      } else {
        reserved := 0;
        cur := 0;
      }
      size := 0;
      scratch := 0;
    }

    function UnusedBufferSize(): nat
      reads this, buf
      requires Valid()
    {
      Cast32(cur - scratch)
    }

    /** Growth moves both ends to a larger allocation, unchanged. */
    method Reallocate(len: nat)
      requires Valid() && len > 0
      modifies this
      ensures Valid() && fresh(buf) && Data() == old(Data()) && Scratch() == old(Scratch())
      ensures cur - scratch >= len
      ensures reserved % bufferMinalign == 0
      ensures var more := if old(reserved) == 0 then initialSize else old(reserved) / 2;
              && reserved >= old(reserved) + len && reserved >= old(reserved) + more
              && (reserved < old(reserved) + len + bufferMinalign || reserved < old(reserved) + more + bufferMinalign)
    {
      hide Cast32, RoundUp;
      var oldReserved := reserved;
      var oldSize := size;
      var oldScratchSize := Cast32(scratch);
      reserved := reserved + Max(len, if oldReserved != 0 then oldReserved / 2 else initialSize);
      reserved := RoundUp(reserved, bufferMinalign);
      if buf != null {
        buf := ReallocateDownward(buf, reserved, oldSize, oldScratchSize);
      } else {
        buf := new byte[reserved];
      }
      cur := reserved - oldSize;
      scratch := oldScratchSize;
    }

    /** The source's assertion on the size speaks of the size before the new bytes. */
    method EnsureSpace(len: nat)
      requires Valid() && size < maxSize
      modifies this
      ensures Valid() && Data() == old(Data()) && Scratch() == old(Scratch())
      ensures (len > 0 ==> buf != null) && (buf == old(buf) || fresh(buf)) && cur - scratch >= len
    {
      if len > UnusedBufferSize() {
        Reallocate(len);
      }
    }

    method MakeSpace(len: nat)
      requires Valid() && (len > 0 ==> size < maxSize && size + len < SIZE_T32)
      modifies this
      ensures Valid() && (buf == old(buf) || fresh(buf)) && (len > 0 ==> buf != null)
      ensures size == old(size) + len && Data()[len..] == old(Data()) && Scratch() == old(Scratch())
    {
      if len > 0 {
        EnsureSpace(len);
        cur := cur - len;
        size := Cast32(size + Cast32(len));
      }
    }

    method Push(bytes: seq<byte>)
      requires Valid() && (bytes != [] ==> size < maxSize && size + |bytes| < SIZE_T32)
      modifies this, buf
      ensures Valid() && (buf == old(buf) || fresh(buf))
      ensures Data() == bytes + old(Data()) && Scratch() == old(Scratch())
      ensures SizeAfter(maxSize, old(size), [|bytes|]) == Some(size)
    {
      hide Cast32, SizeAfter;
      OneWrite(maxSize, size, |bytes|);
      if |bytes| > 0 {
        MakeSpace(|bytes|);
        ghost var room := Data();
        WriteAt(size, bytes);
        assert Data() == room[..0] + bytes + room[|bytes|..];
      } else {
        assert bytes + old(Data()) == old(Data());
      }
    }

    /** Writes over bytes that start `off` bytes from the end. */
    method WriteAt(off: nat, bytes: seq<byte>)
      requires Valid() && buf != null && |bytes| <= off <= size
      modifies buf
      ensures Valid() && |Data()| == old(|Data()|) && Scratch() == old(Scratch())
      ensures Data() == old(Data())[..size - off] + bytes + old(Data())[size - off + |bytes|..]
    {
      TwoEnds(buf[..], cur, scratch, reserved - off, bytes);
      Overwrite(buf, reserved - off, bytes);
      assert buf[cur..] == buf[..][cur..] && buf[..scratch] == buf[..][..scratch];
      assert old(buf[cur..]) == old(buf[..])[cur..] && old(buf[..scratch]) == old(buf[..])[..scratch];
    }

    /** The `n` bytes that start `off` bytes from the end. */
    method ReadAt(off: nat, n: nat) returns (bytes: seq<byte>)
      requires Valid() && buf != null && n <= off <= size
      ensures bytes == Data()[size - off..size - off + n]
    {
      bytes := buf[reserved - off..reserved - off + n];
    }

    method ScratchPush(bytes: seq<byte>)
      requires Valid() && bytes != [] && size < maxSize && scratch + |bytes| < SIZE_T32
      modifies this, buf
      ensures Valid() && (buf == old(buf) || fresh(buf))
      ensures Data() == old(Data()) && Scratch() == old(Scratch()) + bytes
    {
      hide Cast32;
      EnsureSpace(|bytes|);
      ghost var front, back := buf[..scratch], buf[cur..];
      forall i | 0 <= i < |bytes| {
        buf[scratch + i] := bytes[i];
      }
      assert buf[cur..] == back && buf[..scratch + |bytes|] == front + bytes;
      scratch := scratch + |bytes|;
    }

    method ScratchAt(at: nat, n: nat) returns (bytes: seq<byte>)
      requires Valid() && at + n <= scratch
      ensures bytes == Scratch()[at..at + n]
    {
      bytes := if buf == null then [] else buf[at..at + n];
    }

    method ClearScratch()
      requires Valid()
      modifies this
      ensures Valid() && buf == old(buf) && Data() == old(Data()) && Scratch() == []
    {
      scratch := 0;
    }

    method Fill(zeroPadBytes: nat)
      requires Valid() && (zeroPadBytes > 0 ==> size < maxSize && size + zeroPadBytes < SIZE_T32)
      modifies this, buf
      ensures Valid() && (buf == old(buf) || fresh(buf))
      ensures Data() == Zeros(zeroPadBytes) + old(Data()) && Scratch() == old(Scratch())
    {
      hide Cast32, Zeros;
      MakeSpace(zeroPadBytes);
      NoZeros(Data());
      if zeroPadBytes > 0 {
        ZeroFront(zeroPadBytes);
      }
    }

    /** Overwrites the first bytes with zeros, one by one. */
    method ZeroFront(n: nat)
      requires Valid() && buf != null && n <= size
      modifies buf
      ensures Valid() && Data() == Zeros(n) + old(Data())[n..] && Scratch() == old(Scratch())
    {
      for i := 0 to n
        invariant forall k :: cur <= k < cur + i ==> buf[k] == 0
        invariant forall k :: 0 <= k < cur || cur + n <= k < buf.Length ==> buf[k] == old(buf[k])
      {
        buf[cur + i] := 0;
      }
      assert buf[cur..] == Zeros(n) + old(buf[cur..])[n..];
      assert buf[..scratch] == old(buf[..scratch]);
    }

    method Pop(bytesToRemove: nat)
      requires Valid() && bytesToRemove <= size
      modifies this
      ensures Valid() && buf == old(buf)
      ensures Data() == old(Data())[bytesToRemove..] && Scratch() == old(Scratch())
    {
      cur := cur + bytesToRemove;
      size := size - bytesToRemove;
    }

    method ScratchPop(bytesToRemove: nat)
      requires Valid() && bytesToRemove <= scratch
      modifies this`scratch
      ensures Valid() && buf == old(buf)
      ensures Data() == old(Data()) && Scratch() == old(Scratch())[..old(scratch) - bytesToRemove]
    {
      scratch := scratch - bytesToRemove;
    }
  }

  /** A push that is let through and passes the limit, whatever the limit is. */
  method PushPastLimit(maxSize: nat, bytes: seq<byte>) returns (v: Vector)
    requires 0 < maxSize < |bytes| < SIZE_T32
    ensures v.Valid() && v.maxSize == maxSize && v.Data() == bytes && v.size > v.maxSize
  {
    v := new Vector(0, 1, maxSize);
    v.Push(bytes);
    assert bytes + [] == bytes;
  }
}
