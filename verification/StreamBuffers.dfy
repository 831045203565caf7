/**
 The output and input stream buffers. Each keeps its bytes either in a small local area or in
 a chunk from the heap. The local area shares one 32-byte object with the capacity field:
 the capacity is the 64-bit word at its start, the local bytes begin at its second byte, so
 that while the local area is in use only the first byte of the capacity can be relied on.

 Pointers are indices into the array the data pointer currently points to. Allocation always
 succeeds; sizes stay below 2^62.
 */
module StreamBuffers {
  import opened LittleEndian

  const LOCAL_OBJECT: nat := 32
  const LOCAL_CAPACITY: nat := 31
  const SIZE_LIMIT: nat := 0x4000_0000_0000_0000

  // ---- Devices -----------------------------------------------------------------------------

  /** A device moves some prefix of the bytes, moves nothing, or fails: `plan` lists what it
      will do at each call (-1 to fail, otherwise the most bytes it will move). */
  class Device {
    var wire: seq<byte>
    var plan: seq<int>

    constructor (plan: seq<int>)
      ensures wire == [] && this.plan == plan
    {
      wire, this.plan := [], plan;
    }

    method Write(data: seq<byte>) returns (ret: int)
      modifies this
      ensures -1 <= ret <= |data|
      ensures wire == old(wire) + (if ret > 0 then data[..ret] else [])
    {
      if plan == [] {
        return 0;
      }
      var next := plan[0];
      plan := plan[1..];
      if next < 0 {
        return -1;
      }
      ret := if next < |data| then next else |data|;
      wire := wire + data[..ret];
    }

    method Read(room: nat) returns (ret: int, data: seq<byte>)
      modifies this
      ensures -1 <= ret <= room && ret <= |old(wire)|
      ensures |data| == if ret > 0 then ret else 0
      ensures old(wire) == data + wire
      ensures |plan| <= |old(plan)| && (ret > 0 ==> |plan| < |old(plan)|)
      ensures room > 0 && old(wire) != [] && old(plan) != [] && old(plan[0]) > 0 ==> ret > 0
    {
      data := [];
      if plan == [] {
        return 0, data;
      }
      var next := plan[0];
      plan := plan[1..];
      if next < 0 {
        return -1, data;
      }
      ret := if next < |wire| then next else |wire|;
      ret := if ret < room then ret else room;
      data := wire[..ret];
      wire := wire[ret..];
    }
  }

  // ---- Moving memory -----------------------------------------------------------------------

  /** memmove within one array. */
  method MoveWithin(a: array<byte>, dst: nat, src: nat, n: nat)
    requires dst + n <= a.Length && src + n <= a.Length
    modifies a
    ensures a[dst..dst + n] == old(a[src..src + n])
    ensures forall i | 0 <= i < a.Length && !(dst <= i < dst + n) :: a[i] == old(a[i])
  {
    forall i | 0 <= i < n {
      a[dst + i] := a[src + i];
    }
  }

  /** memcpy between two arrays. */
  method CopyAcross(to: array<byte>, dst: nat, from: array<byte>, src: nat, n: nat)
    requires to != from && dst + n <= to.Length && src + n <= from.Length
    modifies to
    ensures to[dst..dst + n] == from[src..src + n]
    ensures forall i | 0 <= i < to.Length && !(dst <= i < dst + n) :: to[i] == old(to[i])
  {
    forall i | 0 <= i < n {
      to[dst + i] := from[src + i];
    }
  }

  /** memcpy of caller data into an array. */
  method Store(to: array<byte>, dst: nat, s: seq<byte>)
    requires dst + |s| <= to.Length
    modifies to
    ensures to[dst..dst + |s|] == s
    ensures forall i | 0 <= i < to.Length && !(dst <= i < dst + |s|) :: to[i] == old(to[i])
  {
    forall i | 0 <= i < |s| {
      to[dst + i] := s[i];
    }
  }

  /** A sequence that differs from another only where s was stored. */
  lemma Overwritten(before: seq<byte>, after: seq<byte>, at: nat, s: seq<byte>)
    requires |before| == |after| && at + |s| <= |after| && after[at..at + |s|] == s
    requires forall i | 0 <= i < |after| && !(at <= i < at + |s|) :: after[i] == before[i]
    ensures after == before[..at] + s + before[at + |s|..]
  {
    assert after[..at] == before[..at] && after[at + |s|..] == before[at + |s|..];
    assert after == after[..at] + after[at..at + |s|] + after[at + |s|..];
  }

  lemma SliceOfSlice(all: seq<byte>, a: nat, b: nat, c: nat, d: nat)
    requires a <= c <= d <= b <= |all|
    ensures all[a..b][c - a..d - a] == all[c..d]
  {
    var l, r := all[a..b][c - a..d - a], all[c..d];
    assert forall i | 0 <= i < d - c :: l[i] == r[i];
    assert l == r;
  }

  // ---- Output ------------------------------------------------------------------------------

  class OutputStreamBuffer {
    const device: Device?
    const local: array<byte>   // the object shared by the capacity and the local bytes
    var data: array<byte>      // where _data points: local (from its second byte) or a heap chunk
    var pbase: nat
    var pptr: nat
    var epptr: nat

    ghost function Repr(): set<object>
      reads this
    {
      {this, local, data}
    }

    predicate IsLocal()
      reads this
    {
      data == local
    }

    /** The offset of _data in its array. */
    function Origin(): nat
      reads this
    {
      if IsLocal() then 1 else 0
    }

    /** The capacity as the code reads it: one char of the shared object, or all 64 bits. */
    function Capacity(): nat
      requires local.Length == LOCAL_OBJECT
      reads this, local
    {
      if IsLocal() then local[0] else FromBytes(local[..8])
    }

    ghost predicate Valid()
      reads this, local, data
    {
      && local.Length == LOCAL_OBJECT
      && Origin() <= pbase <= pptr <= epptr == data.Length
      && epptr == Origin() + Capacity()
      && 0 < Capacity() < 2 * SIZE_LIMIT
    }

    /** The bytes between the two pointers: written and not yet flushed. */
    ghost function Unread(): seq<byte>
      requires Valid()
      reads this, local, data
    {
      data[pbase..pptr]
    }

    constructor (device: Device?)
      ensures Valid() && fresh(local) && IsLocal()
      ensures Unread() == [] && Capacity() == LOCAL_CAPACITY
      ensures this.device == device
    {
      this.device := device;
      var shared := new byte[LOCAL_OBJECT];
      local, data := shared, shared;
      pbase, pptr, epptr := 1, 1, 1 + LOCAL_CAPACITY;
      new;
      Store(local, 0, ToBytes(LOCAL_CAPACITY, 8));
      FirstByte(LOCAL_CAPACITY, 8);
      assert local[0] == local[0..0 + 8][0];
    }

    /** _write: make room, then append. The capacity only grows when the bytes would not fit even
        after compaction, and then to less than twice what is needed. */
    method Write(s: seq<byte>) returns (count: nat)
      requires Valid() && |Unread()| + |s| < SIZE_LIMIT
      modifies Repr()
      ensures Valid() && fresh(Repr() - old(Repr()))
      ensures Unread() == old(Unread()) + s && count == |s|
      ensures if old(Capacity()) >= |Unread()| then Capacity() == old(Capacity()) && data == old(data)
              else |Unread()| <= Capacity() < 2 * |Unread()| && !IsLocal() && fresh(data)
    {
      if epptr < pptr + |s| {
        var avail := pptr - pbase;
        var csize := if IsLocal() then local[0] else FromBytes(local[..8]);
        if csize >= avail + |s| {
          Compact();
        } else {
          Grow(avail + |s|);
        }
      }
      Append(s);
      count := |s|;
    }

    /** Case 1 of _write: slide the bytes to the front of the same memory. */
    method Compact()
      requires Valid()
      modifies this`pbase, this`pptr, data
      ensures Valid() && Unread() == old(Unread()) && Capacity() == old(Capacity()) && pbase == Origin()
    {
      var avail := pptr - pbase;
      MoveWithin(data, Origin(), pbase, avail);
      assert !IsLocal() ==> local[..8] == old(local[..8]);
      pbase := Origin();
      pptr := pbase + avail;
    }

    /** Case 2 of _write: double the capacity until it covers the need, and move to a new chunk. */
    method Grow(need: nat)
      requires Valid() && Capacity() < need < SIZE_LIMIT && |Unread()| <= need
      modifies this, local
      ensures Valid() && Unread() == old(Unread()) && !IsLocal() && fresh(data) && pbase == 0
      ensures need <= Capacity() < 2 * need
    {
      var avail := pptr - pbase;
      var csize := if IsLocal() then local[0] else FromBytes(local[..8]);
      while csize < need
        invariant 0 < csize < 2 * need
      {
        csize := csize * 2;
      }
      var chunk := new byte[csize];
      CopyAcross(chunk, 0, data, pbase, avail);
      LoadStoredSize(csize);
      Store(local, 0, ToBytes(csize, 8));
      assert local[..8] == local[0..0 + 8];
      data := chunk;
      pbase, pptr, epptr := 0, avail, csize;
    }

    /** The memcpy that ends _write. */
    method Append(s: seq<byte>)
      requires Valid() && pptr + |s| <= epptr
      modifies this`pptr, data
      ensures Valid() && Unread() == old(Unread()) + s && Capacity() == old(Capacity())
    {
      Store(data, pptr, s);
      assert !IsLocal() ==> local[..8] == old(local[..8]);
      pptr := pptr + |s|;
      assert data[pbase..pptr] == data[pbase..old(pptr)] + data[old(pptr)..pptr];
    }

    /** The packager's access: overwrite bytes that end `back` bytes before the write pointer. */
    method Patch(back: nat, s: seq<byte>)
      requires Valid() && |s| <= back <= |Unread()|
      modifies data
      ensures Valid() && Capacity() == old(Capacity())
      ensures Unread() == old(Unread())[..|old(Unread())| - back] + s + old(Unread())[|old(Unread())| - back + |s|..]
    {
      hide FromBytes;
      ghost var before := Unread();
      var at := pptr - back;
      Store(data, at, s);
      assert !IsLocal() ==> local[..8] == old(local[..8]);
      SliceOfSlice(data[..], pbase, pptr, at, at + |s|);
      Overwritten(before, data[pbase..pptr], at - pbase, s);
    }

    /** _sync: hand the device what is there; keep what it did not take. */
    method Sync() returns (ret: int)
      requires Valid() && (device != null ==> device !in Repr())
      modifies this`pbase, device
      ensures Valid()
      ensures -1 <= ret <= |old(Unread())|
      ensures device == null ==> ret == -1
      ensures Unread() == old(Unread())[if ret > 0 then ret else 0..]
      ensures device != null ==> device.wire == old(device.wire) + old(Unread())[..if ret > 0 then ret else 0]
    {
      if device == null {
        return -1;
      }
      ret := device.Write(data[pbase..pptr]);
      if ret > 0 {
        pbase := pbase + ret;
      }
    }

    /** _flush: sync until nothing is left, the device moves nothing, or it fails. Whatever the
        outcome, the bytes that left the buffer are exactly those that reached the device. */
    method Flush() returns (ret: int)
      requires Valid() && device != null && device !in Repr()
      modifies this`pbase, device
      ensures Valid()
      ensures old(device.wire) <= device.wire
      ensures old(device.wire) + old(Unread()) == device.wire + Unread()
      ensures ret == if Unread() == [] then |old(Unread())| else -1
    {
      var sz := 0;
      while pptr - pbase > 0
        invariant Valid()
        invariant old(device.wire) <= device.wire
        invariant old(device.wire) + old(Unread()) == device.wire + Unread()
        invariant sz + |Unread()| == |old(Unread())|
        decreases pptr - pbase
      {
        var r := Sync();
        if r > 0 {
          sz := sz + r;
        } else if r == 0 {
          break;
        } else {
          return -1;
        }
      }
      ret := if pptr - pbase != 0 then -1 else sz;
    }
  }

  // ---- Input -------------------------------------------------------------------------------

  class InputStreamBuffer {
    const device: Device?
    const local: array<byte>
    var data: array<byte>
    var eback: nat
    var gptr: nat
    var egptr: nat

    // What moving bytes around has cost so far, and what it is charged to.
    ghost var compacted: nat   // bytes moved by compactions
    ghost var grown: nat       // bytes moved by growing
    ghost var consumed: nat    // bytes read or dropped

    ghost function Repr(): set<object>
      reads this
    {
      {this, local, data}
    }

    predicate IsLocal()
      reads this
    {
      data == local
    }

    function Origin(): nat
      reads this
    {
      if IsLocal() then 1 else 0
    }

    function Capacity(): nat
      requires local.Length == LOCAL_OBJECT
      reads this, local
    {
      if IsLocal() then local[0] else FromBytes(local[..8])
    }

    /** Compaction moved fewer bytes than were consumed and are no longer in front of the unread
        ones; growing moved fewer bytes than there is room for now. */
    ghost predicate Valid()
      reads this, local, data
    {
      && local.Length == LOCAL_OBJECT
      && Origin() == eback <= gptr <= egptr <= data.Length
      && data.Length == Origin() + Capacity()
      && 0 < Capacity() < 2 * SIZE_LIMIT
      && compacted + (gptr - eback) <= consumed
      && grown < Capacity()
    }

    /** The bytes between the two pointers: received and not yet read. */
    ghost function Unread(): seq<byte>
      requires Valid()
      reads this, local, data
    {
      data[gptr..egptr]
    }

    constructor (device: Device?)
      ensures Valid() && fresh(local) && IsLocal()
      ensures Unread() == [] && Capacity() == LOCAL_CAPACITY
      ensures this.device == device
      ensures compacted == grown == consumed == 0
    {
      this.device := device;
      var shared := new byte[LOCAL_OBJECT];
      local, data := shared, shared;
      eback, gptr, egptr := 1, 1, 1;
      compacted, grown, consumed := 0, 0, 0;
      new;
      Store(local, 0, ToBytes(LOCAL_CAPACITY, 8));
      FirstByte(LOCAL_CAPACITY, 8);
      assert local[0] == local[0..0 + 8][0];
    }

    /** Copy what an output buffer holds; the output buffer is left alone. */
    constructor FromCopy(os: OutputStreamBuffer)
      requires os.Valid() && |os.Unread()| < SIZE_LIMIT
      ensures Valid() && fresh(Repr())
      ensures Unread() == os.Unread() && device == null
    {
      device := null;
      var count := os.pptr - os.pbase;
      var shared := new byte[LOCAL_OBJECT];
      local := shared;
      var chunk := shared;
      if count >= LOCAL_CAPACITY {
        chunk := new byte[count];
      }
      data := chunk;
      var start := if count >= LOCAL_CAPACITY then 0 else 1;
      eback, gptr, egptr := start, start, start + count;
      compacted, grown, consumed := 0, 0, 0;
      new;
      if count < LOCAL_CAPACITY {
        Store(local, 0, ToBytes(LOCAL_CAPACITY, 8));
        FirstByte(LOCAL_CAPACITY, 8);
        assert local[0] == local[0..0 + 8][0];
      } else {
        Store(local, 0, ToBytes(count, 8));
        LoadStoredSize(count);
        assert local[..8] == local[0..0 + 8];
      }
      label sized:
      CopyAcross(data, start, os.data, os.pbase, count);
      assert !IsLocal() ==> local[..8] == old@sized(local[..8]);
    }

    /** Take over what an output buffer holds, with its chunk if it has one; the output buffer
        is left empty, on its local area. */
    constructor FromMove(os: OutputStreamBuffer)
      requires os.Valid()
      modifies os.Repr()
      ensures Valid() && Unread() == old(os.Unread()) && device == null
      ensures fresh(this) && fresh(local) && (if old(os.IsLocal()) then IsLocal() else data == old(os.data))
      ensures os.Valid() && os.Unread() == [] && os.IsLocal() && os.Capacity() == LOCAL_CAPACITY
      ensures Repr() !! os.Repr()
    {
      device := null;
      var count := os.pptr - os.pbase;
      var shared := new byte[LOCAL_OBJECT];
      local := shared;
      data := if os.data == os.local then shared else os.data;
      var start := if os.data == os.local then 1 else 0;
      eback, gptr, egptr := start, start, start + count;
      compacted, grown, consumed := 0, 0, 0;
      new;
      if os.IsLocal() {
        TakeLocal(os);
      } else {
        TakeChunk(os);
      }
      Reset(os);
    }

    /** The small case of the move: copy the local bytes. */
    method TakeLocal(os: OutputStreamBuffer)
      requires os.Valid() && os.IsLocal() && IsLocal()
      requires local.Length == LOCAL_OBJECT && local != os.local
      requires eback == gptr == 1 && egptr == 1 + (os.pptr - os.pbase)
      requires compacted == grown == consumed == 0
      modifies local
      ensures Valid() && Unread() == os.Unread()
    {
      Store(local, 0, ToBytes(LOCAL_CAPACITY, 8));
      FirstByte(LOCAL_CAPACITY, 8);
      assert local[0] == local[0..0 + 8][0];
      CopyAcross(local, 1, os.local, os.pbase, os.pptr - os.pbase);
    }

    /** The large case of the move: slide the bytes to the front of the chunk, take its size. */
    method TakeChunk(os: OutputStreamBuffer)
      requires os.Valid() && !os.IsLocal() && data == os.data && !IsLocal()
      requires local.Length == LOCAL_OBJECT && local != os.local
      requires eback == gptr == 0 && egptr == os.pptr - os.pbase
      requires compacted == grown == consumed == 0
      modifies local, data
      ensures Valid() && Unread() == old(os.Unread())
    {
      MoveWithin(data, 0, os.pbase, os.pptr - os.pbase);
      assert os.local[..8] == old(os.local[..8]);
      var csize := FromBytes(os.local[..8]);
      LoadStoredSize(csize);
      Store(local, 0, ToBytes(csize, 8));
      assert local[..8] == local[0..0 + 8];
    }

    static method Reset(os: OutputStreamBuffer)
      requires os.local.Length == LOCAL_OBJECT
      modifies os, os.local
      ensures os.Valid() && os.Unread() == [] && os.IsLocal() && os.Capacity() == LOCAL_CAPACITY
    {
      Store(os.local, 0, ToBytes(LOCAL_CAPACITY, 8));
      FirstByte(LOCAL_CAPACITY, 8);
      assert os.local[0] == os.local[0..0 + 8][0];
      os.data := os.local;
      os.pbase, os.pptr, os.epptr := 1, 1, 1 + os.local[0];
    }

    /** _sync: if the buffer is full, compact or double it so that there is at least one free
        slot; then let the device fill the free slots. A device with bytes to give therefore
        always gets some through: zero means it has nothing. */
    method Sync() returns (ret: int)
      requires Valid() && |Unread()| < SIZE_LIMIT / 4 && (device != null ==> device !in Repr())
      modifies Repr(), device
      ensures Valid() && fresh(Repr() - old(Repr()))
      ensures ret >= -1 && (device == null ==> ret == -1 && Unread() == old(Unread()))
      ensures |Unread()| == |old(Unread())| + (if ret > 0 then ret else 0)
      ensures device != null ==> old(Unread()) + old(device.wire) == Unread() + device.wire
      ensures device != null && old(device.plan) != [] && old(device.plan[0]) > 0 && old(device.wire) != [] ==> ret > 0
      ensures device != null ==> |device.plan| <= |old(device.plan)| && (ret > 0 ==> |device.plan| < |old(device.plan)|)
      ensures compacted + grown < consumed + Capacity()
    {
      hide FromBytes;
      if device == null {
        return -1;
      }
      MakeRoom();
      var csize := if IsLocal() then local[0] else FromBytes(local[..8]);
      var bytes;
      ret, bytes := device.Read(csize - (egptr - eback));
      if ret > 0 {
        Fill(bytes);
      }
    }

    /** The first half of _sync: whatever state the buffer is in, at least one slot is free after it. */
    method MakeRoom()
      requires Valid() && |Unread()| < SIZE_LIMIT / 4
      modifies Repr()
      ensures Valid() && fresh(Repr() - old(Repr())) && Unread() == old(Unread())
      ensures egptr < eback + Capacity()
    {
      hide FromBytes;
      var csize := if IsLocal() then local[0] else FromBytes(local[..8]);
      if egptr == eback + csize {
        if gptr - eback > csize / 2 {
          Compact();
        } else {
          Double();
        }
      }
    }

    /** Reuse the consumed prefix of a full buffer. The bytes moved are fewer than the bytes
        of the prefix, which were consumed and are charged for the move. */
    method Compact()
      requires Valid() && egptr == eback + Capacity() && gptr - eback > Capacity() / 2
      modifies this`gptr, this`egptr, this`compacted, data
      ensures Valid() && Unread() == old(Unread()) && Capacity() == old(Capacity())
      ensures egptr < eback + Capacity()
      ensures 0 <= compacted - old(compacted) < old(gptr - eback)
    {
      var avail := egptr - gptr;
      MoveWithin(data, eback, gptr, avail);
      assert !IsLocal() ==> local[..8] == old(local[..8]);
      compacted := compacted + avail;
      gptr, egptr := eback, eback + avail;
    }

    /** Double a full buffer whose consumed prefix is not worth reusing. */
    method Double()
      requires Valid() && |Unread()| < SIZE_LIMIT / 4
      requires egptr == eback + Capacity() && gptr - eback <= Capacity() / 2
      modifies this, local
      ensures Valid() && fresh(data) && Unread() == old(Unread())
      ensures Capacity() == 2 * old(Capacity()) && egptr < eback + Capacity()
      ensures compacted == old(compacted) && consumed == old(consumed)
    {
      hide ToBytes;
      var csize := if IsLocal() then local[0] else FromBytes(local[..8]);
      var avail := egptr - gptr;
      var chunk := new byte[csize * 2];
      CopyAcross(chunk, 0, data, gptr, avail);
      LoadStoredSize(csize * 2);
      Store(local, 0, ToBytes(csize * 2, 8));
      assert local[..8] == local[0..0 + 8];
      grown := grown + avail;
      data := chunk;
      eback, gptr, egptr := 0, 0, avail;
    }

    /** The second half of _sync: the device writes behind the unread bytes. */
    method Fill(bytes: seq<byte>)
      requires Valid() && egptr + |bytes| <= eback + Capacity()
      modifies this`egptr, data
      ensures Valid() && Unread() == old(Unread()) + bytes
    {
      Store(data, egptr, bytes);
      assert !IsLocal() ==> local[..8] == old(local[..8]);
      egptr := egptr + |bytes|;
      assert data[gptr..egptr] == data[gptr..old(egptr)] + data[old(egptr)..egptr];
    }

    /** _purge: sync until the device has nothing more to give, or fails. */
    method Purge() returns (ret: int)
      requires Valid() && device != null && device !in Repr()
      requires |Unread()| + |device.wire| < SIZE_LIMIT / 4
      modifies Repr(), device
      ensures Valid() && fresh(Repr() - old(Repr()))
      ensures old(Unread()) + old(device.wire) == Unread() + device.wire
      ensures ret == -1 || ret == |Unread()| - |old(Unread())|
    {
      var sz := 0;
      while true
        invariant Valid() && fresh(Repr() - old(Repr())) && device !in Repr()
        invariant old(Unread()) + old(device.wire) == Unread() + device.wire
        invariant sz == |Unread()| - |old(Unread())|
        decreases |device.plan|
      {
        var r := Sync();
        if r > 0 {
          sz := sz + r;
        } else if r == 0 {
          break;
        } else {
          return -1;
        }
      }
      ret := sz;
    }

    /** _read: hand out at most count of the unread bytes. */
    method Read(count: nat) returns (s: seq<byte>)
      requires Valid()
      modifies this`gptr, this`consumed
      ensures Valid() && |s| == (if count < |old(Unread())| then count else |old(Unread())|)
      ensures old(Unread()) == s + Unread()
    {
      var n := if count < egptr - gptr then count else egptr - gptr;
      s := data[gptr..gptr + n];
      gptr := gptr + n;
      consumed := consumed + n;
    }

    /** _drop: discard at most count of the unread bytes. */
    method Drop(count: nat) returns (n: nat)
      requires Valid()
      modifies this`gptr, this`consumed
      ensures Valid() && n == (if count < |old(Unread())| then count else |old(Unread())|)
      ensures Unread() == old(Unread())[n..]
    {
      n := if count < egptr - gptr then count else egptr - gptr;
      gptr := gptr + n;
      consumed := consumed + n;
    }

    /** _copy: look at the unread bytes without reading them. */
    method Copy(count: nat) returns (s: seq<byte>)
      requires Valid()
      ensures s == Unread()[..if count < |Unread()| then count else |Unread()|]
    {
      var n := if count < egptr - gptr then count else egptr - gptr;
      SliceOfSlice(data[..], gptr, egptr, gptr, gptr + n);
      s := data[gptr..gptr + n];
    }
  }
}
