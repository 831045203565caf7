/** The archivers at work on stream buffers: they write exactly Encode and read exactly Decode. */
module Archivers {
  import opened LittleEndian
  import opened Options
  import opened StreamBuffers
  import opened BinaryArchive

  lemma NextOfAll(t: Ty, vs: seq<Val>, i: nat)
    requires i < |vs| && AllHaveType(t, vs[i..])
    ensures HasType(t, vs[i]) && AllHaveType(t, vs[i + 1..])
    ensures EncodeAll(t, vs[i..]) == Encode(t, vs[i]) + EncodeAll(t, vs[i + 1..])
  {
    assert vs[i..][1..] == vs[i + 1..];
  }

  lemma NextOfEach(ts: seq<Ty>, vs: seq<Val>, i: nat)
    requires i < |ts| == |vs| && EachHasType(ts[i..], vs[i..])
    ensures HasType(ts[i], vs[i]) && EachHasType(ts[i + 1..], vs[i + 1..])
    ensures EncodeEach(ts[i..], vs[i..]) == Encode(ts[i], vs[i]) + EncodeEach(ts[i + 1..], vs[i + 1..])
  {
    assert ts[i..][1..] == ts[i + 1..] && vs[i..][1..] == vs[i + 1..];
  }

  lemma NothingLeft(t: Ty, vs: seq<Val>)
    ensures vs[|vs|..] == [] && AllHaveType(t, vs[|vs|..]) && EncodeAll(t, vs[|vs|..]) == []
  {
  }

  lemma NothingLeftOfEach(ts: seq<Ty>, vs: seq<Val>)
    requires EachHasType(ts, vs)
    ensures |ts| == |vs|
    ensures ts[|ts|..] == [] && vs[|ts|..] == [] && EncodeEach(ts[|ts|..], vs[|ts|..]) == []
  {
  }

  class BinaryOutputArchiver {
    const osbuf: OutputStreamBuffer

    constructor (osbuf: OutputStreamBuffer)
      ensures this.osbuf == osbuf
    {
      this.osbuf := osbuf;
    }

    /** _archive: the bytes appended are the encoding, and the count returned is its length. */
    method Archive(t: Ty, v: Val) returns (count: nat)
      requires osbuf.Valid() && HasType(t, v)
      requires |osbuf.Unread()| + |Encode(t, v)| < SIZE_LIMIT
      modifies osbuf.Repr()
      ensures osbuf.Valid() && fresh(osbuf.Repr() - old(osbuf.Repr()))
      ensures osbuf.Unread() == old(osbuf.Unread()) + Encode(t, v)
      ensures count == |Encode(t, v)|
      decreases t, 1
    {
      hide ToBytes;
      match t {
        case Scalar(w) =>
          count := osbuf.Write(v.bytes);
        case Text(w) =>
          count := ArchiveTagged(|v.bytes| / w, v.bytes);
        case ListOf(e) =>
          count := ArchiveSized(e, v.items);
        case TableOf(e) =>
          count := ArchiveSized(e, v.items);
        case SetOf(e) =>
          count := ArchiveSized(e, v.items);
        case ArrayOf(e, n) =>
          count := ArchiveItems(e, v.items);
        case OneOf(alts) =>
          count := ArchivePrefixed(Tag(v.index), alts[v.index], v.val);
        case Maybe(e) =>
          if v.Absent? {
            count := osbuf.Write([0]);
          } else {
            count := ArchivePrefixed([1], e, v.val);
          }
        case TupleOf(es) =>
          count := ArchiveEach(es, v.items);
      }
    }

    /** A size tag and raw bytes. */
    method ArchiveTagged(n: nat, bytes: seq<byte>) returns (count: nat)
      requires osbuf.Valid() && |osbuf.Unread()| + TAG + |bytes| < SIZE_LIMIT
      modifies osbuf.Repr()
      ensures osbuf.Valid() && fresh(osbuf.Repr() - old(osbuf.Repr()))
      ensures osbuf.Unread() == old(osbuf.Unread()) + (Tag(n) + bytes)
      ensures count == TAG + |bytes|
    {
      hide FromBytes, ToBytes;
      var a := osbuf.Write(Tag(n));
      var b := osbuf.Write(bytes);
      count := a + b;
    }

    /** A variant index or a presence flag, and the value it announces. */
    method ArchivePrefixed(prefix: seq<byte>, t: Ty, v: Val) returns (count: nat)
      requires osbuf.Valid() && HasType(t, v)
      requires |osbuf.Unread()| + |prefix| + |Encode(t, v)| < SIZE_LIMIT
      modifies osbuf.Repr()
      ensures osbuf.Valid() && fresh(osbuf.Repr() - old(osbuf.Repr()))
      ensures osbuf.Unread() == old(osbuf.Unread()) + (prefix + Encode(t, v))
      ensures count == |prefix| + |Encode(t, v)|
      decreases t, 2
    {
      hide Encode, HasType, FromBytes;
      var a := osbuf.Write(prefix);
      var b := Archive(t, v);
      count := a + b;
    }

    /** A size tag and a container's items. */
    method ArchiveSized(t: Ty, vs: seq<Val>) returns (count: nat)
      requires osbuf.Valid() && AllHaveType(t, vs)
      requires |osbuf.Unread()| + TAG + |EncodeAll(t, vs)| < SIZE_LIMIT
      modifies osbuf.Repr()
      ensures osbuf.Valid() && fresh(osbuf.Repr() - old(osbuf.Repr()))
      ensures osbuf.Unread() == old(osbuf.Unread()) + (Tag(|vs|) + EncodeAll(t, vs))
      ensures count == TAG + |EncodeAll(t, vs)|
      decreases t, 3
    {
      hide Encode, EncodeAll, HasType, AllHaveType, FromBytes, ToBytes;
      var a := osbuf.Write(Tag(|vs|));
      var b := ArchiveItems(t, vs);
      count := a + b;
    }

    /** The loops over a container's items. */
    method ArchiveItems(t: Ty, vs: seq<Val>) returns (count: nat)
      requires osbuf.Valid() && AllHaveType(t, vs)
      requires |osbuf.Unread()| + |EncodeAll(t, vs)| < SIZE_LIMIT
      modifies osbuf.Repr()
      ensures osbuf.Valid() && fresh(osbuf.Repr() - old(osbuf.Repr()))
      ensures osbuf.Unread() == old(osbuf.Unread()) + EncodeAll(t, vs)
      ensures count == |EncodeAll(t, vs)|
      decreases t, 2
    {
      hide Encode, EncodeAll, HasType, AllHaveType, FromBytes;
      NothingLeft(t, vs);
      ghost var whole := osbuf.Unread() + EncodeAll(t, vs);
      count := 0;
      for i := 0 to |vs|
        invariant osbuf.Valid() && fresh(osbuf.Repr() - old(osbuf.Repr()))
        invariant AllHaveType(t, vs[i..]) && osbuf.Unread() + EncodeAll(t, vs[i..]) == whole
        invariant count == |osbuf.Unread()| - |old(osbuf.Unread())|
      {
        NextOfAll(t, vs, i);
        ghost var before, rest := osbuf.Unread(), EncodeAll(t, vs[i + 1..]);
        var c := Archive(t, vs[i]);
        assert osbuf.Unread() + rest == before + (Encode(t, vs[i]) + rest);
        count := count + c;
      }
    }

    /** The fold over a tuple's elements. */
    method ArchiveEach(ts: seq<Ty>, vs: seq<Val>) returns (count: nat)
      requires osbuf.Valid() && EachHasType(ts, vs)
      requires |osbuf.Unread()| + |EncodeEach(ts, vs)| < SIZE_LIMIT
      modifies osbuf.Repr()
      ensures osbuf.Valid() && fresh(osbuf.Repr() - old(osbuf.Repr()))
      ensures osbuf.Unread() == old(osbuf.Unread()) + EncodeEach(ts, vs)
      ensures count == |EncodeEach(ts, vs)|
      decreases ts, 0
    {
      hide Encode, EncodeEach, HasType, EachHasType, FromBytes;
      NothingLeftOfEach(ts, vs);
      ghost var whole := osbuf.Unread() + EncodeEach(ts, vs);
      count := 0;
      for i := 0 to |ts|
        invariant osbuf.Valid() && fresh(osbuf.Repr() - old(osbuf.Repr()))
        invariant EachHasType(ts[i..], vs[i..]) && osbuf.Unread() + EncodeEach(ts[i..], vs[i..]) == whole
        invariant count == |osbuf.Unread()| - |old(osbuf.Unread())|
      {
        NextOfEach(ts, vs, i);
        ghost var before, rest := osbuf.Unread(), EncodeEach(ts[i + 1..], vs[i + 1..]);
        var c := Archive(ts[i], vs[i]);
        assert osbuf.Unread() + rest == before + (Encode(ts[i], vs[i]) + rest);
        count := count + c;
      }
    }
  }

  class BinaryInputArchiver {
    const isbuf: InputStreamBuffer

    constructor (isbuf: InputStreamBuffer)
      ensures this.isbuf == isbuf
    {
      this.isbuf := isbuf;
    }

    /** make_size_tag on the way in. */
    method ReadSize() returns (n: nat)
      requires isbuf.Valid() && |isbuf.Unread()| >= TAG
      modifies isbuf`gptr, isbuf`consumed
      ensures isbuf.Valid() && ReadTag(old(isbuf.Unread())) == Some((n, isbuf.Unread()))
    {
      var b := isbuf.Read(TAG);
      n := FromBytes(b);
    }

    method ReadBytes(n: nat) returns (b: seq<byte>)
      requires isbuf.Valid() && |isbuf.Unread()| >= n
      modifies isbuf`gptr, isbuf`consumed
      ensures isbuf.Valid() && ReadRaw(n, old(isbuf.Unread())) == Some((b, isbuf.Unread()))
    {
      b := isbuf.Read(n);
    }

    /** _archive: the value read and the bytes left are those of Decode; the count returned is the
        number of bytes consumed. */
    method Archive(t: Ty) returns (v: Val, count: nat)
      requires isbuf.Valid() && Decode(t, isbuf.Unread()).Some?
      modifies isbuf`gptr, isbuf`consumed
      ensures isbuf.Valid() && Decode(t, old(isbuf.Unread())) == Some((v, isbuf.Unread()))
      ensures count == |old(isbuf.Unread())| - |isbuf.Unread()|
      decreases t, 1
    {
      hide FromBytes;
      match t {
        case Scalar(w) =>
          var b := ReadBytes(w);
          v, count := Raw(b), |b|;
        case Text(w) =>
          var n := ReadSize();
          var b := ReadBytes(n * w);
          v, count := Raw(b), TAG + |b|;
        case ListOf(_) => v, count := ArchiveContainer(t);
        case TableOf(_) => v, count := ArchiveContainer(t);
        case SetOf(_) => v, count := ArchiveContainer(t);
        case ArrayOf(e, n) =>
          var vs, c := ArchiveItems(e, n);
          v, count := Items(vs), c;
        case OneOf(alts) =>
          var i := ReadSize();
          var x, c := Archive(alts[i]);
          v, count := Alt(i, x), TAG + c;
        case Maybe(e) =>
          var flag := ReadBytes(1);
          if flag == [0] {
            v, count := Absent, 1;
          } else {
            var x, c := Archive(e);
            v, count := Present(x), 1 + c;
          }
        case TupleOf(es) =>
          var vs, c := ArchiveEach(es);
          v, count := Items(vs), c;
      }
    }

    /** The three kinds of container that carry their size. */
    method ArchiveContainer(t: Ty) returns (v: Val, count: nat)
      requires isbuf.Valid() && Decode(t, isbuf.Unread()).Some?
      requires t.ListOf? || t.TableOf? || t.SetOf?
      modifies isbuf`gptr, isbuf`consumed
      ensures isbuf.Valid() && Decode(t, old(isbuf.Unread())) == Some((v, isbuf.Unread()))
      ensures count == |old(isbuf.Unread())| - |isbuf.Unread()|
      decreases t, 0
    {
      hide FromBytes;
      var n := ReadSize();
      var vs: seq<Val>;
      var c: nat;
      match t {
        case ListOf(e) => vs, c := ArchiveItems(e, n);
        case TableOf(e) => vs, c := ArchiveKeyed(true, e, n);
        case SetOf(e) => vs, c := ArchiveKeyed(false, e, n);
      }
      v, count := Items(vs), TAG + c;
    }

    /** The loops that fill a container already resized to n. */
    method ArchiveItems(t: Ty, n: nat) returns (vs: seq<Val>, count: nat)
      requires isbuf.Valid() && DecodeAll(t, n, isbuf.Unread()).Some?
      modifies isbuf`gptr, isbuf`consumed
      ensures isbuf.Valid() && DecodeAll(t, n, old(isbuf.Unread())) == Some((vs, isbuf.Unread()))
      ensures count == |old(isbuf.Unread())| - |isbuf.Unread()|
      decreases t, 2
    {
      hide Decode, FromBytes;
      ghost var Some((all, end)) := DecodeAll(t, n, isbuf.Unread());
      DecodeAllLength(t, n, isbuf.Unread());
      vs, count := [], 0;
      for i := 0 to n
        invariant isbuf.Valid() && |vs| == i <= |all| == n
        invariant DecodeAll(t, n - i, isbuf.Unread()) == Some((all[i..], end))
        invariant vs == all[..i]
        invariant count == |old(isbuf.Unread())| - |isbuf.Unread()|
      {
        var v, c := Archive(t);
        vs, count := vs + [v], count + c;
        assert all[i..][1..] == all[i + 1..] && all[..i + 1] == all[..i] + [all[i]];
      }
      assert all[..|all|] == all;
    }

    /** The loops that insert n entries or keys into a cleared container. */
    method ArchiveKeyed(table: bool, t: Ty, n: nat) returns (vs: seq<Val>, count: nat)
      requires isbuf.Valid() && DecodeAll(t, n, isbuf.Unread()).Some?
      modifies isbuf`gptr, isbuf`consumed
      ensures isbuf.Valid()
      ensures var d := DecodeAll(t, n, old(isbuf.Unread())).value;
        vs == InsertAll(table, [], d.0) && isbuf.Unread() == d.1
      ensures count == |old(isbuf.Unread())| - |isbuf.Unread()|
      decreases t, 2
    {
      hide Decode, FromBytes;
      ghost var Some((all, end)) := DecodeAll(t, n, isbuf.Unread());
      DecodeAllLength(t, n, isbuf.Unread());
      vs, count := [], 0;
      for i := 0 to n
        invariant isbuf.Valid() && i <= |all| == n
        invariant DecodeAll(t, n - i, isbuf.Unread()) == Some((all[i..], end))
        invariant InsertAll(table, vs, all[i..]) == InsertAll(table, [], all)
        invariant count == |old(isbuf.Unread())| - |isbuf.Unread()|
      {
        var v, c := Archive(t);
        vs, count := Insert(table, vs, v), count + c;
        assert all[i..][1..] == all[i + 1..];
      }
    }

    /** The fold over a tuple's elements. */
    method ArchiveEach(ts: seq<Ty>) returns (vs: seq<Val>, count: nat)
      requires isbuf.Valid() && DecodeEach(ts, isbuf.Unread()).Some?
      modifies isbuf`gptr, isbuf`consumed
      ensures isbuf.Valid() && DecodeEach(ts, old(isbuf.Unread())) == Some((vs, isbuf.Unread()))
      ensures count == |old(isbuf.Unread())| - |isbuf.Unread()|
      decreases ts, 0
    {
      hide Decode, FromBytes;
      ghost var Some((all, end)) := DecodeEach(ts, isbuf.Unread());
      DecodeEachLength(ts, isbuf.Unread());
      vs, count := [], 0;
      for i := 0 to |ts|
        invariant isbuf.Valid() && |vs| == i <= |all| == |ts|
        invariant DecodeEach(ts[i..], isbuf.Unread()) == Some((all[i..], end))
        invariant vs == all[..i]
        invariant count == |old(isbuf.Unread())| - |isbuf.Unread()|
      {
        assert ts[i..][1..] == ts[i + 1..];
        var v, c := Archive(ts[i]);
        vs, count := vs + [v], count + c;
        assert all[i..][1..] == all[i + 1..] && all[..i + 1] == all[..i] + [all[i]];
      }
      assert all[..|all|] == all && ts[|ts|..] == [];
    }
  }

  lemma {:induction false} DecodeAllLength(t: Ty, n: nat, s: seq<byte>)
    requires DecodeAll(t, n, s).Some?
    ensures |DecodeAll(t, n, s).value.0| == n
    decreases n
  {
    if n > 0 {
      DecodeAllLength(t, n - 1, Decode(t, s).value.1);
    }
  }

  lemma {:induction false} DecodeEachLength(ts: seq<Ty>, s: seq<byte>)
    requires DecodeEach(ts, s).Some?
    ensures |DecodeEach(ts, s).value.0| == |ts|
    decreases |ts|
  {
    if ts != [] {
      DecodeEachLength(ts[1..], Decode(ts[0], s).value.1);
    }
  }
}
