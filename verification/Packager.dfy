/**
 Messages on a byte stream: the packagers put the length of the whole frame in front of the
 items, and take a message off the stream only when a whole frame has arrived.
 */
module Packager {
  import opened LittleEndian
  import opened Options
  import opened StreamBuffers
  import opened BinaryArchive
  import opened Archivers

  const HEADER: nat := 8   // sizeof(std::streamsize)

  /** A message on the stream: its own length, header included, and its items. */
  function Frame(payload: seq<byte>): seq<byte> {
    ToBytes(HEADER + |payload|, HEADER) + payload
  }

  /** The test both BinaryInputPackager operators make, on the bytes available. */
  predicate Ready(s: seq<byte>) {
    |s| >= HEADER && |s| >= Signed64(FromBytes(s[..HEADER]))
  }

  lemma Patched(before: seq<byte>, placeholder: seq<byte>, payload: seq<byte>)
    requires |placeholder| == HEADER
    ensures var s, back := before + placeholder + payload, HEADER + |payload|;
      s[..|s| - back] + ToBytes(back, HEADER) + s[|s| - back + HEADER..] == before + Frame(payload)
  {
    var s := before + placeholder + payload;
    assert s[..|before|] == before && s[|before| + HEADER..] == payload;
  }

  class BinaryOutputPackager {
    const ar: BinaryOutputArchiver

    constructor (osbuf: OutputStreamBuffer)
      ensures ar.osbuf == osbuf
    {
      ar := new BinaryOutputArchiver(osbuf);
    }

    /** Write a placeholder (whatever the uninitialised count holds) and the items, then patch
        the true count over the placeholder. */
    method Pack(ts: seq<Ty>, vs: seq<Val>, placeholder: seq<byte>) returns (sz: int)
      requires ar.osbuf.Valid() && EachHasType(ts, vs) && |placeholder| == HEADER
      requires |ar.osbuf.Unread()| + HEADER + |EncodeEach(ts, vs)| < SIZE_LIMIT
      modifies ar.osbuf.Repr()
      ensures ar.osbuf.Valid() && fresh(ar.osbuf.Repr() - old(ar.osbuf.Repr()))
      ensures ar.osbuf.Unread() == old(ar.osbuf.Unread()) + Frame(EncodeEach(ts, vs))
      ensures sz == |Frame(EncodeEach(ts, vs))|
    {
      hide ToBytes;
      hide EncodeEach, EachHasType, FromBytes;
      var a := ar.osbuf.Write(placeholder);
      var b := ar.ArchiveEach(ts, vs);
      sz := a + b;
      Patched(old(ar.osbuf.Unread()), placeholder, EncodeEach(ts, vs));
      ar.osbuf.Patch(sz, ToBytes(sz, HEADER));
    }
  }

  class BinaryInputPackager {
    const ar: BinaryInputArchiver

    constructor (isbuf: InputStreamBuffer)
      ensures ar.isbuf == isbuf
    {
      ar := new BinaryInputArchiver(isbuf);
    }

    /** Returns -1 and touches nothing until a whole frame is there; then reads the count and the items. */
    method Unpack(ts: seq<Ty>) returns (sz: int, vs: seq<Val>)
      requires ar.isbuf.Valid()
      requires Ready(ar.isbuf.Unread()) ==> DecodeEach(ts, ar.isbuf.Unread()[HEADER..]).Some?
      modifies ar.isbuf`gptr, ar.isbuf`consumed
      ensures ar.isbuf.Valid()
      ensures !Ready(old(ar.isbuf.Unread())) ==> sz == -1 && ar.isbuf.Unread() == old(ar.isbuf.Unread())
      ensures Ready(old(ar.isbuf.Unread())) ==>
        && DecodeEach(ts, old(ar.isbuf.Unread())[HEADER..]) == Some((vs, ar.isbuf.Unread()))
        && sz == |old(ar.isbuf.Unread())| - |ar.isbuf.Unread()| >= HEADER
    {
      hide DecodeEach, FromBytes;
      var head := ar.isbuf.Copy(HEADER);
      var avail := ar.isbuf.egptr - ar.isbuf.gptr;
      if avail >= HEADER && avail >= Signed64(FromBytes(head)) {
        var count := ar.isbuf.Read(HEADER);
        var c;
        vs, c := ar.ArchiveEach(ts);
        sz := HEADER + c;
      } else {
        sz, vs := -1, [];
      }
    }
  }

  // ---- Frames ------------------------------------------------------------------------------

  /** A whole frame at the front is recognised, and decodes to its message, leaving the rest. */
  lemma WholeFrameDecodes(ts: seq<Ty>, vs: seq<Val>, rest: seq<byte>)
    requires EachHasType(ts, vs) && HEADER + |EncodeEach(ts, vs)| < SIZE_LIMIT
    ensures var s := Frame(EncodeEach(ts, vs)) + rest;
      Ready(s) && DecodeEach(ts, s[HEADER..]) == Some((vs, rest))
  {
    hide EncodeEach, DecodeEach, FromBytes, ToBytes;
    var payload := EncodeEach(ts, vs);
    var s := Frame(payload) + rest;
    LoadStoredSize(HEADER + |payload|);
    assert s[..HEADER] == ToBytes(HEADER + |payload|, HEADER);
    assert s[HEADER..] == payload + rest;
    EachRoundTrip(ts, vs, rest);
  }

  /** An incomplete frame is never taken for a whole one, however it was cut. */
  lemma PartialFrameWaits(payload: seq<byte>, s: seq<byte>)
    requires HEADER + |payload| < SIZE_LIMIT
    requires s <= Frame(payload) && s != Frame(payload)
    ensures !Ready(s)
  {
    hide FromBytes, ToBytes;
    if |s| >= HEADER {
      LoadStoredSize(HEADER + |payload|);
      assert s[..HEADER] == Frame(payload)[..HEADER] == ToBytes(HEADER + |payload|, HEADER);
    }
  }
}
