/**
 The whole chain from one packager to the other. What the two buffers and the wire between
 them do is described first as a machine on byte sequences, for which the promises are proved
 over every schedule; the class Connection then shows that the real buffers, packagers and
 device take only such steps.
 */
module Channel {
  import opened LittleEndian
  import opened Options
  import opened StreamBuffers
  import opened BinaryArchive
  import opened Archivers
  import opened Packager

  // ---- The machine -------------------------------------------------------------------------

  type Message = seq<Val>

  /** Bytes waiting in the sender's buffer, bytes in flight, bytes waiting in the receiver's
      buffer, and the messages that entered and left. */
  datatype Link = Link(
    out: seq<byte>, wire: seq<byte>, inn: seq<byte>,
    sent: seq<Message>, received: seq<Message>)

  /** Push and Pull move at most n bytes: a device may move any part, or nothing. */
  datatype Event = Send(m: Message) | Push(n: nat) | Pull(n: nat) | Receive

  const UNUSED := Link([], [], [], [], [])

  /** What both ends agree on: the types of the items of the first message, of the second, and so on. */
  type Agreed = nat -> seq<Ty>

  /** The items of a message are of its types, and its frame is not too long. */
  ghost predicate Sendable(ts: seq<Ty>, m: Message) {
    EachHasType(ts, m) && HEADER + |EncodeEach(ts, m)| < SIZE_LIMIT
  }

  /** Messages from the k-th on. */
  ghost predicate AllSendable(types: Agreed, ms: seq<Message>, k: nat) {
    forall i | 0 <= i < |ms| :: Sendable(types(k + i), ms[i])
  }

  ghost function Step(types: Agreed, l: Link, e: Event): Link {
    match e
    case Send(m) =>
      var ts := types(|l.sent|);
      if Sendable(ts, m) then l.(out := l.out + Frame(EncodeEach(ts, m)), sent := l.sent + [m]) else l
    case Push(n) =>
      var k: nat := Min(n, |l.out|);
      l.(out := l.out[k..], wire := l.wire + l.out[..k])
    case Pull(n) =>
      var k: nat := Min(n, |l.wire|);
      l.(wire := l.wire[k..], inn := l.inn + l.wire[..k])
    case Receive =>
      if !Ready(l.inn) then l
      else match DecodeEach(types(|l.received|), l.inn[HEADER..])
           case None => l
           case Some((m, rest)) => l.(inn := rest, received := l.received + [m])
  }

  ghost function Run(types: Agreed, l: Link, schedule: seq<Event>): Link
    decreases |schedule|
  {
    if schedule == [] then l else Run(types, Step(types, l, schedule[0]), schedule[1..])
  }

  lemma SendableLater(types: Agreed, ms: seq<Message>, k: nat)
    requires AllSendable(types, ms, k) && ms != []
    ensures Sendable(types(k), ms[0]) && AllSendable(types, ms[1..], k + 1)
  {
    hide Sendable;
    assert Sendable(types(k + 0), ms[0]);
    forall i | 0 <= i < |ms[1..]| ensures Sendable(types(k + 1 + i), ms[1..][i]) {
      assert Sendable(types(k + (i + 1)), ms[i + 1]);
    }
  }

  ghost function Frames(types: Agreed, ms: seq<Message>, k: nat): seq<byte>
    requires AllSendable(types, ms, k)
    decreases |ms|
  {
    if ms == [] then []
    else
      SendableLater(types, ms, k);
      Frame(EncodeEach(types(k), ms[0])) + Frames(types, ms[1..], k + 1)
  }

  /** What was received is what was sent first, and the bytes on the way are the frames of the rest. */
  ghost predicate Inv(types: Agreed, l: Link) {
    && AllSendable(types, l.sent, 0)
    && l.received <= l.sent
    && AllSendable(types, l.sent[|l.received|..], |l.received|)
    && l.inn + l.wire + l.out == Frames(types, l.sent[|l.received|..], |l.received|)
  }

  // ---- Every schedule ----------------------------------------------------------------------

  lemma SendableAppend(types: Agreed, ms: seq<Message>, k: nat, m: Message)
    requires AllSendable(types, ms, k) && Sendable(types(k + |ms|), m)
    ensures AllSendable(types, ms + [m], k)
  {
  }

  lemma {:induction false} FramesAppend(types: Agreed, ms: seq<Message>, k: nat, m: Message)
    requires AllSendable(types, ms, k) && Sendable(types(k + |ms|), m)
    ensures AllSendable(types, ms + [m], k)
    ensures Frames(types, ms + [m], k) == Frames(types, ms, k) + Frame(EncodeEach(types(k + |ms|), m))
    decreases |ms|
  {
    hide Sendable, EncodeEach, Frame;
    SendableAppend(types, ms, k, m);
    if ms == [] {
      assert ms + [m] == [m];
      assert [m][1..] == [];
    } else {
      SendableLater(types, ms, k);
      assert (ms + [m])[1..] == ms[1..] + [m];
      FramesAppend(types, ms[1..], k + 1, m);
    }
  }

  /** Where a part that has arrived of a whole ends, before or after the end of the whole's first piece. */
  lemma ArrivedPart(inn: seq<byte>, rest: seq<byte>, f: seq<byte>, more: seq<byte>)
    requires inn + rest == f + more
    ensures if |f| <= |inn| then inn == f + inn[|f|..] else inn == f[..|inn|]
  {
    var all := f + more;
    assert inn == all[..|inn|] && f == all[..|f|];
    if |f| <= |inn| {
      assert inn[..|f|] == all[..|f|];
    } else {
      assert f[..|inn|] == all[..|inn|];
    }
  }

  lemma FrontFrame(types: Agreed, l: Link)
    requires Inv(types, l) && |l.received| < |l.sent|
    ensures var k := |l.received|;
      && Sendable(types(k), l.sent[k]) && AllSendable(types, l.sent[k + 1..], k + 1)
      && l.inn + (l.wire + l.out) == Frame(EncodeEach(types(k), l.sent[k])) + Frames(types, l.sent[k + 1..], k + 1)
  {
    hide Sendable, EncodeEach, Frame;
    var k := |l.received|;
    var pending := l.sent[k..];
    assert pending[0] == l.sent[k] && pending[1..] == l.sent[k + 1..];
    SendableLater(types, pending, k);
    assert l.inn + l.wire + l.out == l.inn + (l.wire + l.out);
  }

  /** The message at the front of the pending ones is decoded exactly when its frame is complete. */
  lemma FrontMessage(types: Agreed, l: Link)
    requires Inv(types, l) && |l.received| < |l.sent|
    ensures var k := |l.received|;
      var ts, m := types(k), l.sent[k];
      var f := Frame(EncodeEach(ts, m));
      && Sendable(ts, m)
      && (Ready(l.inn) <==> |f| <= |l.inn|)
      && (Ready(l.inn) ==> f <= l.inn && DecodeEach(ts, l.inn[HEADER..]) == Some((m, l.inn[|f|..])))
  {
    hide Frames, EncodeEach, DecodeEach, Frame, Ready, EachHasType;
    FrontFrame(types, l);
    var k := |l.received|;
    var ts, m := types(k), l.sent[k];
    var f := Frame(EncodeEach(ts, m));
    ArrivedPart(l.inn, l.wire + l.out, f, Frames(types, l.sent[k + 1..], k + 1));
    if |f| <= |l.inn| {
      WholeFrameDecodes(ts, m, l.inn[|f|..]);
    } else {
      PartialFrameWaits(EncodeEach(ts, m), l.inn);
    }
  }

  /** With every message received nothing is left to decode. */
  lemma NothingPending(types: Agreed, l: Link)
    requires Inv(types, l) && |l.received| == |l.sent|
    ensures l.inn == [] && l.wire == [] && l.out == [] && !Ready(l.inn)
  {
    assert l.sent[|l.received|..] == [];
    assert |l.inn + l.wire + l.out| == 0;
  }

  lemma StepKeeps(types: Agreed, l: Link, e: Event)
    requires Inv(types, l)
    ensures Inv(types, Step(types, l, e))
  {
    hide EncodeEach, DecodeEach, EachHasType, Frame, Frames, Ready;
    var r := Step(types, l, e);
    match e {
      case Send(m) => SendKeeps(types, l, m);
      case Push(n) => assert r.inn + r.wire + r.out == l.inn + l.wire + l.out;
      case Pull(n) => assert r.inn + r.wire + r.out == l.inn + l.wire + l.out;
      case Receive => ReceiveKeeps(types, l);
    }
  }

  lemma SendKeeps(types: Agreed, l: Link, m: Message)
    requires Inv(types, l)
    ensures Inv(types, Step(types, l, Send(m)))
  {
    hide EncodeEach, EachHasType, Frame, Frames;
    if Sendable(types(|l.sent|), m) {
      var r, k := Step(types, l, Send(m)), |l.received|;
      FramesAppend(types, l.sent[k..], k, m);
      assert r.sent[k..] == l.sent[k..] + [m];
      assert r.inn + r.wire + r.out == l.inn + l.wire + l.out + Frame(EncodeEach(types(|l.sent|), m));
    }
  }

  lemma ReceiveKeeps(types: Agreed, l: Link)
    requires Inv(types, l)
    ensures Inv(types, Step(types, l, Receive))
  {
    hide EncodeEach, DecodeEach, EachHasType, Frame, Ready;
    var r, k := Step(types, l, Receive), |l.received|;
    if k < |l.sent| {
      FrontMessage(types, l);
      if Ready(l.inn) {
        var f := Frame(EncodeEach(types(k), l.sent[k]));
        var rest := Frames(types, l.sent[k + 1..], k + 1);
        assert l.sent[k..][1..] == l.sent[k + 1..];
        assert l.inn + l.wire + l.out == f + (r.inn + r.wire + r.out);
        assert l.inn + l.wire + l.out == f + rest;
        Cancel(f, r.inn + r.wire + r.out, rest);
        assert r.received == l.sent[..k] + [l.sent[k]] == l.sent[..k + 1];
      }
    } else {
      NothingPending(types, l);
    }
  }

  lemma {:induction false} RunKeeps(types: Agreed, l: Link, schedule: seq<Event>)
    requires Inv(types, l)
    ensures Inv(types, Run(types, l, schedule))
    decreases |schedule|
  {
    if schedule != [] {
      StepKeeps(types, l, schedule[0]);
      RunKeeps(types, Step(types, l, schedule[0]), schedule[1..]);
    }
  }

  /** However the bytes are cut up, the messages received are always the first ones sent, in order. */
  lemma ReceivedIsPrefixOfSent(types: Agreed, schedule: seq<Event>)
    ensures var l := Run(types, UNUSED, schedule); l.received <= l.sent
  {
    RunKeeps(types, UNUSED, schedule);
  }

  /** A receive changes nothing until the next frame is complete, and then takes its message. */
  lemma ReceiveTakesWholeFrames(types: Agreed, schedule: seq<Event>)
    ensures var l := Run(types, UNUSED, schedule);
      var r, k := Step(types, l, Receive), |l.received|;
      if k < |l.sent| && Sendable(types(k), l.sent[k]) && |Frame(EncodeEach(types(k), l.sent[k]))| <= |l.inn|
      then r.received == l.received + [l.sent[k]]
      else r == l
  {
    RunKeeps(types, UNUSED, schedule);
    var l := Run(types, UNUSED, schedule);
    if |l.received| < |l.sent| {
      FrontMessage(types, l);
    } else {
      NothingPending(types, l);
    }
  }

  function Receives(n: nat): seq<Event> {
    if n == 0 then [] else [Receive] + Receives(n - 1)
  }

  lemma {:induction false} DrainKeepsGoing(types: Agreed, l: Link)
    requires Inv(types, l) && l.out == [] && l.wire == []
    ensures var r := Run(types, l, Receives(|l.sent| - |l.received|)); r.received == r.sent == l.sent && r.inn == []
    decreases |l.sent| - |l.received|
  {
    hide EncodeEach, Frame;
    var k := |l.received|;
    if k == |l.sent| {
      NothingPending(types, l);
    } else {
      FrontMessage(types, l);
      var f := Frame(EncodeEach(types(k), l.sent[k]));
      assert l.sent[k..][1..] == l.sent[k + 1..];
      assert |l.inn| == |Frames(types, l.sent[k..], k)| >= |f|;
      StepKeeps(types, l, Receive);
      var r := Step(types, l, Receive);
      assert Receives(|l.sent| - k)[1..] == Receives(|l.sent| - k - 1);
      DrainKeepsGoing(types, r);
    }
  }

  /** Once every byte has been delivered, receiving until there is nothing left yields every
      message sent. */
  lemma EverythingArrives(types: Agreed, schedule: seq<Event>)
    requires Run(types, UNUSED, schedule).out == [] && Run(types, UNUSED, schedule).wire == []
    ensures var l := Run(types, UNUSED, schedule);
      |l.received| <= |l.sent| &&
      var r := Run(types, l, Receives(|l.sent| - |l.received|));
      r.received == l.sent && r.inn == []
  {
    hide Step;
    RunKeeps(types, UNUSED, schedule);
    hide *;
    DrainKeepsGoing(types, Run(types, UNUSED, schedule));
  }

  // ---- The real thing ----------------------------------------------------------------------

  class Connection {
    const types: Agreed
    const osbuf: OutputStreamBuffer
    const isbuf: InputStreamBuffer
    const pipe: Device
    const packer: BinaryOutputPackager
    const unpacker: BinaryInputPackager
    ghost var sent: seq<Message>
    ghost var received: seq<Message>

    ghost predicate Valid()
      reads this, osbuf, osbuf.local, osbuf.data, isbuf, isbuf.local, isbuf.data, pipe
    {
      && osbuf.Valid() && isbuf.Valid()
      && osbuf.device == pipe && isbuf.device == pipe
      && packer.ar.osbuf == osbuf && unpacker.ar.isbuf == isbuf
      && osbuf.Repr() !! isbuf.Repr()
      && this !in osbuf.Repr() + isbuf.Repr()
      && pipe !in osbuf.Repr() + isbuf.Repr() + {this}
      && Inv(types, View())
    }

    ghost function View(): Link
      requires osbuf.Valid() && isbuf.Valid()
      reads this, osbuf, osbuf.local, osbuf.data, isbuf, isbuf.local, isbuf.data, pipe
    {
      Link(osbuf.Unread(), pipe.wire, isbuf.Unread(), sent, received)
    }

    /** Join two empty buffers at the two ends of an empty device. */
    constructor (types: Agreed, pipe: Device, o: OutputStreamBuffer, i: InputStreamBuffer)
      requires o.Valid() && i.Valid() && o.device == pipe && i.device == pipe
      requires o.Repr() !! i.Repr() && pipe !in o.Repr() + i.Repr()
      requires o.Unread() == [] && pipe.wire == [] && i.Unread() == []
      ensures Valid() && View() == UNUSED
      ensures this.types == types && this.pipe == pipe && osbuf == o && isbuf == i
    {
      hide Inv, FromBytes, Frames;
      packer := new BinaryOutputPackager(o);
      unpacker := new BinaryInputPackager(i);
      this.types, this.pipe, osbuf, isbuf := types, pipe, o, i;
      sent, received := [], [];
      new;
      assert View() == UNUSED;
      NothingInFlight(types);
    }

    /** Writing a message through the packager is one Send. */
    method Send(ts: seq<Ty>, m: Message, placeholder: seq<byte>) returns (sz: int)
      requires Valid() && ts == types(|sent|) && Sendable(ts, m) && |placeholder| == HEADER
      requires |osbuf.Unread()| + HEADER + |EncodeEach(ts, m)| < SIZE_LIMIT
      modifies this, osbuf.Repr()
      ensures Valid() && View() == Step(types, old(View()), Event.Send(m))
    {
      hide EncodeEach, EachHasType, Frame, Inv, FromBytes;
      SendKeeps(types, View(), m);
      sz := packer.Pack(ts, m, placeholder);
      sent := sent + [m];
    }

    /** Syncing the output buffer is one Push of as many bytes as the device took. */
    method SyncOut() returns (ret: int)
      requires Valid()
      modifies osbuf`pbase, pipe
      ensures Valid() && View() == Step(types, old(View()), Push(if ret > 0 then ret else 0))
    {
      hide Inv, FromBytes;
      ghost var before := View();
      ret := osbuf.Sync();
      StepKeeps(types, before, Push(if ret > 0 then ret else 0));
    }

    /** Syncing the input buffer is one Pull of as many bytes as the device gave. */
    method SyncIn() returns (ret: int)
      requires Valid() && |isbuf.Unread()| < SIZE_LIMIT / 4
      modifies isbuf.Repr(), pipe
      ensures Valid() && View() == Step(types, old(View()), Pull(if ret > 0 then ret else 0))
    {
      hide Inv, FromBytes;
      ghost var before := View();
      ret := isbuf.Sync();
      ghost var k := if ret > 0 then ret else 0;
      Shifted(before.inn, before.wire, isbuf.Unread(), pipe.wire, k);
      StepKeeps(types, before, Pull(k));
    }

    /** Reading through the packager is one Receive. */
    method Receive(ts: seq<Ty>) returns (sz: int, m: Message)
      requires Valid() && ts == types(|received|)
      modifies this, isbuf`gptr, isbuf`consumed
      ensures Valid() && View() == Step(types, old(View()), Event.Receive)
      ensures sz == -1 <==> !Ready(old(View()).inn)
      ensures sz != -1 ==> View().received == old(View()).received + [m]
    {
      hide EncodeEach, DecodeEach, EachHasType, Inv, FromBytes;
      ghost var before := View();
      if Ready(before.inn) {
        WellFormedWhenReady(types, before);
      }
      StepKeeps(types, before, Event.Receive);
      sz, m := unpacker.Unpack(ts);
      if sz != -1 {
        received := received + [m];
      }
    }
  }

  lemma NothingInFlight(types: Agreed)
    ensures Inv(types, UNUSED)
  {
  }

  lemma Cancel(a: seq<byte>, b: seq<byte>, c: seq<byte>)
    requires a + b == a + c
    ensures b == c
  {
    assert b == (a + b)[|a|..] && c == (a + c)[|a|..];
  }

  lemma Shifted(a: seq<byte>, b: seq<byte>, c: seq<byte>, d: seq<byte>, k: nat)
    requires a + b == c + d && |c| == |a| + k
    ensures k <= |b| && c == a + b[..k] && d == b[k..]
  {
    assert c == (a + b)[..|c|] && d == (a + b)[|c|..];
  }

  lemma WellFormedWhenReady(types: Agreed, l: Link)
    requires Inv(types, l) && Ready(l.inn)
    ensures DecodeEach(types(|l.received|), l.inn[HEADER..]).Some?
  {
    if |l.received| < |l.sent| {
      FrontMessage(types, l);
    } else {
      NothingPending(types, l);
    }
  }
}
