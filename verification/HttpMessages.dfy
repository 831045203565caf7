/**
 Streams of requests, some with a length and some in chunks: exactly which of them are read back as they
 were written, however they are cut.
 */
module HttpMessages {
  import opened Options
  import opened HttpChars
  import opened HttpParser
  import opened HttpStream
  import opened HttpRequests
  import opened HttpFragments
  import opened HttpWalk
  import opened HttpHeaders
  import opened HttpLengths
  import opened HttpValues
  import opened HttpRoundTrip
  import opened HttpHeads
  import opened HttpChunks
  import HttpConnection
  import HttpTargets

  /** A request whose headers give the length of its body, if it has one, or one with a chunked body. */
  datatype Message =
    | Whole(verb: Method, url: string, version: Version, headers: Headers, body: string)
    | InChunks(coded: Chunked)

  /** The body is as long as the headers say, if they make sense. */
  predicate Offered(cfg: Config, m: Message) {
    match m
    case Whole(verb, url, _, headers, body) =>
      && verb != CONNECT && UrlReadable(cfg.strict, verb, url) && AllLegible(headers) && DistinctNames(headers)
      && (Coherent(headers) ==> Framed(cfg, verb, url, headers, body))
    case InChunks(y) => WellCoded(cfg, y)
  }

  function Written(m: Message): string {
    match m
    case Whole(verb, url, version, headers, body) => Head(verb, url, headers, version) + body
    case InChunks(y) => Coding(y)
  }

  /** The request that is meant. Whether it keeps the connection is up to its version and its headers. */
  function Wanted(m: Message): Request {
    match m
    case Whole(verb, url, version, headers, body) =>
      Request(verb, url, Collected(map[], headers), body, Persists(version, headers))
    case InChunks(y) => Meant(y)
  }

  /** Other messages may follow. The trailer of a chunked body has a say in this, too. */
  predicate Keeps(m: Message) {
    match m
    case Whole(_, _, version, headers, _) => Persists(version, headers)
    case InChunks(y) => Persists(y.version, y.headers + y.trailer)
  }

  /** The parser takes the message, with n header bytes counted already: among other things, its headers say in one
      way at most how long the body is. */
  predicate TakenAfter(cfg: Config, m: Message, n: nat) {
    match m
    case Whole(verb, url, _, headers, _) =>
      n + HeadCost(verb, url, headers) <= cfg.limit && AllClear(cfg.lenient, headers) && Coherent(headers)
    case InChunks(y) => CodingTaken(cfg, y, n)
  }

  /** The header bytes still counted when the next message begins: those of a trailer. */
  function CarriedOver(m: Message): int {
    match m case Whole(_, _, _, _, _) => 0 case InChunks(y) => LinesCost(y.trailer) + 2
  }

  predicate AllOffered(cfg: Config, ms: seq<Message>) { forall i | 0 <= i < |ms| :: Offered(cfg, ms[i]) }

  /** Each is taken after the ones before it, and in strict mode all but the last keep the connection. */
  predicate AllTakenAfter(cfg: Config, ms: seq<Message>, n: nat)
    decreases |ms|
  {
    ms == [] ||
    (TakenAfter(cfg, ms[0], n) && CarriedOver(ms[0]) >= 0
      && (|ms| > 1 && cfg.strict ==> Keeps(ms[0]))
      && AllTakenAfter(cfg, ms[1..], CarriedOver(ms[0])))
  }

  /** Where the parser is after them. */
  function AfterAll(cfg: Config, ms: seq<Message>): State {
    if ms == [] then StartReq else AfterMessage(cfg, Keeps(ms[|ms| - 1]))
  }

  function WrittenAll(ms: seq<Message>): string
    decreases |ms|
  {
    if ms == [] then "" else Written(ms[0]) + WrittenAll(ms[1..])
  }

  function WantedAll(ms: seq<Message>): seq<Request> {
    if ms == [] then [] else [Wanted(ms[0])] + WantedAll(ms[1..])
  }

  /** A message with a length, one byte per fragment. */
  lemma WholeWalk(cfg: Config, c: Cursor, m: Message)
    requires Running(c) && Fit(c) && c.p.state == StartReq && c.nread <= cfg.limit && !c.p.upgrade && m.Whole? && Offered(cfg, m)
    ensures var d := FineRun(cfg, c, Written(m));
      if TakenAfter(cfg, m, c.nread) then
        var before, after := Replay(EMPTY_SINK, c.log), Replay(EMPTY_SINK, d.log);
        && Running(d) && d.p.state == AfterMessage(cfg, Keeps(m)) && d.nread == 0 && !d.p.upgrade
        && after.requests == before.requests + [Wanted(m)] && after.threw == before.threw
      else d.p.errno != Ok
  {
    hide FineRun, FitFor, UrlReadable, AllLegible, AllAcceptable, FlagsOf, LengthOf, Head, HeadCost, MessageLog, Replay, AllClear,
      DistinctNames, StaysOpen, Persists, Collected, Coherent, Framed;
    var Whole(verb, url, ver, hs, body) := m;
    HeadersDecide(ver, hs);
    if AllClear(cfg.lenient, hs) && Coherent(hs) {
      MessageWalk(cfg, c, verb, url, hs, body, ver);
      MessageHandled(EMPTY_SINK, c.log, verb, url, hs, body, Persists(ver, hs));
    } else {
      HeadTaken(cfg, c, verb, url, hs, ver);
      FineRunConcat(cfg, c, Head(verb, url, hs, ver), body);
      OverflowStops(cfg, FineRun(cfg, c, Head(verb, url, hs, ver)), body);
    }
  }

  /** One message, one byte per fragment. */
  lemma OneMessageWalk(cfg: Config, c: Cursor, m: Message)
    requires Running(c) && Fit(c) && c.p.state == StartReq && c.nread <= cfg.limit && !c.p.upgrade && Offered(cfg, m)
    ensures CarriedOver(m) >= 0
    ensures var d := FineRun(cfg, c, Written(m));
      if TakenAfter(cfg, m, c.nread) then
        var before, after := Replay(EMPTY_SINK, c.log), Replay(EMPTY_SINK, d.log);
        && Running(d) && d.p.state == AfterMessage(cfg, Keeps(m)) && d.nread == CarriedOver(m) <= cfg.limit && !d.p.upgrade
        && after.requests == before.requests + [Wanted(m)] && after.threw == before.threw
      else d.p.errno != Ok
  {
    match m {
      case Whole(_, _, _, _, _) =>
        hide FineRun, FitFor, Offered, Written, Wanted, Keeps, Replay, TakenAfter;
        WholeWalk(cfg, c, m);
      case InChunks(y) =>
        hide FineRun, FitFor, WellCoded, Coding, Meant, Replay, AllClear, LinesCost, Persists;
        ChunkedMessageWalk(cfg, c, y);
    }
  }

  /** On a closed connection, a byte other than a line break is refused. */
  lemma ClosedStep(cfg: Config, c: Cursor, ch: char, last: bool)
    requires Running(c) && Fit(c) && c.p.state == Dead
    ensures var d := Byte(cfg, c, ch, last);
      if c.nread + 1 > cfg.limit then d.p.errno == HeaderOverflow
      else if IsBreak(ch) then Running(d) && Fit(d) && d.p == c.p && d.nread == c.nread + 1 && d.log == c.log
      else d.p.errno == ClosedConnection && d.log == c.log
  {
    NoEvents(c.log);
  }

  /** A message does not begin with a line break. */
  lemma BeginsWithLetter(m: Message)
    ensures Written(m) != "" && !IsBreak(Written(m)[0])
  {
    hide Body, Lines, VersionText;
    match m {
      case Whole(verb, url, version, headers, body) => HeadBegins(verb, url, headers, version);
      case InChunks(y) => HeadBegins(y.verb, y.url, y.headers, y.version);
    }
  }

  lemma HeadBegins(m: Method, url: string, hs: Headers, ver: Version)
    ensures var s := Head(m, url, hs, ver); s != "" && !IsBreak(s[0])
  {
    GuessStarts(m);
    GuessesAreLetters(Name(m)[0]);
    hide Name, Guess, Lines, VersionText;
  }

  /** So on a closed connection it is refused. */
  lemma RefusedWhenClosed(cfg: Config, c: Cursor, m: Message, rest: string)
    requires Running(c) && Fit(c) && c.p.state == Dead
    ensures FineRun(cfg, c, Written(m) + rest).p.errno != Ok
  {
    hide Written, Byte, FitFor, IsBreak;
    BeginsWithLetter(m);
    var s := Written(m) + rest;
    ClosedStep(cfg, Refreshed(c), s[0], true);
    OverflowStops(cfg, Fine(cfg, c, s[0]), s[1..]);
  }

  /** All messages, one byte per fragment. */
  lemma {:induction false} MessagesWalk(cfg: Config, c: Cursor, ms: seq<Message>)
    requires Running(c) && Fit(c) && c.p.state == StartReq && c.nread <= cfg.limit && !c.p.upgrade && AllOffered(cfg, ms)
    ensures var d := FineRun(cfg, c, WrittenAll(ms));
      if AllTakenAfter(cfg, ms, c.nread) then
        var before, after := Replay(EMPTY_SINK, c.log), Replay(EMPTY_SINK, d.log);
        && Running(d) && d.p.state == AfterAll(cfg, ms) && d.nread == (if ms == [] then c.nread else CarriedOver(ms[|ms| - 1]))
        && after.requests == before.requests + WantedAll(ms) && after.threw == before.threw
      else d.p.errno != Ok
    decreases |ms|
  {
    hide FitFor, FineRun, Offered, Written, Replay, TakenAfter, CarriedOver, Wanted, Keeps;
    if ms == [] {
      NoBytes(cfg, c, "");
    } else {
      var m, rest := ms[0], ms[1..];
      assert Offered(cfg, ms[0]);
      forall i | 0 <= i < |rest| ensures Offered(cfg, rest[i]) { assert rest[i] == ms[i + 1]; }
      OneMessageWalk(cfg, c, m);
      FineRunConcat(cfg, c, Written(m), WrittenAll(rest));
      var d := FineRun(cfg, c, Written(m));
      if !TakenAfter(cfg, m, c.nread) {
        OverflowStops(cfg, d, WrittenAll(rest));
      } else if rest == [] {
        NoBytes(cfg, d, WrittenAll(rest));
        assert WantedAll(ms) == [Wanted(m)] + WantedAll(rest) && WantedAll(rest) == [];
        assert AllTakenAfter(cfg, rest, CarriedOver(m));
        assert ms[|ms| - 1] == m;
      } else if Keeps(m) || !cfg.strict {
        MessagesWalk(cfg, d, rest);
        assert WantedAll(ms) == [Wanted(m)] + WantedAll(rest);
      } else {
        RefusedWhenClosed(cfg, d, rest[0], WrittenAll(rest[1..]));
      }
    }
  }

  /** Requests one after the other, with a length or in chunks, in fragments of any sizes: the requests
      that are queued are the ones that were meant, each with its whole body, and marked as keeping the
      connection exactly if its version and its headers say so. */
  lemma MessagesAreReadBack(cfg: Config, ms: seq<Message>, pieces: seq<string>)
    requires AllOffered(cfg, ms) && AllTakenAfter(cfg, ms, 0)
    requires NonEmpty(pieces) && Join(pieces) == WrittenAll(ms)
    ensures var r := Fed(cfg, pieces);
      && Running(r) && r.p.state == AfterAll(cfg, ms)
      && Replay(EMPTY_SINK, r.log).requests == WantedAll(ms) && !Replay(EMPTY_SINK, r.log).threw
  {
    hide FineRun, FeedAll, WrittenAll, AllOffered, AllTakenAfter, AfterAll;
    MessagesWalk(cfg, BEGIN, ms);
    SinglesAreFine(cfg, BEGIN, WrittenAll(ms));
    FinestIsStrictest(cfg, BEGIN, pieces);
  }

  /** A stream is accepted however it is cut exactly if each message is taken after the ones before it. */
  lemma ExactlyWhenAllTaken(cfg: Config, ms: seq<Message>)
    requires AllOffered(cfg, ms)
    ensures AllTakenAfter(cfg, ms, 0) <==>
      forall pieces | NonEmpty(pieces) && Join(pieces) == WrittenAll(ms) :: Fed(cfg, pieces).p.errno == Ok
  {
    hide FineRun, FeedAll, WrittenAll, AllOffered, NonEmpty, Join, AllTakenAfter, AfterAll;
    if AllTakenAfter(cfg, ms, 0) {
      forall pieces | NonEmpty(pieces) && Join(pieces) == WrittenAll(ms)
        ensures Fed(cfg, pieces).p.errno == Ok
      {
        MessagesAreReadBack(cfg, ms, pieces);
      }
    } else {
      var text := WrittenAll(ms);
      MessagesWalk(cfg, BEGIN, ms);
      SinglesAreFine(cfg, BEGIN, text);
      SinglesCut(text, 0);
      assert NonEmpty(Singles(text)) && Join(Singles(text)) == text;
    }
  }

  // ---- Nothing follows on a closed connection ----------------------------------------------

  predicate OnlyBreaks(s: string) { forall i | 0 <= i < |s| :: IsBreak(s[i]) }

  /** From byte i to byte j a coarser cutting keeps up with a finer one that is accepted so far. */
  lemma {:induction false} KeepsUp(cfg: Config, a: Cursor, b: Cursor, data: string, i: nat, j: nat, cutsA: set<nat>, cutsB: set<nat>)
      returns (e: Cursor)
    requires i <= j < |data| && Running(a) && Fit(a) && Running(b) && Fit(b) && Simulates(a, b)
    requires cutsA <= cutsB && j in cutsB
    requires Running(Run(cfg, b, data[..j], i, cutsB))
    ensures Running(e) && Fit(e) && SameResult(e, Run(cfg, b, data[..j], i, cutsB)) && e.nread <= Run(cfg, b, data[..j], i, cutsB).nread
    ensures Run(cfg, a, data, i, cutsA) == Run(cfg, e, data, j, cutsA)
    decreases j - i
  {
    hide Byte, FitFor;
    if i == j {
      e := a;
    } else {
      var lastA, lastB := i + 1 in cutsA, i + 1 in cutsB;
      ByteSimulates(cfg, a, b, data[i], lastA, lastB);
      ByteSound(cfg, a, data[i], lastA);
      ByteSound(cfg, b, data[i], lastB);
      assert data[..j][i] == data[i];
      var a', b' := Byte(cfg, a, data[i], lastA), Byte(cfg, b, data[i], lastB);
      e := KeepsUp(cfg, if lastA then Refreshed(a') else a', if lastB then Refreshed(b') else b', data, i + 1, j, cutsA, cutsB);
    }
  }

  /** Line breaks are passed over and anything else is refused. */
  lemma {:induction false} ClosedRun(cfg: Config, c: Cursor, data: string, i: nat, cuts: set<nat>)
    requires i <= |data| && Running(c) && Fit(c) && c.p.state == Dead && c.nread + |data| - i <= cfg.limit
    ensures var d := Run(cfg, c, data, i, cuts);
      d.log == c.log && d.p.errno == if OnlyBreaks(data[i..]) then Ok else ClosedConnection
    decreases |data| - i
  {
    hide Byte, FitFor, IsBreak;
    if i < |data| {
      var last := i + 1 == |data| || i + 1 in cuts;
      ClosedStep(cfg, c, data[i], last);
      assert data[i..][0] == data[i] && data[i..][1..] == data[i + 1..];
      var d := Byte(cfg, c, data[i], last);
      if IsBreak(data[i]) {
        ClosedRun(cfg, if last then Refreshed(d) else d, data, i + 1, cuts);
        BreaksFirst(data[i..]);
      }
    }
  }

  lemma BreaksFirst(s: string)
    requires s != ""
    ensures OnlyBreaks(s) <==> IsBreak(s[0]) && OnlyBreaks(s[1..])
  {
    hide IsBreak;
    if IsBreak(s[0]) && OnlyBreaks(s[1..]) {
      forall i | 0 <= i < |s| ensures IsBreak(s[i]) {
        if i > 0 {
          assert s[i] == s[1..][i - 1];
        }
      }
    }
    if OnlyBreaks(s) {
      forall i | 0 <= i < |s[1..]| ensures IsBreak(s[1..][i]) {
        assert s[1..][i] == s[i + 1];
      }
    }
  }

  lemma {:induction false} FineIsRun(cfg: Config, c: Cursor, data: string, i: nat, cuts: set<nat>)
    requires i <= |data| && (Running(c) ==> Fit(c)) && forall k | i < k < |data| :: k in cuts
    ensures Agree(Run(cfg, Refreshed(c), data, i, cuts), FineRun(cfg, c, data[i..]))
    decreases |data| - i
  {
    hide Byte, FitFor;
    if i < |data| && Running(c) {
      assert data[i..][0] == data[i] && data[i..][1..] == data[i + 1..];
      ByteSound(cfg, Refreshed(c), data[i], true);
      FineIsRun(cfg, Fine(cfg, c, data[i]), data, i + 1, cuts);
    }
  }

  /** Text behind a stream that closes the connection: however it all is cut, the requests are queued,
      line breaks are passed over, and at the first other byte the parser gives up. */
  lemma NothingAfterClose(cfg: Config, ms: seq<Message>, extra: string, pieces: seq<string>)
    requires AllOffered(cfg, ms) && AllTakenAfter(cfg, ms, 0) && ms != [] && cfg.strict && !Keeps(ms[|ms| - 1])
    requires NonEmpty(pieces) && Join(pieces) == WrittenAll(ms) + extra
    requires CarriedOver(ms[|ms| - 1]) + |extra| <= cfg.limit
    ensures var r := Fed(cfg, pieces);
      && r.p.errno == (if OnlyBreaks(extra) then Ok else ClosedConnection)
      && Replay(EMPTY_SINK, r.log).requests == WantedAll(ms)
  {
    hide FineRun, FeedAll, WrittenAll, AllOffered, AllTakenAfter, OnlyBreaks, Replay, CarriedOver, Keeps, Fit, NonEmpty, Join, WantedAll;
    BeginFits();
    var text := WrittenAll(ms);
    MessagesWalk(cfg, BEGIN, ms);
    NothingReplayed();
    if extra == "" {
      assert text + extra == text;
      MessagesAreReadBack(cfg, ms, pieces);
      NoExtra(extra);
    } else {
      ExtraIsRefused(cfg, BEGIN, text, extra, pieces);
    }
  }

  /** Text that comes when the connection is closed, in fragments of any sizes. */
  lemma ExtraIsRefused(cfg: Config, c: Cursor, text: string, extra: string, pieces: seq<string>)
    requires Running(c) && Fit(c) && NonEmpty(pieces) && Join(pieces) == text + extra && extra != ""
    requires var d := FineRun(cfg, c, text); Running(d) && d.p.state == Dead && d.nread + |extra| <= cfg.limit
    ensures var d, r := FineRun(cfg, c, text), FeedAll(cfg, c, pieces);
      r.log == d.log && r.p.errno == if OnlyBreaks(extra) then Ok else ClosedConnection
  {
    hide FineRun, FeedAll, Run, Join, NonEmpty, OnlyBreaks, FitFor;
    var data, j := text + extra, |text|;
    var cuts := Cuts(pieces, 0) + Cuts(Singles(data), 0) + {j};
    SinglesCut(data, 0);
    assert data[0..] == data && data[..j] == text && text[0..] == text && data[j..] == extra;
    FeedAllIsRun(cfg, c, pieces, data, 0, Cuts(pieces, 0));
    FineIsRun(cfg, c, text, 0, cuts);
    var e := KeepsUp(cfg, Refreshed(c), Refreshed(c), data, 0, j, Cuts(pieces, 0), cuts);
    ClosedRun(cfg, e, data, j, Cuts(pieces, 0));
  }

  lemma BeginFits()
    ensures Running(BEGIN) && Fit(BEGIN)
  {
  }

  lemma NothingReplayed()
    ensures Replay(EMPTY_SINK, []) == EMPTY_SINK
  {
  }

  lemma NoExtra(extra: string)
    requires extra == ""
    ensures OnlyBreaks(extra)
  {
  }

  // ---- What is told and what is done -------------------------------------------------------

  /** The client is told before the trailer comes. What it is told of the connection is what the parser then does,
      unless it is the trailer that asks for it to be closed, or for a version before 1.1 to be kept. */
  lemma ToldWhatIsDone(y: Chunked)
    ensures var w := if y.version.major >= 1 && y.version.minor >= 1 then HttpConnection.CLOSE else HttpConnection.KEEP_ALIVE;
      (Wanted(InChunks(y)).keepAlive <==> Keeps(InChunks(y))) <==> !(Says(y.trailer, w) && !Says(y.headers, w))
  {
    hide Says;
    SaysTogether(y.headers, y.trailer, HttpConnection.CLOSE);
    SaysTogether(y.headers, y.trailer, HttpConnection.KEEP_ALIVE);
  }

  /** A version above 1.1 whose second number is zero does not keep the connection by itself. */
  lemma TwoIsBeforeOne()
    ensures Persists(Version(1, 1), []) && !Persists(Version(2, 0), [])
  {
  }

  // ---- Trailers count twice ----------------------------------------------------------------

  /** A chunked request without chunks and trailer. */
  const BARE := Chunked.Chunked(GET, "/", V11, [("transfer-encoding", "chunked")], [], "0", "", [])

  lemma BareLine(name: string, v: string)
    requires name == "transfer-encoding" && v == "chunked"
    ensures Acceptable(NO_FLAGS, name, v) && FlagsAfter(NO_FLAGS, name, v) == NO_FLAGS.(chunked := true)
  {
    assert Lowered(name) == name;
    assert HttpConnection.LoweredBits(v) == v && v[..7] == v;
    hide HttpConnection.LoweredBits, Lowered, HttpConnection.Mentioned;
  }

  lemma BareHeader(hs: Headers)
    requires hs == [("transfer-encoding", "chunked")]
    ensures AllLegible(hs) && AllAcceptable(NO_FLAGS, hs)
    ensures FlagsOf(NO_FLAGS, hs) == NO_FLAGS.(chunked := true)
  {
    assert hs[1..] == [];
    BareLine(hs[0].0, hs[0].1);
    hide FlagsAfter, Acceptable;
  }

  lemma BareIsWellCoded(cfg: Config)
    ensures WellCoded(cfg, BARE) && AllClear(cfg.lenient, BARE.headers)
  {
    BareHeader(BARE.headers);
    RootIsReadable(cfg.strict);
    NoSize();
    assert forall i | 0 <= i < |"chunked"[1..]| :: IsHeaderChar("chunked"[1..][i]);
    hide FlagsAfter, UrlReadable, LengthAfter, Legible, Acceptable, GoodSize, LengthOf;
  }

  lemma RootIsReadable(strict: bool)
    ensures UrlReadable(strict, GET, "/")
  {
    assert HttpTargets.IsOrigin(strict, "/");
    HttpTargets.ReadableTargets(strict, GET, "/");
  }

  lemma NoSize()
    ensures GoodSize("0", "", 0)
  {
    assert "0"[..0] == "";
  }

  lemma TwoMessages(cfg: Config, m: Message)
    requires CarriedOver(m) >= 0 && Keeps(m)
    ensures AllTakenAfter(cfg, [m, m], 0) <==> TakenAfter(cfg, m, 0) && TakenAfter(cfg, m, CarriedOver(m))
    ensures WrittenAll([m, m]) == Written(m) + Written(m)
  {
    hide TakenAfter, Written, CarriedOver, Keeps;
    var n := CarriedOver(m);
    assert [m][1..] == [] && [m, m][1..] == [m];
    assert AllTakenAfter(cfg, [], n);
    assert AllTakenAfter(cfg, [m], n) <==> TakenAfter(cfg, m, n);
    assert WrittenAll([]) == "" && Written(m) + "" == Written(m);
    assert WrittenAll([m]) == Written(m);
  }

  lemma OnceAndTwice(cfg: Config, m: Message)
    requires Offered(cfg, m) && Keeps(m) && cfg.limit > 0
    ensures CarriedOver(m) >= 0
    ensures Fed(cfg, Singles(Written(m))).p.errno == Ok <==> TakenAfter(cfg, m, 0)
    ensures Fed(cfg, Singles(Written(m) + Written(m))).p.errno == Ok <==>
      (TakenAfter(cfg, m, 0) && TakenAfter(cfg, m, CarriedOver(m)))
  {
    hide TakenAfter, Offered, Written, FineRun, FeedAll, Replay, CarriedOver, Wanted, Keeps;
    var text := Written(m);
    OneMessageWalk(cfg, BEGIN, m);
    TwoMessages(cfg, m);
    hide AllTakenAfter, WrittenAll;
    MessagesWalk(cfg, BEGIN, [m, m]);
    SinglesAreFine(cfg, BEGIN, text);
    SinglesAreFine(cfg, BEGIN, text + text);
  }

  /** The same request twice, one byte per fragment. Its head just fits under the limit, and the first one
      is accepted; the two bytes that end its empty trailer are then still counted, and the second one is
      over the limit. */
  lemma TrailersCountTwice(cfg: Config)
    requires cfg.limit == HeadCost(BARE.verb, BARE.url, BARE.headers)
    ensures Fed(cfg, Singles(Coding(BARE))).p.errno == Ok
    ensures Fed(cfg, Singles(Coding(BARE) + Coding(BARE))).p.errno != Ok
  {
    BareIsWellCoded(cfg);
    BareIsTaken(cfg);
    BareKeeps();
    hide TakenAfter, WellCoded, Coding, FeedAll, CarriedOver, HeadCost, Keeps;
    OnceAndTwice(cfg, InChunks(BARE));
  }

  lemma BareKeeps()
    ensures Keeps(InChunks(BARE))
  {
    var hs := BARE.headers + BARE.trailer;
    assert hs == [("transfer-encoding", "chunked")];
    assert Lowered(hs[0].0) == hs[0].0;
    hide HttpConnection.Mentioned;
  }

  lemma BareIsTaken(cfg: Config)
    requires cfg.limit == HeadCost(BARE.verb, BARE.url, BARE.headers) && Offered(cfg, InChunks(BARE))
    ensures CarriedOver(InChunks(BARE)) == 2 && cfg.limit > 0
    ensures TakenAfter(cfg, InChunks(BARE), 0) && !TakenAfter(cfg, InChunks(BARE), 2)
  {
    BareIsWellCoded(cfg);
    CostIsNatural(BARE.headers);
    assert |RequestLine(GET, "/")| > 3;
    hide WellCoded, AllLegible;
  }
}
