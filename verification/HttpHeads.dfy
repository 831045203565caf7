/**
 Which heads the parser refuses for what their headers say of the length of the body, and which ones make it
 hand the connection over to another protocol.
 */
module HttpHeads {
  import opened Options
  import opened HttpChars
  import opened HttpParser
  import opened HttpStream
  import opened HttpRequests
  import opened HttpFragments
  import opened HttpWalk
  import opened HttpHeaders
  import opened HttpLengths
  import opened HttpValues
  import opened HttpRoundTrip
  import HttpConnection
  import HttpExecute

  // ---- Lengths -----------------------------------------------------------------------------

  predicate IsLength(name: string, v: string) { v != "" && Lowered(name) == "content-length" }

  predicate IsCoding(name: string, v: string) { Lowered(name) == "transfer-encoding" && NamesChunked(v) }

  predicate IsUpgrade(name: string, v: string) { v != "" && Lowered(name) == "upgrade" }

  predicate HasLength(hs: Headers) { exists i | 0 <= i < |hs| :: IsLength(hs[i].0, hs[i].1) }

  predicate HasCoding(hs: Headers) { exists i | 0 <= i < |hs| :: IsCoding(hs[i].0, hs[i].1) }

  predicate HasUpgrade(hs: Headers) { exists i | 0 <= i < |hs| :: IsUpgrade(hs[i].0, hs[i].1) }

  /** A length in digits, with spaces among them, and in range. */
  predicate GoodLength(v: string) { IsSpaced(v) && InRange(Squeezed(v), 10) }

  /** No two lengths, and no bad one. */
  predicate OneLength(hs: Headers) {
    && (forall i | 0 <= i < |hs| :: IsLength(hs[i].0, hs[i].1) ==> GoodLength(hs[i].1))
    && (forall i, j | 0 <= i < j < |hs| :: !(IsLength(hs[i].0, hs[i].1) && IsLength(hs[j].0, hs[j].1)))
  }

  /** The headers say in one way at most how long the body is. */
  predicate Coherent(hs: Headers) { OneLength(hs) && !(HasLength(hs) && HasCoding(hs)) }

  lemma NoneIsOne(hs: Headers)
    ensures !HasLength(hs) ==> OneLength(hs)
  {
    hide IsLength, GoodLength;
  }

  lemma HasFirst(hs: Headers)
    requires hs != []
    ensures HasLength(hs) <==> IsLength(hs[0].0, hs[0].1) || HasLength(hs[1..])
    ensures HasCoding(hs) <==> IsCoding(hs[0].0, hs[0].1) || HasCoding(hs[1..])
    ensures HasUpgrade(hs) <==> IsUpgrade(hs[0].0, hs[0].1) || HasUpgrade(hs[1..])
  {
    hide IsLength, IsCoding, IsUpgrade;
    var rest := hs[1..];
    assert hs == [hs[0]] + rest;
    if HasLength(rest) {
      var i :| 0 <= i < |rest| && IsLength(rest[i].0, rest[i].1);
      assert IsLength(hs[i + 1].0, hs[i + 1].1);
    }
    if HasCoding(rest) {
      var i :| 0 <= i < |rest| && IsCoding(rest[i].0, rest[i].1);
      assert IsCoding(hs[i + 1].0, hs[i + 1].1);
    }
    if HasUpgrade(rest) {
      var i :| 0 <= i < |rest| && IsUpgrade(rest[i].0, rest[i].1);
      assert IsUpgrade(hs[i + 1].0, hs[i + 1].1);
    }
  }

  lemma OneLengthFirst(hs: Headers)
    requires hs != []
    ensures OneLength(hs) <==>
      && OneLength(hs[1..])
      && (IsLength(hs[0].0, hs[0].1) ==> GoodLength(hs[0].1) && !HasLength(hs[1..]))
  {
    hide IsLength, GoodLength;
    var rest := hs[1..];
    assert forall i | 0 <= i < |rest| :: rest[i] == hs[i + 1];
    if OneLength(hs) {
      forall i | 0 <= i < |rest| ensures IsLength(rest[i].0, rest[i].1) ==> GoodLength(rest[i].1) {
        assert rest[i] == hs[i + 1];
      }
      forall i, j | 0 <= i < j < |rest| ensures !(IsLength(rest[i].0, rest[i].1) && IsLength(rest[j].0, rest[j].1)) {
        assert rest[i] == hs[i + 1] && rest[j] == hs[j + 1];
      }
    }
    if OneLength(rest) && (IsLength(hs[0].0, hs[0].1) ==> GoodLength(hs[0].1) && !HasLength(rest)) {
      forall i | 0 <= i < |hs| ensures IsLength(hs[i].0, hs[i].1) ==> GoodLength(hs[i].1) {
        if i > 0 {
          assert hs[i] == rest[i - 1];
        }
      }
      forall i, j | 0 <= i < j < |hs| ensures !(IsLength(hs[i].0, hs[i].1) && IsLength(hs[j].0, hs[j].1)) {
        assert hs[j] == rest[j - 1];
        if i > 0 {
          assert hs[i] == rest[i - 1];
        }
      }
    }
  }

  lemma OneLineSets(f: Flags, name: string, v: string)
    ensures Acceptable(f, name, v) <==> (IsLength(name, v) ==> GoodLength(v) && !f.contentLength)
    ensures var g := FlagsAfter(f, name, v);
      && (g.contentLength <==> f.contentLength || IsLength(name, v))
      && (g.chunked <==> f.chunked || IsCoding(name, v))
      && (g.upgrade <==> f.upgrade || IsUpgrade(name, v))
  {
    hide Lowered, NamesChunked, HttpConnection.Mentioned, IsSpaced, InRange, Squeezed;
    NothingIsChunked(v);
  }

  lemma NothingIsChunked(v: string)
    ensures v == "" ==> !NamesChunked(v)
  {
  }

  /** The parser finds the headers acceptable exactly if there is no second and no bad length, and it knows from
      the headers, in whatever line they are, whether there is a length, a coding and an upgrade. */
  lemma {:induction false} AcceptableMeans(f: Flags, hs: Headers)
    ensures AllAcceptable(f, hs) <==> OneLength(hs) && !(f.contentLength && HasLength(hs))
    ensures var g := FlagsOf(f, hs);
      && (g.contentLength <==> f.contentLength || HasLength(hs))
      && (g.chunked <==> f.chunked || HasCoding(hs))
      && (g.upgrade <==> f.upgrade || HasUpgrade(hs))
    decreases |hs|
  {
    hide FlagsAfter, Acceptable, IsLength, IsCoding, IsUpgrade, GoodLength;
    if hs != [] {
      hide OneLength, HasLength, HasCoding, HasUpgrade;
      OneLineSets(f, hs[0].0, hs[0].1);
      HasFirst(hs);
      OneLengthFirst(hs);
      AcceptableMeans(FlagsAfter(f, hs[0].0, hs[0].1), hs[1..]);
    }
  }

  lemma {:induction false} TrailingIs(f: Flags, hs: Headers)
    ensures FlagsOf(f, hs).trailing == f.trailing
    decreases |hs|
  {
    hide FlagsAfter;
    if hs != [] {
      TrailingStays(f, hs[0].0, hs[0].1);
      TrailingIs(FlagsAfter(f, hs[0].0, hs[0].1), hs[1..]);
    }
  }

  lemma TrailingStays(f: Flags, name: string, v: string)
    ensures FlagsAfter(f, name, v).trailing == f.trailing
  {
    hide NamesChunked, Lowered, HttpConnection.Mentioned;
  }

  // ---- The whole head ----------------------------------------------------------------------

  lemma LastTurn(cfg: Config, p: Parser)
    requires p.state == HeadersAlmostDone && p.errno == Ok && !p.flags.trailing
    ensures Turn(cfg, p, LF, false).p.errno == Ok <==> !(p.flags.chunked && p.flags.contentLength)
  {
  }

  lemma LastStep(cfg: Config, c: Cursor)
    requires Running(c) && Fit(c) && c.p.state == HeadersAlmostDone && !c.p.flags.trailing && c.nread + 1 <= cfg.limit
    ensures FineRun(cfg, c, [LF]).p.errno == Ok <==> !(c.p.flags.chunked && c.p.flags.contentLength)
  {
    hide Byte, FitFor, Turn, AppendAll;
    LastTurn(cfg, c.p);
    HttpExecute.PlainIs(cfg, Refreshed(c), LF, true);
    assert FineRun(cfg, c, [LF]) == FineRun(cfg, Fine(cfg, c, LF), [LF][1..]);
  }

  /** One more header byte than there may be. */
  lemma LastOverflows(cfg: Config, c: Cursor, ch: char)
    requires Running(c) && Fit(c) && HttpExecute.Plain(c.p.state) && ParsingHeader(c.p.state) && c.nread + 1 > cfg.limit
    ensures FineRun(cfg, c, [ch]).p.errno != Ok
  {
    hide Byte, FitFor, Turn;
    HttpExecute.PlainIs(cfg, Refreshed(c), ch, true);
    assert FineRun(cfg, c, [ch]) == FineRun(cfg, Fine(cfg, c, ch), [ch][1..]);
  }

  /** A head is taken exactly if it is within the header limit, its values are clear and its headers say in one way
      at most how long the body is: not with two lengths, nor with a length and a coding. */
  lemma HeadTaken(cfg: Config, c: Cursor, m: Method, url: string, hs: Headers, ver: Version)
    requires Running(c) && Fit(c) && c.p.state == StartReq && !c.p.upgrade && c.nread <= cfg.limit
    requires UrlReadable(cfg.strict, m, url) && AllLegible(hs)
    ensures FineRun(cfg, c, Head(m, url, hs, ver)).p.errno == Ok <==>
      c.nread + HeadCost(m, url, hs) <= cfg.limit && AllClear(cfg.lenient, hs) && Coherent(hs)
  {
    hide Append, FitFor, FineRun, Reaches, UrlReadable, RequestLine, Lines, LinesLog, LengthOf, FlagsOf, AllAcceptable, AllLegible, AllClear,
      HeadCost, OneLength, HasLength, HasCoding;
    AcceptableMeans(NO_FLAGS, hs);
    if AllClear(cfg.lenient, hs) && AllAcceptable(NO_FLAGS, hs) {
      AcceptableHead(cfg, c, m, url, hs, ver);
    } else {
      BadMessage(cfg, c, m, url, hs, "", ver);
      assert Head(m, url, hs, ver) + "" == Head(m, url, hs, ver);
    }
  }

  lemma AcceptableHead(cfg: Config, c: Cursor, m: Method, url: string, hs: Headers, ver: Version)
    requires Running(c) && Fit(c) && c.p.state == StartReq && !c.p.upgrade && c.nread <= cfg.limit
    requires UrlReadable(cfg.strict, m, url) && AllLegible(hs) && AllClear(cfg.lenient, hs) && AllAcceptable(NO_FLAGS, hs)
    ensures var f := FlagsOf(NO_FLAGS, hs);
      FineRun(cfg, c, Head(m, url, hs, ver)).p.errno == Ok <==>
        c.nread + HeadCost(m, url, hs) <= cfg.limit && !(f.chunked && f.contentLength)
  {
    hide Append, FitFor, FineRun, Reaches, UrlReadable, RequestLine, Lines, LinesLog, LengthOf, FlagsOf, AllAcceptable, AllLegible, AllClear,
      HeadCost;
    TrailingIs(NO_FLAGS, hs);
    var p := HeadLines(cfg, c, m, url, hs, ver);
    var most, log := RequestLine(m, url, ver) + Lines(hs) + [CR], LinesLog(Append(Append(c.log, MessageBegin), Part(UrlText, url)), hs);
    ReachedIf(cfg, c, most, HeadCost(m, url, hs) - 1, p, log);
    FineRunConcat(cfg, c, most, [LF]);
    assert [CR] + [LF] == CRLF;
    assert most + [LF] == Head(m, url, hs, ver);
    var d := FineRun(cfg, c, most);
    if !Running(d) {
      OverflowStops(cfg, d, [LF]);
    } else if d.nread == cfg.limit {
      LastOverflows(cfg, d, LF);
    } else {
      LastStep(cfg, d);
    }
  }

  // ---- Leaving for another protocol --------------------------------------------------------

  /** The client asks for another protocol, in both headers that this takes. */
  predicate Leaves(hs: Headers) { HasUpgrade(hs) && Says(hs, HttpConnection.UPGRADE) }

  /** The body is as long as the headers say. */
  predicate BodyIs(hs: Headers, body: string) {
    && !HasCoding(hs) && AllAcceptable(NO_FLAGS, hs)
    && var n := LengthOf(NO_FLAGS, NO_LENGTH, hs); if n == NO_LENGTH then body == "" else n == |body|
  }

  /** The parser at the end of a head after which, and after the body if there is one, it leaves. */
  predicate Departing(p: Parser, body: string) {
    && p.state == HeadersAlmostDone && !p.flags.trailing
    && (p.verb == CONNECT ==> body == "" && !(p.flags.chunked && p.flags.contentLength))
    && (p.verb != CONNECT ==>
          && p.flags.upgrade && p.flags.connUpgrade && !p.flags.chunked
          && (if p.length == NO_LENGTH then body == "" else p.length == |body|))
  }

  lemma LeavingTurn(cfg: Config, p: Parser, ver: Version, body: string)
    requires p.major == ver.major && p.minor == ver.minor && Departing(p, body)
    ensures var open := StaysOpen(ver, p.flags);
      Turn(cfg, p, LF, false)
        == Out(p.(upgrade := true, state := if body == "" then AfterMessage(cfg, open) else BodyIdentity),
               HeadEvents(p.verb, body, open), body == "", true)
  {
    Decides(cfg, p.(upgrade := true), ver);
    var e := HeadersComplete(p.verb, StaysOpen(ver, p.flags));
    assert [e] + [MessageComplete] == [e, MessageComplete] && [e] + [] == [e];
  }

  lemma LeavingStep(cfg: Config, c: Cursor, ver: Version, body: string)
    requires Running(c) && Fit(c) && c.p.major == ver.major && c.p.minor == ver.minor && Departing(c.p, body) && c.nread + 1 <= cfg.limit
    ensures var d := FineRun(cfg, c, [LF]);
      && d.p.errno == Ok && d.left == (body == "") && d.nread == 0
      && d.p == c.p.(upgrade := true, state := if body == "" then AfterMessage(cfg, StaysOpen(ver, c.p.flags)) else BodyIdentity)
      && d.log == AppendAll(c.log, HeadEvents(c.p.verb, body, StaysOpen(ver, c.p.flags)))
  {
    hide Byte, FitFor, Turn, AppendAll, HeadEvents, StaysOpen;
    assert c.p.state == HeadersAlmostDone;
    LeavingTurn(cfg, c.p, ver, body);
    hide Departing;
    HttpExecute.PlainIs(cfg, Refreshed(c), LF, true);
    assert FineRun(cfg, c, [LF]) == FineRun(cfg, Fine(cfg, c, LF), [LF][1..]);
  }

  /** The last byte of the body, and the parser leaves. */
  lemma {:induction false} LastBody(cfg: Config, c: Cursor, body: string)
    requires Running(c) && Fit(c) && c.p.state == BodyIdentity && body != "" && c.p.length == |body| && c.p.upgrade
    ensures var d := FineRun(cfg, c, body);
      && d.p.errno == Ok && d.left && d.p.upgrade && d.log == Append(Append(c.log, Part(BodyText, body)), MessageComplete)
    decreases |body|
  {
    hide Append, FitFor, Byte;
    HttpExecute.BodyByte(cfg, Refreshed(c), body[0], true);
    var d := Fine(cfg, c, body[0]);
    assert FineRun(cfg, c, body) == FineRun(cfg, d, body[1..]);
    if |body| == 1 {
      assert body == [body[0]] && body[1..] == "";
    } else {
      LastBody(cfg, d, body[1..]);
      AppendMerges(c.log, BodyText, [body[0]], body[1..]);
      assert [body[0]] + body[1..] == body;
    }
  }

  /** What the head of such a request comes to. */
  lemma AllIsSet(m: Method, hs: Headers, body: string, p: Parser)
    requires Coherent(hs) && if m == CONNECT then body == "" else Leaves(hs) && BodyIs(hs, body)
    requires AllAcceptable(NO_FLAGS, hs) && p.state == HeadersAlmostDone && p.verb == m
    requires p.flags == FlagsOf(NO_FLAGS, hs) && p.length == LengthOf(NO_FLAGS, NO_LENGTH, hs)
    ensures Departing(p, body)
  {
    hide FlagsOf, AllAcceptable, LengthOf, OneLength, HasLength, HasCoding, HasUpgrade, Says;
    AcceptableMeans(NO_FLAGS, hs);
    TrailingIs(NO_FLAGS, hs);
    FlagsAreSaid(NO_FLAGS, hs);
  }

  lemma LeavingHead(cfg: Config, c: Cursor, m: Method, url: string, hs: Headers, ver: Version, body: string)
    requires Running(c) && Fit(c) && c.p.state == StartReq && !c.p.upgrade && c.nread == 0
    requires UrlReadable(cfg.strict, m, url) && AllLegible(hs) && AllClear(cfg.lenient, hs) && HeadCost(m, url, hs) <= cfg.limit
    requires Coherent(hs) && if m == CONNECT then body == "" else Leaves(hs) && BodyIs(hs, body)
    ensures var d := FineRun(cfg, c, Head(m, url, hs, ver));
      && d.p.errno == Ok && d.left == (body == "") && d.p.upgrade && d.nread == 0
      && (body != "" ==> Fit(d) && d.p.state == BodyIdentity && d.p.length == |body|)
      && d.log == HeadLog(c.log, m, url, hs, body, Persists(ver, hs))
  {
    hide Append, AppendAll, FitFor, FineRun, Reaches, UrlReadable, RequestLine, Lines, LinesLog, LengthOf, FlagsOf, AllAcceptable, AllLegible, AllClear,
      HeadCost, StaysOpen, HeadEvents, Persists, Leaves;
    AcceptableMeans(NO_FLAGS, hs);
    hide OneLength, HasLength, HasCoding, HasUpgrade;
    HeadersDecide(ver, hs);
    var p := HeadLines(cfg, c, m, url, hs, ver);
    AllIsSet(m, hs, body, p);
    var most, log := RequestLine(m, url, ver) + Lines(hs) + [CR], LinesLog(Append(Append(c.log, MessageBegin), Part(UrlText, url)), hs);
    ReachedIf(cfg, c, most, HeadCost(m, url, hs) - 1, p, log);
    FineRunConcat(cfg, c, most, [LF]);
    assert [CR] + [LF] == CRLF;
    assert most + [LF] == Head(m, url, hs, ver);
    StillThere(p, body);
    hide Departing, BodyIs, Coherent;
    LeavingStep(cfg, FineRun(cfg, c, most), ver, body);
  }

  lemma StillThere(p: Parser, body: string)
    requires Departing(p, body)
    ensures body != "" ==> p.length == |body|
  {
  }

  /** One byte per fragment, the request is read and the run ends. */
  lemma LeavingWalk(cfg: Config, c: Cursor, m: Method, url: string, hs: Headers, ver: Version, body: string)
    requires Running(c) && Fit(c) && c.p.state == StartReq && !c.p.upgrade && c.nread == 0
    requires UrlReadable(cfg.strict, m, url) && AllLegible(hs) && AllClear(cfg.lenient, hs) && HeadCost(m, url, hs) <= cfg.limit
    requires Coherent(hs) && if m == CONNECT then body == "" else Leaves(hs) && BodyIs(hs, body)
    ensures var d := FineRun(cfg, c, Head(m, url, hs, ver) + body);
      && d.p.errno == Ok && d.left && d.p.upgrade
      && d.log == MessageLog(c.log, m, url, hs, body, Persists(ver, hs))
  {
    LeavingHead(cfg, c, m, url, hs, ver, body);
    hide Append, FitFor, FineRun, UrlReadable, AllLegible, AllClear, HeadCost, Head, HeadLog, Leaves, BodyIs, Coherent, Persists;
    var head := Head(m, url, hs, ver);
    FineRunConcat(cfg, c, head, body);
    var d := FineRun(cfg, c, head);
    if body == "" {
      LeftStays(cfg, d, body);
    } else {
      LastBody(cfg, d, body);
    }
  }

  /** A request that asks for another protocol, and a CONNECT, however the stream is cut: the request is queued, with its
      body if it has one, and what comes behind it is left to the other protocol: none of it is looked at. After the head
      of a CONNECT no body is read whatever its headers say. */
  lemma UpgradeLeaves(cfg: Config, m: Method, url: string, hs: Headers, ver: Version, body: string, behind: string, pieces: seq<string>)
    requires UrlReadable(cfg.strict, m, url) && AllLegible(hs) && AllClear(cfg.lenient, hs) && HeadCost(m, url, hs) <= cfg.limit
    requires DistinctNames(hs) && Coherent(hs) && if m == CONNECT then body == "" else Leaves(hs) && BodyIs(hs, body)
    requires NonEmpty(pieces) && Join(pieces) == (Head(m, url, hs, ver) + body) + behind
    ensures var r := Fed(cfg, pieces);
      && r.p.errno == Ok && r.left && r.p.upgrade
      && Replay(EMPTY_SINK, r.log).requests == [Request(m, url, Collected(map[], hs), body, Persists(ver, hs))]
  {
    hide FineRun, FeedAll, Head, HeadLog, MessageLog, HeadCost, UrlReadable, AllLegible, AllClear, Coherent, BodyIs, Leaves, Persists, Collected,
      DistinctNames, NonEmpty, Join;
    var text := Head(m, url, hs, ver) + body;
    LeavingWalk(cfg, BEGIN, m, url, hs, ver, body);
    MessageHandled(EMPTY_SINK, BEGIN.log, m, url, hs, body, Persists(ver, hs));
    FineRunConcat(cfg, BEGIN, text, behind);
    LeftStays(cfg, FineRun(cfg, BEGIN, text), behind);
    SinglesAreFine(cfg, BEGIN, text + behind);
    FinestIsStrictest(cfg, BEGIN, pieces);
  }

  lemma LeftStays(cfg: Config, c: Cursor, s: string)
    requires c.left
    ensures FineRun(cfg, c, s) == c
  {
  }
}
