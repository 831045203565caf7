/**
 Printing requests and reading them back, in fragments of any sizes.
 */
module HttpRoundTrip {
  import opened Options
  import opened HttpChars
  import opened HttpParser
  import opened HttpStream
  import opened HttpRequests
  import opened HttpFragments
  import opened HttpWalk
  import opened HttpHeaders
  import opened HttpLengths
  import opened HttpValues
  import HttpConnection
  import HttpExecute

  type Headers = seq<(string, string)>

  // ---- All the lines -----------------------------------------------------------------------

  function Lines(hs: Headers): string
    decreases |hs|
  {
    if hs == [] then "" else Line(hs[0].0, hs[0].1) + Lines(hs[1..])
  }

  function LinesCost(hs: Headers): int
    decreases |hs|
  {
    if hs == [] then 0 else LineCost(hs[0].0, hs[0].1) + LinesCost(hs[1..])
  }

  function LinesLog(log: Log, hs: Headers): Log
    decreases |hs|
  {
    if hs == [] then log else LinesLog(LineLog(log, hs[0].0, hs[0].1), hs[1..])
  }

  predicate AllAcceptable(f: Flags, hs: Headers)
    decreases |hs|
  {
    hs != [] ==> Acceptable(f, hs[0].0, hs[0].1) && AllAcceptable(FlagsAfter(f, hs[0].0, hs[0].1), hs[1..])
  }

  predicate AllLegible(hs: Headers) { forall i | 0 <= i < |hs| :: Legible(hs[i].0, hs[i].1) }

  predicate AllClear(lenient: bool, hs: Headers) { forall i | 0 <= i < |hs| :: Clear(lenient, hs[i].1) }

  /** What holds of all lines holds of the first and of the others. */
  lemma FirstAndOthers(hs: Headers, lenient: bool)
    requires hs != [] && AllLegible(hs)
    ensures Legible(hs[0].0, hs[0].1) && AllLegible(hs[1..])
    ensures AllClear(lenient, hs) <==> Clear(lenient, hs[0].1) && AllClear(lenient, hs[1..])
  {
    hide Legible, Clear;
    assert Legible(hs[0].0, hs[0].1);
    forall i | 0 <= i < |hs[1..]| ensures Legible(hs[1..][i].0, hs[1..][i].1) {
      assert hs[1..][i] == hs[i + 1];
    }
    if AllClear(lenient, hs) {
      forall i | 0 <= i < |hs[1..]| ensures Clear(lenient, hs[1..][i].1) {
        assert hs[1..][i] == hs[i + 1];
      }
    }
    if Clear(lenient, hs[0].1) && AllClear(lenient, hs[1..]) {
      forall i | 0 <= i < |hs| ensures Clear(lenient, hs[i].1) {
        if i > 0 {
          assert hs[i] == hs[1..][i - 1];
        }
      }
    }
  }

  function FlagsOf(f: Flags, hs: Headers): Flags
    decreases |hs|
  {
    if hs == [] then f else FlagsOf(FlagsAfter(f, hs[0].0, hs[0].1), hs[1..])
  }

  function LengthOf(f: Flags, length: nat, hs: Headers): nat
    requires AllAcceptable(f, hs)
    decreases |hs|
  {
    if hs == [] then length
    else LengthOf(FlagsAfter(f, hs[0].0, hs[0].1), LengthAfter(f, length, hs[0].0, hs[0].1), hs[1..])
  }

  lemma {:induction false} LinesWalk(cfg: Config, c: Cursor, hs: Headers, f: Flags, length: nat, m: Method, ver: Version := V11)
      returns (p: Parser, log: Log)
    requires Running(c) && Fit(c) && c.nread <= cfg.limit && AllLegible(hs) && AllClear(cfg.lenient, hs) && AllAcceptable(f, hs)
    requires Settled(c.p, f, length, m, ver)
    ensures Settled(p, FlagsOf(f, hs), LengthOf(f, length, hs), m, ver) && p.errno == Ok
    ensures SettledLog(p, log) == LinesLog(SettledLog(c.p, c.log), hs)
    ensures LinesCost(hs) >= 0 && Reaches(cfg, c, Lines(hs), LinesCost(hs), p, log)
    decreases |hs|
  {
    hide Append, FitFor, FineRun, Reaches, Acceptable, Legible, FlagsAfter, LengthAfter, Settled, SettledLog, Line, LineLog, LineCost;
    if hs == [] {
      p, log := c.p, c.log;
      Here(cfg, c, Lines(hs), p);
    } else {
      var (name, v) := hs[0];
      var rest, g, n := hs[1..], FlagsAfter(f, name, v), LengthAfter(f, length, name, v);
      FirstAndOthers(hs, cfg.lenient);
      var q, one := LineWalk(cfg, c, name, v, f, length, m, ver);
      Reached(cfg, c, Line(name, v), LineCost(name, v), q, one);
      var d := FineRun(cfg, c, Line(name, v));
      CostIsNatural(rest);
      if Running(d) {
        p, log := LinesWalk(cfg, d, rest, g, n, m, ver);
      } else {
        p, log := UnreachedLines(q, one, rest, g, n, m, ver);
      }
      Then(cfg, c, Line(name, v), LineCost(name, v), q, one, Lines(rest), LinesCost(rest), p, log);
    }
  }

  lemma {:induction false} CostIsNatural(hs: Headers)
    requires AllLegible(hs)
    ensures LinesCost(hs) >= 0
    decreases |hs|
  {
    if hs != [] {
      var rest := hs[1..];
      FirstAndOthers(hs, true);
      CostIsNatural(rest);
    }
  }

  /** Any parser will do where the header limit stops the walk. */
  lemma {:induction false} UnreachedLines(q: Parser, one: Log, hs: Headers, f: Flags, length: nat, m: Method, ver: Version := V11)
      returns (p: Parser, log: Log)
    requires AllAcceptable(f, hs) && Settled(q, f, length, m, ver) && q.errno == Ok
    ensures Settled(p, FlagsOf(f, hs), LengthOf(f, length, hs), m, ver) && p.errno == Ok
    ensures SettledLog(p, log) == LinesLog(SettledLog(q, one), hs)
  {
    p := FRESH.(flags := FlagsOf(f, hs), length := LengthOf(f, length, hs), verb := m, major := ver.major, minor := ver.minor, state := FieldStart);
    log := LinesLog(SettledLog(q, one), hs);
  }

  /** One byte per fragment, lines are refused if one of them has a control character where it matters, or a
      length that is not acceptable. */
  lemma {:induction false} BadLines(cfg: Config, c: Cursor, hs: Headers, f: Flags, length: nat, m: Method, ver: Version := V11)
    requires Running(c) && Fit(c) && c.nread <= cfg.limit && AllLegible(hs) && !(AllClear(cfg.lenient, hs) && AllAcceptable(f, hs))
    requires Settled(c.p, f, length, m, ver)
    ensures FineRun(cfg, c, Lines(hs)).p.errno != Ok
    decreases |hs|
  {
    hide Append, FitFor, FineRun, Acceptable, Legible, Clear, AllClear, FlagsAfter, LengthAfter, SettledFlags, Line, LineLog, LineCost, FinishFlags;
    SomeLine(f, hs, cfg.lenient);
    var (name, v) := hs[0];
    var rest := hs[1..];
    FirstAndOthers(hs, cfg.lenient);
    FineRunConcat(cfg, c, Line(name, v), Lines(rest));
    var d := FineRun(cfg, c, Line(name, v));
    OverflowStops(cfg, d, Lines(rest));
    if !Clear(cfg.lenient, v) {
      BadLine(cfg, c, name, v);
    } else if !Acceptable(f, name, v) {
      UnacceptableLine(cfg, c, name, v);
    } else {
      var q, one := LineWalk(cfg, c, name, v, f, length, m, ver);
      ReachedIf(cfg, c, Line(name, v), LineCost(name, v), q, one);
      hide Reaches;
      if Running(d) {
        BadLines(cfg, d, rest, FlagsAfter(f, name, v), LengthAfter(f, length, name, v), m, ver);
      }
    }
  }

  lemma SomeLine(f: Flags, hs: Headers, lenient: bool)
    requires !(AllClear(lenient, hs) && AllAcceptable(f, hs))
    ensures hs != []
  {
  }

  // ---- The end of the head -----------------------------------------------------------------

  /** What the headers must come to for a request with this body that stays with HTTP. */
  predicate Plainly(m: Method, f: Flags, length: nat, body: string) {
    && m != CONNECT
    && !f.chunked && !f.trailing && !(f.upgrade && f.connUpgrade)
    && (if length == NO_LENGTH then body == "" else length == |body|)
  }

  /** The first character of the empty line. */
  lemma EndStep(cfg: Config, c: Cursor)
    requires Running(c) && Fit(c) && BetweenLines(c.p.state)
    ensures Reaches(cfg, c, [CR], 1, c.p.(flags := SettledFlags(c.p), state := HeadersAlmostDone), SettledLog(c.p, c.log))
  {
    hide Append, FitFor, FineRun, AppendAll, FinishFlags;
    var p := c.p.(flags := SettledFlags(c.p), state := HeadersAlmostDone);
    var e := Part(ValueText, "");
    HttpExecute.OneEvent(c.log, e);
    assert AppendAll(c.log, []) == c.log by {
      NoEvents(c.log);
    }
    if c.p.state == ValueDiscardLws {
      assert [e] + [] == [e];
      PlainStep(cfg, c, CR, p, [e]);
    } else {
      PlainStep(cfg, c, CR, p, []);
    }
  }

  lemma NoEvents(log: Log)
    ensures AppendAll(log, []) == log
  {
  }

  /** Whether the connection stays open: from version 1.1 on unless a close is mentioned, and before that if
      keep-alive is. */
  predicate StaysOpen(ver: Version, f: Flags) {
    if ver.major >= 1 && ver.minor >= 1 then !f.close else f.keepAlive
  }

  /** Where the parser is after a message: in strict mode it takes no other one on a connection that is to be closed. */
  function AfterMessage(cfg: Config, open: bool): State { if open || !cfg.strict then StartReq else Dead }

  lemma Decides(cfg: Config, p: Parser, ver: Version)
    requires p.major == ver.major && p.minor == ver.minor
    ensures ShouldKeepAlive(p) == StaysOpen(ver, p.flags) && NewMessage(cfg, p) == AfterMessage(cfg, StaysOpen(ver, p.flags))
  {
  }

  /** The parser after the head. */
  function Headed(cfg: Config, p: Parser, body: string, open: bool): Parser {
    p.(upgrade := false, state := if body == "" then AfterMessage(cfg, open) else BodyIdentity)
  }

  function HeadEvents(m: Method, body: string, open: bool := true): seq<Event> {
    [HeadersComplete(m, open)] + if body == "" then [MessageComplete] else []
  }

  lemma HeadersTurn(cfg: Config, p: Parser, body: string, ver: Version)
    requires p.state == HeadersAlmostDone && p.major == ver.major && p.minor == ver.minor && Plainly(p.verb, p.flags, p.length, body)
    ensures var open := StaysOpen(ver, p.flags);
      Turn(cfg, p, LF, false) == Out(Headed(cfg, p, body, open), HeadEvents(p.verb, body, open), false, true)
  {
    Decides(cfg, p.(upgrade := false), ver);
    assert [HeadersComplete(p.verb, true)] + [] == [HeadersComplete(p.verb, true)];
    assert [HeadersComplete(p.verb, false)] + [] == [HeadersComplete(p.verb, false)];
  }

  /** The last character of the head: the count of header bytes starts again. */
  lemma HeadersStep(cfg: Config, c: Cursor, body: string, ver: Version)
    requires Running(c) && Fit(c) && c.p.state == HeadersAlmostDone && c.p.major == ver.major && c.p.minor == ver.minor
    requires Plainly(c.p.verb, c.p.flags, c.p.length, body)
    ensures var d, open := FineRun(cfg, c, [LF]), StaysOpen(ver, c.p.flags);
      if c.nread + 1 <= cfg.limit then
        Running(d) && d.p == Headed(cfg, c.p, body, open) && d.nread == 0
        && d.log == AppendAll(c.log, HeadEvents(c.p.verb, body, open))
      else d.p.errno == HeaderOverflow
  {
    hide Byte, FitFor, Turn, AppendAll, Plainly;
    HeadersTurn(cfg, c.p, body, ver);
    HttpExecute.PlainIs(cfg, Refreshed(c), LF, true);
    assert FineRun(cfg, c, [LF]) == FineRun(cfg, Fine(cfg, c, LF), [LF][1..]);
  }

  // ---- Whether the connection is kept ------------------------------------------------------

  /** A Connection or Proxy-Connection header has this word in its value. */
  predicate Says(hs: Headers, w: HttpConnection.Word) {
    exists i | 0 <= i < |hs| :: hs[i].1 != "" && IsConnection(Lowered(hs[i].0)) && w in HttpConnection.Mentioned(hs[i].1)
  }

  /** From version 1.1 on the connection is kept unless a close is asked for; before, if keep-alive is. A version
      such as 2.0 counts as one before. */
  predicate Persists(ver: Version, hs: Headers) {
    if ver.major >= 1 && ver.minor >= 1 then !Says(hs, HttpConnection.CLOSE) else Says(hs, HttpConnection.KEEP_ALIVE)
  }

  lemma SaysFirst(hs: Headers, w: HttpConnection.Word)
    requires hs != []
    ensures Says(hs, w) <==>
      (hs[0].1 != "" && IsConnection(Lowered(hs[0].0)) && w in HttpConnection.Mentioned(hs[0].1)) || Says(hs[1..], w)
  {
    hide Lowered, HttpConnection.Mentioned, IsConnection;
    if Says(hs[1..], w) {
      var i :| 0 <= i < |hs[1..]| && hs[1..][i].1 != "" && IsConnection(Lowered(hs[1..][i].0)) && w in HttpConnection.Mentioned(hs[1..][i].1);
      assert hs[i + 1] == hs[1..][i];
    }
    if Says(hs, w) {
      var i :| 0 <= i < |hs| && hs[i].1 != "" && IsConnection(Lowered(hs[i].0)) && w in HttpConnection.Mentioned(hs[i].1);
      if i > 0 {
        assert hs[i] == hs[1..][i - 1];
      }
    }
  }

  lemma OneLineSays(f: Flags, name: string, v: string)
    ensures var said, g := v != "" && IsConnection(Lowered(name)), FlagsAfter(f, name, v);
      && (g.close <==> f.close || (said && HttpConnection.CLOSE in HttpConnection.Mentioned(v)))
      && (g.keepAlive <==> f.keepAlive || (said && HttpConnection.KEEP_ALIVE in HttpConnection.Mentioned(v)))
      && (g.connUpgrade <==> f.connUpgrade || (said && HttpConnection.UPGRADE in HttpConnection.Mentioned(v)))
  {
    hide Lowered, HttpConnection.Mentioned, NamesChunked, FlagsAfter;
    if v != "" && IsConnection(Lowered(name)) {
      WordsAreSaid(f, name, v);
    } else {
      OthersSayNothing(f, name, v);
    }
  }

  lemma WordsAreSaid(f: Flags, name: string, v: string)
    requires v != "" && IsConnection(Lowered(name))
    ensures FlagsAfter(f, name, v) == HttpConnection.WithWords(f, HttpConnection.Mentioned(v))
  {
    hide Lowered, HttpConnection.Mentioned, NamesChunked;
  }

  lemma OthersSayNothing(f: Flags, name: string, v: string)
    requires v == "" || !IsConnection(Lowered(name))
    ensures var g := FlagsAfter(f, name, v); g.close == f.close && g.keepAlive == f.keepAlive && g.connUpgrade == f.connUpgrade
  {
    hide Lowered, HttpConnection.Mentioned, NamesChunked;
  }

  /** The flags are set by the words of the headers, in whatever line they are. */
  lemma {:induction false} FlagsAreSaid(f: Flags, hs: Headers)
    ensures var g := FlagsOf(f, hs);
      && (g.close <==> f.close || Says(hs, HttpConnection.CLOSE))
      && (g.keepAlive <==> f.keepAlive || Says(hs, HttpConnection.KEEP_ALIVE))
      && (g.connUpgrade <==> f.connUpgrade || Says(hs, HttpConnection.UPGRADE))
    decreases |hs|
  {
    hide FlagsAfter, Says, Lowered, IsConnection, HttpConnection.Mentioned;
    if hs == [] {
      assert forall w :: !Says([], w) by { NothingSaid(); }
    } else {
      OneLineSays(f, hs[0].0, hs[0].1);
      SaysFirst(hs, HttpConnection.CLOSE);
      SaysFirst(hs, HttpConnection.KEEP_ALIVE);
      SaysFirst(hs, HttpConnection.UPGRADE);
      FlagsAreSaid(FlagsAfter(f, hs[0].0, hs[0].1), hs[1..]);
    }
  }

  lemma NothingSaid()
    ensures forall w :: !Says([], w)
  {
  }

  lemma HeadersDecide(ver: Version, hs: Headers)
    ensures StaysOpen(ver, FlagsOf(NO_FLAGS, hs)) <==> Persists(ver, hs)
  {
    hide FlagsOf, Says;
    FlagsAreSaid(NO_FLAGS, hs);
  }

  // ---- The body ----------------------------------------------------------------------------

  /** The bytes of a body leave the parser ready for the next message, or for the end of the connection. */
  lemma {:induction false} BodyWalk(cfg: Config, c: Cursor, body: string, ver: Version)
    requires Running(c) && Fit(c) && c.p.state == BodyIdentity && body != "" && c.p.length == |body| && !c.p.upgrade
    requires c.p.major == ver.major && c.p.minor == ver.minor
    ensures var d := FineRun(cfg, c, body);
      && Running(d) && d.p == c.p.(length := 0, state := AfterMessage(cfg, StaysOpen(ver, c.p.flags))) && d.nread == c.nread
      && d.log == Append(Append(c.log, Part(BodyText, body)), MessageComplete)
    decreases |body|
  {
    hide Append, FitFor, Byte;
    HttpExecute.BodyByte(cfg, Refreshed(c), body[0], true);
    var d := Fine(cfg, c, body[0]);
    assert FineRun(cfg, c, body) == FineRun(cfg, d, body[1..]);
    if |body| == 1 {
      assert body == [body[0]] && body[1..] == "";
      Decides(cfg, c.p.(length := 0), ver);
    } else {
      BodyWalk(cfg, d, body[1..], ver);
      AppendMerges(c.log, BodyText, [body[0]], body[1..]);
      assert [body[0]] + body[1..] == body;
    }
  }

  // ---- One request -------------------------------------------------------------------------

  function Head(m: Method, url: string, hs: Headers, ver: Version := V11): string { RequestLine(m, url, ver) + Lines(hs) + CRLF }

  /** The header bytes that a head costs at most, that is, in fragments of one byte. */
  function HeadCost(m: Method, url: string, hs: Headers): int { |RequestLine(m, url)| + LinesCost(hs) + 2 }

  function HeadLog(log: Log, m: Method, url: string, hs: Headers, body: string, open: bool := true): Log {
    AppendAll(LinesLog(Append(Append(log, MessageBegin), Part(UrlText, url)), hs), HeadEvents(m, body, open))
  }

  function MessageLog(log: Log, m: Method, url: string, hs: Headers, body: string, open: bool := true): Log {
    if body == "" then HeadLog(log, m, url, hs, body, open)
    else Append(Append(HeadLog(log, m, url, hs, body, open), Part(BodyText, body)), MessageComplete)
  }

  /** A request that is read to its end: its headers give the length of the body if there is one. */
  predicate Framed(cfg: Config, m: Method, url: string, hs: Headers, body: string) {
    && UrlReadable(cfg.strict, m, url) && AllLegible(hs) && AllAcceptable(NO_FLAGS, hs)
    && Plainly(m, FlagsOf(NO_FLAGS, hs), LengthOf(NO_FLAGS, NO_LENGTH, hs), body)
  }

  /** The printed request is one the parser promises to read back, with others after it: its headers keep
      the connection. */
  predicate Readable(cfg: Config, m: Method, url: string, hs: Headers, body: string) {
    Framed(cfg, m, url, hs, body) && !FlagsOf(NO_FLAGS, hs).close
  }

  /** The request line and the headers. */
  lemma LineAndHeaders(cfg: Config, c: Cursor, m: Method, url: string, hs: Headers, ver: Version) returns (q: Parser, one: Log)
    requires Running(c) && Fit(c) && c.p.state == StartReq && c.nread <= cfg.limit && !c.p.upgrade
    requires UrlReadable(cfg.strict, m, url) && AllLegible(hs) && AllClear(cfg.lenient, hs) && AllAcceptable(NO_FLAGS, hs)
    ensures Settled(q, FlagsOf(NO_FLAGS, hs), LengthOf(NO_FLAGS, NO_LENGTH, hs), m, ver) && q.errno == Ok
    ensures SettledLog(q, one) == LinesLog(Append(Append(c.log, MessageBegin), Part(UrlText, url)), hs)
    ensures LinesCost(hs) >= 0
    ensures Reaches(cfg, c, RequestLine(m, url, ver) + Lines(hs), |RequestLine(m, url, ver)| + LinesCost(hs), q, one)
  {
    hide Append, FitFor, FineRun, Reaches, UrlReadable, RequestLine, Lines, LinesLog, AllAcceptable, LengthOf, FlagsOf, AllLegible, FinishFlags, Fit, LinesCost;
    var line, log := RequestLine(m, url, ver), Append(Append(c.log, MessageBegin), Part(UrlText, url));
    RequestLineWalk(cfg, c, m, url, ver);
    Reached(cfg, c, line, |line|, Lined(c.p, m, ver), log);
    CostIsNatural(hs);
    var d := FineRun(cfg, c, line);
    if Running(d) {
      q, one := LinesWalk(cfg, d, hs, NO_FLAGS, NO_LENGTH, m, ver);
    } else {
      q, one := UnreachedLines(Lined(c.p, m, ver), log, hs, NO_FLAGS, NO_LENGTH, m, ver);
    }
    Then(cfg, c, line, |line|, Lined(c.p, m, ver), log, Lines(hs), LinesCost(hs), q, one);
  }

  /** The head but for its last character. */
  lemma HeadLines(cfg: Config, c: Cursor, m: Method, url: string, hs: Headers, ver: Version := V11) returns (p: Parser)
    requires Running(c) && Fit(c) && c.p.state == StartReq && c.nread <= cfg.limit && !c.p.upgrade
    requires UrlReadable(cfg.strict, m, url) && AllLegible(hs) && AllClear(cfg.lenient, hs) && AllAcceptable(NO_FLAGS, hs)
    ensures p.state == HeadersAlmostDone && p.verb == m && p.major == ver.major && p.minor == ver.minor && p.errno == Ok
    ensures p.flags == FlagsOf(NO_FLAGS, hs) && p.length == LengthOf(NO_FLAGS, NO_LENGTH, hs)
    ensures HeadCost(m, url, hs) >= 2
    ensures Reaches(cfg, c, RequestLine(m, url, ver) + Lines(hs) + [CR], HeadCost(m, url, hs) - 1, p,
              LinesLog(Append(Append(c.log, MessageBegin), Part(UrlText, url)), hs))
  {
    hide Append, FitFor, FineRun, Reaches, UrlReadable, RequestLine, Lines, LinesLog, AllAcceptable, LengthOf, FlagsOf, AllLegible, FinishFlags, Fit;
    var q, one := LineAndHeaders(cfg, c, m, url, hs, ver);
    LinesAreAsLong(m, url, ver);
    var most, cost := RequestLine(m, url, ver) + Lines(hs), |RequestLine(m, url, ver)| + LinesCost(hs);
    Reached(cfg, c, most, cost, q, one);
    p := q.(flags := SettledFlags(q), state := HeadersAlmostDone);
    var e := FineRun(cfg, c, most);
    if Running(e) {
      EndStep(cfg, e);
    }
    Then(cfg, c, most, cost, q, one, [CR], 1, p, SettledLog(q, one));
  }

  lemma LinesAreAsLong(m: Method, url: string, ver: Version)
    ensures |RequestLine(m, url, ver)| == |RequestLine(m, url)|
  {
  }

  /** A printed head of any version is taken exactly if it fits under the header limit; what it says of the
      connection is what its headers and its version say. */
  lemma HeadWalk(cfg: Config, c: Cursor, m: Method, url: string, hs: Headers, body: string, ver: Version := V11)
    requires Running(c) && Fit(c) && c.p.state == StartReq && c.nread <= cfg.limit && !c.p.upgrade
    requires Framed(cfg, m, url, hs, body) && AllClear(cfg.lenient, hs)
    ensures var d, open := FineRun(cfg, c, Head(m, url, hs, ver)), StaysOpen(ver, FlagsOf(NO_FLAGS, hs));
      if c.nread + HeadCost(m, url, hs) <= cfg.limit then
        && Running(d) && d.nread == 0 && d.log == HeadLog(c.log, m, url, hs, body, open)
        && d.p.state == (if body == "" then AfterMessage(cfg, open) else BodyIdentity) && !d.p.upgrade
        && d.p.flags == FlagsOf(NO_FLAGS, hs) && d.p.major == ver.major && d.p.minor == ver.minor
        && (body != "" ==> d.p.length == |body|)
      else d.p.errno == HeaderOverflow
  {
    hide Append, AppendAll, FitFor, FineRun, Reaches, UrlReadable, RequestLine, Lines, LinesLog, AllAcceptable, LengthOf, FlagsOf, AllLegible;
    var p := HeadLines(cfg, c, m, url, hs, ver);
    var most, log := RequestLine(m, url, ver) + Lines(hs) + [CR], LinesLog(Append(Append(c.log, MessageBegin), Part(UrlText, url)), hs);
    ReachedIf(cfg, c, most, HeadCost(m, url, hs) - 1, p, log);
    FineRunConcat(cfg, c, most, [LF]);
    assert [CR] + [LF] == CRLF;
    assert most + [LF] == Head(m, url, hs, ver);
    var d := FineRun(cfg, c, most);
    if Running(d) {
      HeadersStep(cfg, d, body, ver);
    } else {
      OverflowStops(cfg, d, [LF]);
    }
  }

  lemma ReachedIf(cfg: Config, c: Cursor, s: string, cost: nat, p: Parser, log: Log)
    requires Running(c) && Fit(c) && Reaches(cfg, c, s, cost, p, log)
    ensures var d := FineRun(cfg, c, s);
      if c.nread + cost <= cfg.limit then Running(d) && Fit(d) && d.p == p && d.nread == c.nread + cost && d.log == log
      else d.p.errno == HeaderOverflow
  {
  }

  /** A whole printed message. */
  lemma MessageWalk(cfg: Config, c: Cursor, m: Method, url: string, hs: Headers, body: string, ver: Version := V11)
    requires Running(c) && Fit(c) && c.p.state == StartReq && c.nread <= cfg.limit && !c.p.upgrade
    requires Framed(cfg, m, url, hs, body) && AllClear(cfg.lenient, hs)
    ensures var d, open := FineRun(cfg, c, Head(m, url, hs, ver) + body), StaysOpen(ver, FlagsOf(NO_FLAGS, hs));
      if c.nread + HeadCost(m, url, hs) <= cfg.limit then
        && Running(d) && d.p.state == AfterMessage(cfg, open) && d.nread == 0 && !d.p.upgrade
        && d.log == MessageLog(c.log, m, url, hs, body, open)
      else d.p.errno == HeaderOverflow
  {
    hide Append, AppendAll, FitFor, FineRun, Framed, HeadLog, Head, FlagsOf;
    HeadWalk(cfg, c, m, url, hs, body, ver);
    FineRunConcat(cfg, c, Head(m, url, hs, ver), body);
    var d := FineRun(cfg, c, Head(m, url, hs, ver));
    if !Running(d) {
      OverflowStops(cfg, d, body);
    } else if body == "" {
      assert Head(m, url, hs, ver) + body == Head(m, url, hs, ver);
    } else {
      BodyWalk(cfg, d, body, ver);
    }
  }

  /** One byte per fragment, a message is refused if a value has a control character where it matters, or a length
      that is not acceptable. */
  lemma BadMessage(cfg: Config, c: Cursor, m: Method, url: string, hs: Headers, body: string, ver: Version := V11)
    requires Running(c) && Fit(c) && c.p.state == StartReq && c.nread <= cfg.limit && !c.p.upgrade
    requires UrlReadable(cfg.strict, m, url) && AllLegible(hs)
    requires !(AllClear(cfg.lenient, hs) && AllAcceptable(NO_FLAGS, hs))
    ensures FineRun(cfg, c, Head(m, url, hs, ver) + body).p.errno != Ok
  {
    hide Append, FitFor, FineRun, UrlReadable, RequestLine, Lines, AllAcceptable, LengthOf, FlagsOf, AllLegible, AllClear;
    var line, log := RequestLine(m, url, ver), Append(Append(c.log, MessageBegin), Part(UrlText, url));
    RequestLineWalk(cfg, c, m, url, ver);
    ReachedIf(cfg, c, line, |line|, Lined(c.p, m, ver), log);
    hide Reaches;
    var rest := CRLF + body;
    assert Head(m, url, hs, ver) + body == line + (Lines(hs) + rest);
    FineRunConcat(cfg, c, line, Lines(hs) + rest);
    var d := FineRun(cfg, c, line);
    if Running(d) {
      FineRunConcat(cfg, d, Lines(hs), rest);
      BadLines(cfg, d, hs, NO_FLAGS, NO_LENGTH, m, ver);
      OverflowStops(cfg, FineRun(cfg, d, Lines(hs)), rest);
    } else {
      OverflowStops(cfg, d, Lines(hs) + rest);
    }
  }

  // ---- What the client makes of it ---------------------------------------------------------

  function HandleLines(s: Sink, hs: Headers): Sink
    decreases |hs|
  {
    if hs == [] then s
    else HandleLines(Handle(Handle(s, Part(FieldText, hs[0].0)), Part(ValueText, hs[0].1)), hs[1..])
  }

  lemma {:induction false} ReplayLines(s: Sink, log: Log, hs: Headers)
    ensures Replay(s, LinesLog(log, hs)) == HandleLines(Replay(s, log), hs)
    decreases |hs|
  {
    hide Append, Handle, Replay;
    if hs != [] {
      ReplayAppend(s, log, Part(FieldText, hs[0].0));
      ReplayAppend(s, Append(log, Part(FieldText, hs[0].0)), Part(ValueText, hs[0].1));
      ReplayLines(s, LineLog(log, hs[0].0, hs[0].1), hs[1..]);
    }
  }

  /** The headers that the callbacks collect. */
  function Collected(headers: map<string, string>, hs: Headers): map<string, string>
    decreases |hs|
  {
    if hs == [] then headers else Collected(headers[hs[0].0 := hs[0].1], hs[1..])
  }

  predicate DistinctNames(hs: Headers) {
    forall i, j | 0 <= i < j < |hs| :: hs[i].0 != hs[j].0
  }

  predicate FreshNames(headers: map<string, string>, hs: Headers) {
    forall i | 0 <= i < |hs| :: hs[i].0 !in headers
  }

  lemma OneLine(s: Sink, name: string, v: string)
    requires s.lastCb != SawHeaderField && name !in s.request.headers
    ensures Handle(Handle(s, Part(FieldText, name)), Part(ValueText, v))
      == s.(buffer := name, lastCb := SawHeaderValue, request := s.request.(headers := s.request.headers[name := v]))
  {
    assert "" + name == name && "" + v == v;
    assert s.request.headers[name := ""][name := v] == s.request.headers[name := v];
  }

  lemma {:induction false} HandledLines(s: Sink, hs: Headers)
    requires s.lastCb != SawHeaderField && DistinctNames(hs) && FreshNames(s.request.headers, hs)
    ensures var r := HandleLines(s, hs);
      && r.lastCb != SawHeaderField
      && r == s.(buffer := r.buffer, lastCb := r.lastCb, request := s.request.(headers := Collected(s.request.headers, hs)))
    decreases |hs|
  {
    hide Handle;
    if hs != [] {
      var rest := hs[1..];
      OneLine(s, hs[0].0, hs[0].1);
      var t := Handle(Handle(s, Part(FieldText, hs[0].0)), Part(ValueText, hs[0].1));
      forall i | 0 <= i < |rest| ensures rest[i].0 !in t.request.headers { assert rest[i] == hs[i + 1]; }
      forall i, j | 0 <= i < j < |rest| ensures rest[i].0 != rest[j].0 {
        assert rest[i] == hs[i + 1] && rest[j] == hs[j + 1];
      }
      HandledLines(t, rest);
    }
  }

  /** The callbacks of one message put the request together and queue it. */
  lemma MessageHandled(s: Sink, log: Log, m: Method, url: string, hs: Headers, body: string, open: bool := true)
    requires DistinctNames(hs)
    ensures var before, after := Replay(s, log), Replay(s, MessageLog(log, m, url, hs, body, open));
      && after.requests == before.requests + [Request(m, url, Collected(map[], hs), body, open)]
      && after.threw == before.threw
  {
    hide Append, AppendAll, Replay, LinesLog, HandleLines, Collected;
    var before := Replay(s, log);
    var began := Handle(before, MessageBegin);
    var named := Handle(began, Part(UrlText, url));
    ReplayAppend(s, log, MessageBegin);
    ReplayAppend(s, Append(log, MessageBegin), Part(UrlText, url));
    var lines := LinesLog(Append(Append(log, MessageBegin), Part(UrlText, url)), hs);
    ReplayLines(s, Append(Append(log, MessageBegin), Part(UrlText, url)), hs);
    HandledLines(named, hs);
    assert "" + url == url && "" + body == body;
    var collected := HandleLines(named, hs);
    ReplayAppend(s, lines, HeadersComplete(m, open));
    var headed := Append(lines, HeadersComplete(m, open));
    if body == "" {
      HttpExecute.TwoEvents(lines, HeadersComplete(m, open), MessageComplete);
      assert [HeadersComplete(m, open)] + [MessageComplete] == [HeadersComplete(m, open), MessageComplete];
      ReplayAppend(s, headed, MessageComplete);
    } else {
      HttpExecute.OneEvent(lines, HeadersComplete(m, open));
      assert [HeadersComplete(m, open)] + [] == [HeadersComplete(m, open)];
      ReplayAppend(s, headed, Part(BodyText, body));
      ReplayAppend(s, Append(headed, Part(BodyText, body)), MessageComplete);
    }
  }

  // ---- Printing ----------------------------------------------------------------------------

  /** A request and the order in which its headers are iterated over. */
  datatype Printed = Printed(request: Request, order: seq<string>)

  /** The order of iteration lists every header once. */
  predicate WellOrdered(x: Printed) {
    && (forall i, j | 0 <= i < j < |x.order| :: x.order[i] != x.order[j])
    && (forall k | k in x.order :: k in x.request.headers)
    && (forall k | k in x.request.headers :: k in x.order)
  }

  function Pairs(x: Printed): Headers
    requires WellOrdered(x)
  {
    seq(|x.order|, i requires 0 <= i < |x.order| => assert x.order[i] in x.order; (x.order[i], x.request.headers[x.order[i]]))
  }

  /** to_string. */
  function ToString(x: Printed): string
    requires WellOrdered(x)
  {
    Head(x.request.verb, x.request.url, Pairs(x)) + x.request.body
  }

  predicate Promised(cfg: Config, x: Printed) {
    WellOrdered(x) && x.request.keepAlive && Readable(cfg, x.request.verb, x.request.url, Pairs(x), x.request.body)
  }

  predicate AllPromised(cfg: Config, xs: seq<Printed>) { forall i | 0 <= i < |xs| :: Promised(cfg, xs[i]) }

  function Cost(x: Printed): int requires WellOrdered(x) { HeadCost(x.request.verb, x.request.url, Pairs(x)) }

  /** The parser takes the request however it is cut: with the characters of names and values but for
      the first counted twice, the head is within the header limit; and no value has a control character
      after its first character. */
  predicate Taken(cfg: Config, x: Printed)
    requires WellOrdered(x)
  {
    Cost(x) <= cfg.limit && AllClear(cfg.lenient, Pairs(x))
  }

  predicate AllTaken(cfg: Config, xs: seq<Printed>)
    requires AllPromised(cfg, xs)
  {
    forall i | 0 <= i < |xs| :: Taken(cfg, xs[i])
  }

  function PrintAll(cfg: Config, xs: seq<Printed>): string
    requires AllPromised(cfg, xs)
    decreases |xs|
  {
    if xs == [] then "" else ToString(xs[0]) + PrintAll(cfg, xs[1..])
  }

  function Requests(xs: seq<Printed>): seq<Request> { seq(|xs|, i requires 0 <= i < |xs| => xs[i].request) }

  predicate Names(hs: Headers, k: string) { exists i | 0 <= i < |hs| :: hs[i].0 == k }

  /** A collected header comes from a line, or was there before and is named by no line. */
  lemma {:induction false} CollectedFrom(headers: map<string, string>, hs: Headers, k: string)
    ensures var r := Collected(headers, hs);
      && (k in r <==> k in headers || Names(hs, k))
      && (k in headers && !Names(hs, k) ==> r[k] == headers[k])
    decreases |hs|
  {
    if hs != [] {
      var rest := hs[1..];
      CollectedFrom(headers[hs[0].0 := hs[0].1], rest, k);
      if Names(rest, k) {
        var i :| 0 <= i < |rest| && rest[i].0 == k;
        assert hs[i + 1].0 == k;
      }
      if Names(hs, k) && k != hs[0].0 {
        var i :| 0 <= i < |hs| && hs[i].0 == k;
        assert rest[i - 1].0 == k;
      }
      if k == hs[0].0 {
        assert hs[0].0 == k;
      }
    }
  }

  /** A collected line has its value. */
  lemma {:induction false} CollectedLine(headers: map<string, string>, hs: Headers, i: nat)
    requires DistinctNames(hs) && i < |hs|
    ensures var r := Collected(headers, hs); hs[i].0 in r && r[hs[i].0] == hs[i].1
    decreases |hs|
  {
    var rest, next := hs[1..], headers[hs[0].0 := hs[0].1];
    forall a, b | 0 <= a < b < |rest| ensures rest[a].0 != rest[b].0 {
      assert rest[a] == hs[a + 1] && rest[b] == hs[b + 1];
    }
    if i > 0 {
      assert rest[i - 1] == hs[i];
      CollectedLine(next, rest, i - 1);
    } else {
      CollectedFrom(next, rest, hs[0].0);
      forall j | 0 <= j < |rest| ensures rest[j].0 != hs[0].0 { assert rest[j] == hs[j + 1]; }
      assert !Names(rest, hs[0].0);
    }
  }

  /** Collecting the printed lines gives back the headers. */
  lemma PairsCollected(x: Printed)
    requires WellOrdered(x)
    ensures DistinctNames(Pairs(x)) && Collected(map[], Pairs(x)) == x.request.headers
  {
    hide Collected;
    var hs := Pairs(x);
    var r := Collected(map[], hs);
    forall k | k in x.request.headers ensures k in r && r[k] == x.request.headers[k] {
      var i :| 0 <= i < |x.order| && x.order[i] == k;
      CollectedLine(map[], hs, i);
      assert hs[i].0 == k;
    }
    forall k | k in r ensures k in x.request.headers {
      CollectedFrom(map[], hs, k);
      var i :| 0 <= i < |hs| && hs[i].0 == k;
      assert x.order[i] == k && x.order[i] in x.order;
    }
    assert r == x.request.headers;
  }

  // ---- Any number of requests, cut in any way ----------------------------------------------

  const BEGIN := Cursor(FRESH, 0, [], 0, false, false)

  /** A new parser after these fragments. */
  function Fed(cfg: Config, pieces: seq<string>): Cursor { FeedAll(cfg, BEGIN, pieces) }

  /** One byte per fragment: the request is read and queued, or refused. */
  lemma OneWalk(cfg: Config, c: Cursor, x: Printed)
    requires Running(c) && Fit(c) && c.p.state == StartReq && c.nread <= cfg.limit && !c.p.upgrade && Promised(cfg, x)
    ensures var d := FineRun(cfg, c, ToString(x));
      if c.nread + Cost(x) <= cfg.limit && AllClear(cfg.lenient, Pairs(x)) then
        var before, after := Replay(EMPTY_SINK, c.log), Replay(EMPTY_SINK, d.log);
        && Running(d) && d.p.state == StartReq && d.nread == 0 && !d.p.upgrade
        && after.requests == before.requests + [x.request] && after.threw == before.threw
      else d.p.errno != Ok
  {
    hide FitFor, FineRun, UrlReadable, AllLegible, AllAcceptable, FlagsOf, LengthOf, Head, HeadCost, MessageLog, Replay, WellOrdered, Pairs, AllClear;
    var r := x.request;
    if AllClear(cfg.lenient, Pairs(x)) {
      PairsCollected(x);
      MessageWalk(cfg, c, r.verb, r.url, Pairs(x), r.body);
      MessageHandled(EMPTY_SINK, c.log, r.verb, r.url, Pairs(x), r.body);
    } else {
      BadMessage(cfg, c, r.verb, r.url, Pairs(x), r.body);
    }
  }

  /** One byte per fragment: all of the requests are read, or one is refused. */
  lemma {:induction false} AllWalk(cfg: Config, c: Cursor, xs: seq<Printed>)
    requires Running(c) && Fit(c) && c.p.state == StartReq && c.nread == 0 && !c.p.upgrade && AllPromised(cfg, xs)
    ensures var d := FineRun(cfg, c, PrintAll(cfg, xs));
      if AllTaken(cfg, xs) then
        var before, after := Replay(EMPTY_SINK, c.log), Replay(EMPTY_SINK, d.log);
        Running(d) && d.p.state == StartReq
        && after.requests == before.requests + Requests(xs) && after.threw == before.threw
      else d.p.errno != Ok
    decreases |xs|
  {
    hide FitFor, FineRun, Readable, ToString, Replay, WellOrdered, AllClear, HeadCost;
    if xs == [] {
      assert FineRun(cfg, c, "") == c by {
        NoBytes(cfg, c, "");
      }
    } else {
      var x, rest := xs[0], xs[1..];
      assert Promised(cfg, xs[0]);
      forall i | 0 <= i < |rest| ensures Promised(cfg, rest[i]) { assert rest[i] == xs[i + 1]; }
      OneWalk(cfg, c, x);
      FineRunConcat(cfg, c, ToString(x), PrintAll(cfg, rest));
      var d := FineRun(cfg, c, ToString(x));
      TakenTogether(cfg, xs);
      if Taken(cfg, x) {
        AllWalk(cfg, d, rest);
        assert Requests(xs) == [x.request] + Requests(rest);
      } else {
        OverflowStops(cfg, d, PrintAll(cfg, rest));
      }
    }
  }

  lemma NoBytes(cfg: Config, c: Cursor, s: string)
    requires s == "" && Running(c) && Fit(c)
    ensures FineRun(cfg, c, s) == c
  {
  }

  lemma TakenTogether(cfg: Config, xs: seq<Printed>)
    requires AllPromised(cfg, xs) && xs != [] && AllPromised(cfg, xs[1..])
    ensures AllTaken(cfg, xs) <==> Taken(cfg, xs[0]) && AllTaken(cfg, xs[1..])
  {
    hide Taken, Readable;
    if Taken(cfg, xs[0]) && AllTaken(cfg, xs[1..]) {
      forall i | 0 <= i < |xs| ensures Taken(cfg, xs[i]) {
        if i > 0 {
          assert xs[i] == xs[1..][i - 1];
        }
      }
    }
    if AllTaken(cfg, xs) {
      forall i | 0 <= i < |xs[1..]| ensures Taken(cfg, xs[1..][i]) {
        assert xs[1..][i] == xs[i + 1];
      }
    }
  }

  /** Requests that are printed one after the other and cut into fragments of any sizes are queued
      as the same requests, in order. */
  lemma RequestsAreReadBack(cfg: Config, xs: seq<Printed>, pieces: seq<string>)
    requires AllPromised(cfg, xs) && AllTaken(cfg, xs)
    requires NonEmpty(pieces) && Join(pieces) == PrintAll(cfg, xs)
    ensures var r := Fed(cfg, pieces);
      && Running(r) && Replay(EMPTY_SINK, r.log).requests == Requests(xs) && !Replay(EMPTY_SINK, r.log).threw
  {
    hide FineRun, FeedAll, PrintAll, AllPromised, Readable, Taken;
    AllWalk(cfg, BEGIN, xs);
    SinglesAreFine(cfg, BEGIN, PrintAll(cfg, xs));
    FinestIsStrictest(cfg, BEGIN, pieces);
  }

  /** The promise holds for every way to cut the stream exactly if every request is taken: its head
      fits with characters counted twice, and its values have no control characters after the first. */
  lemma ExactlyWhenTaken(cfg: Config, xs: seq<Printed>)
    requires AllPromised(cfg, xs)
    ensures AllTaken(cfg, xs) <==>
      forall pieces | NonEmpty(pieces) && Join(pieces) == PrintAll(cfg, xs) :: Fed(cfg, pieces).p.errno == Ok
  {
    hide FineRun, FeedAll, PrintAll, Readable, Promised, NonEmpty, Join, Taken;
    if AllTaken(cfg, xs) {
      forall pieces | NonEmpty(pieces) && Join(pieces) == PrintAll(cfg, xs)
        ensures Fed(cfg, pieces).p.errno == Ok
      {
        RequestsAreReadBack(cfg, xs, pieces);
      }
    } else {
      var text := PrintAll(cfg, xs);
      AllWalk(cfg, BEGIN, xs);
      SinglesAreFine(cfg, BEGIN, text);
      SinglesCut(text, 0);
      assert NonEmpty(Singles(text)) && Join(Singles(text)) == text;
    }
  }

  // ---- It matters where a stream is cut ----------------------------------------------------

  lemma NameOfX(x: string)
    requires x == "x"
    ensures StrictToken('x') == 'x' && IsName(x) && Lowered(x) == x && NameClass(x) == General
  {
    FirstLetterClass('x');
    assert x == ['x'];
  }

  lemma AmidName(cfg: Config, b: Cursor, line: string) returns (c: Cursor)
    requires Running(b) && Fit(b) && (var d := FineRun(cfg, b, line);
      Running(d) && BetweenLines(d.p.state) && d.nread == |line| && |line| + 1 <= cfg.limit)
    ensures c == FineRun(cfg, b, line + "x") && Running(c) && Fit(c)
    ensures c.p.state == Field && c.p.hs == General && c.nread == |line| + 1
  {
    var d := FineRun(cfg, b, line);
    NameOfX("x");
    hide FineRun, NameClass, Append, StrictToken;
    FirstLetterStep(cfg, d, 'x');
    FineRunConcat(cfg, b, line, "x");
    c := FineRun(cfg, b, line + "x");
  }

  lemma BeforeValue(cfg: Config, b: Cursor, line: string) returns (c: Cursor)
    requires Running(b) && Fit(b) && (var d := FineRun(cfg, b, line);
      Running(d) && BetweenLines(d.p.state) && d.nread == |line| && |line| + 3 <= cfg.limit)
    ensures c == FineRun(cfg, b, line + "x: ") && Running(c) && Fit(c)
    ensures c.p.state == ValueDiscardWs && c.p.hs == General && c.nread == |line| + 3
  {
    hide Fit;
    var d := FineRun(cfg, b, line);
    NameOfX("x");
    hide FineRun, NameClass, Append, Lowered, StrictToken, IsName, FitFor, SettledFlags, SettledLog;
    var p := NameAndBlank(cfg, d, "x");
    FineRunConcat(cfg, b, line, "x: ");
    assert "x" + ": " == "x: ";
    c := FineRun(cfg, b, line + "x: ");
  }

  lemma StartsOrdinary(p: Parser, ch: char)
    requires p.hs == General
    ensures OnValueStart(p, ch) == Text(p.(state := Value, index := 0, hs := General), ValueText, ch)
  {
  }

  lemma AmidValue(cfg: Config, b: Cursor, line: string) returns (c: Cursor)
    requires Running(b) && Fit(b) && (var d := FineRun(cfg, b, line);
      Running(d) && BetweenLines(d.p.state) && d.nread == |line| && |line| + 4 <= cfg.limit)
    ensures c == FineRun(cfg, b, line + "x: a") && Running(c) && Fit(c)
    ensures c.p.state == Value && c.p.hs == General && c.nread == |line| + 4
  {
    hide FineRun, Append, OnValueStart, FitFor;
    var e := BeforeValue(cfg, b, line);
    StartsOrdinary(e.p, 'a');
    ValueFirst(cfg, e, 'a', e.p.(state := Value, index := 0, hs := General));
    FineRunConcat(cfg, b, line + "x: ", "a");
    assert line + "x: " + "a" == line + "x: a";
    c := FineRun(cfg, b, line + "x: a");
  }

  /** After one byte per fragment, other fragments follow. */
  lemma SinglesThen(cfg: Config, b: Cursor, start: string, pieces: seq<string>)
    requires Running(b) && Fit(b)
    ensures FeedAll(cfg, b, Singles(start) + pieces) == FeedAll(cfg, FineRun(cfg, b, start), pieces)
  {
    hide FineRun, FeedAll;
    SinglesAreFine(cfg, b, start);
    FeedAllConcat(cfg, b, Singles(start), pieces);
  }

  lemma NamesCutFrom(cfg: Config, b: Cursor, line: string)
    requires cfg == Config(true, |line| + 4, false) && Running(b) && Fit(b)
    requires var d := FineRun(cfg, b, line); Running(d) && BetweenLines(d.p.state) && d.nread == |line|
    ensures FeedAll(cfg, b, Singles(line + "x") + ["ab:"]).p.errno == Ok
    ensures FeedAll(cfg, b, Singles(line + "x") + ["a", "b:"]).p.errno == HeaderOverflow
  {
    hide FineRun, FeedAll;
    var c := AmidName(cfg, b, line);
    CutsCountTwice(c, cfg.limit);
    SinglesThen(cfg, b, line + "x", ["ab:"]);
    SinglesThen(cfg, b, line + "x", ["a", "b:"]);
  }

  lemma ValuesCutFrom(cfg: Config, b: Cursor, line: string)
    requires cfg == Config(true, |line| + 8, false) && Running(b) && Fit(b)
    requires var d := FineRun(cfg, b, line); Running(d) && BetweenLines(d.p.state) && d.nread == |line|
    ensures FeedAll(cfg, b, Singles(line + "x: a") + ["a\U{1}b"]).p.errno == Ok
    ensures FeedAll(cfg, b, Singles(line + "x: a") + ["a", "\U{1}b"]).p.errno == InvalidHeaderToken
  {
    hide FineRun, FeedAll;
    var c := AmidValue(cfg, b, line);
    CutsRevealControls(c, cfg);
    SinglesThen(cfg, b, line + "x: a", ["a\U{1}b"]);
    SinglesThen(cfg, b, line + "x: a", ["a", "\U{1}b"]);
  }

  lemma AfterRequestLine(cfg: Config, b: Cursor, m: Method, url: string)
    requires b == BEGIN && UrlReadable(cfg.strict, m, url) && cfg.limit > |RequestLine(m, url)|
    ensures var d := FineRun(cfg, b, RequestLine(m, url));
      Running(d) && BetweenLines(d.p.state) && d.nread == |RequestLine(m, url)|
  {
    hide FineRun, RequestLine, UrlReadable, Append;
    RequestLineWalk(cfg, b, m, url);
  }

  /** From the first byte on, after any request line: one stream, cut in two ways that differ in one
      place within a header name; with one it is accepted, with the other it is over the header limit. */
  lemma CutsMatterInNames(m: Method, url: string)
    requires UrlReadable(true, m, url)
    ensures var line := RequestLine(m, url);
      var cfg := Config(true, |line| + 4, false);
      && Fed(cfg, Singles(line + "x") + ["ab:"]).p.errno == Ok
      && Fed(cfg, Singles(line + "x") + ["a", "b:"]).p.errno == HeaderOverflow
  {
    hide FineRun, FeedAll, RequestLine, UrlReadable;
    var line := RequestLine(m, url);
    var cfg := Config(true, |line| + 4, false);
    AfterRequestLine(cfg, BEGIN, m, url);
    NamesCutFrom(cfg, BEGIN, line);
  }

  /** The same for a control character in a value: it is seen only where a fragment begins. */
  lemma CutsMatterInValues(m: Method, url: string)
    requires UrlReadable(true, m, url)
    ensures var line := RequestLine(m, url);
      var cfg := Config(true, |line| + 8, false);
      && Fed(cfg, Singles(line + "x: a") + ["a\U{1}b"]).p.errno == Ok
      && Fed(cfg, Singles(line + "x: a") + ["a", "\U{1}b"]).p.errno == InvalidHeaderToken
  {
    hide FineRun, FeedAll, RequestLine, UrlReadable;
    var line := RequestLine(m, url);
    var cfg := Config(true, |line| + 8, false);
    AfterRequestLine(cfg, BEGIN, m, url);
    ValuesCutFrom(cfg, BEGIN, line);
  }
}
