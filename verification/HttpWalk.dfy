/**
 Reading a request line one byte per fragment, the strictest way: how far the parser gets, what
 it reports and how many header bytes it counts.
 */
module HttpWalk {
  import opened Options
  import opened HttpChars
  import opened HttpParser
  import opened HttpStream
  import opened HttpFragments
  import HttpExecute

  // ---- Walking -----------------------------------------------------------------------------

  /** A fragment of one byte. */
  function Fine(cfg: Config, c: Cursor, ch: char): (d: Cursor)
    requires Running(c) && Fit(c)
    ensures Running(d) ==> Fit(d)
  {
    ByteSound(cfg, Refreshed(c), ch, true);
    Byte(cfg, Refreshed(c), ch, true)
  }

  function FineRun(cfg: Config, c: Cursor, s: string): (d: Cursor)
    requires Running(c) ==> Fit(c)
    ensures Running(d) ==> Fit(d)
    decreases |s|
  {
    if s == "" || !Running(c) then c else FineRun(cfg, Fine(cfg, c, s[0]), s[1..])
  }

  lemma {:induction false} FineRunConcat(cfg: Config, c: Cursor, a: string, b: string)
    requires Running(c) ==> Fit(c)
    ensures FineRun(cfg, c, a + b) == FineRun(cfg, FineRun(cfg, c, a), b)
    decreases |a|
  {
    hide Fine;
    if a == "" {
      assert a + b == b;
    } else if Running(c) {
      assert (a + b)[1..] == a[1..] + b;
      FineRunConcat(cfg, Fine(cfg, c, a[0]), a[1..], b);
    }
  }

  lemma {:induction false} SinglesAreFine(cfg: Config, c: Cursor, s: string)
    requires Running(c) ==> Fit(c)
    ensures FeedAll(cfg, c, Singles(s)) == FineRun(cfg, c, s)
    decreases |s|
  {
    hide Byte, FitFor;
    if s != "" && Running(c) {
      var pieces := Singles(s);
      assert pieces[1..] == Singles(s[1..]);
      assert pieces[0] == [s[0]];
      HttpFragments.OneLetter(cfg, Refreshed(c), [s[0]], Fine(cfg, c, s[0]));
      SinglesAreFine(cfg, Fine(cfg, c, s[0]), s[1..]);
    }
  }

  /** From c, s leads to p and log at the given cost, or the header limit is exceeded. */
  ghost predicate Reaches(cfg: Config, c: Cursor, s: string, cost: nat, p: Parser, log: Log)
    requires Running(c) ==> Fit(c)
  {
    var d := FineRun(cfg, c, s);
    if c.nread + cost <= cfg.limit then Running(d) && d.p == p && d.nread == c.nread + cost && d.log == log
    else d.p.errno == HeaderOverflow
  }

  /** One stretch after the other. */
  lemma Then(cfg: Config, c: Cursor, a: string, costA: nat, p: Parser, log: Log, b: string, costB: nat, q: Parser, end: Log)
    requires Running(c) && Fit(c) && Reaches(cfg, c, a, costA, p, log)
    requires var d := FineRun(cfg, c, a); Running(d) ==> Reaches(cfg, d, b, costB, q, end)
    ensures Reaches(cfg, c, a + b, costA + costB, q, end)
  {
    hide FineRun;
    FineRunConcat(cfg, c, a, b);
    assert Running(FineRun(cfg, c, a)) <==> c.nread + costA <= cfg.limit by {
      OverflowStops(cfg, FineRun(cfg, c, a), b);
    }
    OverflowStops(cfg, FineRun(cfg, c, a), b);
  }

  lemma OverflowStops(cfg: Config, c: Cursor, s: string)
    ensures c.p.errno != Ok ==> FineRun(cfg, c, s) == c
  {
  }

  /** One byte in a state that looks at one byte at a time. */
  lemma PlainStep(cfg: Config, c: Cursor, ch: char, p: Parser, events: seq<Event>)
    requires Running(c) && Fit(c) && HttpExecute.Plain(c.p.state) && ParsingHeader(c.p.state)
    requires Turn(cfg, c.p, ch, false) == Out(p, events, false, false) && p.errno == Ok
    ensures Reaches(cfg, c, [ch], 1, p, AppendAll(c.log, events))
  {
    hide Turn, Byte, FitFor, AppendAll;
    HttpExecute.PlainIs(cfg, Refreshed(c), ch, true);
    assert FineRun(cfg, c, [ch]) == FineRun(cfg, Fine(cfg, c, ch), [ch][1..]);
  }

  /** One more byte of a name or a value costs two. */
  lemma TextStep(cfg: Config, c: Cursor, ch: char, p: Parser, k: Kind)
    requires Running(c) && Fit(c) && (c.p.state == Field || c.p.state == Value)
    requires Turn(cfg, c.p, ch, false) == Text(p, k, ch) && p.state == c.p.state && p.errno == Ok
    ensures Reaches(cfg, c, [ch], 2, p, Append(c.log, Part(k, [ch])))
  {
    hide Turn, Byte, FitFor, Append;
    HttpExecute.TextByte(cfg, Refreshed(c), ch, true, p, k);
    assert FineRun(cfg, c, [ch]) == FineRun(cfg, Fine(cfg, c, ch), [ch][1..]);
  }

  // ---- The method --------------------------------------------------------------------------

  /** The guess after i letters of m's name. */
  function Guessed(m: Method, i: nat): Method {
    match m
    case PUT => if i <= 1 then POST else PUT
    case PATCH => if i <= 1 then POST else PATCH
    case PROPFIND => if i <= 1 then POST else PROPFIND
    case PROPPATCH => if i <= 1 then POST else if i <= 4 then PROPFIND else PROPPATCH
    case PURGE => if i <= 1 then POST else if i <= 2 then PUT else PURGE
    case CHECKOUT => if i <= 1 then CONNECT else CHECKOUT
    case COPY => if i <= 2 then CONNECT else COPY
    case MOVE => if i <= 1 then MKCOL else MOVE
    case MERGE => if i <= 1 then MKCOL else MERGE
    case MSEARCH => if i <= 1 then MKCOL else MSEARCH
    case MKACTIVITY => if i <= 2 then MKCOL else MKACTIVITY
    case MKCALENDAR => if i <= 3 then MKCOL else MKCALENDAR
    case SEARCH => if i <= 1 then SUBSCRIBE else SEARCH
    case REBIND => if i <= 2 then REPORT else REBIND
    case LINK => if i <= 1 then LOCK else LINK
    case UNSUBSCRIBE => if i <= 2 then UNLOCK else UNSUBSCRIBE
    case UNBIND => if i <= 2 then UNLOCK else UNBIND
    case UNLINK => if i <= 3 then UNLOCK else UNLINK
    case _ => m
  }

  /** A letter confirms the guess or corrects it. */
  predicate GoesOn(m: Method, i: nat)
    requires i < |Name(m)|
  {
    var ch, guess := Name(m)[i], Guessed(m, i);
    && ch != NUL && ch != SP
    && if ch == At(Name(guess), i) then Guessed(m, i + 1) == guess
       else (IsUpper(ch) || ch == '-') && Correct(guess, i, ch) == Some(Guessed(m, i + 1))
  }

  lemma GuessGoesOn(m: Method, i: nat)
    requires 1 <= i < |Name(m)|
    ensures GoesOn(m, i)
  {
    if Guessed(m, 1) == m {
      SteadyGuess(m, i);
    } else {
      CorrectedGuess(m, i);
    }
  }

  lemma SteadyGuess(m: Method, i: nat)
    requires 1 <= i < |Name(m)| && Guessed(m, 1) == m
    ensures GoesOn(m, i)
  {
    hide Correct;
  }

  lemma CorrectedGuess(m: Method, i: nat)
    requires 1 <= i < |Name(m)| && Guessed(m, 1) != m
    ensures GoesOn(m, i)
  {
    if Guessed(m, 1) == POST || Guessed(m, 1) == MKCOL {
      CorrectedPostOrMkcol(m, i);
    } else {
      CorrectedOther(m, i);
    }
  }

  lemma CorrectedPostOrMkcol(m: Method, i: nat)
    requires 1 <= i < |Name(m)| && Guessed(m, 1) != m && (Guessed(m, 1) == POST || Guessed(m, 1) == MKCOL)
    ensures GoesOn(m, i)
  {
    hide Guess;
  }

  lemma CorrectedOther(m: Method, i: nat)
    requires 1 <= i < |Name(m)| && Guessed(m, 1) != m && Guessed(m, 1) != POST && Guessed(m, 1) != MKCOL
    ensures GoesOn(m, i)
  {
  }

  lemma GuessStarts(m: Method)
    ensures |Name(m)| >= 3 && Guess(Name(m)[0]) == Some(Guessed(m, 1))
  {
  }

  lemma GuessEnds(m: Method)
    ensures |Name(m)| >= 3 && Guessed(m, |Name(m)|) == m
  {
  }

  lemma GuessesAreLetters(ch: char)
    ensures Guess(ch).Some? ==> !IsBreak(ch)
  {
  }

  lemma StartStep(cfg: Config, c: Cursor, m: Method)
    requires Running(c) && Fit(c) && c.p.state == StartReq
    ensures Reaches(cfg, c, Name(m)[..1], 1,
              c.p.(flags := NO_FLAGS, length := NO_LENGTH, verb := Guessed(m, 1), index := 1, state := ReqMethod),
              Append(c.log, MessageBegin))
  {
    hide Append, FitFor, Name, Guessed, Guess;
    GuessStarts(m);
    GuessesAreLetters(Name(m)[0]);
    var p := c.p.(flags := NO_FLAGS, length := NO_LENGTH, verb := Guessed(m, 1), index := 1, state := ReqMethod);
    HttpExecute.OneEvent(c.log, MessageBegin);
    assert Name(m)[..1] == [Name(m)[0]];
    PlainStep(cfg, c, Name(m)[0], p, [MessageBegin]);
  }

  lemma MethodStep(cfg: Config, c: Cursor, m: Method, i: nat)
    requires Running(c) && Fit(c) && c.p.state == ReqMethod && 1 <= i < |Name(m)|
    requires c.p.index == i && c.p.verb == Guessed(m, i)
    ensures Reaches(cfg, c, [Name(m)[i]], 1, c.p.(index := i + 1, verb := Guessed(m, i + 1)), c.log)
  {
    hide Append, FitFor, Name, Guessed, Correct;
    GuessGoesOn(m, i);
    PlainStep(cfg, c, Name(m)[i], c.p.(index := i + 1, verb := Guessed(m, i + 1)), []);
  }

  lemma {:induction false} MethodWalk(cfg: Config, c: Cursor, m: Method, i: nat)
    requires Running(c) && Fit(c) && c.p.state == ReqMethod && 1 <= i <= |Name(m)|
    requires c.p.index == i && c.p.verb == Guessed(m, i) && c.nread <= cfg.limit
    ensures Reaches(cfg, c, Name(m)[i..], |Name(m)| - i, c.p.(index := |Name(m)|, verb := m), c.log)
    decreases |Name(m)| - i
  {
    hide FitFor, Name, Guessed, Reaches, FineRun;
    GuessEnds(m);
    if i == |Name(m)| {
      Here(cfg, c, Name(m)[i..], c.p.(index := |Name(m)|, verb := m));
    } else {
      MethodStep(cfg, c, m, i);
      var d := FineRun(cfg, c, [Name(m)[i]]);
      Reached(cfg, c, [Name(m)[i]], 1, c.p.(index := i + 1, verb := Guessed(m, i + 1)), c.log);
      if Running(d) {
        MethodWalk(cfg, d, m, i + 1);
      }
      Then(cfg, c, [Name(m)[i]], 1, c.p.(index := i + 1, verb := Guessed(m, i + 1)), c.log,
           Name(m)[i + 1..], |Name(m)| - i - 1, c.p.(index := |Name(m)|, verb := m), c.log);
      assert Name(m)[i..] == [Name(m)[i]] + Name(m)[i + 1..];
    }
  }

  lemma Here(cfg: Config, c: Cursor, s: string, p: Parser)
    requires Running(c) && Fit(c) && c.nread <= cfg.limit && s == "" && p == c.p
    ensures Reaches(cfg, c, s, 0, p, c.log)
  {
  }

  lemma Reached(cfg: Config, c: Cursor, s: string, cost: nat, p: Parser, log: Log)
    requires Running(c) && Fit(c) && Reaches(cfg, c, s, cost, p, log)
    ensures var d := FineRun(cfg, c, s);
      Running(d) ==> Fit(d) && d.p == p && d.nread == c.nread + cost <= cfg.limit && d.log == log
  {
  }

  // ---- The URL -----------------------------------------------------------------------------

  function UrlRun(strict: bool, s: State, url: string): State
    decreases |url|
  {
    if url == "" then s else UrlRun(strict, UrlChar(strict, s, url[0]), url[1..])
  }

  /** The states in which a space ends the URL. */
  predicate EndsUrl(s: State) {
    s in {Server, ServerWithAt, Path, QueryStart, Query, FragmentStart, Fragment}
  }

  /** The URL of a CONNECT request begins with the server. */
  function Opening(m: Method): State { if m == CONNECT then ServerStart else SpacesBeforeUrl }

  /** The state in which the next character of a URL is looked at. */
  function Opened(p: Parser): State { if p.state == SpacesBeforeUrl then Opening(p.verb) else p.state }

  /** A URL that a request may carry. */
  predicate UrlReadable(strict: bool, m: Method, url: string) {
    url != "" && EndsUrl(UrlRun(strict, Opening(m), url))
  }

  lemma {:induction false} DeadStays(strict: bool, url: string)
    ensures UrlRun(strict, Dead, url) == Dead
    decreases |url|
  {
    if url != "" {
      DeadStays(strict, url[1..]);
    }
  }

  lemma UrlCharsAreNotSpaces(strict: bool, ch: char)
    ensures IsUrlChar(strict, ch) ==> ch != SP && !IsBreak(ch) && !(strict && (ch == HT || ch == '\U{c}'))
  {
  }

  lemma UrlStep(cfg: Config, c: Cursor, ch: char)
    requires Running(c) && Fit(c) && InUrl(c.p.state)
    requires UrlChar(cfg.strict, Opened(c.p), ch) != Dead
    ensures Reaches(cfg, c, [ch], 1, c.p.(state := UrlChar(cfg.strict, Opened(c.p), ch)), Append(c.log, Part(UrlText, [ch])))
  {
    hide Append, FitFor, UrlChar, FineRun;
    SpacesAreDead(cfg.strict, Opened(c.p), ch);
    var p := c.p.(state := UrlChar(cfg.strict, Opened(c.p), ch));
    HttpExecute.OneEvent(c.log, Part(UrlText, [ch]));
    PlainStep(cfg, c, ch, p, [Part(UrlText, [ch])]);
  }

  lemma SpacesAreDead(strict: bool, s: State, ch: char)
    ensures ch == SP || IsBreak(ch) ==> UrlChar(strict, s, ch) == Dead
  {
  }

  lemma {:induction false} UrlWalk(cfg: Config, c: Cursor, url: string)
    requires Running(c) && Fit(c) && InUrl(c.p.state) && c.nread <= cfg.limit
    requires url != "" && UrlRun(cfg.strict, Opened(c.p), url) != Dead
    ensures Reaches(cfg, c, url, |url|, c.p.(state := UrlRun(cfg.strict, Opened(c.p), url)), Append(c.log, Part(UrlText, url)))
    decreases |url|
  {
    hide Append, FitFor, UrlChar, FineRun, Reaches;
    var s := UrlChar(cfg.strict, Opened(c.p), url[0]);
    DeadStays(cfg.strict, url[1..]);
    UrlStep(cfg, c, url[0]);
    var p, log := c.p.(state := s), Append(c.log, Part(UrlText, [url[0]]));
    if |url| == 1 {
      assert url == [url[0]] && url[1..] == "";
    } else {
      Reached(cfg, c, [url[0]], 1, p, log);
      UrlCharStays(cfg.strict, Opened(c.p), url[0]);
      var d := FineRun(cfg, c, [url[0]]);
      if Running(d) {
        UrlWalk(cfg, d, url[1..]);
      }
      var end := c.p.(state := UrlRun(cfg.strict, Opened(c.p), url));
      AppendMerges(c.log, UrlText, [url[0]], url[1..]);
      assert url == [url[0]] + url[1..];
      Then(cfg, c, [url[0]], 1, p, log, url[1..], |url| - 1, end, Append(c.log, Part(UrlText, url)));
    }
  }

  // ---- The version -------------------------------------------------------------------------

  type Figure = d: nat | d <= 9

  datatype Version = Version(major: Figure, minor: Figure)

  const V11 := Version(1, 1)

  /** The end of a request line. */
  function VersionText(ver: Version): (s: string)
    ensures |s| == 10
  {
    "HTTP/" + ['0' + ver.major as char] + "." + ['0' + ver.minor as char] + "\r\n"
  }

  /** The parser after i characters of the version and the line break. */
  function Versioned(p: Parser, i: nat, ver: Version): Parser {
    var q := p.(major := if i >= 6 then ver.major else p.major, minor := if i >= 8 then ver.minor else p.minor);
    q.(state :=
      match i
      case 0 => HttpStart case 1 => HttpH case 2 => HttpHT case 3 => HttpHTT case 4 => HttpHTTP
      case 5 => HttpMajor case 6 => HttpDot case 7 => HttpMinor case 8 => HttpEnd case 9 => LineAlmostDone
      case _ => FieldStart)
  }

  lemma VersionStep(cfg: Config, c: Cursor, p: Parser, i: nat, ver: Version)
    requires Running(c) && Fit(c) && i < 10 && c.p == Versioned(p, i, ver)
    ensures Reaches(cfg, c, [VersionText(ver)[i]], 1, Versioned(p, i + 1, ver), c.log)
  {
    hide FitFor, FineRun;
    assert AppendAll(c.log, []) == c.log;
    PlainStep(cfg, c, VersionText(ver)[i], Versioned(p, i + 1, ver), []);
  }

  lemma {:induction false} VersionWalk(cfg: Config, c: Cursor, p: Parser, i: nat, ver: Version)
    requires Running(c) && Fit(c) && i <= 10 && c.p == Versioned(p, i, ver) && c.nread <= cfg.limit
    ensures Reaches(cfg, c, VersionText(ver)[i..], 10 - i, Versioned(p, 10, ver), c.log)
    decreases 10 - i
  {
    hide FitFor, FineRun, Reaches, Versioned, VersionText;
    var text := VersionText(ver);
    if i == 10 {
      Here(cfg, c, text[i..], Versioned(p, 10, ver));
    } else {
      VersionStep(cfg, c, p, i, ver);
      Reached(cfg, c, [text[i]], 1, Versioned(p, i + 1, ver), c.log);
      var d := FineRun(cfg, c, [text[i]]);
      if Running(d) {
        VersionWalk(cfg, d, p, i + 1, ver);
      }
      assert text[i..] == [text[i]] + text[i + 1..];
      Then(cfg, c, [text[i]], 1, Versioned(p, i + 1, ver), c.log, text[i + 1..], 9 - i, Versioned(p, 10, ver), c.log);
    }
  }

  // ---- The request line --------------------------------------------------------------------

  /** The parser at the end of the method, of the URL and of the line. */
  function Named(p: Parser, m: Method): Parser {
    p.(flags := NO_FLAGS, length := NO_LENGTH, verb := m, index := |Name(m)|, state := ReqMethod)
  }

  function Lined(p: Parser, m: Method, ver: Version := V11): Parser {
    Named(p, m).(index := |Name(m)| + 1, major := ver.major, minor := ver.minor, state := FieldStart)
  }

  lemma NameWalk(cfg: Config, c: Cursor, m: Method)
    requires Running(c) && Fit(c) && c.p.state == StartReq && c.nread <= cfg.limit
    ensures Reaches(cfg, c, Name(m), |Name(m)|, Named(c.p, m), Append(c.log, MessageBegin))
  {
    hide Append, FitFor, FineRun, Reaches, Name, Guessed;
    GuessEnds(m);
    StartStep(cfg, c, m);
    var p := c.p.(flags := NO_FLAGS, length := NO_LENGTH, verb := Guessed(m, 1), index := 1, state := ReqMethod);
    var log := Append(c.log, MessageBegin);
    Reached(cfg, c, Name(m)[..1], 1, p, log);
    var d := FineRun(cfg, c, Name(m)[..1]);
    if Running(d) {
      MethodWalk(cfg, d, m, 1);
    }
    Then(cfg, c, Name(m)[..1], 1, p, log, Name(m)[1..], |Name(m)| - 1, Named(c.p, m), log);
    assert Name(m) == Name(m)[..1] + Name(m)[1..];
  }

  lemma SpaceEndsMethod(cfg: Config, p: Parser)
    requires p.state == ReqMethod && p.index == |Name(p.verb)|
    ensures Turn(cfg, p, SP, false) == Out(p.(index := p.index + 1, state := SpacesBeforeUrl), [], false, false)
  {
    hide Name, Correct;
  }

  /** The space between the method and the URL, and the URL. */
  lemma SpaceAndUrl(cfg: Config, c: Cursor, m: Method, url: string)
    requires Running(c) && Fit(c) && c.p.state == ReqMethod && c.p.verb == m && c.p.index == |Name(m)|
    requires UrlReadable(cfg.strict, m, url) && c.nread <= cfg.limit
    ensures var p := c.p.(index := |Name(m)| + 1, state := UrlRun(cfg.strict, Opening(m), url));
      Reaches(cfg, c, " " + url, 1 + |url|, p, Append(c.log, Part(UrlText, url)))
  {
    hide Append, FitFor, FineRun, Reaches, Name, UrlRun, Turn;
    var p := c.p.(index := |Name(m)| + 1, state := SpacesBeforeUrl);
    assert AppendAll(c.log, []) == c.log;
    SpaceEndsMethod(cfg, c.p);
    PlainStep(cfg, c, SP, p, []);
    Reached(cfg, c, " ", 1, p, c.log);
    var d := FineRun(cfg, c, " ");
    if Running(d) {
      UrlWalk(cfg, d, url);
    }
    Then(cfg, c, " ", 1, p, c.log, url, |url|, p.(state := UrlRun(cfg.strict, Opening(m), url)), Append(c.log, Part(UrlText, url)));
  }

  /** The space between the URL and the version, and the rest of the line. */
  lemma SpaceAndVersion(cfg: Config, c: Cursor, ver: Version)
    requires Running(c) && Fit(c) && EndsUrl(c.p.state) && c.nread <= cfg.limit
    ensures Reaches(cfg, c, " " + VersionText(ver), 11, c.p.(major := ver.major, minor := ver.minor, state := FieldStart), c.log)
  {
    hide Append, FitFor, FineRun, Reaches, VersionText;
    var p := c.p.(state := HttpStart);
    assert AppendAll(c.log, []) == c.log;
    PlainStep(cfg, c, SP, p, []);
    Reached(cfg, c, " ", 1, p, c.log);
    var d := FineRun(cfg, c, " ");
    if Running(d) {
      VersionWalk(cfg, d, p, 0, ver);
      assert VersionText(ver)[0..] == VersionText(ver);
    }
    Then(cfg, c, " ", 1, p, c.log, VersionText(ver), 10, Versioned(p, 10, ver), c.log);
  }

  function RequestLine(m: Method, url: string, ver: Version := V11): string { Name(m) + (" " + url) + (" " + VersionText(ver)) }

  /** A printed request line is read as it was meant, at one header byte per character. */
  lemma RequestLineWalk(cfg: Config, c: Cursor, m: Method, url: string, ver: Version := V11)
    requires Running(c) && Fit(c) && c.p.state == StartReq && c.nread <= cfg.limit
    requires UrlReadable(cfg.strict, m, url)
    ensures Reaches(cfg, c, RequestLine(m, url, ver), |RequestLine(m, url, ver)|, Lined(c.p, m, ver),
              Append(Append(c.log, MessageBegin), Part(UrlText, url)))
  {
    hide Append, FitFor, FineRun, Reaches, Name, UrlRun, VersionText;
    var p, log := Named(c.p, m), Append(c.log, MessageBegin);
    NameWalk(cfg, c, m);
    Reached(cfg, c, Name(m), |Name(m)|, p, log);
    var d := FineRun(cfg, c, Name(m));
    var q := p.(index := |Name(m)| + 1, state := UrlRun(cfg.strict, Opening(m), url));
    var end := Append(log, Part(UrlText, url));
    if Running(d) {
      SpaceAndUrl(cfg, d, m, url);
    }
    Then(cfg, c, Name(m), |Name(m)|, p, log, " " + url, 1 + |url|, q, end);
    Reached(cfg, c, Name(m) + (" " + url), |Name(m)| + (1 + |url|), q, end);
    var e := FineRun(cfg, c, Name(m) + (" " + url));
    if Running(e) {
      SpaceAndVersion(cfg, e, ver);
    }
    Then(cfg, c, Name(m) + (" " + url), |Name(m)| + (1 + |url|), q, end, " " + VersionText(ver), 11, Lined(c.p, m, ver), end);
  }
}
