/**
 Which request lines and header names are refused: of all texts, the parser takes those that are made of a method, a
 URL and a version, and nothing else.
 */
module HttpRefusals {
  import opened Options
  import opened HttpChars
  import opened HttpParser
  import opened HttpStream
  import opened HttpFragments
  import opened HttpWalk
  import opened HttpHeaders
  import opened HttpRoundTrip
  import HttpExecute

  /** One byte within the header limit, and the others. */
  lemma OneByte(cfg: Config, c: Cursor, s: string) returns (d: Cursor)
    requires Running(c) && Fit(c) && s != "" && HttpExecute.Plain(c.p.state) && ParsingHeader(c.p.state) && c.nread + 1 <= cfg.limit
    requires !Turn(cfg, c.p, s[0], false).reset
    ensures (Running(d) ==> Fit(d)) && FineRun(cfg, c, s) == FineRun(cfg, d, s[1..])
    ensures var o := Turn(cfg, c.p, s[0], false);
      d.p == o.p && d.nread == c.nread + 1 && d.left == o.leave
  {
    hide Turn, Byte, FitFor, AppendAll;
    HttpExecute.PlainIs(cfg, Refreshed(c), s[0], true);
    d := Fine(cfg, c, s[0]);
  }

  // ---- Methods -----------------------------------------------------------------------------

  /** A correction leads to a name that begins like the guess it corrects. */
  lemma CorrectionsFit(m: Method, i: nat, ch: char)
    ensures Correct(m, i, ch).Some? ==> Fitting(m, i, ch, Correct(m, i, ch).value)
  {
    hide Fitting;
    match m {
      case POST => FromPost(i, ch);
      case MKCOL => FromMkcol(i, ch);
      case UNLOCK => FromUnlock(i, ch);
      case CONNECT => FromConnect(i, ch);
      case PROPFIND => FromPropfind(i, ch);
      case REPORT => FromReport(i, ch);
      case SUBSCRIBE => FromSubscribe(i, ch);
      case _ => FromOthers(m, i, ch);
    }
  }

  predicate Fitting(m: Method, i: nat, ch: char, x: Method) {
    i <= |Name(m)| && i < |Name(x)| && Name(x)[..i] == Name(m)[..i] && Name(x)[i] == ch
  }

  lemma FromPost(i: nat, ch: char)
    ensures Correct(POST, i, ch).Some? ==> Fitting(POST, i, ch, Correct(POST, i, ch).value)
  {
  }

  lemma FromMkcol(i: nat, ch: char)
    ensures Correct(MKCOL, i, ch).Some? ==> Fitting(MKCOL, i, ch, Correct(MKCOL, i, ch).value)
  {
  }

  lemma FromUnlock(i: nat, ch: char)
    ensures Correct(UNLOCK, i, ch).Some? ==> Fitting(UNLOCK, i, ch, Correct(UNLOCK, i, ch).value)
  {
  }

  lemma FromConnect(i: nat, ch: char)
    ensures Correct(CONNECT, i, ch).Some? ==> Fitting(CONNECT, i, ch, Correct(CONNECT, i, ch).value)
  {
  }

  lemma FromPropfind(i: nat, ch: char)
    ensures Correct(PROPFIND, i, ch).Some? ==> Fitting(PROPFIND, i, ch, Correct(PROPFIND, i, ch).value)
  {
  }

  lemma FromReport(i: nat, ch: char)
    ensures Correct(REPORT, i, ch).Some? ==> Fitting(REPORT, i, ch, Correct(REPORT, i, ch).value)
  {
  }

  lemma FromSubscribe(i: nat, ch: char)
    ensures Correct(SUBSCRIBE, i, ch).Some? ==> Fitting(SUBSCRIBE, i, ch, Correct(SUBSCRIBE, i, ch).value)
  {
  }

  lemma FromOthers(m: Method, i: nat, ch: char)
    requires m !in {POST, MKCOL, UNLOCK, CONNECT, PROPFIND, REPORT, SUBSCRIBE}
    ensures Correct(m, i, ch).Some? ==> Fitting(m, i, ch, Correct(m, i, ch).value)
  {
  }

  lemma GuessesFit(ch: char)
    ensures Guess(ch).Some? ==> Name(Guess(ch).value)[0] == ch
  {
  }

  /** `done` has been read: the guess begins with it, and is the one for every method that does. */
  ghost predicate GuessedSoFar(p: Parser, done: string) {
    && p.state == ReqMethod && done != "" && p.index == |done| && done <= Name(p.verb)
    && forall m | done <= Name(m) :: Guessed(m, |done|) == p.verb
  }

  lemma NamesExtend(m: Method, done: string, ch: char)
    ensures done + [ch] <= Name(m) <==> done <= Name(m) && |done| < |Name(m)| && Name(m)[|done|] == ch
  {
    hide Name;
  }

  lemma OtherLetter(p: Parser, done: string, ch: char)
    requires GuessedSoFar(p, done) && p.errno == Ok && ch != SP
    ensures var o := OnMethod(p, ch);
      && o == Out(o.p, [], false, false)
      && (o.p.errno == Ok ==> done + [ch] <= Name(o.p.verb) && o.p == p.(index := |done| + 1, verb := o.p.verb))
  {
    hide Name, Correct, Guessed;
    CorrectionsFit(p.verb, p.index, ch);
    var o := OnMethod(p, ch);
    NamesExtend(p.verb, done, ch);
    NamesExtend(o.p.verb, done, ch);
  }

  lemma AnyMethod(p: Parser, done: string, ch: char, m: Method)
    requires GuessedSoFar(p, done) && done + [ch] <= Name(m)
    ensures ch != SP && OnMethod(p, ch) == Out(p.(index := |done| + 1, verb := Guessed(m, |done| + 1)), [], false, false)
  {
    hide Name, Correct, Guessed;
    NamesExtend(m, done, ch);
    GuessGoesOn(m, |done|);
  }

  lemma MethodOn(p: Parser, done: string, ch: char)
    requires GuessedSoFar(p, done) && p.errno == Ok && ch != SP
    ensures var o := OnMethod(p, ch);
      && o == Out(o.p, [], false, false)
      && (o.p.errno == Ok ==> GuessedSoFar(o.p, done + [ch]))
      && (o.p.errno != Ok ==> forall m :: !(done + [ch] <= Name(m)))
  {
    hide Name, OnMethod, Guessed;
    OtherLetter(p, done, ch);
    forall m | done + [ch] <= Name(m) ensures OnMethod(p, ch) == Out(p.(index := |done| + 1, verb := Guessed(m, |done| + 1)), [], false, false) {
      AnyMethod(p, done, ch, m);
    }
  }

  lemma MethodEnd(cfg: Config, p: Parser, done: string)
    requires GuessedSoFar(p, done) && p.errno == Ok
    ensures var o := OnMethod(p, SP);
      && o == Out(o.p, [], false, false)
      && (o.p.errno == Ok ==> o.p == p.(index := |done| + 1, state := SpacesBeforeUrl) && Name(p.verb) == done)
      && (o.p.errno != Ok ==> forall m :: Name(m) != done)
      && forall m :: Name(m) == done ==> m == p.verb
  {
    forall m ensures Name(m) == done ==> m == p.verb {
      if Name(m) == done {
        GuessEnds(m);
      }
    }
    NoSpaceIn(p.verb, |done|);
    hide Name, Correct, Guessed;
  }

  lemma NoSpaceIn(m: Method, i: nat)
    requires i > 0
    ensures At(Name(m), i) != SP && (i < |Name(m)| ==> Name(m)[i] != NUL)
  {
    hide Name, Guessed, Correct;
    if i < |Name(m)| {
      GuessGoesOn(m, i);
    }
  }

  lemma NamesBegin(done: string, t: string)
    requires t != ""
    ensures forall m :: Name(m) == done + t ==> done + [t[0]] <= Name(m)
  {
    hide Name;
  }

  lemma {:induction false} MethodRest(cfg: Config, c: Cursor, done: string, t: string)
    requires Running(c) && Fit(c) && GuessedSoFar(c.p, done) && SP !in t && c.nread + |t| + 1 <= cfg.limit
    ensures var d := FineRun(cfg, c, t + " ");
      && (d.p.errno == Ok <==> exists m :: Name(m) == done + t)
      && (d.p.errno == Ok ==> forall m :: Name(m) == done + t ==> m == d.p.verb)
      && (d.p.errno == Ok ==> Running(d) && Fit(d) && d.p.state == SpacesBeforeUrl && Name(d.p.verb) == done + t && d.nread == c.nread + |t| + 1)
    decreases |t|
  {
    hide FitFor, FineRun, OnMethod, GuessedSoFar, Name, Byte;
    var s := t + " ";
    assert s != "" && c.p.state == ReqMethod by { InMethod(c.p, done); }
    if t == "" {
      assert s == [SP] && done + t == done;
      MethodEnd(cfg, c.p, done);
      var d := OneByte(cfg, c, s);
      OverflowStops(cfg, d, s[1..]);
      NothingMore(cfg, d, s[1..]);
    } else {
      assert s[0] == t[0] && s[1..] == t[1..] + " " && done + [t[0]] + t[1..] == done + t && t[0] in t;
      NamesBegin(done, t);
      MethodOn(c.p, done, t[0]);
      var d := OneByte(cfg, c, s);
      if d.p.errno == Ok {
        MethodRest(cfg, d, done + [t[0]], t[1..]);
      } else {
        OverflowStops(cfg, d, s[1..]);
      }
    }
  }

  lemma InMethod(p: Parser, done: string)
    requires GuessedSoFar(p, done)
    ensures p.state == ReqMethod
  {
  }

  lemma NothingMore(cfg: Config, c: Cursor, s: string)
    requires s == "" && (Running(c) ==> Fit(c))
    ensures FineRun(cfg, c, s) == c
  {
  }

  lemma MethodStart(p: Parser, ch: char)
    requires p.state == StartReq && p.errno == Ok && !IsBreak(ch)
    ensures var o := OnStart(p, ch);
      && !o.leave && !o.reset
      && (o.p.errno == Ok ==> GuessedSoFar(o.p, [ch]) && o.p.upgrade == p.upgrade)
      && (o.p.errno != Ok ==> forall m :: !([ch] <= Name(m)))
  {
    GuessesFit(ch);
    forall m ensures Guess(Name(m)[0]) == Some(Guessed(m, 1)) {
      GuessStarts(m);
    }
    hide Guess, Guessed, Name;
  }

  /** A text is taken for the method of a request exactly if it is the name of one, and then it is that method. */
  lemma MethodsTaken(cfg: Config, c: Cursor, t: string)
    requires Running(c) && Fit(c) && c.p.state == StartReq && c.nread + |t| + 1 <= cfg.limit
    requires t != "" && SP !in t && !IsBreak(t[0])
    ensures var d := FineRun(cfg, c, t + " ");
      && (d.p.errno == Ok <==> exists m :: Name(m) == t)
      && (d.p.errno == Ok ==> forall m :: Name(m) == t ==> m == d.p.verb)
      && (d.p.errno == Ok ==> Running(d) && Fit(d) && d.p.state == SpacesBeforeUrl && Name(d.p.verb) == t && d.nread == c.nread + |t| + 1)
  {
    hide FitFor, FineRun, OnStart, GuessedSoFar, Name, IsBreak;
    var s := t + " ";
    assert s[0] == t[0] && s[1..] == t[1..] + " " && [t[0]] + t[1..] == t;
    NamesBegin("", t);
    assert "" + t == t && "" + [t[0]] == [t[0]];
    MethodStart(c.p, t[0]);
    var d := OneByte(cfg, c, s);
    if d.p.errno == Ok {
      MethodRest(cfg, d, [t[0]], t[1..]);
    } else {
      OverflowStops(cfg, d, s[1..]);
    }
  }

  // ---- URLs --------------------------------------------------------------------------------

  predicate Unbroken(t: string) { forall i | 0 <= i < |t| :: t[i] != SP && !IsBreak(t[i]) }

  lemma UrlTurn(cfg: Config, p: Parser, ch: char)
    requires InUrl(p.state) && p.errno == Ok && ch != SP && !IsBreak(ch)
    ensures var o, s := Turn(cfg, p, ch, false), UrlChar(cfg.strict, Opened(p), ch);
      && !o.reset && !o.leave
      && (s == Dead ==> o.p.errno != Ok)
      && (s != Dead ==> o.p == p.(state := s) && InUrl(s) && s != SpacesBeforeUrl)
  {
    UrlCharStays(cfg.strict, Opened(p), ch);
    hide UrlChar;
  }

  lemma {:induction false} UrlRest(cfg: Config, c: Cursor, t: string)
    requires Running(c) && Fit(c) && InUrl(c.p.state) && Unbroken(t) && c.nread + |t| <= cfg.limit
    requires t != "" || c.p.state != SpacesBeforeUrl
    ensures var d, s := FineRun(cfg, c, t), UrlRun(cfg.strict, Opened(c.p), t);
      if s == Dead then d.p.errno != Ok
      else Running(d) && Fit(d) && d.p == c.p.(state := s) && d.nread == c.nread + |t| && InUrl(s)
    decreases |t|
  {
    hide FitFor, FineRun, UrlChar, Turn, IsBreak, Byte;
    if t == "" {
      NothingMore(cfg, c, t);
    } else {
      UrlTurn(cfg, c.p, t[0]);
      var d := OneByte(cfg, c, t);
      if d.p.errno == Ok {
        UrlRest(cfg, d, t[1..]);
      } else {
        OverflowStops(cfg, d, t[1..]);
        DeadStays(cfg.strict, t[1..]);
      }
    }
  }

  lemma UrlEndTurn(cfg: Config, p: Parser)
    requires InUrl(p.state) && p.state != SpacesBeforeUrl && p.errno == Ok
    ensures var o := Turn(cfg, p, SP, false);
      && !o.reset && !o.leave
      && (if EndsUrl(p.state) then o.p == p.(state := HttpStart) else o.p.errno != Ok)
  {
  }

  lemma {:induction false} BegunUrl(strict: bool, s: State, t: string)
    requires t != "" || s != SpacesBeforeUrl
    ensures UrlRun(strict, s, t) != SpacesBeforeUrl
    decreases |t|
  {
    hide UrlChar;
    if t != "" {
      UrlCharStays(strict, s, t[0]);
      if UrlChar(strict, s, t[0]) == Dead {
        DeadStays(strict, t[1..]);
      } else {
        BegunUrl(strict, UrlChar(strict, s, t[0]), t[1..]);
      }
    }
  }

  /** The URL and the space behind it are taken exactly if the URL is readable. */
  lemma UrlsTaken(cfg: Config, c: Cursor, url: string)
    requires Running(c) && Fit(c) && c.p.state == SpacesBeforeUrl && c.nread + |url| + 1 <= cfg.limit
    requires url != "" && Unbroken(url)
    ensures var d := FineRun(cfg, c, url + " ");
      && (d.p.errno == Ok <==> UrlReadable(cfg.strict, c.p.verb, url))
      && (d.p.errno == Ok ==> Running(d) && Fit(d) && d.p == c.p.(state := HttpStart) && d.nread == c.nread + |url| + 1)
  {
    hide FitFor, FineRun, UrlRun, Turn, Byte, Unbroken;
    UrlRest(cfg, c, url);
    FineRunConcat(cfg, c, url, " ");
    var d := FineRun(cfg, c, url);
    if d.p.errno == Ok {
      BegunUrl(cfg.strict, Opened(c.p), url);
      UrlEndTurn(cfg, d.p);
      var e := OneByte(cfg, d, " ");
      NothingMore(cfg, e, " "[1..]);
    } else {
      OverflowStops(cfg, d, " ");
    }
  }

  // ---- Versions ----------------------------------------------------------------------------

  /** "HTTP/", a digit, a point and a digit; unless the mode is strict, any characters for "TTP/". */
  predicate IsVersion(strict: bool, v: string) {
    && |v| == 8 && v[0] == 'H' && (strict ==> v[..5] == "HTTP/") && IsNum(v[5]) && v[6] == '.' && IsNum(v[7])
  }

  function Place(i: nat): State
    requires i <= 10
  {
    match i
    case 0 => HttpStart case 1 => HttpH case 2 => HttpHT case 3 => HttpHTT case 4 => HttpHTTP case 5 => HttpMajor
    case 6 => HttpDot case 7 => HttpMinor case 8 => HttpEnd case 9 => LineAlmostDone case _ => FieldStart
  }

  /** The character that may stand at place i. */
  predicate Fits(strict: bool, i: nat, ch: char) {
    match i
    case 0 => ch == 'H' case 1 => strict ==> ch == 'T' case 2 => strict ==> ch == 'T' case 3 => strict ==> ch == 'P'
    case 4 => strict ==> ch == '/' case 5 => IsNum(ch) case 6 => ch == '.' case 7 => IsNum(ch) case 8 => ch == CR
    case 9 => ch == LF case _ => false
  }

  lemma LetterTurn(cfg: Config, p: Parser, i: nat, ch: char)
    requires i < 5 && p.state == Place(i) && p.errno == Ok && ch != SP && (i == 8 ==> ch != LF)
    ensures var o := Turn(cfg, p, ch, false);
      && !o.reset && !o.leave
      && (if Fits(cfg.strict, i, ch) then o.p.errno == Ok && o.p.state == Place(i + 1) && o.p.verb == p.verb && o.p.upgrade == p.upgrade
          else o.p.errno != Ok)
  {
  }

  lemma FigureTurn(cfg: Config, p: Parser, i: nat, ch: char)
    requires 5 <= i < 10 && p.state == Place(i) && p.errno == Ok && ch != SP && (i == 8 ==> ch != LF)
    ensures var o := Turn(cfg, p, ch, false);
      && !o.reset && !o.leave
      && (if Fits(cfg.strict, i, ch) then o.p.errno == Ok && o.p.state == Place(i + 1) && o.p.verb == p.verb && o.p.upgrade == p.upgrade
          else o.p.errno != Ok)
  {
  }

  lemma VersionTurn(cfg: Config, p: Parser, i: nat, ch: char)
    requires i < 10 && p.state == Place(i) && p.errno == Ok && ch != SP && (i == 8 ==> ch != LF)
    ensures var o := Turn(cfg, p, ch, false);
      && !o.reset && !o.leave
      && (if Fits(cfg.strict, i, ch) then o.p.errno == Ok && o.p.state == Place(i + 1) && o.p.verb == p.verb && o.p.upgrade == p.upgrade
          else o.p.errno != Ok)
  {
    hide Turn, Fits, Place;
    if i < 5 { LetterTurn(cfg, p, i, ch); } else { FigureTurn(cfg, p, i, ch); }
  }

  lemma PlacesAre(i: nat)
    requires i <= 10
    ensures HttpExecute.Plain(Place(i)) && ParsingHeader(Place(i)) && (Place(i) == FieldStart <==> i == 10)
  {
  }

  /** A text without spaces that ends with its only line break. */
  predicate EndsInBreak(w: string) {
    && |w| >= 2 && w[|w| - 2] == CR && w[|w| - 1] == LF && SP !in w
    && forall k | 0 <= k < |w| - 1 :: w[k] != LF
  }

  predicate FitsUpTo(strict: bool, w: string, i: nat) { i <= |w| && forall k | 0 <= k < i :: Fits(strict, k, w[k]) }

  lemma OneMoreFits(strict: bool, w: string, i: nat)
    requires i < |w| && FitsUpTo(strict, w, i)
    ensures FitsUpTo(strict, w, i + 1) <==> Fits(strict, i, w[i])
    ensures FitsUpTo(strict, w, |w|) ==> Fits(strict, i, w[i])
  {
    hide Fits;
  }

  lemma EndsThere(strict: bool, w: string)
    requires EndsInBreak(w) && FitsUpTo(strict, w, 10)
    ensures |w| == 10
  {
    assert Fits(strict, 9, w[9]);
  }

  lemma NotYet(strict: bool, w: string, i: nat)
    requires i < |w| && EndsInBreak(w) && FitsUpTo(strict, w, i)
    ensures w[i] != SP && (i == 8 ==> w[i] != LF)
  {
    assert w[i] in w;
    if i == 8 {
      assert IsNum(w[7]) by {
        assert Fits(strict, 7, w[7]);
      }
    }
  }

  lemma {:induction false} VersionRest(cfg: Config, c: Cursor, w: string, i: nat)
    requires i <= 10 && Running(c) && Fit(c) && c.p.state == Place(i) && c.nread + |w| - i <= cfg.limit
    requires EndsInBreak(w) && FitsUpTo(cfg.strict, w, i)
    ensures var d := FineRun(cfg, c, w[i..]);
      && (d.p.errno == Ok && d.p.state == FieldStart <==> |w| == 10 && FitsUpTo(cfg.strict, w, |w|))
      && (d.p.errno == Ok && d.p.state == FieldStart ==> Running(d) && Fit(d) && d.p.verb == c.p.verb && d.nread == c.nread + |w| - i)
    decreases |w| - i
  {
    hide FitFor, FineRun, Turn, Byte, EndsInBreak, Fits, Place;
    PlacesAre(i);
    if i == 10 {
      EndsThere(cfg.strict, w);
    }
    if i == |w| {
      NothingMore(cfg, c, w[i..]);
    } else {
      assert w[i..][0] == w[i] && w[i..][1..] == w[i + 1..];
      NotYet(cfg.strict, w, i);
      OneMoreFits(cfg.strict, w, i);
      hide FitsUpTo;
      VersionTurn(cfg, c.p, i, w[i]);
      var d := OneByte(cfg, c, w[i..]);
      if d.p.errno == Ok {
        VersionRest(cfg, d, w, i + 1);
      } else {
        OverflowStops(cfg, d, w[i + 1..]);
      }
    }
  }

  lemma VersionMeans(strict: bool, v: string)
    requires Unbroken(v)
    ensures var w := v + CRLF;
      EndsInBreak(w) && ((|w| == 10 && FitsUpTo(strict, w, |w|)) <==> IsVersion(strict, v))
  {
    var w := v + CRLF;
    assert forall k | 0 <= k < |v| :: w[k] == v[k];
    if |v| == 8 {
      assert forall k | 0 <= k < 8 :: w[k] == v[k];
      assert w[8] == CR && w[9] == LF;
      assert v[..5] == [v[0], v[1], v[2], v[3], v[4]];
      if IsVersion(strict, v) {
        forall k | 0 <= k < |w| ensures Fits(strict, k, w[k]) {
          assert strict ==> "HTTP/"[1] == v[1] && "HTTP/"[2] == v[2] && "HTTP/"[3] == v[3] && "HTTP/"[4] == v[4];
        }
      }
      if FitsUpTo(strict, w, |w|) {
        assert Fits(strict, 0, w[0]) && Fits(strict, 1, w[1]) && Fits(strict, 2, w[2]) && Fits(strict, 3, w[3]) && Fits(strict, 4, w[4]);
        assert Fits(strict, 5, w[5]) && Fits(strict, 6, w[6]) && Fits(strict, 7, w[7]);
      }
    }
  }

  /** What follows the URL ends the request line exactly if it is a version. */
  lemma VersionsTaken(cfg: Config, c: Cursor, v: string)
    requires Running(c) && Fit(c) && c.p.state == HttpStart && c.nread + |v| + 2 <= cfg.limit && Unbroken(v)
    ensures var d := FineRun(cfg, c, v + CRLF);
      && (d.p.errno == Ok && d.p.state == FieldStart <==> IsVersion(cfg.strict, v))
      && (d.p.errno == Ok && d.p.state == FieldStart ==> Running(d) && d.p.verb == c.p.verb && d.nread == c.nread + |v| + 2)
  {
    var w := v + CRLF;
    assert w[0..] == w && forall k | 0 <= k < |v| :: w[k] == v[k];
    VersionMeans(cfg.strict, v);
    hide FitFor, FineRun, IsVersion, Fits, EndsInBreak;
    VersionRest(cfg, c, w, 0);
  }

  // ---- The whole line ----------------------------------------------------------------------

  lemma RestOfLine(cfg: Config, c: Cursor, url: string, v: string)
    requires Running(c) && Fit(c) && c.p.state == SpacesBeforeUrl && c.nread + |url| + |v| + 3 <= cfg.limit
    requires url != "" && Unbroken(url) && Unbroken(v)
    ensures var d := FineRun(cfg, c, (url + " ") + (v + CRLF));
      (d.p.errno == Ok && d.p.state == FieldStart) <==> (UrlReadable(cfg.strict, c.p.verb, url) && IsVersion(cfg.strict, v))
  {
    hide FineRun, FitFor, UrlReadable, IsVersion, Unbroken;
    var last := v + CRLF;
    UrlsTaken(cfg, c, url);
    FineRunConcat(cfg, c, url + " ", last);
    var d := FineRun(cfg, c, url + " ");
    OverflowStops(cfg, d, last);
    if d.p.errno == Ok {
      VersionsTaken(cfg, d, v);
    }
  }

  /** Three words make a request line exactly if they are the name of a method, a URL that it may carry, and a version. */
  lemma RequestLineTaken(cfg: Config, c: Cursor, t: string, url: string, v: string)
    requires Running(c) && Fit(c) && c.p.state == StartReq && c.nread + |t| + |url| + |v| + 4 <= cfg.limit
    requires t != "" && Unbroken(t) && url != "" && Unbroken(url) && Unbroken(v)
    ensures var d := FineRun(cfg, c, (t + " ") + ((url + " ") + (v + CRLF)));
      (d.p.errno == Ok && d.p.state == FieldStart) <==>
        ((exists m :: Name(m) == t && UrlReadable(cfg.strict, m, url)) && IsVersion(cfg.strict, v))
  {
    hide FineRun, FitFor, UrlReadable, IsVersion, Name;
    assert SP !in t && !IsBreak(t[0]);
    hide Unbroken, IsBreak;
    var rest := (url + " ") + (v + CRLF);
    MethodsTaken(cfg, c, t);
    FineRunConcat(cfg, c, t + " ", rest);
    var d := FineRun(cfg, c, t + " ");
    OverflowStops(cfg, d, rest);
    if d.p.errno == Ok {
      RestOfLine(cfg, d, url, v);
    }
  }

  // ---- Header names ------------------------------------------------------------------------

  lemma NameBegins(cfg: Config, p: Parser, ch: char)
    requires p.state == FieldStart && p.errno == Ok && !IsBreak(ch)
    ensures var o := Turn(cfg, p, ch, false);
      && !o.reset && !o.leave
      && (if Token(cfg.strict, ch) == NUL then o.p.errno != Ok else o.p.errno == Ok && o.p.state == Field)
  {
    hide StrictToken, FirstLetter;
  }

  lemma {:induction false} NameRest(cfg: Config, c: Cursor, t: string)
    requires Running(c) && Fit(c) && c.p.state == Field && ':' !in t && c.nread + 2 * |t| + 1 <= cfg.limit
    ensures var d := FineRun(cfg, c, t + ":");
      && (d.p.errno == Ok <==> forall i | 0 <= i < |t| :: Token(cfg.strict, t[i]) != NUL)
      && (d.p.errno == Ok ==> Running(d) && d.p.state == ValueDiscardWs)
    decreases |t|
  {
    hide FitFor, Byte, Turn, Token, NameStep;
    var s := t + ":";
    if t == "" {
      assert s == ":";
      ColonIsNoToken(cfg.strict);
      HttpExecute.NameByteEnd(cfg, Refreshed(c), ':', true);
      NothingMore(cfg, Fine(cfg, c, ':'), s[1..]);
    } else {
      assert s[0] == t[0] && s[1..] == t[1..] + ":" && t[0] in t;
      var d := NameByteTaken(cfg, c, s);
      if Token(cfg.strict, t[0]) == NUL {
        OverflowStops(cfg, d, s[1..]);
      } else {
        NameRest(cfg, d, t[1..]);
        assert t == [t[0]] + t[1..];
      }
    }
  }

  lemma NameByteTaken(cfg: Config, c: Cursor, s: string) returns (d: Cursor)
    requires Running(c) && Fit(c) && c.p.state == Field && s != "" && s[0] != ':' && c.nread + 2 <= cfg.limit
    ensures (Running(d) ==> Fit(d)) && FineRun(cfg, c, s) == FineRun(cfg, d, s[1..])
    ensures if Token(cfg.strict, s[0]) == NUL then d.p.errno != Ok else Running(d) && d.p.state == Field && d.nread == c.nread + 2
  {
    hide FitFor, Byte, Turn, Token, NameStep;
    d := Fine(cfg, c, s[0]);
    if Token(cfg.strict, s[0]) == NUL {
      HttpExecute.NameByteEnd(cfg, Refreshed(c), s[0], true);
    } else {
      var (hs, index) := NameStep(c.p.hs, c.p.index, Token(cfg.strict, s[0]), s[0]);
      HttpExecute.NameByte(cfg, c.p, s[0], false);
      HttpExecute.TextByte(cfg, Refreshed(c), s[0], true, c.p.(hs := hs, index := index), FieldText);
    }
  }

  lemma ColonIsNoToken(strict: bool)
    ensures Token(strict, ':') == NUL
  {
  }

  /** What stands before the colon at the start of a header line is taken exactly if it is made of token characters,
      and, unless the mode is strict, spaces. */
  lemma NamesTaken(cfg: Config, c: Cursor, name: string)
    requires Running(c) && Fit(c) && c.p.state == FieldStart && c.nread + 2 * |name| + 1 <= cfg.limit
    requires name != "" && ':' !in name && !IsBreak(name[0])
    ensures FineRun(cfg, c, name + ":").p.errno == Ok <==> forall i | 0 <= i < |name| :: Token(cfg.strict, name[i]) != NUL
  {
    hide FitFor, Byte, Turn, Token, FineRun, IsBreak;
    var s := name + ":";
    assert s[0] == name[0] && s[1..] == name[1..] + ":";
    NameBegins(cfg, c.p, name[0]);
    var d := OneByte(cfg, c, s);
    assert name == [name[0]] + name[1..];
    if d.p.errno == Ok {
      NameRest(cfg, d, name[1..]);
    } else {
      OverflowStops(cfg, d, s[1..]);
    }
  }
}
