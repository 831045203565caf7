/**
 What the parser concludes from header lines: the values it understands, their effect on the
 message, and the walk over whole lines.
 */
module HttpValues {
  import opened Options
  import opened HttpChars
  import opened HttpParser
  import opened HttpStream
  import opened HttpFragments
  import opened HttpWalk
  import opened HttpHeaders
  import opened HttpLengths
  import opened HttpConnection
  import HttpExecute

  /** "chunked", in any case, and spaces after it. */
  predicate NamesChunked(v: string) {
    |v| >= 7 && LoweredBits(v)[..7] == "chunked" && forall i | 7 <= i < |v| :: v[i] == SP
  }

  predicate IsConnection(low: string) { low == "connection" || low == "proxy-connection" }

  /** A header the parser takes. Of all headers it understands it only refuses lengths: one that is
      not made up of digits in range, and a second one. */
  predicate Acceptable(f: Flags, name: string, v: string) {
    v != "" && Lowered(name) == "content-length" ==>
      IsSpaced(v) && InRange(Squeezed(v), 10) && !f.contentLength
  }

  /** Its effect on the flags and the length. */
  function FlagsAfter(f: Flags, name: string, v: string): Flags {
    var low := Lowered(name);
    if v == "" then f
    else if low == "content-length" then f.(contentLength := true)
    else if IsConnection(low) then WithWords(f, Mentioned(v))
    else if low == "upgrade" then f.(upgrade := true)
    else if low == "transfer-encoding" && NamesChunked(v) then f.(chunked := true)
    else f
  }

  function LengthAfter(f: Flags, length: nat, name: string, v: string): nat
    requires Acceptable(f, name, v)
  {
    if v != "" && Lowered(name) == "content-length" then PlaceValue(Squeezed(v), 10) else length
  }

  // ---- One value ---------------------------------------------------------------------------

  /** Only what a value can change has changed. */
  predicate OnlyValue(p: Parser, q: Parser) {
    q.state == Value && q == p.(state := Value, flags := q.flags, hs := q.hs, index := q.index, length := q.length)
  }

  /** How far the word "chunked" has been matched in v. */
  function ChunkedClass(v: string): HeaderState {
    if |v| < 7 && LoweredBits(v) <= "chunked" then MatchingChunked
    else if NamesChunked(v) then Chunked else General
  }

  lemma ChunkedClassGrows(p: Parser, v: string, i: nat)
    requires 0 < i < |v| && p.hs == ChunkedClass(v[..i]) && (p.hs == MatchingChunked ==> p.index == i - 1)
    ensures var q := ValueStep(p, v[i]);
      && q.Some? && q.value == p.(hs := ChunkedClass(v[..i + 1]), index := q.value.index)
      && (q.value.hs == MatchingChunked ==> q.value.index == i)
  {
    var low, next := LoweredBits(v[..i]), LoweredBits(v[..i + 1]);
    assert next == low + [LowerBit(v[i])];
    PrefixGrows(low, LowerBit(v[i]), "chunked");
    assert v[..i + 1][..i] == v[..i];
    if i >= 7 {
      assert next[..7] == low[..7];
    } else if i == 6 {
      assert next[..7] == next;
    }
  }

  lemma {:induction false} ChunkedSteps(p: Parser, v: string, i: nat) returns (q: Parser)
    requires 0 < i <= |v| && p.hs == ChunkedClass(v[..i]) && (p.hs == MatchingChunked ==> p.index == i - 1)
    ensures ValueSteps(p, v[i..]) == Some(q) && q == p.(hs := ChunkedClass(v), index := q.index)
    decreases |v| - i
  {
    hide ValueStep, ChunkedClass;
    if i == |v| {
      q := p;
      assert v[..i] == v;
    } else {
      ChunkedClassGrows(p, v, i);
      assert v[i..][1..] == v[i + 1..];
      q := ChunkedSteps(ValueStep(p, v[i]).value, v, i + 1);
    }
  }

  lemma ChunkedStarts(v: string)
    requires v != ""
    ensures ChunkedClass(v[..1]) == if LowerBit(v[0]) == 'c' then MatchingChunked else General
  {
    var low := LoweredBits(v[..1]);
    assert low == "" + [LowerBit(v[0])];
    PrefixGrows("", LowerBit(v[0]), "chunked");
  }

  /** What the parser is after the value of an acceptable header. */
  lemma ValueEffect(p: Parser, name: string, v: string) returns (first: Parser, q: Parser)
    requires IsName(name) && v != "" && Acceptable(p.flags, name, v)
    requires p.state == ValueDiscardWs && p.errno == Ok && p.hs == NameClass(Lowered(name))
    ensures OnValueStart(p, v[0]) == Text(first, ValueText, v[0]) && first.errno == Ok && first.state == Value
    ensures ValueSteps(first, v[1..]) == Some(q) && OnlyValue(p, q)
    ensures FinishFlags(q) == FlagsAfter(p.flags, name, v)
    ensures q.length == LengthAfter(p.flags, p.length, name, v)
  {
    hide NameClass, LowerBit, PlaceValue, ValueSteps;
    RecognisedNames(Lowered(name));
    if p.hs == Connection {
      hide OnValueStart, FinishFlags, WithWords, Mentioned;
      first := ConnectionWalk(p, v);
      q := ValueSteps(first, v[1..]).value;
    } else {
      first, q := OtherEffect(p, name, v);
    }
  }

  lemma OtherEffect(p: Parser, name: string, v: string) returns (first: Parser, q: Parser)
    requires IsName(name) && v != "" && Acceptable(p.flags, name, v)
    requires p.state == ValueDiscardWs && p.errno == Ok && p.hs == NameClass(Lowered(name)) && p.hs != Connection
    ensures OnValueStart(p, v[0]) == Text(first, ValueText, v[0]) && first.errno == Ok && first.state == Value
    ensures ValueSteps(first, v[1..]) == Some(q) && OnlyValue(p, q)
    ensures FinishFlags(q) == FlagsAfter(p.flags, name, v)
    ensures q.length == LengthAfter(p.flags, p.length, name, v)
  {
    hide NameClass, LowerBit, PlaceValue, ValueSteps;
    RecognisedNames(Lowered(name));
    first := OnValueStart(p, v[0]).p;
    if p.hs == ContentLength {
      LengthsTaken(p, v);
      q := ValueSteps(first, v[1..]).value;
    } else if p.hs == TransferEncoding {
      ChunkedStarts(v);
      q := ChunkedSteps(first, v, 1);
    } else {
      NeverRecognised(Lowered(name));
      OrdinarySteps(first, v[1..]);
      q := first;
    }
  }

  /** A name never stands for one of the states of a value. */
  lemma NeverRecognised(low: string)
    ensures NameClass(low) !in {TokenStart, KeepAlive, Close, ConnUpgrade, Chunked}
  {
  }

  // ---- One line ----------------------------------------------------------------------------

  predicate NoBreaks(v: string) { forall i | 0 <= i < |v| :: !IsBreak(v[i]) }

  /** A header that is printed on one line: a value does not begin with a blank and holds no line break. */
  predicate Legible(name: string, v: string) { IsName(name) && (v != "" ==> !IsBlank(v[0])) && NoBreaks(v) }

  /** Only the first character of the value may be a control character. */
  predicate Clear(lenient: bool, v: string) { v != "" ==> IsPlainText(lenient, v[1..]) }

  function Line(name: string, v: string): string { name + ": " + (v + CRLF) }

  /** In fragments of one byte, all but the first character of a name and of a value count twice. */
  function LineCost(name: string, v: string): int { |Line(name, v)| + |name| - 1 + (if v == "" then 0 else |v| - 1) }

  function LineLog(log: Log, name: string, v: string): Log {
    Append(Append(log, Part(FieldText, name)), Part(ValueText, v))
  }

  /** The parser between two lines, with what the lines so far have settled. */
  predicate Settled(p: Parser, f: Flags, length: nat, m: Method, ver: Version := V11) {
    BetweenLines(p.state) && SettledFlags(p) == f && p.length == length && p.verb == m && p.major == ver.major && p.minor == ver.minor
    && !p.upgrade
  }

  lemma NameAndBlank(cfg: Config, c: Cursor, name: string) returns (p: Parser)
    requires Running(c) && Fit(c) && BetweenLines(c.p.state) && c.nread <= cfg.limit && IsName(name)
    ensures p == c.p.(flags := SettledFlags(c.p), state := ValueDiscardWs, hs := NameClass(Lowered(name)), index := p.index)
    ensures Reaches(cfg, c, name + ": ", 2 * |name| + 1, p, Append(SettledLog(c.p, c.log), Part(FieldText, name)))
  {
    hide Append, FitFor, FineRun, NameClass, Reaches, FinishFlags, SettledLog;
    var q := WholeNameWalk(cfg, c, name);
    var log := Append(SettledLog(c.p, c.log), Part(FieldText, name));
    p := q.(state := ValueDiscardWs);
    Reached(cfg, c, name, 2 * |name| - 1, q, log);
    var d := FineRun(cfg, c, name);
    if Running(d) {
      SeparatorWalk(cfg, d);
    }
    Then(cfg, c, name, 2 * |name| - 1, q, log, ": ", 2, p, log);
  }

  lemma EmptyAndBreak(cfg: Config, c: Cursor, name: string, v: string, f: Flags, length: nat, m: Method, ver: Version := V11) returns (p: Parser)
    requires Running(c) && Fit(c) && c.nread <= cfg.limit && Legible(name, v) && Clear(cfg.lenient, v) && Acceptable(f, name, v)
    requires c.p.state == ValueDiscardWs && c.p.hs == NameClass(Lowered(name))
    requires c.p.flags == f && c.p.length == length && c.p.verb == m && c.p.major == ver.major && c.p.minor == ver.minor && !c.p.upgrade
    requires v == ""
    ensures Settled(p, FlagsAfter(f, name, v), LengthAfter(f, length, name, v), m, ver) && p.errno == Ok && p.state == ValueDiscardLws
    ensures Reaches(cfg, c, v + CRLF, 2, p, c.log)
  {
    hide FitFor, FineRun, NameClass, Reaches, Acceptable, Lowered, FlagsAfter, LengthAfter, FinishFlags;
    assert v + CRLF == CRLF;
    NeverRecognised(Lowered(name));
    CrlfWalk(cfg, c);
    p := c.p.(state := ValueDiscardLws);
    EmptyValue(c.p, name, v);
  }

  lemma BreakFollows(cfg: Config, c: Cursor, v: string, cost: nat, q: Parser, log: Log)
    requires Running(c) && Fit(c) && c.nread <= cfg.limit && Reaches(cfg, c, v, cost, q, log) && q.state == Value
    ensures Reaches(cfg, c, v + CRLF, cost + 2, q.(state := ValueLws), log)
  {
    hide FitFor, FineRun, Reaches;
    Reached(cfg, c, v, cost, q, log);
    var d := FineRun(cfg, c, v);
    if Running(d) {
      CrlfWalk(cfg, d);
    }
    Then(cfg, c, v, cost, q, log, CRLF, 2, q.(state := ValueLws), log);
  }

  /** A value and its line break. */
  lemma ValueAndBreak(cfg: Config, c: Cursor, name: string, v: string, f: Flags, length: nat, m: Method, ver: Version := V11) returns (p: Parser)
    requires Running(c) && Fit(c) && c.nread <= cfg.limit && Legible(name, v) && Clear(cfg.lenient, v) && Acceptable(f, name, v)
    requires c.p.state == ValueDiscardWs && c.p.hs == NameClass(Lowered(name))
    requires c.p.flags == f && c.p.length == length && c.p.verb == m && c.p.major == ver.major && c.p.minor == ver.minor && !c.p.upgrade
    ensures Settled(p, FlagsAfter(f, name, v), LengthAfter(f, length, name, v), m, ver) && p.errno == Ok
    ensures p.state == if v == "" then ValueDiscardLws else ValueLws
    ensures Reaches(cfg, c, v + CRLF, 2 + (if v == "" then 0 else 2 * |v| - 1), p,
              if v == "" then c.log else Append(c.log, Part(ValueText, v)))
  {
    hide Lowered, Append, FitFor, FineRun, NameClass, Reaches, Acceptable, IsPlainText, OnValueStart, ValueSteps, FlagsAfter, LengthAfter, FinishFlags;
    if v == "" {
      p := EmptyAndBreak(cfg, c, name, v, f, length, m, ver);
    } else {
      var first, q := ValueEffect(c.p, name, v);
      ValueWalk(cfg, c, v, first, q);
      p := q.(state := ValueLws);
      FinishIgnoresState(q, ValueLws);
      hide Legible, Clear, Fit;
      BreakFollows(cfg, c, v, 2 * |v| - 1, q, Append(c.log, Part(ValueText, v)));
    }
  }

  lemma FinishIgnoresState(p: Parser, s: State)
    ensures FinishFlags(p.(state := s)) == FinishFlags(p)
  {
  }

  lemma EmptyValue(p: Parser, name: string, v: string)
    requires p.hs !in {KeepAlive, Close, ConnUpgrade, Chunked} && v == "" && Acceptable(p.flags, name, v)
    ensures FinishFlags(p.(state := ValueDiscardLws)) == p.flags == FlagsAfter(p.flags, name, v)
    ensures LengthAfter(p.flags, p.length, name, v) == p.length
  {
  }

  lemma LineWalk(cfg: Config, c: Cursor, name: string, v: string, f: Flags, length: nat, m: Method, ver: Version := V11) returns (p: Parser, log: Log)
    requires Running(c) && Fit(c) && c.nread <= cfg.limit && Legible(name, v) && Clear(cfg.lenient, v) && Acceptable(f, name, v)
    requires Settled(c.p, f, length, m, ver)
    ensures Settled(p, FlagsAfter(f, name, v), LengthAfter(f, length, name, v), m, ver) && p.errno == Ok
    ensures SettledLog(p, log) == LineLog(SettledLog(c.p, c.log), name, v)
    ensures LineCost(name, v) >= 0 && Reaches(cfg, c, Line(name, v), LineCost(name, v), p, log)
  {
    hide Append, FitFor, FineRun, NameClass, Reaches, Acceptable, FinishFlags, NoBreaks, Clear, FlagsAfter, LengthAfter;
    var q := NameAndBlank(cfg, c, name);
    var one := Append(SettledLog(c.p, c.log), Part(FieldText, name));
    Reached(cfg, c, name + ": ", 2 * |name| + 1, q, one);
    log := if v == "" then one else Append(one, Part(ValueText, v));
    var d := FineRun(cfg, c, name + ": ");
    var cost := 2 + if v == "" then 0 else 2 * |v| - 1;
    if Running(d) {
      p := ValueAndBreak(cfg, d, name, v, f, length, m, ver);
    } else {
      p := Unreached(f, length, m, name, v, ver);
    }
    Then(cfg, c, name + ": ", 2 * |name| + 1, q, one, v + CRLF, cost, p, log);
  }

  /** Any parser will do where the header limit stops the walk. */
  lemma Unreached(f: Flags, length: nat, m: Method, name: string, v: string, ver: Version := V11) returns (p: Parser)
    requires Acceptable(f, name, v)
    ensures Settled(p, FlagsAfter(f, name, v), LengthAfter(f, length, name, v), m, ver) && p.errno == Ok
    ensures p.state == if v == "" then ValueDiscardLws else ValueLws
  {
    p := FRESH.(flags := FlagsAfter(f, name, v), length := LengthAfter(f, length, name, v), verb := m, major := ver.major, minor := ver.minor,
                state := if v == "" then ValueDiscardLws else ValueLws);
  }

  // ---- Control characters ------------------------------------------------------------------

  /** At the start of a fragment a control character in a value is refused. */
  lemma RefusedStep(cfg: Config, c: Cursor, ch: char)
    requires Running(c) && Fit(c) && c.p.state == Value && !cfg.lenient && !IsHeaderChar(ch) && !IsBreak(ch)
    ensures Fine(cfg, c, ch).p.errno != Ok
  {
    hide Turn, FitFor, AppendAll;
    HttpExecute.ValueByte(cfg, c.p, ch);
  }

  lemma ValueStays(cfg: Config, c: Cursor, ch: char)
    requires Running(c) && Fit(c) && c.p.state == Value && !IsBreak(ch)
    ensures var d := Fine(cfg, c, ch); d.p.errno == Ok ==> Running(d) && d.p.state == Value
  {
    hide Turn, FitFor, AppendAll, ValueStep, IsHeaderChar;
    HttpExecute.ValueByte(cfg, c.p, ch);
    HttpExecute.ValueStepKeeps(c.p, ch);
  }

  lemma ValueBegins(cfg: Config, c: Cursor, ch: char)
    requires Running(c) && Fit(c) && c.p.state == ValueDiscardWs && !IsBlank(ch) && !IsBreak(ch)
    ensures var d := Fine(cfg, c, ch); d.p.errno == Ok ==> Running(d) && d.p.state == Value
  {
    hide Turn, FitFor, AppendAll, Byte;
    HttpExecute.PlainIs(cfg, Refreshed(c), ch, true);
    BeginTurn(cfg, c.p, ch);
  }

  lemma BeginTurn(cfg: Config, p: Parser, ch: char)
    requires p.state == ValueDiscardWs && !IsBlank(ch) && !IsBreak(ch)
    ensures var o := Turn(cfg, p, ch, false); o.p.errno == Ok ==> o.p.state == Value && !o.leave
  {
    hide LowerBit;
  }

  lemma {:induction false} BadTail(cfg: Config, c: Cursor, v: string)
    requires Running(c) && Fit(c) && c.p.state == Value && NoBreaks(v) && !IsPlainText(cfg.lenient, v)
    ensures FineRun(cfg, c, v).p.errno != Ok
    decreases |v|
  {
    hide Fine, IsHeaderChar;
    var d := Fine(cfg, c, v[0]);
    assert FineRun(cfg, c, v) == FineRun(cfg, d, v[1..]);
    OverflowStops(cfg, d, v[1..]);
    if !cfg.lenient && !IsHeaderChar(v[0]) {
      RefusedStep(cfg, c, v[0]);
    } else if d.p.errno == Ok {
      ValueStays(cfg, c, v[0]);
      assert forall i | 0 <= i < |v[1..]| :: v[1..][i] == v[i + 1];
      BadTail(cfg, d, v[1..]);
    }
  }

  lemma BadValue(cfg: Config, c: Cursor, v: string)
    requires Running(c) && Fit(c) && c.p.state == ValueDiscardWs && NoBreaks(v)
    requires v != "" && !IsBlank(v[0]) && !Clear(cfg.lenient, v)
    ensures FineRun(cfg, c, v).p.errno != Ok
  {
    hide Fine, IsPlainText;
    var d := Fine(cfg, c, v[0]);
    assert FineRun(cfg, c, v) == FineRun(cfg, d, v[1..]);
    OverflowStops(cfg, d, v[1..]);
    ValueBegins(cfg, c, v[0]);
    if d.p.errno == Ok {
      BadTail(cfg, d, v[1..]);
    }
  }

  /** One byte per fragment, a line with a control character after the first character of its value is refused. */
  lemma BadLine(cfg: Config, c: Cursor, name: string, v: string)
    requires Running(c) && Fit(c) && BetweenLines(c.p.state) && c.nread <= cfg.limit
    requires Legible(name, v) && !Clear(cfg.lenient, v)
    ensures FineRun(cfg, c, Line(name, v)).p.errno != Ok
  {
    hide Append, FitFor, FineRun, NameClass, NoBreaks, IsPlainText;
    var p := NameAndBlank(cfg, c, name);
    var d := FineRun(cfg, c, name + ": ");
    FineRunConcat(cfg, c, name + ": ", v + CRLF);
    if Running(d) {
      FineRunConcat(cfg, d, v, CRLF);
      BadValue(cfg, d, v);
      OverflowStops(cfg, FineRun(cfg, d, v), CRLF);
    } else {
      OverflowStops(cfg, d, v + CRLF);
    }
  }

  // ---- Lengths that are refused ------------------------------------------------------------

  /** A value that stops making sense is refused. */
  lemma {:induction false} SenselessTail(cfg: Config, c: Cursor, v: string)
    requires Running(c) && Fit(c) && c.p.state == Value && NoBreaks(v) && ValueSteps(c.p, v).None?
    ensures FineRun(cfg, c, v).p.errno != Ok
    decreases |v|
  {
    hide Byte, FitFor, ValueStep, IsHeaderChar, Turn, Append;
    var d := Fine(cfg, c, v[0]);
    assert FineRun(cfg, c, v) == FineRun(cfg, d, v[1..]);
    OverflowStops(cfg, d, v[1..]);
    HttpExecute.ValueByte(cfg, c.p, v[0]);
    HttpExecute.ValueStepKeeps(c.p, v[0]);
    if !cfg.lenient && !IsHeaderChar(v[0]) {
      RefusedStep(cfg, c, v[0]);
    } else if ValueStep(c.p, v[0]).None? {
      SenselessStep(cfg, c, v[0]);
    } else if d.p.errno == Ok {
      HttpExecute.TextByte(cfg, Refreshed(c), v[0], true, ValueStep(c.p, v[0]).value, ValueText);
      assert forall i | 0 <= i < |v[1..]| :: v[1..][i] == v[i + 1];
      SenselessTail(cfg, d, v[1..]);
    }
  }

  lemma SenselessStep(cfg: Config, c: Cursor, ch: char)
    requires Running(c) && Fit(c) && c.p.state == Value && !IsBreak(ch) && ValueStep(c.p, ch).None?
    ensures Fine(cfg, c, ch).p.errno != Ok
  {
    hide Turn, FitFor, AppendAll, ValueStep, IsHeaderChar;
    HttpExecute.ValueByte(cfg, c.p, ch);
  }

  /** A value of a length that is not acceptable is not taken. */
  lemma SenselessValue(cfg: Config, c: Cursor, v: string)
    requires Running(c) && Fit(c) && c.p.state == ValueDiscardWs && c.p.hs == ContentLength && NoBreaks(v)
    requires v != "" && !IsBlank(v[0]) && !(IsSpaced(v) && InRange(Squeezed(v), 10) && !c.p.flags.contentLength)
    ensures FineRun(cfg, c, v).p.errno != Ok
  {
    hide Byte, FitFor, PlaceValue, InRange, ValueSteps, Squeezed, Turn;
    var d := Fine(cfg, c, v[0]);
    assert FineRun(cfg, c, v) == FineRun(cfg, d, v[1..]);
    OverflowStops(cfg, d, v[1..]);
    HttpExecute.PlainIs(cfg, Refreshed(c), v[0], true);
    LengthTurn(cfg, c.p, v[0]);
    if d.p.errno == Ok {
      LengthsTaken(c.p, v);
      assert forall i | 0 <= i < |v[1..]| :: v[1..][i] == v[i + 1];
      SenselessTail(cfg, d, v[1..]);
    }
  }

  lemma LengthTurn(cfg: Config, p: Parser, ch: char)
    requires p.state == ValueDiscardWs && p.hs == ContentLength && p.errno == Ok && !IsBlank(ch) && !IsBreak(ch)
    ensures var o := Turn(cfg, p, ch, false);
      && o == OnValueStart(p, ch) && (p.flags.contentLength ==> o.p.errno != Ok)
      && (o.p.errno == Ok ==> o.p.state == Value && !o.leave)
  {
  }

  /** One byte per fragment, a line with a length that makes no sense, or is the second one, is refused. */
  lemma UnacceptableLine(cfg: Config, c: Cursor, name: string, v: string)
    requires Running(c) && Fit(c) && BetweenLines(c.p.state) && c.nread <= cfg.limit
    requires Legible(name, v) && !Acceptable(SettledFlags(c.p), name, v)
    ensures FineRun(cfg, c, Line(name, v)).p.errno != Ok
  {
    hide Append, FitFor, FineRun, NameClass, NoBreaks, IsPlainText, PlaceValue, InRange, Squeezed, IsSpaced;
    var p := NameAndBlank(cfg, c, name);
    RecognisedNames(Lowered(name));
    var d := FineRun(cfg, c, name + ": ");
    FineRunConcat(cfg, c, name + ": ", v + CRLF);
    if Running(d) {
      FineRunConcat(cfg, d, v, CRLF);
      SenselessValue(cfg, d, v);
      OverflowStops(cfg, FineRun(cfg, d, v), CRLF);
    } else {
      OverflowStops(cfg, d, v + CRLF);
    }
  }

  // ---- Folded lines ------------------------------------------------------------------------

  lemma ContinuationStep(cfg: Config, c: Cursor, ch: char)
    requires Running(c) && Fit(c) && c.p.state == ValueLws && c.p.hs == General && IsBlank(ch)
    ensures Reaches(cfg, c, [ch], 1, c.p.(state := Value, index := 0), Append(c.log, Part(ValueText, [ch])))
  {
    hide FitFor, FineRun, Append;
    HttpExecute.OneEvent(c.log, Part(ValueText, [ch]));
    PlainStep(cfg, c, ch, c.p.(state := Value, index := 0), [Part(ValueText, [ch])]);
  }

  /** A line that begins with a blank goes on with the value of the line before. */
  lemma ContinuationWalk(cfg: Config, c: Cursor, w: string)
    requires Running(c) && Fit(c) && c.p.state == ValueLws && c.p.hs == General && c.nread <= cfg.limit
    requires w != "" && IsBlank(w[0]) && IsPlainText(cfg.lenient, w[1..])
    ensures Reaches(cfg, c, w, 2 * |w| - 1, c.p.(state := Value, index := 0), Append(c.log, Part(ValueText, w)))
  {
    hide Append, FitFor, FineRun, Reaches, IsPlainText;
    var p, log := c.p.(state := Value, index := 0), Append(c.log, Part(ValueText, [w[0]]));
    ContinuationStep(cfg, c, w[0]);
    if |w| == 1 {
      assert w == [w[0]];
    } else {
      Reached(cfg, c, [w[0]], 1, p, log);
      AppendMerges(c.log, ValueText, [w[0]], w[1..]);
      assert w == [w[0]] + w[1..];
      var d := FineRun(cfg, c, [w[0]]);
      if Running(d) {
        OrdinarySteps(d.p, w[1..]);
        ValueRest(cfg, d, w[1..], p);
      }
      Then(cfg, c, [w[0]], 1, p, log, w[1..], 2 * (|w| - 1), p, Append(c.log, Part(ValueText, w)));
    }
  }

  lemma OrdinaryStart(p: Parser, ch: char)
    requires p.hs == General && p.errno == Ok
    ensures OnValueStart(p, ch) == Text(p.(state := Value, index := 0), ValueText, ch)
  {
  }

  /** An ordinary value and its line break. */
  lemma OrdinaryAndBreak(cfg: Config, c: Cursor, v: string)
    requires Running(c) && Fit(c) && c.p.state == ValueDiscardWs && c.p.hs == General && c.nread <= cfg.limit
    requires v != "" && !IsBlank(v[0]) && !IsBreak(v[0]) && IsPlainText(cfg.lenient, v[1..])
    ensures Reaches(cfg, c, v + CRLF, 2 * |v| + 1, c.p.(state := ValueLws, index := 0), Append(c.log, Part(ValueText, v)))
  {
    hide Append, FitFor, FineRun, Reaches, IsPlainText, OnValueStart, ValueSteps;
    var q := c.p.(state := Value, index := 0);
    OrdinaryStart(c.p, v[0]);
    OrdinarySteps(q, v[1..]);
    ValueWalk(cfg, c, v, q, q);
    BreakFollows(cfg, c, v, 2 * |v| - 1, q, Append(c.log, Part(ValueText, v)));
  }

  lemma ContinuationAndBreak(cfg: Config, c: Cursor, w: string)
    requires Running(c) && Fit(c) && c.p.state == ValueLws && c.p.hs == General && c.nread <= cfg.limit
    requires w != "" && IsBlank(w[0]) && IsPlainText(cfg.lenient, w[1..])
    ensures Reaches(cfg, c, w + CRLF, 2 * |w| + 1, c.p.(state := ValueLws, index := 0), Append(c.log, Part(ValueText, w)))
  {
    hide Append, FitFor, FineRun, Reaches, IsPlainText;
    ContinuationWalk(cfg, c, w);
    BreakFollows(cfg, c, w, 2 * |w| - 1, c.p.(state := Value, index := 0), Append(c.log, Part(ValueText, w)));
  }

  /** A header the parser knows nothing of, on two lines: its value is the text of both, with the blank that the
      second one begins with. */
  lemma FoldedLine(cfg: Config, c: Cursor, name: string, v: string, w: string) returns (p: Parser)
    requires Running(c) && Fit(c) && BetweenLines(c.p.state) && c.nread <= cfg.limit && NameClass(Lowered(name)) == General
    requires Legible(name, v) && v != "" && Clear(cfg.lenient, v) && w != "" && IsBlank(w[0]) && IsPlainText(cfg.lenient, w[1..])
    ensures p == c.p.(flags := SettledFlags(c.p), state := ValueLws, hs := General, index := p.index)
    ensures LineCost(name, v) >= 0
    ensures Reaches(cfg, c, Line(name, v) + (w + CRLF), LineCost(name, v) + (2 * |w| + 1), p, LineLog(SettledLog(c.p, c.log), name, v + w))
  {
    hide Append, FitFor, FineRun, NameClass, Lowered, Reaches, FinishFlags, SettledFlags, SettledLog, IsPlainText, IsName;
    var q := NameAndBlank(cfg, c, name);
    var start := Append(SettledLog(c.p, c.log), Part(FieldText, name));
    var log := Append(start, Part(ValueText, v));
    Reached(cfg, c, name + ": ", 2 * |name| + 1, q, start);
    p := q.(state := ValueLws, index := 0);
    var d := FineRun(cfg, c, name + ": ");
    if Running(d) {
      OrdinaryAndBreak(cfg, d, v);
    }
    Then(cfg, c, name + ": ", 2 * |name| + 1, q, start, v + CRLF, 2 * |v| + 1, p, log);
    assert |Line(name, v)| == |name| + |v| + 4;
    Reached(cfg, c, Line(name, v), LineCost(name, v), p, log);
    var e := FineRun(cfg, c, Line(name, v));
    if Running(e) {
      ContinuationAndBreak(cfg, e, w);
    }
    AppendMerges(start, ValueText, v, w);
    Then(cfg, c, Line(name, v), LineCost(name, v), p, log, w + CRLF, 2 * |w| + 1, p, LineLog(SettledLog(c.p, c.log), name, v + w));
  }
}
