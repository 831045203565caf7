/**
 Reading header lines one byte per fragment: which names the parser tells apart, what it makes of
 their values, and what a line costs.
 */
module HttpHeaders {
  import opened Options
  import opened HttpChars
  import opened HttpParser
  import opened HttpStream
  import opened HttpFragments
  import opened HttpWalk
  import HttpExecute

  // ---- Names -------------------------------------------------------------------------------

  function Lowered(s: string): string { seq(|s|, i requires 0 <= i < |s| => StrictToken(s[i])) }

  predicate IsName(s: string) { s != "" && forall i | 0 <= i < |s| :: StrictToken(s[i]) != NUL }

  /** What the parser takes a name for that reads `low` in lower case. */
  function NameClass(low: string): HeaderState {
    if low <= "connection" then
      if |low| == 1 then C else if |low| == 2 then CO else if |low| == 3 then CON
      else if |low| == 10 then Connection else MatchingConnection
    else if low <= "content-length" then if |low| == 14 then ContentLength else MatchingContentLength
    else if low <= "proxy-connection" then if |low| == 16 then Connection else MatchingProxyConnection
    else if low <= "transfer-encoding" then if |low| == 17 then TransferEncoding else MatchingTransferEncoding
    else if low <= "upgrade" then if |low| == 7 then Upgrade else MatchingUpgrade
    else General
  }

  /** The five names the parser recognises, and no others. */
  lemma RecognisedNames(low: string)
    requires low != ""
    ensures NameClass(low) == Connection <==> low == "connection" || low == "proxy-connection"
    ensures NameClass(low) == ContentLength <==> low == "content-length"
    ensures NameClass(low) == TransferEncoding <==> low == "transfer-encoding"
    ensures NameClass(low) == Upgrade <==> low == "upgrade"
  {
    FirstAndFourth(low);
  }

  /** Where the five names first differ. */
  lemma FirstAndFourth(low: string)
    requires low != ""
    ensures low <= "connection" ==> low[0] == 'c' && (|low| > 3 ==> low[3] == 'n')
    ensures low <= "content-length" ==> low[0] == 'c' && (|low| > 3 ==> low[3] == 't')
    ensures low <= "proxy-connection" ==> low[0] == 'p'
    ensures low <= "transfer-encoding" ==> low[0] == 't'
    ensures low <= "upgrade" ==> low[0] == 'u'
  {
  }

  lemma PrefixGrows(low: string, c: char, word: string)
    ensures low + [c] <= word <==> low <= word && |low| < |word| && c == word[|low|]
  {
    if low <= word && |low| < |word| && c == word[|low|] {
      assert low + [c] == word[..|low| + 1];
    }
    if low + [c] <= word {
      assert (low + [c])[..|low|] == low;
      assert (low + [c])[|low|] == word[|low|];
    }
  }

  predicate Whole(hs: HeaderState) { hs in {Connection, ContentLength, TransferEncoding, Upgrade} }

  /** While a name may still turn out to be one of the five, the index follows its length. */
  predicate IndexFollows(low: string, index: nat) {
    NameClass(low) != General && !Whole(NameClass(low)) ==> index == |low| - 1
  }

  lemma NameClassGrows(low: string, index: nat, c: char, ch: char)
    requires low != "" && IndexFollows(low, index) && ch != SP
    ensures var r := NameStep(NameClass(low), index, c, ch);
      r.0 == NameClass(low + [c]) && IndexFollows(low + [c], r.1)
  {
    hide NameClass, NameStep;
    if |low| <= 3 {
      ShortNameGrows(low, index, c, ch);
    } else {
      LongNameGrows(low, index, c, ch);
    }
  }

  lemma ShortNameGrows(low: string, index: nat, c: char, ch: char)
    requires 0 < |low| <= 3 && IndexFollows(low, index) && ch != SP
    ensures var r := NameStep(NameClass(low), index, c, ch);
      r.0 == NameClass(low + [c]) && IndexFollows(low + [c], r.1)
  {
    if low <= "connection" { ShortConGrows(low, index, c, ch); } else { ShortOtherGrows(low, index, c, ch); }
    hide NameStep, NameClass, IndexFollows;
  }

  lemma ShortConGrows(low: string, index: nat, c: char, ch: char)
    requires 0 < |low| <= 3 && IndexFollows(low, index) && ch != SP && low <= "connection"
    ensures var r := NameStep(NameClass(low), index, c, ch);
      r.0 == NameClass(low + [c]) && IndexFollows(low + [c], r.1)
  {
    PrefixesGrow(low, c);
    FirstAndFourth(low);
    assert "connection"[..3] == "content-length"[..3];
  }

  lemma ShortOtherGrows(low: string, index: nat, c: char, ch: char)
    requires 0 < |low| <= 3 && IndexFollows(low, index) && ch != SP && !(low <= "connection")
    ensures var r := NameStep(NameClass(low), index, c, ch);
      r.0 == NameClass(low + [c]) && IndexFollows(low + [c], r.1)
  {
    assert "connection"[..3] == "content-length"[..3];
    SameBeginning(low, "connection", "content-length");
    ShortKinds(low);
    hide NameClass, Whole;
    if NameClass(low) == General {
      GeneralStays(low, c);
    } else {
      MatchedSoFar(low, index, c, ch);
    }
  }

  lemma ShortKinds(low: string)
    requires 0 < |low| <= 3 && !(low <= "connection") && !(low <= "content-length")
    ensures !Whole(NameClass(low))
    ensures NameClass(low) == General <==> !(low <= "proxy-connection" || low <= "transfer-encoding" || low <= "upgrade")
  {
  }

  lemma SameBeginning(low: string, a: string, b: string)
    requires |low| <= 3 <= |a| && |b| >= 3 && a[..3] == b[..3]
    ensures low <= a <==> low <= b
  {
    assert forall i | 0 <= i < |low| :: a[i] == a[..3][i] && b[i] == b[..3][i];
  }

  lemma GeneralStays(low: string, c: char)
    requires NameClass(low) == General
    ensures NameClass(low + [c]) == General
  {
    PrefixesGrow(low, c);
  }

  /** In the middle of one of the names that do not begin with "con". */
  lemma MatchedSoFar(low: string, index: nat, c: char, ch: char)
    requires 0 < |low| <= 3 && !(low <= "connection") && !(low <= "content-length")
    requires low <= "proxy-connection" || low <= "transfer-encoding" || low <= "upgrade"
    requires index == |low| - 1
    ensures var r := NameStep(NameClass(low), index, c, ch);
      r.0 == NameClass(low + [c]) && IndexFollows(low + [c], r.1)
  {
    if low <= "proxy-connection" {
      ProxyMatched(low, index, c, ch);
    } else {
      if low <= "transfer-encoding" { TransferMatched(low, index, c, ch); } else { UpgradeMatched(low, index, c, ch); }
    }
    hide NameStep, NameClass, IndexFollows;
  }

  lemma ProxyMatched(low: string, index: nat, c: char, ch: char)
    requires 0 < |low| <= 3 && low <= "proxy-connection" && index == |low| - 1
    ensures var r := NameStep(NameClass(low), index, c, ch);
      r.0 == NameClass(low + [c]) && IndexFollows(low + [c], r.1)
  {
    PrefixesGrow(low, c);
    FirstAndFourth(low);
  }

  lemma TransferMatched(low: string, index: nat, c: char, ch: char)
    requires 0 < |low| <= 3 && low <= "transfer-encoding" && index == |low| - 1
    ensures var r := NameStep(NameClass(low), index, c, ch);
      r.0 == NameClass(low + [c]) && IndexFollows(low + [c], r.1)
  {
    PrefixesGrow(low, c);
    FirstAndFourth(low);
  }

  lemma UpgradeMatched(low: string, index: nat, c: char, ch: char)
    requires 0 < |low| <= 3 && low <= "upgrade" && index == |low| - 1
    ensures var r := NameStep(NameClass(low), index, c, ch);
      r.0 == NameClass(low + [c]) && IndexFollows(low + [c], r.1)
  {
    PrefixesGrow(low, c);
    FirstAndFourth(low);
  }

  lemma LongNameGrows(low: string, index: nat, c: char, ch: char)
    requires |low| > 3 && IndexFollows(low, index) && ch != SP
    ensures var r := NameStep(NameClass(low), index, c, ch);
      r.0 == NameClass(low + [c]) && IndexFollows(low + [c], r.1)
  {
    if low <= "connection" || low <= "content-length" {
      LongConGrows(low, index, c, ch);
    } else {
      LongOtherGrows(low, index, c, ch);
    }
    hide NameStep, NameClass, IndexFollows;
  }

  lemma LongConGrows(low: string, index: nat, c: char, ch: char)
    requires |low| > 3 && IndexFollows(low, index) && ch != SP && (low <= "connection" || low <= "content-length")
    ensures var r := NameStep(NameClass(low), index, c, ch);
      r.0 == NameClass(low + [c]) && IndexFollows(low + [c], r.1)
  {
    PrefixesGrow(low, c);
    FirstAndFourth(low);
  }

  lemma LongOtherGrows(low: string, index: nat, c: char, ch: char)
    requires |low| > 3 && IndexFollows(low, index) && ch != SP && !(low <= "connection") && !(low <= "content-length")
    ensures var r := NameStep(NameClass(low), index, c, ch);
      r.0 == NameClass(low + [c]) && IndexFollows(low + [c], r.1)
  {
    PrefixesGrow(low, c);
    FirstAndFourth(low);
  }

  lemma PrefixesGrow(low: string, c: char)
    ensures low + [c] <= "connection" <==> low <= "connection" && |low| < 10 && c == "connection"[|low|]
    ensures low + [c] <= "content-length" <==> low <= "content-length" && |low| < 14 && c == "content-length"[|low|]
    ensures low + [c] <= "proxy-connection" <==> low <= "proxy-connection" && |low| < 16 && c == "proxy-connection"[|low|]
    ensures low + [c] <= "transfer-encoding" <==> low <= "transfer-encoding" && |low| < 17 && c == "transfer-encoding"[|low|]
    ensures low + [c] <= "upgrade" <==> low <= "upgrade" && |low| < 7 && c == "upgrade"[|low|]
  {
    PrefixGrows(low, c, "connection");
    PrefixGrows(low, c, "content-length");
    PrefixGrows(low, c, "proxy-connection");
    PrefixGrows(low, c, "transfer-encoding");
    PrefixGrows(low, c, "upgrade");
  }

  lemma FirstLetterClass(c: char)
    ensures NameClass([c]) == FirstLetter(c) && IndexFollows([c], 0)
  {
    PrefixesGrow("", c);
    assert "" + [c] == [c];
  }

  // ---- Between two lines -------------------------------------------------------------------

  predicate BetweenLines(s: State) { s in {FieldStart, ValueLws, ValueDiscardLws} }

  /** The flags and the log once the line before is known to be over. */
  function SettledFlags(p: Parser): Flags { if p.state == FieldStart then p.flags else FinishFlags(p) }

  function SettledLog(p: Parser, log: Log): Log {
    if p.state == ValueDiscardLws then Append(log, Part(ValueText, "")) else log
  }

  /** The first letter of a name. */
  lemma FirstLetterStep(cfg: Config, c: Cursor, ch: char)
    requires Running(c) && Fit(c) && BetweenLines(c.p.state) && StrictToken(ch) != NUL
    ensures Reaches(cfg, c, [ch], 1,
              c.p.(flags := SettledFlags(c.p), index := 0, state := Field, hs := NameClass([StrictToken(ch)])),
              Append(SettledLog(c.p, c.log), Part(FieldText, [ch])))
  {
    hide Append, FitFor, FineRun, AppendAll, FinishFlags, NameClass;
    TokensAreNotBreaks(cfg.strict, ch);
    FirstLetterClass(StrictToken(ch));
    var p := c.p.(flags := SettledFlags(c.p), index := 0, state := Field, hs := FirstLetter(StrictToken(ch)));
    var e := Part(FieldText, [ch]);
    HttpExecute.OneEvent(c.log, e);
    HttpExecute.TwoEvents(c.log, Part(ValueText, ""), e);
    if c.p.state == ValueDiscardLws {
      assert [Part(ValueText, "")] + [e] == [Part(ValueText, ""), e];
      PlainStep(cfg, c, ch, p, [Part(ValueText, ""), e]);
    } else {
      PlainStep(cfg, c, ch, p, [e]);
    }
  }

  lemma TokensAreNotBreaks(strict: bool, ch: char)
    requires StrictToken(ch) != NUL
    ensures Token(strict, ch) == StrictToken(ch) && !IsBreak(ch) && !IsBlank(ch) && ch != ':'
  {
  }

  /** The other letters of a name. */
  lemma {:induction false} LettersWalk(cfg: Config, c: Cursor, name: string, i: nat) returns (p: Parser)
    requires Running(c) && Fit(c) && c.p.state == Field && c.nread <= cfg.limit
    requires IsName(name) && 0 < i < |name|
    requires c.p.hs == NameClass(Lowered(name[..i])) && IndexFollows(Lowered(name[..i]), c.p.index)
    ensures p == c.p.(hs := NameClass(Lowered(name)), index := p.index)
    ensures Reaches(cfg, c, name[i..], 2 * (|name| - i), p, Append(c.log, Part(FieldText, name[i..])))
    decreases |name| - i
  {
    hide Append, FitFor, FineRun, NameClass, NameStep, Reaches, StrictToken;
    var ch := name[i];
    var low, tok := Lowered(name[..i]), StrictToken(ch);
    TokensAreNotBreaks(cfg.strict, ch);
    NameClassGrows(low, c.p.index, tok, ch);
    assert Lowered(name[..i + 1]) == low + [tok];
    var (hs, index) := NameStep(c.p.hs, c.p.index, tok, ch);
    var q := c.p.(hs := hs, index := index);
    HttpExecute.NameByte(cfg, c.p, ch, false);
    TextStep(cfg, c, ch, q, FieldText);
    if i + 1 == |name| {
      p := q;
      assert name[i..] == [ch] && name[..i + 1] == name;
    } else {
      var log := Append(c.log, Part(FieldText, [ch]));
      Reached(cfg, c, [ch], 2, q, log);
      var d := FineRun(cfg, c, [ch]);
      AppendMerges(c.log, FieldText, [ch], name[i + 1..]);
      assert name[i..] == [ch] + name[i + 1..];
      if Running(d) {
        p := LettersWalk(cfg, d, name, i + 1);
      } else {
        p := q.(hs := NameClass(Lowered(name)));
      }
      Then(cfg, c, [ch], 2, q, log, name[i + 1..], 2 * (|name| - i - 1), p, Append(c.log, Part(FieldText, name[i..])));
    }
  }

  /** A whole name. */
  lemma WholeNameWalk(cfg: Config, c: Cursor, name: string) returns (p: Parser)
    requires Running(c) && Fit(c) && BetweenLines(c.p.state) && c.nread <= cfg.limit && IsName(name)
    ensures p == c.p.(flags := SettledFlags(c.p), state := Field, hs := NameClass(Lowered(name)), index := p.index)
    ensures Reaches(cfg, c, name, 2 * |name| - 1, p, Append(SettledLog(c.p, c.log), Part(FieldText, name)))
  {
    hide Append, FitFor, FineRun, NameClass, Reaches, StrictToken, FinishFlags, SettledLog;
    FirstLetterStep(cfg, c, name[0]);
    var q := c.p.(flags := SettledFlags(c.p), index := 0, state := Field, hs := NameClass([StrictToken(name[0])]));
    var log := SettledLog(c.p, c.log);
    assert Lowered(name[..1]) == [StrictToken(name[0])];
    FirstLetterClass(StrictToken(name[0]));
    if |name| == 1 {
      p := q;
      assert name == [name[0]] && name[..1] == name;
    } else {
      var one := Append(log, Part(FieldText, [name[0]]));
      Reached(cfg, c, [name[0]], 1, q, one);
      var d := FineRun(cfg, c, [name[0]]);
      AppendMerges(log, FieldText, [name[0]], name[1..]);
      assert name == [name[0]] + name[1..];
      if Running(d) {
        p := LettersWalk(cfg, d, name, 1);
      } else {
        p := q.(hs := NameClass(Lowered(name)));
      }
      Then(cfg, c, [name[0]], 1, q, one, name[1..], 2 * (|name| - 1), p, Append(log, Part(FieldText, name)));
    }
  }

  lemma ColonStep(cfg: Config, c: Cursor)
    requires Running(c) && Fit(c) && c.p.state == Field
    ensures Reaches(cfg, c, ":", 1, c.p.(state := ValueDiscardWs), c.log)
  {
    hide Byte, FitFor;
    HttpExecute.NameByteEnd(cfg, Refreshed(c), ':', true);
    assert FineRun(cfg, c, ":") == FineRun(cfg, Fine(cfg, c, ':'), ":"[1..]);
  }

  lemma BlankStep(cfg: Config, c: Cursor)
    requires Running(c) && Fit(c) && c.p.state == ValueDiscardWs
    ensures Reaches(cfg, c, " ", 1, c.p, c.log)
  {
    hide FitFor, FineRun;
    assert AppendAll(c.log, []) == c.log;
    PlainStep(cfg, c, SP, c.p, []);
  }

  /** The colon and the blank after a name. */
  lemma SeparatorWalk(cfg: Config, c: Cursor)
    requires Running(c) && Fit(c) && c.p.state == Field && c.nread <= cfg.limit
    ensures Reaches(cfg, c, ": ", 2, c.p.(state := ValueDiscardWs), c.log)
  {
    hide FitFor, FineRun, Reaches;
    var p := c.p.(state := ValueDiscardWs);
    ColonStep(cfg, c);
    Reached(cfg, c, ":", 1, p, c.log);
    var d := FineRun(cfg, c, ":");
    if Running(d) {
      BlankStep(cfg, d);
    }
    Then(cfg, c, ":", 1, p, c.log, " ", 1, p, c.log);
    assert ":" + " " == ": ";
  }

  // ---- Values ------------------------------------------------------------------------------

  /** The rest of a value, character by character. */
  function ValueSteps(p: Parser, v: string): Option<Parser>
    decreases |v|
  {
    if v == "" then Some(p)
    else match ValueStep(p, v[0]) case None => None case Some(q) => ValueSteps(q, v[1..])
  }

  /** Characters that are accepted wherever a fragment begins. */
  predicate IsPlainText(lenient: bool, v: string) {
    forall i | 0 <= i < |v| :: !IsBreak(v[i]) && (lenient || IsHeaderChar(v[i]))
  }

  lemma {:induction false} ValueRest(cfg: Config, c: Cursor, v: string, q: Parser)
    requires Running(c) && Fit(c) && c.p.state == Value && c.nread <= cfg.limit
    requires v != "" && IsPlainText(cfg.lenient, v) && ValueSteps(c.p, v) == Some(q)
    ensures Reaches(cfg, c, v, 2 * |v|, q, Append(c.log, Part(ValueText, v)))
    decreases |v|
  {
    hide Append, FitFor, FineRun, ValueStep, Reaches, IsHeaderChar;
    var p := ValueStep(c.p, v[0]).value;
    HttpExecute.ValueByte(cfg, c.p, v[0]);
    HttpExecute.ValueStepKeeps(c.p, v[0]);
    TextStep(cfg, c, v[0], p, ValueText);
    if |v| == 1 {
      assert v == [v[0]] && v[1..] == "";
    } else {
      var log := Append(c.log, Part(ValueText, [v[0]]));
      Reached(cfg, c, [v[0]], 2, p, log);
      AppendMerges(c.log, ValueText, [v[0]], v[1..]);
      assert v == [v[0]] + v[1..];
      var d := FineRun(cfg, c, [v[0]]);
      if Running(d) {
        forall i | 0 <= i < |v[1..]| ensures !IsBreak(v[1..][i]) && (cfg.lenient || IsHeaderChar(v[1..][i])) {
          assert v[1..][i] == v[i + 1];
        }
        ValueRest(cfg, d, v[1..], q);
      }
      Then(cfg, c, [v[0]], 2, p, log, v[1..], 2 * (|v| - 1), q, Append(c.log, Part(ValueText, v)));
    }
  }

  /** The first character of a value is taken whatever it is, but for blanks and line breaks. */
  lemma ValueFirst(cfg: Config, c: Cursor, ch: char, p: Parser)
    requires Running(c) && Fit(c) && c.p.state == ValueDiscardWs && !IsBlank(ch) && !IsBreak(ch)
    requires OnValueStart(c.p, ch) == Text(p, ValueText, ch) && p.errno == Ok
    ensures Reaches(cfg, c, [ch], 1, p, Append(c.log, Part(ValueText, [ch])))
  {
    hide Append, FitFor, FineRun, OnValueStart;
    HttpExecute.OneEvent(c.log, Part(ValueText, [ch]));
    PlainStep(cfg, c, ch, p, [Part(ValueText, [ch])]);
  }

  lemma ValueWalk(cfg: Config, c: Cursor, v: string, p: Parser, q: Parser)
    requires Running(c) && Fit(c) && c.p.state == ValueDiscardWs && c.nread <= cfg.limit
    requires v != "" && !IsBlank(v[0]) && !IsBreak(v[0]) && IsPlainText(cfg.lenient, v[1..])
    requires OnValueStart(c.p, v[0]) == Text(p, ValueText, v[0]) && p.errno == Ok && p.state == Value
    requires ValueSteps(p, v[1..]) == Some(q)
    ensures Reaches(cfg, c, v, 2 * |v| - 1, q, Append(c.log, Part(ValueText, v)))
  {
    hide Append, FitFor, FineRun, OnValueStart, Reaches, IsPlainText;
    ValueFirst(cfg, c, v[0], p);
    if |v| == 1 {
      assert v == [v[0]] && v[1..] == "";
    } else {
      var log := Append(c.log, Part(ValueText, [v[0]]));
      Reached(cfg, c, [v[0]], 1, p, log);
      AppendMerges(c.log, ValueText, [v[0]], v[1..]);
      assert v == [v[0]] + v[1..];
      var d := FineRun(cfg, c, [v[0]]);
      if Running(d) {
        ValueRest(cfg, d, v[1..], q);
      }
      Then(cfg, c, [v[0]], 1, p, log, v[1..], 2 * (|v| - 1), q, Append(c.log, Part(ValueText, v)));
    }
  }

  // ---- The end of a line -------------------------------------------------------------------

  lemma BreakStep(cfg: Config, c: Cursor)
    requires Running(c) && Fit(c) && c.p.state == Value
    ensures Reaches(cfg, c, [CR], 1, c.p.(state := HeaderAlmostDone), c.log)
  {
    hide Byte, FitFor;
    if c.nread + 1 <= cfg.limit {
      HttpExecute.ValueEnd(cfg, Refreshed(c), CR, true);
    } else {
      CountOverflows(cfg, Refreshed(c), CR, true);
    }
    assert FineRun(cfg, c, [CR]) == FineRun(cfg, Fine(cfg, c, CR), [CR][1..]);
  }

  lemma CountOverflows(cfg: Config, c: Cursor, ch: char, last: bool)
    requires Fit(c) && ParsingHeader(c.p.state) && c.nread + 1 > cfg.limit
    ensures Byte(cfg, c, ch, last).p.errno == HeaderOverflow
  {
  }

  lemma LineStep(cfg: Config, c: Cursor, ch: char, s: State)
    requires Running(c) && Fit(c)
    requires (c.p.state == HeaderAlmostDone && ch == LF && s == ValueLws)
      || (c.p.state == ValueDiscardWs && ch == CR && s == ValueDiscardWsAlmostDone)
      || (c.p.state == ValueDiscardWsAlmostDone && ch == LF && s == ValueDiscardLws)
    ensures Reaches(cfg, c, [ch], 1, c.p.(state := s), c.log)
  {
    hide FitFor, FineRun;
    assert AppendAll(c.log, []) == c.log;
    PlainStep(cfg, c, ch, c.p.(state := s), []);
  }

  const CRLF := [CR, LF]

  /** The line break after a value, or after a name without one. */
  lemma CrlfWalk(cfg: Config, c: Cursor)
    requires Running(c) && Fit(c) && (c.p.state == Value || c.p.state == ValueDiscardWs) && c.nread <= cfg.limit
    ensures Reaches(cfg, c, CRLF, 2, c.p.(state := if c.p.state == Value then ValueLws else ValueDiscardLws), c.log)
  {
    hide FitFor, FineRun, Reaches;
    var p := c.p.(state := if c.p.state == Value then HeaderAlmostDone else ValueDiscardWsAlmostDone);
    var q := c.p.(state := if c.p.state == Value then ValueLws else ValueDiscardLws);
    if c.p.state == Value {
      BreakStep(cfg, c);
    } else {
      LineStep(cfg, c, CR, ValueDiscardWsAlmostDone);
    }
    Reached(cfg, c, [CR], 1, p, c.log);
    var d := FineRun(cfg, c, [CR]);
    if Running(d) {
      LineStep(cfg, d, LF, q.state);
    }
    Then(cfg, c, [CR], 1, p, c.log, [LF], 1, q, c.log);
    assert [CR] + [LF] == CRLF;
  }
}
