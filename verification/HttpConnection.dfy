/**
 The values of Connection headers. The parser reads words separated by commas, in its own way: a
 word that begins like a recognised one takes the character after it along, a comma among them.
 */
module HttpConnection {
  import opened Options
  import opened HttpChars
  import opened HttpParser
  import opened HttpHeaders

  function LoweredBits(s: string): string { seq(|s|, i requires 0 <= i < |s| => LowerBit(s[i])) }

  /** The words that mean something. */
  datatype Word = KEEP_ALIVE | CLOSE | UPGRADE

  function Spelling(w: Word): string {
    match w case KEEP_ALIVE => "keep-alive" case CLOSE => "close" case UPGRADE => "upgrade"
  }

  function WordFor(c: char): Option<Word> {
    if c == 'k' then Some(KEEP_ALIVE) else if c == 'c' then Some(CLOSE) else if c == 'u' then Some(UPGRADE) else None
  }

  /** How much two texts have in common from the start. */
  function Common(a: string, b: string): (n: nat)
    ensures n <= |a| && n <= |b| && a[..n] == b[..n] && (n < |a| && n < |b| ==> a[n] != b[n])
  {
    if a == "" || b == "" || a[0] != b[0] then 0
    else
      var n := Common(a[1..], b[1..]);
      assert a[..n + 1] == [a[0]] + a[1..][..n] && b[..n + 1] == [b[0]] + b[1..][..n];
      1 + n
  }

  /** Before a word the NUL character counts as a space. */
  predicate IsGap(c: char, before: bool) { c == SP || (before && c == NUL) }

  function SkipGaps(v: string, before: bool): (t: string)
    ensures |t| <= |v| && (t != "" ==> !IsGap(t[0], before))
  {
    if v != "" && IsGap(v[0], before) then SkipGaps(v[1..], before) else v
  }

  /** What follows the first comma. */
  function AfterComma(v: string): (r: Option<string>)
    ensures r.Some? ==> |r.value| < |v|
  {
    if v == "" then None else if v[0] == ',' then Some(v[1..]) else AfterComma(v[1..])
  }

  /** The words found from after the next comma on. */
  function Later(v: string): set<Word>
    decreases |v|, 0
  {
    match AfterComma(v) case None => {} case Some(r) => Mentions(r)
  }

  /** The words found in t, which begins like the word w. */
  function Tried(w: Word, t: string): set<Word>
    requires t != ""
    decreases |t|, 0
  {
    var n := Common(LoweredBits(t), Spelling(w));
    if n == |Spelling(w)| then
      var r := SkipGaps(t[n..], false);
      if r == "" then {w}
      else if r[0] == ',' then {w} + Mentions(r[1..])
      else Later(r[1..])
    else if n == |t| then {}
    else Later(t[n + 1..])
  }

  /** The words found where a word may begin. What cannot be part of a word ends the search. */
  function Mentions(v: string): set<Word>
    decreases |v|, 1
  {
    var t := SkipGaps(v, true);
    if t == "" then {}
    else
      var c := LowerBit(t[0]);
      if WordFor(c).Some? then Tried(WordFor(c).value, t)
      else if StrictToken(c) != NUL then Later(t[1..])
      else {}
  }

  /** The words found in the value of a Connection header. */
  function Mentioned(v: string): set<Word> {
    if v == "" then {}
    else
      var c := LowerBit(v[0]);
      if WordFor(c).Some? then Tried(WordFor(c).value, v) else Later(v[1..])
  }

  function WithWords(f: Flags, ws: set<Word>): Flags {
    f.(keepAlive := f.keepAlive || KEEP_ALIVE in ws, close := f.close || CLOSE in ws,
       connUpgrade := f.connUpgrade || UPGRADE in ws)
  }

  // ---- The parser finds these words --------------------------------------------------------

  function Matching(w: Word): HeaderState {
    match w case KEEP_ALIVE => MatchingKeepAlive case CLOSE => MatchingClose case UPGRADE => MatchingConnUpgrade
  }

  function Matched(w: Word): HeaderState {
    match w case KEEP_ALIVE => KeepAlive case CLOSE => Close case UPGRADE => ConnUpgrade
  }

  /** The parser after the text v of a value: the flags for the words found in it are set, or will be
      when the line ends. */
  ghost predicate Finds(p: Parser, v: string, ws: set<Word>) {
    match ValueSteps(p, v)
    case None => false
    case Some(q) => q == p.(flags := q.flags, hs := q.hs, index := q.index) && FinishFlags(q) == WithWords(p.flags, ws)
  }

  lemma {:induction false} GapsBefore(p: Parser, v: string)
    requires p.hs == TokenStart
    ensures ValueSteps(p, v) == ValueSteps(p, SkipGaps(v, true))
    decreases |v|
  {
    if v != "" && IsGap(v[0], true) {
      GapIsSkipped(p, v[0]);
      GapsBefore(p, v[1..]);
    }
  }

  lemma GapIsSkipped(p: Parser, ch: char)
    requires p.hs == TokenStart && IsGap(ch, true)
    ensures ValueStep(p, ch) == Some(p)
  {
  }

  lemma {:induction false} GapsAfter(p: Parser, v: string, w: Word)
    requires p.hs == Matched(w)
    ensures ValueSteps(p, v) == ValueSteps(p, SkipGaps(v, false))
    decreases |v|
  {
    if v != "" && v[0] == SP {
      assert ValueStep(p, SP) == Some(p);
      GapsAfter(p, v[1..], w);
    }
  }

  /** In the rest of an unknown word the parser waits for a comma. */
  lemma {:induction false} WaitsForComma(p: Parser, v: string)
    requires p.hs == ConnToken
    ensures ValueSteps(p, v) == match AfterComma(v) case None => Some(p) case Some(r) => ValueSteps(p.(hs := TokenStart, index := 0), r)
    decreases |v|
  {
    if v != "" {
      assert ValueStep(p, v[0]) == Some(if v[0] == ',' then p.(hs := TokenStart, index := 0) else p);
      if v[0] != ',' {
        WaitsForComma(p, v[1..]);
      }
    }
  }

  /** One character of a word: i characters have been matched. */
  lemma MatchStep(p: Parser, w: Word, ch: char, i: nat)
    requires 0 < i < |Spelling(w)| && p.hs == Matching(w) && p.index == i - 1
    ensures ValueStep(p, ch) == Some(p.(index := i, hs :=
      if LowerBit(ch) != Spelling(w)[i] then ConnToken else if i == |Spelling(w)| - 1 then Matched(w) else Matching(w)))
  {
    hide LowerBit;
  }

  /** Where the word is matched, and where it is not. */
  lemma {:induction false} MatchWalk(p: Parser, w: Word, t: string, i: nat) returns (index: nat)
    requires 0 < i <= Common(LoweredBits(t), Spelling(w)) && p.index == i - 1
    requires p.hs == if i == |Spelling(w)| then Matched(w) else Matching(w)
    ensures var n := Common(LoweredBits(t), Spelling(w));
      ValueSteps(p, t[i..]) ==
        if n == |Spelling(w)| then ValueSteps(p.(hs := Matched(w), index := index), t[n..])
        else if n == |t| then Some(p.(hs := Matching(w), index := index))
        else ValueSteps(p.(hs := ConnToken, index := index), t[n + 1..])
    decreases |t| - i
  {
    hide ValueStep, Spelling;
    var n := Common(LoweredBits(t), Spelling(w));
    index := p.index;
    if i < |Spelling(w)| {
      if i < |t| {
        MatchStep(p, w, t[i], i);
        assert t[i..][1..] == t[i + 1..];
        assert i < n ==> LoweredBits(t)[i] == LoweredBits(t)[..n][i] == Spelling(w)[..n][i];
        if i < n {
          index := MatchWalk(ValueStep(p, t[i]).value, w, t, i + 1);
        } else {
          index := i;
        }
      } else {
        assert t[i..] == "";
      }
    }
  }

  lemma NothingFound(p: Parser)
    requires p.hs in {ConnToken, TokenStart, General, MatchingKeepAlive, MatchingClose, MatchingConnUpgrade}
    ensures FinishFlags(p) == p.flags == WithWords(p.flags, {})
  {
  }

  lemma LaterFinds(p: Parser, v: string)
    requires p.hs == ConnToken
    ensures Finds(p, v, Later(v))
    decreases |v|, 0
  {
    hide ValueStep;
    WaitsForComma(p, v);
    match AfterComma(v) {
      case None => NothingFound(p);
      case Some(r) => MentionsFinds(p.(hs := TokenStart, index := 0), r);
    }
  }

  /** A matched word sets its flag when a comma or the end of the line comes. */
  lemma MatchedFinds(p: Parser, w: Word, v: string, r: string)
    requires p.hs == Matched(w) && r == SkipGaps(v, false)
    ensures Finds(p, v, if r == "" then {w} else if r[0] == ',' then {w} + Mentions(r[1..]) else Later(r[1..]))
    decreases |v|, 2
  {
    GapsAfter(p, v, w);
    if r != "" {
      if r[0] == ',' {
        var q := p.(flags := WithWords(p.flags, {w}), hs := TokenStart, index := 0);
        CommaStep(p, w);
        hide ValueStep, WithWords, FinishFlags;
        MentionsFinds(q, r[1..]);
        WordsAdd(p.flags, {w}, Mentions(r[1..]));
      } else {
        assert ValueStep(p, r[0]) == Some(p.(hs := ConnToken));
        hide ValueStep;
        LaterFinds(p.(hs := ConnToken), r[1..]);
      }
    }
  }

  lemma CommaStep(p: Parser, w: Word)
    requires p.hs == Matched(w)
    ensures ValueStep(p, ',') == Some(p.(flags := WithWords(p.flags, {w}), hs := TokenStart, index := 0))
  {
  }

  lemma WordsAdd(f: Flags, a: set<Word>, b: set<Word>)
    ensures WithWords(WithWords(f, a), b) == WithWords(f, a + b)
  {
  }

  lemma TriedFinds(p: Parser, w: Word, t: string)
    requires t != "" && WordFor(LowerBit(t[0])) == Some(w) && p.hs == Matching(w) && p.index == 0
    ensures Finds(p, t[1..], Tried(w, t))
    decreases |t|, 0
  {
    hide ValueStep, LowerBit;
    var n := Common(LoweredBits(t), Spelling(w));
    assert LoweredBits(t)[0] == Spelling(w)[0];
    var index := MatchWalk(p, w, t, 1);
    if n == |Spelling(w)| {
      MatchedFinds(p.(hs := Matched(w), index := index), w, t[n..], SkipGaps(t[n..], false));
    } else if n == |t| {
      NothingFound(p.(hs := Matching(w), index := index));
    } else {
      LaterFinds(p.(hs := ConnToken, index := index), t[n + 1..]);
    }
  }

  lemma MentionsFinds(p: Parser, v: string)
    requires p.hs == TokenStart && p.index == 0
    ensures Finds(p, v, Mentions(v))
    decreases |v|, 1
  {
    hide Tried;
    GapsBefore(p, v);
    var t := SkipGaps(v, true);
    if t == "" {
      NothingFound(p);
    } else {
      FirstOfWord(p, t[0]);
      hide ValueStep;
      var c := LowerBit(t[0]);
      if WordFor(c).Some? {
        TriedFinds(p.(hs := Matching(WordFor(c).value)), WordFor(c).value, t);
      } else if StrictToken(c) != NUL {
        LaterFinds(p.(hs := ConnToken), t[1..]);
      } else {
        OrdinarySteps(p.(hs := General), t[1..]);
        NothingFound(p.(hs := General));
      }
    }
  }

  lemma FirstOfWord(p: Parser, ch: char)
    requires p.hs == TokenStart && !IsGap(ch, true)
    ensures var c := LowerBit(ch);
      ValueStep(p, ch) == Some(p.(hs := if WordFor(c).Some? then Matching(WordFor(c).value)
                                        else if StrictToken(c) != NUL then ConnToken else General))
  {
  }

  lemma {:induction false} OrdinarySteps(p: Parser, v: string)
    requires p.hs == General
    ensures ValueSteps(p, v) == Some(p)
    decreases |v|
  {
    if v != "" {
      OrdinarySteps(p, v[1..]);
    }
  }

  /** The flags of a Connection header are those of the words mentioned in its value. */
  lemma ConnectionWalk(p: Parser, v: string) returns (first: Parser)
    requires v != "" && p.hs == Connection
    ensures OnValueStart(p, v[0]) == Text(first, ValueText, v[0])
    ensures first == p.(state := Value, index := 0, hs := first.hs)
    ensures Finds(first, v[1..], Mentioned(v))
  {
    hide ValueSteps, LowerBit, Tried, Later, StrictToken;
    var c := LowerBit(v[0]);
    first := OnValueStart(p, v[0]).p;
    if WordFor(c).Some? {
      TriedFinds(first, WordFor(c).value, v);
    } else {
      LaterFinds(first, v[1..]);
    }
  }
}
