/**
 Connection headers as lists of tokens: which of the tokens in a list the parser finds.
 */
module HttpTokens {
  import opened Options
  import opened HttpChars
  import opened HttpConnection

  /** A token, with the numbers of spaces before and after it. */
  datatype Item = Item(lead: nat, token: string, blanks: nat)

  predicate IsToken(t: string) { t != "" && forall i | 0 <= i < |t| :: StrictToken(t[i]) != NUL }

  predicate AreTokens(xs: seq<Item>) { forall i | 0 <= i < |xs| :: IsToken(xs[i].token) }

  function Spaces(n: nat): string { seq(n, i => SP) }

  /** The list without the spaces before its first token. */
  function Listed(xs: seq<Item>): string
    requires xs != []
    decreases |xs|, 0
  {
    xs[0].token + (Spaces(xs[0].blanks) + Others(xs[1..]))
  }

  function Others(xs: seq<Item>): string
    decreases |xs|, 1
  {
    if xs == [] then "" else "," + Spaces(xs[0].lead) + Listed(xs)
  }

  predicate Is(t: string, w: Word) { LoweredBits(t) == Spelling(w) }

  function WordsOf(t: string): set<Word> {
    (if Is(t, KEEP_ALIVE) then {KEEP_ALIVE} else {})
    + (if Is(t, CLOSE) then {CLOSE} else {})
    + (if Is(t, Word.UPGRADE) then {Word.UPGRADE} else {})
  }

  predicate BrokenOff(t: string, w: Word) { t != "" && |t| < |Spelling(w)| && LoweredBits(t) == Spelling(w)[..|t|] }

  predicate IsBrokenOff(t: string) { BrokenOff(t, KEEP_ALIVE) || BrokenOff(t, CLOSE) || BrokenOff(t, Word.UPGRADE) }

  // ---- Which tokens are looked at ----------------------------------------------------------

  /** A word broken off, as in "k, close": a comma right after it is taken for its next character. */
  predicate Swallows(x: Item) { x.blanks == 0 && IsBrokenOff(x.token) }

  /** With its sixth bit set, '_' is no token character: a later token that begins with it ends the search. */
  predicate Stops(x: Item) { x.token != "" && x.token[0] == '_' }

  /** How many tokens right before the i-th swallow the comma after them. */
  function RunBefore(xs: seq<Item>, i: nat): nat
    requires i <= |xs|
  {
    if i == 0 || !Swallows(xs[i - 1]) then 0 else RunBefore(xs, i - 1) + 1
  }

  /** Of several swallowing tokens in a row every other one is itself swallowed. */
  predicate Swallowed(xs: seq<Item>, i: nat)
    requires i <= |xs|
  {
    RunBefore(xs, i) % 2 == 1
  }

  predicate Ends(xs: seq<Item>, i: nat)
    requires i < |xs|
  {
    i > 0 && Stops(xs[i]) && !Swallowed(xs, i)
  }

  predicate LookedAt(xs: seq<Item>, i: nat)
    requires i < |xs|
  {
    !Swallowed(xs, i) && forall j | 0 <= j <= i :: !Ends(xs, j)
  }

  /** The words found from the i-th token on, if it is reached. */
  function FoundFrom(xs: seq<Item>, i: nat): set<Word>
    decreases |xs| - i
  {
    if i >= |xs| || (i > 0 && Stops(xs[i])) then {}
    else if Swallows(xs[i]) then FoundFrom(xs, i + 2)
    else WordsOf(xs[i].token) + FoundFrom(xs, i + 1)
  }

  lemma SwallowedNext(xs: seq<Item>, i: nat)
    requires i < |xs| && Swallows(xs[i]) && !Swallowed(xs, i)
    ensures Swallowed(xs, i + 1) && (i + 1 < |xs| ==> !Swallowed(xs, i + 2))
  {
    hide Swallows;
  }

  lemma {:induction false} FoundIsLookedAt(xs: seq<Item>, i: nat, w: Word)
    requires i <= |xs| && !Swallowed(xs, i) && forall j | 0 <= j < i :: !Ends(xs, j)
    ensures w in FoundFrom(xs, i) <==> exists k | i <= k < |xs| :: LookedAt(xs, k) && Is(xs[k].token, w)
    decreases |xs| - i
  {
    hide Is, Stops, RunBefore;
    if i < |xs| {
      if Ends(xs, i) {
        forall k | i <= k < |xs| ensures !LookedAt(xs, k) {}
      } else if Swallows(xs[i]) {
        BrokenIsNone(xs[i].token);
        SwallowedNext(xs, i);
        hide Swallows, WordsOf, Swallowed;
        if i + 1 < |xs| {
          FoundIsLookedAt(xs, i + 2, w);
        }
      } else {
        hide Swallows;
        assert w in WordsOf(xs[i].token) <==> Is(xs[i].token, w);
        assert !Swallowed(xs, i + 1) by { NoneBefore(xs, i + 1); }
        FoundIsLookedAt(xs, i + 1, w);
      }
    }
  }

  lemma NoneBefore(xs: seq<Item>, i: nat)
    requires 0 < i <= |xs| && !Swallows(xs[i - 1])
    ensures RunBefore(xs, i) == 0
  {
  }

  // ---- The search goes from comma to comma -------------------------------------------------

  lemma {:induction false} NextComma(t: string, rest: string)
    requires ',' !in t
    ensures AfterComma(t + rest) == AfterComma(rest)
  {
    if t != "" {
      assert (t + rest)[0] == t[0] && (t + rest)[1..] == t[1..] + rest;
      NextComma(t[1..], rest);
    } else {
      assert t + rest == rest;
    }
  }

  lemma TokenHasNoComma(t: string)
    requires IsToken(t)
    ensures ',' !in t && forall i | 0 <= i < |t| :: t[i] != SP && t[i] != NUL
  {
  }

  lemma OthersAre(xs: seq<Item>)
    requires xs != []
    ensures |Others(xs)| > 0 && Others(xs)[0] == ',' && Others(xs)[1..] == Spaces(xs[0].lead) + Listed(xs)
  {
    hide Listed;
    assert Others(xs) == "," + (Spaces(xs[0].lead) + Listed(xs));
  }

  /** The words found in a list from its first token on. */
  function Rest(xs: seq<Item>): set<Word> { if xs == [] then {} else Mentions(Spaces(xs[0].lead) + Listed(xs)) }

  /** After text that is not looked at, or no longer, the search goes on with the next token. */
  lemma LaterGoesOn(v: string, xs: seq<Item>)
    requires ',' !in v
    ensures Later(v + Others(xs)) == Rest(xs)
  {
    NextComma(v, Others(xs));
    if xs != [] { OthersAre(xs); }
    hide Mentions, Listed, Others, Spaces;
  }

  lemma Regrouped(a: string, b: string, c: string)
    ensures a + (b + c) == (a + b) + c
  {
  }

  lemma LaterGoesOnAfter(v: string, n: nat, xs: seq<Item>)
    requires ',' !in v
    ensures Later(v + (Spaces(n) + Others(xs))) == Rest(xs)
  {
    assert ',' !in v + Spaces(n);
    hide Later, Others, Spaces, Rest;
    Regrouped(v, Spaces(n), Others(xs));
    LaterGoesOn(v + Spaces(n), xs);
  }

  /** The second token of a list is lost when the comma before it is. */
  lemma LaterSkipsOne(xs: seq<Item>)
    requires xs != [] && AreTokens(xs)
    ensures |Others(xs)| > 0 && Later(Others(xs)[1..]) == Rest(xs[1..])
  {
    OthersAre(xs);
    TokenHasNoComma(xs[0].token);
    assert ',' !in Spaces(xs[0].lead) + xs[0].token;
    var rest := Spaces(xs[0].blanks) + Others(xs[1..]);
    assert Listed(xs) == xs[0].token + rest;
    hide Later, Others, Listed, Spaces, Rest, IsToken;
    Regrouped(Spaces(xs[0].lead), xs[0].token, rest);
    LaterGoesOnAfter(Spaces(xs[0].lead) + xs[0].token, xs[0].blanks, xs[1..]);
  }

  /** How far a list agrees with a word: as far as its first token does. */
  lemma {:induction false} CommonStops(t: string, rest: string, word: string)
    requires rest == "" || rest[0] == ',' || rest[0] == SP
    requires ',' !in word && SP !in word
    ensures Common(LoweredBits(t + rest), word) == Common(LoweredBits(t), word)
  {
    if t == "" {
      assert t + rest == rest;
      if rest != "" && word != "" { assert LoweredBits(rest)[0] == rest[0]; }
    } else {
      assert LoweredBits(t + rest)[0] == LoweredBits(t)[0];
      assert LoweredBits(t + rest)[1..] == LoweredBits(t[1..] + rest);
      assert (t + rest)[1..] == t[1..] + rest;
      assert LoweredBits(t)[1..] == LoweredBits(t[1..]);
      if word != "" { CommonStops(t[1..], rest, word[1..]); }
    }
  }

  lemma FirstOfWord(x: Word)
    ensures |Spelling(x)| > 1 && WordFor(Spelling(x)[0]) == Some(x) && ',' !in Spelling(x) && SP !in Spelling(x)
  {
  }

  lemma BrokenBegins(t: string, x: Word)
    requires t != "" && (BrokenOff(t, x) || Is(t, x))
    ensures WordFor(LowerBit(t[0])) == Some(x)
  {
    FirstOfWord(x);
    assert LoweredBits(t)[0] == LowerBit(t[0]);
    assert BrokenOff(t, x) ==> Spelling(x)[..|t|][0] == Spelling(x)[0];
    hide WordFor, LowerBit, Spelling;
  }

  lemma BrokenIsNone(t: string)
    requires IsBrokenOff(t)
    ensures WordsOf(t) == {} && forall w: Word :: !Is(t, w)
  {
    forall x: Word, w: Word ensures BrokenOff(t, x) ==> !Is(t, w) {
      if BrokenOff(t, x) && Is(t, w) {
        BrokenBegins(t, x);
        BrokenBegins(t, w);
      }
    }
  }

  lemma WordsAreApart(t: string, w: Word)
    requires t != "" && WordFor(LowerBit(t[0])) == Some(w)
    ensures WordsOf(t) == if Is(t, w) then {w} else {}
    ensures IsBrokenOff(t) == BrokenOff(t, w)
  {
    forall x: Word ensures BrokenOff(t, x) || Is(t, x) ==> x == w {
      if BrokenOff(t, x) || Is(t, x) { BrokenBegins(t, x); }
    }
    hide BrokenOff, Is, WordFor, LowerBit;
  }

  lemma OtherTokens(t: string)
    requires t != "" && WordFor(LowerBit(t[0])).None?
    ensures WordsOf(t) == {} && !IsBrokenOff(t)
  {
    forall x: Word ensures !BrokenOff(t, x) && !Is(t, x) {
      if BrokenOff(t, x) || Is(t, x) { BrokenBegins(t, x); }
    }
    hide BrokenOff, Is, WordFor, LowerBit;
  }

  // ---- One token ---------------------------------------------------------------------------

  /** How far the first token of a list agrees with a word. */
  lemma Agreement(w: Word, t: string, rest: string)
    requires rest == "" || rest[0] == ',' || rest[0] == SP
    requires t != ""
    ensures var n := Common(LoweredBits(t + rest), Spelling(w));
      && n <= |t|
      && (Is(t, w) <==> n == |t| && n == |Spelling(w)|)
      && (BrokenOff(t, w) <==> n == |t| && n < |Spelling(w)|)
  {
    FirstOfWord(w);
    CommonStops(t, rest, Spelling(w));
    var n := Common(LoweredBits(t), Spelling(w));
    assert LoweredBits(t)[..|t|] == LoweredBits(t);
    assert Spelling(w)[..|Spelling(w)|] == Spelling(w);
    hide Common, Spelling, LoweredBits;
  }

  lemma ListedIs(xs: seq<Item>)
    requires xs != [] && AreTokens(xs)
    ensures var t, rest := xs[0].token, Spaces(xs[0].blanks) + Others(xs[1..]);
      && t != "" && Listed(xs) == t + rest
      && (rest == "" || rest[0] == ',' || rest[0] == SP)
      && (rest == "" <==> xs[0].blanks == 0 && |xs| == 1)
      && forall k | 0 <= k <= |t| :: Listed(xs)[k..] == t[k..] + rest
  {
    if |xs| > 1 { OthersAre(xs[1..]); }
    var b, others := xs[0].blanks, Others(xs[1..]);
    assert |Spaces(b)| == b && (b > 0 ==> Spaces(b)[0] == SP);
    assert b == 0 ==> Spaces(b) + others == others;
    assert b > 0 ==> (Spaces(b) + others)[0] == SP;
    assert |xs| == 1 ==> xs[1..] == [];
    hide Others, IsToken, Spaces;
  }

  lemma {:induction false} GapsSkipped(n: nat, rest: string, before: bool)
    requires rest == "" || !IsGap(rest[0], before)
    ensures SkipGaps(Spaces(n) + rest, before) == rest
  {
    var v := Spaces(n) + rest;
    if n > 0 {
      assert v[0] == SP && v[1..] == Spaces(n - 1) + rest;
      GapsSkipped(n - 1, rest, before);
    } else {
      assert v == rest;
    }
  }

  /** What is done with the rest of a word that was matched. */
  function AfterWord(w: Word, r: string): set<Word> {
    if r == "" then {w} else if r[0] == ',' then {w} + Mentions(r[1..]) else Later(r[1..])
  }

  lemma TriedIs(w: Word, t: string, n: nat)
    requires t != "" && n == Common(LoweredBits(t), Spelling(w))
    ensures n <= |t|
    ensures Tried(w, t) ==
      if n == |Spelling(w)| then AfterWord(w, SkipGaps(t[n..], false))
      else if n == |t| then {}
      else Later(t[n + 1..])
  {
    hide Common, Mentions, Later, Spelling, SkipGaps;
  }

  /** The end of a token that is the word, and of one that goes on after it. */
  lemma WholeWord(w: Word, xs: seq<Item>)
    requires xs != [] && AreTokens(xs)
    ensures AfterWord(w, SkipGaps(Spaces(xs[0].blanks) + Others(xs[1..]), false)) == {w} + Rest(xs[1..])
  {
    if |xs| > 1 { OthersAre(xs[1..]); }
    hide Mentions, Later, Listed, IsToken, Spaces;
    GapsSkipped(xs[0].blanks, Others(xs[1..]), false);
  }

  lemma LongerWord(w: Word, xs: seq<Item>, n: nat)
    requires xs != [] && AreTokens(xs) && n < |xs[0].token|
    ensures AfterWord(w, SkipGaps(xs[0].token[n..] + (Spaces(xs[0].blanks) + Others(xs[1..])), false)) == Rest(xs[1..])
  {
    var t, rest := xs[0].token, Spaces(xs[0].blanks) + Others(xs[1..]);
    var v := t[n..] + rest;
    TokenHasNoComma(t);
    assert v[0] == t[n] && v[1..] == t[n + 1..] + rest;
    assert SkipGaps(v, false) == v;
    hide Mentions, Later, Others, IsToken, Spaces, Rest, SkipGaps;
    LaterGoesOnAfter(t[n + 1..], xs[0].blanks, xs[1..]);
  }

  /** The token is the word, or goes on after it. */
  lemma TriedWhole(w: Word, xs: seq<Item>, n: nat)
    requires xs != [] && AreTokens(xs) && Listed(xs) != ""
    requires n == Common(LoweredBits(Listed(xs)), Spelling(w)) == |Spelling(w)| && n <= |xs[0].token|
    ensures Tried(w, Listed(xs)) == (if n == |xs[0].token| then {w} else {}) + Rest(xs[1..])
  {
    var t, rest := xs[0].token, Spaces(xs[0].blanks) + Others(xs[1..]);
    ListedIs(xs);
    hide Tried, AfterWord, Common, Listed, Others, Spelling, LoweredBits, IsToken, Spaces, Rest, SkipGaps;
    TriedIs(w, Listed(xs), n);
    assert Listed(xs)[n..] == t[n..] + rest;
    if n == |t| {
      assert t[n..] + rest == rest;
      WholeWord(w, xs);
    } else {
      LongerWord(w, xs, n);
    }
  }

  /** The search goes on after a character that did not match: one of the token, or the one after it. */
  lemma AfterMismatch(xs: seq<Item>, n: nat)
    requires xs != [] && AreTokens(xs) && n < |xs[0].token|
    ensures Later(xs[0].token[n + 1..] + (Spaces(xs[0].blanks) + Others(xs[1..]))) == Rest(xs[1..])
  {
    TokenHasNoComma(xs[0].token);
    hide Later, Others, IsToken, Spaces, Rest;
    LaterGoesOnAfter(xs[0].token[n + 1..], xs[0].blanks, xs[1..]);
  }

  lemma AfterBrokenOff(xs: seq<Item>)
    requires xs != [] && AreTokens(xs)
    ensures var rest := Spaces(xs[0].blanks) + Others(xs[1..]);
      rest != "" ==> Later(rest[1..]) == if xs[0].blanks == 0 && |xs| > 1 then Rest(xs[2..]) else Rest(xs[1..])
  {
    var b, others := xs[0].blanks, Others(xs[1..]);
    assert b == 0 ==> Spaces(b) + others == others;
    assert |xs| == 1 ==> xs[1..] == [] && others == "";
    assert b > 0 ==> (Spaces(b) + others)[1..] == "" + (Spaces(b - 1) + others);
    assert |xs| > 1 ==> xs[1..][1..] == xs[2..];
    hide Later, Others, IsToken, Spaces, Rest;
    if b > 0 {
      LaterGoesOnAfter("", b - 1, xs[1..]);
    } else if |xs| > 1 {
      LaterSkipsOne(xs[1..]);
    }
  }

  /** The token is not the word, or not all of it. */
  lemma TriedPart(w: Word, xs: seq<Item>, n: nat)
    requires xs != [] && AreTokens(xs) && Listed(xs) != ""
    requires n == Common(LoweredBits(Listed(xs)), Spelling(w)) < |Spelling(w)| && n <= |xs[0].token|
    ensures Tried(w, Listed(xs)) ==
      if n == |xs[0].token| && xs[0].blanks == 0 then (if |xs| == 1 then {} else Rest(xs[2..])) else Rest(xs[1..])
  {
    var s, t, rest := Listed(xs), xs[0].token, Spaces(xs[0].blanks) + Others(xs[1..]);
    ListedIs(xs);
    hide Tried, AfterWord, Common, Listed, Others, Spelling, LoweredBits, IsToken, Spaces, Rest, SkipGaps, Later;
    TriedIs(w, s, n);
    if n < |t| {
      assert s[n + 1..] == t[n + 1..] + rest;
      AfterMismatch(xs, n);
    } else if rest != "" {
      assert s[n..] == t[n..] + rest == rest;
      assert s[n + 1..] == s[n..][1..];
      AfterBrokenOff(xs);
    }
  }

  lemma TriedFirst(w: Word, xs: seq<Item>)
    requires xs != [] && AreTokens(xs) && Listed(xs) != ""
    ensures Tried(w, Listed(xs)) ==
      if BrokenOff(xs[0].token, w) && xs[0].blanks == 0 then (if |xs| == 1 then {} else Rest(xs[2..]))
      else (if Is(xs[0].token, w) then {w} else {}) + Rest(xs[1..])
  {
    ListedIs(xs);
    Agreement(w, xs[0].token, Spaces(xs[0].blanks) + Others(xs[1..]));
    var n := Common(LoweredBits(Listed(xs)), Spelling(w));
    hide Common, Rest, Listed, Others, Spelling, LoweredBits, IsToken, Tried, Is, BrokenOff, Spaces;
    if n == |Spelling(w)| { TriedWhole(w, xs, n); } else { TriedPart(w, xs, n); }
  }

  lemma NotTried(xs: seq<Item>)
    requires xs != [] && AreTokens(xs)
    ensures Listed(xs) != "" && Later(Listed(xs)[1..]) == Rest(xs[1..])
  {
    var t, rest := xs[0].token, Spaces(xs[0].blanks) + Others(xs[1..]);
    ListedIs(xs);
    TokenHasNoComma(t);
    assert Listed(xs)[1..] == t[1..] + rest;
    hide Later, Rest, Listed, Others, IsToken, Spaces;
    LaterGoesOnAfter(t[1..], xs[0].blanks, xs[1..]);
  }

  lemma FirstOf(t: string)
    requires IsToken(t)
    ensures WordFor(LowerBit(t[0])).None? ==> (StrictToken(LowerBit(t[0])) == NUL <==> t[0] == '_')
    ensures t[0] == '_' ==> WordFor(LowerBit(t[0])).None?
  {
  }

  // ---- The list as a whole -----------------------------------------------------------------

  /** What a token that is looked at adds. */
  function Step(xs: seq<Item>): set<Word>
    requires xs != []
  {
    if Swallows(xs[0]) then (if |xs| == 1 then {} else Rest(xs[2..])) else WordsOf(xs[0].token) + Rest(xs[1..])
  }

  lemma FirstLooked(xs: seq<Item>)
    requires xs != [] && AreTokens(xs)
    ensures Listed(xs) != "" && Listed(xs)[0] == xs[0].token[0]
    ensures var c := LowerBit(xs[0].token[0]);
      (if WordFor(c).Some? then Tried(WordFor(c).value, Listed(xs)) else Later(Listed(xs)[1..])) == Step(xs)
  {
    var t := xs[0].token;
    var c := LowerBit(t[0]);
    ListedIs(xs);
    assert Listed(xs)[0] == t[0];
    hide Rest, Tried, Later, Listed, WordsOf, IsBrokenOff, BrokenOff, Is, LowerBit, WordFor, StrictToken, IsToken, Spaces;
    if WordFor(c).Some? {
      TriedFirst(WordFor(c).value, xs);
      WordsAreApart(t, WordFor(c).value);
    } else {
      NotTried(xs);
      OtherTokens(t);
    }
  }

  /** A later token. */
  lemma LaterToken(xs: seq<Item>)
    requires xs != [] && AreTokens(xs)
    ensures Rest(xs) == if Stops(xs[0]) then {} else Step(xs)
  {
    var t := xs[0].token;
    TokenHasNoComma(t);
    FirstOf(t);
    FirstLooked(xs);
    GapsSkipped(xs[0].lead, Listed(xs), true);
    hide Listed, LowerBit, StrictToken, Tried, Later, WordFor, SkipGaps, Step, IsToken, Spaces;
  }

  lemma {:induction false} RestIsFound(xs: seq<Item>, i: nat)
    requires AreTokens(xs) && 0 < i
    ensures i <= |xs| ==> Rest(xs[i..]) == FoundFrom(xs, i)
    decreases |xs| - i
  {
    hide Stops, Swallows, WordsOf;
    if i < |xs| {
      hide Rest;
      LaterToken(xs[i..]);
      NextFound(xs, i);
    }
  }

  lemma {:induction false} NextFound(xs: seq<Item>, i: nat)
    requires AreTokens(xs) && i < |xs|
    ensures Step(xs[i..]) == if Swallows(xs[i]) then FoundFrom(xs, i + 2) else WordsOf(xs[i].token) + FoundFrom(xs, i + 1)
    decreases |xs| - i, 0
  {
    hide Swallows, WordsOf, FoundFrom, IsToken;
    assert xs[i..][1..] == xs[i + 1..];
    RestIsFound(xs, i + 1);
    if i + 1 < |xs| {
      assert xs[i..][2..] == xs[i + 2..];
      RestIsFound(xs, i + 2);
    } else {
      NothingLeft(xs, i + 2);
    }
  }

  lemma NothingLeft(xs: seq<Item>, i: nat)
    requires i >= |xs|
    ensures FoundFrom(xs, i) == {}
  {
  }

  lemma MentionedIsFound(xs: seq<Item>)
    requires xs != [] && AreTokens(xs)
    ensures Mentioned(Listed(xs)) == FoundFrom(xs, 0)
  {
    hide Tried, Later, Listed, WordsOf, Swallows, LowerBit, WordFor, Stops, Step, IsToken;
    FirstLooked(xs);
    assert xs[0..] == xs;
    NextFound(xs, 0);
  }

  /** In the value of a Connection header the parser finds a word exactly if a token that it looks at
      spells it. It looks at a token exactly if the comma before the token is not swallowed, and no
      token up to there ends the search. */
  lemma WordsOfListsAreFound(xs: seq<Item>, w: Word)
    requires xs != [] && AreTokens(xs)
    ensures w in Mentioned(Listed(xs)) <==> exists i | 0 <= i < |xs| :: LookedAt(xs, i) && Is(xs[i].token, w)
  {
    hide Mentioned, FoundFrom, Listed, IsToken, Is, LookedAt, Spelling, LoweredBits;
    MentionedIsFound(xs);
    FoundIsLookedAt(xs, 0, w);
  }

  // ---- When every token is looked at -------------------------------------------------------

  /** No word is broken off right before a comma, and no token but the first begins with '_'. */
  predicate WellSpelled(xs: seq<Item>) {
    && (forall i | 0 <= i < |xs| - 1 :: !Swallows(xs[i]))
    && (forall i | 0 < i < |xs| :: !Stops(xs[i]))
  }

  lemma WellSpelledIsLookedAt(xs: seq<Item>)
    ensures WellSpelled(xs) <==> forall i | 0 <= i < |xs| :: LookedAt(xs, i)
  {
    hide Swallows, Stops;
    if WellSpelled(xs) {
      forall i | 0 <= i < |xs| ensures RunBefore(xs, i) == 0 {}
    } else if forall i | 0 <= i < |xs| :: LookedAt(xs, i) {
      forall i | 0 <= i < |xs| - 1 ensures !Swallows(xs[i]) {
        assert LookedAt(xs, i) && LookedAt(xs, i + 1);
      }
      forall i | 0 < i < |xs| ensures !Stops(xs[i]) {
        assert LookedAt(xs, i) && !Ends(xs, i);
      }
    }
  }

  /** And where a word is missed: a close that is in the list, and not found. */
  lemma CloseIsMissed()
    ensures Is("close", CLOSE) && CLOSE !in Mentioned("k, close")
  {
    var xs := [Item(0, "k", 0), Item(1, "close", 0)];
    KBeforeClose();
    KCloseListed();
    hide Mentioned, LoweredBits, Spelling, Listed, IsToken, Is, LookedAt;
    WordsOfListsAreFound(xs, CLOSE);
  }

  lemma KBeforeClose()
    ensures var xs := [Item(0, "k", 0), Item(1, "close", 0)];
      Is("close", CLOSE) && !Is("k", CLOSE) && !LookedAt(xs, 1) && IsToken("k") && IsToken("close")
  {
    var xs := [Item(0, "k", 0), Item(1, "close", 0)];
    assert LoweredBits("close") == "close" && LoweredBits("k") == "k";
    assert Spelling(KEEP_ALIVE)[..1] == "k";
    assert Swallows(xs[0]);
    assert RunBefore(xs, 1) == 1;
  }

  lemma KCloseListed()
    ensures Listed([Item(0, "k", 0), Item(1, "close", 0)]) == "k, close"
  {
    var x, y := Item(0, "k", 0), Item(1, "close", 0);
    assert [x, y][1..] == [y] && [y][1..] == [];
    assert Spaces(0) == "" && Spaces(1) == " ";
    assert Others([]) == "" && Listed([y]) == "close";
    assert Others([y]) == ", close";
  }
}
