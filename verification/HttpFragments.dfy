/**
 How the way a stream is cut into fragments affects what the parser makes of it. It does, in two
 ways: a fragment that ends inside a name or a value counts one header byte more, and it ends the
 search that passes over the characters of an ordinary value unseen. A finer cutting is therefore
 never more tolerant than a coarser one; if both are accepted, their results are the same.
 */
module HttpFragments {
  import opened HttpChars
  import opened HttpParser
  import opened HttpStream
  import HttpExecute

  /** The start of a fragment. */
  function Refreshed(c: Cursor): Cursor { c.(taken := 0, skipping := false) }

  /** The fragments of a stream, one call for each. */
  function FeedAll(cfg: Config, c: Cursor, pieces: seq<string>): (r: Cursor)
    requires Running(c) ==> Fit(c)
    ensures Running(r) ==> Fit(r)
    decreases |pieces|
  {
    if pieces == [] || !Running(c) then c
    else FeedAll(cfg, Feed(cfg, Refreshed(c), pieces[0]), pieces[1..])
  }

  lemma {:induction false} FeedAllConcat(cfg: Config, c: Cursor, a: seq<string>, b: seq<string>)
    requires Running(c) ==> Fit(c)
    ensures FeedAll(cfg, c, a + b) == FeedAll(cfg, FeedAll(cfg, c, a), b)
    decreases |a|
  {
    hide Feed, FitFor;
    if a == [] {
      assert a + b == b;
    } else if Running(c) {
      assert (a + b)[1..] == a[1..] + b;
      FeedAllConcat(cfg, Feed(cfg, Refreshed(c), a[0]), a[1..], b);
    }
  }

  function Join(pieces: seq<string>): string
    decreases |pieces|
  {
    if pieces == [] then "" else pieces[0] + Join(pieces[1..])
  }

  /** The finest fragments. */
  function Singles(data: string): seq<string> { seq(|data|, i requires 0 <= i < |data| => [data[i]]) }

  predicate NonEmpty(pieces: seq<string>) { forall i | 0 <= i < |pieces| :: pieces[i] != "" }

  /** The same result but for the count of header bytes and the place within the fragment. */
  predicate SameResult(a: Cursor, b: Cursor) {
    a.p == b.p && a.log == b.log && a.left == b.left
  }

  // ---- Runs over one string with cuts ------------------------------------------------------

  /** data[i..] as the bytes before positions in `cuts`, and the last byte, end fragments. */
  function Run(cfg: Config, c: Cursor, data: string, i: nat, cuts: set<nat>): (r: Cursor)
    requires i <= |data| && (Running(c) ==> Fit(c))
    ensures Running(r) ==> Fit(r)
    decreases |data| - i
  {
    if i == |data| || !Running(c) then c
    else
      var last := i + 1 == |data| || i + 1 in cuts;
      ByteSound(cfg, c, data[i], last);
      var d := Byte(cfg, c, data[i], last);
      Run(cfg, if last then Refreshed(d) else d, data, i + 1, cuts)
  }

  /** Where the fragments of data[i..] end, but for the last one. */
  function Cuts(pieces: seq<string>, i: nat): set<nat>
    decreases |pieces|
  {
    if |pieces| <= 1 then {} else {i + |pieces[0]|} + Cuts(pieces[1..], i + |pieces[0]|)
  }

  // ---- A finer cutting simulates a coarser one ---------------------------------------------

  /** A finer cutting that is accepted simulates a coarser one. */
  predicate Simulates(a: Cursor, b: Cursor) {
    b.p.errno == Ok ==>
      && SameResult(a, b) && a.nread <= b.nread
      && (b.skipping ==> a.skipping)
      && (a.skipping ==> a.p.state == Value && a.p.hs == General)
  }

  /** Passing over a character of an ordinary value is like looking at it and accepting it. */
  lemma TurnUnseen(cfg: Config, p: Parser, ch: char)
    requires p.state == Value && p.hs == General && p.errno == Ok
    ensures Turn(cfg, p, ch, false).p.errno == Ok ==> Turn(cfg, p, ch, true) == Turn(cfg, p, ch, false)
  {
    hide IsHeaderChar;
  }

  /** An ordinary value stays ordinary. */
  lemma StaysOrdinary(cfg: Config, p: Parser, ch: char, skipping: bool)
    requires p.state == Value && p.hs == General
    ensures var o := Turn(cfg, p, ch, skipping); o.p.state == Value ==> o.p.hs == General
  {
    hide IsHeaderChar;
  }

  lemma ByteSimulates(cfg: Config, a: Cursor, b: Cursor, ch: char, lastA: bool, lastB: bool)
    requires Running(b) && Fit(a) && Fit(b) && Simulates(a, b) && (lastA ==> lastB)
    ensures Simulates(Byte(cfg, a, ch, lastA), Byte(cfg, b, ch, lastB))
  {
    hide Turn, FitFor, AppendAll;
    if a.p.state == Value && a.p.hs == General {
      TurnUnseen(cfg, a.p, ch);
      StaysOrdinary(cfg, a.p, ch, a.skipping);
    }
  }

  lemma {:induction false} RunSimulates(cfg: Config, a: Cursor, b: Cursor, data: string, i: nat, cutsA: set<nat>, cutsB: set<nat>)
    requires i <= |data| && (Running(a) ==> Fit(a)) && (Running(b) ==> Fit(b))
    requires Simulates(a, b) && cutsA <= cutsB
    ensures Simulates(Run(cfg, a, data, i, cutsA), Run(cfg, b, data, i, cutsB))
    decreases |data| - i
  {
    hide Byte, FitFor;
    if i < |data| && Running(b) {
      var lastA, lastB := i + 1 == |data| || i + 1 in cutsA, i + 1 == |data| || i + 1 in cutsB;
      ByteSimulates(cfg, a, b, data[i], lastA, lastB);
      ByteSound(cfg, a, data[i], lastA);
      ByteSound(cfg, b, data[i], lastB);
      var a', b' := Byte(cfg, a, data[i], lastA), Byte(cfg, b, data[i], lastB);
      RunSimulates(cfg, if lastA then Refreshed(a') else a', if lastB then Refreshed(b') else b', data, i + 1, cutsA, cutsB);
    }
  }

  // ---- Runs are what feeding fragments does ------------------------------------------------

  /** Equal but for the place within a fragment. */
  predicate Agree(a: Cursor, b: Cursor) { a.p == b.p && a.nread == b.nread && a.log == b.log && a.left == b.left }

  lemma {:induction false} FeedIsRun(cfg: Config, c: Cursor, s: string, data: string, i: nat, cuts: set<nat>)
    requires (Running(c) ==> Fit(c)) && s != "" && i + |s| <= |data| && data[i..i + |s|] == s
    requires forall x | i < x < i + |s| :: x !in cuts
    requires i + |s| == |data| || i + |s| in cuts
    ensures Agree(Run(cfg, c, data, i, cuts), Run(cfg, Refreshed(Feed(cfg, c, s)), data, i + |s|, cuts))
    decreases |s|
  {
    hide Byte, FitFor;
    if Running(c) {
      ByteSound(cfg, c, s[0], |s| == 1);
      var d := Byte(cfg, c, s[0], |s| == 1);
      assert data[i] == data[i..i + |s|][0] == s[0];
      if |s| == 1 {
        assert Feed(cfg, d, s[1..]) == d;
      } else {
        assert data[i + 1..i + |s|] == data[i..i + |s|][1..] == s[1..];
        FeedIsRun(cfg, d, s[1..], data, i + 1, cuts);
      }
    }
  }

  lemma {:induction false} CutsLater(pieces: seq<string>, i: nat)
    requires NonEmpty(pieces)
    ensures forall x | x in Cuts(pieces, i) :: pieces != [] && x >= i + |pieces[0]| > i
    decreases |pieces|
  {
    if |pieces| > 1 {
      assert pieces[0] != "";
      forall k | 0 <= k < |pieces[1..]| ensures pieces[1..][k] != "" { assert pieces[1..][k] == pieces[k + 1]; }
      CutsLater(pieces[1..], i + |pieces[0]|);
    }
  }

  lemma {:induction false} FeedAllIsRun(cfg: Config, c: Cursor, pieces: seq<string>, data: string, i: nat, cuts: set<nat>)
    requires (Running(c) ==> Fit(c)) && NonEmpty(pieces) && i <= |data| && data[i..] == Join(pieces)
    requires forall x | x > i :: x in cuts <==> x in Cuts(pieces, i)
    ensures Agree(FeedAll(cfg, c, pieces), Run(cfg, Refreshed(c), data, i, cuts))
    decreases |pieces|
  {
    hide FitFor;
    if pieces != [] && Running(c) {
      var s, rest := pieces[0], pieces[1..];
      var n := |s|;
      assert s != "";
      forall k | 0 <= k < |rest| ensures rest[k] != "" { assert rest[k] == pieces[k + 1]; }
      assert data[i..][..n] == s && data[i..i + n] == data[i..][..n];
      assert data[i + n..] == data[i..][n..] == Join(rest);
      CutsLater(pieces, i);
      CutsLater(rest, i + n);
      if rest == [] {
        assert Join(rest) == "";
      }
      FeedIsRun(cfg, Refreshed(c), s, data, i, cuts);
      FeedAllIsRun(cfg, Feed(cfg, Refreshed(c), s), rest, data, i + n, cuts);
    }
  }

  /** What one way to cut a stream that is accepted gives, every coarser one gives. */
  lemma CoarserIsAccepted(cfg: Config, c: Cursor, coarse: seq<string>, fine: seq<string>)
    requires (Running(c) ==> Fit(c)) && NonEmpty(coarse) && NonEmpty(fine) && Join(coarse) == Join(fine)
    requires Cuts(coarse, 0) <= Cuts(fine, 0)
    requires FeedAll(cfg, c, fine).p.errno == Ok
    ensures SameResult(FeedAll(cfg, c, coarse), FeedAll(cfg, c, fine))
    ensures FeedAll(cfg, c, coarse).nread <= FeedAll(cfg, c, fine).nread
  {
    var data := Join(coarse);
    assert data[0..] == data;
    FeedAllIsRun(cfg, c, coarse, data, 0, Cuts(coarse, 0));
    FeedAllIsRun(cfg, c, fine, data, 0, Cuts(fine, 0));
    RunSimulates(cfg, Refreshed(c), Refreshed(c), data, 0, Cuts(coarse, 0), Cuts(fine, 0));
  }

  lemma {:induction false} CutsWithin(pieces: seq<string>, i: nat)
    requires NonEmpty(pieces)
    ensures forall x | x in Cuts(pieces, i) :: i < x < i + |Join(pieces)|
    decreases |pieces|
  {
    if |pieces| > 1 {
      var rest := pieces[1..];
      assert pieces[0] != "" && rest[0] == pieces[1] != "";
      forall k | 0 <= k < |rest| ensures rest[k] != "" { assert rest[k] == pieces[k + 1]; }
      CutsWithin(rest, i + |pieces[0]|);
      assert Join(rest) == rest[0] + Join(rest[1..]);
    }
  }

  lemma {:induction false} SinglesCut(data: string, i: nat)
    ensures Join(Singles(data)) == data && NonEmpty(Singles(data))
    ensures forall x | i < x < i + |data| :: x in Cuts(Singles(data), i)
    decreases |data|
  {
    var pieces := Singles(data);
    if data != "" {
      assert pieces[1..] == Singles(data[1..]);
      SinglesCut(data[1..], i + 1);
      assert data == [data[0]] + data[1..];
    }
  }

  /** The finest cutting is the strictest: a stream is accepted however it is cut exactly if it is
      accepted one byte at a time, and then the results are the same. */
  lemma FinestIsStrictest(cfg: Config, c: Cursor, pieces: seq<string>)
    requires (Running(c) ==> Fit(c)) && NonEmpty(pieces)
    requires FeedAll(cfg, c, Singles(Join(pieces))).p.errno == Ok
    ensures SameResult(FeedAll(cfg, c, pieces), FeedAll(cfg, c, Singles(Join(pieces))))
  {
    var data := Join(pieces);
    SinglesCut(data, 0);
    CutsWithin(pieces, 0);
    assert Cuts(pieces, 0) <= Cuts(Singles(data), 0);
    CoarserIsAccepted(cfg, c, pieces, Singles(data));
  }

  /** The whole stream in one piece is accepted if it is accepted in any pieces. */
  lemma WholeIsMostTolerant(cfg: Config, c: Cursor, pieces: seq<string>)
    requires (Running(c) ==> Fit(c)) && NonEmpty(pieces) && pieces != []
    requires FeedAll(cfg, c, pieces).p.errno == Ok
    ensures SameResult(FeedAll(cfg, c, [Join(pieces)]), FeedAll(cfg, c, pieces))
  {
    var whole := [Join(pieces)];
    assert pieces[0] != "";
    assert Join(whole) == Join(pieces) + Join([]) == Join(pieces);
    CoarserIsAccepted(cfg, c, whole, pieces);
  }

  // ---- The converse fails ------------------------------------------------------------------

  /** A header that just fits under the limit does not if it arrives in two fragments. */
  lemma CutsCountTwice(c: Cursor, limit: nat)
    requires Running(c) && Fit(c) && c.p.state == Field && c.p.hs == General && c.nread + 3 == limit
    ensures var cfg := Config(true, limit, false);
      && FeedAll(cfg, c, ["ab:"]).p.errno == Ok
      && FeedAll(cfg, c, ["a", "b:"]).p.errno == HeaderOverflow
  {
    hide Byte, FitFor, Feed;
    var cfg := Config(true, limit, false);
    OnePiece(cfg, Refreshed(c), "ab:");
    assert FeedAll(cfg, c, ["ab:"]) == FeedAll(cfg, Feed(cfg, Refreshed(c), "ab:"), []);
    var x := LetterOfName(cfg, Refreshed(c), 'a', true);
    OneLetter(cfg, Refreshed(c), "a", x);
    SecondPiece(cfg, Refreshed(x), "b:");
    assert ["a", "b:"][1..] == ["b:"] && ["b:"][1..] == [];
    assert FeedAll(cfg, x, ["b:"]) == FeedAll(cfg, Feed(cfg, Refreshed(x), "b:"), []);
  }

  lemma OneLetter(cfg: Config, c: Cursor, s: string, d: Cursor)
    requires Running(c) && Fit(c) && |s| == 1 && d == Byte(cfg, c, s[0], true) && (Running(d) ==> Fit(d))
    ensures Feed(cfg, c, s) == d
  {
    hide Byte;
    assert Feed(cfg, c, s) == Feed(cfg, d, s[1..]);
  }

  lemma OnePiece(cfg: Config, c: Cursor, s: string)
    requires Running(c) && Fit(c) && c.p.state == Field && c.p.hs == General && c.nread + 3 == cfg.limit && s == "ab:"
    ensures Feed(cfg, c, s).p.errno == Ok
  {
    hide Byte, FitFor, Feed;
    var a := LetterOfName(cfg, c, 'a', false);
    var ab := LetterOfName(cfg, a, 'b', false);
    HttpExecute.NameByteEnd(cfg, ab, ':', true);
    Three(cfg, c, s, a, ab);
  }

  lemma SecondPiece(cfg: Config, c: Cursor, s: string)
    requires Running(c) && Fit(c) && c.p.state == Field && c.p.hs == General && c.nread + 1 == cfg.limit && s == "b:"
    ensures Feed(cfg, c, s).p.errno == HeaderOverflow
  {
    hide Byte, FitFor;
    var b := LetterOfName(cfg, c, 'b', false);
    HttpExecute.NameByteEnd(cfg, b, ':', true);
    assert Feed(cfg, c, s) == Feed(cfg, b, s[1..]) == Feed(cfg, Byte(cfg, b, ':', true), s[1..][1..]);
  }

  lemma LetterOfName(cfg: Config, c: Cursor, ch: char, last: bool) returns (d: Cursor)
    requires Running(c) && Fit(c) && c.p.state == Field && c.p.hs == General && 'a' <= ch <= 'z'
    requires c.nread + (if last then 2 else 1) <= cfg.limit
    ensures d == Byte(cfg, c, ch, last) && Running(d) && Fit(d)
    ensures d.p == c.p && d.nread == c.nread + (if last then 2 else 1)
  {
    HttpExecute.NameByte(cfg, c.p, ch, c.skipping);
    HttpExecute.TextByte(cfg, c, ch, last, c.p, FieldText);
    d := Byte(cfg, c, ch, last);
  }

  lemma Three(cfg: Config, c: Cursor, s: string, d: Cursor, e: Cursor)
    requires |s| == 3 && Running(c) && Fit(c) && Running(d) && Fit(d) && Running(e) && Fit(e)
    requires d == Byte(cfg, c, s[0], false) && e == Byte(cfg, d, s[1], false)
    ensures Feed(cfg, c, s) == Byte(cfg, e, s[2], true)
  {
    hide Byte;
    ByteSound(cfg, e, s[2], true);
    assert Feed(cfg, c, s) == Feed(cfg, d, s[1..]) == Feed(cfg, e, s[1..][1..]);
    assert Feed(cfg, e, s[1..][1..]) == Feed(cfg, Byte(cfg, e, s[2], true), s[1..][1..][1..]);
  }

  lemma WholeHidesControl(c: Cursor, cfg: Config)
    requires Running(c) && Fit(c) && c.p.state == Value && c.p.hs == General
    requires c.nread + 4 <= cfg.limit && !cfg.lenient
    ensures FeedAll(cfg, c, ["a\U{1}b"]).p.errno == Ok
  {
    hide Byte;
    var data := "a\U{1}b";
    var s := Refreshed(c);
    var e := HttpExecute.SkipRun(cfg, s, data, 0, 3);
    assert data[0..] == data && data[3..] == "";
    assert FeedAll(cfg, c, [data]) == FeedAll(cfg, Feed(cfg, s, data), []);
  }

  /** A control character in a value goes unnoticed, unless a fragment begins with it. */
  lemma CutsRevealControls(c: Cursor, cfg: Config)
    requires Running(c) && Fit(c) && c.p.state == Value && c.p.hs == General
    requires c.nread + 4 <= cfg.limit && !cfg.lenient
    ensures FeedAll(cfg, c, ["a\U{1}b"]).p.errno == Ok
    ensures FeedAll(cfg, c, ["a", "\U{1}b"]).p.errno == InvalidHeaderToken
  {
    hide Byte;
    WholeHidesControl(c, cfg);
    var s := Refreshed(c);
    var x := HttpExecute.SkipRun(cfg, s, "a", 0, 1);
    assert "a"[0..] == "a" && "a"[1..] == "";
    var y := Refreshed(x);
    HttpExecute.ValueByte(cfg, y.p, '\U{1}');
    BadByte(cfg, y, '\U{1}');
    assert Feed(cfg, y, "\U{1}b") == Byte(cfg, y, '\U{1}', false);
    assert ["a", "\U{1}b"][1..] == ["\U{1}b"];
    assert FeedAll(cfg, x, ["\U{1}b"]) == FeedAll(cfg, Feed(cfg, y, "\U{1}b"), []);
  }

  lemma BadByte(cfg: Config, c: Cursor, ch: char)
    requires Running(c) && Fit(c) && c.p.state == Value && c.nread < cfg.limit
    requires Turn(cfg, c.p, ch, c.skipping) == Fail(c.p, InvalidHeaderToken)
    ensures Byte(cfg, c, ch, false).p.errno == InvalidHeaderToken
  {
    hide Turn;
  }
}
