/**
 The lengths a message announces, in decimal or hexadecimal digits: the parser's 64-bit arithmetic
 gives exactly the number the digits stand for, or refuses it; it never wraps around and never
 arrives at ULLONG_MAX, which means that there is no length.
 */
module HttpLengths {
  import opened Options
  import opened HttpChars
  import opened HttpParser
  import opened HttpHeaders

  predicate AreDigits(v: string, base: nat) {
    forall i | 0 <= i < |v| :: 0 <= Unhex(v[i]) < base && (base == 10 ==> IsNum(v[i]))
  }

  /** The number that digits stand for. */
  function PlaceValue(v: string, base: nat): nat
    requires AreDigits(v, base)
  {
    if v == "" then 0 else PlaceValue(v[..|v| - 1], base) * base + Unhex(v[|v| - 1])
  }

  /** All but the last digit stay within the guard. */
  predicate InRange(v: string, base: nat)
    requires AreDigits(v, base) && v != "" && base > 0
  {
    PlaceValue(v[..|v| - 1], base) <= (NO_LENGTH - base) / base
  }

  lemma OneMoreDigit(v: string, base: nat, i: nat)
    requires AreDigits(v, base) && i < |v|
    ensures PlaceValue(v[..i + 1], base) == PlaceValue(v[..i], base) * base + Unhex(v[i])
  {
    assert v[..i + 1][..i] == v[..i];
  }

  lemma TimesGrows(x: nat, base: nat)
    requires base > 0
    ensures x * base >= x
  {
  }

  lemma {:induction false} MoreDigitsMore(v: string, base: nat, i: nat, j: nat)
    requires AreDigits(v, base) && i <= j <= |v| && base > 0
    ensures PlaceValue(v[..i], base) <= PlaceValue(v[..j], base)
    decreases j - i
  {
    hide PlaceValue;
    if i < j {
      OneMoreDigit(v, base, j - 1);
      MoreDigitsMore(v, base, i, j - 1);
      TimesGrows(PlaceValue(v[..j - 1], base), base);
    }
  }

  /** One decimal step of the parser. */
  lemma DecimalStep(length: nat, digit: nat)
    requires digit < 10 && !TooLong(length, 10)
    ensures Grown(length, 10, digit) == length * 10 + digit < NO_LENGTH
  {
  }

  lemma HexStep(length: nat, digit: nat)
    requires digit < 16 && !TooLong(length, 16)
    ensures Grown(length, 16, digit) == length * 16 + digit < NO_LENGTH
  {
  }

  /** The digits of a Content-Length after the first i of them. */
  lemma {:induction false} DecimalSteps(p: Parser, v: string, i: nat)
    requires AreDigits(v, 10) && 0 < i <= |v| && p.hs == ContentLength && p.length == PlaceValue(v[..i], 10)
    ensures if InRange(v, 10) || i == |v| then ValueSteps(p, v[i..]) == Some(p.(length := PlaceValue(v, 10)))
            else ValueSteps(p, v[i..]) == None
    decreases |v| - i
  {
    if i == |v| {
      assert v[..i] == v && v[i..] == "";
    } else {
      MoreDigitsMore(v, 10, i, |v| - 1);
      OneMoreDigit(v, 10, i);
      if !TooLong(p.length, 10) {
        DecimalStep(p.length, Digit(v[i]));
        assert v[i..][1..] == v[i + 1..];
        DecimalSteps(p.(length := PlaceValue(v[..i + 1], 10)), v, i + 1);
        if i + 1 == |v| {
          assert v[..i + 1] == v && v[..|v| - 1] == v[..i];
        }
      }
    }
  }

  /** A Content-Length of digits is taken exactly if it is in range, and then it is what they stand for. */
  lemma ContentLengthIsExact(p: Parser, v: string)
    requires AreDigits(v, 10) && v != "" && p.hs == ContentLength && !p.flags.contentLength
    ensures var o := OnValueStart(p, v[0]);
      && o.p.errno == p.errno
      && if InRange(v, 10) || |v| == 1 then
           ValueSteps(o.p, v[1..]) ==
             Some(p.(state := Value, index := 0, length := PlaceValue(v, 10), flags := p.flags.(contentLength := true)))
           && PlaceValue(v, 10) < NO_LENGTH
         else ValueSteps(o.p, v[1..]) == None
  {
    var o := OnValueStart(p, v[0]);
    assert PlaceValue(v[..1], 10) == Unhex(v[0]) by {
      OneMoreDigit(v, 10, 0);
    }
    DecimalSteps(o.p, v, 1);
    if InRange(v, 10) {
      OneMoreDigit(v, 10, |v| - 1);
      assert v[..|v|] == v;
    }
  }

  /** The parser passes over spaces among the digits. */
  function Squeezed(v: string): (u: string)
    ensures (forall i | 0 <= i < |v| :: IsNum(v[i]) || v[i] == SP) ==> AreDigits(u, 10)
  {
    if v == "" then ""
    else
      var rest := Squeezed(v[1..]);
      assert (forall i | 0 <= i < |v| :: IsNum(v[i]) || v[i] == SP) ==> forall i | 0 <= i < |v[1..]| :: v[1..][i] == v[i + 1];
      if v[0] == SP then rest else [v[0]] + rest
  }

  /** A digit, and then digits and spaces. */
  predicate IsSpaced(v: string) { v != "" && IsNum(v[0]) && forall i | 0 <= i < |v| :: IsNum(v[i]) || v[i] == SP }

  lemma {:induction false} SqueezedSteps(p: Parser, v: string)
    requires p.hs == ContentLength
    ensures ValueSteps(p, v) == ValueSteps(p, Squeezed(v))
    decreases |v|
  {
    if v != "" {
      match ValueStep(p, v[0]) {
        case None =>
        case Some(q) => SqueezedSteps(q, v[1..]);
      }
    }
  }

  lemma {:induction false} NoDigitNoLength(p: Parser, v: string, i: nat)
    requires p.hs == ContentLength && i < |v| && !IsNum(v[i]) && v[i] != SP
    ensures ValueSteps(p, v) == None
    decreases |v|
  {
    if i > 0 && ValueStep(p, v[0]).Some? {
      NoDigitNoLength(ValueStep(p, v[0]).value, v[1..], i - 1);
    }
  }

  lemma SingleInRange(v: string)
    requires AreDigits(v, 10) && |v| == 1
    ensures InRange(v, 10)
  {
  }

  /** The value of the first Content-Length of a message is taken exactly if it is a digit followed by
      digits and spaces, and in range; the length is then what the digits stand for. */
  lemma LengthsTaken(p: Parser, v: string)
    requires v != "" && p.hs == ContentLength && p.errno == Ok && !p.flags.contentLength
    ensures var o := OnValueStart(p, v[0]);
      && (o.p.errno == Ok && ValueSteps(o.p, v[1..]).Some? <==> IsSpaced(v) && InRange(Squeezed(v), 10))
      && (o.p.errno == Ok && ValueSteps(o.p, v[1..]).Some? ==>
            ValueSteps(o.p, v[1..]) == Some(p.(state := Value, index := 0, length := PlaceValue(Squeezed(v), 10),
                                               flags := p.flags.(contentLength := true)))
            && PlaceValue(Squeezed(v), 10) < NO_LENGTH)
  {
    var u, o := Squeezed(v), OnValueStart(p, v[0]);
    if IsNum(v[0]) {
      assert u == [v[0]] + Squeezed(v[1..]) && u[0] == v[0] && u[1..] == Squeezed(v[1..]);
      SqueezedSteps(o.p, v[1..]);
      if IsSpaced(v) {
        ContentLengthIsExact(p, u);
        if |u| == 1 { SingleInRange(u); }
      } else {
        var i :| 0 <= i < |v| && !IsNum(v[i]) && v[i] != SP;
        NoDigitNoLength(o.p, v[1..], i - 1);
      }
    }
    hide PlaceValue, InRange, ValueSteps, Squeezed, AreDigits;
  }

  /** A value that is no number of section 14.13 of RFC 2616, and is taken for 12. */
  lemma SpacedLengthIsTaken(p: Parser)
    requires p.hs == ContentLength && p.errno == Ok && !p.flags.contentLength
    ensures var o := OnValueStart(p, '1');
      o.p.errno == Ok && ValueSteps(o.p, " 2").Some? && ValueSteps(o.p, " 2").value.length == 12
  {
    var q := OnValueStart(p, '1').p;
    assert " 2"[1..] == "2" && "2"[1..] == "";
    assert ValueStep(q, SP) == Some(q);
    assert ValueSteps(q, " 2") == ValueSteps(q, "2");
    DecimalStep(1, 2);
    assert ValueSteps(q, "2") == ValueSteps(q.(length := 12), "");
  }

  // ---- Chunk sizes -------------------------------------------------------------------------

  /** The switch in s_chunk_size, over several digits. */
  function ChunkSteps(cfg: Config, p: Parser, v: string): Out
    decreases |v|
  {
    if v == "" || p.errno != Ok || !p.state.ChunkSize? then Out(p, [], false, false)
    else ChunkSteps(cfg, OnChunk(cfg, p, v[0]).p, v[1..])
  }

  lemma {:induction false} HexSteps(cfg: Config, p: Parser, v: string, i: nat)
    requires AreDigits(v, 16) && 0 < i <= |v| && p.state == ChunkSize && p.errno == Ok && CR !in v
    requires p.length == PlaceValue(v[..i], 16)
    ensures var q := ChunkSteps(cfg, p, v[i..]).p;
      if InRange(v, 16) || i == |v| then q == p.(length := PlaceValue(v, 16)) else q.errno == InvalidContentLength
    decreases |v| - i
  {
    hide PlaceValue, Unhex, Grown;
    if i == |v| {
      assert v[..i] == v && v[i..] == "";
    } else {
      MoreDigitsMore(v, 16, i, |v| - 1);
      OneMoreDigit(v, 16, i);
      assert v[i] in v;
      if !TooLong(p.length, 16) {
        HexStep(p.length, Unhex(v[i]));
        assert v[i..][1..] == v[i + 1..];
        HexSteps(cfg, p.(length := PlaceValue(v[..i + 1], 16)), v, i + 1);
        if i + 1 == |v| {
          assert v[..i + 1] == v && v[..|v| - 1] == v[..i];
        }
      } else {
        assert OnChunk(cfg, p, v[i]) == Fail(p, InvalidContentLength);
      }
    }
  }

  /** A chunk size of digits is taken exactly if it is in range, and then it is what they stand for. */
  lemma ChunkSizeIsExact(cfg: Config, p: Parser, v: string)
    requires AreDigits(v, 16) && v != "" && p.state == ChunkSizeStart && p.errno == Ok && CR !in v
    ensures var o := OnChunk(cfg, p, v[0]);
      && o.p.errno == Ok
      && if InRange(v, 16) || |v| == 1 then
           ChunkSteps(cfg, o.p, v[1..]).p == p.(state := ChunkSize, length := PlaceValue(v, 16))
           && PlaceValue(v, 16) < NO_LENGTH
         else ChunkSteps(cfg, o.p, v[1..]).p.errno == InvalidContentLength
  {
    assert PlaceValue(v[..1], 16) == Unhex(v[0]) by {
      OneMoreDigit(v, 16, 0);
    }
    HexSteps(cfg, OnChunk(cfg, p, v[0]).p, v, 1);
    if InRange(v, 16) {
      OneMoreDigit(v, 16, |v| - 1);
      assert v[..|v|] == v;
    }
  }

  // ---- What is taken for a size, and what is one -------------------------------------------

  /** The characters the table gives a value of 0 to 15: it lists the lower half only, and the rest is zero. */
  predicate IsSizeChar(ch: char) { IsHex(ch) || ch as int >= 128 }

  predicate AllSizeChars(v: string) { forall i | 0 <= i < |v| :: IsSizeChar(v[i]) }

  lemma SizeCharsAreDigits(v: string)
    ensures AreDigits(v, 16) <==> AllSizeChars(v)
  {
    forall i | 0 <= i < |v| ensures 0 <= Unhex(v[i]) < 16 <==> IsSizeChar(v[i]) {}
    hide Unhex, IsSizeChar;
  }

  /** A hexadecimal number of section 3.6.1 of RFC 2616. */
  predicate IsHexNumber(v: string) { v != "" && forall i | 0 <= i < |v| :: IsHex(v[i]) }

  function HexDigit(ch: char): nat
    requires IsHex(ch)
  {
    if IsNum(ch) then ch as int - '0' as int
    else if 'a' <= ch <= 'f' then ch as int - 'a' as int + 10
    else ch as int - 'A' as int + 10
  }

  function HexNumber(v: string): nat
    requires IsHexNumber(v)
  {
    (if |v| == 1 then 0 else HexNumber(v[..|v| - 1]) * 16) + HexDigit(v[|v| - 1])
  }

  /** The text with a zero for each character of the upper half. */
  function Zeroed(v: string): string { seq(|v|, i requires 0 <= i < |v| => if v[i] as int >= 128 then '0' else v[i]) }

  lemma {:induction false} TakenAsZero(v: string)
    requires AllSizeChars(v) && v != "" && AreDigits(v, 16)
    ensures IsHexNumber(Zeroed(v)) && PlaceValue(v, 16) == HexNumber(Zeroed(v))
  {
    var n := |v| - 1;
    forall i | 0 <= i < |v| ensures IsHex(Zeroed(v)[i]) { assert IsSizeChar(v[i]); }
    assert Unhex(v[n]) == HexDigit(Zeroed(v)[n]);
    if n > 0 {
      assert Zeroed(v)[..n] == Zeroed(v[..n]);
      TakenAsZero(v[..n]);
    } else {
      assert v[..n] == "";
    }
  }

  /** The switch over a text, from the start of a size. */
  function SizeRead(cfg: Config, p: Parser, v: string): Parser
    requires p.state == ChunkSizeStart && v != ""
  {
    ChunkSteps(cfg, OnChunk(cfg, p, v[0]).p, v[1..]).p
  }

  /** Neither the end of the size nor of the line. */
  predicate Unbroken(v: string) { forall i | 0 <= i < |v| :: v[i] != CR && v[i] != ';' && v[i] != SP }

  lemma {:induction false} SizeSteps(cfg: Config, p: Parser, v: string, i: nat)
    requires Unbroken(v) && 0 < i <= |v| && p.state == ChunkSize && p.errno == Ok
    requires AreDigits(v[..i], 16) && p.length == PlaceValue(v[..i], 16) && !AreDigits(v, 16)
    ensures ChunkSteps(cfg, p, v[i..]).p.errno != Ok
    decreases |v| - i
  {
    hide PlaceValue, Unhex, Grown, AreDigits;
    assert v[..|v|] == v;
    if i < |v| {
      assert v[i..][1..] == v[i + 1..];
      assert Unhex(v[i]) >= 0 ==> OnChunk(cfg, p, v[i]).p.errno != Ok || !TooLong(p.length, 16);
      if Unhex(v[i]) >= 0 && !TooLong(p.length, 16) {
        OneDigitMore(v, i);
        HexStep(p.length, Unhex(v[i]));
        SizeSteps(cfg, p.(length := PlaceValue(v[..i + 1], 16)), v, i + 1);
      }
    }
  }

  lemma OneDigitMore(v: string, i: nat)
    requires i < |v| && AreDigits(v[..i], 16) && Unhex(v[i]) >= 0
    ensures AreDigits(v[..i + 1], 16) && Unhex(v[i]) < 16
    ensures PlaceValue(v[..i + 1], 16) == PlaceValue(v[..i], 16) * 16 + Unhex(v[i])
  {
    assert v[..i + 1][..i] == v[..i];
  }

  /** A character of the upper half begins a size, as a zero. */
  lemma UpperHalfIsTaken(cfg: Config, p: Parser)
    requires p.state == ChunkSizeStart && p.errno == Ok
    ensures OnChunk(cfg, p, '\U{80}').p == p.(state := ChunkSize, length := 0)
    ensures !IsHexNumber("\U{80}")
  {
    assert "\U{80}"[0] == '\U{80}';
  }

  /** What may begin a size. */
  lemma SizeBegins(cfg: Config, p: Parser, ch: char)
    requires p.state == ChunkSizeStart && p.errno == Ok
    ensures OnChunk(cfg, p, ch).p.errno == Ok <==> IsHex(ch) || ch as int >= 128
  {
  }

  /** A text is taken for a size exactly if it is made up of hexadecimal digits and characters of the
      upper half, and in range; these count as zeros. It is the hexadecimal number it is taken for
      exactly if none of them is there. */
  lemma SizesTaken(cfg: Config, p: Parser, v: string)
    requires p.state == ChunkSizeStart && p.errno == Ok && v != "" && Unbroken(v)
    ensures var q := SizeRead(cfg, p, v);
      && (q.errno == Ok <==> AllSizeChars(v) && AreDigits(v, 16) && InRange(v, 16))
      && (q.errno == Ok ==>
            && q == p.(state := ChunkSize, length := q.length)
            && IsHexNumber(Zeroed(v)) && q.length == HexNumber(Zeroed(v))
            && (IsHexNumber(v) && q.length == HexNumber(v) <==> forall i | 0 <= i < |v| :: v[i] as int < 128))
  {
    SizeCharsAreDigits(v);
    SizeBegins(cfg, p, v[0]);
    if AreDigits(v, 16) {
      OneInRange(v);
      ChunkSizeIsExact(cfg, p, v);
      TakenAsZero(v);
      if forall i | 0 <= i < |v| :: v[i] as int < 128 { assert Zeroed(v) == v; }
    } else if IsSizeChar(v[0]) {
      FirstSizeDigit(cfg, p, v);
      SizeSteps(cfg, OnChunk(cfg, p, v[0]).p, v, 1);
    }
    hide AreDigits, PlaceValue, InRange, HexNumber, ChunkSteps, OnChunk;
  }

  lemma OneInRange(v: string)
    requires AreDigits(v, 16) && |v| > 0
    ensures |v| == 1 ==> InRange(v, 16)
    ensures CR !in v
  {
  }

  lemma FirstSizeDigit(cfg: Config, p: Parser, v: string)
    requires p.state == ChunkSizeStart && p.errno == Ok && v != "" && IsSizeChar(v[0])
    ensures AreDigits(v[..1], 16)
    ensures OnChunk(cfg, p, v[0]).p == p.(state := ChunkSize, length := PlaceValue(v[..1], 16))
  {
    assert v[..1][..0] == "";
  }
}
