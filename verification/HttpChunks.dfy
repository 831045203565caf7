/**
 Bodies in the chunked coding of section 3.6.1 of RFC 2616: however the stream is cut, the body
 callbacks add up to the data of the chunks, and the message is completed once.
 */
module HttpChunks {
  import opened Options
  import opened HttpChars
  import opened HttpParser
  import opened HttpStream
  import opened HttpRequests
  import opened HttpFragments
  import opened HttpWalk
  import opened HttpHeaders
  import opened HttpLengths
  import opened HttpValues
  import opened HttpRoundTrip
  import opened HttpHeads
  import HttpConnection
  import HttpExecute

  /** A chunk: its size in hexadecimal, what follows the size on its line, and its data. */
  datatype Chunk = Chunk(size: string, extension: string, data: string)

  predicate GoodSize(size: string, extension: string, n: nat) {
    && size != "" && AreDigits(size, 16) && (InRange(size, 16) || |size| == 1) && PlaceValue(size, 16) == n
    && CR !in extension && (extension != "" ==> extension[0] == ';' || extension[0] == SP)
  }

  predicate GoodChunk(x: Chunk) { x.data != "" && GoodSize(x.size, x.extension, |x.data|) }

  predicate GoodChunks(xs: seq<Chunk>) { forall i | 0 <= i < |xs| :: GoodChunk(xs[i]) }

  function SizeLine(size: string, extension: string): string { size + extension + CRLF }

  function SizeCost(size: string, extension: string): nat { |size| + |extension| + 2 }

  function Coded(xs: seq<Chunk>): string
    decreases |xs|
  {
    if xs == [] then "" else SizeLine(xs[0].size, xs[0].extension) + (xs[0].data + CRLF) + Coded(xs[1..])
  }

  function Data(xs: seq<Chunk>): string
    decreases |xs|
  {
    if xs == [] then "" else xs[0].data + Data(xs[1..])
  }

  function ChunkLog(log: Log, x: Chunk): Log {
    Append(Append(Append(log, ChunkHeader), Part(BodyText, x.data)), ChunkComplete)
  }

  function ChunksLog(log: Log, xs: seq<Chunk>): Log
    decreases |xs|
  {
    if xs == [] then log else ChunksLog(ChunkLog(log, xs[0]), xs[1..])
  }

  predicate SizesFit(limit: nat, xs: seq<Chunk>) {
    forall i | 0 <= i < |xs| :: SizeCost(xs[i].size, xs[i].extension) <= limit
  }

  // ---- The line with the size --------------------------------------------------------------

  lemma DigitStep(cfg: Config, c: Cursor, ch: char, p: Parser)
    requires Running(c) && Fit(c) && (c.p.state == ChunkSizeStart || c.p.state == ChunkSize)
    requires OnChunk(cfg, c.p, ch) == Out(p, [], false, false) && p.errno == Ok
    ensures Reaches(cfg, c, [ch], 1, p, c.log)
  {
    hide FitFor, FineRun, OnChunk;
    NoEvents(c.log);
    PlainStep(cfg, c, ch, p, []);
  }

  lemma {:induction false} DigitsWalk(cfg: Config, c: Cursor, v: string, i: nat)
    requires Running(c) && Fit(c) && c.p.state == ChunkSize && c.nread <= cfg.limit
    requires AreDigits(v, 16) && 0 < i <= |v| && (InRange(v, 16) || |v| == 1) && c.p.length == PlaceValue(v[..i], 16)
    ensures Reaches(cfg, c, v[i..], |v| - i, c.p.(length := PlaceValue(v, 16)), c.log)
    decreases |v| - i
  {
    hide FitFor, FineRun, Reaches, PlaceValue, Unhex, Grown;
    var end := c.p.(length := PlaceValue(v, 16));
    if i == |v| {
      assert v[..i] == v;
      Here(cfg, c, v[i..], end);
    } else {
      MoreDigitsMore(v, 16, i, |v| - 1);
      OneMoreDigit(v, 16, i);
      HexStep(c.p.length, Unhex(v[i]));
      var p := c.p.(length := PlaceValue(v[..i + 1], 16));
      BreaksAreNoDigits(v[i]);
      assert OnChunk(cfg, c.p, v[i]) == Out(p, [], false, false);
      DigitStep(cfg, c, v[i], p);
      Reached(cfg, c, [v[i]], 1, p, c.log);
      var d := FineRun(cfg, c, [v[i]]);
      if Running(d) {
        DigitsWalk(cfg, d, v, i + 1);
      }
      assert v[i..] == [v[i]] + v[i + 1..];
      Then(cfg, c, [v[i]], 1, p, c.log, v[i + 1..], |v| - i - 1, end, c.log);
    }
  }

  lemma BreaksAreNoDigits(ch: char)
    ensures Unhex(ch) >= 0 ==> ch != CR && ch != ';' && ch != SP
  {
  }

  lemma SizeWalk(cfg: Config, c: Cursor, size: string)
    requires Running(c) && Fit(c) && c.p.state == ChunkSizeStart && c.nread <= cfg.limit
    requires AreDigits(size, 16) && size != "" && (InRange(size, 16) || |size| == 1)
    ensures Reaches(cfg, c, size, |size|, c.p.(state := ChunkSize, length := PlaceValue(size, 16)), c.log)
  {
    hide FitFor, FineRun, Reaches, Unhex, PlaceValue, OnChunk, InRange;
    OneMoreDigit(size, 16, 0);
    assert PlaceValue(size[..0], 16) == 0 by {
      ValueOfNothing(size[..0]);
    }
    var p := c.p.(state := ChunkSize, length := PlaceValue(size[..1], 16));
    FirstDigit(cfg, c.p, size[0]);
    DigitStep(cfg, c, size[0], p);
    Reached(cfg, c, [size[0]], 1, p, c.log);
    var d := FineRun(cfg, c, [size[0]]);
    if Running(d) {
      DigitsWalk(cfg, d, size, 1);
    }
    assert size == [size[0]] + size[1..];
    Then(cfg, c, [size[0]], 1, p, c.log, size[1..], |size| - 1, c.p.(state := ChunkSize, length := PlaceValue(size, 16)), c.log);
  }

  lemma FirstDigit(cfg: Config, p: Parser, ch: char)
    requires p.state == ChunkSizeStart && Unhex(ch) >= 0
    ensures OnChunk(cfg, p, ch) == Out(p.(state := ChunkSize, length := Unhex(ch)), [], false, false)
  {
  }

  lemma ValueOfNothing(v: string)
    requires v == ""
    ensures PlaceValue(v, 16) == 0
  {
  }

  lemma ExtensionStep(cfg: Config, c: Cursor, ch: char)
    requires Running(c) && Fit(c)
    requires (c.p.state == ChunkParameters && ch != CR) || (c.p.state == ChunkSize && (ch == ';' || ch == SP))
    ensures Reaches(cfg, c, [ch], 1, c.p.(state := ChunkParameters), c.log)
  {
    hide FitFor, FineRun;
    NoEvents(c.log);
    PlainStep(cfg, c, ch, c.p.(state := ChunkParameters), []);
  }

  lemma {:induction false} ExtensionWalk(cfg: Config, c: Cursor, s: string)
    requires Running(c) && Fit(c) && c.nread <= cfg.limit && CR !in s && s != ""
    requires c.p.state == ChunkParameters || (c.p.state == ChunkSize && (s[0] == ';' || s[0] == SP))
    ensures Reaches(cfg, c, s, |s|, c.p.(state := ChunkParameters), c.log)
    decreases |s|
  {
    hide FitFor, FineRun, Reaches;
    var p := c.p.(state := ChunkParameters);
    assert s[0] in s;
    ExtensionStep(cfg, c, s[0]);
    if |s| == 1 {
      assert s == [s[0]];
    } else {
      Reached(cfg, c, [s[0]], 1, p, c.log);
      var d := FineRun(cfg, c, [s[0]]);
      assert CR !in s[1..];
      if Running(d) {
        ExtensionWalk(cfg, d, s[1..]);
      }
      assert s == [s[0]] + s[1..];
      Then(cfg, c, [s[0]], 1, p, c.log, s[1..], |s| - 1, p, c.log);
    }
  }

  lemma SizeEndStep(cfg: Config, c: Cursor)
    requires Running(c) && Fit(c) && (c.p.state == ChunkSize || c.p.state == ChunkParameters)
    ensures Reaches(cfg, c, [CR], 1, c.p.(state := ChunkSizeAlmostDone), c.log)
  {
    hide FitFor, FineRun;
    NoEvents(c.log);
    PlainStep(cfg, c, CR, c.p.(state := ChunkSizeAlmostDone), []);
  }

  /** The line but for its last character. */
  lemma SizeLineWalk(cfg: Config, c: Cursor, size: string, extension: string, n: nat)
    requires Running(c) && Fit(c) && c.p.state == ChunkSizeStart && c.nread <= cfg.limit && GoodSize(size, extension, n)
    ensures Reaches(cfg, c, size + extension + [CR], |size| + |extension| + 1,
              c.p.(state := ChunkSizeAlmostDone, length := n), c.log)
  {
    hide FitFor, FineRun, Reaches, PlaceValue, InRange;
    var p := c.p.(state := ChunkSize, length := n);
    SizeWalk(cfg, c, size);
    Reached(cfg, c, size, |size|, p, c.log);
    var d := FineRun(cfg, c, size);
    var q := if extension == "" then p else p.(state := ChunkParameters);
    if Running(d) {
      if extension == "" {
        Here(cfg, d, extension, q);
      } else {
        ExtensionWalk(cfg, d, extension);
      }
    }
    Then(cfg, c, size, |size|, p, c.log, extension, |extension|, q, c.log);
    Reached(cfg, c, size + extension, |size| + |extension|, q, c.log);
    var e := FineRun(cfg, c, size + extension);
    if Running(e) {
      SizeEndStep(cfg, e);
    }
    Then(cfg, c, size + extension, |size| + |extension|, q, c.log, [CR], 1, c.p.(state := ChunkSizeAlmostDone, length := n), c.log);
  }

  /** The last character of a line with a size, or of a chunk: the count of header bytes starts again. */
  lemma ResetStep(cfg: Config, c: Cursor, ch: char, p: Parser, e: Event)
    requires Running(c) && Fit(c) && HttpExecute.Plain(c.p.state)
    requires Turn(cfg, c.p, ch, false) == Out(p, [e], false, true) && p.errno == Ok
    requires ParsingHeader(c.p.state) ==> c.nread + 1 <= cfg.limit
    ensures var d := FineRun(cfg, c, [ch]); Running(d) && d.p == p && d.nread == 0 && d.log == Append(c.log, e)
  {
    hide Turn, Byte, FitFor, AppendAll, Append;
    HttpExecute.OneEvent(c.log, e);
    HttpExecute.PlainIs(cfg, Refreshed(c), ch, true);
    assert FineRun(cfg, c, [ch]) == FineRun(cfg, Fine(cfg, c, ch), [ch][1..]);
  }

  function Sized(p: Parser, n: nat): Parser {
    if n == 0 then p.(length := n, flags := p.flags.(trailing := true), state := FieldStart)
    else p.(length := n, state := ChunkData)
  }

  lemma WholeSizeLine(cfg: Config, c: Cursor, size: string, extension: string, n: nat)
    requires Running(c) && Fit(c) && c.p.state == ChunkSizeStart && GoodSize(size, extension, n)
    ensures var d := FineRun(cfg, c, SizeLine(size, extension));
      if SizeCost(size, extension) <= cfg.limit then
        Running(d) && d.p == Sized(c.p, n) && d.nread == 0 && d.log == Append(c.log, ChunkHeader)
      else d.p.errno != Ok
  {
    hide FineRun, Reaches, Append, GoodSize;
    assert c.nread == 0;
    SizeLineWalk(cfg, c, size, extension, n);
    var p := c.p.(state := ChunkSizeAlmostDone, length := n);
    ReachedIf(cfg, c, size + extension + [CR], |size| + |extension| + 1, p, c.log);
    var d := FineRun(cfg, c, size + extension + [CR]);
    FineRunConcat(cfg, c, size + extension + [CR], [LF]);
    assert size + extension + [CR] + [LF] == SizeLine(size, extension);
    if !Running(d) {
      OverflowStops(cfg, d, [LF]);
    } else if d.nread == cfg.limit {
      LastOverflows(cfg, d, LF);
    } else {
      ResetStep(cfg, d, LF, Sized(c.p, n), ChunkHeader);
    }
  }

  // ---- The data ----------------------------------------------------------------------------

  lemma {:induction false} DataWalk(cfg: Config, c: Cursor, data: string)
    requires Running(c) && Fit(c) && c.p.state == ChunkData && data != "" && c.p.length == |data|
    ensures var d := FineRun(cfg, c, data);
      && Running(d) && d.p == c.p.(length := 0, state := ChunkDataAlmostDone) && d.nread == c.nread
      && d.log == Append(c.log, Part(BodyText, data))
    decreases |data|
  {
    hide Append, FitFor, Byte;
    HttpExecute.BodyByte(cfg, Refreshed(c), data[0], true);
    var d := Fine(cfg, c, data[0]);
    assert FineRun(cfg, c, data) == FineRun(cfg, d, data[1..]);
    if |data| == 1 {
      assert data == [data[0]] && data[1..] == "";
    } else {
      DataWalk(cfg, d, data[1..]);
      AppendMerges(c.log, BodyText, [data[0]], data[1..]);
      assert [data[0]] + data[1..] == data;
    }
  }

  lemma DataEndStep(cfg: Config, c: Cursor)
    requires Running(c) && Fit(c) && c.p.state == ChunkDataAlmostDone
    ensures var d := FineRun(cfg, c, [CR]);
      Running(d) && d.p == c.p.(state := ChunkDataDone) && d.nread == c.nread && d.log == c.log
  {
    hide Byte, FitFor;
    HttpExecute.PlainIs(cfg, Refreshed(c), CR, true);
    NoEvents(c.log);
    assert FineRun(cfg, c, [CR]) == FineRun(cfg, Fine(cfg, c, CR), [CR][1..]);
  }

  /** The data of a chunk and the line break after it. */
  lemma DataAndBreak(cfg: Config, c: Cursor, data: string)
    requires Running(c) && Fit(c) && c.p.state == ChunkData && data != "" && c.p.length == |data|
    ensures var d := FineRun(cfg, c, data + CRLF);
      && Running(d) && d.p == c.p.(length := 0, state := ChunkSizeStart) && d.nread == 0
      && d.log == Append(Append(c.log, Part(BodyText, data)), ChunkComplete)
  {
    hide FineRun, Append, FitFor;
    DataWalk(cfg, c, data);
    var d := FineRun(cfg, c, data);
    FineRunConcat(cfg, c, data, CRLF);
    DataEndStep(cfg, d);
    FineRunConcat(cfg, d, [CR], [LF]);
    assert [CR] + [LF] == CRLF;
    ResetStep(cfg, FineRun(cfg, d, [CR]), LF, c.p.(length := 0, state := ChunkSizeStart), ChunkComplete);
  }

  lemma ChunkWalk(cfg: Config, c: Cursor, x: Chunk)
    requires Running(c) && Fit(c) && c.p.state == ChunkSizeStart && GoodChunk(x)
    ensures var d := FineRun(cfg, c, SizeLine(x.size, x.extension) + (x.data + CRLF));
      if SizeCost(x.size, x.extension) <= cfg.limit then
        Running(d) && d.p == c.p.(length := 0) && d.nread == 0 && d.log == ChunkLog(c.log, x)
      else d.p.errno != Ok
  {
    hide FineRun, Append, GoodSize, SizeCost;
    WholeSizeLine(cfg, c, x.size, x.extension, |x.data|);
    var d := FineRun(cfg, c, SizeLine(x.size, x.extension));
    FineRunConcat(cfg, c, SizeLine(x.size, x.extension), x.data + CRLF);
    if SizeCost(x.size, x.extension) <= cfg.limit {
      DataAndBreak(cfg, d, x.data);
    } else {
      OverflowStops(cfg, d, x.data + CRLF);
    }
  }

  lemma {:induction false} ChunksWalk(cfg: Config, c: Cursor, xs: seq<Chunk>)
    requires Running(c) && Fit(c) && c.p.state == ChunkSizeStart && GoodChunks(xs)
    ensures var d := FineRun(cfg, c, Coded(xs));
      if SizesFit(cfg.limit, xs) then
        Running(d) && d.p == c.p.(length := d.p.length) && d.nread == 0 && d.log == ChunksLog(c.log, xs)
      else d.p.errno != Ok
    decreases |xs|
  {
    hide FineRun, Append, GoodChunk, SizeLine, ChunkLog, SizeCost;
    if xs == [] {
      NoBytes(cfg, c, Coded(xs));
      assert c.nread == 0;
    } else {
      var x, rest := xs[0], xs[1..];
      assert GoodChunk(xs[0]);
      forall i | 0 <= i < |rest| ensures GoodChunk(rest[i]) && rest[i] == xs[i + 1] {
        assert rest[i] == xs[i + 1];
      }
      SizesSplit(cfg.limit, xs);
      ChunkWalk(cfg, c, x);
      var s := SizeLine(x.size, x.extension) + (x.data + CRLF);
      FineRunConcat(cfg, c, s, Coded(rest));
      if SizeCost(x.size, x.extension) <= cfg.limit {
        ChunksWalk(cfg, FineRun(cfg, c, s), rest);
      } else {
        OverflowStops(cfg, FineRun(cfg, c, s), Coded(rest));
      }
    }
  }

  lemma SizesSplit(limit: nat, xs: seq<Chunk>)
    requires xs != []
    ensures SizesFit(limit, xs) <==> SizeCost(xs[0].size, xs[0].extension) <= limit && SizesFit(limit, xs[1..])
  {
    hide SizeCost;
    assert forall i | 0 <= i < |xs[1..]| :: xs[1..][i] == xs[i + 1];
    if SizeCost(xs[0].size, xs[0].extension) <= limit && SizesFit(limit, xs[1..]) {
      forall i | 0 <= i < |xs| ensures SizeCost(xs[i].size, xs[i].extension) <= limit {
        if i > 0 { assert xs[i] == xs[1..][i - 1]; }
      }
    }
  }

  // ---- The last chunk, the trailer and the end ---------------------------------------------

  /** A chunked body from its first size to the end of its trailer. */
  function Body(xs: seq<Chunk>, size: string, extension: string, trailer: Headers): string {
    Coded(xs) + SizeLine(size, extension) + (Lines(trailer) + CRLF)
  }

  function BodyLog(log: Log, xs: seq<Chunk>, trailer: Headers): Log {
    Append(Append(LinesLog(Append(ChunksLog(log, xs), ChunkHeader), trailer), ChunkComplete), MessageComplete)
  }

  lemma TrailerEnd(cfg: Config, c: Cursor, ver: Version)
    requires Running(c) && Fit(c) && c.p.state == HeadersAlmostDone && c.p.flags.trailing && !c.p.upgrade
    requires c.p.major == ver.major && c.p.minor == ver.minor && c.nread + 1 <= cfg.limit
    ensures var d := FineRun(cfg, c, [LF]);
      && Running(d) && d.p == c.p.(state := AfterMessage(cfg, StaysOpen(ver, c.p.flags))) && d.nread == c.nread + 1
      && d.log == Append(Append(c.log, ChunkComplete), MessageComplete)
  {
    hide Byte, FitFor, Append, AppendAll, ShouldKeepAlive, StaysOpen;
    Decides(cfg, c.p, ver);
    HttpExecute.PlainIs(cfg, Refreshed(c), LF, true);
    HttpExecute.TwoEvents(c.log, ChunkComplete, MessageComplete);
    assert [ChunkComplete] + [MessageComplete] == [ChunkComplete, MessageComplete];
    assert FineRun(cfg, c, [LF]) == FineRun(cfg, Fine(cfg, c, LF), [LF][1..]);
  }

  /** Trailer lines and the empty line after them. What they cost is not forgotten: it counts with the
      header bytes of the next message. */
  lemma TrailerWalk(cfg: Config, c: Cursor, trailer: Headers, ver: Version)
    requires Running(c) && Fit(c) && c.p.state == FieldStart && c.nread == 0 && !c.p.upgrade
    requires c.p.flags.trailing && c.p.major == ver.major && c.p.minor == ver.minor
    requires AllLegible(trailer) && AllClear(cfg.lenient, trailer) && AllAcceptable(c.p.flags, trailer)
    ensures LinesCost(trailer) >= 0
    ensures var d := FineRun(cfg, c, Lines(trailer) + CRLF);
      if LinesCost(trailer) + 2 <= cfg.limit then
        && Running(d) && d.p.state == AfterMessage(cfg, StaysOpen(ver, FlagsOf(c.p.flags, trailer)))
        && d.nread == LinesCost(trailer) + 2 && !d.p.upgrade
        && d.log == Append(Append(LinesLog(c.log, trailer), ChunkComplete), MessageComplete)
      else d.p.errno != Ok
  {
    hide FineRun, Append, AllLegible, AllClear, AllAcceptable, LinesLog, Lines, LinesCost, FlagsOf, LengthOf, Reaches, FinishFlags, FitFor, StaysOpen;
    var p, log := LinesWalk(cfg, c, trailer, c.p.flags, c.p.length, c.p.verb, ver);
    ReachedIf(cfg, c, Lines(trailer), LinesCost(trailer), p, log);
    TrailingIs(c.p.flags, trailer);
    var d := FineRun(cfg, c, Lines(trailer));
    FineRunConcat(cfg, c, Lines(trailer), CRLF);
    if Running(d) {
      TrailerEnds(cfg, d, ver);
    } else {
      OverflowStops(cfg, d, CRLF);
    }
  }

  /** The empty line. */
  lemma TrailerEnds(cfg: Config, c: Cursor, ver: Version)
    requires Running(c) && Fit(c) && BetweenLines(c.p.state) && !c.p.upgrade && c.nread <= cfg.limit
    requires SettledFlags(c.p).trailing && c.p.major == ver.major && c.p.minor == ver.minor
    ensures var d := FineRun(cfg, c, CRLF);
      if c.nread + 2 <= cfg.limit then
        && Running(d) && d.p.state == AfterMessage(cfg, StaysOpen(ver, SettledFlags(c.p))) && d.nread == c.nread + 2 && !d.p.upgrade
        && d.log == Append(Append(SettledLog(c.p, c.log), ChunkComplete), MessageComplete)
      else d.p.errno != Ok
  {
    hide FineRun, Append, Reaches, FinishFlags, FitFor, SettledFlags, SettledLog, StaysOpen;
    EndStep(cfg, c);
    var q := c.p.(flags := SettledFlags(c.p), state := HeadersAlmostDone);
    ReachedIf(cfg, c, [CR], 1, q, SettledLog(c.p, c.log));
    FineRunConcat(cfg, c, [CR], [LF]);
    assert [CR] + [LF] == CRLF;
    var d := FineRun(cfg, c, [CR]);
    if !Running(d) {
      OverflowStops(cfg, d, [LF]);
    } else if d.nread == cfg.limit {
      LastOverflows(cfg, d, LF);
    } else {
      TrailerEnd(cfg, d, ver);
    }
  }

  /** A trailer with a control character where it matters, or with a length that is not acceptable. */
  lemma BadTrailer(cfg: Config, c: Cursor, trailer: Headers, ver: Version)
    requires Running(c) && Fit(c) && c.p.state == FieldStart && c.nread == 0 && !c.p.upgrade
    requires c.p.major == ver.major && c.p.minor == ver.minor
    requires AllLegible(trailer) && !(AllClear(cfg.lenient, trailer) && AllAcceptable(c.p.flags, trailer))
    ensures FineRun(cfg, c, Lines(trailer) + CRLF).p.errno != Ok
  {
    hide FineRun, AllLegible, AllClear, AllAcceptable, Lines, FinishFlags, FitFor;
    BadLines(cfg, c, trailer, c.p.flags, c.p.length, c.p.verb, ver);
    FineRunConcat(cfg, c, Lines(trailer), CRLF);
    OverflowStops(cfg, FineRun(cfg, c, Lines(trailer)), CRLF);
  }

  /** Size lines and trailer are each within the header limit, and the trailer has no control characters
      where they matter and no bad or second length. */
  predicate BodyTaken(cfg: Config, xs: seq<Chunk>, size: string, extension: string, trailer: Headers) {
    && SizesFit(cfg.limit, xs) && SizeCost(size, extension) <= cfg.limit
    && LinesCost(trailer) + 2 <= cfg.limit && AllClear(cfg.lenient, trailer) && OneLength(trailer)
  }

  /** A whole chunked body, one byte per fragment. Its trailer has a say in whether other messages may follow. */
  lemma BodyWalk(cfg: Config, c: Cursor, xs: seq<Chunk>, size: string, extension: string, trailer: Headers, ver: Version)
    requires Running(c) && Fit(c) && c.p.state == ChunkSizeStart && !c.p.upgrade && AllLegible(trailer)
    requires c.p.major == ver.major && c.p.minor == ver.minor && !c.p.flags.contentLength
    requires GoodChunks(xs) && GoodSize(size, extension, 0)
    ensures LinesCost(trailer) >= 0
    ensures var d := FineRun(cfg, c, Body(xs, size, extension, trailer));
      if BodyTaken(cfg, xs, size, extension, trailer) then
        && Running(d) && d.p.state == AfterMessage(cfg, StaysOpen(ver, AfterTrailer(c.p.flags, trailer)))
        && !d.p.upgrade && d.nread == LinesCost(trailer) + 2 && d.log == BodyLog(c.log, xs, trailer)
      else d.p.errno != Ok
  {
    hide FineRun, Append, AllLegible, AllClear, AllAcceptable, LinesLog, Lines, LinesCost, Coded, ChunksLog, GoodSize, SizeLine,
      FitFor, SizeCost, SizesFit, StaysOpen, OneLength, HasLength, HasCoding, HasUpgrade;
    CostIsNatural(trailer);
    AcceptableMeans(c.p.flags.(trailing := true), trailer);
    ChunksWalk(cfg, c, xs);
    var d := FineRun(cfg, c, Coded(xs));
    var rest := Lines(trailer) + CRLF;
    FineRunConcat(cfg, c, Coded(xs) + SizeLine(size, extension), rest);
    FineRunConcat(cfg, c, Coded(xs), SizeLine(size, extension));
    var e := FineRun(cfg, c, Coded(xs) + SizeLine(size, extension));
    if !SizesFit(cfg.limit, xs) {
      OverflowStops(cfg, d, SizeLine(size, extension));
      OverflowStops(cfg, e, rest);
    } else {
      WholeSizeLine(cfg, d, size, extension, 0);
      if SizeCost(size, extension) > cfg.limit {
        OverflowStops(cfg, e, rest);
      } else if AllClear(cfg.lenient, trailer) && OneLength(trailer) {
        TrailerWalk(cfg, e, trailer, ver);
      } else {
        BadTrailer(cfg, e, trailer, ver);
      }
    }
  }

  /** The flags after the headers and the trailer. */
  function AfterTrailer(f: Flags, trailer: Headers): Flags { FlagsOf(f.(trailing := true), trailer) }

  // ---- What the client makes of it ---------------------------------------------------------

  lemma {:induction false} ReplayChunks(s: Sink, log: Log, xs: seq<Chunk>)
    requires Replay(s, log).lastCb != SawHeaderField
    ensures var before, after := Replay(s, log), Replay(s, ChunksLog(log, xs));
      && after == before.(lastCb := after.lastCb, request := before.request.(body := before.request.body + Data(xs)))
      && after.lastCb != SawHeaderField
    decreases |xs|
  {
    hide Append, Replay;
    if xs == [] {
      assert Replay(s, log).request.body + "" == Replay(s, log).request.body;
    } else {
      var one := Append(log, ChunkHeader);
      var two := Append(one, Part(BodyText, xs[0].data));
      ReplayAppend(s, log, ChunkHeader);
      ReplayAppend(s, one, Part(BodyText, xs[0].data));
      ReplayAppend(s, two, ChunkComplete);
      ReplayChunks(s, ChunkLog(log, xs[0]), xs[1..]);
      var body := Replay(s, log).request.body;
      assert body + xs[0].data + Data(xs[1..]) == body + Data(xs);
    }
  }

  /** The callbacks of a chunked body add its data and its trailer to the request and queue the
      request once. */
  lemma BodyHandled(s: Sink, log: Log, xs: seq<Chunk>, trailer: Headers)
    requires Replay(s, log).lastCb != SawHeaderField
    requires DistinctNames(trailer) && FreshNames(Replay(s, log).request.headers, trailer)
    ensures var before, after := Replay(s, log), Replay(s, BodyLog(log, xs, trailer));
      && after.threw == before.threw
      && after.requests == before.requests + [before.request.(
           body := before.request.body + Data(xs), headers := Collected(before.request.headers, trailer))]
  {
    hide Append, Replay, LinesLog, HandleLines, ChunksLog, Data, Collected;
    var chunks := ChunksLog(log, xs);
    var sized := Append(chunks, ChunkHeader);
    var lines := LinesLog(sized, trailer);
    ReplayChunks(s, log, xs);
    ReplayAppend(s, chunks, ChunkHeader);
    ReplayLines(s, sized, trailer);
    HandledLines(Replay(s, sized), trailer);
    ReplayAppend(s, lines, ChunkComplete);
    ReplayAppend(s, Append(lines, ChunkComplete), MessageComplete);
  }

  // ---- The head before it ------------------------------------------------------------------

  /** What the headers must come to for a request with a chunked body that stays with HTTP. */
  predicate SaysChunked(m: Method, f: Flags) {
    m != CONNECT && f.chunked && !f.contentLength && !f.trailing && !(f.upgrade && f.connUpgrade)
  }

  lemma SaysItIsChunked(m: Method, hs: Headers)
    requires m != CONNECT && HasCoding(hs) && !HasLength(hs) && !Leaves(hs)
    ensures SaysChunked(m, FlagsOf(NO_FLAGS, hs)) && AllAcceptable(NO_FLAGS, hs)
  {
    hide FlagsOf, AllAcceptable, OneLength, HasLength, HasCoding, HasUpgrade, Says;
    NoneIsOne(hs);
    AcceptableMeans(NO_FLAGS, hs);
    FlagsAreSaid(NO_FLAGS, hs);
    TrailingIs(NO_FLAGS, hs);
  }

  lemma ChunkedTurn(cfg: Config, p: Parser, ver: Version)
    requires p.state == HeadersAlmostDone && p.major == ver.major && p.minor == ver.minor && SaysChunked(p.verb, p.flags)
    ensures Turn(cfg, p, LF, false)
      == Out(p.(upgrade := false, state := ChunkSizeStart), [HeadersComplete(p.verb, StaysOpen(ver, p.flags))], false, true)
  {
    Decides(cfg, p.(upgrade := false), ver);
    var e := HeadersComplete(p.verb, StaysOpen(ver, p.flags));
    assert [e] + [] == [e];
  }

  /** The request line and the headers of a request with a chunked body. */
  lemma ChunkedHeadWalk(cfg: Config, c: Cursor, m: Method, url: string, hs: Headers, ver: Version)
    requires Running(c) && Fit(c) && c.p.state == StartReq && c.nread <= cfg.limit && !c.p.upgrade
    requires UrlReadable(cfg.strict, m, url) && AllLegible(hs) && AllClear(cfg.lenient, hs) && AllAcceptable(NO_FLAGS, hs)
    requires SaysChunked(m, FlagsOf(NO_FLAGS, hs))
    ensures var d, open := FineRun(cfg, c, Head(m, url, hs, ver)), StaysOpen(ver, FlagsOf(NO_FLAGS, hs));
      if c.nread + HeadCost(m, url, hs) <= cfg.limit then
        && Running(d) && d.nread == 0 && d.p.state == ChunkSizeStart && !d.p.upgrade && d.p.major == ver.major && d.p.minor == ver.minor
        && d.p.flags == FlagsOf(NO_FLAGS, hs) && d.log == HeadLog(c.log, m, url, hs, "x", open)
      else d.p.errno != Ok
  {
    hide Append, AppendAll, FitFor, FineRun, Reaches, UrlReadable, RequestLine, Lines, LinesLog, AllAcceptable, LengthOf, FlagsOf, AllLegible, AllClear, HeadCost, StaysOpen;
    var p := HeadLines(cfg, c, m, url, hs, ver);
    var most, log := RequestLine(m, url, ver) + Lines(hs) + [CR], LinesLog(Append(Append(c.log, MessageBegin), Part(UrlText, url)), hs);
    ReachedIf(cfg, c, most, HeadCost(m, url, hs) - 1, p, log);
    FineRunConcat(cfg, c, most, [LF]);
    assert [CR] + [LF] == CRLF;
    assert most + [LF] == Head(m, url, hs, ver);
    var d := FineRun(cfg, c, most);
    if !Running(d) {
      OverflowStops(cfg, d, [LF]);
    } else if d.nread == cfg.limit {
      LastOverflows(cfg, d, LF);
    } else {
      ChunkedStep(cfg, d, ver);
      var e := HeadersComplete(m, StaysOpen(ver, p.flags));
      assert [e] + [] == [e];
    }
  }

  lemma ChunkedStep(cfg: Config, c: Cursor, ver: Version)
    requires Running(c) && Fit(c) && c.p.state == HeadersAlmostDone && c.p.major == ver.major && c.p.minor == ver.minor
    requires SaysChunked(c.p.verb, c.p.flags) && c.nread + 1 <= cfg.limit
    ensures var d := FineRun(cfg, c, [LF]);
      && Running(d) && d.p == c.p.(upgrade := false, state := ChunkSizeStart) && d.nread == 0
      && d.log == AppendAll(c.log, [HeadersComplete(c.p.verb, StaysOpen(ver, c.p.flags))])
  {
    hide Byte, FitFor, Turn, AppendAll, SaysChunked, StaysOpen;
    ChunkedTurn(cfg, c.p, ver);
    HttpExecute.PlainIs(cfg, Refreshed(c), LF, true);
    assert FineRun(cfg, c, [LF]) == FineRun(cfg, Fine(cfg, c, LF), [LF][1..]);
  }

  /** What the client makes of such a head. */
  lemma ChunkedHeadHandled(s: Sink, log: Log, m: Method, url: string, hs: Headers, open: bool)
    requires DistinctNames(hs)
    ensures var before, after := Replay(s, log), Replay(s, HeadLog(log, m, url, hs, "x", open));
      && after.request == Request(m, url, Collected(map[], hs), "", open) && after.lastCb == SawHeadersComplete
      && after.requests == before.requests && after.threw == before.threw
  {
    hide Append, AppendAll, Replay, LinesLog, HandleLines, Collected;
    var began := Handle(Replay(s, log), MessageBegin);
    ReplayAppend(s, log, MessageBegin);
    ReplayAppend(s, Append(log, MessageBegin), Part(UrlText, url));
    var start := Append(Append(log, MessageBegin), Part(UrlText, url));
    ReplayLines(s, start, hs);
    assert "" + url == url;
    HandledLines(Handle(began, Part(UrlText, url)), hs);
    var lines := LinesLog(start, hs);
    HttpExecute.OneEvent(lines, HeadersComplete(m, open));
    assert [HeadersComplete(m, open)] + [] == [HeadersComplete(m, open)];
    ReplayAppend(s, lines, HeadersComplete(m, open));
  }

  // ---- A whole message ---------------------------------------------------------------------

  /** A request with a chunked body: its head, the chunks, the line of the last one, and the trailer. */
  datatype Chunked = Chunked(verb: Method, url: string, version: Version, headers: Headers, chunks: seq<Chunk>,
                             last: string, extension: string, trailer: Headers)

  function Coding(x: Chunked): string {
    Head(x.verb, x.url, x.headers, x.version) + Body(x.chunks, x.last, x.extension, x.trailer)
  }

  /** The headers say that the body is chunked. */
  predicate WellCoded(cfg: Config, x: Chunked) {
    && UrlReadable(cfg.strict, x.verb, x.url) && AllLegible(x.headers) && AllLegible(x.trailer)
    && x.verb != CONNECT && HasCoding(x.headers) && !HasLength(x.headers) && !Leaves(x.headers)
    && DistinctNames(x.headers + x.trailer)
    && GoodChunks(x.chunks) && GoodSize(x.last, x.extension, 0)
  }

  /** It is taken with n header bytes counted already: head, size lines and trailer are each within the
      header limit, and no value has a control character after its first. */
  predicate CodingTaken(cfg: Config, x: Chunked, n: nat) {
    && n + HeadCost(x.verb, x.url, x.headers) <= cfg.limit && AllClear(cfg.lenient, x.headers)
    && BodyTaken(cfg, x.chunks, x.last, x.extension, x.trailer)
  }

  /** The request it stands for. */
  function Meant(x: Chunked): Request {
    Request(x.verb, x.url, Collected(Collected(map[], x.headers), x.trailer), Data(x.chunks), Persists(x.version, x.headers))
  }

  lemma NamesApart(hs: Headers, trailer: Headers)
    requires DistinctNames(hs + trailer)
    ensures DistinctNames(hs) && DistinctNames(trailer) && FreshNames(Collected(map[], hs), trailer)
  {
    var all := hs + trailer;
    forall i, j | 0 <= i < j < |hs| ensures hs[i].0 != hs[j].0 {
      assert hs[i] == all[i] && hs[j] == all[j];
    }
    forall i, j | 0 <= i < j < |trailer| ensures trailer[i].0 != trailer[j].0 {
      assert trailer[i] == all[|hs| + i] && trailer[j] == all[|hs| + j];
    }
    forall i | 0 <= i < |trailer| ensures trailer[i].0 !in Collected(map[], hs) {
      CollectedFrom(map[], hs, trailer[i].0);
      assert trailer[i] == all[|hs| + i];
      forall j | 0 <= j < |hs| ensures hs[j].0 != trailer[i].0 {
        assert hs[j] == all[j];
      }
    }
  }

  lemma {:induction false} SaysTogether(hs: Headers, trailer: Headers, w: HttpConnection.Word)
    ensures Says(hs + trailer, w) <==> Says(hs, w) || Says(trailer, w)
    decreases |hs|
  {
    hide Says;
    if hs == [] {
      NothingSaid();
      assert hs + trailer == trailer;
    } else {
      assert (hs + trailer)[1..] == hs[1..] + trailer;
      SaysFirst(hs, w);
      SaysFirst(hs + trailer, w);
      SaysTogether(hs[1..], trailer, w);
    }
  }

  /** What the trailer says counts as well. */
  lemma TrailerDecides(ver: Version, hs: Headers, trailer: Headers)
    ensures StaysOpen(ver, AfterTrailer(FlagsOf(NO_FLAGS, hs), trailer)) <==> Persists(ver, hs + trailer)
  {
    hide FlagsOf, Says;
    FlagsAreSaid(NO_FLAGS, hs);
    FlagsAreSaid(FlagsOf(NO_FLAGS, hs).(trailing := true), trailer);
    SaysTogether(hs, trailer, HttpConnection.CLOSE);
    SaysTogether(hs, trailer, HttpConnection.KEEP_ALIVE);
  }

  /** One byte per fragment: from one message to the next. The client is told what the headers say of the
      connection, the parser goes by the headers and the trailer. */
  lemma ChunkedMessageWalk(cfg: Config, c: Cursor, x: Chunked)
    requires Running(c) && Fit(c) && c.p.state == StartReq && c.nread <= cfg.limit && !c.p.upgrade && WellCoded(cfg, x)
    ensures LinesCost(x.trailer) >= 0
    ensures var d := FineRun(cfg, c, Coding(x));
      if CodingTaken(cfg, x, c.nread) then
        var before, after := Replay(EMPTY_SINK, c.log), Replay(EMPTY_SINK, d.log);
        && Running(d) && d.p.state == AfterMessage(cfg, Persists(x.version, x.headers + x.trailer)) && d.nread == LinesCost(x.trailer) + 2 && !d.p.upgrade
        && after.requests == before.requests + [Meant(x)] && after.threw == before.threw
      else d.p.errno != Ok
  {
    hide FineRun, FitFor, UrlReadable, AllLegible, AllClear, AllAcceptable, FlagsOf, DistinctNames, FreshNames, GoodChunks,
      GoodSize, HeadCost, LinesCost, Head, HeadLog, Body, BodyLog, BodyTaken, Replay, Collected, Data, StaysOpen, Persists, AfterTrailer, HasLength, HasCoding, Leaves, OneLength;
    var text, head := Body(x.chunks, x.last, x.extension, x.trailer), Head(x.verb, x.url, x.headers, x.version);
    CostIsNatural(x.trailer);
    SaysItIsChunked(x.verb, x.headers);
    if !AllClear(cfg.lenient, x.headers) {
      BadMessage(cfg, c, x.verb, x.url, x.headers, text, x.version);
    } else {
      hide SaysChunked;
      HeadersDecide(x.version, x.headers);
      TrailerDecides(x.version, x.headers, x.trailer);
      ChunkedHeadWalk(cfg, c, x.verb, x.url, x.headers, x.version);
      FineRunConcat(cfg, c, head, text);
      var d := FineRun(cfg, c, head);
      if c.nread + HeadCost(x.verb, x.url, x.headers) > cfg.limit {
        OverflowStops(cfg, d, text);
      } else {
        BodyWalk(cfg, d, x.chunks, x.last, x.extension, x.trailer, x.version);
        if BodyTaken(cfg, x.chunks, x.last, x.extension, x.trailer) {
          CodingHandled(EMPTY_SINK, c.log, x);
        }
      }
    }
  }

  /** What the client makes of it. */
  lemma CodingHandled(s: Sink, log: Log, x: Chunked)
    requires DistinctNames(x.headers + x.trailer)
    ensures var before := Replay(s, log);
      var after := Replay(s, BodyLog(HeadLog(log, x.verb, x.url, x.headers, "x", Persists(x.version, x.headers)), x.chunks, x.trailer));
      after.requests == before.requests + [Meant(x)] && after.threw == before.threw
  {
    hide Replay, Collected, Data, HeadLog, BodyLog, DistinctNames, FreshNames, Persists;
    NamesApart(x.headers, x.trailer);
    var open := Persists(x.version, x.headers);
    ChunkedHeadHandled(s, log, x.verb, x.url, x.headers, open);
    BodyHandled(s, HeadLog(log, x.verb, x.url, x.headers, "x", open), x.chunks, x.trailer);
    assert "" + Data(x.chunks) == Data(x.chunks);
  }
}
