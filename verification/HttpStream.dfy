/**
 Runs of the request parser: fragments of input, byte after byte, and the callbacks they make.
 Data callbacks that follow each other are put together, as every client of the parser has to do.
 */
module HttpStream {
  import opened HttpChars
  import opened HttpParser

  type Log = seq<Event>

  /** Adding a callback: text goes on where the same kind of text was left. */
  function Append(log: Log, e: Event): Log {
    if e.Part? && log != [] && log[|log| - 1].Part? && log[|log| - 1].kind == e.kind then
      log[..|log| - 1] + [Part(e.kind, log[|log| - 1].text + e.text)]
    else
      log + [e]
  }

  function AppendAll(log: Log, events: seq<Event>): Log
    decreases |events|
  {
    if events == [] then log else AppendAll(Append(log, events[0]), events[1..])
  }

  /** A parser amid a fragment. `nread`: the header bytes counted; `taken`: the bytes of this
      fragment; `skipping`: the search for the end of a value is under way; `left`: the connection
      was handed to another protocol. */
  datatype Cursor = Cursor(p: Parser, nread: nat, log: Log, taken: nat, skipping: bool, left: bool)

  predicate Running(c: Cursor) { c.p.errno == Ok && !c.left }

  /** What the assertions of the code claim, with the one about the count at the start of a chunk. */
  predicate FitFor(p: Parser, nread: nat) { Sound(p) && (p.state == ChunkSizeStart ==> nread == 0) }

  predicate Fit(c: Cursor) { FitFor(c.p, c.nread) }

  /** A fragment that ends inside a name or a value counts one byte more. */
  predicate EndsInside(p: Parser, q: Parser) {
    q.errno == Ok && p.state == q.state && (p.state == Field || p.state == Value)
  }

  /** The search for the end of an ordinary value begins with the first character looked at. */
  predicate Searching(p: Parser, q: Parser) { p.state == Value && p.hs == General && q.state == Value }

  /** The next byte of a fragment; `last` if no byte follows it. */
  function Byte(cfg: Config, c: Cursor, ch: char, last: bool): Cursor
    requires Fit(c)
  {
    var n := c.nread + if ParsingHeader(c.p.state) then 1 else 0;
    if ParsingHeader(c.p.state) && n > cfg.limit then c.(p := c.p.(errno := HeaderOverflow), nread := n)
    else
      var o := Turn(cfg, c.p, ch, c.skipping);
      var m := (if o.reset then 0 else n) + (if last && EndsInside(c.p, o.p) then 1 else 0);
      var q := if last && EndsInside(c.p, o.p) && m > cfg.limit then o.p.(errno := HeaderOverflow) else o.p;
      Cursor(q, m, AppendAll(c.log, o.events), c.taken + 1, Searching(c.p, o.p), o.leave)
  }

  /** Unless it is an error, the outcome is sound, and at the start of a chunk the count starts again. */
  predicate Proper(o: Out) {
    o.p.errno == Ok ==> Sound(o.p) && (o.p.state == ChunkSizeStart ==> o.reset)
  }

  /** The assertions of the code hold before and after every byte. */
  lemma ByteSound(cfg: Config, c: Cursor, ch: char, last: bool)
    requires Fit(c) && Running(c)
    ensures Byte(cfg, c, ch, last).p.errno == Ok ==> Fit(Byte(cfg, c, ch, last))
  {
    hide Turn, Sound;
    TurnSound(cfg, c.p, ch, c.skipping);
  }

  /** The bytes of a fragment, until they run out, an error is found or the connection is left. */
  function Feed(cfg: Config, c: Cursor, data: string): (r: Cursor)
    requires Running(c) ==> Fit(c)
    ensures Running(r) ==> Fit(r)
    decreases |data|
  {
    if data == [] || !Running(c) then c
    else
      ByteSound(cfg, c, data[0], |data| == 1);
      Feed(cfg, Byte(cfg, c, data[0], |data| == 1), data[1..])
  }

  /** One byte of Feed, seen from the middle of a fragment. */
  lemma FeedByte(cfg: Config, c: Cursor, data: string, i: nat)
    requires i < |data| && Running(c) && Fit(c)
    ensures var d := Byte(cfg, c, data[i], i + 1 == |data|);
      && (Running(d) ==> Fit(d))
      && Feed(cfg, c, data[i..]) == Feed(cfg, d, data[i + 1..])
  {
    hide Byte, Fit;
    ByteSound(cfg, c, data[i], i + 1 == |data|);
    assert data[i..][1..] == data[i + 1..];
  }

  /** Text of one kind, cut anywhere, is the same text. */
  lemma AppendMerges(log: Log, k: Kind, a: string, b: string)
    ensures Append(Append(log, Part(k, a)), Part(k, b)) == Append(log, Part(k, a + b))
  {
    if log != [] && log[|log| - 1].Part? && log[|log| - 1].kind == k {
      assert log[|log| - 1].text + a + b == log[|log| - 1].text + (a + b);
    }
  }

  lemma {:induction false} AppendAllConcat(log: Log, a: seq<Event>, b: seq<Event>)
    ensures AppendAll(log, a + b) == AppendAll(AppendAll(log, a), b)
    decreases |a|
  {
    if a == [] {
      assert a + b == b;
    } else {
      assert (a + b)[1..] == a[1..] + b;
      AppendAllConcat(Append(log, a[0]), a[1..], b);
    }
  }

  lemma AppendAllSnoc(log: Log, events: seq<Event>, j: nat)
    requires j < |events|
    ensures AppendAll(log, events[..j + 1]) == Append(AppendAll(log, events[..j]), events[j])
  {
    assert events[..j + 1] == events[..j] + [events[j]];
    AppendAllConcat(log, events[..j], [events[j]]);
  }

  lemma TurnSound(cfg: Config, p: Parser, ch: char, skipping: bool)
    requires Sound(p) && p.errno == Ok
    ensures var o := Turn(cfg, p, ch, skipping); Proper(o)
  {
    hide OnUrl, OnVersion, OnLine, OnChunk, OnStart, OnMethod, OnFieldStart, OnField, OnValue, OnHeadersAlmostDone, OnBody;
    if InUrl(p.state) {
      UrlSound(cfg, p, ch);
    } else if InVersion(p.state) {
      VersionSound(cfg, p, ch);
    } else if InLine(p.state) {
      LineSound(cfg, p, ch);
    } else if InChunk(p.state) {
      ChunkSound(cfg, p, ch);
    } else {
      match p.state {
        case Dead =>
        case StartReq => StartSound(p, ch);
        case ReqMethod => MethodSound(p, ch);
        case FieldStart => FieldStartSound(cfg, p, ch);
        case Field => FieldSound(cfg, p, ch);
        case Value => ValueSound(cfg, p, ch, skipping);
        case HeadersAlmostDone => HeadersSound(cfg, p, ch);
        case BodyIdentity => BodySound(cfg, p, ch);
      }
    }
  }

  /** A state about which Sound says nothing but the range of the length. */
  predicate Calm(s: State) {
    !s.BodyIdentity? && !InChunk(s) && !s.Field? && !s.Value?
  }

  lemma UrlSound(cfg: Config, p: Parser, ch: char)
    requires InUrl(p.state) && Sound(p) && p.errno == Ok
    ensures var o := OnUrl(cfg, p, ch); Proper(o)
  {
    hide UrlText1, Sound;
    if p.state == SpacesBeforeUrl && ch != SP {
      UrlTextSound(cfg, p, if p.verb == CONNECT then p.(state := ServerStart) else p, ch);
    } else {
      UrlTextSound(cfg, p, p, ch);
      UrlEndSound(p, ch);
    }
  }

  /** The states after a URL. */
  lemma UrlEndSound(p: Parser, ch: char)
    requires Sound(p)
    ensures Sound(Go(p, HttpStart).p)
    ensures Sound(Go(p.(major := 0, minor := 9), LineAlmostDone).p)
    ensures Sound(Go(p.(major := 0, minor := 9), FieldStart).p)
  {
    hide Sound;
    CalmSound(p, Go(p, HttpStart).p);
    CalmSound(p, Go(p.(major := 0, minor := 9), LineAlmostDone).p);
    CalmSound(p, Go(p.(major := 0, minor := 9), FieldStart).p);
  }

  lemma UrlTextSound(cfg: Config, before: Parser, p: Parser, ch: char)
    requires Sound(before) && p.flags == before.flags && p.length == before.length && InUrl(p.state)
    ensures var o := UrlText1(cfg, p, ch); o.p.errno == Ok ==> Sound(o.p) && Calm(o.p.state)
  {
    hide UrlChar, Sound;
    UrlCharStays(cfg.strict, p.state, ch);
    CalmSound(before, UrlText1(cfg, p, ch).p);
  }

  lemma CalmSound(p: Parser, q: Parser)
    requires Sound(p) && q.flags == p.flags && q.length == p.length
    ensures Calm(q.state) ==> Sound(q)
  {
    assert !p.flags.contentLength || p.length < NO_LENGTH;
  }

  lemma LengthInRange(p: Parser)
    requires Sound(p)
    ensures p.length <= NO_LENGTH && (p.length == NO_LENGTH ==> !p.flags.contentLength)
  {
  }

  lemma FinishKeepsLength(p: Parser)
    ensures FinishFlags(p).contentLength == p.flags.contentLength
  {
    match p.hs {
      case KeepAlive =>
      case Close =>
      case ConnUpgrade =>
      case Chunked =>
      case _ =>
    }
  }

  lemma UrlCharStays(strict: bool, s: State, ch: char)
    ensures var r := UrlChar(strict, s, ch); r == Dead || (InUrl(r) && r != SpacesBeforeUrl)
  {
    hide IsUrlChar, IsUserinfoChar;
  }

  lemma VersionSound(cfg: Config, p: Parser, ch: char)
    requires InVersion(p.state) && Sound(p) && p.errno == Ok
    ensures var o := OnVersion(cfg, p, ch); o.p.errno == Ok ==> Sound(o.p) && Calm(o.p.state)
  {
    hide Sound;
    CalmSound(p, OnVersion(cfg, p, ch).p);
  }

  lemma StartSound(p: Parser, ch: char)
    requires p.state == StartReq && Sound(p) && p.errno == Ok
    ensures Proper(OnStart(p, ch))
  {
    hide Guess;
  }

  lemma MethodSound(p: Parser, ch: char)
    requires p.state == ReqMethod && Sound(p) && p.errno == Ok
    ensures Proper(OnMethod(p, ch))
  {
    hide Name, Correct;
  }

  lemma HeadersDoneSound(cfg: Config, p: Parser, ch: char)
    requires p.length <= NO_LENGTH && (p.length == NO_LENGTH ==> !p.flags.contentLength) && p.errno == Ok
    ensures var o := OnHeadersDone(cfg, p, ch); Proper(o)
  {
  }

  lemma MessageSound(cfg: Config, p: Parser)
    requires p.length < NO_LENGTH && p.errno == Ok
    ensures Sound(OnMessageDone(cfg, p).p) && OnMessageDone(cfg, p).p.state != ChunkSizeStart
  {
  }

  lemma HeadersSound(cfg: Config, p: Parser, ch: char)
    requires p.state in {HeadersAlmostDone, FieldStart, ValueLws, ValueDiscardLws}
    requires p.length <= NO_LENGTH && (p.length == NO_LENGTH ==> !p.flags.contentLength) && p.errno == Ok
    ensures var o := OnHeadersAlmostDone(cfg, p, ch); Proper(o)
  {
    hide OnHeadersDone;
    var q := p.(upgrade := (p.flags.upgrade && p.flags.connUpgrade) || p.verb == CONNECT);
    HeadersDoneSound(cfg, q, ch);
  }

  lemma FieldStartSound(cfg: Config, p: Parser, ch: char)
    requires p.state in {FieldStart, ValueLws, ValueDiscardLws}
    requires p.length <= NO_LENGTH && (p.length == NO_LENGTH ==> !p.flags.contentLength) && p.errno == Ok
    ensures var o := OnFieldStart(cfg, p, ch); Proper(o)
  {
    hide OnHeadersAlmostDone, Token;
    HeadersSound(cfg, p, ch);
  }

  lemma FieldSound(cfg: Config, p: Parser, ch: char)
    requires p.state == Field && Sound(p) && p.errno == Ok
    ensures var o := OnField(cfg, p, ch); Proper(o)
  {
    hide Token, At;
  }

  lemma ValueStartSound(p: Parser, ch: char)
    requires p.length <= NO_LENGTH && (p.length == NO_LENGTH ==> !p.flags.contentLength) && p.errno == Ok
    ensures var o := OnValueStart(p, ch); Proper(o)
  {
    hide LowerBit;
  }

  lemma NextHeaderSound(cfg: Config, p: Parser, ch: char)
    requires p.state in {ValueLws, ValueDiscardLws} && Sound(p) && p.errno == Ok
    ensures var o := NextHeader(cfg, p, ch); Proper(o)
  {
    hide OnFieldStart, FinishFlags;
    FinishKeepsLength(p);
    FieldStartSound(cfg, p.(flags := FinishFlags(p)), ch);
  }

  lemma DiscardWsSound(p: Parser, ch: char)
    requires p.state == ValueDiscardWs && Sound(p) && p.errno == Ok
    ensures var o := OnDiscardWs(p, ch); Proper(o)
  {
    hide OnValueStart, Sound;
    LengthInRange(p);
    CalmSound(p, p);
    CalmSound(p, Go(p, ValueDiscardWsAlmostDone).p);
    CalmSound(p, Go(p, ValueDiscardLws).p);
    ValueStartSound(p, ch);
  }

  lemma DiscardLwsSound(cfg: Config, p: Parser, ch: char)
    requires p.state == ValueDiscardLws && Sound(p) && p.errno == Ok
    ensures var o := OnDiscardLws(cfg, p, ch); Proper(o)
  {
    hide NextHeader, Sound;
    CalmSound(p, Go(p, ValueDiscardWs).p);
    NextHeaderSound(cfg, p, ch);
  }

  lemma LwsSound(cfg: Config, p: Parser, ch: char)
    requires p.state == ValueLws && Sound(p) && p.errno == Ok
    ensures var o := OnLws(cfg, p, ch); Proper(o)
  {
    hide OnValueStart, NextHeader, Sound;
    LengthInRange(p);
    ValueStartSound(p, ch);
    NextHeaderSound(cfg, p, ch);
  }

  lemma LineSound(cfg: Config, p: Parser, ch: char)
    requires InLine(p.state) && Sound(p) && p.errno == Ok
    ensures var o := OnLine(cfg, p, ch); Proper(o)
  {
    hide OnDiscardWs, OnDiscardLws, OnLws, Sound;
    match p.state {
      case ValueDiscardWs => DiscardWsSound(p, ch);
      case ValueDiscardWsAlmostDone => CalmSound(p, Go(p, ValueDiscardLws).p);
      case HeaderAlmostDone => CalmSound(p, Go(p, ValueLws).p);
      case ValueDiscardLws => DiscardLwsSound(cfg, p, ch);
      case ValueLws => LwsSound(cfg, p, ch);
    }
  }

  lemma ValueSound(cfg: Config, p: Parser, ch: char, skipping: bool)
    requires p.state == Value && Sound(p) && p.errno == Ok
    ensures var o := OnValue(cfg, p, ch, skipping); Proper(o)
  {
    hide ValueStep;
    ValueStepSound(p, ch);
  }

  lemma ValueStepSound(p: Parser, ch: char)
    requires p.state == Value && Sound(p) && p.errno == Ok
    ensures ValueStep(p, ch).Some? ==> Sound(ValueStep(p, ch).value) && ValueStep(p, ch).value.state == Value
    ensures ValueStep(p, ch).Some? ==> ValueStep(p, ch).value.errno == Ok
  {
    hide LowerBit, StrictToken, Match;
    match p.hs {
      case MatchingChunked => MatchGives("chunked", p.index + 1, LowerBit(ch), p.hs, Chunked, General);
      case MatchingKeepAlive => MatchGives("keep-alive", p.index + 1, LowerBit(ch), p.hs, KeepAlive, ConnToken);
      case MatchingClose => MatchGives("close", p.index + 1, LowerBit(ch), p.hs, Close, ConnToken);
      case MatchingConnUpgrade => MatchGives("upgrade", p.index + 1, LowerBit(ch), p.hs, ConnUpgrade, ConnToken);
      case _ =>
    }
  }

  lemma MatchGives(word: string, i: nat, c: char, matching: HeaderState, whole: HeaderState, other: HeaderState)
    ensures Match(word, i, c, matching, whole, other) in {matching, whole, other}
  {
  }

  lemma ChunkSound(cfg: Config, p: Parser, ch: char)
    requires InChunk(p.state) && Sound(p) && p.errno == Ok
    ensures var o := OnChunk(cfg, p, ch); Proper(o)
  {
    hide InUrl;
  }

  lemma BodySound(cfg: Config, p: Parser, ch: char)
    requires p.state == BodyIdentity && Sound(p) && p.errno == Ok
    ensures var o := OnBody(cfg, p, ch); Proper(o)
  {
    hide OnMessageDone;
    if p.length == 1 {
      MessageSound(cfg, p.(length := 0));
    }
  }
}
