/**
 http_parser_execute as it runs: whole stretches of a fragment are passed over at once, and text
 is handed to the callbacks in one piece, from a mark to where it ends. Proved to do what the
 byte-by-byte machine does.
 */
module HttpExecute {
  import opened Options
  import opened HttpChars
  import opened HttpParser
  import opened HttpStream
  import opened HttpRequests

  /** header_field_mark, header_value_mark, url_mark and body_mark. */
  datatype Marks = Marks(field: Option<nat>, value: Option<nat>, url: Option<nat>, body: Option<nat>)

  const UNMARKED := Marks(None, None, None, None)

  function Of(m: Marks, k: Kind): Option<nat> {
    match k case FieldText => m.field case ValueText => m.value case UrlText => m.url case BodyText => m.body
  }

  function Set(m: Marks, k: Kind, x: Option<nat>): Marks {
    match k
    case FieldText => m.(field := x) case ValueText => m.(value := x)
    case UrlText => m.(url := x) case BodyText => m.(body := x)
  }

  /** MARK. */
  function Mark(m: Marks, k: Kind, i: nat): Marks { if Of(m, k).Some? then m else Set(m, k, Some(i)) }

  /** The text a state is in the middle of, if every fragment that begins in it marks its start. */
  function Marked(s: State): Option<Kind> {
    if s == Field then Some(FieldText)
    else if s == Value then Some(ValueText)
    else if InUrl(s) && s != SpacesBeforeUrl then Some(UrlText)
    else None
  }

  /** The last callback was one for text of kind k. */
  predicate Ends(log: Log, k: Kind) {
    log != [] && log[|log| - 1].Part? && log[|log| - 1].kind == k
  }

  predicate Continues(log: Log, s: State) {
    Marked(s).Some? ==> Ends(log, Marked(s).value)
  }

  predicate MarkFits(log: Log, m: Marks, k: Kind, i: nat) {
    Of(m, k).Some? ==> Of(m, k).value <= i && (Of(m, k).value == i ==> Ends(log, k))
  }

  /** The one mark that may be set is that of the text the parser is in the middle of. */
  predicate MarksFit(log: Log, m: Marks, s: State, i: nat) {
    && MarkFits(log, m, FieldText, i) && MarkFits(log, m, ValueText, i)
    && MarkFits(log, m, UrlText, i) && MarkFits(log, m, BodyText, i)
    && (m.field.Some? <==> Marked(s) == Some(FieldText))
    && (m.value.Some? <==> Marked(s) == Some(ValueText))
    && (m.url.Some? <==> Marked(s) == Some(UrlText))
    && (m.body.Some? ==> s in {BodyIdentity, ChunkData, ChunkDataAlmostDone})
  }

  /** CALLBACK_DATA(k), seen from the log. */
  function Flushed(log: Log, k: Kind, m: Marks, data: string, i: nat): Log
    requires i <= |data|
  {
    if Of(m, k).Some? && Of(m, k).value <= i then Append(log, Part(k, data[Of(m, k).value..i])) else log
  }

  /** The log with the text since the mark. */
  function Pending(log: Log, m: Marks, data: string, i: nat): Log
    requires i <= |data|
  {
    Flushed(Flushed(Flushed(Flushed(log, FieldText, m, data, i), ValueText, m, data, i), UrlText, m, data, i),
            BodyText, m, data, i)
  }

  /** One more character of marked text. */
  lemma PendingGrows(log: Log, m: Marks, data: string, i: nat, j: nat, k: Kind, s: State)
    requires i <= j <= |data| && MarksFit(log, m, s, i) && Of(m, k).Some?
    ensures Pending(log, Mark(m, k, i), data, j) == Append(Pending(log, m, data, i), Part(k, data[i..j]))
  {
    hide Append;
    OneMark(log, m, s, i, k);
    var x := Of(m, k).value;
    AppendMerges(log, k, data[x..i], data[i..j]);
    assert data[x..i] + data[i..j] == data[x..j];
  }

  lemma OneMark(log: Log, m: Marks, s: State, i: nat, k: Kind)
    requires MarksFit(log, m, s, i) && Of(m, k).Some?
    ensures forall k': Kind :: k' != k ==> Of(m, k').None?
  {
  }

  // ---- What the plain states do to the text ------------------------------------------------

  predicate IsText(e: Event) { e.Part? && e.text != "" }

  /** Only the last of the callbacks caused by ch takes ch as text. */
  predicate Shaped(events: seq<Event>, ch: char, k: Option<Kind>) {
    && (forall j | 0 <= j < |events| - 1 :: !IsText(events[j]))
    && match k
       case None => events == [] || !IsText(events[|events| - 1])
       case Some(kind) => events != [] && events[|events| - 1] == Part(kind, [ch])
  }

  predicate Plain(s: State) { !s.Field? && !s.Value? && !s.BodyIdentity? && !s.ChunkData? }

  /** o leaves the parser amid text exactly if its last callback took ch as that text. */
  predicate WellShaped(o: Out, ch: char) {
    o.p.errno == Ok ==> Shaped(o.events, ch, Marked(o.p.state)) && (o.leave ==> Marked(o.p.state).None?)
  }

  lemma TurnShaped(cfg: Config, p: Parser, ch: char)
    requires Plain(p.state) && p.errno == Ok
    ensures WellShaped(Turn(cfg, p, ch, false), ch)
    ensures var o := Turn(cfg, p, ch, false);
      o.p.errno == Ok && Marked(o.p.state) == Some(UrlText) ==> InUrl(p.state) && |o.events| == 1
  {
    hide OnUrl, OnVersion, OnLine, OnChunk, OnStart, OnMethod, OnFieldStart, OnHeadersAlmostDone, WellShaped;
    if InUrl(p.state) {
      UrlShaped(cfg, p, ch);
    } else if InVersion(p.state) {
      VersionShaped(cfg, p, ch);
    } else if InLine(p.state) {
      LineShaped(cfg, p, ch);
    } else if InChunk(p.state) {
      ChunkShaped(cfg, p, ch);
    } else {
      match p.state {
        case Dead => DeadShaped(p, ch);
        case StartReq => StartShaped(p, ch);
        case ReqMethod => MethodShaped(p, ch);
        case FieldStart => FieldStartShaped(cfg, p, ch);
        case HeadersAlmostDone => HeadersShaped(cfg, p, ch);
      }
    }
  }

  lemma DeadShaped(p: Parser, ch: char)
    requires p.state == Dead
    ensures WellShaped(Out(p, [], false, false), ch) && WellShaped(Fail(p, ClosedConnection), ch)
  {
  }

  lemma UrlTextShaped(cfg: Config, p: Parser, ch: char)
    requires InUrl(p.state) && p.errno == Ok
    ensures var o := UrlText1(cfg, p, ch); WellShaped(o, ch) && InUrl(o.p.state) && (o.p.errno == Ok ==> |o.events| == 1)
  {
    hide UrlChar;
    UrlCharStays(cfg.strict, p.state, ch);
  }

  lemma UrlShaped(cfg: Config, p: Parser, ch: char)
    requires InUrl(p.state) && p.errno == Ok
    ensures WellShaped(OnUrl(cfg, p, ch), ch)
    ensures var o := OnUrl(cfg, p, ch); InUrl(o.p.state) && o.p.state != SpacesBeforeUrl && o.p.errno == Ok ==> |o.events| == 1
  {
    hide UrlText1;
    if p.state == SpacesBeforeUrl {
      UrlTextShaped(cfg, if p.verb == CONNECT then p.(state := ServerStart) else p, ch);
    } else {
      UrlTextShaped(cfg, p, ch);
    }
  }

  lemma VersionShaped(cfg: Config, p: Parser, ch: char)
    requires InVersion(p.state) && p.errno == Ok
    ensures WellShaped(OnVersion(cfg, p, ch), ch) && !InUrl(OnVersion(cfg, p, ch).p.state)
  {
  }

  lemma StartShaped(p: Parser, ch: char)
    requires p.state == StartReq && p.errno == Ok
    ensures WellShaped(OnStart(p, ch), ch) && !InUrl(OnStart(p, ch).p.state)
  {
    hide Guess;
  }

  lemma MethodShaped(p: Parser, ch: char)
    requires p.state == ReqMethod && p.errno == Ok
    ensures WellShaped(OnMethod(p, ch), ch)
    ensures InUrl(OnMethod(p, ch).p.state) ==> OnMethod(p, ch).p.state == SpacesBeforeUrl
  {
    hide Name, Correct;
  }

  /** An outcome without text, in a state without text. */
  ghost predicate Wordless(o: Out) {
    && !InUrl(o.p.state) && Marked(o.p.state).None?
    && (o.p.errno == Ok ==> forall j | 0 <= j < |o.events| :: !IsText(o.events[j]))
  }

  lemma WordlessIsShaped(o: Out, ch: char)
    requires Wordless(o)
    ensures WellShaped(o, ch) && !InUrl(o.p.state)
  {
  }

  lemma WordlessAfter(e: Event, o: Out)
    requires Wordless(o) && !IsText(e)
    ensures Wordless(After([e], o))
  {
  }

  lemma MessageWordless(cfg: Config, p: Parser)
    requires p.errno == Ok
    ensures Wordless(OnMessageDone(cfg, p))
  {
    hide ShouldKeepAlive;
  }

  lemma HeadersDoneWordless(cfg: Config, p: Parser, ch: char)
    requires p.errno == Ok && Marked(p.state).None? && !InUrl(p.state)
    ensures Wordless(OnHeadersDone(cfg, p, ch))
  {
    hide ShouldKeepAlive;
  }

  lemma HeadersShaped(cfg: Config, p: Parser, ch: char)
    requires p.state in {HeadersAlmostDone, FieldStart, ValueLws, ValueDiscardLws} && p.errno == Ok
    ensures WellShaped(OnHeadersAlmostDone(cfg, p, ch), ch) && !InUrl(OnHeadersAlmostDone(cfg, p, ch).p.state)
  {
    hide ShouldKeepAlive, OnHeadersDone, OnMessageDone, WellShaped, After;
    var q := p.(upgrade := (p.flags.upgrade && p.flags.connUpgrade) || p.verb == CONNECT);
    HeadersDoneWordless(cfg, q, ch);
    MessageWordless(cfg, p);
    WordlessAfter(HeadersComplete(q.verb, ShouldKeepAlive(q)), OnHeadersDone(cfg, q, ch));
    WordlessAfter(ChunkComplete, OnMessageDone(cfg, p));
    var o := OnHeadersAlmostDone(cfg, p, ch);
    assert Wordless(o);
    hide Wordless;
    WordlessIsShaped(o, ch);
  }

  lemma FieldStartShaped(cfg: Config, p: Parser, ch: char)
    requires p.state in {FieldStart, ValueLws, ValueDiscardLws} && p.errno == Ok
    ensures WellShaped(OnFieldStart(cfg, p, ch), ch) && !InUrl(OnFieldStart(cfg, p, ch).p.state)
  {
    hide OnHeadersAlmostDone, Token;
    HeadersShaped(cfg, p, ch);
  }

  lemma ValueStartShaped(p: Parser, ch: char)
    requires InLine(p.state) && p.errno == Ok
    ensures WellShaped(OnValueStart(p, ch), ch) && !InUrl(OnValueStart(p, ch).p.state)
  {
    hide LowerBit;
  }

  lemma NextHeaderShaped(cfg: Config, p: Parser, ch: char)
    requires p.state in {ValueLws, ValueDiscardLws} && p.errno == Ok
    ensures WellShaped(NextHeader(cfg, p, ch), ch) && !InUrl(NextHeader(cfg, p, ch).p.state)
  {
    hide OnFieldStart, FinishFlags;
    FieldStartShaped(cfg, p.(flags := FinishFlags(p)), ch);
  }

  lemma DiscardLwsShaped(cfg: Config, p: Parser, ch: char)
    requires p.state == ValueDiscardLws && p.errno == Ok
    ensures WellShaped(OnDiscardLws(cfg, p, ch), ch) && !InUrl(OnDiscardLws(cfg, p, ch).p.state)
  {
    hide NextHeader;
    NextHeaderShaped(cfg, p, ch);
  }

  lemma LineShaped(cfg: Config, p: Parser, ch: char)
    requires InLine(p.state) && p.errno == Ok
    ensures WellShaped(OnLine(cfg, p, ch), ch) && !InUrl(OnLine(cfg, p, ch).p.state)
  {
    hide OnValueStart, NextHeader, OnDiscardLws;
    ValueStartShaped(p, ch);
    if p.state == ValueLws {
      NextHeaderShaped(cfg, p, ch);
    } else if p.state == ValueDiscardLws {
      DiscardLwsShaped(cfg, p, ch);
    }
  }

  lemma ChunkShaped(cfg: Config, p: Parser, ch: char)
    requires InChunk(p.state) && !p.state.ChunkData? && p.errno == Ok
    ensures WellShaped(OnChunk(cfg, p, ch), ch) && !InUrl(OnChunk(cfg, p, ch).p.state)
  {
    hide Unhex, TooLong, Grown;
  }

  lemma Marking(log: Log, m: Marks, data: string, i: nat, k: Kind)
    requires i < |data| && (m == UNMARKED || (Of(m, k).Some? && MarksFit(log, m, Path, i)))
    ensures Pending(log, Mark(m, k, i), data, i + 1) == Append(Pending(log, m, data, i), Part(k, [data[i]]))
  {
    assert data[i..i + 1] == [data[i]];
    if m == UNMARKED {
      assert Pending(log, m, data, i) == log;
    } else {
      PendingGrows(log, m, data, i, i + 1, k, Path);
    }
  }

  /** A byte in a plain state is counted and then given to the switch, and nothing else happens. */
  lemma PlainIs(cfg: Config, c: Cursor, ch: char, last: bool)
    requires Plain(c.p.state) && Fit(c) && Running(c)
    ensures var n := c.nread + if ParsingHeader(c.p.state) then 1 else 0;
      var o := Turn(cfg, c.p, ch, false);
      Byte(cfg, c, ch, last) ==
        if ParsingHeader(c.p.state) && n > cfg.limit then c.(p := c.p.(errno := HeaderOverflow), nread := n)
        else Cursor(o.p, if o.reset then 0 else n, AppendAll(c.log, o.events), c.taken + 1, false, o.leave)
  {
    hide OnUrl, OnVersion, OnLine, OnChunk, OnStart, OnMethod, OnFieldStart, OnHeadersAlmostDone, AppendAll, Sound;
  }

  lemma FitAfter(log: Log, m: Marks, s: State, i: nat, log': Log, m': Marks, next: State)
    requires Plain(s) && MarksFit(log, m, s, i) && (Marked(next) == Some(UrlText) ==> InUrl(s))
    requires var kept := if Marked(next) == Some(UrlText) then m else UNMARKED;
      m' == if Marked(next).Some? then Mark(kept, Marked(next).value, i) else kept
    ensures MarksFit(log', m', next, i + 1)
  {
  }

  lemma NothingPending(log: Log, data: string, i: nat)
    requires i <= |data|
    ensures Pending(log, UNMARKED, data, i) == log
  {
  }

  lemma UrlFit(log: Log, m: Marks, s: State, i: nat)
    requires MarksFit(log, m, s, i)
    ensures InUrl(s) ==> m == UNMARKED || (m.url.Some? && MarksFit(log, m, Path, i))
  {
  }

  lemma FitLater(log: Log, m: Marks, s: State, i: nat, j: nat)
    requires MarksFit(log, m, s, i) && i <= j
    ensures MarksFit(log, m, s, j)
  {
  }

  /** Whatever the two agree on up to here they agree on at the end of the fragment. */
  ghost predicate SameEnd(cfg: Config, a: Cursor, i: nat, b: Cursor, j: nat, data: string)
    requires i <= |data| && j <= |data|
  {
    && (Running(a) ==> Fit(a)) && (Running(b) ==> Fit(b))
    && Feed(cfg, a, data[i..]) == Feed(cfg, b, data[j..])
  }

  // ---- Stretches of text, byte by byte -----------------------------------------------------

  function Extra(j: nat, data: string): nat { if j == |data| then 1 else 0 }

  /** A byte that is part of a name or a value. */
  lemma TextByte(cfg: Config, c: Cursor, ch: char, last: bool, q: Parser, k: Kind)
    requires Running(c) && Fit(c) && (c.p.state == Field || c.p.state == Value)
    requires q.state == c.p.state && q.errno == Ok
    requires Turn(cfg, c.p, ch, c.skipping) == Text(q, k, ch)
    ensures var d := Byte(cfg, c, ch, last);
      var n := c.nread + 1 + if last then 1 else 0;
      if n <= cfg.limit then
        d == Cursor(q, n, Append(c.log, Part(k, [ch])), c.taken + 1, c.p.state == Value && c.p.hs == General, false)
      else d.p.errno == HeaderOverflow
  {
    hide Turn, Append, AppendAll;
    OneEvent(c.log, Part(k, [ch]));
  }

  /** The stretch of an ordinary value that is passed over unseen. */
  lemma {:induction false} SkipRun(cfg: Config, c: Cursor, data: string, i: nat, j: nat) returns (d: Cursor)
    requires Running(c) && Fit(c) && c.p.state == Value && c.p.hs == General
    requires i < j <= |data| && forall k | i <= k < j :: !IsBreak(data[k])
    requires c.skipping || cfg.lenient || IsHeaderChar(data[i])
    ensures SameEnd(cfg, c, i, d, j, data)
    ensures var n := c.nread + (j - i) + Extra(j, data);
      if n <= cfg.limit then
        d == Cursor(c.p, n, Append(c.log, Part(ValueText, data[i..j])), c.taken + (j - i), true, false)
      else d.p.errno != Ok
    decreases j - i
  {
    hide Append, Turn, Byte;
    OrdinaryText(cfg, c.p, data[i], c.skipping);
    TextByte(cfg, c, data[i], i + 1 == |data|, c.p, ValueText);
    FeedByte(cfg, c, data, i);
    d := Byte(cfg, c, data[i], i + 1 == |data|);
    if i + 1 == j {
      assert data[i..j] == [data[i]];
    } else if Running(d) {
      var e := SkipRun(cfg, d, data, i + 1, j);
      AppendMerges(c.log, ValueText, [data[i]], data[i + 1..j]);
      assert [data[i]] + data[i + 1..j] == data[i..j];
      d := e;
    }
  }

  lemma OrdinaryText(cfg: Config, p: Parser, ch: char, skipping: bool)
    requires p.state == Value && p.hs == General && !IsBreak(ch)
    requires skipping || cfg.lenient || IsHeaderChar(ch)
    ensures Turn(cfg, p, ch, skipping) == Text(p, ValueText, ch)
  {
  }

  /** What taking `text`, not more than is left of a body or chunk, comes to. */
  function BodyTaken(cfg: Config, c: Cursor, text: string): Cursor
    requires |text| <= c.p.length
  {
    var p := c.p.(length := c.p.length - |text|);
    var log := Append(c.log, Part(BodyText, text));
    if p.length > 0 then Cursor(p, c.nread, log, c.taken + |text|, false, false)
    else if p.state == ChunkData then
      Cursor(p.(state := ChunkDataAlmostDone), c.nread, log, c.taken + |text|, false, false)
    else
      Cursor(OnMessageDone(cfg, p).p, c.nread, Append(log, MessageComplete), c.taken + |text|, false, p.upgrade)
  }

  lemma OneEvent(log: Log, e: Event)
    ensures AppendAll(log, [e]) == Append(log, e)
  {
    hide Append;
    assert AppendAll(log, [e]) == AppendAll(Append(log, e), []);
  }

  lemma TwoEvents(log: Log, e: Event, f: Event)
    ensures AppendAll(log, [e, f]) == Append(Append(log, e), f)
  {
    hide Append;
    assert [e, f][1..] == [f];
    OneEvent(Append(log, e), f);
  }

  lemma BodyLeft(p: Parser, n: nat)
    requires FitFor(p, n) && (p.state == BodyIdentity || p.state == ChunkData)
    ensures p.length > 0
  {
  }

  /** A byte of a body is passed on as text, and the last one ends the message. */
  lemma BodyTurn(cfg: Config, p: Parser, ch: char, skipping: bool)
    requires (p.state == BodyIdentity || p.state == ChunkData) && p.length > 0
    ensures var q := p.(length := p.length - 1);
      Turn(cfg, p, ch, skipping) ==
        if p.length > 1 then Text(q, BodyText, ch)
        else if p.state == ChunkData then Text(q.(state := ChunkDataAlmostDone), BodyText, ch)
        else Out(OnMessageDone(cfg, q).p, [Part(BodyText, [ch]), MessageComplete], q.upgrade, false)
  {
    hide NewMessage;
  }

  lemma BodyByteIs(cfg: Config, c: Cursor, ch: char, last: bool)
    requires Running(c) && Fit(c) && (c.p.state == BodyIdentity || c.p.state == ChunkData)
    ensures var o := Turn(cfg, c.p, ch, c.skipping);
      Byte(cfg, c, ch, last) == Cursor(o.p, if o.reset then 0 else c.nread, AppendAll(c.log, o.events), c.taken + 1, false, o.leave)
  {
    hide Turn, AppendAll, Sound;
  }

  lemma BodyByte(cfg: Config, c: Cursor, ch: char, last: bool)
    requires Running(c) && Fit(c) && (c.p.state == BodyIdentity || c.p.state == ChunkData)
    ensures Byte(cfg, c, ch, last) == BodyTaken(cfg, c, [ch])
  {
    hide Turn, Byte, Append, AppendAll, OnMessageDone, Sound;
    BodyLeft(c.p, c.nread);
    BodyTurn(cfg, c.p, ch, c.skipping);
    BodyByteIs(cfg, c, ch, last);
    OneEvent(c.log, Part(BodyText, [ch]));
    TwoEvents(c.log, Part(BodyText, [ch]), MessageComplete);
  }

  lemma BodyTakenJoins(cfg: Config, c: Cursor, a: string, b: string)
    requires |a + b| <= c.p.length && b != "" && (c.p.state == BodyIdentity || c.p.state == ChunkData)
    ensures |b| <= BodyTaken(cfg, c, a).p.length && BodyTaken(cfg, BodyTaken(cfg, c, a), b) == BodyTaken(cfg, c, a + b)
  {
    hide Append, NewMessage;
    AppendMerges(c.log, BodyText, a, b);
  }

  lemma BodyGoesOn(cfg: Config, c: Cursor, ch: char)
    requires Running(c) && Fit(c) && (c.p.state == BodyIdentity || c.p.state == ChunkData) && c.p.length > 1
    ensures var d := BodyTaken(cfg, c, [ch]);
      Running(d) && Fit(d) && d.p.state == c.p.state && d.p.length == c.p.length - 1
  {
    hide Append, NewMessage;
  }

  /** The bytes of a body that has at least n left. */
  lemma {:induction false} BodyRun(cfg: Config, c: Cursor, data: string, i: nat, n: nat) returns (d: Cursor)
    requires Running(c) && Fit(c) && (c.p.state == BodyIdentity || c.p.state == ChunkData)
    requires 0 < n <= c.p.length && i + n <= |data|
    ensures SameEnd(cfg, c, i, d, i + n, data)
    ensures d == BodyTaken(cfg, c, data[i..i + n])
    decreases n
  {
    hide Append, Turn, Byte, BodyTaken, Running, Fit;
    BodyByte(cfg, c, data[i], i + 1 == |data|);
    FeedByte(cfg, c, data, i);
    d := Byte(cfg, c, data[i], i + 1 == |data|);
    if n == 1 {
      assert data[i..i + n] == [data[i]];
    } else {
      BodyGoesOn(cfg, c, data[i]);
      var e := BodyRun(cfg, d, data, i + 1, n - 1);
      BodyTakenJoins(cfg, c, [data[i]], data[i + 1..i + n]);
      assert [data[i]] + data[i + 1..i + n] == data[i..i + n];
      d := e;
    }
  }

  /** The byte machine stands at p with n bytes counted, or has failed because n is too many. */
  ghost predicate Matches(d: Cursor, p: Parser, n: nat, limit: nat) {
    if n <= limit then Running(d) && d.p == p && d.nread == n && Fit(d) else d.p.errno != Ok
  }

  lemma CountFails(cfg: Config, c: Cursor, ch: char, last: bool)
    requires Fit(c) && ParsingHeader(c.p.state) && c.nread + 1 > cfg.limit
    ensures Byte(cfg, c, ch, last).p.errno != Ok
  {
  }

  lemma NameByte(cfg: Config, p: Parser, ch: char, skipping: bool)
    requires p.state == Field && Token(cfg.strict, ch) != NUL
    ensures var (hs, index) := NameStep(p.hs, p.index, Token(cfg.strict, ch), ch);
      Turn(cfg, p, ch, skipping) == Text(p.(hs := hs, index := index), FieldText, ch)
  {
    hide Token, NameStep;
  }

  /** Amid a stretch that began at i with `base` bytes counted, the real parser has not counted
      the bytes of the stretch yet, and has not handed over its text. */
  ghost predicate Amid(cfg: Config, c: Cursor, i: nat, d: Cursor, j: nat, log: Log, m: Marks, p: Parser, data: string, base: nat)
    requires i <= j <= |data|
  {
    && SameEnd(cfg, c, i, d, j, data)
    && Matches(d, p, base + (j - i) + (if j > i then Extra(j, data) else 0), cfg.limit)
    && (Running(d) ==> d.log == Pending(log, m, data, j) && d.taken == j)
    && MarksFit(log, m, p.state, i)
  }

  /** The end of a name. */
  lemma NameByteEnd(cfg: Config, d: Cursor, ch: char, last: bool)
    requires d.p.state == Field && Token(cfg.strict, ch) == NUL && Running(d) && Fit(d)
    ensures Byte(cfg, d, ch, last) ==
      if d.nread + 1 > cfg.limit then d.(p := d.p.(errno := HeaderOverflow), nread := d.nread + 1)
      else if ch == ':' then Cursor(d.p.(state := ValueDiscardWs), d.nread + 1, d.log, d.taken + 1, false, false)
      else Cursor(d.p.(errno := InvalidHeaderToken), d.nread + 1, d.log, d.taken + 1, false, false)
  {
    hide Token;
  }

  lemma NameGoesOn(cfg: Config, c: Cursor, i: nat, d: Cursor, j: nat, log: Log, m: Marks, p: Parser, data: string, base: nat)
      returns (e: Cursor)
    requires i <= j < |data| && Amid(cfg, c, i, d, j, log, m, p, data, base)
    requires p.state == Field && p.errno == Ok && Token(cfg.strict, data[j]) != NUL
    ensures var (hs, index) := NameStep(p.hs, p.index, Token(cfg.strict, data[j]), data[j]);
      Amid(cfg, c, i, e, j + 1, log, m, p.(hs := hs, index := index), data, base)
  {
    hide Byte, Turn, Append, AppendAll, FitFor, Pending, NameStep;
    var (hs, index) := NameStep(p.hs, p.index, Token(cfg.strict, data[j]), data[j]);
    e := d;
    if Running(d) {
      var q := p.(hs := hs, index := index);
      NameByte(cfg, d.p, data[j], d.skipping);
      TextByte(cfg, d, data[j], j + 1 == |data|, q, FieldText);
      FeedByte(cfg, d, data, j);
      FitLater(log, m, Field, i, j);
      PendingGrows(log, m, data, j, j + 1, FieldText, Field);
      assert data[j..j + 1] == [data[j]];
      e := Byte(cfg, d, data[j], j + 1 == |data|);
    }
  }

  lemma FailsAtOnce(cfg: Config, c: Cursor, data: string, i: nat) returns (d: Cursor)
    requires i < |data| && Running(c) && Fit(c) && ParsingHeader(c.p.state) && c.nread + 1 > cfg.limit
    ensures SameEnd(cfg, c, i, d, i + 1, data) && d.p.errno != Ok
  {
    hide Byte;
    CountFails(cfg, c, data[i], i + 1 == |data|);
    FeedByte(cfg, c, data, i);
    d := Byte(cfg, c, data[i], i + 1 == |data|);
  }

  lemma AmidAtStart(cfg: Config, c: Cursor, i: nat, log: Log, m: Marks, p: Parser, data: string, base: nat)
    requires i < |data| && Running(c) && FitFor(p, base) && c.p == p && c.nread == base <= cfg.limit
    requires MarksFit(log, m, p.state, i) && c.log == Pending(log, m, data, i) && c.taken == i
    ensures Amid(cfg, c, i, c, i, log, m, p, data, base)
  {
  }

  /** The byte that ends a stretch within the fragment. */
  lemma BreaksOff(cfg: Config, c: Cursor, i: nat, d: Cursor, j: nat, log: Log, m: Marks, p: Parser, data: string, base: nat)
      returns (e: Cursor)
    requires i <= j < |data| && Amid(cfg, c, i, d, j, log, m, p, data, base)
    requires p.errno == Ok && (p.state == Field || p.state == Value)
    ensures e == if Running(d) then Byte(cfg, d, data[j], j + 1 == |data|) else d
    ensures SameEnd(cfg, c, i, e, j + 1, data) && (Running(e) ==> Fit(e))
    ensures if base + (j - i) + 1 > cfg.limit then e.p.errno != Ok
            else Running(d) && Fit(d) && d.p == p && d.nread == base + (j - i) && d.log == Pending(log, m, data, j) && d.taken == j
  {
    hide Byte, Turn, Pending, MarksFit, FitFor;
    e := d;
    if Running(d) {
      FeedByte(cfg, d, data, j);
      e := Byte(cfg, d, data[j], j + 1 == |data|);
      if base + (j - i) + 1 > cfg.limit {
        CountFails(cfg, d, data[j], j + 1 == |data|);
      }
    }
  }

  /** A stretch that reaches the end of the fragment. */
  lemma AtEnd(cfg: Config, c: Cursor, i: nat, d: Cursor, j: nat, log: Log, m: Marks, p: Parser, data: string, base: nat)
    requires i < j == |data| && Amid(cfg, c, i, d, j, log, m, p, data, base)
    ensures SameEnd(cfg, c, i, d, j, data) && MarksFit(log, m, p.state, j)
    ensures var n := base + (j - i) + 1;
      if n > cfg.limit then d.p.errno != Ok
      else Running(d) && Fit(d) && d.p == p && d.nread == n && d.log == Pending(log, m, data, j) && d.taken == j
  {
    FitLater(log, m, p.state, i, j);
  }

  /** With only the mark of kind k set, the text of that kind is all that is pending. */
  lemma OnlyFlushed(log: Log, m: Marks, data: string, i: nat, k: Kind)
    requires i <= |data| && Of(m, k).Some? && Of(m, k).value <= i
    requires forall k': Kind :: k' != k ==> Of(m, k').None?
    ensures Flushed(log, k, m, data, i) == Pending(log, m, data, i) && Set(m, k, None) == UNMARKED
  {
    hide Append;
  }

  lemma UnmarkedFits(log: Log, s: State, i: nat)
    requires s in {ValueDiscardWs, HeaderAlmostDone, ValueLws}
    ensures MarksFit(log, UNMARKED, s, i)
  {
  }

  /** Handing over the text of a name or a value leaves nothing marked. */
  lemma HandedOver(log: Log, m: Marks, s: State, data: string, i: nat, j: nat, k: Kind, log': Log)
    requires i <= j <= |data| && MarksFit(log, m, s, i) && Marked(s) == Some(k)
    ensures Flushed(log, k, m, data, j) == Pending(log, m, data, j) && Set(m, k, None) == UNMARKED
    ensures j < |data| ==> Pending(log', UNMARKED, data, j + 1) == log'
    ensures Of(m, k).Some? && Of(m, k).value <= j
    ensures MarksFit(log', UNMARKED, ValueDiscardWs, j + 1) && MarksFit(log', UNMARKED, HeaderAlmostDone, j + 1)
    ensures MarksFit(log', UNMARKED, ValueLws, j + 1)
  {
    hide Append, MarksFit, Marked, Flushed, Pending, Set;
    MarkIsWithin(log, m, s, i, k);
    OneMark(log, m, s, i, k);
    OnlyFlushed(log, m, data, j, k);
    UnmarkedFits(log', ValueDiscardWs, j + 1);
    UnmarkedFits(log', HeaderAlmostDone, j + 1);
    UnmarkedFits(log', ValueLws, j + 1);
    if j < |data| {
      NothingPending(log', data, j + 1);
    }
  }

  lemma FieldFit(log: Log, m: Marks, i: nat)
    ensures MarksFit(log, m, Field, i) ==> m.field.Some? && m.field.value <= i
    ensures MarksFit(log, m, Value, i) ==> m.value.Some? && m.value.value <= i
  {
  }

  lemma ValueStepKeeps(p: Parser, ch: char)
    ensures ValueStep(p, ch).Some? ==> ValueStep(p, ch).value.state == p.state && ValueStep(p, ch).value.errno == p.errno
  {
    hide LowerBit, StrictToken, Match, TooLong, Grown;
  }

  /** A character of a value that is looked at. */
  lemma ValueByte(cfg: Config, p: Parser, ch: char)
    requires p.state == Value && !IsBreak(ch)
    ensures var o := Turn(cfg, p, ch, false);
      if !cfg.lenient && !IsHeaderChar(ch) then o == Fail(p, InvalidHeaderToken)
      else if ValueStep(p, ch).None? then o == Fail(p, InvalidContentLength)
      else o == Text(ValueStep(p, ch).value, ValueText, ch)
  {
    hide ValueStep, IsHeaderChar;
  }

  lemma ValueEnd(cfg: Config, d: Cursor, ch: char, last: bool)
    requires d.p.state == Value && IsBreak(ch) && Running(d) && Fit(d) && d.nread + 1 <= cfg.limit
    ensures Byte(cfg, d, ch, last) ==
      Cursor(d.p.(state := if ch == CR then HeaderAlmostDone else ValueLws), d.nread + 1,
             d.log, d.taken + 1, false, false)
  {
  }

  lemma ValueGoesOn(cfg: Config, c: Cursor, i: nat, d: Cursor, j: nat, log: Log, m: Marks, p: Parser, q: Parser,
      data: string, base: nat) returns (e: Cursor)
    requires i <= j < |data| && Amid(cfg, c, i, d, j, log, m, p, data, base)
    requires p.state == Value && p.errno == Ok && p.hs != General && !IsBreak(data[j])
    requires (cfg.lenient || IsHeaderChar(data[j])) && ValueStep(p, data[j]) == Some(q)
    requires Running(d) ==> !d.skipping
    ensures Amid(cfg, c, i, e, j + 1, log, m, q, data, base) && (Running(e) ==> !e.skipping)
    ensures q.state == Value && q.errno == Ok
  {
    hide Byte, Turn, Append, AppendAll, FitFor, Pending, ValueStep, IsHeaderChar;
    ValueStepKeeps(p, data[j]);
    e := d;
    if Running(d) {
      ValueByte(cfg, p, data[j]);
      TextByte(cfg, d, data[j], j + 1 == |data|, q, ValueText);
      FeedByte(cfg, d, data, j);
      FitLater(log, m, Value, i, j);
      PendingGrows(log, m, data, j, j + 1, ValueText, Value);
      assert data[j..j + 1] == [data[j]];
      e := Byte(cfg, d, data[j], j + 1 == |data|);
    }
  }

  /** A character that does not belong in a value. */
  lemma BadValue(cfg: Config, c: Cursor, i: nat, d: Cursor, j: nat, log: Log, m: Marks, p: Parser, data: string, base: nat)
      returns (e: Cursor)
    requires i <= j < |data| && Amid(cfg, c, i, d, j, log, m, p, data, base)
    requires p.state == Value && p.errno == Ok && !IsBreak(data[j])
    requires (!cfg.lenient && !IsHeaderChar(data[j])) || ValueStep(p, data[j]).None?
    requires Running(d) ==> !d.skipping
    ensures SameEnd(cfg, c, i, e, j + 1, data) && e.p.errno != Ok
  {
    hide Turn, Append, AppendAll, FitFor, Pending, ValueStep, IsHeaderChar, MarksFit;
    e := d;
    if Running(d) {
      ValueByte(cfg, p, data[j]);
      FeedByte(cfg, d, data, j);
      e := Byte(cfg, d, data[j], j + 1 == |data|);
    }
  }

  /** The search for the end of the line, and the byte machine going along. */
  lemma Skips(cfg: Config, c: Cursor, i: nat, d: Cursor, j: nat, e: nat, log: Log, m: Marks, p: Parser, data: string, base: nat)
      returns (f: Cursor)
    requires i <= j < e <= |data| && Amid(cfg, c, i, d, j, log, m, p, data, base)
    requires p.state == Value && p.errno == Ok && p.hs == General && base + 1 <= cfg.limit
    requires cfg.lenient || IsHeaderChar(data[j])
    requires forall k | j <= k < e && k < j + cfg.limit :: !IsBreak(data[k])
    requires e < |data| ==> IsBreak(data[e]) && e < j + cfg.limit
    ensures Amid(cfg, c, i, f, e, log, m, p, data, base)
    ensures Running(f) && f.skipping && e < |data| ==> IsBreak(data[e])
  {
    hide Byte, Turn, Append, AppendAll, FitFor, Pending, ValueStep, IsHeaderChar;
    f := d;
    if Running(d) {
      var x := if e <= j + cfg.limit then e else j + cfg.limit;
      f := SkipRun(cfg, d, data, j, x);
      FitLater(log, m, Value, i, j);
      PendingGrows(log, m, data, j, x, ValueText, Value);
      if x < e && Running(f) {
        FeedByte(cfg, f, data, x);
        CountFails(cfg, f, data[x], x + 1 == |data|);
        f := Byte(cfg, f, data[x], x + 1 == |data|);
      }
    }
  }

  /** The text of a body, from a mark set now or earlier. */
  lemma BodyMarked(cfg: Config, c: Cursor, log: Log, m: Marks, s: State, data: string, i: nat, j: nat)
    requires i < j <= |data| && MarksFit(log, m, s, i) && (s == BodyIdentity || s == ChunkData)
    requires c.log == Pending(log, m, data, i)
    ensures var m' := Mark(m, BodyText, i);
      && m'.body.Some? && m'.body.value <= j && Set(m', BodyText, None) == UNMARKED
      && Pending(log, m', data, j) == Append(c.log, Part(BodyText, data[i..j]))
      && Flushed(log, BodyText, m', data, j) == Append(c.log, Part(BodyText, data[i..j]))
      && MarksFit(log, m', s, j) && MarksFit(log, m', ChunkDataAlmostDone, j)
  {
    hide Append;
    if m.body.Some? {
      PendingGrows(log, m, data, i, j, BodyText, s);
    }
  }

  lemma FeedSound(cfg: Config, c: Cursor, i: nat, d: Cursor, j: nat, data: string)
    requires i <= |data| && j <= |data| && SameEnd(cfg, c, i, d, j, data)
    ensures Running(d) ==> Fit(d)
  {
  }

  lemma NothingMarked(log: Log, s: State, i: nat)
    requires s == StartReq || s == Dead
    ensures MarksFit(log, UNMARKED, s, i) && Marked(s).None?
  {
  }

  // ---- From byte to byte -------------------------------------------------------------------

  lemma Resumes(cfg: Config, log: Log, p: Parser, nread: nat, data: string, m: Marks)
    requires FitFor(p, nread) && Continues(log, p.state)
    requires m == if Marked(p.state).Some? then Set(UNMARKED, Marked(p.state).value, Some(0)) else UNMARKED
    ensures MarksFit(log, m, p.state, 0) && log == Pending(log, m, data, 0)
    ensures var start := Cursor(p, nread, log, 0, false, false); SameEnd(cfg, start, 0, start, 0, data)
  {
    hide FitFor, Feed;
    if Marked(p.state).Some? {
      var last := log[|log| - 1];
      assert last.text + data[0..0] == last.text;
      assert log == log[..|log| - 1] + [last];
    }
  }

  lemma OneByte(cfg: Config, c: Cursor, d: Cursor, data: string, i: nat)
    requires i < |data| && Running(c) && Fit(c) && d == Byte(cfg, c, data[i], i + 1 == |data|)
    ensures SameEnd(cfg, c, i, d, i + 1, data)
  {
    FeedByte(cfg, c, data, i);
  }

  lemma Onward(cfg: Config, start: Cursor, c: Cursor, i: nat, d: Cursor, j: nat, data: string)
    requires i <= |data| && j <= |data|
    requires SameEnd(cfg, start, 0, c, i, data) && SameEnd(cfg, c, i, d, j, data)
    ensures SameEnd(cfg, start, 0, d, j, data)
  {
  }

  lemma Arrived(cfg: Config, start: Cursor, c: Cursor, i: nat, data: string)
    requires i <= |data| && SameEnd(cfg, start, 0, c, i, data) && (!Running(c) || i == |data|)
    ensures (Running(start) ==> Fit(start)) && Feed(cfg, start, data) == c
  {
    assert data[0..] == data;
    assert data[|data|..] == "";
  }

  lemma AppendEnds(log: Log, k: Kind, text: string)
    ensures Ends(Append(log, Part(k, text)), k)
  {
  }

  /** With one mark set, the callbacks are the one for it. */
  lemma OnePending(log: Log, m: Marks, data: string, i: nat, k: Kind)
    requires i <= |data| && Of(m, k).Some? && Of(m, k).value <= i
    requires forall k': Kind :: k' != k ==> Of(m, k').None?
    ensures Pending(log, m, data, i) == Append(log, Part(k, data[Of(m, k).value..i]))
  {
    hide Append;
  }

  lemma MarkIsWithin(log: Log, m: Marks, s: State, i: nat, k: Kind)
    requires MarksFit(log, m, s, i)
    ensures Of(m, k).Some? ==> Of(m, k).value <= i
    ensures Marked(s) == Some(k) ==> Of(m, k).Some?
  {
    hide InUrl;
  }

  /** The callbacks at the end of a fragment; as the code asserts, at most one of them is made. */
  lemma FlushedAll(log: Log, m: Marks, s: State, data: string)
    requires MarksFit(log, m, s, |data|)
    ensures Continues(Pending(log, m, data, |data|), s)
    ensures forall k: Kind :: Of(m, k).Some? ==> Of(m, k).value <= |data| && forall k': Kind :: k' != k ==> Of(m, k').None?
  {
    hide Append, Ends, Pending, Marked, MarksFit;
    forall k: Kind ensures Of(m, k).Some? ==> Of(m, k).value <= |data| && forall k': Kind :: k' != k ==> Of(m, k').None? {
      MarkIsWithin(log, m, s, |data|, k);
      if Of(m, k).Some? {
        OneMark(log, m, s, |data|, k);
      }
    }
    if Marked(s).Some? {
      var k := Marked(s).value;
      MarkIsWithin(log, m, s, |data|, k);
      OnePending(log, m, data, |data|, k);
      AppendEnds(log, k, data[Of(m, k).value..|data|]);
    }
  }

  lemma NothingToContinue(log: Log, s: State)
    ensures Marked(s).None? ==> Continues(log, s)
  {
  }

  // ---- The parser object -------------------------------------------------------------------

  class RequestParser {
    const cfg: Config
    var p: Parser
    var nread: nat         // the bytes counted against the header size limit
    var sink: Sink
    ghost var log: Log     // every callback made so far, with adjacent text put together

    ghost predicate Valid()
      reads this
    {
      sink == Replay(EMPTY_SINK, log) && (p.errno == Ok ==> FitFor(p, nread) && Continues(log, p.state))
    }

    constructor (cfg: Config)
      ensures Valid() && p == FRESH && nread == 0 && log == [] && this.cfg == cfg && sink == EMPTY_SINK
    {
      this.cfg, p, nread, sink, log := cfg, FRESH, 0, EMPTY_SINK, [];
    }

    /** One callback. */
    method Callback(e: Event)
      requires sink == Replay(EMPTY_SINK, log)
      modifies this`sink, this`log
      ensures sink == Replay(EMPTY_SINK, log) && log == Append(old(log), e)
    {
      ReplayAppend(EMPTY_SINK, log, e);
      sink := Handle(sink, e);
      log := Append(log, e);
    }

    /** CALLBACK_DATA. */
    method CallbackData(k: Kind, m: Marks, data: string, i: nat) returns (m': Marks)
      requires sink == Replay(EMPTY_SINK, log) && i <= |data|
      requires Of(m, k).Some? ==> Of(m, k).value <= i
      modifies this`sink, this`log
      ensures sink == Replay(EMPTY_SINK, log) && m' == Set(m, k, None)
      ensures log == Flushed(old(log), k, m, data, i)
    {
      if Of(m, k).Some? {
        Callback(Part(k, data[Of(m, k).value..i]));
      }
      m' := Set(m, k, None);
    }

    /** The real parser has caught up with the byte machine, apart from the marked text. */
    ghost predicate InSync(c: Cursor, m: Marks, data: string, i: nat)
      reads this
    {
      && sink == Replay(EMPTY_SINK, log)
      && i <= |data|
      && p == c.p && nread == c.nread && p.errno == Ok && !c.left && FitFor(p, nread) && c.taken == i
      && MarksFit(log, m, p.state, i)
      && c.log == Pending(log, m, data, i)
      && (p.state == Value && i < |data| ==> !c.skipping)
    }

    /** COUNT_HEADER_SIZE. */
    method Count(n: nat) returns (ok: bool)
      modifies this`p, this`nread
      ensures ok == (old(nread) + n <= cfg.limit) && nread == old(nread) + n
      ensures p == if ok then old(p) else old(p).(errno := HeaderOverflow)
    {
      nread := nread + n;
      ok := nread <= cfg.limit;
      if !ok {
        p := p.(errno := HeaderOverflow);
      }
    }

    /** Callbacks for what has just been passed, a mark for what has just begun. */
    method Emit(events: seq<Event>, m: Marks, data: string, i: nat, k: Option<Kind>) returns (m': Marks)
      requires sink == Replay(EMPTY_SINK, log) && i < |data|
      requires Shaped(events, data[i], k)
      requires m == UNMARKED || (k.Some? && Of(m, k.value).Some? && MarksFit(log, m, Path, i) && |events| == 1)
      modifies this`sink, this`log
      ensures sink == Replay(EMPTY_SINK, log)
      ensures Pending(log, m', data, i + 1) == AppendAll(Pending(old(log), m, data, i), events)
      ensures m' == if k.Some? then Mark(m, k.value, i) else m
    {
      hide Append, Replay, MarksFit;
      m' := m;
      ghost var before := Pending(log, m, data, i);
      for j := 0 to |events|
        invariant sink == Replay(EMPTY_SINK, log)
        invariant j == 0 ==> log == old(log)
        invariant j < |events| ==> m' == m && Pending(log, m, data, i) == AppendAll(before, events[..j])
        invariant j == |events| ==> m' == if k.Some? then Mark(m, k.value, i) else m
        invariant j == |events| ==> Pending(log, m', data, i + 1) == AppendAll(before, events)
      {
        AppendAllSnoc(before, events, j);
        if j == |events| - 1 {
          assert events[..j + 1] == events;
        }
        if IsText(events[j]) {
          Marking(log, m, data, i, events[j].kind);
          m' := Mark(m', events[j].kind, i);
        } else {
          Callback(events[j]);
        }
      }
    }

    /** The callbacks for text that ends before this byte. */
    method EndText(s: State, next: State, m: Marks, data: string, i: nat) returns (m': Marks)
      requires sink == Replay(EMPTY_SINK, log) && i < |data|
      requires Plain(s) && MarksFit(log, m, s, i) && (Marked(next) == Some(UrlText) ==> InUrl(s))
      modifies this`sink, this`log
      ensures sink == Replay(EMPTY_SINK, log)
      ensures Pending(log, m', data, i) == Pending(old(log), m, data, i)
      ensures m' == if Marked(next) == Some(UrlText) then m else UNMARKED
      ensures Marked(next) == Some(UrlText) ==> log == old(log)
    {
      m' := m;
      if Marked(s) == Some(UrlText) && Marked(next) != Some(UrlText) {
        m' := CallbackData(UrlText, m', data, i);
      } else if s == ChunkDataAlmostDone {
        m' := CallbackData(BodyText, m', data, i);
      }
    }

    /** The callbacks a byte in a plain state makes. */
    method Report(o: Out, m: Marks, data: string, i: nat) returns (m': Marks)
      requires sink == Replay(EMPTY_SINK, log) && i < |data|
      requires Plain(p.state) && MarksFit(log, m, p.state, i) && o.p.errno == Ok && WellShaped(o, data[i])
      requires Marked(o.p.state) == Some(UrlText) ==> InUrl(p.state) && |o.events| == 1
      modifies this`sink, this`log
      ensures sink == Replay(EMPTY_SINK, log)
      ensures Pending(log, m', data, i + 1) == AppendAll(Pending(old(log), m, data, i), o.events)
      ensures MarksFit(log, m', o.p.state, i + 1)
      ensures Marked(o.p.state).None? ==> m' == UNMARKED
    {
      hide Replay, Append, AppendAll, MarksFit, Pending, InUrl, Marked, Shaped;
      UrlFit(log, m, p.state, i);
      m' := EndText(p.state, o.p.state, m, data, i);
      m' := Emit(o.events, m', data, i, Marked(o.p.state));
      FitAfter(old(log), m, p.state, i, log, m', o.p.state);
    }

    /** A byte in a state that looks at one byte at a time. */
    method PlainByte(data: string, i: nat, m: Marks, ghost c: Cursor) returns (m': Marks, leave: bool, ghost d: Cursor)
      requires i < |data| && InSync(c, m, data, i) && Plain(p.state)
      modifies this
      ensures d == Byte(cfg, c, data[i], i + 1 == |data|)
      ensures sink == Replay(EMPTY_SINK, log)
      ensures p.errno == Ok <==> d.p.errno == Ok
      ensures p.errno == Ok && !leave ==> InSync(d, m', data, i + 1)
      ensures p.errno == Ok && leave ==> d.left && p == d.p && nread == d.nread && log == d.log && FitFor(p, nread) && d.taken == i + 1 && Marked(p.state).None?
    {
      hide Turn, Byte, Replay, Append, AppendAll, Sound, MarksFit, Pending, InUrl, Marked, ParsingHeader;
      m', leave := m, false;
      ghost var last := i + 1 == |data|;
      d := Byte(cfg, c, data[i], last);
      ByteSound(cfg, c, data[i], last);
      PlainIs(cfg, c, data[i], last);
      if ParsingHeader(p.state) {
        var ok := Count(1);
        if !ok {
          return;
        }
      }
      var o := Turn(cfg, p, data[i], false);
      TurnShaped(cfg, p, data[i]);
      if o.p.errno == Ok {
        m' := Report(o, m', data, i);
      }
      NothingPending(log, data, i + 1);
      if o.reset {
        nread := 0;
      }
      p := o.p;
      leave := o.leave;
    }

    /** s_header_field: the loop over the characters of a name, up to its end. */
    method FieldRun(data: string, i: nat, ghost m: Marks, ghost c: Cursor, ghost base: nat)
        returns (j: nat, ghost d: Cursor)
      requires i < |data| && p.errno == Ok && p.state == Field
      requires Amid(cfg, c, i, c, i, log, m, p, data, base)
      modifies this`p
      ensures i <= j <= |data| && p.errno == Ok && p.state == Field
      ensures Amid(cfg, c, i, d, j, log, m, p, data, base)
      ensures j < |data| ==> Token(cfg.strict, data[j]) == NUL
    {
      hide Byte, Turn, Replay, Append, AppendAll, FitFor, MarksFit, Pending, NameStep, SameEnd, Amid, Token;
      j, d := i, c;
      while j < |data| && Token(cfg.strict, data[j]) != NUL
        invariant i <= j <= |data| && p.errno == Ok && p.state == Field
        invariant Amid(cfg, c, i, d, j, log, m, p, data, base)
      {
        d := NameGoesOn(cfg, c, i, d, j, log, m, p, data, base);
        var (hs, index) := NameStep(p.hs, p.index, Token(cfg.strict, data[j]), data[j]);
        p := p.(hs := hs, index := index);
        j := j + 1;
      }
    }

    /** What follows the characters of a name: the end of the fragment, a colon, or something else. */
    method FinishField(data: string, i: nat, at: nat, m: Marks, ghost c: Cursor, ghost d: Cursor, ghost base: nat)
        returns (j: nat, m': Marks, ghost e: Cursor)
      requires i <= at <= |data| && i < |data| && p.errno == Ok && p.state == Field && nread == base + 1 && MarksFit(log, m, Field, i)
      requires sink == Replay(EMPTY_SINK, log) && Amid(cfg, c, i, d, at, log, m, p, data, base)
      requires at < |data| ==> Token(cfg.strict, data[at]) == NUL
      modifies this
      ensures i < j <= |data| && SameEnd(cfg, c, i, e, j, data)
      ensures sink == Replay(EMPTY_SINK, log)
      ensures if p.errno == Ok then InSync(e, m', data, j) else e.p.errno != Ok
    {
      hide Byte, Turn, Replay, Append, AppendAll, FitFor, MarksFit, Pending, SameEnd, Amid, Token;
      j, m', e := at, m, d;
      ghost var q := p;
      var ok := Count(j - i);
      if j == |data| {
        AtEnd(cfg, c, i, d, j, log, m, q, data, base);
        return;
      }
      e := BreaksOff(cfg, c, i, d, j, log, m, q, data, base);
      if ok {
        NameByteEnd(cfg, d, data[j], j + 1 == |data|);
      }
      if ok && data[j] == ':' {
        p := p.(state := ValueDiscardWs);
        FieldFit(log, m, i);
        m' := CallbackData(FieldText, m', data, j);
        HandedOver(old(log), m, Field, data, i, j, FieldText, log);
      } else if ok {
        p := p.(errno := InvalidHeaderToken);
      }
      j := j + 1;
    }

    /** s_header_field: as much of the name as is there. */
    method FieldBytes(data: string, i: nat, m: Marks, ghost c: Cursor) returns (j: nat, m': Marks, ghost d: Cursor)
      requires i < |data| && InSync(c, m, data, i) && p.state == Field
      modifies this
      ensures i < j <= |data| && SameEnd(cfg, c, i, d, j, data)
      ensures sink == Replay(EMPTY_SINK, log)
      ensures if p.errno == Ok then InSync(d, m', data, j) else d.p.errno != Ok
    {
      hide Byte, Turn, Replay, Append, AppendAll, FitFor, MarksFit, Pending, NameStep, SameEnd, Amid, Token;
      m' := m;
      ghost var base := nread;
      var ok := Count(1);
      if !ok {
        d := FailsAtOnce(cfg, c, data, i);
        j := i + 1;
        return;
      }
      AmidAtStart(cfg, c, i, log, m, p, data, base);
      j, d := FieldRun(data, i, m, c, base);
      j, m', d := FinishField(data, i, j, m, c, d, base);
    }

    /** s_header_value: the loop over the characters of a value, up to a line break. */
    method ValueRun(data: string, i: nat, ghost m: Marks, ghost c: Cursor, ghost base: nat)
        returns (j: nat, ghost d: Cursor)
      requires i < |data| && p.errno == Ok && p.state == Value && nread == base + 1 <= cfg.limit && Running(c) && !c.skipping
      requires Amid(cfg, c, i, c, i, log, m, p, data, base)
      modifies this`p
      ensures i <= j <= |data|
      ensures if p.errno == Ok then p.state == Value && Amid(cfg, c, i, d, j, log, m, p, data, base)
              else i < j && d.p.errno != Ok && SameEnd(cfg, c, i, d, j, data)
      ensures p.errno == Ok && j < |data| ==> IsBreak(data[j])
    {
      hide Byte, Turn, Replay, Append, AppendAll, FitFor, MarksFit, Pending, ValueStep, SameEnd, Amid, IsHeaderChar;
      j, d := i, c;
      while j < |data| && !IsBreak(data[j])
        invariant i <= j <= |data| && p.errno == Ok && p.state == Value
        invariant Amid(cfg, c, i, d, j, log, m, p, data, base)
        invariant Running(d) && d.skipping && j < |data| ==> IsBreak(data[j])
      {
        if !cfg.lenient && !IsHeaderChar(data[j]) {
          d := BadValue(cfg, c, i, d, j, log, m, p, data, base);
          p := p.(errno := InvalidHeaderToken);
          j := j + 1;
          return;
        }
        if p.hs == General {
          var e := EndOfLine(data, j, cfg.limit);
          d := Skips(cfg, c, i, d, j, e, log, m, p, data, base);
          j := e;
        } else {
          var q := ValueStep(p, data[j]);
          if q == None {
            d := BadValue(cfg, c, i, d, j, log, m, p, data, base);
            p := p.(errno := InvalidContentLength);
            j := j + 1;
            return;
          }
          d := ValueGoesOn(cfg, c, i, d, j, log, m, p, q.value, data, base);
          p := q.value;
          j := j + 1;
        }
      }
    }

    /** What follows the characters of a value: the end of the fragment or a line break. */
    method FinishValue(data: string, i: nat, at: nat, m: Marks, ghost c: Cursor, ghost d: Cursor, ghost base: nat)
        returns (j: nat, m': Marks, ghost e: Cursor)
      requires i <= at <= |data| && i < |data| && p.errno == Ok && p.state == Value && nread == base + 1 && MarksFit(log, m, Value, i)
      requires sink == Replay(EMPTY_SINK, log) && Amid(cfg, c, i, d, at, log, m, p, data, base)
      requires at < |data| ==> IsBreak(data[at])
      modifies this
      ensures i < j <= |data| && SameEnd(cfg, c, i, e, j, data)
      ensures sink == Replay(EMPTY_SINK, log)
      ensures if p.errno == Ok then InSync(e, m', data, j) else e.p.errno != Ok
    {
      hide Byte, Turn, Replay, Append, AppendAll, FitFor, MarksFit, Pending, SameEnd, Amid, IsBreak;
      j, m', e := at, m, d;
      ghost var q := p;
      var ok := Count(j - i);
      if j == |data| {
        AtEnd(cfg, c, i, d, j, log, m, q, data, base);
        return;
      }
      e := BreaksOff(cfg, c, i, d, j, log, m, q, data, base);
      if ok {
        ValueEnd(cfg, d, data[j], j + 1 == |data|);
        p := p.(state := if data[j] == CR then HeaderAlmostDone else ValueLws);
        FieldFit(log, m, i);
        m' := CallbackData(ValueText, m', data, j);
        HandedOver(old(log), m, Value, data, i, j, ValueText, log);
      }
      j := j + 1;
    }

    /** s_header_value: as much of the value as is there. */
    method ValueBytes(data: string, i: nat, m: Marks, ghost c: Cursor) returns (j: nat, m': Marks, ghost d: Cursor)
      requires i < |data| && InSync(c, m, data, i) && p.state == Value
      modifies this
      ensures i < j <= |data| && SameEnd(cfg, c, i, d, j, data)
      ensures sink == Replay(EMPTY_SINK, log)
      ensures if p.errno == Ok then InSync(d, m', data, j) else d.p.errno != Ok
    {
      hide Byte, Turn, Replay, Append, AppendAll, FitFor, MarksFit, Pending, SameEnd, Amid, IsBreak;
      m' := m;
      ghost var base := nread;
      var ok := Count(1);
      if !ok {
        d := FailsAtOnce(cfg, c, data, i);
        j := i + 1;
        return;
      }
      AmidAtStart(cfg, c, i, log, m, p, data, base);
      j, d := ValueRun(data, i, m, c, base);
      if p.errno == Ok {
        j, m', d := FinishValue(data, i, j, m, c, d, base);
      }
    }

    /** memchr. */
    static method FirstOf(data: string, from: nat, n: nat, ch: char) returns (at: Option<nat>)
      requires from + n <= |data|
      ensures match at
              case None => forall k | from <= k < from + n :: data[k] != ch
              case Some(x) => from <= x < from + n && data[x] == ch && forall k | from <= k < x :: data[k] != ch
    {
      for x := from to from + n
        invariant forall k | from <= k < x :: data[k] != ch
      {
        if data[x] == ch {
          return Some(x);
        }
      }
      at := None;
    }

    /** The search for the end of an ordinary value, no further than the header size limit. */
    static method EndOfLine(data: string, j: nat, limit: nat) returns (e: nat)
      requires j <= |data|
      ensures j <= e <= |data| && (e < |data| ==> IsBreak(data[e]) && e < j + limit)
      ensures forall k | j <= k < e && k < j + limit :: !IsBreak(data[k])
    {
      var n := if |data| - j < limit then |data| - j else limit;
      var cr := FirstOf(data, j, n, CR);
      var lf := FirstOf(data, j, n, LF);
      if cr.Some? {
        e := if lf.Some? && cr.value >= lf.value then lf.value else cr.value;
      } else if lf.Some? {
        e := lf.value;
      } else {
        e := |data|;
      }
    }

    /** s_message_done, after the last byte of a body. */
    method MessageDone(data: string, m: Marks, j: nat) returns (m': Marks, leave: bool)
      requires sink == Replay(EMPTY_SINK, log) && j <= |data| && p.errno == Ok && p.length == 0
      requires m.body.Some? && m.body.value <= j && Set(m, BodyText, None) == UNMARKED
      modifies this
      ensures sink == Replay(EMPTY_SINK, log) && leave == p.upgrade && m' == UNMARKED && p.errno == Ok
      ensures p == OnMessageDone(cfg, old(p)).p && nread == old(nread) && FitFor(p, nread)
      ensures log == Append(Flushed(old(log), BodyText, m, data, j), MessageComplete)
      ensures MarksFit(log, UNMARKED, p.state, j) && Marked(p.state).None? && log == Pending(log, UNMARKED, data, j)
      ensures p.state != Value
    {
      hide Append, Replay, Sound;
      MessageSound(cfg, p);
      m' := CallbackData(BodyText, m, data, j);
      p := OnMessageDone(cfg, p).p;
      Callback(MessageComplete);
      leave := p.upgrade;
      NothingMarked(log, p.state, j);
    }

    /** Where the parser and the byte machine can be between two turns of the loop. */
    ghost predicate Level(c: Cursor, m: Marks, data: string, i: nat, leave: bool)
      reads this
    {
      && i <= |data| && sink == Replay(EMPTY_SINK, log)
      && if p.errno != Ok then c.p.errno != Ok
         else if leave then c.left && p == c.p && nread == c.nread && log == c.log && FitFor(p, nread) && c.taken == i && Marked(p.state).None?
         else InSync(c, m, data, i)
    }

    /** s_chunk_data: as much as is there and as is left of the chunk. */
    method ChunkBytes(data: string, i: nat, m: Marks, ghost c: Cursor) returns (j: nat, m': Marks, ghost d: Cursor)
      requires i < |data| && InSync(c, m, data, i) && p.state == ChunkData
      modifies this`p
      ensures i < j <= |data| && SameEnd(cfg, c, i, d, j, data) && InSync(d, m', data, j)
    {
      hide Byte, Turn, Replay, Append, AppendAll, SameEnd, FitFor, Pending, MarksFit;
      BodyLeft(p, nread);
      j := if p.length < |data| - i then i + p.length else |data|;
      d := BodyRun(cfg, c, data, i, j - i);
      BodyMarked(cfg, c, log, m, ChunkData, data, i, j);
      FeedSound(cfg, c, i, d, j, data);
      m' := Mark(m, BodyText, i);
      p := p.(length := p.length - (j - i));
      if p.length == 0 {
        p := p.(state := ChunkDataAlmostDone);
      }
    }

    /** s_body_identity: as much as is there and as is left of the body. */
    method IdentityBytes(data: string, i: nat, m: Marks, ghost c: Cursor)
        returns (j: nat, m': Marks, leave: bool, ghost d: Cursor)
      requires i < |data| && InSync(c, m, data, i) && p.state == BodyIdentity
      modifies this
      ensures i < j <= |data| && SameEnd(cfg, c, i, d, j, data) && Level(d, m', data, j, leave)
    {
      hide Byte, Turn, Replay, Append, AppendAll, SameEnd, FitFor, Pending, MarksFit;
      BodyLeft(p, nread);
      j, leave := if p.length < |data| - i then i + p.length else |data|, false;
      d := BodyRun(cfg, c, data, i, j - i);
      BodyMarked(cfg, c, log, m, BodyIdentity, data, i, j);
      FeedSound(cfg, c, i, d, j, data);
      m' := Mark(m, BodyText, i);
      p := p.(length := p.length - (j - i));
      if p.length == 0 {
        m', leave := MessageDone(data, m', j);
      }
    }

    /** One turn of the loop: one byte, or a whole stretch. */
    method Turned(data: string, i: nat, m: Marks, ghost c: Cursor) returns (j: nat, m': Marks, leave: bool, ghost d: Cursor)
      requires i < |data| && InSync(c, m, data, i)
      modifies this
      ensures i < j <= |data| && SameEnd(cfg, c, i, d, j, data) && Level(d, m', data, j, leave)
    {
      hide Byte, Turn, Replay, Append, AppendAll, FitFor, Pending, MarksFit, SameEnd;
      leave := false;
      if p.state == Field {
        j, m', d := FieldBytes(data, i, m, c);
      } else if p.state == Value {
        j, m', d := ValueBytes(data, i, m, c);
      } else if p.state == BodyIdentity {
        j, m', leave, d := IdentityBytes(data, i, m, c);
      } else if p.state == ChunkData {
        j, m', d := ChunkBytes(data, i, m, c);
      } else {
        m', leave, d := PlainByte(data, i, m, c);
        OneByte(cfg, c, d, data, i);
        j := i + 1;
      }
    }

    /** The loop over the bytes of a fragment. */
    method Loop(data: string, m: Marks, ghost start: Cursor) returns (i: nat, m': Marks, leave: bool, ghost c: Cursor)
      requires InSync(start, m, data, 0) && SameEnd(cfg, start, 0, start, 0, data)
      modifies this
      ensures Level(c, m', data, i, leave) && c == Feed(cfg, start, data)
      ensures p.errno == Ok && !leave ==> i == |data|
    {
      hide Byte, Turn, Replay, Append, AppendAll, FitFor, Pending, MarksFit, SameEnd;
      i, m', leave, c := 0, m, false, start;
      while i < |data| && !leave && p.errno == Ok
        invariant i <= |data| && SameEnd(cfg, start, 0, c, i, data) && Level(c, m', data, i, leave)
        decreases |data| - i
      {
        ghost var at, before := i, c;
        i, m', leave, c := Turned(data, i, m', c);
        Onward(cfg, start, before, at, c, i, data);
      }
      Arrived(cfg, start, c, i, data);
    }

    /** The callbacks for the text that goes on in the next fragment. */
    method HandOver(data: string, m: Marks)
      requires sink == Replay(EMPTY_SINK, log) && MarksFit(log, m, p.state, |data|)
      modifies this`sink, this`log
      ensures sink == Replay(EMPTY_SINK, log) && log == Pending(old(log), m, data, |data|) && Continues(log, p.state)
    {
      hide Replay, Append;
      FlushedAll(log, m, p.state, data);
      var rest := CallbackData(FieldText, m, data, |data|);
      rest := CallbackData(ValueText, rest, data, |data|);
      rest := CallbackData(UrlText, rest, data, |data|);
      rest := CallbackData(BodyText, rest, data, |data|);
    }

    /** http_parser_execute. */
    method Execute(data: string) returns (n: nat)
      requires Valid()
      modifies this
      ensures Valid()
      ensures old(p.errno) != Ok ==> n == 0 && p == old(p) && nread == old(nread) && log == old(log)
      ensures old(p.errno) == Ok && data == "" ==>
        log == old(log) && nread == old(nread) && n == (if p.errno == Ok then 0 else 1)
        && p == if old(p.state) in {Dead, StartReq} then old(p) else old(p).(errno := InvalidEofState)
      ensures old(p.errno) == Ok && data != "" ==>
        var r := Feed(cfg, Cursor(old(p), old(nread), old(log), 0, false, false), data);
        if r.p.errno == Ok then p == r.p && nread == r.nread && log == r.log && n == r.taken else p.errno != Ok
    {
      hide Byte, Turn, Replay, Append, AppendAll, FitFor, Pending, MarksFit, SameEnd, Continues;
      if p.errno != Ok {
        return 0;
      }
      if data == "" {
        if p.state != Dead && p.state != StartReq {
          p := p.(errno := InvalidEofState);
          return 1;
        }
        return 0;
      }
      var m := if Marked(p.state).Some? then Set(UNMARKED, Marked(p.state).value, Some(0)) else UNMARKED;
      ghost var start := Cursor(p, nread, log, 0, false, false);
      ghost var c;
      var leave;
      Resumes(cfg, log, p, nread, data, m);
      n, m, leave, c := Loop(data, m, start);
      if p.errno == Ok && !leave {
        HandOver(data, m);
      } else {
        NothingToContinue(log, p.state);
      }
    }
  }
}
