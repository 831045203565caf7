/**
 The request parser, one byte at a time: what http_parser_execute does to the parser and which
 callbacks it makes, as a function of the state and one character. Response messages are not
 part of this model; every callback returns zero.
 */
module HttpParser {
  import opened HttpChars
  import opened Options

  // ---- Data --------------------------------------------------------------------------------

  /** The build's strict flag and header size limit, and the parser's lenient_http_headers bit. */
  datatype Config = Config(strict: bool, limit: nat, lenient: bool)

  datatype Method =
    | DELETE | GET | HEAD | POST | PUT | CONNECT | OPTIONS | TRACE | COPY | LOCK | MKCOL | MOVE
    | PROPFIND | PROPPATCH | SEARCH | UNLOCK | BIND | REBIND | UNBIND | ACL | REPORT | MKACTIVITY
    | CHECKOUT | MERGE | MSEARCH | NOTIFY | SUBSCRIBE | UNSUBSCRIBE | PATCH | PURGE | MKCALENDAR
    | LINK | UNLINK

  datatype State =
    | Dead | StartReq | ReqMethod
    | SpacesBeforeUrl | Schema | SchemaSlash | SchemaSlashSlash | ServerStart | Server | ServerWithAt
    | Path | QueryStart | Query | FragmentStart | Fragment
    | HttpStart | HttpH | HttpHT | HttpHTT | HttpHTTP | HttpMajor | HttpDot | HttpMinor | HttpEnd
    | LineAlmostDone
    | FieldStart | Field | ValueDiscardWs | ValueDiscardWsAlmostDone | ValueDiscardLws | Value | ValueLws
    | HeaderAlmostDone | HeadersAlmostDone
    | ChunkSizeStart | ChunkSize | ChunkParameters | ChunkSizeAlmostDone
    | ChunkData | ChunkDataAlmostDone | ChunkDataDone
    | BodyIdentity

  datatype HeaderState =
    | General | C | CO | CON
    | MatchingConnection | MatchingProxyConnection | MatchingContentLength | MatchingTransferEncoding
    | MatchingUpgrade
    | Connection | ContentLength | TransferEncoding | Upgrade
    | MatchingChunked | TokenStart | MatchingKeepAlive | MatchingClose | MatchingConnUpgrade | ConnToken
    | Chunked | KeepAlive | Close | ConnUpgrade

  datatype Flags = Flags(
    chunked: bool, keepAlive: bool, close: bool, connUpgrade: bool,
    trailing: bool, upgrade: bool, contentLength: bool)

  datatype Errno =
    | Ok | InvalidEofState | HeaderOverflow | ClosedConnection | InvalidVersion | InvalidMethod
    | InvalidUrl | LfExpected | InvalidHeaderToken | InvalidContentLength | UnexpectedContentLength
    | InvalidChunkSize | InvalidConstant | Strict

  /** http_parser, but for its count of header bytes, which stands on its own. */
  datatype Parser = Parser(
    state: State, flags: Flags, hs: HeaderState, index: nat, length: nat,
    major: nat, minor: nat, verb: Method, errno: Errno, upgrade: bool)

  /** The data callbacks of a request. */
  datatype Kind = UrlText | FieldText | ValueText | BodyText

  datatype Event =
    | MessageBegin
    | HeadersComplete(verb: Method, keepAlive: bool)
    | MessageComplete
    | ChunkHeader
    | ChunkComplete
    | Part(kind: Kind, text: string)

  /** What one byte does: the new parser, the callbacks, whether the call returns early, and
      whether the count of header bytes starts again. */
  datatype Out = Out(p: Parser, events: seq<Event>, leave: bool, reset: bool)

  const NO_LENGTH: nat := 0xFFFF_FFFF_FFFF_FFFF   // ULLONG_MAX
  const WORD: nat := 0x1_0000_0000_0000_0000

  const NO_FLAGS := Flags(false, false, false, false, false, false, false)

  /** http_parser_init. */
  const FRESH := Parser(StartReq, NO_FLAGS, General, 0, 0, 0, 0, DELETE, Ok, false)

  // ---- Names -------------------------------------------------------------------------------

  /** method_strings. */
  function Name(m: Method): (s: string)
    ensures |s| >= 3
  {
    match m
    case DELETE => "DELETE" case GET => "GET" case HEAD => "HEAD" case POST => "POST" case PUT => "PUT"
    case CONNECT => "CONNECT" case OPTIONS => "OPTIONS" case TRACE => "TRACE" case COPY => "COPY"
    case LOCK => "LOCK" case MKCOL => "MKCOL" case MOVE => "MOVE" case PROPFIND => "PROPFIND"
    case PROPPATCH => "PROPPATCH" case SEARCH => "SEARCH" case UNLOCK => "UNLOCK" case BIND => "BIND"
    case REBIND => "REBIND" case UNBIND => "UNBIND" case ACL => "ACL" case REPORT => "REPORT"
    case MKACTIVITY => "MKACTIVITY" case CHECKOUT => "CHECKOUT" case MERGE => "MERGE"
    case MSEARCH => "M-SEARCH" case NOTIFY => "NOTIFY" case SUBSCRIBE => "SUBSCRIBE"
    case UNSUBSCRIBE => "UNSUBSCRIBE" case PATCH => "PATCH" case PURGE => "PURGE"
    case MKCALENDAR => "MKCALENDAR" case LINK => "LINK" case UNLINK => "UNLINK"
  }

  /** The first guess, made on the first letter. */
  function Guess(ch: char): Option<Method> {
    match ch
    case 'A' => Some(ACL) case 'B' => Some(BIND) case 'C' => Some(CONNECT) case 'D' => Some(DELETE)
    case 'G' => Some(GET) case 'H' => Some(HEAD) case 'L' => Some(LOCK) case 'M' => Some(MKCOL)
    case 'N' => Some(NOTIFY) case 'O' => Some(OPTIONS) case 'P' => Some(POST) case 'R' => Some(REPORT)
    case 'S' => Some(SUBSCRIBE) case 'T' => Some(TRACE) case 'U' => Some(UNLOCK)
    case _ => None
  }

  /** The corrections, made where a later letter tells methods apart. */
  function Correct(m: Method, index: nat, ch: char): Option<Method> {
    match (m, index, ch)
    case (POST, 1, 'U') => Some(PUT)
    case (POST, 1, 'A') => Some(PATCH)
    case (POST, 1, 'R') => Some(PROPFIND)
    case (PUT, 2, 'R') => Some(PURGE)
    case (CONNECT, 1, 'H') => Some(CHECKOUT)
    case (CONNECT, 2, 'P') => Some(COPY)
    case (MKCOL, 1, 'O') => Some(MOVE)
    case (MKCOL, 1, 'E') => Some(MERGE)
    case (MKCOL, 1, '-') => Some(MSEARCH)
    case (MKCOL, 2, 'A') => Some(MKACTIVITY)
    case (MKCOL, 3, 'A') => Some(MKCALENDAR)
    case (SUBSCRIBE, 1, 'E') => Some(SEARCH)
    case (REPORT, 2, 'B') => Some(REBIND)
    case (PROPFIND, 4, 'P') => Some(PROPPATCH)
    case (LOCK, 1, 'I') => Some(LINK)
    case (UNLOCK, 2, 'S') => Some(UNSUBSCRIBE)
    case (UNLOCK, 2, 'B') => Some(UNBIND)
    case (UNLOCK, 3, 'I') => Some(UNLINK)
    case _ => None
  }

  // ---- Small pieces ------------------------------------------------------------------------

  function Fail(p: Parser, e: Errno): Out { Out(p.(errno := e), [], false, false) }

  function Go(p: Parser, s: State): Out { Out(p.(state := s), [], false, false) }

  function Text(p: Parser, k: Kind, ch: char): Out { Out(p, [Part(k, [ch])], false, false) }

  /** http_should_keep_alive, for a request. */
  predicate ShouldKeepAlive(p: Parser) {
    if p.major > 0 && p.minor > 0 then !p.flags.close else p.flags.keepAlive
  }

  /** NEW_MESSAGE. */
  function NewMessage(cfg: Config, p: Parser): State {
    if cfg.strict && !ShouldKeepAlive(p) then Dead else StartReq
  }

  predicate ParsingHeader(s: State) {
    !(s.ChunkData? || s.ChunkDataAlmostDone? || s.ChunkDataDone? || s.BodyIdentity?)
  }

  /** parse_url_char. */
  function UrlChar(strict: bool, s: State, ch: char): State {
    if ch == SP || IsBreak(ch) then Dead
    else if strict && (ch == HT || ch == '\U{c}') then Dead
    else
      match s
      case SpacesBeforeUrl =>
        if ch == '/' || ch == '*' then Path else if IsLetter(ch) then Schema else Dead
      case Schema => if IsLetter(ch) then Schema else if ch == ':' then SchemaSlash else Dead
      case SchemaSlash => if ch == '/' then SchemaSlashSlash else Dead
      case SchemaSlashSlash => if ch == '/' then ServerStart else Dead
      case ServerWithAt => if ch == '@' then Dead else ServerChar(ch)
      case ServerStart => ServerChar(ch)
      case Server => ServerChar(ch)
      case Path =>
        if IsUrlChar(strict, ch) then Path
        else if ch == '?' then QueryStart else if ch == '#' then FragmentStart else Dead
      case QueryStart => QueryChar(strict, ch)
      case Query => QueryChar(strict, ch)
      case FragmentStart =>
        if IsUrlChar(strict, ch) || ch == '?' then Fragment else if ch == '#' then FragmentStart else Dead
      case Fragment => if IsUrlChar(strict, ch) || ch == '?' || ch == '#' then Fragment else Dead
      case _ => Dead
  }

  function ServerChar(ch: char): State {
    if ch == '/' then Path
    else if ch == '?' then QueryStart
    else if ch == '@' then ServerWithAt
    else if IsUserinfoChar(ch) || ch == '[' || ch == ']' then Server
    else Dead
  }

  function QueryChar(strict: bool, ch: char): State {
    if IsUrlChar(strict, ch) || ch == '?' then Query else if ch == '#' then FragmentStart else Dead
  }

  /** s_start_req. */
  function OnStart(p: Parser, ch: char): Out {
    if IsBreak(ch) then Out(p, [], false, false)
    else
      match Guess(ch)
      case None => Fail(p, InvalidMethod)
      case Some(m) =>
        Out(p.(flags := NO_FLAGS, length := NO_LENGTH, verb := m, index := 1, state := ReqMethod),
            [MessageBegin], false, false)
  }

  /** s_req_method. */
  function OnMethod(p: Parser, ch: char): Out {
    var q := p.(index := p.index + 1);
    if ch == NUL then Fail(p, InvalidMethod)
    else if ch == SP && At(Name(p.verb), p.index) == NUL then Go(q, SpacesBeforeUrl)
    else if ch == At(Name(p.verb), p.index) then Out(q, [], false, false)
    else if IsUpper(ch) || ch == '-' then
      match Correct(p.verb, p.index, ch)
      case None => Fail(p, InvalidMethod)
      case Some(m) => Out(q.(verb := m), [], false, false)
    else Fail(p, InvalidMethod)
  }

  /** One more character of the URL. */
  function UrlText1(cfg: Config, p: Parser, ch: char): Out {
    var s := UrlChar(cfg.strict, p.state, ch);
    if s == Dead then Fail(p, InvalidUrl) else Text(p.(state := s), UrlText, ch)
  }

  /** The states from s_req_spaces_before_url to s_req_fragment. */
  function OnUrl(cfg: Config, p: Parser, ch: char): Out {
    match p.state
    case SpacesBeforeUrl =>
      if ch == SP then Out(p, [], false, false)
      else UrlText1(cfg, if p.verb == CONNECT then p.(state := ServerStart) else p, ch)
    case Schema => UrlText1(cfg, p, ch)
    case SchemaSlash => UrlText1(cfg, p, ch)
    case SchemaSlashSlash => UrlText1(cfg, p, ch)
    case ServerStart => UrlText1(cfg, p, ch)
    case _ =>
      if ch == SP then Go(p, HttpStart)
      else if ch == CR then Go(p.(major := 0, minor := 9), LineAlmostDone)
      else if ch == LF then Go(p.(major := 0, minor := 9), FieldStart)
      else UrlText1(cfg, p, ch)
  }

  /** One letter of "HTTP/", which only the strict mode checks. */
  function Letter(cfg: Config, p: Parser, ch: char, expected: char, next: State): Out {
    if cfg.strict && ch != expected then Fail(p, Strict) else Go(p, next)
  }

  /** The states from s_req_http_start to s_req_line_almost_done. */
  function OnVersion(cfg: Config, p: Parser, ch: char): Out {
    match p.state
    case HttpStart =>
      if ch == 'H' then Go(p, HttpH) else if ch == SP then Out(p, [], false, false) else Fail(p, InvalidConstant)
    case HttpH => Letter(cfg, p, ch, 'T', HttpHT)
    case HttpHT => Letter(cfg, p, ch, 'T', HttpHTT)
    case HttpHTT => Letter(cfg, p, ch, 'P', HttpHTTP)
    case HttpHTTP => Letter(cfg, p, ch, '/', HttpMajor)
    case HttpMajor =>
      if IsNum(ch) then Go(p.(major := ch as int - '0' as int), HttpDot) else Fail(p, InvalidVersion)
    case HttpDot => if ch == '.' then Go(p, HttpMinor) else Fail(p, InvalidVersion)
    case HttpMinor =>
      if IsNum(ch) then Go(p.(minor := ch as int - '0' as int), HttpEnd) else Fail(p, InvalidVersion)
    case HttpEnd =>
      if ch == CR then Go(p, LineAlmostDone) else if ch == LF then Go(p, FieldStart) else Fail(p, InvalidVersion)
    case _ => if ch == LF then Go(p, FieldStart) else Fail(p, LfExpected)
  }

  // ---- Header names ------------------------------------------------------------------------

  /** Which header the first letter may begin. */
  function FirstLetter(c: char): HeaderState {
    match c
    case 'c' => C
    case 'p' => MatchingProxyConnection
    case 't' => MatchingTransferEncoding
    case 'u' => MatchingUpgrade
    case _ => General
  }

  /** One step of matching a word that is complete at its last letter. */
  function Match(word: string, i: nat, c: char, matching: HeaderState, whole: HeaderState, other: HeaderState): HeaderState {
    if i > |word| || c != At(word, i) then other else if i == |word| - 1 then whole else matching
  }

  /** The switch inside s_header_field: c is the token, ch the character. */
  function NameStep(hs: HeaderState, index: nat, c: char, ch: char): (HeaderState, nat) {
    match hs
    case C => (if c == 'o' then CO else General, index + 1)
    case CO => (if c == 'n' then CON else General, index + 1)
    case CON => (if c == 'n' then MatchingConnection else if c == 't' then MatchingContentLength else General, index + 1)
    case MatchingConnection => (Match("connection", index + 1, c, hs, Connection, General), index + 1)
    case MatchingProxyConnection => (Match("proxy-connection", index + 1, c, hs, Connection, General), index + 1)
    case MatchingContentLength => (Match("content-length", index + 1, c, hs, ContentLength, General), index + 1)
    case MatchingTransferEncoding => (Match("transfer-encoding", index + 1, c, hs, TransferEncoding, General), index + 1)
    case MatchingUpgrade => (Match("upgrade", index + 1, c, hs, Upgrade, General), index + 1)
    case General => (General, index)
    case _ => (if ch != SP then General else hs, index)
  }

  /** s_header_field. */
  function OnField(cfg: Config, p: Parser, ch: char): Out {
    var c := Token(cfg.strict, ch);
    if c != NUL then
      var (hs, index) := NameStep(p.hs, p.index, c, ch);
      Text(p.(hs := hs, index := index), FieldText, ch)
    else if ch == ':' then Go(p, ValueDiscardWs)
    else Fail(p, InvalidHeaderToken)
  }

  // ---- Header values -----------------------------------------------------------------------

  function Digit(c: char): nat requires IsNum(c) { c as int - '0' as int }

  /** s_header_value_start: the first character of a value, or of a continuation line. */
  function OnValueStart(p: Parser, ch: char): Out {
    var q := p.(state := Value, index := 0);
    var c := LowerBit(ch);
    match p.hs
    case Upgrade => Text(q.(hs := General, flags := q.flags.(upgrade := true)), ValueText, ch)
    case TransferEncoding => Text(q.(hs := if c == 'c' then MatchingChunked else General), ValueText, ch)
    case ContentLength =>
      if !IsNum(ch) then Fail(p, InvalidContentLength)
      else if p.flags.contentLength then Fail(p, UnexpectedContentLength)
      else Text(q.(length := Digit(ch), flags := q.flags.(contentLength := true)), ValueText, ch)
    case Connection => Text(q.(hs := FirstTokenLetter(c)), ValueText, ch)
    case TokenStart => Text(q, ValueText, ch)
    case _ => Text(q.(hs := General), ValueText, ch)
  }

  function FirstTokenLetter(c: char): HeaderState {
    if c == 'k' then MatchingKeepAlive else if c == 'c' then MatchingClose
    else if c == 'u' then MatchingConnUpgrade else ConnToken
  }

  /** A character that ends or breaks off a recognised connection token. */
  function AfterToken(p: Parser, ch: char): Parser {
    if ch == ',' then
      p.(flags := TokenFlags(p), hs := TokenStart, index := 0)
    else if ch != SP then p.(hs := ConnToken)
    else p
  }

  /** The flag a recognised connection token stands for. */
  function TokenFlags(p: Parser): Flags {
    match p.hs
    case KeepAlive => p.flags.(keepAlive := true)
    case Close => p.flags.(close := true)
    case ConnUpgrade => p.flags.(connUpgrade := true)
    case _ => p.flags
  }

  /** The end of a header line: like TokenFlags, and chunked. */
  function FinishFlags(p: Parser): Flags {
    if p.hs.Chunked? then p.flags.(chunked := true) else TokenFlags(p)
  }

  /** content_length times base plus digit, in 64 bits. */
  function Grown(length: nat, base: nat, digit: nat): nat { (length * base + digit) % WORD }

  /** The guard against wrap-around. */
  predicate TooLong(length: nat, base: nat) requires base > 0 { (NO_LENGTH - base) / base < length }

  /** The switch inside s_header_value: the parser, or None for an invalid content length. */
  function ValueStep(p: Parser, ch: char): Option<Parser> {
    var c := LowerBit(ch);
    var i := p.index + 1;
    match p.hs
    case ContentLength =>
      if ch == SP then Some(p)
      else if !IsNum(ch) || TooLong(p.length, 10) then None
      else Some(p.(length := Grown(p.length, 10, Digit(ch))))
    case MatchingChunked => Some(p.(index := i, hs := Match("chunked", i, c, p.hs, Chunked, General)))
    case TokenStart =>
      Some(p.(hs := if c in "kcu" then FirstTokenLetter(c)
                    else if StrictToken(c) != NUL then ConnToken
                    else if IsBlank(c) then TokenStart else General))
    case MatchingKeepAlive => Some(p.(index := i, hs := Match("keep-alive", i, c, p.hs, KeepAlive, ConnToken)))
    case MatchingClose => Some(p.(index := i, hs := Match("close", i, c, p.hs, Close, ConnToken)))
    case MatchingConnUpgrade => Some(p.(index := i, hs := Match("upgrade", i, c, p.hs, ConnUpgrade, ConnToken)))
    case ConnToken => Some(if ch == ',' then p.(hs := TokenStart, index := 0) else p)
    case Chunked => Some(if ch != SP then p.(hs := General) else p)
    case KeepAlive => Some(AfterToken(p, ch))
    case Close => Some(AfterToken(p, ch))
    case ConnUpgrade => Some(AfterToken(p, ch))
    case General => Some(p)
    case _ => Some(p.(hs := General))
  }

  /** s_header_value. After a first character of an ordinary value has been looked at, the code
      searches for the end of the line: `skipping` says that this one is passed over unseen. */
  function OnValue(cfg: Config, p: Parser, ch: char, skipping: bool): Out {
    if ch == CR then Go(p, HeaderAlmostDone)
    else if ch == LF then Go(p, ValueLws)
    else if skipping then Text(p, ValueText, ch)
    else if !cfg.lenient && !IsHeaderChar(ch) then Fail(p, InvalidHeaderToken)
    else
      match ValueStep(p, ch)
      case None => Fail(p, InvalidContentLength)
      case Some(q) => Text(q, ValueText, ch)
  }

  // ---- The end of the headers --------------------------------------------------------------

  /** s_headers_done. */
  function OnHeadersDone(cfg: Config, p: Parser, ch: char): Out {
    if cfg.strict && ch != LF then Fail(p, Strict)
    else
      var hasBody := p.flags.chunked || (p.length > 0 && p.length != NO_LENGTH);
      if p.upgrade && (p.verb == CONNECT || !hasBody) then
        Out(p.(state := NewMessage(cfg, p)), [MessageComplete], true, true)
      else if p.flags.chunked then Out(p.(state := ChunkSizeStart), [], false, true)
      else if p.length == 0 || p.length == NO_LENGTH then
        Out(p.(state := NewMessage(cfg, p)), [MessageComplete], false, true)
      else Out(p.(state := BodyIdentity), [], false, true)
  }

  /** s_message_done. */
  function OnMessageDone(cfg: Config, p: Parser): Out {
    Out(p.(state := NewMessage(cfg, p)), [MessageComplete], p.upgrade, false)
  }

  function After(events: seq<Event>, o: Out): Out { o.(events := events + o.events) }

  /** s_headers_almost_done. */
  function OnHeadersAlmostDone(cfg: Config, p: Parser, ch: char): Out {
    if cfg.strict && ch != LF then Fail(p, Strict)
    else if p.flags.trailing then After([ChunkComplete], OnMessageDone(cfg, p))
    else if p.flags.chunked && p.flags.contentLength then Fail(p, UnexpectedContentLength)
    else
      var q := p.(upgrade := (p.flags.upgrade && p.flags.connUpgrade) || p.verb == CONNECT);
      After([HeadersComplete(q.verb, ShouldKeepAlive(q))], OnHeadersDone(cfg, q, ch))
  }

  /** s_header_field_start. */
  function OnFieldStart(cfg: Config, p: Parser, ch: char): Out {
    var c := Token(cfg.strict, ch);
    if ch == CR then Go(p, HeadersAlmostDone)
    else if ch == LF then OnHeadersAlmostDone(cfg, p, ch)
    else if c == NUL then Fail(p, InvalidHeaderToken)
    else Text(p.(index := 0, state := Field, hs := FirstLetter(c)), FieldText, ch)
  }

  /** s_header_value_discard_ws. */
  function OnDiscardWs(p: Parser, ch: char): Out {
    if IsBlank(ch) then Out(p, [], false, false)
    else if ch == CR then Go(p, ValueDiscardWsAlmostDone)
    else if ch == LF then Go(p, ValueDiscardLws)
    else OnValueStart(p, ch)
  }

  /** The header line is over and ch begins the next one, or ends the headers. */
  function NextHeader(cfg: Config, p: Parser, ch: char): Out {
    OnFieldStart(cfg, p.(flags := FinishFlags(p)), ch)
  }

  /** s_header_value_discard_lws: unless the line is continued, the value is empty. */
  function OnDiscardLws(cfg: Config, p: Parser, ch: char): Out {
    if IsBlank(ch) then Go(p, ValueDiscardWs) else After([Part(ValueText, "")], NextHeader(cfg, p, ch))
  }

  /** s_header_value_lws. */
  function OnLws(cfg: Config, p: Parser, ch: char): Out {
    if IsBlank(ch) then OnValueStart(p, ch) else NextHeader(cfg, p, ch)
  }

  /** The states between a name and the next name. */
  function OnLine(cfg: Config, p: Parser, ch: char): Out {
    match p.state
    case ValueDiscardWs => OnDiscardWs(p, ch)
    case ValueDiscardWsAlmostDone => Letter(cfg, p, ch, LF, ValueDiscardLws)
    case ValueDiscardLws => OnDiscardLws(cfg, p, ch)
    case HeaderAlmostDone => if ch == LF then Go(p, ValueLws) else Fail(p, LfExpected)
    case _ => OnLws(cfg, p, ch)
  }

  // ---- Bodies ------------------------------------------------------------------------------

  /** s_body_identity. */
  function OnBody(cfg: Config, p: Parser, ch: char): Out
    requires p.length > 0
  {
    var q := p.(length := p.length - 1);
    if q.length == 0 then After([Part(BodyText, [ch])], OnMessageDone(cfg, q)) else Text(q, BodyText, ch)
  }

  /** The states of the chunked coding. */
  function OnChunk(cfg: Config, p: Parser, ch: char): Out
    requires p.state.ChunkData? ==> p.length > 0
  {
    match p.state
    case ChunkSizeStart =>
      if Unhex(ch) < 0 then Fail(p, InvalidChunkSize) else Go(p.(length := Unhex(ch)), ChunkSize)
    case ChunkSize =>
      if ch == CR then Go(p, ChunkSizeAlmostDone)
      else if Unhex(ch) < 0 then
        if ch == ';' || ch == SP then Go(p, ChunkParameters) else Fail(p, InvalidChunkSize)
      else if TooLong(p.length, 16) then Fail(p, InvalidContentLength)
      else Out(p.(length := Grown(p.length, 16, Unhex(ch))), [], false, false)
    case ChunkParameters => if ch == CR then Go(p, ChunkSizeAlmostDone) else Out(p, [], false, false)
    case ChunkSizeAlmostDone =>
      if cfg.strict && ch != LF then Fail(p, Strict)
      else
        Out(if p.length == 0 then p.(flags := p.flags.(trailing := true), state := FieldStart)
            else p.(state := ChunkData), [ChunkHeader], false, true)
    case ChunkData =>
      var q := p.(length := p.length - 1);
      Text(if q.length == 0 then q.(state := ChunkDataAlmostDone) else q, BodyText, ch)
    case ChunkDataAlmostDone => Letter(cfg, p, ch, CR, ChunkDataDone)
    case _ =>
      if cfg.strict && ch != LF then Fail(p, Strict)
      else Out(p.(state := ChunkSizeStart), [ChunkComplete], false, true)
  }

  // ---- One byte ----------------------------------------------------------------------------

  predicate InUrl(s: State) {
    || s.SpacesBeforeUrl? || s.Schema? || s.SchemaSlash? || s.SchemaSlashSlash? || s.ServerStart?
    || s.Server? || s.ServerWithAt? || s.Path? || s.QueryStart? || s.Query? || s.FragmentStart? || s.Fragment?
  }

  predicate InVersion(s: State) {
    || s.HttpStart? || s.HttpH? || s.HttpHT? || s.HttpHTT? || s.HttpHTTP? || s.HttpMajor? || s.HttpDot?
    || s.HttpMinor? || s.HttpEnd? || s.LineAlmostDone?
  }

  predicate InLine(s: State) {
    s.ValueDiscardWs? || s.ValueDiscardWsAlmostDone? || s.ValueDiscardLws? || s.HeaderAlmostDone? || s.ValueLws?
  }

  predicate InChunk(s: State) {
    || s.ChunkSizeStart? || s.ChunkSize? || s.ChunkParameters? || s.ChunkSizeAlmostDone? || s.ChunkData?
    || s.ChunkDataAlmostDone? || s.ChunkDataDone?
  }

  /** What the assertions scattered over the code claim of the parser between two bytes. */
  predicate Sound(p: Parser) {
    && (p.state.BodyIdentity? || p.state.ChunkData? ==> 0 < p.length < NO_LENGTH)
    && (p.state.ChunkDataAlmostDone? ==> p.length == 0)
    && (InChunk(p.state) ==> p.flags.chunked)
    && (p.state.Field? ==> p.hs in {
          General, C, CO, CON, MatchingConnection, MatchingProxyConnection, MatchingContentLength,
          MatchingTransferEncoding, MatchingUpgrade, Connection, ContentLength, TransferEncoding, Upgrade})
    && (p.state.Value? ==> p.hs !in {Connection, TransferEncoding})
    && (p.length < NO_LENGTH || (p.length == NO_LENGTH && !p.flags.contentLength
                                  && !p.state.ChunkSize? && !p.state.ChunkParameters? && !p.state.ChunkSizeAlmostDone?))
  }

  /** The switch of http_parser_execute. */
  function Turn(cfg: Config, p: Parser, ch: char, skipping: bool): Out
    requires p.state.BodyIdentity? || p.state.ChunkData? ==> p.length > 0
  {
    if InUrl(p.state) then OnUrl(cfg, p, ch)
    else if InVersion(p.state) then OnVersion(cfg, p, ch)
    else if InLine(p.state) then OnLine(cfg, p, ch)
    else if InChunk(p.state) then OnChunk(cfg, p, ch)
    else
      match p.state
      case Dead => if IsBreak(ch) then Out(p, [], false, false) else Fail(p, ClosedConnection)
      case StartReq => OnStart(p, ch)
      case ReqMethod => OnMethod(p, ch)
      case FieldStart => OnFieldStart(cfg, p, ch)
      case Field => OnField(cfg, p, ch)
      case Value => OnValue(cfg, p, ch, skipping)
      case HeadersAlmostDone => OnHeadersAlmostDone(cfg, p, ch)
      case _ => OnBody(cfg, p, ch)
  }
}
