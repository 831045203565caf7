/**
 Taking URLs apart. The loops of http_parser_parse_url and http_parse_host note, in 16 bits, where the
 fields begin and how long they are; what they find is described by the pieces of text the state
 machines pass through.
 */
module HttpUrl {
  import opened Options
  import opened HttpChars
  import opened HttpParser
  import opened HttpStream
  import opened HttpLengths

  // ---- The fields --------------------------------------------------------------------------

  datatype Field = SCHEMA | USERINFO | HOST | PORT | PATH | QUERY | FRAGMENT

  datatype Span = Span(off: nat, len: nat)

  /** field_set and field_data: the fields that are set, with their places. */
  datatype Fields = Fields(
    schema: Option<Span>, userinfo: Option<Span>, host: Option<Span>, port: Option<Span>,
    path: Option<Span>, query: Option<Span>, fragment: Option<Span>)
  {
    function Get(k: Field): Option<Span> {
      match k
      case SCHEMA => schema case USERINFO => userinfo case HOST => host case PORT => port
      case PATH => path case QUERY => query case FRAGMENT => fragment
    }

    predicate Has(k: Field) { Get(k).Some? }

    function At(k: Field): Span requires Has(k) { Get(k).value }

    function With(k: Field, span: Span): Fields {
      match k
      case SCHEMA => this.(schema := Some(span)) case USERINFO => this.(userinfo := Some(span))
      case HOST => this.(host := Some(span)) case PORT => this.(port := Some(span))
      case PATH => this.(path := Some(span)) case QUERY => this.(query := Some(span))
      case FRAGMENT => this.(fragment := Some(span))
    }
  }

  const NO_FIELDS := Fields(None, None, None, None, None, None, None)

  /** Places are stored in 16 bits. */
  const UINT16: nat := 0x10000

  function Narrow(s: Option<Span>): Option<Span> {
    match s case None => None case Some(x) => Some(Span(x.off % UINT16, x.len % UINT16))
  }

  function NarrowAll(f: Fields): Fields {
    Fields(Narrow(f.schema), Narrow(f.userinfo), Narrow(f.host), Narrow(f.port), Narrow(f.path), Narrow(f.query),
           Narrow(f.fragment))
  }

  lemma NarrowGet(f: Fields, k: Field)
    ensures NarrowAll(f).Get(k) == Narrow(f.Get(k))
    ensures NarrowAll(NarrowAll(f)) == NarrowAll(f)
  {
  }

  lemma NarrowWith(f: Fields, k: Field, span: Span)
    ensures NarrowAll(f.With(k, span)) == NarrowAll(f).With(k, Narrow(Some(span)).value)
  {
  }

  /** All that a CONNECT request may name. */
  predicate OnlyHostAndPort(f: Fields) {
    f.host.Some? && f.port.Some? && f == NO_FIELDS.(host := f.host, port := f.port)
  }

  // ---- The text of a URL -------------------------------------------------------------------

  /** What lies between the delimiters; `asked`: there is a '?'; `hashes`: so many '#' introduce the
      fragment; `at`: there was an '@' in the server part. */
  datatype Parts = Parts(schema: string, server: string, path: string, query: string, fragment: string,
                         asked: bool, hashes: nat, at: bool)

  const NO_PARTS := Parts("", "", "", "", "", false, 0, false)

  /** One more character, on the way to state s. */
  function Collect(x: Parts, s: State, ch: char): Parts {
    match s
    case Schema => x.(schema := x.schema + [ch])
    case Server => x.(server := x.server + [ch])
    case ServerWithAt => x.(server := x.server + [ch], at := true)
    case Path => x.(path := x.path + [ch])
    case QueryStart => x.(asked := true)
    case Query => x.(query := x.query + [ch])
    case FragmentStart => x.(hashes := x.hashes + 1)
    case Fragment => x.(fragment := x.fragment + [ch])
    case _ => x
  }

  function When(b: bool, text: string): string { if b then text else "" }

  function Hashes(n: nat): string { seq(n, i => '#') }

  /** The part of "://" that has been read in state s. */
  function Colon(x: Parts, s: State): string {
    if x.schema == "" || s == Schema then "" else if s == SchemaSlash then ":" else if s == SchemaSlashSlash then ":/" else "://"
  }

  /** The text that the parts stand for. */
  function Render(x: Parts, s: State): string {
    x.schema + Colon(x, s) + x.server + x.path + When(x.asked, "?") + x.query + Hashes(x.hashes) + x.fragment
  }

  predicate BeforeFragment(x: Parts) { x.hashes == 0 && x.fragment == "" }
  predicate BeforeQuery(x: Parts) { BeforeFragment(x) && !x.asked && x.query == "" }
  predicate BeforePath(x: Parts) { BeforeQuery(x) && x.path == "" }
  predicate BeforeServer(x: Parts) { BeforePath(x) && x.server == "" && !x.at }

  /** In state s the later parts are still empty. */
  predicate Shape(x: Parts, s: State) {
    match s
    case SpacesBeforeUrl => x == NO_PARTS
    case Schema => BeforeServer(x) && x.schema != ""
    case SchemaSlash => BeforeServer(x) && x.schema != ""
    case SchemaSlashSlash => BeforeServer(x) && x.schema != ""
    case ServerStart => BeforeServer(x)
    case Server => BeforePath(x) && x.server != ""
    case ServerWithAt => BeforePath(x) && x.server != ""
    case Path => BeforeQuery(x) && x.path != ""
    case QueryStart => BeforeFragment(x) && x.asked && x.query == ""
    case Query => BeforeFragment(x) && x.asked && x.query != ""
    case FragmentStart => x.hashes > 0 && x.fragment == ""
    case Fragment => x.hashes > 0 && x.fragment != ""
    case _ => false
  }

  /** A query after a '?', a fragment after a '#', and a path that begins as paths do. */
  predicate Linked(x: Parts) {
    && (x.query != "" ==> x.asked) && (x.fragment != "" ==> x.hashes > 0) && (x.at ==> x.server != "")
    && (x.path != "" ==> x.path[0] == '/' || x.path[0] == '*')
  }

  lemma HashesGrow(n: nat)
    ensures Hashes(n + 1) == Hashes(n) + ['#']
  {
  }

  /** The steps the URL state machine can take. */
  predicate Follows(s: State, ch: char, r: State) {
    match r
    case Schema => s == SpacesBeforeUrl || s == Schema
    case SchemaSlash => s == Schema && ch == ':'
    case SchemaSlashSlash => s == SchemaSlash && ch == '/'
    case ServerStart => s == SchemaSlashSlash && ch == '/'
    case Server => s in {ServerStart, Server, ServerWithAt}
    case ServerWithAt => s in {ServerStart, Server} && ch == '@'
    case Path => s == Path || (s in {SpacesBeforeUrl, ServerStart, Server, ServerWithAt} && (ch == '/' || ch == '*'))
    case QueryStart => s in {ServerStart, Server, ServerWithAt, Path} && ch == '?'
    case Query => s in {QueryStart, Query}
    case FragmentStart => s in {Path, QueryStart, Query, FragmentStart} && ch == '#'
    case Fragment => s in {FragmentStart, Fragment}
    case _ => false
  }

  lemma UrlFollows(strict: bool, s: State, ch: char)
    requires UrlChar(strict, s, ch) != Dead
    ensures Follows(s, ch, UrlChar(strict, s, ch))
  {
    hide IsUrlChar, IsUserinfoChar;
  }

  /** Render, without the parts that are still empty. */
  lemma RenderServer(x: Parts, s: State)
    requires BeforePath(x)
    ensures Render(x, s) == x.schema + Colon(x, s) + x.server
  {
    assert Hashes(0) == "";
  }

  lemma RenderPath(x: Parts, s: State)
    requires BeforeQuery(x)
    ensures Render(x, s) == x.schema + Colon(x, s) + x.server + x.path
  {
    assert Hashes(0) == "";
  }

  lemma RenderQuery(x: Parts, s: State)
    requires BeforeFragment(x)
    ensures Render(x, s) == x.schema + Colon(x, s) + x.server + x.path + When(x.asked, "?") + x.query
  {
    assert Hashes(0) == "";
  }

  lemma RenderHashes(x: Parts, s: State)
    requires x.fragment == ""
    ensures Render(x, s) ==
      x.schema + Colon(x, s) + x.server + x.path + When(x.asked, "?") + x.query + Hashes(x.hashes)
  {
  }

  predicate Grows(x: Parts, s: State, ch: char, r: State) {
    Render(Collect(x, r, ch), r) == Render(x, s) + [ch]
  }

  lemma ShapeGrows(x: Parts, s: State, ch: char, r: State)
    requires Shape(x, s) && Linked(x) && Follows(s, ch, r)
    ensures Shape(Collect(x, r, ch), r) && Linked(Collect(x, r, ch))
  {
  }

  lemma SchemaGrows(x: Parts, s: State, ch: char, r: State)
    requires Shape(x, s) && Follows(s, ch, r) && r in {Schema, SchemaSlash, SchemaSlashSlash, ServerStart}
    ensures Grows(x, s, ch, r)
  {
    hide Render;
    var y := Collect(x, r, ch);
    RenderServer(x, s);
    RenderServer(y, r);
  }

  lemma ServerGrows(x: Parts, s: State, ch: char, r: State)
    requires Shape(x, s) && Follows(s, ch, r) && r in {Server, ServerWithAt}
    ensures Grows(x, s, ch, r)
  {
    hide Render;
    var y := Collect(x, r, ch);
    RenderServer(x, s);
    RenderServer(y, r);
    assert Colon(x, s) == Colon(y, r);
  }

  lemma PathGrows(x: Parts, s: State, ch: char, r: State)
    requires Shape(x, s) && Follows(s, ch, r) && r == Path
    ensures Grows(x, s, ch, r)
  {
    hide Render;
    var y := Collect(x, r, ch);
    RenderPath(x, s);
    RenderPath(y, r);
    assert Colon(x, s) == Colon(y, r);
  }

  lemma QueryGrows(x: Parts, s: State, ch: char, r: State)
    requires Shape(x, s) && Follows(s, ch, r) && r in {QueryStart, Query}
    ensures Grows(x, s, ch, r)
  {
    hide Render;
    var y := Collect(x, r, ch);
    RenderQuery(x, s);
    RenderQuery(y, r);
    assert Colon(x, s) == Colon(y, r);
  }

  lemma FragmentGrows(x: Parts, s: State, ch: char, r: State)
    requires Shape(x, s) && Follows(s, ch, r) && r in {FragmentStart, Fragment}
    ensures Grows(x, s, ch, r)
  {
    hide Hashes;
    var y := Collect(x, r, ch);
    assert Colon(x, s) == Colon(y, r);
    if r == FragmentStart {
      hide Render;
      HashesGrow(x.hashes);
      RenderHashes(x, s);
      RenderHashes(y, r);
    }
  }

  /** Each character is a piece of a part or a delimiter, and goes where the parts say. */
  lemma CollectKeeps(strict: bool, x: Parts, s: State, ch: char)
    requires Shape(x, s) && Linked(x) && UrlChar(strict, s, ch) != Dead
    ensures var r := UrlChar(strict, s, ch); var y := Collect(x, r, ch);
      Shape(y, r) && Linked(y) && Render(y, r) == Render(x, s) + [ch]
  {
    hide UrlChar, Shape, Linked, Collect, Render, BeforePath;
    UrlFollows(strict, s, ch);
    var r := UrlChar(strict, s, ch);
    ShapeGrows(x, s, ch, r);
    if r in {Schema, SchemaSlash, SchemaSlashSlash, ServerStart} {
      SchemaGrows(x, s, ch, r);
    } else if r in {Server, ServerWithAt} {
      ServerGrows(x, s, ch, r);
    } else if r == Path {
      PathGrows(x, s, ch, r);
    } else if r in {QueryStart, Query} {
      QueryGrows(x, s, ch, r);
    } else {
      FragmentGrows(x, s, ch, r);
    }
  }

  /** The state and the parts after url. */
  function Walk(strict: bool, s: State, x: Parts, url: string): (State, Parts)
    decreases |url|
  {
    if url == "" || s == Dead then (s, x)
    else
      var r := UrlChar(strict, s, url[0]);
      Walk(strict, r, Collect(x, r, url[0]), url[1..])
  }

  lemma {:induction false} WalkKeeps(strict: bool, s: State, x: Parts, url: string, done: string)
    requires Shape(x, s) && Linked(x) && Render(x, s) == done
    ensures var (r, y) := Walk(strict, s, x, url);
      r != Dead ==> Shape(y, r) && Linked(y) && Render(y, r) == done + url
    decreases |url|
  {
    hide Shape, Linked, Render, Collect, UrlChar;
    if url == "" {
      assert done + url == done;
    } else if UrlChar(strict, s, url[0]) != Dead {
      var r := UrlChar(strict, s, url[0]);
      CollectKeeps(strict, x, s, url[0]);
      WalkKeeps(strict, r, Collect(x, r, url[0]), url[1..], done + [url[0]]);
      assert done + [url[0]] + url[1..] == done + url;
    } else {
      assert Walk(strict, Dead, Collect(x, Dead, url[0]), url[1..]).0 == Dead;
    }
  }

  // ---- The server part ---------------------------------------------------------------------

  datatype HostState =
    | HostDead | UserinfoStart | Userinfo | HostStart | V6Start | HostName | V6 | V6End | ZoneStart | Zone | PortStart | Port

  /** http_parse_host_char. */
  function HostChar(strict: bool, s: HostState, ch: char): HostState {
    match s
    case UserinfoStart => UserinfoChar(ch)
    case Userinfo => UserinfoChar(ch)
    case HostStart => if ch == '[' then V6Start else if IsHostChar(strict, ch) then HostName else HostDead
    case HostName => if IsHostChar(strict, ch) then HostName else if ch == ':' then PortStart else HostDead
    case V6End => if ch == ':' then PortStart else HostDead
    case V6 =>
      if ch == ']' then V6End
      else if IsHex(ch) || ch == ':' || ch == '.' then V6
      else if ch == '%' then ZoneStart else HostDead
    case V6Start => if IsHex(ch) || ch == ':' || ch == '.' then V6 else HostDead
    case Zone => if ch == ']' then V6End else ZoneChar(ch)
    case ZoneStart => ZoneChar(ch)
    case Port => if IsNum(ch) then Port else HostDead
    case PortStart => if IsNum(ch) then Port else HostDead
    case HostDead => HostDead
  }

  function UserinfoChar(ch: char): HostState {
    if ch == '@' then HostStart else if IsUserinfoChar(ch) then Userinfo else HostDead
  }

  function ZoneChar(ch: char): HostState {
    if IsAlphaNum(ch) || ch in "%.-_~" then Zone else HostDead
  }

  /** What lies between the delimiters of a server part: an '@', brackets around an address of
      version 6, and a ':' before the port. */
  datatype HostParts = HostParts(userinfo: string, host: string, port: string, at: bool, bracket: bool, colon: bool)

  const NO_HOST := HostParts("", "", "", false, false, false)

  function HostCollect(x: HostParts, s: HostState, ch: char): HostParts {
    match s
    case Userinfo => x.(userinfo := x.userinfo + [ch])
    case HostStart => x.(at := true)
    case V6Start => x.(bracket := true)
    case HostName => x.(host := x.host + [ch])
    case V6 => x.(host := x.host + [ch])
    case ZoneStart => x.(host := x.host + [ch])
    case Zone => x.(host := x.host + [ch])
    case PortStart => x.(colon := true)
    case Port => x.(port := x.port + [ch])
    case _ => x
  }

  predicate Closed(s: HostState) { s == V6End || s == PortStart || s == Port }

  function HostRender(x: HostParts, s: HostState): string {
    x.userinfo + When(x.at, "@") + When(x.bracket, "[") + x.host
      + When(x.bracket && Closed(s), "]") + When(x.colon, ":") + x.port
  }

  predicate HostShape(x: HostParts, s: HostState) {
    match s
    case UserinfoStart => x == NO_HOST
    case Userinfo => x == NO_HOST.(userinfo := x.userinfo) && x.userinfo != ""
    case HostStart => x == NO_HOST.(userinfo := x.userinfo, at := x.at)
    case V6Start => x.bracket && x.host == "" && !x.colon && x.port == ""
    case HostName => !x.bracket && x.host != "" && !x.colon && x.port == ""
    case V6 => x.bracket && x.host != "" && !x.colon && x.port == ""
    case ZoneStart => x.bracket && x.host != "" && !x.colon && x.port == ""
    case Zone => x.bracket && x.host != "" && !x.colon && x.port == ""
    case V6End => x.bracket && x.host != "" && !x.colon && x.port == ""
    case PortStart => x.host != "" && x.colon && x.port == ""
    case Port => x.host != "" && x.colon && x.port != ""
    case HostDead => false
  }

  predicate HostLinked(x: HostParts) {
    (x.userinfo != "" && x.host != "" ==> x.at) && AreDigits(x.port, 10)
  }

  /** The steps the host state machine can take. */
  predicate HostFollows(s: HostState, ch: char, r: HostState) {
    match r
    case Userinfo => s == UserinfoStart || s == Userinfo
    case HostStart => (s == UserinfoStart || s == Userinfo) && ch == '@'
    case V6Start => s == HostStart && ch == '['
    case HostName => s == HostStart || s == HostName
    case V6 => s == V6Start || s == V6
    case ZoneStart => s == V6 && ch == '%'
    case Zone => s == ZoneStart || s == Zone
    case V6End => (s == V6 || s == Zone) && ch == ']'
    case PortStart => (s == HostName || s == V6End) && ch == ':'
    case Port => (s == PortStart || s == Port) && IsNum(ch)
    case _ => false
  }

  lemma HostCharFollows(strict: bool, s: HostState, ch: char)
    requires HostChar(strict, s, ch) != HostDead
    ensures HostFollows(s, ch, HostChar(strict, s, ch))
  {
    hide IsUserinfoChar, IsHostChar, IsHex, IsAlphaNum;
  }

  /** Userinfo belongs to a host only after an '@'. */
  predicate AtSeen(x: HostParts, s: HostState) {
    x.userinfo != "" && s != Userinfo ==> x.at
  }

  lemma HostShapeGrows(x: HostParts, s: HostState, ch: char, r: HostState)
    requires HostShape(x, s) && HostLinked(x) && AtSeen(x, s) && HostFollows(s, ch, r)
    ensures var y := HostCollect(x, r, ch); HostShape(y, r) && HostLinked(y) && AtSeen(y, r)
  {
    if r == Port {
      var y := HostCollect(x, r, ch);
      forall i | 0 <= i < |y.port| ensures 0 <= Unhex(y.port[i]) < 10 && IsNum(y.port[i]) {
        if i < |x.port| {
          assert y.port[i] == x.port[i];
        }
      }
    }
  }

  lemma HostRenderGrows(x: HostParts, s: HostState, ch: char, r: HostState)
    requires HostShape(x, s) && HostFollows(s, ch, r)
    ensures HostRender(HostCollect(x, r, ch), r) == HostRender(x, s) + [ch]
  {
    if r == Port || r == PortStart || r == V6End {
      LateHostGrows(x, s, ch, r);
    } else {
      EarlyHostGrows(x, s, ch, r);
    }
  }

  lemma EarlyHostGrows(x: HostParts, s: HostState, ch: char, r: HostState)
    requires HostShape(x, s) && HostFollows(s, ch, r) && !Closed(r)
    ensures HostRender(HostCollect(x, r, ch), r) == HostRender(x, s) + [ch]
  {
    var y := HostCollect(x, r, ch);
    assert HostRender(x, s) == x.userinfo + When(x.at, "@") + When(x.bracket, "[") + x.host;
    assert HostRender(y, r) == y.userinfo + When(y.at, "@") + When(y.bracket, "[") + y.host;
  }

  function HostEnd(x: HostParts, s: HostState): string {
    When(x.bracket && Closed(s), "]") + When(x.colon, ":") + x.port
  }

  lemma HostFront(x: HostParts, s: HostState)
    ensures HostRender(x, s) == x.userinfo + When(x.at, "@") + When(x.bracket, "[") + x.host + HostEnd(x, s)
  {
  }

  lemma HostEndGrows(x: HostParts, s: HostState, ch: char, r: HostState)
    requires HostShape(x, s) && HostFollows(s, ch, r) && Closed(r)
    ensures HostEnd(HostCollect(x, r, ch), r) == HostEnd(x, s) + [ch]
  {
    if r == Port {
      assert HostEnd(HostCollect(x, r, ch), r) == HostEnd(x, r) + [ch];
    }
  }

  lemma LateHostGrows(x: HostParts, s: HostState, ch: char, r: HostState)
    requires HostShape(x, s) && HostFollows(s, ch, r) && Closed(r)
    ensures HostRender(HostCollect(x, r, ch), r) == HostRender(x, s) + [ch]
  {
    var y := HostCollect(x, r, ch);
    HostEndGrows(x, s, ch, r);
    HostFront(x, s);
    HostFront(y, r);
    var front := x.userinfo + When(x.at, "@") + When(x.bracket, "[") + x.host;
    assert y.userinfo + When(y.at, "@") + When(y.bracket, "[") + y.host == front;
    hide HostRender, HostShape, HostFollows, When, HostEnd, HostCollect, Closed;
    assert front + (HostEnd(x, s) + [ch]) == front + HostEnd(x, s) + [ch];
  }

  function HostWalk(strict: bool, s: HostState, x: HostParts, text: string): (HostState, HostParts)
    decreases |text|
  {
    if text == "" || s == HostDead then (s, x)
    else
      var r := HostChar(strict, s, text[0]);
      HostWalk(strict, r, HostCollect(x, r, text[0]), text[1..])
  }

  predicate HostAmid(x: HostParts, s: HostState, done: string) {
    HostShape(x, s) && HostLinked(x) && AtSeen(x, s) && HostRender(x, s) == done
  }

  lemma HostStep(strict: bool, s: HostState, x: HostParts, ch: char, done: string)
    requires HostAmid(x, s, done) && HostChar(strict, s, ch) != HostDead
    ensures var r := HostChar(strict, s, ch); HostAmid(HostCollect(x, r, ch), r, done + [ch])
  {
    hide HostChar, HostShape, HostLinked, HostRender, HostCollect, AtSeen;
    HostCharFollows(strict, s, ch);
    HostShapeGrows(x, s, ch, HostChar(strict, s, ch));
    HostRenderGrows(x, s, ch, HostChar(strict, s, ch));
  }

  lemma {:induction false} HostWalkKeeps(strict: bool, s: HostState, x: HostParts, text: string, done: string)
    requires HostAmid(x, s, done)
    ensures var (r, y) := HostWalk(strict, s, x, text); r != HostDead ==> HostAmid(y, r, done + text)
    decreases |text|
  {
    hide HostAmid, HostCollect, HostChar;
    if text == "" {
      assert done + text == done;
    } else if HostChar(strict, s, text[0]) != HostDead {
      var r := HostChar(strict, s, text[0]);
      HostStep(strict, s, x, text[0], done);
      HostWalkKeeps(strict, r, HostCollect(x, r, text[0]), text[1..], done + [text[0]]);
      assert done + [text[0]] + text[1..] == done + text;
    } else {
      assert HostWalk(strict, HostDead, HostCollect(x, HostDead, text[0]), text[1..]).0 == HostDead;
    }
  }

  /** Where the scan of a server part may stop. */
  predicate HostEnds(s: HostState) { s == HostName || s == V6End || s == Port }

  function HostBegins(at: bool): HostState { if at then UserinfoStart else HostStart }

  // ---- Places ------------------------------------------------------------------------------

  function One(b: bool): nat { if b then 1 else 0 }

  function Place(off: nat, text: string): Option<Span> {
    if text == "" then None else Some(Span(off, |text|))
  }

  /** Where the server part begins. */
  function ServerAt(x: Parts, s: State): nat { |x.schema| + |Colon(x, s)| }

  function PathAt(x: Parts, s: State): nat { ServerAt(x, s) + |x.server| }

  function QueryAt(x: Parts, s: State): nat { PathAt(x, s) + |x.path| + One(x.asked) }

  function FragmentAt(x: Parts, s: State): nat { QueryAt(x, s) + |x.query| + x.hashes }

  /** The fields after the first scan: HOST stands for the whole server part. */
  function Places(x: Parts, s: State): Fields {
    Fields(Place(0, x.schema), None, Place(ServerAt(x, s), x.server), None,
           Place(PathAt(x, s), x.path), Place(QueryAt(x, s), x.query), Place(FragmentAt(x, s), x.fragment))
  }

  /** Where the host begins in a server part that begins at off. */
  function HostAt(x: HostParts, off: nat): nat { off + |x.userinfo| + One(x.at) + One(x.bracket) }

  function PortAt(x: HostParts, off: nat): nat { HostAt(x, off) + |x.host| + One(x.bracket) + 1 }

  /** The fields after the scan of the server part. */
  function HostPlaces(f: Fields, x: HostParts, off: nat): Fields {
    f.(host := Some(Span(if x.host == "" then off else HostAt(x, off), |x.host|)),
       userinfo := Place(off, x.userinfo), port := Place(PortAt(x, off), x.port))
  }

  /** The field that the scan is in the middle of. */
  function FieldOf(s: State): Field
    requires s in {Schema, Server, ServerWithAt, Path, Query, Fragment}
  {
    if s == Schema then SCHEMA else if s == Path then PATH else if s == Query then QUERY
    else if s == Fragment then FRAGMENT else HOST
  }

  predicate Delimits(s: State) { s in {SchemaSlash, SchemaSlashSlash, ServerStart, QueryStart, FragmentStart} }

  /** The last field that was entered. */
  function Last(x: Parts): Field {
    if x.fragment != "" then FRAGMENT else if x.query != "" then QUERY else if x.path != "" then PATH
    else if x.server != "" then HOST else SCHEMA
  }

  predicate AnyField(x: Parts) { x.schema != "" || x.server != "" || x.path != "" || x.query != "" || x.fragment != "" }

  lemma RenderLength(x: Parts, s: State)
    ensures |Render(x, s)| == FragmentAt(x, s) + |x.fragment|
  {
  }

  /** Past the schema, what separates it from the rest does not change. */
  lemma ColonStays(x: Parts, s: State, ch: char, r: State)
    requires Shape(x, s) && Follows(s, ch, r) && r !in {Schema, SchemaSlash, SchemaSlashSlash, ServerStart}
    ensures Colon(Collect(x, r, ch), r) == Colon(x, s)
  {
  }

  /** A delimiter sets no field. */
  lemma DelimiterPlaces(x: Parts, s: State, ch: char, r: State)
    requires Shape(x, s) && Follows(s, ch, r) && Delimits(r)
    ensures Places(Collect(x, r, ch), r) == Places(x, s) && Last(Collect(x, r, ch)) == Last(x)
    ensures AnyField(Collect(x, r, ch)) == AnyField(x)
  {
    hide Render, Hashes, When;
    if r == QueryStart || r == FragmentStart {
      ColonStays(x, s, ch, r);
      LateDelimiter(x, s, ch, r);
    } else {
      EarlyDelimiter(x, s, ch, r);
    }
  }

  lemma EarlyDelimiter(x: Parts, s: State, ch: char, r: State)
    requires Shape(x, s) && Follows(s, ch, r) && r in {SchemaSlash, SchemaSlashSlash, ServerStart}
    ensures Collect(x, r, ch) == x && Places(x, r) == Places(x, s)
  {
    hide Colon;
  }

  lemma LateDelimiter(x: Parts, s: State, ch: char, r: State)
    requires Shape(x, s) && Follows(s, ch, r) && r in {QueryStart, FragmentStart}
    requires Colon(Collect(x, r, ch), r) == Colon(x, s)
    ensures Places(Collect(x, r, ch), r) == Places(x, s) && Last(Collect(x, r, ch)) == Last(x)
    ensures AnyField(Collect(x, r, ch)) == AnyField(x)
  {
    assert x.fragment == "" && (r == QueryStart ==> x.query == "");
    hide Colon, Shape, Follows, Places;
    if r == QueryStart {
      MarkPlaces(x, s, x.(asked := true), r);
    } else {
      MarkPlaces(x, s, x.(hashes := x.hashes + 1), r);
    }
  }

  lemma MarkPlaces(x: Parts, s: State, y: Parts, r: State)
    requires x.fragment == "" && Colon(y, r) == Colon(x, s)
    requires (y == x.(asked := true) && x.query == "") || y == x.(hashes := x.hashes + 1)
    ensures Places(y, r) == Places(x, s)
  {
    hide Colon;
  }

  /** A character of a field makes the field longer, or sets it. */
  predicate FieldPlaced(x: Parts, s: State, ch: char, r: State)
    requires Follows(s, ch, r) && !Delimits(r)
  {
    var y := Collect(x, r, ch);
    var k, f := FieldOf(r), Places(x, s);
    && Last(y) == k && AnyField(y)
    && if AnyField(x) && Last(x) == k then f.Has(k) && Places(y, r) == f.With(k, Span(f.At(k).off, f.At(k).len + 1))
       else Places(y, r) == f.With(k, Span(|Render(x, s)|, 1))
  }

  lemma SchemaPlaced(x: Parts, s: State, ch: char, r: State)
    requires Shape(x, s) && Follows(s, ch, r) && r == Schema
    ensures FieldPlaced(x, s, ch, r)
  {
    hide Render;
    RenderLength(x, s);
  }

  /** The parts after the one that ch goes on are empty. */
  lemma LaterAreEmpty(x: Parts, s: State, ch: char, r: State)
    requires Shape(x, s) && Follows(s, ch, r)
    ensures r == Server || r == ServerWithAt ==> BeforePath(x)
    ensures r == Path ==> BeforeQuery(x)
    ensures r == Query ==> BeforeFragment(x)
  {
  }

  lemma ServerLonger(x: Parts, s: State, ch: char, y: Parts, r: State)
    requires y == x.(at := y.at, server := x.server + [ch]) && Colon(y, r) == Colon(x, s) && BeforePath(x)
    ensures Last(y) == HOST && AnyField(y)
    ensures Places(y, r) == Places(x, s).(host :=
      Some(if x.server != "" then Span(Places(x, s).host.value.off, |x.server| + 1) else Span(|Render(x, s)|, 1)))
  {
    hide Render, Colon;
    RenderLength(x, s);
  }

  lemma ServerPlaced(x: Parts, s: State, ch: char, r: State)
    requires Shape(x, s) && Follows(s, ch, r) && (r == Server || r == ServerWithAt)
    ensures FieldPlaced(x, s, ch, r)
  {
    ColonStays(x, s, ch, r);
    LaterAreEmpty(x, s, ch, r);
    ServerLonger(x, s, ch, Collect(x, r, ch), r);
    hide Render, Colon, Shape, Follows;
  }

  lemma PathLonger(x: Parts, s: State, ch: char, y: Parts, r: State)
    requires y == x.(path := x.path + [ch]) && Colon(y, r) == Colon(x, s) && BeforeQuery(x)
    ensures Last(y) == PATH && AnyField(y)
    ensures Places(y, r) == Places(x, s).(path :=
      Some(if x.path != "" then Span(Places(x, s).path.value.off, |x.path| + 1) else Span(|Render(x, s)|, 1)))
  {
    hide Render, Colon;
    RenderLength(x, s);
  }

  lemma PathPlaced(x: Parts, s: State, ch: char, r: State)
    requires Shape(x, s) && Follows(s, ch, r) && (r == Path)
    ensures FieldPlaced(x, s, ch, r)
  {
    hide Colon, PathAt;
    ColonStays(x, s, ch, r);
    LaterAreEmpty(x, s, ch, r);
    PathLonger(x, s, ch, Collect(x, r, ch), r);
    hide Render, Colon, Shape, Follows;
  }

  lemma QueryLonger(x: Parts, s: State, ch: char, y: Parts, r: State)
    requires y == x.(query := x.query + [ch]) && Colon(y, r) == Colon(x, s) && BeforeFragment(x)
    ensures Last(y) == QUERY && AnyField(y)
    ensures Places(y, r) == Places(x, s).(query :=
      Some(if x.query != "" then Span(Places(x, s).query.value.off, |x.query| + 1) else Span(|Render(x, s)|, 1)))
  {
    hide Render, Colon;
    RenderLength(x, s);
  }

  lemma QueryPlaced(x: Parts, s: State, ch: char, r: State)
    requires Shape(x, s) && Follows(s, ch, r) && (r == Query)
    ensures FieldPlaced(x, s, ch, r)
  {
    ColonStays(x, s, ch, r);
    LaterAreEmpty(x, s, ch, r);
    QueryLonger(x, s, ch, Collect(x, r, ch), r);
    hide Render, Colon, Shape, Follows;
  }

  lemma FragmentLonger(x: Parts, s: State, ch: char, y: Parts, r: State)
    requires y == x.(fragment := x.fragment + [ch]) && Colon(y, r) == Colon(x, s)
    ensures Last(y) == FRAGMENT && AnyField(y)
    ensures Places(y, r) == Places(x, s).(fragment :=
      Some(if x.fragment != "" then Span(Places(x, s).fragment.value.off, |x.fragment| + 1) else Span(|Render(x, s)|, 1)))
  {
    hide Render, Colon;
    RenderLength(x, s);
  }

  lemma FragmentPlaced(x: Parts, s: State, ch: char, r: State)
    requires Shape(x, s) && Follows(s, ch, r) && (r == Fragment)
    ensures FieldPlaced(x, s, ch, r)
  {
    ColonStays(x, s, ch, r);
    LaterAreEmpty(x, s, ch, r);
    FragmentLonger(x, s, ch, Collect(x, r, ch), r);
    hide Render, Colon, Shape, Follows;
  }

  lemma FieldPlaces(x: Parts, s: State, ch: char, r: State)
    requires Shape(x, s) && Follows(s, ch, r) && !Delimits(r)
    ensures FieldPlaced(x, s, ch, r)
  {
    hide FieldPlaced, Shape;
    match r {
      case Schema => SchemaPlaced(x, s, ch, r);
      case Path => PathPlaced(x, s, ch, r);
      case Query => QueryPlaced(x, s, ch, r);
      case Fragment => FragmentPlaced(x, s, ch, r);
      case _ => ServerPlaced(x, s, ch, r);
    }
  }

  // ---- The loops ---------------------------------------------------------------------------

  /** Where the fields of an accepted URL are, and which URLs are accepted. */
  datatype Decomposition = Decomposition(x: Parts, s: State, h: HostParts, hs: HostState)

  function Decompose(strict: bool, url: string, connect: bool): Decomposition {
    var (s, x) := Walk(strict, if connect then ServerStart else SpacesBeforeUrl, NO_PARTS, url);
    var (hs, h) := HostWalk(strict, HostBegins(x.at), NO_HOST, x.server);
    Decomposition(x, s, h, hs)
  }

  predicate Accepted(d: Decomposition, connect: bool) {
    && d.s != Dead
    && (d.x.schema != "" ==> d.x.server != "")
    && (d.x.server != "" ==> HostEnds(d.hs))
    && (connect ==> OnlyHostAndPort(Layout(d)))
    && (d.x.server != "" && d.h.port != "" && AreDigits(d.h.port, 10) ==> PlaceValue(d.h.port, 10) <= 0xFFFF)
  }

  function Layout(d: Decomposition): Fields {
    if d.x.server == "" then Places(d.x, d.s) else HostPlaces(Places(d.x, d.s), d.h, ServerAt(d.x, d.s))
  }

  /** One more character of field k at p: the field grows if the scan was in it already. */
  function Longer(f: Fields, k: Field, within: bool, p: nat): Fields {
    if within && f.Has(k) then f.With(k, Span(f.At(k).off, f.At(k).len + 1)) else f.With(k, Span(p, 1))
  }

  /** The same with the stores the code makes. */
  function Note(f: Fields, k: Field, within: bool, p: nat): Fields {
    if within && f.Has(k) then f.With(k, Span(f.At(k).off, (f.At(k).len + 1) % UINT16)) else f.With(k, Span(p % UINT16, 1))
  }

  lemma NoteIsNarrow(f: Fields, k: Field, within: bool, p: nat)
    ensures Note(NarrowAll(f), k, within, p) == NarrowAll(Longer(f, k, within, p))
  {
    hide NarrowAll;
    NarrowGet(f, k);
    if within && f.Has(k) {
      NarrowWith(f, k, Span(f.At(k).off, f.At(k).len + 1));
      Successor(f.At(k).len);
    } else {
      NarrowWith(f, k, Span(p, 1));
    }
  }

  lemma Successor(n: nat)
    ensures (n % UINT16 + 1) % UINT16 == (n + 1) % UINT16
  {
  }

  /** The switch of http_parse_host: the field that grows, and whether the scan was in it already. The
      length of the host was set to zero before the scan. */
  function HostField(s: HostState, r: HostState): Option<(Field, bool)> {
    match r
    case HostName => Some((HOST, s == HostName))
    case V6 => Some((HOST, s == V6))
    case ZoneStart => Some((HOST, true))
    case Zone => Some((HOST, true))
    case Port => Some((PORT, s == Port))
    case Userinfo => Some((USERINFO, s == Userinfo))
    case _ => None
  }

  function HostNote(f: Fields, s: HostState, r: HostState, p: nat): Fields {
    match HostField(s, r) case None => f case Some((k, within)) => Longer(f, k, within, p)
  }

  /** The text of a field, as far as it is in the URL. */
  function TextAt(url: string, f: Fields, k: Field): string {
    if f.Has(k) && f.At(k).off + f.At(k).len <= |url| then url[f.At(k).off..f.At(k).off + f.At(k).len] else ""
  }

  /** http_parse_host: the fields within the server part, or None if it is refused. */
  function HostFields(strict: bool, url: string, f: Fields, at: bool): Option<Fields>
    requires f.Has(HOST)
  {
    var (s, x) := HostWalk(strict, HostBegins(at), NO_HOST, TextAt(url, f, HOST));
    if HostEnds(s) then Some(NarrowAll(HostPlaces(f, x, f.At(HOST).off))) else None
  }

  method ParseHost(strict: bool, url: string, f: Fields, at: bool) returns (ok: bool, g: Fields)
    requires f.Has(HOST) && !f.Has(USERINFO) && !f.Has(PORT) && f.At(HOST).off + f.At(HOST).len <= |url|
    requires f == NarrowAll(f)
    ensures ok == HostFields(strict, url, f, at).Some? && (ok ==> g == HostFields(strict, url, f, at).value)
  {
    hide HostWalk, HostAmid, HostPlaces, HostCollect, HostChar, HostNote, HostField, HostFollows, NarrowAll;
    var off, end := f.At(HOST).off, f.At(HOST).off + f.At(HOST).len;
    g := f.With(HOST, Span(off, 0));
    var s := HostBegins(at);
    ghost var x := NO_HOST;
    ghost var server := url[off..end];
    assert server[0..] == server && url[off..off] == "";
    HostStarts(f, off, at, url[off..off]);
    LengthCleared(f, off);
    var p := off;
    while p < end
      invariant off <= p <= end && HostAmid(x, s, url[off..p])
      invariant HostWalk(strict, s, x, server[p - off..]) == HostWalk(strict, HostBegins(at), NO_HOST, server)
      invariant g == NarrowAll(HostPlaces(f, x, off))
    {
      var r := HostChar(strict, s, url[p]);
      assert server[p - off] == url[p];
      HostTurn(strict, s, x, server, p - off);
      if r == HostDead {
        return false, g;
      }
      HostStep(strict, s, x, url[p], url[off..p]);
      assert url[off..p] + [url[p]] == url[off..p + 1];
      HostCharFollows(strict, s, url[p]);
      HostPlaced(f, x, s, url[p], r, off, p, url[off..p]);
      g := NoteHost(g, s, r, p, HostPlaces(f, x, off));
      x := HostCollect(x, r, url[p]);
      s := r;
      p := p + 1;
    }
    HostStops(strict, s, x, server[p - off..]);
    ok := HostEnds(s);
  }

  /** The stores of one turn of http_parse_host; `unbounded`: the fields without the limit. */
  method NoteHost(g: Fields, s: HostState, r: HostState, p: nat, ghost unbounded: Fields) returns (g': Fields)
    requires g == NarrowAll(unbounded)
    ensures g' == NarrowAll(HostNote(unbounded, s, r, p))
  {
    hide NarrowAll, HostField, Note, Longer;
    var k := HostField(s, r);
    g' := g;
    if k.Some? {
      NoteIsNarrow(unbounded, k.value.0, k.value.1, p);
      g' := Note(g, k.value.0, k.value.1, p);
    }
  }

  lemma LengthCleared(f: Fields, off: nat)
    requires f == NarrowAll(f) && f.Has(HOST) && off == f.At(HOST).off
    ensures NarrowAll(f.With(HOST, Span(off, 0))) == f.With(HOST, Span(off, 0))
  {
    NarrowGet(f, HOST);
  }

  lemma HostStarts(f: Fields, off: nat, at: bool, done: string)
    requires !f.Has(USERINFO) && !f.Has(PORT) && done == ""
    ensures HostPlaces(f, NO_HOST, off) == f.With(HOST, Span(off, 0))
    ensures HostAmid(NO_HOST, HostBegins(at), done)
  {
  }

  lemma HostStops(strict: bool, s: HostState, x: HostParts, rest: string)
    requires rest == ""
    ensures HostWalk(strict, s, x, rest) == (s, x)
  {
  }

  lemma HostTurn(strict: bool, s: HostState, x: HostParts, server: string, i: nat)
    requires i < |server|
    ensures var r := HostChar(strict, s, server[i]);
      if r == HostDead then HostWalk(strict, s, x, server[i..]).0 == HostDead
      else HostWalk(strict, s, x, server[i..]) == HostWalk(strict, r, HostCollect(x, r, server[i]), server[i + 1..])
  {
    assert server[i..][1..] == server[i + 1..];
  }

  /** What one character of a server part does to the fields. */
  lemma HostPlaced(f: Fields, x: HostParts, s: HostState, ch: char, r: HostState, off: nat, p: nat, done: string)
    requires f.Has(HOST) && !f.Has(USERINFO) && !f.Has(PORT) && HostAmid(x, s, done) && HostFollows(s, ch, r) && p == off + |done|
    ensures HostPlaces(f, HostCollect(x, r, ch), off) == HostNote(HostPlaces(f, x, off), s, r, p)
  {
    hide HostLinked;
  }

  /** The first loop of http_parser_parse_url. */
  method Scan(strict: bool, url: string, connect: bool) returns (ok: bool, f: Fields, at: bool)
    ensures var (s, x) := Walk(strict, if connect then ServerStart else SpacesBeforeUrl, NO_PARTS, url);
      ok == (s != Dead) && (ok ==> f == NarrowAll(Places(x, s)) && at == x.at)
  {
    hide Walk, Shape, Linked, Render, Collect, UrlChar, Places, FieldPlaced, Follows, FieldOf, NarrowAll, Note, Longer;
    var s := if connect then ServerStart else SpacesBeforeUrl;
    ghost var start, x := s, NO_PARTS;
    var oldUf: Field, any := SCHEMA, false;     // any: oldUf is not UF_MAX
    var p := 0;
    f, at := NO_FIELDS, false;
    assert url[0..] == url && url[..0] == "";
    ScanStarts(s, url[..0]);
    NothingNarrow();
    while p < |url|
      invariant p <= |url| && Shape(x, s) && Linked(x) && Render(x, s) == url[..p] && s != Dead
      invariant Walk(strict, s, x, url[p..]) == Walk(strict, start, NO_PARTS, url)
      invariant f == NarrowAll(Places(x, s)) && at == x.at && any == AnyField(x) && (any ==> oldUf == Last(x))
    {
      var r := UrlChar(strict, s, url[p]);
      ScanTurn(strict, s, x, url, p);
      if r == Dead {
        return false, f, at;
      }
      CollectKeeps(strict, x, s, url[p]);
      UrlFollows(strict, s, url[p]);
      UrlCharStays(strict, s, url[p]);
      Delimiting(s, url[p], r);
      assert url[..p + 1] == url[..p] + [url[p]];
      AtNoted(x, r, url[p]);
      if Delimits(r) {
        DelimiterPlaces(x, s, url[p], r);
      } else {
        FieldPlaces(x, s, url[p], r);
        FieldNoted(x, s, url[p], r);
        at := at || r == ServerWithAt;
        var uf := FieldOf(r);
        NoteIsNarrow(Places(x, s), uf, any && uf == oldUf, p);
        f := Note(f, uf, any && uf == oldUf, p);
        oldUf, any := uf, true;
      }
      x := Collect(x, r, url[p]);
      s := r;
      p := p + 1;
    }
    ScanStops(strict, s, x, url[p..]);
    ok := true;
  }

  lemma NothingNarrow()
    ensures NarrowAll(NO_FIELDS) == NO_FIELDS
  {
  }

  lemma ScanStarts(s: State, done: string)
    requires s in {ServerStart, SpacesBeforeUrl} && done == ""
    ensures Shape(NO_PARTS, s) && Linked(NO_PARTS) && Render(NO_PARTS, s) == done && Places(NO_PARTS, s) == NO_FIELDS
  {
    assert Hashes(0) == "";
  }

  lemma ScanStops(strict: bool, s: State, x: Parts, rest: string)
    requires rest == ""
    ensures Walk(strict, s, x, rest) == (s, x)
  {
  }

  lemma ScanTurn(strict: bool, s: State, x: Parts, url: string, i: nat)
    requires i < |url| && s != Dead
    ensures var r := UrlChar(strict, s, url[i]);
      if r == Dead then Walk(strict, s, x, url[i..]).0 == Dead
      else Walk(strict, s, x, url[i..]) == Walk(strict, r, Collect(x, r, url[i]), url[i + 1..])
  {
    hide UrlChar, Collect;
    assert url[i..][1..] == url[i + 1..];
  }

  /** Every state that a character of a URL can lead to is a delimiter's or a field's: the code's
      "Unexpected state" is never reached. */
  lemma Delimiting(s: State, ch: char, r: State)
    requires Follows(s, ch, r)
    ensures Delimits(r) || r in {Schema, Server, ServerWithAt, Path, Query, Fragment}
    ensures Delimits(r) ==> ch == ':' || ch == '/' || ch == '?' || ch == '#' || r == ServerStart
  {
  }

  lemma AtNoted(x: Parts, r: State, ch: char)
    ensures Collect(x, r, ch).at == (x.at || r == ServerWithAt)
  {
  }

  lemma FieldNoted(x: Parts, s: State, ch: char, r: State)
    requires Follows(s, ch, r) && !Delimits(r) && FieldPlaced(x, s, ch, r)
    ensures var k := FieldOf(r);
      && Places(Collect(x, r, ch), r) == Longer(Places(x, s), k, AnyField(x) && k == Last(x), |Render(x, s)|)
      && Last(Collect(x, r, ch)) == k && AnyField(Collect(x, r, ch))
  {
    hide Places, Collect, FieldOf, Render;
  }

  const ULONG_MAX: nat := 0xFFFF_FFFF_FFFF_FFFF

  predicate IsSpace(ch: char) { ch in " \t\n\r" || ch == 11 as char || ch == 12 as char }

  function Spaces(text: string): nat
    ensures Spaces(text) <= |text|
  {
    if text != "" && IsSpace(text[0]) then 1 + Spaces(text[1..]) else 0
  }

  function Digits(text: string): (n: nat)
    ensures n <= |text| && AreDigits(text[..n], 10)
  {
    if text != "" && IsNum(text[0]) then
      var n := Digits(text[1..]);
      assert text[..1 + n] == [text[0]] + text[1..][..n];
      1 + n
    else 0
  }

  /** strtoul with base 10: blanks, a sign, and as many digits as there are; None without digits. */
  function Number(text: string): nat {
    var t := text[Spaces(text)..];
    var signed := t != "" && (t[0] == '-' || t[0] == '+');
    var u := if signed then t[1..] else t;
    var v := PlaceValue(u[..Digits(u)], 10);
    if v > ULONG_MAX then ULONG_MAX
    else if signed && t[0] == '-' && v > 0 then ULONG_MAX + 1 - v else v
  }

  method Strtoul(text: string) returns (v: nat)
    ensures v == Number(text)
  {
    hide PlaceValue, AreDigits;
    var p := 0;
    while p < |text| && IsSpace(text[p])
      invariant p <= |text| && Spaces(text) == p + Spaces(text[p..])
    {
      assert text[p..][1..] == text[p + 1..];
      p := p + 1;
    }
    ghost var t := text[Spaces(text)..];
    var negative := p < |text| && text[p] == '-';
    if p < |text| && (text[p] == '-' || text[p] == '+') {
      p := p + 1;
    }
    var u := text[p..];
    assert u == if t != "" && (t[0] == '-' || t[0] == '+') then t[1..] else t;
    v := Value(u);
    if v > ULONG_MAX {
      v := ULONG_MAX;
    } else if negative && v > 0 {
      v := ULONG_MAX + 1 - v;
    }
  }

  /** The digits at the start of a text. */
  method Value(u: string) returns (v: nat)
    ensures v == PlaceValue(u[..Digits(u)], 10)
  {
    hide PlaceValue, AreDigits;
    v := 0;
    var p := 0;
    assert u[0..] == u;
    NoValue(u[..0]);
    while p < |u| && IsNum(u[p])
      invariant p <= |u| && Digits(u) == p + Digits(u[p..])
      invariant AreDigits(u[..p], 10) && v == PlaceValue(u[..p], 10)
    {
      assert u[p..][1..] == u[p + 1..];
      NextDigit(u, p);
      v := v * 10 + (u[p] as int - '0' as int);
      p := p + 1;
    }
  }

  lemma NextDigit(u: string, p: nat)
    requires p < Digits(u)
    ensures AreDigits(u[..p], 10) && AreDigits(u[..p + 1], 10)
    ensures IsNum(u[p]) && PlaceValue(u[..p + 1], 10) == PlaceValue(u[..p], 10) * 10 + (u[p] as int - '0' as int)
  {
    hide PlaceValue;
    var digits := u[..Digits(u)];
    assert digits[p] == u[p] && digits[..p] == u[..p] && digits[..p + 1] == u[..p + 1];
    DigitAt(u, p);
    OneMoreDigit(digits, 10, p);
  }

  lemma {:induction false} DigitAt(u: string, p: nat)
    requires p < Digits(u)
    ensures IsNum(u[p])
  {
    if p > 0 {
      DigitAt(u[1..], p - 1);
    }
  }

  lemma NoValue(v: string)
    requires v == ""
    ensures AreDigits(v, 10) && PlaceValue(v, 10) == 0
  {
  }

  function From(url: string, off: nat): string { if off <= |url| then url[off..] else "" }

  /** The end of http_parser_parse_url: what a CONNECT request may name, and how large a port may be. The
      port is read from the buffer, which may go on behind the URL. */
  predicate Passes(buffer: string, f: Fields, connect: bool) {
    (connect ==> OnlyHostAndPort(f)) && (f.Has(PORT) ==> Number(From(buffer, f.At(PORT).off)) <= 0xFFFF)
  }

  /** The fields before these checks. */
  function FoundFields(strict: bool, url: string, connect: bool): Option<Fields> {
    var (s, x) := Walk(strict, if connect then ServerStart else SpacesBeforeUrl, NO_PARTS, url);
    var f := NarrowAll(Places(x, s));
    if s == Dead || (f.Has(SCHEMA) && !f.Has(HOST)) then None
    else if f.Has(HOST) then HostFields(strict, url, f, x.at)
    else Some(f)
  }

  /** http_parser_parse_url: the fields, or None for a URL that is refused. */
  function UrlFieldsIn(strict: bool, url: string, connect: bool, buffer: string): Option<Fields> {
    var g := FoundFields(strict, url, connect);
    if g.Some? && Passes(buffer, g.value, connect) then g else None
  }

  /** The fields of a URL with nothing behind it. */
  function UrlFields(strict: bool, url: string, connect: bool): Option<Fields> { UrlFieldsIn(strict, url, connect, url) }

  /** The port. */
  function UrlPort(buffer: string, f: Fields): nat {
    if f.Has(PORT) then Number(From(buffer, f.At(PORT).off)) else 0
  }

  /** http_parser_parse_url, on the first `length` characters of a buffer. */
  method ParseUrl(strict: bool, buffer: string, length: nat, connect: bool) returns (ok: bool, f: Fields, port: nat)
    requires length <= |buffer|
    ensures ok == UrlFieldsIn(strict, buffer[..length], connect, buffer).Some?
    ensures ok ==> f == UrlFieldsIn(strict, buffer[..length], connect, buffer).value && port == UrlPort(buffer, f)
  {
    hide Walk, HostFields, Places, NarrowAll, Number;
    var url := buffer[..length];
    var at;
    port := 0;
    ok, f, at := Scan(strict, url, connect);
    if !ok {
      return false, f, 0;
    }
    if f.Has(SCHEMA) && !f.Has(HOST) {
      return false, f, 0;
    }
    if f.Has(HOST) {
      ServerInside(strict, url, connect);
      ok, f := ParseHost(strict, url, f, at);
      if !ok {
        return false, f, 0;
      }
    }
    if connect && !OnlyHostAndPort(f) {
      return false, f, 0;
    }
    if f.Has(PORT) {
      port := Strtoul(From(buffer, f.At(PORT).off));
      if port > 0xFFFF {
        return false, f, 0;
      }
    }
  }

  /** The server part that http_parse_host looks at lies inside the URL. */
  lemma ServerInside(strict: bool, url: string, connect: bool)
    ensures var (s, x) := Walk(strict, if connect then ServerStart else SpacesBeforeUrl, NO_PARTS, url);
      var f := NarrowAll(Places(x, s));
      && !f.Has(USERINFO) && !f.Has(PORT) && f == NarrowAll(f)
      && (s != Dead && f.Has(HOST) ==> f.At(HOST).off + f.At(HOST).len <= |url|)
  {
    hide Walk, Shape, Linked, Render, Places;
    PartsMakeUp(strict, url, connect);
    var (s, x) := Walk(strict, if connect then ServerStart else SpacesBeforeUrl, NO_PARTS, url);
    PlacesAre(x, s);
    NarrowGet(Places(x, s), HOST);
    if s != Dead {
      ServerText(x, s, url);
    }
  }

  /** The text of an accepted scan is made up of its parts. */
  lemma PartsMakeUp(strict: bool, url: string, connect: bool)
    ensures var d := Decompose(strict, url, connect);
      && (d.s != Dead ==> Shape(d.x, d.s) && Linked(d.x) && Render(d.x, d.s) == url)
      && (d.hs != HostDead ==> HostAmid(d.h, d.hs, d.x.server))
  {
    hide Walk, HostWalk, Shape, Linked, Render, HostAmid;
    var s := if connect then ServerStart else SpacesBeforeUrl;
    var d := Decompose(strict, url, connect);
    ScanStarts(s, "");
    WalkKeeps(strict, s, NO_PARTS, url, "");
    assert "" + url == url && "" + d.x.server == d.x.server;
    HostStarts(NO_FIELDS.With(HOST, Span(0, 0)), 0, d.x.at, "");
    HostWalkKeeps(strict, HostBegins(d.x.at), NO_HOST, d.x.server, "");
  }

  lemma PlacesAre(x: Parts, s: State)
    ensures var f := Places(x, s);
      && (f.Has(SCHEMA) <==> x.schema != "") && (f.Has(HOST) <==> x.server != "") && !f.Has(USERINFO) && !f.Has(PORT)
      && (f.Has(HOST) ==> f.At(HOST) == Span(ServerAt(x, s), |x.server|))
  {
  }

  lemma HostPlacesAre(f: Fields, x: HostParts, off: nat)
    requires !f.Has(USERINFO) && !f.Has(PORT)
    ensures var g := HostPlaces(f, x, off);
      (g.Has(PORT) <==> x.port != "") && (g.Has(PORT) ==> g.At(PORT) == Span(PortAt(x, off), |x.port|))
  {
  }

  lemma ServerText(x: Parts, s: State, url: string)
    requires Shape(x, s) && Render(x, s) == url
    ensures ServerAt(x, s) + |x.server| <= |url| && url[ServerAt(x, s)..ServerAt(x, s) + |x.server|] == x.server
  {
    var front := x.schema + Colon(x, s);
    var rest := x.path + When(x.asked, "?") + x.query + Hashes(x.hashes) + x.fragment;
    assert url == front + x.server + rest;
  }

  /** After the server part there is no digit. */
  lemma AfterServer(x: Parts, s: State, url: string)
    requires Shape(x, s) && Linked(x) && Render(x, s) == url && x.server != ""
    ensures PathAt(x, s) <= |url| && (PathAt(x, s) < |url| ==> !IsNum(url[PathAt(x, s)]))
  {
    hide Shape, Linked, Colon, When, Hashes;
    var front := x.schema + Colon(x, s) + x.server;
    var rest := x.path + When(x.asked, "?") + x.query + Hashes(x.hashes) + x.fragment;
    assert url == front + rest;
    RestBegins(x, s, rest);
    if rest != "" {
      assert (front + rest)[|front|] == rest[0];
    }
  }

  lemma RestBegins(x: Parts, s: State, rest: string)
    requires Shape(x, s) && Linked(x) && rest == x.path + When(x.asked, "?") + x.query + Hashes(x.hashes) + x.fragment
    ensures rest != "" ==> rest[0] in "/*?#"
  {
    if x.path != "" {
      assert rest[0] == x.path[0];
    } else if x.asked {
      assert rest == "?" + x.query + Hashes(x.hashes) + x.fragment;
    } else if x.hashes > 0 {
      assert rest == Hashes(x.hashes) + x.fragment;
      assert Hashes(x.hashes)[0] == '#';
    } else {
      assert Hashes(0) == "";
    }
  }

  lemma PortText(d: Decomposition, url: string)
    requires d.s != Dead && Shape(d.x, d.s) && Linked(d.x) && Render(d.x, d.s) == url && d.x.server != ""
    requires HostEnds(d.hs) && HostAmid(d.h, d.hs, d.x.server) && d.h.port != ""
    ensures var off, n := PortAt(d.h, ServerAt(d.x, d.s)), |d.h.port|;
      && off + n <= |url| && url[off..off + n] == d.h.port && AreDigits(d.h.port, 10)
      && (off + n < |url| ==> !IsNum(url[off + n]))
      && forall i | off <= i < off + n :: IsNum(url[i])
  {
    hide Render, Shape, Linked, HostRender, HostShape, ServerAt, AtSeen, AreDigits, HostEnds;
    ServerText(d.x, d.s, url);
    AfterServer(d.x, d.s, url);
    HostTail(d.h, d.hs);
    DigitsAtEnd(url, ServerAt(d.x, d.s), d.x.server, d.h.port);
  }

  lemma DigitsAtEnd(url: string, a: nat, server: string, port: string)
    requires a + |server| <= |url| && url[a..a + |server|] == server && |port| <= |server|
    requires server[|server| - |port|..] == port && AreDigits(port, 10)
    ensures url[a + |server| - |port|..a + |server|] == port
    ensures forall i | a + |server| - |port| <= i < a + |server| :: IsNum(url[i])
  {
    var off := a + |server| - |port|;
    forall i | off <= i < off + |port| ensures url[i] == port[i - off] && IsNum(url[i]) {
      assert server[i - a] == url[i];
    }
  }

  /** The port is the end of the server part. */
  lemma HostTail(x: HostParts, s: HostState)
    requires HostEnds(s) && HostShape(x, s) && x.port != ""
    ensures PortAt(x, 0) + |x.port| == |HostRender(x, s)| && HostRender(x, s)[PortAt(x, 0)..] == x.port
  {
    var front := x.userinfo + When(x.at, "@") + When(x.bracket, "[") + x.host
      + When(x.bracket && Closed(s), "]") + When(x.colon, ":");
    assert HostRender(x, s) == front + x.port;
  }

  // ---- What an accepted URL is made of -----------------------------------------------------

  function TextOf(d: Decomposition, k: Field): string {
    match k
    case SCHEMA => d.x.schema case USERINFO => d.h.userinfo case HOST => d.h.host case PORT => d.h.port
    case PATH => d.x.path case QUERY => d.x.query case FRAGMENT => d.x.fragment
  }

  /** Where field k is, set or not. */
  function OffsetOf(d: Decomposition, k: Field): nat {
    var a := ServerAt(d.x, d.s);
    match k
    case SCHEMA => 0 case USERINFO => a case HOST => HostAt(d.h, a) case PORT => PortAt(d.h, a)
    case PATH => PathAt(d.x, d.s) case QUERY => QueryAt(d.x, d.s) case FRAGMENT => FragmentAt(d.x, d.s)
  }

  /** Scheme, userinfo, host, port, path, query, fragment, as in section 3 of RFC 3986. */
  function Rank(k: Field): nat {
    match k
    case SCHEMA => 0 case USERINFO => 1 case HOST => 2 case PORT => 3 case PATH => 4 case QUERY => 5 case FRAGMENT => 6
  }

  predicate WellMade(d: Decomposition, url: string) {
    && d.s != Dead && Shape(d.x, d.s) && Linked(d.x) && Render(d.x, d.s) == url
    && HostAmid(d.h, d.hs, d.x.server)
    && if d.x.server == "" then d.h == NO_HOST && d.x.schema == "" else HostEnds(d.hs)
  }

  lemma AcceptedIsWellMade(strict: bool, url: string, connect: bool)
    requires Accepted(Decompose(strict, url, connect), connect)
    ensures WellMade(Decompose(strict, url, connect), url)
  {
    hide Walk, Shape, Linked, Render, HostAmid, Layout;
    PartsMakeUp(strict, url, connect);
    var d := Decompose(strict, url, connect);
    if d.x.server == "" {
      assert d.h == NO_HOST && d.hs == HostBegins(d.x.at);
    }
  }

  /** The fields that are set are the parts that are not empty. */
  lemma LayoutIs(d: Decomposition, k: Field)
    requires d.x.server == "" ==> d.h == NO_HOST
    requires d.x.server != "" ==> d.h.host != ""
    ensures Layout(d).Has(k) <==> TextOf(d, k) != ""
    ensures Layout(d).Has(k) ==> Layout(d).At(k) == Span(OffsetOf(d, k), |TextOf(d, k)|)
  {
  }

  lemma WhenLength(b: bool, text: string)
    requires |text| == 1
    ensures |When(b, text)| == One(b)
  {
  }

  lemma Middle(a: string, b: string, c: string, whole: string)
    requires whole == a + b + c
    ensures |a| + |b| <= |whole| && whole[|a|..|a| + |b|] == b
  {
  }

  lemma Within(whole: string, a: nat, n: nat, o: nat, m: nat)
    requires a + n <= |whole| && o + m <= n
    ensures whole[a..a + n][o..o + m] == whole[a + o..a + o + m]
  {
    var l, r := whole[a..a + n][o..o + m], whole[a + o..a + o + m];
    assert forall i | 0 <= i < m :: l[i] == r[i];
    assert l == r;
  }

  lemma InServerText(d: Decomposition, url: string, k: Field)
    requires WellMade(d, url) && k in {USERINFO, HOST, PORT} && TextOf(d, k) != ""
    ensures OffsetOf(d, k) + |TextOf(d, k)| <= |url|
    ensures url[OffsetOf(d, k)..OffsetOf(d, k) + |TextOf(d, k)|] == TextOf(d, k)
  {
    hide Shape, Linked, Render, HostRender, HostShape, HostLinked, AtSeen, Colon, ServerAt;
    var a, n, m := ServerAt(d.x, d.s), |d.x.server|, |TextOf(d, k)|;
    OuterServer(d.x, d.s, url);
    var o := HostText(d.h, d.hs, TextOf(d, k), k, a);
    Within(url, a, n, o, m);
  }

  /** The text of each field is what the scan collected. */
  lemma FieldText(d: Decomposition, url: string, k: Field)
    requires WellMade(d, url) && TextOf(d, k) != ""
    ensures OffsetOf(d, k) + |TextOf(d, k)| <= |url|
    ensures url[OffsetOf(d, k)..OffsetOf(d, k) + |TextOf(d, k)|] == TextOf(d, k)
  {
    if k in {USERINFO, HOST, PORT} {
      InServerText(d, url, k);
      hide *;
    } else {
      assert Render(d.x, d.s) == url;
      hide Shape, Linked, Render, HostRender, HostShape, HostAmid, Colon, ServerAt, WellMade;
      OuterText(d.x, d.s, url, k);
    }
  }

  lemma OuterServer(x: Parts, s: State, url: string)
    requires Render(x, s) == url
    ensures ServerAt(x, s) + |x.server| <= |url| && url[ServerAt(x, s)..ServerAt(x, s) + |x.server|] == x.server
  {
    hide Colon;
    Middle(x.schema + Colon(x, s), x.server,
           x.path + When(x.asked, "?") + x.query + Hashes(x.hashes) + x.fragment, url);
  }

  lemma OuterText(x: Parts, s: State, url: string, k: Field)
    requires Render(x, s) == url && k in {SCHEMA, PATH, QUERY, FRAGMENT}
    ensures var d := Decomposition(x, s, NO_HOST, HostStart);
      OffsetOf(d, k) + |TextOf(d, k)| <= |url| && url[OffsetOf(d, k)..OffsetOf(d, k) + |TextOf(d, k)|] == TextOf(d, k)
  {
    hide Colon, Render;
    if k == SCHEMA || k == PATH {
      FrontText(x, s, url);
    } else {
      BackText(x, s, url);
    }
  }

  lemma FrontText(x: Parts, s: State, url: string)
    requires Render(x, s) == url
    ensures |x.schema| <= |url| && url[0..|x.schema|] == x.schema
    ensures PathAt(x, s) + |x.path| <= |url| && url[PathAt(x, s)..PathAt(x, s) + |x.path|] == x.path
  {
    hide Colon, When, Hashes;
    var front := x.schema + Colon(x, s) + x.server;
    var rest := When(x.asked, "?") + x.query + Hashes(x.hashes) + x.fragment;
    assert url == front + x.path + rest;
    Middle(front, x.path, rest, url);
    assert front + x.path + rest == x.schema + (Colon(x, s) + x.server + x.path + rest);
  }

  lemma BackText(x: Parts, s: State, url: string)
    requires Render(x, s) == url
    ensures QueryAt(x, s) + |x.query| <= |url| && url[QueryAt(x, s)..QueryAt(x, s) + |x.query|] == x.query
    ensures FragmentAt(x, s) + |x.fragment| <= |url|
    ensures url[FragmentAt(x, s)..FragmentAt(x, s) + |x.fragment|] == x.fragment
  {
    hide Colon;
    var front := x.schema + Colon(x, s) + x.server + x.path + When(x.asked, "?");
    Middle(front, x.query, Hashes(x.hashes) + x.fragment, url);
    Middle(front + x.query + Hashes(x.hashes), x.fragment, "", url);
  }

  lemma HostText(x: HostParts, s: HostState, text: string, k: Field, a: nat) returns (o: nat)
    requires HostShape(x, s) && HostEnds(s) && text != ""
    requires (k == USERINFO && text == x.userinfo) || (k == HOST && text == x.host) || (k == PORT && text == x.port)
    ensures a + o == match k case USERINFO => a case HOST => HostAt(x, a) case _ => PortAt(x, a)
    ensures o + |text| <= |HostRender(x, s)| && HostRender(x, s)[o..o + |text|] == text
  {
    hide HostRender, HostShape;
    match k {
      case USERINFO => o := 0; UserinfoText(x, s);
      case HOST => o := HostAt(x, 0); HostNameText(x, s);
      case PORT => o := PortAt(x, 0); HostTail(x, s);
    }
  }

  lemma UserinfoText(x: HostParts, s: HostState)
    ensures |x.userinfo| <= |HostRender(x, s)| && HostRender(x, s)[0..|x.userinfo|] == x.userinfo
  {
    hide When;
    var close, colon := When(x.bracket && Closed(s), "]"), When(x.colon, ":");
    Middle("", x.userinfo, When(x.at, "@") + When(x.bracket, "[") + x.host + close + colon + x.port,
           HostRender(x, s));
  }

  lemma HostNameText(x: HostParts, s: HostState)
    ensures HostAt(x, 0) + |x.host| <= |HostRender(x, s)|
    ensures HostRender(x, s)[HostAt(x, 0)..HostAt(x, 0) + |x.host|] == x.host
  {
    hide When, Closed;
    WhenLength(x.at, "@");
    WhenLength(x.bracket, "[");
    hide When;
    var close, colon := When(x.bracket && Closed(s), "]"), When(x.colon, ":");
    Middle(x.userinfo + When(x.at, "@") + When(x.bracket, "["), x.host, close + colon + x.port,
           HostRender(x, s));
  }

  /** The server part ends where the host or the port does. */
  lemma HostLength(x: HostParts, s: HostState)
    requires HostShape(x, s) && HostEnds(s)
    ensures |HostRender(x, s)| == HostAt(x, 0) + |x.host| + One(x.bracket) + One(x.port != "") + |x.port|
  {
  }

  /** The parts of an accepted URL lie within it and hold the text that was scanned; they are in
      the order of the standard, and none overlaps another. */
  lemma LayoutIsInOrder(strict: bool, url: string, connect: bool, j: Field, k: Field)
    requires Accepted(Decompose(strict, url, connect), connect)
    ensures var d := Decompose(strict, url, connect); var f := Layout(d);
      && (f.Has(k) <==> TextOf(d, k) != "")
      && (f.Has(k) ==> f.At(k).off + f.At(k).len <= |url| && url[f.At(k).off..f.At(k).off + f.At(k).len] == TextOf(d, k))
      && (f.Has(j) && f.Has(k) && Rank(j) < Rank(k) ==> f.At(j).off + f.At(j).len <= f.At(k).off)
  {
    hide Walk, HostWalk, Shape, Linked, Render, HostRender, Layout, HostLinked, AtSeen;
    var d := Decompose(strict, url, connect);
    AcceptedIsWellMade(strict, url, connect);
    if d.x.server != "" {
      HostLength(d.h, d.hs);
      HostIsNamed(d.h, d.hs);
    }
    LayoutIs(d, j);
    LayoutIs(d, k);
    if TextOf(d, k) != "" {
      FieldText(d, url, k);
    }
  }

  lemma HostIsNamed(x: HostParts, s: HostState)
    requires HostShape(x, s) && HostEnds(s)
    ensures x.host != ""
  {
  }

  // ---- What lies between the fields --------------------------------------------------------

  predicate InField(f: Fields, k: Field, i: nat) { f.Has(k) && f.At(k).off <= i < f.At(k).off + f.At(k).len }

  lemma PieceAt(a: string, b: string, c: string, whole: string, i: nat)
    requires whole == a + b + c && |a| <= i < |a| + |b|
    ensures i < |whole| && whole[i] == b[i - |a|]
  {
  }

  /** What is not in a part of an accepted URL is a delimiter. */
  lemma LayoutGaps(strict: bool, url: string, connect: bool, i: nat)
    requires Accepted(Decompose(strict, url, connect), connect) && i < |url|
    requires forall k: Field :: !InField(Layout(Decompose(strict, url, connect)), k, i)
    ensures url[i] in ":/?#@[]"
  {
    hide Walk, HostWalk, Shape, Linked, Render, HostRender, HostShape, HostLinked, AtSeen, Layout, ServerAt, QueryAt;
    var d := Decompose(strict, url, connect);
    AcceptedIsWellMade(strict, url, connect);
    RenderLength(d.x, d.s);
    if d.x.server != "" {
      HostIsNamed(d.h, d.hs);
    }
    forall k: Field ensures !(OffsetOf(d, k) <= i < OffsetOf(d, k) + |TextOf(d, k)|) {
      LayoutIs(d, k);
      assert !InField(Layout(d), k, i);
    }
    assert !(OffsetOf(d, SCHEMA) <= i < OffsetOf(d, SCHEMA) + |d.x.schema|);
    assert !(OffsetOf(d, PATH) <= i < OffsetOf(d, PATH) + |d.x.path|);
    assert !(OffsetOf(d, QUERY) <= i < OffsetOf(d, QUERY) + |d.x.query|);
    assert !(OffsetOf(d, FRAGMENT) <= i < OffsetOf(d, FRAGMENT) + |d.x.fragment|);
    var a := ServerAt(d.x, d.s);
    if a <= i < PathAt(d.x, d.s) {
      assert !(OffsetOf(d, USERINFO) <= i < OffsetOf(d, USERINFO) + |d.h.userinfo|);
      assert !(OffsetOf(d, HOST) <= i < OffsetOf(d, HOST) + |d.h.host|);
      assert !(OffsetOf(d, PORT) <= i < OffsetOf(d, PORT) + |d.h.port|);
      HostLength(d.h, d.hs);
      HostGap(d.h, d.hs, i - a);
      OuterServer(d.x, d.s, url);
      assert url[a..a + |d.x.server|][i - a] == url[i];
    } else {
      OuterGap(d.x, d.s, url, i);
    }
  }

  lemma OuterGap(x: Parts, s: State, url: string, i: nat)
    requires Render(x, s) == url
    requires (|x.schema| <= i < ServerAt(x, s)) || (PathAt(x, s) + |x.path| <= i < QueryAt(x, s))
      || (QueryAt(x, s) + |x.query| <= i < FragmentAt(x, s))
    ensures i < |url| && url[i] in ":/?#@[]"
  {
    hide Colon, When;
    var ask := When(x.asked, "?");
    WhenLength(x.asked, "?");
    var front := x.schema + Colon(x, s) + x.server + x.path;
    if |x.schema| <= i < ServerAt(x, s) {
      PieceAt(x.schema, Colon(x, s), x.server + x.path + ask + x.query + Hashes(x.hashes) + x.fragment, url, i);
      ColonChars(x, s, i - |x.schema|);
    } else if PathAt(x, s) + |x.path| <= i < QueryAt(x, s) {
      PieceAt(front, ask, x.query + Hashes(x.hashes) + x.fragment, url, i);
      AskChar(x.asked);
    } else {
      PieceAt(front + ask + x.query, Hashes(x.hashes), x.fragment, url, i);
    }
  }

  lemma ColonChars(x: Parts, s: State, i: nat)
    requires i < |Colon(x, s)|
    ensures Colon(x, s)[i] in ":/?#@[]"
  {
  }

  lemma AskChar(b: bool)
    ensures forall c | c in When(b, "?") :: c in ":/?#@[]"
  {
  }

  lemma HostGap(x: HostParts, s: HostState, i: nat)
    requires HostShape(x, s) && HostEnds(s) && i < |HostRender(x, s)|
    requires i >= |x.userinfo| && !(HostAt(x, 0) <= i < HostAt(x, 0) + |x.host|)
    requires x.port != "" ==> i < PortAt(x, 0)
    ensures HostRender(x, s)[i] in ":/?#@[]"
  {
    hide HostRender, HostShape;
    if i < HostAt(x, 0) {
      GapBeforeHost(x, s, i);
    } else {
      HostLength(x, s);
      GapAfterHost(x, s, i);
    }
  }

  lemma GapBeforeHost(x: HostParts, s: HostState, i: nat)
    requires |x.userinfo| <= i < HostAt(x, 0)
    ensures i < |HostRender(x, s)| && HostRender(x, s)[i] in ":/?#@[]"
  {
    hide Closed, When;
    WhenLength(x.at, "@");
    WhenLength(x.bracket, "[");
    WhenChars(x.at, "@");
    WhenChars(x.bracket, "[");
    var at, open := When(x.at, "@"), When(x.bracket, "[");
    var rest := x.host + When(x.bracket && Closed(s), "]") + When(x.colon, ":") + x.port;
    assert HostRender(x, s) == x.userinfo + (at + open) + rest;
    PieceAt(x.userinfo, at + open, rest, HostRender(x, s), i);
    var c := (at + open)[i - |x.userinfo|];
    assert c in at || c in open;
  }

  lemma GapAfterHost(x: HostParts, s: HostState, i: nat)
    requires HostAt(x, 0) + |x.host| <= i < |HostRender(x, s)| - |x.port|
    ensures HostRender(x, s)[i] in ":/?#@[]"
  {
    hide Closed, When;
    WhenLength(x.at, "@");
    WhenLength(x.bracket, "[");
    WhenChars(x.bracket && Closed(s), "]");
    WhenChars(x.colon, ":");
    var close, colon := When(x.bracket && Closed(s), "]"), When(x.colon, ":");
    var front := x.userinfo + When(x.at, "@") + When(x.bracket, "[") + x.host;
    assert HostRender(x, s) == front + (close + colon) + x.port;
    PieceAt(front, close + colon, x.port, HostRender(x, s), i);
    var c := (close + colon)[i - |front|];
    assert c in close || c in colon;
  }

  lemma WhenChars(b: bool, text: string)
    ensures forall c | c in When(b, text) :: c in text
  {
  }

  // ---- Joining the fields again ------------------------------------------------------------

  predicate Bracketed(url: string, f: Fields) {
    f.Has(HOST) && 0 < f.At(HOST).off <= |url| && url[f.At(HOST).off - 1] == '['
  }

  /** The usual way to put a URL together. Brackets are needed where they were. */
  function Rejoin(url: string, f: Fields): string {
    Assemble(TextAt(url, f, SCHEMA), TextAt(url, f, USERINFO), TextAt(url, f, HOST), TextAt(url, f, PORT), Bracketed(url, f),
             TextAt(url, f, PATH), TextAt(url, f, QUERY), TextAt(url, f, FRAGMENT))
  }

  function Assemble(schema: string, userinfo: string, host: string, port: string, bracket: bool,
      path: string, query: string, fragment: string): string
  {
    When(schema != "", schema + "://") + AssembleServer(userinfo, host, port, bracket) + path
    + When(query != "", "?" + query) + When(fragment != "", "#" + fragment)
  }

  function AssembleServer(userinfo: string, host: string, port: string, bracket: bool): string {
    When(userinfo != "", userinfo + "@") + When(bracket, "[") + host + When(bracket, "]") + When(port != "", ":" + port)
  }

  /** The same, in terms of the parts. */
  function JoinedServer(h: HostParts): string { AssembleServer(h.userinfo, h.host, h.port, h.bracket) }

  function Joined(d: Decomposition): string {
    Assemble(d.x.schema, d.h.userinfo, d.h.host, d.h.port, d.h.bracket, d.x.path, d.x.query, d.x.fragment)
  }

  /** Nothing is delimited in vain: a '?' has a query after it, one '#' a fragment, and an '@' has
      userinfo before it. */
  predicate NothingInVain(d: Decomposition) {
    && (d.x.asked ==> d.x.query != "")
    && d.x.hashes == One(d.x.fragment != "")
    && (d.h.at ==> d.h.userinfo != "")
  }

  lemma BracketSeen(d: Decomposition, url: string)
    requires WellMade(d, url) && d.x.server != ""
    ensures Bracketed(url, Layout(d)) == d.h.bracket
  {
    hide Shape, Linked, Render, HostRender, HostShape, HostLinked, AtSeen, HostWalk;
    HostIsNamed(d.h, d.hs);
    LayoutIs(d, HOST);
    OuterServer(d.x, d.s, url);
    var a, n, o := ServerAt(d.x, d.s), |d.x.server|, HostAt(d.h, 0);
    BeforeHost(d.h, d.hs);
    if o > 0 {
      assert url[a..a + n][o - 1] == url[a + o - 1];
    } else if a > 0 {
      BeforeServerPart(d.x, d.s, url);
    }
  }

  /** The character before the host. */
  lemma BeforeHost(x: HostParts, s: HostState)
    requires HostShape(x, s) && HostEnds(s) && HostLinked(x) && AtSeen(x, s)
    ensures var o, whole := HostAt(x, 0), HostRender(x, s);
      && o < |whole|
      && (x.bracket ==> o > 0 && whole[o - 1] == '[')
      && (o > 0 && !x.bracket ==> whole[o - 1] == '@')
  {
    hide Closed, When;
    WhenLength(x.at, "@");
    WhenLength(x.bracket, "[");
    var front := x.userinfo + When(x.at, "@") + When(x.bracket, "[");
    var back := x.host + When(x.bracket && Closed(s), "]") + When(x.colon, ":") + x.port;
    assert HostRender(x, s) == front + back;
    LastOfFront(x, front);
    if |front| > 0 {
      assert (front + back)[|front| - 1] == front[|front| - 1];
    }
  }

  lemma LastOfFront(x: HostParts, front: string)
    requires front == x.userinfo + When(x.at, "@") + When(x.bracket, "[")
    requires x.userinfo != "" ==> x.at
    ensures x.bracket ==> front != "" && front[|front| - 1] == '['
    ensures front != "" && !x.bracket ==> front[|front| - 1] == '@'
  {
  }

  /** The character before the server part. */
  lemma BeforeServerPart(x: Parts, s: State, url: string)
    requires Shape(x, s) && Render(x, s) == url && x.server != "" && ServerAt(x, s) > 0
    ensures ServerAt(x, s) <= |url| && url[ServerAt(x, s) - 1] == '/'
  {
    hide When, Hashes;
    var front := x.schema + Colon(x, s);
    var back := x.server + x.path + When(x.asked, "?") + x.query + Hashes(x.hashes) + x.fragment;
    assert url == front + back;
    assert url[|front| - 1] == front[|front| - 1];
    assert Colon(x, s) == "://";
  }

  lemma RejoinIsJoined(d: Decomposition, url: string)
    requires WellMade(d, url)
    ensures Rejoin(url, Layout(d)) == Joined(d)
  {
    hide WellMade, Layout, Bracketed, Assemble, TextAt;
    RejoinTexts(d, url);
  }

  lemma RejoinTexts(d: Decomposition, url: string)
    requires WellMade(d, url)
    ensures forall k: Field :: (Layout(d).Has(k) <==> TextOf(d, k) != "") && TextAt(url, Layout(d), k) == TextOf(d, k)
    ensures Bracketed(url, Layout(d)) == d.h.bracket
  {
    hide Shape, Linked, Render, HostRender, HostLinked, AtSeen, Layout;
    if d.x.server != "" {
      HostIsNamed(d.h, d.hs);
      BracketSeen(d, url);
    }
    forall k: Field ensures (Layout(d).Has(k) <==> TextOf(d, k) != "") && TextAt(url, Layout(d), k) == TextOf(d, k) {
      LayoutIs(d, k);
      if TextOf(d, k) != "" {
        FieldText(d, url, k);
      }
    }
    LayoutIs(d, HOST);
  }

  /** How much longer the URL is than what its fields make up. */
  lemma LengthLost(d: Decomposition, url: string)
    requires WellMade(d, url)
    ensures |url| == |Joined(d)| + (One(d.x.asked) - One(d.x.query != ""))
      + (d.x.hashes - One(d.x.fragment != "")) + (One(d.h.at) - One(d.h.userinfo != ""))
    ensures One(d.x.asked) >= One(d.x.query != "") && d.x.hashes >= One(d.x.fragment != "")
    ensures One(d.h.at) >= One(d.h.userinfo != "")
  {
    hide Render, HostRender, Joined;
    RenderLength(d.x, d.s);
    JoinedLength(d);
    if d.x.server != "" {
      HostLength(d.h, d.hs);
    }
  }

  lemma JoinedLength(d: Decomposition)
    ensures |Joined(d)| == |d.x.schema| + (if d.x.schema != "" then 3 else 0)
      + |d.h.userinfo| + One(d.h.userinfo != "") + One(d.h.bracket) + |d.h.host| + One(d.h.bracket)
      + |d.h.port| + One(d.h.port != "")
      + |d.x.path| + |d.x.query| + One(d.x.query != "") + |d.x.fragment| + One(d.x.fragment != "")
  {
  }

  /** Joining the parts of an accepted URL gives back the URL exactly if nothing is delimited in vain. */
  lemma LayoutRejoins(strict: bool, url: string, connect: bool)
    requires Accepted(Decompose(strict, url, connect), connect)
    ensures var d := Decompose(strict, url, connect);
      Rejoin(url, Layout(d)) == url <==> NothingInVain(d)
  {
    hide Walk, HostWalk, Rejoin, Layout, Joined, WellMade;
    var d := Decompose(strict, url, connect);
    AcceptedIsWellMade(strict, url, connect);
    RejoinIsJoined(d, url);
    LengthLost(d, url);
    if NothingInVain(d) {
      NothingIsLost(d, url);
    }
  }

  lemma NothingIsLost(d: Decomposition, url: string)
    requires WellMade(d, url) && NothingInVain(d)
    ensures Joined(d) == url
  {
    hide When, Hashes, AssembleServer;
    HashesAre(d.x);
    WhenIs(d.x.asked, d.x.query);
    if d.x.server != "" {
      ServerIsJoined(d, url);
    } else {
      NoServer(d, url);
    }
    assert d.x.path + (When(d.x.asked, "?") + d.x.query) == d.x.path + When(d.x.query != "", "?" + d.x.query);
    assert url == (d.x.schema + Colon(d.x, d.s) + d.x.server) + d.x.path + (When(d.x.asked, "?") + d.x.query)
      + (Hashes(d.x.hashes) + d.x.fragment);
  }

  lemma HashesAre(x: Parts)
    requires x.hashes == One(x.fragment != "")
    ensures Hashes(x.hashes) + x.fragment == When(x.fragment != "", "#" + x.fragment)
  {
    if x.hashes == 1 {
      assert Hashes(1) == "#";
    } else {
      assert Hashes(0) == "";
    }
  }

  lemma WhenIs(asked: bool, query: string)
    requires asked == (query != "")
    ensures When(asked, "?") + query == When(query != "", "?" + query)
  {
  }

  lemma NoServer(d: Decomposition, url: string)
    requires WellMade(d, url) && d.x.server == ""
    ensures When(d.x.schema != "", d.x.schema + "://") + JoinedServer(d.h) == d.x.schema + Colon(d.x, d.s) + d.x.server
  {
  }

  lemma ServerIsJoined(d: Decomposition, url: string)
    requires WellMade(d, url) && NothingInVain(d) && d.x.server != ""
    ensures When(d.x.schema != "", d.x.schema + "://") + JoinedServer(d.h) == d.x.schema + Colon(d.x, d.s) + d.x.server
  {
    hide Render, Hashes, JoinedServer, HostRender, HostShape, HostLinked, AtSeen;
    HostIsJoined(d.h, d.hs);
    assert When(d.x.schema != "", d.x.schema + "://") == d.x.schema + Colon(d.x, d.s);
  }

  lemma HostIsJoined(h: HostParts, s: HostState)
    requires HostShape(h, s) && HostEnds(s) && AtSeen(h, s) && (h.at ==> h.userinfo != "")
    ensures HostRender(h, s) == JoinedServer(h)
  {
    assert When(h.userinfo != "", h.userinfo + "@") == h.userinfo + When(h.at, "@");
    assert When(h.port != "", ":" + h.port) == When(h.colon, ":") + h.port;
  }
}
