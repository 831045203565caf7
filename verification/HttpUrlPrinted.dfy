/**
 URLs written down from their parts and read back by http_parser_parse_url.
 */
module HttpUrlPrinted {
  import opened Options
  import opened HttpChars
  import opened HttpParser
  import opened HttpLengths
  import opened HttpTargets
  import opened HttpUrl
  import opened HttpUrlFields

  // ---- Writing -----------------------------------------------------------------------------

  /** A host by name, or by an address of version 6 in brackets, and what may be around it. */
  datatype Site = Site(userinfo: Option<string>, host: string, v6: bool, port: Option<string>)

  /** A scheme and a site, or neither, and what follows. */
  datatype Url = Url(site: Option<(string, Site)>, path: string, query: Option<string>, fragment: Option<string>)

  function OrEmpty(t: Option<string>): string { if t.Some? then t.value else "" }

  function HostText(v: Site): string { if v.v6 then "[" + v.host + "]" else v.host }

  function PortText(v: Site): string { if v.port.Some? then ":" + v.port.value else "" }

  function SiteText(v: Site): string { (if v.userinfo.Some? then v.userinfo.value + "@" else "") + (HostText(v) + PortText(v)) }

  function QueryText(u: Url): string { if u.query.Some? then "?" + u.query.value else "" }

  function FragmentText(u: Url): string { if u.fragment.Some? then "#" + u.fragment.value else "" }

  function After(u: Url): string { u.path + (QueryText(u) + FragmentText(u)) }

  function Print(u: Url): string {
    match u.site case None => After(u) case Some((scheme, v)) => scheme + ("://" + (SiteText(v) + After(u)))
  }

  predicate AllUserinfo(t: string) { forall i | 0 <= i < |t| :: IsUserinfoChar(t[i]) }

  predicate IsV6Char(ch: char) { IsHex(ch) || ch == ':' || ch == '.' }

  predicate GoodHost(strict: bool, v: Site) {
    v.host != "" && forall i | 0 <= i < |v.host| :: if v.v6 then IsV6Char(v.host[i]) else IsHostChar(strict, v.host[i])
  }

  predicate GoodPort(port: string) { port != "" && AreDigits(port, 10) && PlaceValue(port, 10) <= 0xFFFF }

  predicate GoodSite(strict: bool, v: Site) {
    && (v.userinfo.Some? ==> v.userinfo.value != "" && AllUserinfo(v.userinfo.value))
    && GoodHost(strict, v)
    && (v.port.Some? ==> GoodPort(v.port.value))
  }

  predicate AllUrlChars(strict: bool, t: string) { forall i | 0 <= i < |t| :: IsUrlChar(strict, t[i]) }

  predicate IsQuery(strict: bool, t: string) { t != "" && forall i | 0 <= i < |t| :: IsUrlChar(strict, t[i]) || t[i] == '?' }

  predicate IsFragment(strict: bool, t: string) { t != "" && t[0] != '#' && IsTail(strict, t) }

  /** The parts are made of the characters that they may have, and none is there and empty. */
  predicate Good(strict: bool, u: Url) {
    && (match u.site
        case None => u.path != "" && (u.path[0] == '/' || u.path[0] == '*')
        case Some((scheme, v)) => IsScheme(scheme) && GoodSite(strict, v) && (u.path != "" ==> u.path[0] == '/'))
    && (u.path != "" ==> AllUrlChars(strict, u.path[1..]))
    && (u.query.Some? ==> IsQuery(strict, u.query.value))
    && (u.fragment.Some? ==> IsFragment(strict, u.fragment.value))
    && (u.path == "" && u.query.None? ==> u.fragment.None?)
  }

  // ---- The first scan ----------------------------------------------------------------------

  lemma Into(strict: bool, s: State, x: Parts, ch: char, rest: string, r: State)
    requires s != Dead && UrlChar(strict, s, ch) == r
    ensures Walk(strict, s, x, [ch] + rest) == Walk(strict, r, Collect(x, r, ch), rest)
  {
    hide UrlChar, Collect, Walk;
    assert ([ch] + rest)[1..] == rest;
    WalkStep(strict, s, x, [ch] + rest, rest);
  }

  /** The first character of a text, and the others. */
  lemma Taking(t: string, rest: string)
    requires t != ""
    ensures t + rest == [t[0]] + (t[1..] + rest)
  {
  }

  /** Text that was collected, one character and then the others. */
  lemma Collecting(done: string, t: string)
    requires t != ""
    ensures done + [t[0]] + t[1..] == done + t
  {
  }

  lemma LastOne(t: string, rest: string)
    requires |t| == 1
    ensures t[1..] + rest == rest && t == [t[0]]
  {
  }

  lemma {:induction false} SchemeWalk(strict: bool, s: State, x: Parts, t: string, rest: string)
    requires (s == SpacesBeforeUrl || s == Schema) && IsScheme(t)
    ensures Walk(strict, s, x, t + rest) == Walk(strict, Schema, x.(schema := x.schema + t), rest)
    decreases |t|
  {
    hide UrlChar, IsLetter, Walk;
    LetterStep(strict, t[0]);
    Taking(t, rest);
    Into(strict, s, x, t[0], t[1..] + rest, Schema);
    if |t| == 1 {
      LastOne(t, rest);
    } else {
      SchemeWalk(strict, Schema, x.(schema := x.schema + [t[0]]), t[1..], rest);
      Collecting(x.schema, t);
    }
  }

  lemma SlashesWalk(strict: bool, x: Parts, rest: string)
    ensures Walk(strict, Schema, x, "://" + rest) == Walk(strict, ServerStart, x, rest)
  {
    hide UrlChar, Walk;
    LetterStep(strict, ':');
    LetterStep(strict, '/');
    assert ("://" + rest)[1..] == "//" + rest && ("//" + rest)[1..] == "/" + rest && ("/" + rest)[1..] == rest;
    WalkStep(strict, Schema, x, "://" + rest, "//" + rest);
    WalkStep(strict, SchemaSlash, x, "//" + rest, "/" + rest);
    WalkStep(strict, SchemaSlashSlash, x, "/" + rest, rest);
  }

  function Ended(t: string): State
    requires t != ""
  {
    if t[|t| - 1] == '@' then ServerWithAt else Server
  }

  lemma {:induction false} ServerWalk(strict: bool, s: State, x: Parts, t: string, rest: string)
    requires AtServer(s) && t != "" && IsServer(t) && !(s == ServerWithAt && t[0] == '@')
    ensures Walk(strict, s, x, t + rest) == Walk(strict, Ended(t), x.(server := x.server + t, at := x.at || '@' in t), rest)
    decreases |t|
  {
    hide UrlChar, IsServerChar, Walk;
    ServerStep(strict, s, t[0]);
    ServerCharsAre(t[0]);
    var next := if t[0] == '@' then ServerWithAt else Server;
    Taking(t, rest);
    Into(strict, s, x, t[0], t[1..] + rest, next);
    if |t| == 1 {
      LastOne(t, rest);
    } else {
      ServerLess(t);
      ServerWalk(strict, next, x.(server := x.server + [t[0]], at := x.at || t[0] == '@'), t[1..], rest);
      Collecting(x.server, t);
    }
  }

  lemma ServerLess(t: string)
    requires |t| > 1 && IsServer(t)
    ensures IsServer(t[1..]) && Ended(t[1..]) == Ended(t) && !(t[0] == '@' && t[1..][0] == '@')
    ensures '@' in t <==> t[0] == '@' || '@' in t[1..]
  {
    hide IsServerChar;
    assert t == [t[0]] + t[1..] && t[1] == t[1..][0];
  }

  lemma ServerCharsAre(ch: char)
    ensures IsServerChar(ch) ==> ch != '/' && ch != '?'
  {
  }

  lemma PathBegins(strict: bool, s: State, ch: char)
    requires (s == SpacesBeforeUrl && (ch == '/' || ch == '*')) || (s == Server && ch == '/')
    ensures UrlChar(strict, s, ch) == Path
  {
  }

  lemma TailSteps(strict: bool, s: State, ch: char)
    ensures s == Path && IsUrlChar(strict, ch) ==> UrlChar(strict, s, ch) == Path
    ensures (s == Path || s == Server) && ch == '?' ==> UrlChar(strict, s, ch) == QueryStart
    ensures (s == QueryStart || s == Query) && (IsUrlChar(strict, ch) || ch == '?') ==> UrlChar(strict, s, ch) == Query
    ensures (s == Path || s == Query) && ch == '#' ==> UrlChar(strict, s, ch) == FragmentStart
    ensures s == FragmentStart && (IsUrlChar(strict, ch) || ch == '?') ==> UrlChar(strict, s, ch) == Fragment
    ensures s == Fragment && IsTailChar(strict, ch) ==> UrlChar(strict, s, ch) == Fragment
  {
  }

  lemma PathOne(strict: bool, x: Parts, t: string, rest: string)
    requires t != "" && IsUrlChar(strict, t[0])
    ensures Walk(strict, Path, x, t + rest) == Walk(strict, Path, x.(path := x.path + [t[0]]), t[1..] + rest)
  {
    hide UrlChar, IsUrlChar, Walk;
    TailSteps(strict, Path, t[0]);
    Taking(t, rest);
    Into(strict, Path, x, t[0], t[1..] + rest, Path);
  }

  lemma {:induction false} PathWalk(strict: bool, x: Parts, t: string, rest: string)
    requires AllUrlChars(strict, t)
    ensures Walk(strict, Path, x, t + rest) == Walk(strict, Path, x.(path := x.path + t), rest)
    decreases |t|
  {
    hide IsUrlChar, Walk;
    if t == "" {
      assert t + rest == rest && x.path + t == x.path;
    } else {
      PathOne(strict, x, t, rest);
      PathWalk(strict, x.(path := x.path + [t[0]]), t[1..], rest);
      assert x.path + [t[0]] + t[1..] == x.path + t;
    }
  }

  lemma {:induction false} QueryWalk(strict: bool, s: State, x: Parts, t: string, rest: string)
    requires (s == QueryStart || s == Query) && IsQuery(strict, t)
    ensures Walk(strict, s, x, t + rest) == Walk(strict, Query, x.(query := x.query + t), rest)
    decreases |t|
  {
    hide UrlChar, IsUrlChar, Walk;
    TailSteps(strict, s, t[0]);
    Taking(t, rest);
    Into(strict, s, x, t[0], t[1..] + rest, Query);
    if |t| == 1 {
      LastOne(t, rest);
    } else {
      QueryWalk(strict, Query, x.(query := x.query + [t[0]]), t[1..], rest);
      Collecting(x.query, t);
    }
  }

  lemma {:induction false} FragmentWalk(strict: bool, s: State, x: Parts, t: string)
    requires s == Fragment || (s == FragmentStart && t != "" && t[0] != '#')
    requires IsTail(strict, t)
    ensures Walk(strict, s, x, t) == (Fragment, x.(fragment := x.fragment + t))
    decreases |t|
  {
    hide UrlChar, IsUrlChar;
    if t == "" {
      assert x.fragment + t == x.fragment;
    } else {
      hide Walk;
      assert IsTailChar(strict, t[0]);
      TailSteps(strict, s, t[0]);
      assert t == [t[0]] + t[1..];
      Into(strict, s, x, t[0], t[1..], Fragment);
      FragmentWalk(strict, Fragment, x.(fragment := x.fragment + [t[0]]), t[1..]);
      Collecting(x.fragment, t);
    }
  }

  /** What the first scan finds, but for the site. */
  function Seen(u: Url, x: Parts): Parts {
    x.(path := u.path, query := OrEmpty(u.query), fragment := OrEmpty(u.fragment), asked := u.query.Some?,
       hashes := if u.fragment.Some? then 1 else 0)
  }

  lemma FragmentPart(strict: bool, s: State, x: Parts, u: Url)
    requires Good(strict, u) && (u.fragment.Some? ==> s == Path || s == Query) && s != Dead
    requires x.fragment == "" && x.hashes == 0
    ensures Walk(strict, s, x, FragmentText(u))
      == (if u.fragment.Some? then Fragment else s, x.(fragment := OrEmpty(u.fragment), hashes := if u.fragment.Some? then 1 else 0))
  {
    if u.fragment.Some? {
      hide UrlChar, IsUrlChar, Walk, GoodSite;
      var t := u.fragment.value;
      TailSteps(strict, s, '#');
      assert "#" + t == ['#'] + t && "" + t == t;
      Into(strict, s, x, '#', t, FragmentStart);
      FragmentWalk(strict, FragmentStart, x.(hashes := 1), t);
    }
  }

  lemma QueryThere(strict: bool, s: State, x: Parts, t: string, rest: string)
    requires IsQuery(strict, t) && (s == Path || s == Server) && x.query == "" && !x.asked
    ensures Walk(strict, s, x, "?" + t + rest) == Walk(strict, Query, x.(asked := true, query := t), rest)
  {
    hide UrlChar, IsUrlChar, Walk, IsQuery;
    TailSteps(strict, s, '?');
    assert "?" + t + rest == ['?'] + (t + rest) && "" + t == t;
    Into(strict, s, x, '?', t + rest, QueryStart);
    QueryWalk(strict, QueryStart, x.(asked := true), t, rest);
  }

  lemma QueryPart(strict: bool, s: State, x: Parts, u: Url)
    requires Good(strict, u) && (s == Path || (s == Server && (u.query.None? ==> u.fragment.None?)))
    requires x.query == "" && !x.asked && x.fragment == "" && x.hashes == 0
    ensures Walk(strict, s, x, QueryText(u) + FragmentText(u))
      == (if u.fragment.Some? then Fragment else if u.query.Some? then Query else s, Seen(u, x.(path := u.path)).(path := x.path))
  {
    hide UrlChar, Walk, GoodSite, IsQuery, IsFragment, AllUrlChars, FragmentText;
    var rest := FragmentText(u);
    if u.query.Some? {
      QueryThere(strict, s, x, u.query.value, rest);
      FragmentPart(strict, Query, x.(asked := true, query := u.query.value), u);
    } else {
      assert "" + rest == rest;
      FragmentPart(strict, s, x, u);
    }
  }

  lemma PathPart(strict: bool, s: State, x: Parts, u: Url)
    requires Good(strict, u) && (s == if u.site.Some? then Server else SpacesBeforeUrl)
    requires BeforePath(x)
    ensures var (r, y) := Walk(strict, s, x, After(u)); r != Dead && y == Seen(u, x)
  {
    hide UrlChar, IsUrlChar, Walk, GoodSite, IsScheme, IsQuery, IsFragment, AllUrlChars, QueryText, FragmentText;
    var t, rest := u.path, QueryText(u) + FragmentText(u);
    if t == "" {
      assert After(u) == rest;
      QueryPart(strict, s, x, u);
    } else {
      PathBegins(strict, s, t[0]);
      Taking(t, rest);
      Into(strict, s, x, t[0], t[1..] + rest, Path);
      assert "" + [t[0]] == [t[0]];
      Collecting("", t);
      assert "" + t == t;
      PathWalk(strict, x.(path := [t[0]]), t[1..], rest);
      QueryPart(strict, Path, x.(path := t), u);
    }
  }

  // ---- The site ----------------------------------------------------------------------------

  lemma SiteChars(ch: char, strict: bool)
    ensures IsUserinfoChar(ch) ==> IsServerChar(ch) && ch != '@'
    ensures IsHostChar(strict, ch) || IsV6Char(ch) ==> IsServerChar(ch) && ch != '@'
    ensures IsNum(ch) || ch == '[' || ch == ']' || ch == ':' ==> IsServerChar(ch) && ch != '@'
    ensures IsServerChar('@')
  {
  }

  /** Text of a site without '@'. */
  predicate IsBare(t: string) { forall i | 0 <= i < |t| :: IsServerChar(t[i]) && t[i] != '@' }

  lemma HostIsBare(strict: bool, v: Site)
    requires GoodSite(strict, v)
    ensures var t := HostText(v) + PortText(v); IsBare(t) && t != ""
  {
    hide IsServerChar, IsHostChar, IsV6Char, PlaceValue;
    var t := HostText(v) + PortText(v);
    forall i | 0 <= i < |t| ensures IsServerChar(t[i]) && t[i] != '@' {
      SiteChars(t[i], strict);
      var n := |HostText(v)|;
      if i < n {
        assert t[i] == HostText(v)[i];
        if v.v6 && 0 < i < n - 1 {
          assert t[i] == v.host[i - 1];
        }
      } else if i > n {
        assert t[i] == v.port.value[i - n - 1];
      }
    }
  }

  lemma SiteIsServer(strict: bool, v: Site)
    requires GoodSite(strict, v)
    ensures var t := SiteText(v); t != "" && IsServer(t) && Ended(t) == Server && ('@' in t <==> v.userinfo.Some?)
  {
    HostIsBare(strict, v);
    var bare := HostText(v) + PortText(v);
    var front := if v.userinfo.Some? then v.userinfo.value + "@" else "";
    var t := SiteText(v);
    assert t == front + bare && bare[|bare| - 1] == t[|t| - 1];
    hide IsServerChar, GoodHost, GoodPort, HostText, PortText;
    forall i | 0 <= i < |front| - 1 ensures IsServerChar(front[i]) && front[i] != '@' {
      SiteChars(front[i], strict);
      assert front[i] == v.userinfo.value[i] && IsUserinfoChar(v.userinfo.value[i]);
    }
    SiteChars('@', strict);
    AtOnce(front, bare);
  }

  lemma AtOnce(front: string, bare: string)
    requires forall i | 0 <= i < |front| - 1 :: IsServerChar(front[i]) && front[i] != '@'
    requires front != "" ==> front[|front| - 1] == '@' && IsServerChar('@')
    requires IsBare(bare) && bare != ""
    ensures IsServer(front + bare) && ('@' in front + bare <==> front != "")
  {
    hide IsServerChar;
    var t, n := front + bare, |front|;
    assert forall i | n <= i < |t| :: t[i] == bare[i - n];
    assert n > 0 ==> t[n - 1] == '@';
  }

  lemma {:induction false} UserinfoWalk(strict: bool, s: HostState, x: HostParts, t: string, rest: string)
    requires (s == UserinfoStart || s == Userinfo) && t != "" && AllUserinfo(t)
    ensures HostWalk(strict, s, x, t + "@" + rest) == HostWalk(strict, HostStart, x.(userinfo := x.userinfo + t, at := true), rest)
    decreases |t|
  {
    hide HostWalk;
    var text, tail := t + "@" + rest, t[1..] + "@" + rest;
    UserinfoStep(strict, s, t[0]);
    assert text[0] == t[0] && text[1..] == tail;
    HostWalkStep(strict, s, x, text, tail);
    var y := x.(userinfo := x.userinfo + [t[0]]);
    hide HostChar, IsUserinfoChar;
    if |t| == 1 {
      assert tail == "@" + rest && tail[1..] == rest && t == [t[0]];
      UserinfoEnds(strict);
      HostWalkStep(strict, Userinfo, y, tail, rest);
    } else {
      UserinfoWalk(strict, Userinfo, y, t[1..], rest);
      assert x.userinfo + [t[0]] + t[1..] == x.userinfo + t;
    }
  }

  lemma UserinfoStep(strict: bool, s: HostState, ch: char)
    requires (s == UserinfoStart || s == Userinfo) && IsUserinfoChar(ch)
    ensures HostChar(strict, s, ch) == Userinfo
  {
  }

  lemma UserinfoEnds(strict: bool)
    ensures HostChar(strict, Userinfo, '@') == HostStart
  {
  }

  lemma {:induction false} NameWalk(strict: bool, s: HostState, x: HostParts, t: string, rest: string)
    requires (s == HostStart || s == HostName) && t != "" && forall i | 0 <= i < |t| :: IsHostChar(strict, t[i])
    ensures HostWalk(strict, s, x, t + rest) == HostWalk(strict, HostName, x.(host := x.host + t), rest)
    decreases |t|
  {
    hide HostWalk, IsHostChar;
    NameStep(strict, s, t[0]);
    var text := t + rest;
    assert text[1..] == t[1..] + rest;
    HostWalkStep(strict, s, x, text, t[1..] + rest);
    var y := x.(host := x.host + [t[0]]);
    if |t| == 1 {
      assert t[1..] + rest == rest && t == [t[0]];
    } else {
      NameWalk(strict, HostName, y, t[1..], rest);
      assert x.host + [t[0]] + t[1..] == x.host + t;
    }
  }

  lemma NameStep(strict: bool, s: HostState, ch: char)
    requires (s == HostStart || s == HostName) && IsHostChar(strict, ch)
    ensures HostChar(strict, s, ch) == HostName
  {
  }

  lemma {:induction false} AddressWalk(strict: bool, s: HostState, x: HostParts, t: string, rest: string)
    requires (s == V6Start || s == V6) && t != "" && forall i | 0 <= i < |t| :: IsV6Char(t[i])
    ensures HostWalk(strict, s, x, t + "]" + rest) == HostWalk(strict, V6End, x.(host := x.host + t), rest)
    decreases |t|
  {
    hide HostWalk, IsV6Char;
    AddressStep(strict, s, t[0]);
    var text, tail := t + "]" + rest, t[1..] + "]" + rest;
    assert text[0] == t[0] && text[1..] == tail;
    HostWalkStep(strict, s, x, text, tail);
    var y := x.(host := x.host + [t[0]]);
    if |t| == 1 {
      assert tail == "]" + rest && tail[1..] == rest && t == [t[0]];
      HostWalkStep(strict, V6, y, tail, rest);
    } else {
      AddressWalk(strict, V6, y, t[1..], rest);
      assert x.host + [t[0]] + t[1..] == x.host + t;
    }
  }

  lemma AddressStep(strict: bool, s: HostState, ch: char)
    requires (s == V6Start || s == V6) && IsV6Char(ch)
    ensures HostChar(strict, s, ch) == V6
  {
  }

  lemma {:induction false} PortWalk(strict: bool, s: HostState, x: HostParts, t: string)
    requires (s == PortStart && t != "") || s == Port
    requires AreDigits(t, 10)
    ensures HostWalk(strict, s, x, t) == (Port, x.(port := x.port + t))
    decreases |t|
  {
    if t == "" {
      assert x.port + t == x.port;
    } else {
      hide HostWalk;
      assert HostChar(strict, s, t[0]) == Port;
      HostWalkStep(strict, s, x, t, t[1..]);
      PortWalk(strict, Port, x.(port := x.port + [t[0]]), t[1..]);
      assert x.port + [t[0]] + t[1..] == x.port + t;
    }
  }

  /** The parts of a site. */
  function SiteParts(v: Site): HostParts {
    HostParts(OrEmpty(v.userinfo), v.host, OrEmpty(v.port), v.userinfo.Some?, v.v6, v.port.Some?)
  }

  lemma PortPart(strict: bool, s: HostState, x: HostParts, v: Site)
    requires GoodSite(strict, v) && (s == HostName || s == V6End) && x.port == "" && !x.colon
    ensures var (r, y) := HostWalk(strict, s, x, PortText(v));
      HostEnds(r) && y == x.(port := OrEmpty(v.port), colon := v.port.Some?)
  {
    if v.port.Some? {
      hide HostWalk, GoodHost, PlaceValue, HostChar, AllUserinfo;
      var t := v.port.value;
      assert (":" + t)[1..] == t && "" + t == t;
      PortBegins(strict, s);
      HostWalkStep(strict, s, x, ":" + t, t);
      PortWalk(strict, PortStart, x.(colon := true), t);
    }
  }

  lemma PortBegins(strict: bool, s: HostState)
    requires s == HostName || s == V6End
    ensures HostChar(strict, s, ':') == PortStart && HostChar(strict, HostStart, '[') == V6Start
  {
  }

  lemma AddressPart(strict: bool, x: HostParts, v: Site)
    requires GoodSite(strict, v) && v.v6 && x.host == "" && !x.bracket
    ensures HostWalk(strict, HostStart, x, HostText(v) + PortText(v))
      == HostWalk(strict, V6End, x.(bracket := true, host := v.host), PortText(v))
  {
    hide HostWalk, GoodPort, HostChar, AllUserinfo, PortText;
    var text, tail := HostText(v) + PortText(v), v.host + "]" + PortText(v);
    assert text[0] == '[' && text[1..] == tail && "" + v.host == v.host;
    PortBegins(strict, V6End);
    HostWalkStep(strict, HostStart, x, text, tail);
    AddressWalk(strict, V6Start, x.(bracket := true), v.host, PortText(v));
  }

  lemma HostPart(strict: bool, x: HostParts, v: Site)
    requires GoodSite(strict, v) && x == NO_HOST.(userinfo := x.userinfo, at := x.at)
    ensures var (r, y) := HostWalk(strict, HostStart, x, HostText(v) + PortText(v));
      HostEnds(r) && y == x.(host := v.host, bracket := v.v6, port := OrEmpty(v.port), colon := v.port.Some?)
  {
    hide HostWalk, GoodPort, HostChar, AllUserinfo, PortText;
    if v.v6 {
      AddressPart(strict, x, v);
      PortPart(strict, V6End, x.(bracket := true, host := v.host), v);
    } else {
      assert "" + v.host == v.host;
      NameWalk(strict, HostStart, x, v.host, PortText(v));
      PortPart(strict, HostName, x.(host := v.host), v);
    }
  }

  lemma SiteWalk(strict: bool, v: Site)
    requires GoodSite(strict, v)
    ensures var (r, y) := HostWalk(strict, HostBegins(v.userinfo.Some?), NO_HOST, SiteText(v)); HostEnds(r) && y == SiteParts(v)
  {
    hide HostWalk, GoodHost, GoodPort, HostText, PortText;
    var rest := HostText(v) + PortText(v);
    if v.userinfo.Some? {
      var t := v.userinfo.value;
      assert "" + t == t;
      UserinfoWalk(strict, UserinfoStart, NO_HOST, t, rest);
      HostPart(strict, NO_HOST.(userinfo := t, at := true), v);
    } else {
      assert SiteText(v) == rest;
      HostPart(strict, NO_HOST, v);
    }
  }

  // ---- Reading back ------------------------------------------------------------------------

  /** The part that field k is to hold. */
  function PartOf(u: Url, k: Field): string {
    match k
    case PATH => u.path case QUERY => OrEmpty(u.query) case FRAGMENT => OrEmpty(u.fragment)
    case SCHEMA => if u.site.Some? then u.site.value.0 else ""
    case USERINFO => if u.site.Some? then OrEmpty(u.site.value.1.userinfo) else ""
    case HOST => if u.site.Some? then u.site.value.1.host else ""
    case PORT => if u.site.Some? then OrEmpty(u.site.value.1.port) else ""
  }

  lemma PrintedWalk(strict: bool, u: Url)
    requires Good(strict, u)
    ensures var (r, y) := Walk(strict, SpacesBeforeUrl, NO_PARTS, Print(u));
      && r != Dead
      && y == Seen(u, if u.site.None? then NO_PARTS else
           NO_PARTS.(schema := u.site.value.0, server := SiteText(u.site.value.1), at := u.site.value.1.userinfo.Some?))
  {
    hide Walk, GoodSite, IsScheme, After, SiteText, IsServer, IsQuery, IsFragment, AllUrlChars;
    match u.site {
      case None => PathPart(strict, SpacesBeforeUrl, NO_PARTS, u);
      case Some((scheme, v)) =>
        var x := NO_PARTS.(schema := scheme);
        assert "" + scheme == scheme && "" + SiteText(v) == SiteText(v);
        SchemeWalk(strict, SpacesBeforeUrl, NO_PARTS, scheme, "://" + (SiteText(v) + After(u)));
        SlashesWalk(strict, x, SiteText(v) + After(u));
        SiteIsServer(strict, v);
        ServerWalk(strict, ServerStart, x, SiteText(v), After(u));
        PathPart(strict, Server, x.(server := SiteText(v), at := v.userinfo.Some?), u);
    }
  }

  lemma NothingWalked(strict: bool, at: bool)
    ensures HostWalk(strict, HostBegins(at), NO_HOST, "") == (HostBegins(at), NO_HOST)
  {
  }

  lemma PrintedDecomposes(strict: bool, u: Url)
    requires Good(strict, u)
    ensures var d := Decompose(strict, Print(u), false);
      Accepted(d, false) && forall k: Field :: TextOf(d, k) == PartOf(u, k)
  {
    hide Walk, HostWalk, GoodHost, PlaceValue, SiteText, Print, Layout, IsQuery, IsFragment, AllUrlChars, AllUserinfo;
    PrintedWalk(strict, u);
    match u.site {
      case None => NothingWalked(strict, false);
      case Some((scheme, v)) =>
        SiteWalk(strict, v);
        SiteIsServer(strict, v);
    }
  }

  /** A URL written down from its parts is accepted, and the fields are the parts again: a field is set exactly if
      its part is not empty, and its place in the text holds the part. The port is the number it stands for. */
  lemma PrintedUrlsAreRead(strict: bool, u: Url, k: Field)
    requires Good(strict, u) && |Print(u)| < UINT16
    ensures var f := UrlFields(strict, Print(u), false);
      && f.Some?
      && (f.value.Has(k) <==> PartOf(u, k) != "")
      && TextAt(Print(u), f.value, k) == PartOf(u, k)
      && UrlPort(Print(u), f.value) == if PartOf(u, PORT) == "" then 0 else PlaceValue(PartOf(u, PORT), 10)
  {
    hide Accepted, Decompose, Layout, Stored, Print, TextOf, PartOf, UrlPort, Good, PlaceValue;
    var d := Decompose(strict, Print(u), false);
    PrintedDecomposes(strict, u);
    ShortUrlsFit(strict, Print(u), false);
    StoredAsTheyAre(strict, Print(u), false);
    hide UrlFields;
    FieldsAreInOrder(strict, Print(u), false, k, k);
    FieldsAreInOrder(strict, Print(u), false, PORT, PORT);
    PrintedPort(strict, u, d);
  }

  lemma PrintedPort(strict: bool, u: Url, d: Decomposition)
    requires Good(strict, u) && d == Decompose(strict, Print(u), false) && Accepted(d, false)
    requires (forall k: Field :: TextOf(d, k) == PartOf(u, k)) && (Layout(d).Has(PORT) <==> PartOf(u, PORT) != "")
    ensures UrlPort(Print(u), Layout(d)) == if PartOf(u, PORT) == "" then 0 else PlaceValue(PartOf(u, PORT), 10)
  {
    hide Walk, HostWalk, Shape, Linked, Render, HostAmid, Number, PlaceValue, Layout, AreDigits, Print;
    if PartOf(u, PORT) != "" {
      PartsMakeUp(strict, Print(u), false);
      assert TextOf(d, PORT) == d.h.port && TextOf(d, SCHEMA) == d.x.schema;
      PortRead(d, Print(u));
    }
  }
}
