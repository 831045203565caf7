/**
 What callers of http_parser_parse_url can rely on. The fields are stored in 16 bits: for which URLs
 that loses nothing, and what then holds of the fields.
 */
module HttpUrlFields {
  import opened Options
  import opened HttpChars
  import opened HttpParser
  import opened HttpLengths
  import opened HttpUrl

  // ---- What fits in 16 bits ----------------------------------------------------------------

  predicate SmallSpan(s: Option<Span>) { s.Some? ==> s.value.off < UINT16 && s.value.len < UINT16 }

  predicate Small(f: Fields) {
    && SmallSpan(f.schema) && SmallSpan(f.userinfo) && SmallSpan(f.host) && SmallSpan(f.port)
    && SmallSpan(f.path) && SmallSpan(f.query) && SmallSpan(f.fragment)
  }

  lemma NarrowIsSame(f: Fields)
    ensures NarrowAll(f) == f <==> Small(f)
  {
    SpanIsSame(f.schema);
    SpanIsSame(f.userinfo);
    SpanIsSame(f.host);
    SpanIsSame(f.port);
    SpanIsSame(f.path);
    SpanIsSame(f.query);
    SpanIsSame(f.fragment);
    hide Narrow, SmallSpan;
  }

  lemma SpanIsSame(s: Option<Span>)
    ensures Narrow(s) == s <==> SmallSpan(s)
  {
  }

  /** Every place that is noted on the way, the whole server part among them, fits. */
  predicate Stored(d: Decomposition) {
    d.s != Dead ==> Small(Places(d.x, d.s)) && (d.x.server != "" && HostEnds(d.hs) ==> Small(Layout(d)))
  }

  // ---- The fields are the true ones exactly if they fit ------------------------------------

  /** The number after the ':' is read as it is written. */
  lemma NumberOfDigits(digits: string, rest: string)
    requires AreDigits(digits, 10) && digits != "" && (rest != "" ==> !IsNum(rest[0]))
    ensures Number(digits + rest) == if PlaceValue(digits, 10) > ULONG_MAX then ULONG_MAX else PlaceValue(digits, 10)
  {
    hide PlaceValue, Digits;
    var text := digits + rest;
    assert text[0] == digits[0] && IsNum(digits[0]);
    hide AreDigits;
    assert Spaces(text) == 0 && text[0..] == text;
    DigitsOf(digits, rest);
    assert text[..|digits|] == digits;
  }

  lemma {:induction false} DigitsOf(digits: string, rest: string)
    requires AreDigits(digits, 10) && (rest != "" ==> !IsNum(rest[0]))
    ensures Digits(digits + rest) == |digits|
    decreases |digits|
  {
    if digits == "" {
      assert digits + rest == rest;
    } else {
      assert (digits + rest)[1..] == digits[1..] + rest;
      DigitsOf(digits[1..], rest);
    }
  }

  /** The server part as http_parse_host sees it. */
  lemma ServerSeen(d: Decomposition, url: string)
    requires Shape(d.x, d.s) && Render(d.x, d.s) == url && d.x.server != "" && Small(Places(d.x, d.s))
    ensures var f := NarrowAll(Places(d.x, d.s));
      f == Places(d.x, d.s) && f.At(HOST).off == ServerAt(d.x, d.s) && TextAt(url, f, HOST) == d.x.server
  {
    hide Shape, Render;
    NarrowIsSame(Places(d.x, d.s));
    PlacesAre(d.x, d.s);
    ServerText(d.x, d.s, url);
  }

  /** The text that is read for the port: it goes on behind the URL, with the digits there, if the port is
      the end of the URL. */
  function PortDigits(url: string, f: Fields, behind: string): string
    requires f.Has(PORT)
  {
    TextAt(url, f, PORT) + if f.At(PORT).off + f.At(PORT).len == |url| then behind[..Digits(behind)] else ""
  }

  lemma DigitsJoin(a: string, b: string)
    requires AreDigits(a, 10) && AreDigits(b, 10)
    ensures AreDigits(a + b, 10)
  {
  }

  lemma {:induction false} AfterDigits(text: string)
    ensures Digits(text) < |text| ==> !IsNum(text[Digits(text)])
  {
    if text != "" && IsNum(text[0]) {
      AfterDigits(text[1..]);
    }
  }

  /** The text from the port on: digits, and then something else. */
  lemma TextFromPort(url: string, off: nat, n: nat, behind: string) returns (more: string, rest: string)
    requires off + n <= |url| && (off + n < |url| ==> !IsNum(url[off + n]))
    ensures more == if off + n == |url| then behind[..Digits(behind)] else ""
    ensures (url + behind)[off..] == (url[off..off + n] + more) + rest && (rest != "" ==> !IsNum(rest[0]))
    ensures AreDigits(more, 10)
  {
    hide AreDigits;
    AfterDigits(behind);
    if off + n == |url| {
      more, rest := behind[..Digits(behind)], behind[Digits(behind)..];
      assert behind == more + rest;
      assert (url + behind)[off..] == url[off..off + n] + behind;
    } else {
      more, rest := "", url[off + n..] + behind;
      NoDigits(more);
      assert (url + behind)[off..] == url[off..off + n] + rest;
      assert url[off..off + n] + more == url[off..off + n];
    }
  }

  /** The port as strtoul reads it from a buffer in which other text follows the URL. */
  lemma PortReadIn(d: Decomposition, url: string, behind: string)
    requires d.s != Dead && Shape(d.x, d.s) && Linked(d.x) && Render(d.x, d.s) == url && d.x.server != ""
    requires HostEnds(d.hs) && HostAmid(d.h, d.hs, d.x.server) && d.h.port != ""
    ensures Layout(d).Has(PORT) && AreDigits(PortDigits(url, Layout(d), behind), 10)
    ensures var v := PlaceValue(PortDigits(url, Layout(d), behind), 10);
      UrlPort(url + behind, Layout(d)) == if v > ULONG_MAX then ULONG_MAX else v
  {
    hide Shape, Linked, Render, HostAmid, Number, PlaceValue, AreDigits, Digits;
    PortText(d, url);
    PlacesAre(d.x, d.s);
    HostPlacesAre(Places(d.x, d.s), d.h, ServerAt(d.x, d.s));
    var off, n := PortAt(d.h, ServerAt(d.x, d.s)), |d.h.port|;
    assert Layout(d).Has(PORT) && Layout(d).At(PORT) == Span(off, n);
    hide PortAt, Places, HostPlaces, Layout;
    var more, rest := TextFromPort(url, off, n, behind);
    assert PortDigits(url, Layout(d), behind) == d.h.port + more;
    DigitsJoin(d.h.port, more);
    NumberOfDigits(d.h.port + more, rest);
  }

  lemma NoDigits(v: string)
    ensures v == "" ==> AreDigits(v, 10)
  {
  }

  /** What follows a URL in the buffer matters exactly as far as its first characters are digits that follow
      the port: the port is the number that the port and they make up, and the URL is refused if that is
      too large. */
  lemma PortsInBuffers(strict: bool, url: string, connect: bool, behind: string)
    requires |url| < UINT16 && UrlFields(strict, url, connect).Some?
    ensures var f := UrlFields(strict, url, connect).value;
      if f.Has(PORT) then
        && AreDigits(PortDigits(url, f, behind), 10)
        && var v := PlaceValue(PortDigits(url, f, behind), 10);
           UrlFieldsIn(strict, url, connect, url + behind) == (if v > 0xFFFF then None else Some(f))
           && (v <= 0xFFFF ==> UrlPort(url + behind, f) == v)
      else UrlFieldsIn(strict, url, connect, url + behind) == Some(f)
  {
    hide Walk, HostWalk, Shape, Linked, Render, HostAmid, FoundFields, Decompose, PortDigits, PlaceValue, AreDigits, Number;
    var d := Decompose(strict, url, connect);
    ShortUrlsFit(strict, url, connect);
    hide Stored;
    StoredAsTheyAre(strict, url, connect);
    PartsMakeUp(strict, url, connect);
    PlacesAre(d.x, d.s);
    if d.x.server != "" {
      HostPlacesAre(Places(d.x, d.s), d.h, ServerAt(d.x, d.s));
      if d.h.port != "" {
        hide Layout;
        PortReadIn(d, url, behind);
      }
    }
  }

  /** The port as strtoul reads it. */
  lemma PortRead(d: Decomposition, url: string)
    requires d.s != Dead && Shape(d.x, d.s) && Linked(d.x) && Render(d.x, d.s) == url && d.x.server != ""
    requires HostEnds(d.hs) && HostAmid(d.h, d.hs, d.x.server) && d.h.port != ""
    ensures Layout(d).Has(PORT) && AreDigits(d.h.port, 10)
    ensures UrlPort(url, Layout(d)) == if PlaceValue(d.h.port, 10) > ULONG_MAX then ULONG_MAX else PlaceValue(d.h.port, 10)
  {
    hide Shape, Linked, Render, HostAmid, Number, PlaceValue, AreDigits;
    PortText(d, url);
    PlacesAre(d.x, d.s);
    HostPlacesAre(Places(d.x, d.s), d.h, ServerAt(d.x, d.s));
    var off, n := PortAt(d.h, ServerAt(d.x, d.s)), |d.h.port|;
    assert url[off..] == d.h.port + url[off + n..];
    NumberOfDigits(d.h.port, url[off + n..]);
  }

  lemma PassesExactly(d: Decomposition, url: string, connect: bool)
    requires d.s != Dead && Shape(d.x, d.s) && Linked(d.x) && Render(d.x, d.s) == url && (d.x.schema != "" ==> d.x.server != "")
    requires d.x.server != "" ==> HostEnds(d.hs) && HostAmid(d.h, d.hs, d.x.server)
    ensures Passes(url, Layout(d), connect) <==> Accepted(d, connect)
  {
    hide Shape, Linked, Render, HostAmid, Number, PlaceValue, AreDigits, ServerAt;
    PlacesAre(d.x, d.s);
    if d.x.server != "" {
      HostPlacesAre(Places(d.x, d.s), d.h, ServerAt(d.x, d.s));
      if d.h.port != "" {
        PortRead(d, url);
      }
    }
  }

  /** If every place fits, the fields are those of the text, and the URLs accepted are those of the
      grammar. */
  lemma StoredAsTheyAre(strict: bool, url: string, connect: bool)
    requires Stored(Decompose(strict, url, connect))
    ensures var d := Decompose(strict, url, connect);
      UrlFields(strict, url, connect) == if Accepted(d, connect) then Some(Layout(d)) else None
  {
    hide Walk, HostWalk, Shape, Linked, Render, HostAmid, Places, HostPlaces, NarrowAll, Small, Passes;
    var d := Decompose(strict, url, connect);
    PartsMakeUp(strict, url, connect);
    if d.s != Dead {
      PlacesAre(d.x, d.s);
      NarrowIsSame(Places(d.x, d.s));
      if d.x.server != "" {
        ServerSeen(d, url);
        NarrowIsSame(Layout(d));
      }
      if (d.x.schema != "" ==> d.x.server != "") && (d.x.server != "" ==> HostEnds(d.hs)) {
        PassesExactly(d, url, connect);
      }
    }
  }

  lemma NarrowIsSmall(f: Fields)
    ensures Small(NarrowAll(f))
  {
  }

  /** The places within a server part, and how long they are when they are stored. */
  lemma StoredLengths(f: Fields, x: HostParts, off: nat)
    ensures var g := NarrowAll(HostPlaces(f, x, off));
      && g.host.Some? && g.host.value.len == |x.host| % UINT16
      && (if x.userinfo == "" then g.userinfo.None? else g.userinfo.Some? && g.userinfo.value.len == |x.userinfo| % UINT16)
      && (if x.port == "" then g.port.None? else g.port.Some? && g.port.value.len == |x.port| % UINT16)
      && g.schema == Narrow(f.schema) && g.path == Narrow(f.path) && g.query == Narrow(f.query) && g.fragment == Narrow(f.fragment)
  {
  }

  lemma TrueLengths(f: Fields, x: HostParts, off: nat)
    ensures var g := HostPlaces(f, x, off);
      && g.host.Some? && g.host.value.len == |x.host| && (x.host != "" ==> g.host.value.off >= off)
      && (if x.userinfo == "" then g.userinfo.None? else g.userinfo.Some? && g.userinfo.value.len == |x.userinfo|)
      && (if x.port == "" then g.port.None? else g.port.Some? && g.port.value.len == |x.port|)
      && g.schema == f.schema && g.path == f.path && g.query == f.query && g.fragment == f.fragment
  {
  }

  /** Where the lengths are the same, one server part is about as long as the other. */
  lemma AboutAsLong(x: HostParts, s: HostState, text: string, h: HostParts, hs: HostState, server: string)
    requires HostEnds(s) && HostAmid(x, s, text) && HostEnds(hs) && HostAmid(h, hs, server)
    requires |x.userinfo| == |h.userinfo| && |x.host| == |h.host| && |x.port| == |h.port|
    ensures |server| <= |text| + 4
  {
    hide HostRender, HostShape, HostLinked, AtSeen;
    HostLength(x, s);
    HostLength(h, hs);
  }

  lemma PartsWithin(x: HostParts, s: HostState, text: string)
    requires HostEnds(s) && HostAmid(x, s, text)
    ensures |x.userinfo| <= |text| && |x.host| <= |text| && |x.port| <= |text| && x.host != ""
  {
    hide HostRender, HostShape, HostLinked, AtSeen;
    HostLength(x, s);
    HostIsNamed(x, s);
  }

  lemma SmallMod(n: nat)
    requires n < UINT16
    ensures n % UINT16 == n
  {
  }

  lemma NarrowServer(p: Fields, f: Fields)
    requires f == NarrowAll(p) && p.host.Some?
    ensures f.host.Some? && f.host.value.len == p.host.value.len % UINT16 < UINT16
    ensures f.schema == Narrow(p.schema) && f.path == Narrow(p.path) && f.query == Narrow(p.query) && f.fragment == Narrow(p.fragment)
    ensures (p.userinfo == None && p.port == None && SmallSpan(p.schema) && SmallSpan(p.path) && SmallSpan(p.query)
             && SmallSpan(p.fragment) && SmallSpan(p.host)) ==> Small(p)
  {
  }

  /** If the fields found are the true ones, all of them fit, and so does the server part. */
  lemma FoundFieldsFit(f: Fields, x: HostParts, s: HostState, text: string, d: Decomposition)
    requires f == NarrowAll(Places(d.x, d.s)) && f.Has(HOST) && d.x.server != "" && |text| == f.At(HOST).len
    requires HostEnds(s) && HostAmid(x, s, text) && HostEnds(d.hs) && HostAmid(d.h, d.hs, d.x.server)
    requires NarrowAll(HostPlaces(f, x, f.At(HOST).off)) == Layout(d)
    ensures Small(Layout(d)) && Small(Places(d.x, d.s))
  {
    hide HostAmid, HostEnds, Places, HostPlaces, NarrowAll, Narrow;
    NarrowIsSmall(HostPlaces(f, x, f.At(HOST).off));
    StoredLengths(f, x, f.At(HOST).off);
    TrueLengths(Places(d.x, d.s), d.h, ServerAt(d.x, d.s));
    PlacesAre(d.x, d.s);
    NarrowServer(Places(d.x, d.s), f);
    PartsWithin(x, s, text);
    PartsWithin(d.h, d.hs, d.x.server);
    SmallMod(|x.userinfo|);
    SmallMod(|x.host|);
    SmallMod(|x.port|);
    hide ServerAt;
    AboutAsLong(x, s, text, d.h, d.hs, d.x.server);
  }

  /** The fields of an accepted URL are the true ones exactly if every place fits in 16 bits. */
  lemma StoredExactly(strict: bool, url: string, connect: bool)
    requires Accepted(Decompose(strict, url, connect), connect)
    ensures var d := Decompose(strict, url, connect);
      UrlFields(strict, url, connect) == Some(Layout(d)) <==> Stored(d)
  {
    hide Walk, HostWalk, Shape, Linked, Render, HostAmid, Places, HostPlaces, NarrowAll, Small, Passes;
    var d := Decompose(strict, url, connect);
    if Stored(d) {
      StoredAsTheyAre(strict, url, connect);
    } else if UrlFields(strict, url, connect) == Some(Layout(d)) {
      PartsMakeUp(strict, url, connect);
      PlacesAre(d.x, d.s);
      NarrowGet(Places(d.x, d.s), HOST);
      var f := NarrowAll(Places(d.x, d.s));
      if d.x.server == "" {
        NarrowIsSame(Places(d.x, d.s));
      } else {
        ServerInside(strict, url, connect);
        FoundHost(strict, url, f, d);
      }
      assert false;
    }
  }

  lemma FoundHost(strict: bool, url: string, f: Fields, d: Decomposition)
    requires f == NarrowAll(Places(d.x, d.s)) && f.Has(HOST) && d.x.server != ""
    requires f.At(HOST).off + f.At(HOST).len <= |url|
    requires HostEnds(d.hs) && HostAmid(d.h, d.hs, d.x.server)
    requires HostFields(strict, url, f, d.x.at) == Some(Layout(d))
    ensures Small(Layout(d)) && Small(Places(d.x, d.s))
  {
    hide Walk, HostWalk, HostAmid, Places, HostPlaces, NarrowAll, Small, Layout;
    var text := TextAt(url, f, HOST);
    var (s, x) := HostWalk(strict, HostBegins(d.x.at), NO_HOST, text);
    HostStarts(NO_FIELDS.With(HOST, Span(0, 0)), 0, d.x.at, "");
    HostWalkKeeps(strict, HostBegins(d.x.at), NO_HOST, text, "");
    assert "" + text == text;
    FoundFieldsFit(f, x, s, text, d);
  }

  // ---- URLs of less than 65536 characters --------------------------------------------------

  /** A caller can make sure of it: a URL of less than 65536 characters fits. */
  lemma ShortUrlsFit(strict: bool, url: string, connect: bool)
    requires |url| < UINT16
    ensures Stored(Decompose(strict, url, connect))
  {
    hide Walk, HostWalk, Shape, Linked, Render, HostAmid;
    var d := Decompose(strict, url, connect);
    PartsMakeUp(strict, url, connect);
    if d.s != Dead {
      PlacesFit(d.x, d.s, url);
      if d.x.server != "" && HostEnds(d.hs) {
        HostPlacesFit(d, url);
      }
    }
  }

  lemma PlacesFit(x: Parts, s: State, url: string)
    requires Render(x, s) == url && |url| < UINT16
    ensures Small(Places(x, s)) && ServerAt(x, s) + |x.server| < UINT16
  {
    hide Render, Colon;
    RenderLength(x, s);
  }

  lemma HostPlacesFit(d: Decomposition, url: string)
    requires Render(d.x, d.s) == url && |url| < UINT16 && d.x.server != "" && HostEnds(d.hs) && HostAmid(d.h, d.hs, d.x.server)
    ensures Small(Layout(d))
  {
    hide Render, ServerAt, HostRender, HostShape, HostLinked, AtSeen, Places;
    PlacesFit(d.x, d.s, url);
    HostLength(d.h, d.hs);
  }

  /** The fields of an accepted URL lie within it and hold the text that was scanned; they are in
      the order of the standard, and none overlaps another. */
  lemma FieldsAreInOrder(strict: bool, url: string, connect: bool, j: Field, k: Field)
    requires |url| < UINT16 && UrlFields(strict, url, connect).Some?
    ensures var d, f := Decompose(strict, url, connect), UrlFields(strict, url, connect).value;
      && (f.Has(k) <==> TextOf(d, k) != "")
      && (f.Has(k) ==> f.At(k).off + f.At(k).len <= |url| && url[f.At(k).off..f.At(k).off + f.At(k).len] == TextOf(d, k))
      && (f.Has(j) && f.Has(k) && Rank(j) < Rank(k) ==> f.At(j).off + f.At(j).len <= f.At(k).off)
  {
    hide UrlFields, Accepted, Decompose, Layout, Stored, TextOf;
    ShortUrlsFit(strict, url, connect);
    StoredAsTheyAre(strict, url, connect);
    LayoutIsInOrder(strict, url, connect, j, k);
  }

  /** What is in no field of an accepted URL is a delimiter. */
  lemma GapsAreDelimiters(strict: bool, url: string, connect: bool, i: nat)
    requires |url| < UINT16 && UrlFields(strict, url, connect).Some? && i < |url|
    requires forall k: Field :: !InField(UrlFields(strict, url, connect).value, k, i)
    ensures url[i] in ":/?#@[]"
  {
    hide UrlFields, Accepted, Decompose, Layout, Stored, InField;
    ShortUrlsFit(strict, url, connect);
    StoredAsTheyAre(strict, url, connect);
    LayoutGaps(strict, url, connect, i);
  }

  // ---- Delimiters in vain ------------------------------------------------------------------

  /** The first place in a text where one of some characters stands, or its length. */
  function First(text: string, stops: string): (n: nat)
    ensures n <= |text| && (n < |text| ==> text[n] in stops) && forall i | 0 <= i < n :: text[i] !in stops
  {
    if text == "" || text[0] in stops then 0
    else
      var n := First(text[1..], stops);
      assert forall i | 0 < i < n + 1 :: text[i] == text[1..][i - 1];
      1 + n
  }

  lemma FirstIs(text: string, stops: string, n: nat)
    requires n <= |text| && (n < |text| ==> text[n] in stops) && forall i | 0 <= i < n :: text[i] !in stops
    ensures First(text, stops) == n
  {
    var m := First(text, stops);
    assert forall i | 0 <= i < m :: text[i] !in stops;
  }

  /** A '?' with no query after it. */
  predicate EmptyQuery(url: string) {
    var q := First(url, "?#");
    q < |url| && url[q] == '?' && (q + 1 == |url| || url[q + 1] == '#')
  }

  /** A '#' with no fragment after it, or with another '#'. */
  predicate EmptyFragment(url: string) {
    var h := First(url, "#");
    h < |url| && (h + 1 == |url| || url[h + 1] == '#')
  }

  /** An '@' where the server part begins. */
  predicate EmptyUserinfo(url: string) {
    url != "" && (url[0] == '@' || (IsLetter(url[0]) && var c := First(url, ":"); c + 4 <= |url| && url[c..c + 4] == "://@"))
  }

  /** The characters of the parts: delimiters are not among them. */
  predicate Clean(x: Parts) {
    && (forall i | 0 <= i < |x.schema| :: IsLetter(x.schema[i]))
    && (forall i | 0 <= i < |x.server| :: x.server[i] !in "/?#")
    && (forall i | 0 <= i < |x.path| :: x.path[i] !in "?#")
    && (forall i | 0 <= i < |x.query| :: x.query[i] != '#')
    && (x.fragment != "" ==> x.fragment[0] != '#')
  }

  /** A server part comes after a schema, or where one must be. */
  predicate Placed(x: Parts, s: State, connect: bool) {
    if connect then x.schema == "" && s !in {SpacesBeforeUrl, Schema, SchemaSlash, SchemaSlashSlash}
    else x.server != "" || s in {ServerStart, Server, ServerWithAt} ==> x.schema != ""
  }

  lemma CharIsClean(strict: bool, s: State, ch: char)
    ensures var r := UrlChar(strict, s, ch);
      && (r == Schema ==> IsLetter(ch)) && (r == Server || r == ServerWithAt ==> ch !in "/?#")
      && (r == Path ==> ch !in "?#") && (r == Query ==> ch != '#') && (s == FragmentStart && r == Fragment ==> ch != '#')
  {
  }

  lemma CleanGrows(strict: bool, x: Parts, s: State, ch: char, connect: bool)
    requires Shape(x, s) && Clean(x) && Placed(x, s, connect) && UrlChar(strict, s, ch) != Dead
    ensures var r := UrlChar(strict, s, ch); Clean(Collect(x, r, ch)) && Placed(Collect(x, r, ch), r, connect)
  {
    hide UrlChar, IsLetter;
    CharIsClean(strict, s, ch);
    UrlFollows(strict, s, ch);
    PlacedGrows(x, s, ch, UrlChar(strict, s, ch), connect);
    hide Placed, Follows;
  }

  lemma PlacedGrows(x: Parts, s: State, ch: char, r: State, connect: bool)
    requires Shape(x, s) && Placed(x, s, connect) && Follows(s, ch, r)
    ensures Placed(Collect(x, r, ch), r, connect)
  {
  }

  lemma {:induction false} WalkIsClean(strict: bool, s: State, x: Parts, url: string, connect: bool)
    requires Shape(x, s) && Linked(x) && Clean(x) && Placed(x, s, connect)
    ensures var (r, y) := Walk(strict, s, x, url); r != Dead ==> Clean(y) && Placed(y, r, connect)
    decreases |url|
  {
    hide Shape, Linked, Clean, Placed, Collect, UrlChar;
    if url != "" {
      var r := UrlChar(strict, s, url[0]);
      if r != Dead {
        CleanGrows(strict, x, s, url[0], connect);
        CollectKeeps(strict, x, s, url[0]);
        WalkIsClean(strict, r, Collect(x, r, url[0]), url[1..], connect);
      } else {
        assert Walk(strict, Dead, Collect(x, Dead, url[0]), url[1..]).0 == Dead;
      }
    }
  }

  /** No '@' within userinfo or host. */
  predicate HostClean(x: HostParts) {
    (forall i | 0 <= i < |x.userinfo| :: x.userinfo[i] != '@') && (forall i | 0 <= i < |x.host| :: x.host[i] != '@')
  }

  lemma HostCharIsClean(strict: bool, s: HostState, ch: char)
    ensures var r := HostChar(strict, s, ch);
      r == Userinfo || r == HostName || r == V6 || r == ZoneStart || r == Zone ==> ch != '@'
  {
  }

  lemma {:induction false} HostWalkIsClean(strict: bool, s: HostState, x: HostParts, text: string)
    requires HostClean(x)
    ensures HostClean(HostWalk(strict, s, x, text).1)
    decreases |text|
  {
    hide HostChar;
    if text != "" && s != HostDead {
      HostCharIsClean(strict, s, text[0]);
      HostWalkIsClean(strict, HostChar(strict, s, text[0]), HostCollect(x, HostChar(strict, s, text[0]), text[0]), text[1..]);
    }
  }

  lemma PartsAreClean(strict: bool, url: string, connect: bool)
    ensures var d := Decompose(strict, url, connect); (d.s != Dead ==> Clean(d.x) && Placed(d.x, d.s, connect)) && HostClean(d.h)
  {
    hide Walk, HostWalk;
    var s := if connect then ServerStart else SpacesBeforeUrl;
    ScanStarts(s, "");
    WalkIsClean(strict, s, NO_PARTS, url, connect);
    var (_, x) := Walk(strict, s, NO_PARTS, url);
    HostWalkIsClean(strict, HostBegins(x.at), NO_HOST, x.server);
  }

  function Front(x: Parts, s: State): string { x.schema + Colon(x, s) + x.server + x.path }

  lemma FrontIsClean(x: Parts, s: State)
    requires Clean(x)
    ensures forall i | 0 <= i < |Front(x, s)| :: Front(x, s)[i] !in "?#"
  {
    forall c | c in Front(x, s) ensures c !in "?#" {
      assert c in x.schema || c in Colon(x, s) || c in x.server || c in x.path;
    }
  }

  lemma AskedIs(front: string, query: string, tail: string, url: string)
    requires url == front + "?" + query + tail && (tail != "" ==> tail[0] == '#')
    requires (forall i | 0 <= i < |front| :: front[i] !in "?#") && forall i | 0 <= i < |query| :: query[i] != '#'
    ensures EmptyQuery(url) <==> query == ""
  {
    FirstIs(url, "?#", |front|);
    if query != "" {
      assert url[|front| + 1] == query[0];
    } else if tail != "" {
      assert url[|front| + 1] == tail[0];
    }
  }

  lemma NotAskedIs(front: string, tail: string, url: string)
    requires url == front + tail && (tail != "" ==> tail[0] == '#') && forall i | 0 <= i < |front| :: front[i] !in "?#"
    ensures !EmptyQuery(url)
  {
    if tail != "" {
      assert url[|front|] == tail[0];
    }
    FirstIs(url, "?#", |front|);
  }

  lemma EmptyQueryIs(x: Parts, s: State, url: string)
    requires Render(x, s) == url && Clean(x) && Linked(x)
    ensures EmptyQuery(url) <==> x.asked && x.query == ""
  {
    FrontIsClean(x, s);
    HashesAt(x.hashes);
    var tail := Hashes(x.hashes) + x.fragment;
    hide EmptyQuery, Hashes, Colon;
    if x.asked {
      assert url == Front(x, s) + "?" + x.query + tail;
      AskedIs(Front(x, s), x.query, tail, url);
    } else {
      assert url == Front(x, s) + tail;
      NotAskedIs(Front(x, s), tail, url);
    }
  }

  lemma HashesAt(n: nat)
    ensures |Hashes(n)| == n && forall i | 0 <= i < n :: Hashes(n)[i] == '#'
  {
  }

  lemma HashedIs(front: string, n: nat, fragment: string, url: string)
    requires url == front + (Hashes(n) + fragment) && (forall i | 0 <= i < |front| :: front[i] != '#')
    requires fragment != "" ==> n > 0 && fragment[0] != '#'
    ensures EmptyFragment(url) <==> n != One(fragment != "")
  {
    HashesAt(n);
    hide Hashes;
    if n > 0 {
      assert url[|front|] == Hashes(n)[0];
    }
    FirstIs(url, "#", |front|);
    if n > 1 {
      assert url[|front| + 1] == Hashes(n)[1];
    } else if n == 1 && fragment != "" {
      assert url[|front| + 1] == fragment[0];
    }
  }

  lemma EmptyFragmentIs(x: Parts, s: State, url: string)
    requires Render(x, s) == url && Clean(x) && Linked(x)
    ensures EmptyFragment(url) <==> x.hashes != One(x.fragment != "")
  {
    FrontIsClean(x, s);
    var front := Front(x, s) + When(x.asked, "?") + x.query;
    assert forall i | 0 <= i < |front| :: front[i] != '#';
    hide Colon, When, Hashes, EmptyFragment;
    assert url == front + (Hashes(x.hashes) + x.fragment);
    HashedIs(front, x.hashes, x.fragment, url);
  }

  /** Whether userinfo is empty can be seen at the start of the server part. */
  lemma EmptyUserinfoInServer(h: HostParts, hs: HostState, server: string)
    requires HostAmid(h, hs, server) && HostEnds(hs) && HostClean(h)
    ensures server != "" && (server[0] == '@' <==> h.at && h.userinfo == "")
  {
    hide Closed;
    HostIsNamed(h, hs);
    var rest := When(h.bracket && Closed(hs), "]") + When(h.colon, ":") + h.port;
    assert server == h.userinfo + When(h.at, "@") + When(h.bracket, "[") + h.host + rest;
    if h.userinfo != "" {
      assert server[0] == h.userinfo[0];
    }
  }

  lemma LettersDelimitNothing(c: char)
    requires IsLetter(c)
    ensures c !in ":/@"
  {
  }

  lemma EmptyUserinfoIs(d: Decomposition, url: string, connect: bool)
    requires WellMade(d, url) && Clean(d.x) && Placed(d.x, d.s, connect) && HostClean(d.h)
    requires connect ==> d.x.server != "" && d.x.path == "" && d.x.query == "" && d.x.fragment == ""
    ensures EmptyUserinfo(url) <==> d.h.at && d.h.userinfo == ""
  {
    hide HostAmid, Hashes, HostClean, Shape, EmptyUserinfo, Clean, IsLetter, Colon, When;
    if d.x.server != "" {
      EmptyUserinfoInServer(d.h, d.hs, d.x.server);
      if d.x.schema != "" {
        AfterSchema(d.x, d.s, url);
      } else {
        ServerFirst(d.x, d.s, url);
      }
    } else {
      PathFirst(d.x, d.s, url);
    }
  }

  lemma RenderRest(x: Parts, s: State)
    requires Colon(x, s) == "://"
    ensures Render(x, s) == x.schema + "://" + x.server + (x.path + When(x.asked, "?") + x.query + Hashes(x.hashes) + x.fragment)
  {
    hide Colon, When, Hashes;
  }

  lemma AfterSchema(x: Parts, s: State, url: string)
    requires x.schema != "" && x.server != "" && Shape(x, s) && Clean(x) && Render(x, s) == url
    ensures EmptyUserinfo(url) <==> x.server[0] == '@'
  {
    assert Colon(x, s) == "://";
    hide Hashes, When, IsLetter, Shape, Colon, EmptyUserinfo, Render;
    RenderRest(x, s);
    SchemaFirst(x.schema, x.server, x.path + When(x.asked, "?") + x.query + Hashes(x.hashes) + x.fragment, url);
  }

  lemma SchemaFirst(schema: string, server: string, rest: string, url: string)
    requires schema != "" && server != "" && url == schema + "://" + server + rest
    requires forall i | 0 <= i < |schema| :: IsLetter(schema[i])
    ensures EmptyUserinfo(url) <==> server[0] == '@'
  {
    hide IsLetter;
    var n := |schema|;
    forall i | 0 <= i < n ensures url[i] == schema[i] && url[i] !in ":/@" {
      LettersDelimitNothing(schema[i]);
    }
    assert url[n] == ':';
    FirstIs(url, ":", n);
    assert url[n..n + 4] == "://" + [server[0]];
    assert ("://" + [server[0]])[3] == server[0];
    assert server[0] == '@' ==> "://" + [server[0]] == "://@";
  }

  lemma ServerFirst(x: Parts, s: State, url: string)
    requires x.schema == "" && x.server != "" && x.path == "" && x.query == "" && x.fragment == ""
    requires Clean(x) && Render(x, s) == url
    ensures EmptyUserinfo(url) <==> x.server[0] == '@'
  {
    hide EmptyUserinfo, IsLetter;
    HashesAt(x.hashes);
    assert url == x.server + (When(x.asked, "?") + Hashes(x.hashes));
    forall c | c in url ensures c != '/' {
      assert c in x.server || c in When(x.asked, "?") || c in Hashes(x.hashes);
    }
    NoSlash(url);
  }

  lemma PathFirst(x: Parts, s: State, url: string)
    requires x.schema == "" && x.server == "" && Shape(x, s) && Linked(x) && Render(x, s) == url
    ensures !EmptyUserinfo(url)
  {
    hide Hashes, When, Shape, Linked;
    RestBegins(x, s, url);
    if url != "" && IsLetter(url[0]) {
      LettersDelimitNothing(url[0]);
      LettersAskNothing(url[0]);
    }
  }

  lemma LettersAskNothing(c: char)
    requires IsLetter(c)
    ensures c !in "*?#"
  {
  }

  lemma NoSlash(url: string)
    requires url != "" && '/' !in url
    ensures EmptyUserinfo(url) <==> url[0] == '@'
  {
    var c := First(url, ":");
    if c + 4 <= |url| {
      assert url[c + 1] == url[c..c + 4][1];
    }
  }

  /** Joining the fields of an accepted URL gives back the URL exactly if no delimiter stands in vain:
      no '?' without a query, no '#' without a fragment or before another '#', no '@' without userinfo. */
  lemma RejoinsExactly(strict: bool, url: string, connect: bool)
    requires |url| < UINT16 && UrlFields(strict, url, connect).Some?
    ensures Rejoin(url, UrlFields(strict, url, connect).value) == url
      <==> !EmptyQuery(url) && !EmptyFragment(url) && !EmptyUserinfo(url)
  {
    hide UrlFields, Walk, HostWalk, Stored, Rejoin, EmptyQuery, EmptyFragment, EmptyUserinfo, PlaceValue;
    var d := Decompose(strict, url, connect);
    ShortUrlsFit(strict, url, connect);
    StoredAsTheyAre(strict, url, connect);
    LayoutRejoins(strict, url, connect);
    AcceptedIsWellMade(strict, url, connect);
    PartsAreClean(strict, url, connect);
    ConnectNames(d);
    hide Layout, Clean, Placed, HostClean, Shape, Linked, Render, HostAmid;
    EmptyQueryIs(d.x, d.s, url);
    EmptyFragmentIs(d.x, d.s, url);
    EmptyUserinfoIs(d, url, connect);
  }

  lemma ConnectNames(d: Decomposition)
    ensures OnlyHostAndPort(Layout(d)) ==> d.x.server != "" && d.x.path == "" && d.x.query == "" && d.x.fragment == ""
  {
  }

  lemma WalkStep(strict: bool, s: State, x: Parts, text: string, rest: string)
    requires s != Dead && text != "" && text[1..] == rest
    ensures Walk(strict, s, x, text)
      == Walk(strict, UrlChar(strict, s, text[0]), Collect(x, UrlChar(strict, s, text[0]), text[0]), rest)
  {
    hide UrlChar, Collect;
  }

  /** One more character of a path, or the '?' after it. */
  lemma PathStep(strict: bool, s: State, done: string, ch: char, rest: string)
    requires (s == Path && (ch == 'a' || ch == '?')) || (s == SpacesBeforeUrl && ch == '/')
    ensures var x, r := NO_PARTS.(path := done), if ch == '?' then QueryStart else Path;
      Walk(strict, s, x, [ch] + rest) == Walk(strict, r, if ch == '?' then x.(asked := true) else x.(path := done + [ch]), rest)
  {
    assert ([ch] + rest)[1..] == rest;
    WalkStep(strict, s, NO_PARTS.(path := done), [ch] + rest, rest);
    hide Walk;
  }

  lemma PathAlone(strict: bool)
    ensures Walk(strict, SpacesBeforeUrl, NO_PARTS, "/a?") == (QueryStart, NO_PARTS.(path := "/a", asked := true))
  {
    var end := NO_PARTS.(path := "/a", asked := true);
    assert Walk(strict, QueryStart, end, "") == (QueryStart, end);
    hide Walk;
    PathStep(strict, SpacesBeforeUrl, "", '/', "a?");
    PathStep(strict, Path, "/", 'a', "?");
    PathStep(strict, Path, "/a", '?', "");
    assert ['/'] + "a?" == "/a?" && ['a'] + "?" == "a?" && ['?'] + "" == "?" && "" + ['/'] == "/" && "/" + ['a'] == "/a";
  }

  lemma PathAloneRejoined()
    ensures Rejoin("/a?", NO_FIELDS.(path := Some(Span(0, 2)))) == "/a"
  {
    assert TextAt("/a?", NO_FIELDS.(path := Some(Span(0, 2))), PATH) == "/a";
  }

  /** A URL that is accepted, and that its only field does not give back. */
  lemma EmptyQueryIsLost(strict: bool)
    ensures UrlFields(strict, "/a?", false) == Some(NO_FIELDS.(path := Some(Span(0, 2))))
    ensures Rejoin("/a?", NO_FIELDS.(path := Some(Span(0, 2)))) == "/a"
  {
    PathAlone(strict);
    PathAloneRejoined();
    hide Walk, UrlFields, Rejoin;
    PathAndQuery(strict, "/a?", QueryStart, NO_PARTS.(path := "/a", asked := true));
  }

  // ---- A port with a digit behind it -------------------------------------------------------

  lemma HostWalkStep(strict: bool, s: HostState, x: HostParts, text: string, rest: string)
    requires s != HostDead && text != "" && text[1..] == rest
    ensures HostWalk(strict, s, x, text)
      == HostWalk(strict, HostChar(strict, s, text[0]), HostCollect(x, HostChar(strict, s, text[0]), text[0]), rest)
  {
    hide HostChar, HostCollect;
  }

  lemma HostAndPortScanned(strict: bool)
    ensures Walk(strict, ServerStart, NO_PARTS, "h:1") == (Server, NO_PARTS.(server := "h:1"))
  {
    var x, y, z := NO_PARTS.(server := "h"), NO_PARTS.(server := "h:"), NO_PARTS.(server := "h:1");
    assert UrlChar(strict, ServerStart, 'h') == Server && UrlChar(strict, Server, ':') == Server && UrlChar(strict, Server, '1') == Server;
    assert "" + ['h'] == "h" && "h" + [':'] == "h:" && "h:" + ['1'] == "h:1";
    assert Collect(NO_PARTS, Server, 'h') == x && Collect(x, Server, ':') == y && Collect(y, Server, '1') == z;
    assert Walk(strict, Server, z, "") == (Server, z);
    hide UrlChar, Walk, Collect;
    WalkStep(strict, ServerStart, NO_PARTS, "h:1", ":1");
    WalkStep(strict, Server, x, ":1", "1");
    WalkStep(strict, Server, y, "1", "");
  }

  lemma HostAndPortSplit(strict: bool)
    ensures HostWalk(strict, HostStart, NO_HOST, "h:1") == (Port, NO_HOST.(host := "h", colon := true, port := "1"))
  {
    var x := NO_HOST.(host := "h");
    var y, z := x.(colon := true), x.(colon := true, port := "1");
    assert HostChar(strict, HostStart, 'h') == HostName && HostChar(strict, HostName, ':') == PortStart;
    assert HostChar(strict, PortStart, '1') == Port;
    assert "" + ['h'] == "h" && "" + ['1'] == "1";
    assert HostCollect(NO_HOST, HostName, 'h') == x && HostCollect(x, PortStart, ':') == y && HostCollect(y, Port, '1') == z;
    assert HostWalk(strict, Port, z, "") == (Port, z);
    hide HostChar, HostWalk, HostCollect;
    HostWalkStep(strict, HostStart, NO_HOST, "h:1", ":1");
    HostWalkStep(strict, HostName, x, ":1", "1");
    HostWalkStep(strict, PortStart, y, "1", "");
  }

  const HOST_AND_PORT := NO_FIELDS.(host := Some(Span(0, 1)), port := Some(Span(2, 1)))

  lemma HostAndPort(strict: bool)
    ensures UrlFields(strict, "h:1", true) == Some(HOST_AND_PORT)
  {
    var x, h := NO_PARTS.(server := "h:1"), NO_HOST.(host := "h", colon := true, port := "1");
    HostAndPortScanned(strict);
    HostAndPortSplit(strict);
    ShortUrlsFit(strict, "h:1", true);
    hide Walk, HostWalk, UrlFields, Stored;
    assert Decompose(strict, "h:1", true) == Decomposition(x, Server, h, Port);
    HostAndPortAccepted(Decomposition(x, Server, h, Port));
    hide Decompose, Accepted, Layout;
    StoredAsTheyAre(strict, "h:1", true);
  }

  lemma HostAndPortAccepted(d: Decomposition)
    requires d == Decomposition(NO_PARTS.(server := "h:1"), Server, NO_HOST.(host := "h", colon := true, port := "1"), Port)
    ensures Accepted(d, true) && Layout(d) == HOST_AND_PORT
  {
    OneDigit(d.h.port);
    hide PlaceValue, AreDigits;
    assert Layout(d) == HOST_AND_PORT;
  }

  lemma OneDigit(v: string)
    requires v == "1" || v == "12"
    ensures AreDigits(v, 10) && PlaceValue(v, 10) == if v == "1" then 1 else 12
  {
    assert "12"[..1] == "1" && "1"[..0] == "" && PlaceValue("", 10) == 0;
    assert PlaceValue("1", 10) == 1;
  }

  lemma TwelveIsRead()
    ensures PortDigits("h:1", HOST_AND_PORT, "2") == "12"
  {
    assert TextAt("h:1", HOST_AND_PORT, PORT) == "1" && Digits("2") == 1 && "2"[..1] == "2";
  }

  /** The port of "h:1" where a '2' follows in the buffer. */
  lemma DigitBehindIsRead(strict: bool)
    ensures UrlFields(strict, "h:1", true) == Some(HOST_AND_PORT)
    ensures UrlFieldsIn(strict, "h:1", true, "h:1" + "2") == Some(HOST_AND_PORT) && UrlPort("h:1" + "2", HOST_AND_PORT) == 12
  {
    HostAndPort(strict);
    TwelveIsRead();
    OneDigit("12");
    hide UrlFields, UrlFieldsIn, UrlPort, PortDigits, PlaceValue, AreDigits;
    PortsInBuffers(strict, "h:1", true, "2");
  }

  // ---- A URL of 65536 characters -----------------------------------------------------------

  function Repeat(n: nat): string { seq(n, i => 'a') }

  lemma {:induction false} PathGoesOn(strict: bool, n: nat, x: Parts, rest: string)
    ensures Walk(strict, Path, x, Repeat(n) + rest) == Walk(strict, Path, x.(path := x.path + Repeat(n)), rest)
    decreases n
  {
    if n == 0 {
      assert Repeat(0) + rest == rest && x.path + Repeat(0) == x.path;
    } else {
      var text := Repeat(n) + rest;
      assert text[0] == 'a' && text[1..] == Repeat(n - 1) + rest;
      assert UrlChar(strict, Path, 'a') == Path;
      PathGoesOn(strict, n - 1, Collect(x, Path, 'a'), rest);
      assert x.path + ['a'] + Repeat(n - 1) == x.path + Repeat(n);
    }
  }

  lemma LongPathWalk(strict: bool, n: nat, rest: string)
    requires rest == "" || rest == "?x"
    ensures Walk(strict, SpacesBeforeUrl, NO_PARTS, "/" + Repeat(n) + rest)
      == if rest == "" then (Path, NO_PARTS.(path := "/" + Repeat(n)))
         else (Query, NO_PARTS.(path := "/" + Repeat(n), asked := true, query := "x"))
  {
    var url, x := "/" + Repeat(n) + rest, NO_PARTS.(path := "/" + Repeat(n));
    assert url[1..] == Repeat(n) + rest;
    assert UrlChar(strict, SpacesBeforeUrl, '/') == Path && Collect(NO_PARTS, Path, '/') == NO_PARTS.(path := "/");
    hide Repeat, UrlChar;
    PathGoesOn(strict, n, NO_PARTS.(path := "/"), rest);
    if rest == "?x" {
      QueryOfOne(strict, x);
    }
  }

  lemma QueryOfOne(strict: bool, x: Parts)
    requires x.query == ""
    ensures Walk(strict, Path, x, "?x") == (Query, x.(asked := true, query := "x"))
  {
    assert UrlChar(strict, Path, '?') == QueryStart && UrlChar(strict, QueryStart, 'x') == Query;
    hide UrlChar;
    assert "?x"[1..] == "x" && "x"[1..] == "" && "" + ['x'] == "x";
    assert Walk(strict, Path, x, "?x") == Walk(strict, QueryStart, x.(asked := true), "x");
    assert Walk(strict, QueryStart, x.(asked := true), "x") == Walk(strict, Query, x.(asked := true, query := "x"), "");
  }

  /** The fields of a URL that is only a path and a query. */
  lemma PathAndQuery(strict: bool, url: string, s: State, x: Parts)
    requires Walk(strict, SpacesBeforeUrl, NO_PARTS, url) == (s, x) && s != Dead
    requires x == NO_PARTS.(path := x.path, asked := x.asked, query := x.query)
    ensures UrlFields(strict, url, false) == Some(NarrowAll(NO_FIELDS.(
      path := Place(0, x.path), query := Place(|x.path| + One(x.asked), x.query))))
  {
    hide Walk;
  }

  /** One character more than fits, and the path is stored as empty; a query after it, as if it were
      the second character of the path. */
  lemma LongPathsWrapAround(strict: bool)
    ensures UrlFields(strict, "/" + Repeat(UINT16 - 1), false) == Some(NO_FIELDS.(path := Some(Span(0, 0))))
    ensures UrlFields(strict, "/" + Repeat(UINT16 - 1) + "?x", false)
      == Some(NO_FIELDS.(path := Some(Span(0, 0)), query := Some(Span(1, 1))))
  {
    hide Walk, UrlFields, Repeat;
    var path := "/" + Repeat(UINT16 - 1);
    assert |path| == UINT16 by { RepeatLength(UINT16 - 1); }
    LongPathWalk(strict, UINT16 - 1, "");
    assert path + "" == path;
    PathAndQuery(strict, path, Path, NO_PARTS.(path := path));
    LongPathWalk(strict, UINT16 - 1, "?x");
    PathAndQuery(strict, path + "?x", Query, NO_PARTS.(path := path, asked := true, query := "x"));
  }

  lemma RepeatLength(n: nat)
    ensures |Repeat(n)| == n
  {
  }
}
