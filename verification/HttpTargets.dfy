/**
 Which URLs a request may carry: the states that parse_url_char goes through, as a grammar.
 */
module HttpTargets {
  import opened HttpChars
  import opened HttpParser
  import opened HttpWalk

  // ---- The grammar -------------------------------------------------------------------------

  /** What may follow a path: more of it, a query and a fragment. */
  predicate IsTailChar(strict: bool, ch: char) { IsUrlChar(strict, ch) || ch == '?' || ch == '#' }

  predicate IsTail(strict: bool, t: string) { forall i | 0 <= i < |t| :: IsTailChar(strict, t[i]) }

  predicate IsServerChar(ch: char) { IsUserinfoChar(ch) || ch == '[' || ch == ']' || ch == '@' }

  /** A server and what comes before it in a URL: no two of '@' next to each other. */
  predicate IsServer(s: string) {
    (forall i | 0 <= i < |s| :: IsServerChar(s[i])) && (forall i | 0 < i < |s| :: !(s[i - 1] == '@' && s[i] == '@'))
  }

  predicate IsScheme(s: string) { s != "" && forall i | 0 <= i < |s| :: IsLetter(s[i]) }

  /** A slash or a star and what may follow. */
  predicate IsOrigin(strict: bool, url: string) { url != "" && (url[0] == '/' || url[0] == '*') && IsTail(strict, url[1..]) }

  /** A server of j characters, and a path or a query behind it if anything. */
  predicate IsServed(strict: bool, t: string, j: nat) {
    j <= |t| && IsServer(t[..j]) && (j < |t| ==> (t[j] == '/' || t[j] == '?') && IsTail(strict, t[j + 1..]))
  }

  /** A scheme, "://", and not nothing. The server may be empty if a path or a query follows. */
  predicate IsAbsolute(strict: bool, url: string, i: nat, j: nat) {
    i + 3 < |url| && IsScheme(url[..i]) && url[i..i + 3] == "://" && IsServed(strict, url[i + 3..], j)
  }

  // ---- Paths -------------------------------------------------------------------------------

  lemma TailStep(strict: bool, s: State, ch: char)
    requires s in {Path, QueryStart, Query, FragmentStart, Fragment}
    ensures if IsTailChar(strict, ch) then UrlChar(strict, s, ch) in {Path, QueryStart, Query, FragmentStart, Fragment}
      else UrlChar(strict, s, ch) == Dead
  {
    UrlCharsAreNotSpaces(strict, ch);
    hide IsUrlChar;
  }

  lemma {:induction false} TailRun(strict: bool, s: State, t: string)
    requires s in {Path, QueryStart, Query, FragmentStart, Fragment}
    ensures EndsUrl(UrlRun(strict, s, t)) <==> IsTail(strict, t)
    decreases |t|
  {
    hide IsTailChar, UrlChar;
    if t != "" {
      TailStep(strict, s, t[0]);
      assert t == [t[0]] + t[1..];
      if IsTailChar(strict, t[0]) {
        TailRun(strict, UrlChar(strict, s, t[0]), t[1..]);
        if IsTail(strict, t[1..]) {
          forall i | 0 <= i < |t| ensures IsTailChar(strict, t[i]) {
            if i > 0 {
              assert t[i] == t[1..][i - 1];
            }
          }
        }
      } else {
        DeadStays(strict, t[1..]);
      }
    }
  }

  // ---- Servers -----------------------------------------------------------------------------

  predicate AtServer(s: State) { s in {ServerStart, Server, ServerWithAt} }

  lemma ServerStep(strict: bool, s: State, ch: char)
    requires AtServer(s)
    ensures UrlChar(strict, s, ch) ==
      if ch == '/' then Path
      else if ch == '?' then QueryStart
      else if !IsServerChar(ch) || (ch == '@' && s == ServerWithAt) then Dead
      else if ch == '@' then ServerWithAt
      else Server
  {
  }

  /** Reading t from one of the states in a server. */
  ghost predicate ServedFrom(strict: bool, s: State, t: string) {
    && (t == "" ==> s != ServerStart)
    && (exists j: nat :: IsServed(strict, t, j) && !(j > 0 && t[0] == '@' && s == ServerWithAt))
  }

  lemma FirstServed(strict: bool, s: State, t: string)
    requires AtServer(s) && t != ""
    ensures t[0] == '/' || t[0] == '?' ==> (ServedFrom(strict, s, t) <==> IsTail(strict, t[1..]))
    ensures t[0] != '/' && t[0] != '?' ==>
      (ServedFrom(strict, s, t) <==>
        && IsServerChar(t[0]) && !(t[0] == '@' && s == ServerWithAt)
        && ServedFrom(strict, if t[0] == '@' then ServerWithAt else Server, t[1..]))
  {
    hide IsTail;
    var next := if t[0] == '@' then ServerWithAt else Server;
    if ServedFrom(strict, s, t) {
      var j: nat :| IsServed(strict, t, j) && !(j > 0 && t[0] == '@' && s == ServerWithAt);
      if j > 0 {
        assert IsServerChar(t[..j][0]);
        OneServedLess(strict, t, j);
        if j > 1 {
          assert t[..j][0] == t[0] && t[..j][1] == t[1];
        }
      }
    }
    if t[0] == '/' || t[0] == '?' {
      if IsTail(strict, t[1..]) {
        assert IsServed(strict, t, 0);
      }
    } else if IsServerChar(t[0]) && !(t[0] == '@' && s == ServerWithAt) && ServedFrom(strict, next, t[1..]) {
      var j: nat :| IsServed(strict, t[1..], j) && !(j > 0 && t[1..][0] == '@' && next == ServerWithAt);
      OneServedMore(strict, t, j);
    }
  }

  lemma OneServedLess(strict: bool, t: string, j: nat)
    requires 0 < j && IsServed(strict, t, j)
    ensures IsServed(strict, t[1..], j - 1)
  {
    hide IsTail, IsServerChar;
    var rest, whole := t[1..], t[..j];
    var part := rest[..j - 1];
    forall i | 0 <= i < |part| ensures IsServerChar(part[i]) {
      assert part[i] == whole[i + 1];
    }
    forall i | 0 < i < |part| ensures !(part[i - 1] == '@' && part[i] == '@') {
      assert part[i] == whole[i + 1] && part[i - 1] == whole[i];
    }
    if j < |t| {
      assert rest[j - 1] == t[j] && rest[j..] == t[j + 1..];
    }
  }

  lemma OneServedMore(strict: bool, t: string, j: nat)
    requires t != "" && IsServerChar(t[0]) && IsServed(strict, t[1..], j) && !(t[0] == '@' && j > 0 && t[1] == '@')
    ensures IsServed(strict, t, j + 1)
  {
    hide IsTail, IsServerChar;
    var rest, whole := t[1..], t[..j + 1];
    forall i | 0 <= i < |whole| ensures IsServerChar(whole[i]) {
      if i > 0 {
        assert whole[i] == rest[..j][i - 1];
      }
    }
    forall i | 0 < i < |whole| ensures !(whole[i - 1] == '@' && whole[i] == '@') {
      if i > 1 {
        assert whole[i] == rest[..j][i - 1] && whole[i - 1] == rest[..j][i - 2];
      }
    }
    if j + 1 < |t| {
      assert rest[j] == t[j + 1] && rest[j + 1..] == t[j + 2..];
    }
  }

  lemma {:induction false} ServerRun(strict: bool, s: State, t: string)
    requires AtServer(s)
    ensures EndsUrl(UrlRun(strict, s, t)) <==> ServedFrom(strict, s, t)
    decreases |t|
  {
    hide UrlChar, IsTail, IsServerChar;
    if t == "" {
      assert IsServed(strict, t, 0);
    } else {
      hide ServedFrom;
      ServerStep(strict, s, t[0]);
      FirstServed(strict, s, t);
      var next := UrlChar(strict, s, t[0]);
      if next == Dead {
        DeadStays(strict, t[1..]);
      } else if t[0] == '/' || t[0] == '?' {
        TailRun(strict, next, t[1..]);
      } else {
        ServerRun(strict, next, t[1..]);
      }
    }
  }

  // ---- Schemes -----------------------------------------------------------------------------

  lemma {:induction false} SchemeRun(strict: bool, s: string, rest: string)
    requires forall i | 0 <= i < |s| :: IsLetter(s[i])
    ensures UrlRun(strict, Schema, s + rest) == UrlRun(strict, Schema, rest)
    decreases |s|
  {
    hide IsLetter;
    if s == "" {
      assert s + rest == rest;
    } else {
      LetterStep(strict, s[0]);
      assert (s + rest)[0] == s[0] && (s + rest)[1..] == s[1..] + rest;
      SchemeRun(strict, s[1..], rest);
    }
  }

  lemma LetterStep(strict: bool, ch: char)
    ensures UrlChar(strict, Schema, ch) == if IsLetter(ch) then Schema else if ch == ':' then SchemaSlash else Dead
    ensures UrlChar(strict, SpacesBeforeUrl, ch) == if ch == '/' || ch == '*' then Path else if IsLetter(ch) then Schema else Dead
    ensures IsLetter(ch) ==> ch != ':' && ch != '/' && ch != '*'
    ensures UrlChar(strict, SchemaSlash, ch) == if ch == '/' then SchemaSlashSlash else Dead
    ensures UrlChar(strict, SchemaSlashSlash, ch) == if ch == '/' then ServerStart else Dead
  {
  }

  lemma Slashes(strict: bool, t: string)
    ensures UrlRun(strict, Schema, "://" + t) == UrlRun(strict, ServerStart, t)
  {
    hide UrlChar;
    LetterStep(strict, ':');
    LetterStep(strict, '/');
    assert ("://" + t)[1..] == "//" + t && ("//" + t)[1..] == "/" + t && ("/" + t)[1..] == t;
    assert UrlRun(strict, Schema, "://" + t) == UrlRun(strict, SchemaSlash, "//" + t);
    assert UrlRun(strict, SchemaSlash, "//" + t) == UrlRun(strict, SchemaSlashSlash, "/" + t);
  }

  /** How many letters a text begins with. */
  function Letters(t: string): (n: nat)
    ensures n <= |t| && (forall i | 0 <= i < n :: IsLetter(t[i])) && (n < |t| ==> !IsLetter(t[n]))
  {
    if t == "" || !IsLetter(t[0]) then 0 else 1 + Letters(t[1..])
  }

  /** A colon and two slashes must follow the letters. */
  lemma NeedsSlashes(strict: bool, t: string)
    requires |t| < 3 || t[..3] != "://"
    requires t != "" ==> !IsLetter(t[0])
    ensures !EndsUrl(UrlRun(strict, Schema, t))
  {
    hide UrlChar, IsLetter;
    if t != "" {
      LetterStep(strict, t[0]);
      DeadStays(strict, t[1..]);
      if t[0] == ':' {
        var u := t[1..];
        assert |t| >= 3 ==> t[..3] == [t[0]] + [t[1]] + [t[2]] && t[1] == u[0] && t[2] == u[1];
        NeedsTwoSlashes(strict, u);
      }
    }
  }

  lemma NeedsTwoSlashes(strict: bool, u: string)
    requires |u| < 2 || u[0] != '/' || u[1] != '/'
    ensures !EndsUrl(UrlRun(strict, SchemaSlash, u))
  {
    hide UrlChar, IsLetter;
    if u != "" {
      LetterStep(strict, u[0]);
      DeadStays(strict, u[1..]);
      if u[0] == '/' && |u| > 1 {
        var w := u[1..];
        LetterStep(strict, w[0]);
        DeadStays(strict, w[1..]);
        assert UrlRun(strict, SchemaSlashSlash, w) == Dead;
      }
    }
  }

  // ---- The theorem -------------------------------------------------------------------------

  lemma OnlyLetters(strict: bool, url: string, i: nat, j: nat)
    requires IsAbsolute(strict, url, i, j)
    ensures i == Letters(url)
  {
    var n := Letters(url);
    assert url[i] == url[i..i + 3][0] == ':';
    forall k | 0 <= k < i ensures IsLetter(url[k]) {
      assert url[..i][k] == url[k];
    }
    hide Letters;
  }

  lemma AbsoluteRun(strict: bool, url: string)
    requires url != "" && IsLetter(url[0])
    ensures EndsUrl(UrlRun(strict, SpacesBeforeUrl, url)) <==> exists i: nat, j: nat :: IsAbsolute(strict, url, i, j)
  {
    hide UrlChar, IsLetter, IsServed;
    var n := Letters(url);
    LetterStep(strict, url[0]);
    assert n > 0;
    var t := url[n..];
    assert url[1..] == url[1..n] + t;
    SchemeRun(strict, url[1..n], t);
    if |t| >= 3 && t[..3] == "://" {
      assert t == "://" + t[3..];
      Slashes(strict, t[3..]);
      ServerRun(strict, ServerStart, t[3..]);
      assert t[3..] == url[n + 3..] && url[n..n + 3] == "://";
      if exists i: nat, j: nat :: IsAbsolute(strict, url, i, j) {
        var i: nat, j: nat :| IsAbsolute(strict, url, i, j);
        OnlyLetters(strict, url, i, j);
      }
      if ServedFrom(strict, ServerStart, t[3..]) {
        var j: nat :| IsServed(strict, t[3..], j);
        assert IsAbsolute(strict, url, n, j);
      }
    } else {
      NeedsSlashes(strict, t);
      assert |t| >= 3 ==> t[..3] == url[n..n + 3];
      if exists i: nat, j: nat :: IsAbsolute(strict, url, i, j) {
        var i: nat, j: nat :| IsAbsolute(strict, url, i, j);
        OnlyLetters(strict, url, i, j);
        assert false;
      }
    }
  }

  /** A request may carry exactly these: a path with what follows it, or a scheme, "://" and a server with what
      follows that; and if it is a CONNECT, a server with what follows that. */
  lemma ReadableTargets(strict: bool, m: Method, url: string)
    ensures UrlReadable(strict, m, url) <==>
      if m == CONNECT then url != "" && exists j: nat :: IsServed(strict, url, j)
      else IsOrigin(strict, url) || exists i: nat, j: nat :: IsAbsolute(strict, url, i, j)
  {
    if m == CONNECT {
      hide UrlChar, IsServed, EndsUrl;
      ServerRun(strict, ServerStart, url);
      if exists j: nat :: IsServed(strict, url, j) {
        var j: nat :| IsServed(strict, url, j);
      }
    } else {
      OtherTargets(strict, url);
    }
  }

  lemma OtherTargets(strict: bool, url: string)
    ensures url != "" && EndsUrl(UrlRun(strict, SpacesBeforeUrl, url)) <==>
      IsOrigin(strict, url) || exists i: nat, j: nat :: IsAbsolute(strict, url, i, j)
  {
    hide IsLetter, UrlChar, IsServed, IsTail, EndsUrl;
    if url != "" {
      LetterStep(strict, url[0]);
      if url[0] == '/' || url[0] == '*' {
        TailRun(strict, Path, url[1..]);
      } else if IsLetter(url[0]) {
        AbsoluteRun(strict, url);
      } else {
        DeadStays(strict, url[1..]);
        DeadIsNoEnd();
        if exists i: nat, j: nat :: IsAbsolute(strict, url, i, j) {
          var i: nat, j: nat :| IsAbsolute(strict, url, i, j);
          BeginsWithScheme(strict, url, i, j);
          assert false;
        }
      }
    }
  }

  lemma BeginsWithScheme(strict: bool, url: string, i: nat, j: nat)
    requires IsAbsolute(strict, url, i, j)
    ensures IsLetter(url[0])
  {
    assert url[..i][0] == url[0];
  }

  lemma DeadIsNoEnd()
    ensures !EndsUrl(Dead)
  {
  }
}
