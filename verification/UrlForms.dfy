// What internal/urlx/profile_url.go accepts, written out as forms of the text
// instead of as a parser.

module UrlForms {
  import opened Domain
  import opened ProfileUrl

  // ---------------------------------------------------------------------------
  // Hosts

  // ([a-z]{2,3}\.)?(www\.|m\.)?linkedin\.com
  ghost predicate LinkedInName(name: string) {
    exists locale, sub :: name == locale + sub + "linkedin.com" && LocalePart(locale) && sub in {"", "www.", "m."}
  }

  predicate LocalePart(s: string) {
    s == "" || (3 <= |s| <= 4 && s[|s| - 1] == '.' && forall i :: 0 <= i < |s| - 1 ==> 'a' <= s[i] <= 'z')
  }

  lemma MatchesIff(name: string)
    ensures MatchesHost(name) <==> LinkedInName(name)
  {
    if MatchesHost(name) {
      MatchedIsName(name);
    }
    if locale, sub :| name == locale + sub + "linkedin.com" && LocalePart(locale) && sub in {"", "www.", "m."} {
      NameMatches(name, locale, sub);
    }
  }

  lemma MatchedIsName(name: string)
    requires MatchesHost(name)
    ensures LinkedInName(name)
  {
    var p := name[..|name| - |DOMAIN|];
    assert name == p + "linkedin.com";
    var n := if IsSub(p) then 0 else if |p| >= 3 && IsLocale(p[..3]) && IsSub(p[3..]) then 3 else 4;
    assert p == p[..n] + p[n..];
    assert LocalePart(p[..n]) && p[n..] in {"", "www.", "m."};
  }

  lemma NameMatches(name: string, locale: string, sub: string)
    requires name == locale + sub + "linkedin.com" && LocalePart(locale) && sub in {"", "www.", "m."}
    ensures MatchesHost(name)
  {
    var n := |name| - |DOMAIN|;
    assert name[n..] == "linkedin.com" && name[..n] == locale + sub;
    if locale == "" {
      assert locale + sub == sub;
    } else {
      assert (locale + sub)[..|locale|] == locale && (locale + sub)[|locale|..] == sub;
    }
  }

  // What comes before the first colon.
  ghost predicate NameOf(host: string, name: string) {
    ':' !in name && (host == name || exists port :: host == name + ":" + port)
  }

  lemma HostIff(host: string)
    ensures IsLinkedInHost(host) <==> exists name :: NameOf(ToLower(host), name) && LinkedInName(name)
  {
    hide ToLower, MatchesHost, LinkedInName, Cut;
    var lower := ToLower(host);
    var name := Cut(lower, ':').0;
    CutParts(lower, ':');
    MatchesIff(name);
    assert NameOf(lower, name);
    forall other | NameOf(lower, other) ensures other == name {
      if lower == other {
        CutNothing(lower, ':');
      } else {
        var port :| lower == other + ":" + port;
        CutAt(other, ':', port);
      }
    }
  }

  lemma CutParts(s: string, c: char)
    ensures var (a, b, found) := Cut(s, c);
            c !in a && (found <==> c in s) && s == if found then a + [c] + b else a
  {
  }

  lemma CutLastParts(s: string, c: char)
    ensures var (a, b, found) := CutLast(s, c);
            c !in b && (found <==> c in s) && s == if found then a + [c] + b else b
  {
  }

  lemma CutLastAt(a: string, c: char, b: string)
    requires c !in b
    ensures CutLast(a + [c] + b, c) == (a, b, true)
  {
    hide LastIndex;
    var s := a + [c] + b;
    var i := LastIndex(s, c);
    assert s[|a|] == c;
    forall k | i < k < |s| ensures s[k] != c {
      assert s[i + 1..][k - i - 1] == s[k];
    }
    forall k | |a| < k < |s| ensures s[k] != c {
      assert s[k] == b[k - |a| - 1];
    }
    assert s[..|a|] == a && s[|a| + 1..] == b;
  }

  // ---------------------------------------------------------------------------
  // User information and authority

  predicate UserText(s: string) {
    forall i :: 0 <= i < |s| ==> IsAlnum(s[i]) || s[i] in "-._:~!$&'()*+,;=%@"
  }

  lemma {:induction false} DecodesInParts(a: string, b: string)
    ensures Unescape(a + ":" + b).Some? <==> Unescape(a).Some? && Unescape(b).Some?
  {
    var s := a + ":" + b;
    if a == "" {
      assert s[1..] == b;
    } else {
      assert s[0] == a[0];
      if a[0] != '%' {
        assert s[1..] == a[1..] + ":" + b;
        DecodesInParts(a[1..], b);
      } else if |a| >= 3 {
        assert s[1] == a[1] && s[2] == a[2] && s[3..] == a[3..] + ":" + b;
        DecodesInParts(a[3..], b);
      } else {
        assert s[|a|] == ':';
      }
    }
  }

  lemma UserinfoIff(user: string)
    ensures ValidUserinfo(user) <==> UserText(user) && Unescape(user).Some?
  {
    hide Unescape, Cut;
    CutParts(user, ':');
    var parts := Cut(user, ':');
    if parts.2 {
      DecodesInParts(parts.0, parts.1);
    } else {
      CutNothing(user, ':');
      assert Unescape("").Some? by { EmptyDecodes(); }
    }
  }

  lemma EmptyDecodes()
    ensures Unescape("") == Some("")
  {
  }

  // The user part ends with its last at sign.
  predicate UserPart(user: string) {
    user == "" || (user[|user| - 1] == '@' && UserText(user[..|user| - 1]) && Unescape(user[..|user| - 1]).Some?)
  }

  // What stands after the last colon of a host is a port.
  predicate PortIsDigits(host: string) { ':' in host ==> AllDigits(CutLast(host, ':').1) }

  ghost predicate HostPart(host: string) {
    && '@' !in host && PortIsDigits(host) && UnescapeHost(host).Some?
    && exists name :: NameOf(ToLower(UnescapeHost(host).value), name) && LinkedInName(name)
  }

  lemma NameIsNotBracketed(host: string, name: string)
    requires host != "" && host[0] == '[' && UnescapeHost(host).Some? && NameOf(ToLower(UnescapeHost(host).value), name)
    ensures !LinkedInName(name)
  {
    var decoded := UnescapeHost(host).value;
    assert decoded[0] == '[';
    if |decoded| >= 3 { assert decoded[..3][0] == '['; }
    if |decoded| >= 2 { assert decoded[..2][0] == '['; }
    assert ToLower(decoded)[0] == '[';
    NameStartsPlain(name);
  }

  lemma NameStartsPlain(name: string)
    ensures LinkedInName(name) ==> name != "" && 'a' <= name[0] <= 'z'
  {
    if locale, sub :| name == locale + sub + "linkedin.com" && LocalePart(locale) && sub in {"", "www.", "m."} {
      assert name[0] == if locale != "" then locale[0] else if sub != "" then sub[0] else 'l';
    }
  }

  // An authority of a LinkedIn host, part by part.
  lemma AuthorityIff(authority: string)
    ensures (ParseAuthority(authority).Some? && IsLinkedInHost(ParseAuthority(authority).value))
       <==> exists user, host :: authority == user + host && UserPart(user) && HostPart(host)
  {
    hide UnescapeHost, ToLower, ValidUserinfo, IsLinkedInHost, CutLast, LinkedInName, UserText, Unescape, NameOf;
    var at := CutLast(authority, '@');
    CutLastParts(authority, '@');
    HostPartIff(at.1);
    UserinfoIff(at.0);
    if ParseAuthority(authority).Some? && IsLinkedInHost(ParseAuthority(authority).value) {
      var user := if at.2 then at.0 + "@" else "";
      assert authority == user + at.1;
      assert at.2 ==> user[..|user| - 1] == at.0;
      assert UserPart(user) && HostPart(at.1);
    }
    if user, host :| authority == user + host && UserPart(user) && HostPart(host) {
      HostPartIff(host);
      if user == "" {
        assert authority == host;
        CutNothing(authority, '@');
      } else {
        var u := user[..|user| - 1];
        assert authority == u + ['@'] + host;
        CutLastAt(u, '@', host);
        UserinfoIff(u);
      }
    }
  }

  lemma HostPartIff(host: string)
    requires '@' !in host
    ensures HostPart(host) <==> ParseHost(host).Some? && IsLinkedInHost(ParseHost(host).value)
  {
    hide UnescapeHost, ToLower, IsLinkedInHost, CutLast, LinkedInName, NameOf;
    CutLastParts(host, ':');
    if UnescapeHost(host).Some? {
      HostIff(UnescapeHost(host).value);
      if HostPart(host) && host != "" && host[0] == '[' {
        var name :| NameOf(ToLower(UnescapeHost(host).value), name) && LinkedInName(name);
        NameIsNotBracketed(host, name);
        assert false;
      }
    }
  }

  // ---------------------------------------------------------------------------
  // Paths

  function Slashes(n: nat): string { if n == 0 then "" else "/" + Slashes(n - 1) }

  // Letters, digits, hyphens, underscores, dots and percent signs, decoding to 150
  // bytes at most.
  predicate SlugText(slug: string) {
    && slug != ""
    && (forall i :: 0 <= i < |slug| ==>
          'a' <= slug[i] <= 'z' || 'A' <= slug[i] <= 'Z' || '0' <= slug[i] <= '9' || slug[i] in "-_.%")
    && Unescape(slug).Some? && |Unescape(slug).value| <= 150
  }

  lemma SlugIff(slug: string)
    ensures ValidSlug(slug) <==> SlugText(slug)
  {
    hide Unescape;
  }

  lemma {:induction false} LeftSlashes(s: string) returns (n: nat)
    ensures s == Slashes(n) + TrimSlashesLeft(s)
    ensures TrimSlashesLeft(s) == "" || TrimSlashesLeft(s)[0] != '/'
  {
    if s != "" && s[0] == '/' {
      var m := LeftSlashes(s[1..]);
      n := m + 1;
      assert s == "/" + s[1..];
      assert Slashes(n) + TrimSlashesLeft(s) == "/" + (Slashes(m) + TrimSlashesLeft(s));
    } else {
      n := 0;
      assert Slashes(0) + s == s;
    }
  }

  lemma {:induction false} SlashesEnd(n: nat)
    ensures Slashes(n + 1) == Slashes(n) + "/"
  {
    if n > 0 {
      SlashesEnd(n - 1);
    }
  }

  lemma {:induction false} RightSlashes(s: string) returns (n: nat)
    ensures s == TrimSlashesRight(s) + Slashes(n)
  {
    if s != "" && s[|s| - 1] == '/' {
      var m := RightSlashes(s[..|s| - 1]);
      n := m + 1;
      SlashesEnd(m);
      assert s == s[..|s| - 1] + "/";
      assert TrimSlashesRight(s) + Slashes(n) == (TrimSlashesRight(s) + Slashes(m)) + "/";
    } else {
      n := 0;
      assert s + Slashes(0) == s;
    }
  }

  lemma {:induction false} TrimsLeft(n: nat, s: string)
    requires s != "" && s[0] != '/'
    ensures TrimSlashesLeft(Slashes(n) + s) == s
  {
    if n == 0 {
      assert Slashes(0) + s == s;
    } else {
      var t := Slashes(n) + s;
      assert t[0] == '/' && t[1..] == Slashes(n - 1) + s;
      TrimsLeft(n - 1, s);
    }
  }

  lemma OneMoreSlash(s: string, slashes: string, t: string)
    requires t == s + (slashes + "/")
    ensures t[|t| - 1] == '/' && t[..|t| - 1] == s + slashes
  {
  }

  lemma TrimSlash(t: string)
    ensures t != "" && t[|t| - 1] == '/' ==> TrimSlashesRight(t) == TrimSlashesRight(t[..|t| - 1])
    ensures t != "" && t[|t| - 1] != '/' ==> TrimSlashesRight(t) == t
  {
  }

  lemma {:induction false} TrimsRight(s: string, n: nat)
    requires s != "" && s[|s| - 1] != '/'
    ensures TrimSlashesRight(s + Slashes(n)) == s
  {
    hide TrimSlashesRight;
    var t := s + Slashes(n);
    TrimSlash(t);
    if n == 0 {
      assert t == s;
    } else {
      SlashesEnd(n - 1);
      TrimsRight(s, n - 1);
      OneMoreSlash(s, Slashes(n - 1), t);
    }
  }

  // "in" and the slug, between any slashes.
  ghost predicate SlugPath(p: string, slug: string) {
    SlugText(slug) && exists i, j :: p == Slashes(i) + "in/" + slug + Slashes(j)
  }

  lemma ExtractsIff(p: string, slug: string)
    ensures ExtractSlug(p) == Some(slug) <==> SlugPath(p, slug)
  {
    if ExtractSlug(p) == Some(slug) {
      ExtractedFrom(p, slug);
    }
    if SlugPath(p, slug) {
      var i, j :| p == Slashes(i) + "in/" + slug + Slashes(j);
      Extracts(p, slug, i, j);
    }
  }

  lemma ExtractedFrom(p: string, slug: string)
    requires ExtractSlug(p) == Some(slug)
    ensures SlugPath(p, slug)
  {
    hide Cut, Slashes, TrimSlashesLeft, TrimSlashesRight, ValidSlug, SlugText;
    var i := LeftSlashes(p);
    var t := TrimSlashesLeft(p);
    var j := RightSlashes(t);
    var u := TrimSlashesRight(t);
    CutParts(u, '/');
    SlugIff(slug);
    assert u == "in" + ['/'] + slug;
    assert p == Slashes(i) + "in/" + slug + Slashes(j);
  }

  lemma Extracts(p: string, slug: string, i: nat, j: nat)
    requires SlugText(slug) && p == Slashes(i) + "in/" + slug + Slashes(j)
    ensures ExtractSlug(p) == Some(slug)
  {
    hide Cut, Slashes, TrimSlashesLeft, TrimSlashesRight;
    var u := "in/" + slug;
    var t := u + Slashes(j);
    assert slug[|slug| - 1] != '/' && '/' !in slug;
    assert p == Slashes(i) + t;
    TrimsLeft(i, t);
    TrimsRight(u, j);
    assert u == "in" + ['/'] + slug;
    CutAt("in", '/', slug);
    SlugIff(slug);
  }

  // ---------------------------------------------------------------------------
  // The whole URL

  // scheme://[user@]host[:port][/path][?query][#fragment]
  datatype Parts = Parts(scheme: string, user: string, host: string, path: string, query: string, fragment: string) {
    function Authority(): string { user + host }
    function BeforeFragment(): string { scheme + "://" + Authority() + path + query }
    function Text(): string { BeforeFragment() + fragment }
  }

  predicate NoneOf(s: string, delimiters: string) { forall c :: c in s ==> c !in delimiters }

  // Each part ends where the next one must start.
  predicate Delimited(u: Parts) {
    && NoneOf(u.scheme, ":#") && NoneOf(u.Authority(), "/?#")
    && (u.path == "" || u.path[0] == '/') && NoneOf(u.path, "?#")
    && (u.query == "" || u.query[0] == '?') && NoneOf(u.query, "#")
    && (u.fragment == "" || u.fragment[0] == '#')
  }

  predicate Printable(s: string) { forall i :: 0 <= i < |s| ==> s[i] as int >= 0x20 && s[i] as int != 0x7f }

  predicate WebUrl(u: Parts) {
    && Delimited(u) && ToLower(u.scheme) in {"http", "https"}
    && Printable(u.BeforeFragment()) && Unescape(u.fragment).Some?
  }

  // The delimiter a cut was made at and what follows it, or nothing.
  function Tail(s: string, c: char): string { if Cut(s, c).2 then [c] + Cut(s, c).1 else "" }

  lemma CutJoins(s: string, c: char)
    ensures c !in Cut(s, c).0 && s == Cut(s, c).0 + Tail(s, c)
    ensures Tail(s, c) == "" || Tail(s, c)[0] == c
    ensures Cut(s, c).2 ==> s == Cut(s, c).0 + [c] + Cut(s, c).1
  {
    CutParts(s, c);
  }

  function PartsOf(raw: string): Parts {
    var before := Cut(raw, '#').0;
    var after := Cut(before, ':').1;
    var rest := Cut(after, '?').0;
    var authority := if |rest| >= 2 then rest[2..] else "";
    Parts(Cut(before, ':').0, "", Cut(authority, '/').0, Tail(authority, '/'), Tail(after, '?'), Tail(raw, '#'))
  }

  lemma FragmentDecodes(s: string)
    ensures Unescape("#" + s).Some? <==> Unescape(s).Some?
  {
    assert ("#" + s)[1..] == s;
  }

  lemma SplitsInto(raw: string)
    requires SplitUrl(raw).Some?
    ensures var u := PartsOf(raw);
            && raw == u.Text() && WebUrl(u) && u.path == SplitUrl(raw).value.1
            && ParseAuthority(u.Authority()) == Some(SplitUrl(raw).value.0)
  {
    var before := Cut(raw, '#').0;
    PartsJoin(raw);
    PartsAreWeb(raw);
    hide SplitUrl, PartsOf, Cut, ToLower, Parts.Authority, Parts.BeforeFragment, Parts.Text;
    InnerParts(PartsOf(raw), Cut(Cut(before, ':').1, '?').0);
  }

  lemma PartsAreWeb(raw: string)
    requires SplitUrl(raw).Some?
    ensures var u := PartsOf(raw);
            && u.path == SplitUrl(raw).value.1 && ParseAuthority(u.Authority()) == Some(SplitUrl(raw).value.0)
            && ToLower(u.scheme) in {"http", "https"} && Printable(Cut(raw, '#').0) && Unescape(u.fragment).Some?
            && (u.path == "" || u.path[0] == '/') && (u.query == "" || u.query[0] == '?')
            && (u.fragment == "" || u.fragment[0] == '#')
  {
    hide Cut, ToLower, ParseAuthority, Unescape;
    var rest := Cut(Cut(Cut(raw, '#').0, ':').1, '?').0;
    assert PartsOf(raw).Authority() == Cut(rest[2..], '/').0;
    FragmentDecodes(Cut(raw, '#').1);
    EmptyDecodes();
  }

  // The parts, put together again, are the text.
  lemma PartsJoin(raw: string)
    requires SplitUrl(raw).Some?
    ensures var u, before := PartsOf(raw), Cut(raw, '#').0;
            var rest := Cut(Cut(before, ':').1, '?').0;
            && raw == u.Text() && before == u.BeforeFragment() && '#' !in before && ':' !in u.scheme
            && rest == "//" + u.Authority() + u.path && '?' !in rest && '/' !in u.Authority()
  {
    var before := Cut(raw, '#').0;
    var after := Cut(before, ':').1;
    var rest := Cut(after, '?').0;
    var u := PartsOf(raw);
    assert u.Authority() == Cut(rest[2..], '/').0;
    assert u.path == Tail(rest[2..], '/') && u.query == Tail(after, '?') && u.fragment == Tail(raw, '#');
    hide Cut, Tail, ToLower, ParseAuthority, Unescape, Parts.Authority, Parts.BeforeFragment, Parts.Text, PartsOf;
    CutJoins(raw, '#');
    CutJoins(before, ':');
    CutJoins(after, '?');
    CutJoins(rest[2..], '/');
    Joined(raw, before, u.scheme, after, rest, u.Authority(), u);
  }

  lemma Joined(raw: string, before: string, scheme: string, after: string, rest: string, authority: string, u: Parts)
    requires raw == before + u.fragment && before == scheme + [':'] + after && after == rest + u.query
    requires "//" <= rest && rest[2..] == authority + u.path && u.scheme == scheme && u.Authority() == authority
    ensures before == u.BeforeFragment() && raw == u.Text() && rest == "//" + u.Authority() + u.path
  {
    assert rest == "//" + rest[2..];
    assert after == "//" + (authority + u.path) + u.query;
  }

  lemma InnerParts(u: Parts, rest: string)
    requires '#' !in u.BeforeFragment() && '?' !in rest && rest == "//" + u.Authority() + u.path
    requires '/' !in u.Authority() && ':' !in u.scheme
    ensures NoneOf(u.scheme, ":#") && NoneOf(u.Authority(), "/?#") && NoneOf(u.path, "?#") && NoneOf(u.query, "#")
  {
    forall c | c in u.Authority() ensures c in rest && c in u.BeforeFragment() {
    }
    forall c | c in u.path ensures c in rest && c in u.BeforeFragment() {
    }
    forall c | c in u.scheme || c in u.query ensures c in u.BeforeFragment() {
    }
  }

  lemma SplitsBack(u: Parts)
    requires WebUrl(u)
    ensures SplitUrl(u.Text())
         == if ParseAuthority(u.Authority()).Some? then Some((ParseAuthority(u.Authority()).value, u.path)) else None
  {
    hide Cut, ToLower, ParseAuthority, Unescape;
    var before, rest := u.BeforeFragment(), "//" + u.Authority() + u.path;
    var after := "//" + u.Authority() + u.path + u.query;
    OuterParts(u);
    assert before == u.scheme + [':'] + after;
    CutPart(before, u.fragment, '#');
    CutAt(u.scheme, ':', after);
    CutPart(rest, u.query, '?');
    assert rest[2..] == u.Authority() + u.path;
    CutPart(u.Authority(), u.path, '/');
    if u.fragment != "" {
      assert u.fragment == "#" + u.fragment[1..];
      FragmentDecodes(u.fragment[1..]);
    }
    EmptyDecodes();
    assert if u.path == "" then u.path == "" else u.path == "/" + u.path[1..];
    assert NoControls(before);
  }

  lemma OuterParts(u: Parts)
    requires Delimited(u)
    ensures '#' !in u.BeforeFragment() && '?' !in "//" + u.Authority() + u.path
    ensures ':' !in u.scheme && '/' !in u.Authority()
  {
  }

  // A part that is empty or starts with its delimiter.
  lemma CutPart(a: string, part: string, c: char)
    requires c !in a && (part == "" || part[0] == c)
    ensures Cut(a + part, c) == if part == "" then (a, "", false) else (a, part[1..], true)
  {
    if part == "" {
      assert a + part == a;
      CutNothing(a, c);
    } else {
      assert a + part == a + [c] + part[1..];
      CutAt(a, c, part[1..]);
    }
    hide Cut;
  }

  // ---------------------------------------------------------------------------
  // What is accepted

  // A web URL of a LinkedIn host, with an optional user and port, whose path is
  // that of a slug.
  ghost predicate ProfileAddress(u: Parts, slug: string) {
    && WebUrl(u) && UserPart(u.user) && HostPart(u.host)
    && EscapedPath(u.path).Some? && SlugPath(EscapedPath(u.path).value, slug)
  }

  ghost predicate HasScheme(raw: string) { exists a, b :: raw == a + "://" + b }

  lemma ContainsIff(raw: string)
    ensures Contains(raw, "://") <==> HasScheme(raw)
  {
    if Contains(raw, "://") {
      var i :| 0 <= i <= |raw| && "://" <= raw[i..];
      assert raw == raw[..i] + "://" + raw[i..][3..];
    }
    if a, b :| raw == a + "://" + b {
      assert raw[|a|..] == "://" + b;
    }
  }

  lemma AddressIff(url: string, slug: string)
    ensures (exists u: Parts :: u.Text() == url && ProfileAddress(u, slug))
       <==> (SplitUrl(url).Some? && IsLinkedInHost(SplitUrl(url).value.0)
             && EscapedPath(SplitUrl(url).value.1).Some?
             && ExtractSlug(EscapedPath(SplitUrl(url).value.1).value) == Some(slug))
  {
    hide SplitUrl, WebUrl, ParseAuthority, IsLinkedInHost, EscapedPath, ExtractSlug, UserPart, HostPart, SlugPath;
    if SplitUrl(url).Some? && IsLinkedInHost(SplitUrl(url).value.0) && EscapedPath(SplitUrl(url).value.1).Some?
       && ExtractSlug(EscapedPath(SplitUrl(url).value.1).value) == Some(slug) {
      SplitsInto(url);
      var v := PartsOf(url);
      AuthorityIff(v.Authority());
      var user, host :| v.Authority() == user + host && UserPart(user) && HostPart(host);
      var u := v.(user := user, host := host);
      SameAuthority(u, v);
      ExtractsIff(EscapedPath(u.path).value, slug);
      assert u.Text() == url && ProfileAddress(u, slug);
    }
    if u: Parts :| u.Text() == url && ProfileAddress(u, slug) {
      SplitsBack(u);
      AuthorityIff(u.Authority());
      assert u.Authority() == u.user + u.host;
      ExtractsIff(EscapedPath(u.path).value, slug);
    }
  }

  lemma SameAuthority(u: Parts, v: Parts)
    requires v == u.(user := v.user, host := v.host) && u.Authority() == v.Authority()
    ensures u.Text() == v.Text() && (WebUrl(u) <==> WebUrl(v))
  {
  }

  // The parser, written out: a text is accepted if and only if, freed of white space
  // and with https:// before it if it names no scheme, it has at most 512 bytes and
  // is the address of a profile on a LinkedIn host; and then the reference is made
  // of the slug alone.
  lemma {:induction false} ParseIff(input: string, ref: Ref)
    ensures var raw := TrimSpace(input);
            Parse(input) == Some(ref) <==>
              && 0 < |raw| <= 512
              && ref.canonicalURL == "https://www.linkedin.com/in/" + ref.publicID
              && exists u: Parts :: u.Text() == (if HasScheme(raw) then raw else "https://" + raw)
                             && ProfileAddress(u, ref.publicID)
  {
    hide TrimSpace, SplitUrl, ProfileAddress, IsLinkedInHost, EscapedPath, ExtractSlug, Contains, HasScheme, Parts.Text;
    var raw := TrimSpace(input);
    assert CANONICAL_PREFIX == "https://www.linkedin.com/in/" && "https" + "://" == "https://";
    ContainsIff(raw);
    AddressIff(if HasScheme(raw) then raw else "https://" + raw, ref.publicID);
  }

  lemma NameIsInDomain(name: string)
    requires LinkedInName(name)
    ensures name == "linkedin.com" || exists p :: name == p + ".linkedin.com"
  {
    var locale, sub :| name == locale + sub + "linkedin.com" && LocalePart(locale) && sub in {"", "www.", "m."};
    var prefix := locale + sub;
    if prefix == "" {
      assert name == "linkedin.com";
    } else {
      assert prefix[|prefix| - 1] == '.' by {
        assert sub != "" ==> prefix[|prefix| - 1] == sub[|sub| - 1];
        assert sub == "" ==> prefix == locale;
      }
      assert name == prefix[..|prefix| - 1] + ".linkedin.com";
    }
  }

  // No other host: whatever was accepted, the host written in it, decoded,
  // lower-cased and without its port, is linkedin.com or one of its subdomains.
  lemma {:induction false} AcceptedHost(input: string)
    ensures var raw := TrimSpace(input);
            Parse(input).Some? ==> exists u: Parts, name ::
              && u.Text() == (if HasScheme(raw) then raw else "https://" + raw)
              && UnescapeHost(u.host).Some? && NameOf(ToLower(UnescapeHost(u.host).value), name)
              && (name == "linkedin.com" || exists p :: name == p + ".linkedin.com")
  {
    hide Parse, TrimSpace, HasScheme, LinkedInName, NameOf, ToLower, UnescapeHost, WebUrl, UserPart, SlugPath;
    hide EscapedPath, Parts.Text;
    if Parse(input).Some? {
      var raw := TrimSpace(input);
      ParseIff(input, Parse(input).value);
      var u: Parts :| u.Text() == (if HasScheme(raw) then raw else "https://" + raw)
                      && ProfileAddress(u, Parse(input).value.publicID);
      var name :| NameOf(ToLower(UnescapeHost(u.host).value), name) && LinkedInName(name);
      NameIsInDomain(name);
    }
  }
}
