// internal/urlx/profile_url.go: parsing a LinkedIn profile URL into a canonical
// reference. Text is a sequence of bytes, one per char.
//
// The part of Go's net/url the parser runs through is written out: cutting the
// fragment and the query, scheme, authority, percent-decoding (RFC 3986, section
// 2.1) and the choice between a path's own encoding and a computed one.

module ProfileUrl {
  import opened Domain

  const MAX_INPUT_LEN := 512
  const MAX_SLUG_LEN := 150

  // ---------------------------------------------------------------------------
  // Bytes

  predicate IsLower(c: char) { 'a' <= c <= 'z' }
  predicate IsUpper(c: char) { 'A' <= c <= 'Z' }
  predicate IsDigit(c: char) { '0' <= c <= '9' }
  predicate IsAlnum(c: char) { IsLower(c) || IsUpper(c) || IsDigit(c) }
  predicate IsAscii(c: char) { c as int < 0x80 }
  predicate IsHex(c: char) { IsDigit(c) || 'a' <= c <= 'f' || 'A' <= c <= 'F' }

  function Unhex(c: char): int
    requires IsHex(c)
  {
    if IsDigit(c) then c as int - '0' as int
    else if 'a' <= c <= 'f' then c as int - 'a' as int + 10
    else c as int - 'A' as int + 10
  }

  function HexDigit(n: nat): (c: char)
    requires n < 16
    ensures IsHex(c) && (IsDigit(c) || IsUpper(c))
  {
    if n < 10 then ('0' as int + n) as char else ('A' as int + n - 10) as char
  }

  function Index(s: string, c: char): (i: int)
    ensures -1 <= i < |s|
    ensures if i < 0 then c !in s else s[i] == c && c !in s[..i]
  {
    if s == "" then -1
    else if s[0] == c then 0
    else
      var i := Index(s[1..], c);
      assert i >= 0 ==> s[..i + 1] == [s[0]] + s[1..][..i];
      if i < 0 then -1 else i + 1
  }

  function LastIndex(s: string, c: char): (i: int)
    ensures -1 <= i < |s|
    ensures if i < 0 then c !in s else s[i] == c && c !in s[i + 1..]
  {
    if s == "" then -1
    else if s[|s| - 1] == c then |s| - 1
    else
      var i := LastIndex(s[..|s| - 1], c);
      assert i >= 0 ==> s[i + 1..] == s[..|s| - 1][i + 1..] + [s[|s| - 1]];
      assert s == s[..|s| - 1] + [s[|s| - 1]];
      i
  }

  // strings.Cut: around the first c.
  function Cut(s: string, c: char): (string, string, bool) {
    var i := Index(s, c);
    if i < 0 then (s, "", false) else (s[..i], s[i + 1..], true)
  }

  // Around the last c.
  function CutLast(s: string, c: char): (string, string, bool) {
    var i := LastIndex(s, c);
    if i < 0 then ("", s, false) else (s[..i], s[i + 1..], true)
  }

  predicate Contains(s: string, sub: string) {
    exists i {:trigger s[i..]} :: 0 <= i <= |s| && sub <= s[i..]
  }

  // ---------------------------------------------------------------------------
  // strings.TrimSpace: Unicode white space, in UTF-8

  function Bytes2(a: int, b: int): string
    requires 0 <= a < 256 && 0 <= b < 256
  {
    [a as char, b as char]
  }

  function Bytes3(a: int, b: int, c: int): string
    requires 0 <= a < 256 && 0 <= b < 256 && 0 <= c < 256
  {
    [a as char, b as char, c as char]
  }

  predicate IsSpace1(c: char) { c == ' ' || 0x09 <= c as int <= 0x0d }

  predicate IsSpace2(a: char, b: char) {
    a as int == 0xc2 && (b as int == 0x85 || b as int == 0xa0)
  }

  predicate IsSpace3(a: char, b: char, c: char) {
    || (a as int == 0xe1 && b as int == 0x9a && c as int == 0x80)
    || (a as int == 0xe2 && b as int == 0x80
        && (0x80 <= c as int <= 0x8a || c as int == 0xa8 || c as int == 0xa9 || c as int == 0xaf))
    || (a as int == 0xe2 && b as int == 0x81 && c as int == 0x9f)
    || (a as int == 0xe3 && b as int == 0x80 && c as int == 0x80)
  }

  // How many bytes of white space s starts, or ends, with.
  function SpaceBefore(s: string): (n: nat)
    ensures n <= |s|
  {
    if s != "" && IsSpace1(s[0]) then 1
    else if |s| >= 2 && IsSpace2(s[0], s[1]) then 2
    else if |s| >= 3 && IsSpace3(s[0], s[1], s[2]) then 3
    else 0
  }

  function SpaceAfter(s: string): (n: nat)
    ensures n <= |s|
  {
    if s != "" && IsSpace1(s[|s| - 1]) then 1
    else if |s| >= 2 && IsSpace2(s[|s| - 2], s[|s| - 1]) then 2
    else if |s| >= 3 && IsSpace3(s[|s| - 3], s[|s| - 2], s[|s| - 1]) then 3
    else 0
  }

  function TrimLeft(s: string): string {
    if SpaceBefore(s) == 0 then s else TrimLeft(s[SpaceBefore(s)..])
  }

  function TrimRight(s: string): string {
    if SpaceAfter(s) == 0 then s else TrimRight(s[..|s| - SpaceAfter(s)])
  }

  function TrimSpace(s: string): string { TrimRight(TrimLeft(s)) }

  // ---------------------------------------------------------------------------
  // Percent-encoding

  // None when a percent sign is not followed by two hex digits.
  function Unescape(s: string): (r: Option<string>)
    ensures r.Some? ==> |r.value| <= |s| <= 3 * |r.value|
  {
    if s == "" then Some("")
    else if s[0] != '%' then
      var rest := Unescape(s[1..]);
      if rest.None? then None else Some([s[0]] + rest.value)
    else if |s| < 3 || !IsHex(s[1]) || !IsHex(s[2]) then None
    else
      var rest := Unescape(s[3..]);
      if rest.None? then None else Some([(16 * Unhex(s[1]) + Unhex(s[2])) as char] + rest.value)
  }

  // The bytes a path keeps when Go encodes it.
  predicate KeptInPath(c: char) {
    IsAlnum(c) || c in "-_.~$&+,/:;=@"
  }

  function EscapeByte(c: char): string {
    if KeptInPath(c) then [c] else ['%', HexDigit(c as int / 16 % 16), HexDigit(c as int % 16)]
  }

  function EscapePath(s: string): string {
    if s == "" then "" else EscapeByte(s[0]) + EscapePath(s[1..])
  }

  // A path encoding Go accepts as it stands.
  predicate ValidEncoded(s: string) {
    forall i :: 0 <= i < |s| ==> KeptInPath(s[i]) || s[i] in "!'()*[]%"
  }

  // URL.EscapedPath after setPath(p): the path's own encoding if it is one, and
  // the computed encoding otherwise. None when p does not decode.
  function EscapedPath(p: string): Option<string> {
    var path := Unescape(p);
    if path.None? then None
    else
      var escaped := EscapePath(path.value);
      Some(if p == escaped then escaped
           else if ValidEncoded(p) then p
           else if path.value == "*" then "*"
           else escaped)
  }

  // ---------------------------------------------------------------------------
  // Hosts

  predicate HostByte(c: char) {
    IsAlnum(c) || c in "-_.~!$&'()*+,;=:[]<>\""
  }

  // Decoding a host: only non-ASCII bytes, and the percent sign itself, may be
  // percent-encoded, and only host bytes may appear.
  function UnescapeHost(s: string): Option<string> {
    if s == "" then Some("")
    else if s[0] == '%' then
      if |s| < 3 || !IsHex(s[1]) || !IsHex(s[2]) || (Unhex(s[1]) < 8 && s[..3] != "%25") then None
      else
        var rest := UnescapeHost(s[3..]);
        if rest.None? then None else Some([(16 * Unhex(s[1]) + Unhex(s[2])) as char] + rest.value)
    else if IsAscii(s[0]) && !HostByte(s[0]) then None
    else
      var rest := UnescapeHost(s[1..]);
      if rest.None? then None else Some([s[0]] + rest.value)
  }

  predicate AllDigits(s: string) { forall i :: 0 <= i < |s| ==> IsDigit(s[i]) }

  function ParseHost(host: string): Option<string> {
    if host != "" && host[0] == '[' then None
    else
      var port := CutLast(host, ':');
      if port.2 && !AllDigits(port.1) then None else UnescapeHost(host)
  }

  predicate UserinfoByte(c: char) {
    IsAlnum(c) || c in "-._:~!$&'()*+,;=%@"
  }

  predicate ValidUserinfo(s: string) {
    && (forall i :: 0 <= i < |s| ==> UserinfoByte(s[i]))
    && var parts := Cut(s, ':');
       Unescape(parts.0).Some? && Unescape(parts.1).Some?
  }

  function ParseAuthority(authority: string): Option<string> {
    var at := CutLast(authority, '@');
    if at.2 && !ValidUserinfo(at.0) then None else ParseHost(at.1)
  }

  // strings.ToLower: besides the ASCII letters, exactly two other letters have an
  // ASCII lower case.
  function ToLower(s: string): string {
    if s == "" then ""
    else if |s| >= 3 && s[..3] == Bytes3(0xe2, 0x84, 0xaa) then "k" + ToLower(s[3..])
    else if |s| >= 2 && s[..2] == Bytes2(0xc4, 0xb0) then "i" + ToLower(s[2..])
    else [if IsUpper(s[0]) then (s[0] as int + 32) as char else s[0]] + ToLower(s[1..])
  }

  const DOMAIN := "linkedin.com"

  predicate IsLocale(s: string) {
    |s| in {3, 4} && s[|s| - 1] == '.' && forall i :: 0 <= i < |s| - 1 ==> IsLower(s[i])
  }

  predicate IsSub(s: string) { s in {"", "www.", "m."} }

  // What the host pattern allows before the domain.
  predicate IsHostPrefix(s: string) {
    || IsSub(s)
    || (|s| >= 3 && IsLocale(s[..3]) && IsSub(s[3..]))
    || (|s| >= 4 && IsLocale(s[..4]) && IsSub(s[4..]))
  }

  predicate MatchesHost(h: string) {
    var n := |h| - |DOMAIN|;
    n >= 0 && h[n..] == DOMAIN && IsHostPrefix(h[..n])
  }

  predicate IsLinkedInHost(host: string) {
    MatchesHost(Cut(ToLower(host), ':').0)
  }

  // ---------------------------------------------------------------------------
  // Parse

  datatype Ref = Ref(publicID: string, canonicalURL: string)

  const HOST := "www.linkedin.com"
  const CANONICAL_PREFIX := "https" + "://" + HOST + "/in/"

  predicate SlugByte(c: char) { IsAlnum(c) || c in "-_%." }

  predicate ValidSlug(slug: string) {
    && slug != ""
    && (forall i :: 0 <= i < |slug| ==> SlugByte(slug[i]))
    && Unescape(slug).Some? && |Unescape(slug).value| <= MAX_SLUG_LEN
  }

  function TrimSlashesLeft(s: string): string {
    if s != "" && s[0] == '/' then TrimSlashesLeft(s[1..]) else s
  }

  function TrimSlashesRight(s: string): string {
    if s != "" && s[|s| - 1] == '/' then TrimSlashesRight(s[..|s| - 1]) else s
  }

  function ExtractSlug(p: string): Option<string> {
    var parts := Cut(TrimSlashesRight(TrimSlashesLeft(p)), '/');
    if parts.0 != "in" || !parts.2 || parts.1 == "" || '/' in parts.1 then None
    else if ValidSlug(parts.1) then Some(parts.1)
    else None
  }

  predicate NoControls(s: string) {
    forall i :: 0 <= i < |s| ==> ' ' <= s[i] && s[i] as int != 0x7f
  }

  // The host and the path text of an http or https URL with an authority; None
  // for anything url.Parse or the scheme and host checks turn away.
  function SplitUrl(raw: string): Option<(string, string)> {
    var frag := Cut(raw, '#');
    var scheme := Cut(frag.0, ':');
    if !NoControls(frag.0) || Unescape(frag.1).None? || !scheme.2 then None
    else if ToLower(scheme.0) !in {"http", "https"} then None
    else
      var rest := Cut(scheme.1, '?').0;
      if !("//" <= rest) then None
      else
        var slash := Cut(rest[2..], '/');
        var host := ParseAuthority(slash.0);
        if host.None? then None
        else Some((host.value, if slash.2 then "/" + slash.1 else ""))
  }

  function Parse(input: string): Option<Ref> {
    var raw := TrimSpace(input);
    if raw == "" || |raw| > MAX_INPUT_LEN then None
    else
      var url := SplitUrl(if Contains(raw, "://") then raw else "https://" + raw);
      if url.None? || !IsLinkedInHost(url.value.0) then None
      else
        var path := EscapedPath(url.value.1);
        if path.None? then None
        else
          var slug := ExtractSlug(path.value);
          if slug.None? then None else Some(Ref(slug.value, CANONICAL_PREFIX + slug.value))
  }

  // ---------------------------------------------------------------------------
  // Properties

  // Whatever was accepted is a valid slug with its canonical URL, and the URL is
  // no longer than 28 + 3 * 150 bytes.
  lemma AcceptedIsValid(input: string)
    ensures Parse(input).Some? ==>
              var ref := Parse(input).value;
              && ValidSlug(ref.publicID)
              && ref.canonicalURL == CANONICAL_PREFIX + ref.publicID
              && |ref.canonicalURL| <= 28 + 3 * MAX_SLUG_LEN <= MAX_INPUT_LEN
  {
  }

  lemma CutAt(a: string, c: char, b: string)
    requires c !in a
    ensures Cut(a + [c] + b, c) == (a, b, true)
  {
    hide Index;
    var s := a + [c] + b;
    var i := Index(s, c);
    assert s[|a|] == c;
    assert forall k :: 0 <= k < |a| ==> s[k] == a[k];
    forall k | 0 <= k < i ensures s[k] != c {
      assert s[..i][k] == s[k];
    }
    assert s[..|a|] == a && s[|a| + 1..] == b;
  }

  lemma CutNothing(s: string, c: char)
    requires c !in s
    ensures Cut(s, c) == (s, "", false) && CutLast(s, c) == ("", s, false)
  {
    hide Index, LastIndex;
  }

  lemma {:induction false} EscapedByteIsAscii(s: string)
    ensures forall i :: 0 <= i < |EscapePath(s)| ==> IsAscii(EscapePath(s)[i])
  {
    if s != "" {
      EscapedByteIsAscii(s[1..]);
      assert forall i :: 0 <= i < |EscapeByte(s[0])| ==> IsAscii(EscapeByte(s[0])[i]);
    }
  }

  // The path the slug is taken from is ASCII, whatever the input: letters outside
  // ASCII reach the slug pattern percent-encoded only.
  lemma EscapedPathIsAscii(p: string)
    requires EscapedPath(p).Some?
    ensures forall i :: 0 <= i < |EscapedPath(p).value| ==> IsAscii(EscapedPath(p).value[i])
  {
    EscapedByteIsAscii(Unescape(p).value);
  }

  lemma TrimKeeps(s: string)
    requires s != "" && IsAscii(s[0]) && !IsSpace1(s[0]) && IsAscii(s[|s| - 1]) && !IsSpace1(s[|s| - 1])
    ensures TrimSpace(s) == s
  {
    assert SpaceBefore(s) == 0 && SpaceAfter(s) == 0;
  }

  lemma {:induction false} PlainHostDecodes(s: string)
    requires forall i :: 0 <= i < |s| ==> HostByte(s[i]) && s[i] != '%'
    ensures UnescapeHost(s) == Some(s)
  {
    if s != "" {
      PlainHostDecodes(s[1..]);
      assert [s[0]] + s[1..] == s;
    }
  }

  lemma {:induction false} LowerStays(s: string)
    requires forall i :: 0 <= i < |s| ==> IsAscii(s[i]) && !IsUpper(s[i])
    ensures ToLower(s) == s
  {
    if s != "" {
      LowerStays(s[1..]);
      assert [s[0]] + s[1..] == s;
      if |s| >= 2 { assert s[..2][0] == s[0]; }
      if |s| >= 3 { assert s[..3][0] == s[0]; }
    }
  }

  lemma CanonicalHostBytes()
    ensures forall i :: 0 <= i < |HOST| ==> HostByte(HOST[i]) && IsAscii(HOST[i]) && !IsUpper(HOST[i])
    ensures forall c :: c in HOST ==> c !in "%:@/#?[" && ' ' <= c <= '~'
    ensures |HOST| == 16 && HOST[0] == 'w'
    ensures HOST[4..] == DOMAIN && HOST[..4] == "www."
  {
  }

  lemma CanonicalHost()
    ensures ParseAuthority(HOST) == Some(HOST)
    ensures IsLinkedInHost(HOST)
  {
    hide HOST, Cut, CutLast, UnescapeHost, ToLower, HostByte;
    CanonicalHostBytes();
    CutNothing(HOST, '@');
    CutNothing(HOST, ':');
    PlainHostDecodes(HOST);
    LowerStays(HOST);
  }

  lemma {:induction false} UnescapeSkips(a: string, b: string)
    requires '%' !in a && Unescape(b).Some?
    ensures Unescape(a + b) == Some(a + Unescape(b).value)
  {
    if a == "" {
      assert a + b == b && a + Unescape(b).value == Unescape(b).value;
    } else {
      assert (a + b)[0] == a[0] && a[0] != '%';
      assert (a + b)[1..] == a[1..] + b;
      UnescapeSkips(a[1..], b);
      assert [a[0]] + (a[1..] + Unescape(b).value) == a + Unescape(b).value;
    }
  }

  lemma CanonicalPathDecodes(slug: string)
    requires ValidSlug(slug)
    ensures EscapedPath("/in/" + slug) == Some("/in/" + slug)
  {
    var p := "/in/" + slug;
    UnescapeSkips("/in/", slug);
    hide Unescape, EscapePath;
    forall i | 0 <= i < |p| ensures KeptInPath(p[i]) || p[i] in "!'()*[]%" {
      assert i >= 4 ==> p[i] == slug[i - 4] && SlugByte(slug[i - 4]);
    }
    assert ValidEncoded(p);
  }

  lemma CanonicalPathYieldsSlug(slug: string)
    requires ValidSlug(slug)
    ensures ExtractSlug("/in/" + slug) == Some(slug)
  {
    var p, t := "/in/" + slug, "in/" + slug;
    assert p[1..] == t;
    assert SlugByte(slug[|slug| - 1]) && t[|t| - 1] == slug[|slug| - 1];
    assert '/' !in slug by { SlugIsPlain(slug); }
    assert t == "in" + ['/'] + slug;
    CutAt("in", '/', slug);
    hide ValidSlug, Cut;
    assert TrimSlashesLeft(p) == TrimSlashesLeft(t) == t;
    assert TrimSlashesRight(t) == t;
  }

  lemma SlugIsPlain(slug: string)
    requires ValidSlug(slug)
    ensures forall c :: c in slug ==> c !in ":/#?" && ' ' <= c <= '~'
  {
    forall c | c in slug ensures c !in ":/#?" && ' ' <= c <= '~' {
      assert SlugByte(c);
    }
  }

  // What follows the scheme of a canonical URL.
  function AfterScheme(slug: string): string { "//" + HOST + "/in/" + slug }

  lemma CanonicalShape(slug: string)
    ensures CANONICAL_PREFIX + slug == "https" + [':'] + AfterScheme(slug)
    ensures AfterScheme(slug)[2..] == HOST + ['/'] + ("in/" + slug)
    ensures "//" <= AfterScheme(slug)
    ensures |CANONICAL_PREFIX| == 28 && CANONICAL_PREFIX[0] == 'h'
    ensures Contains(CANONICAL_PREFIX + slug, "://")
  {
    var url := CANONICAL_PREFIX + slug;
    assert url[5..] == "://" + (HOST + "/in/" + slug);
    assert "://" <= url[5..];
  }

  lemma CanonicalIsPlain(slug: string)
    requires ValidSlug(slug)
    ensures '?' !in AfterScheme(slug) && '#' !in CANONICAL_PREFIX + slug && NoControls(CANONICAL_PREFIX + slug)
  {
    hide HOST, CANONICAL_PREFIX, ValidSlug;
    SlugIsPlain(slug);
    CanonicalHostBytes();
    CanonicalShape(slug);
    var url, rest := CANONICAL_PREFIX + slug, AfterScheme(slug);
    forall c | c in rest ensures c !in "#?" && ' ' <= c <= '~' {
      assert c in "//" || c in HOST || c in "/in/" || c in slug;
    }
    forall i | 0 <= i < |url| ensures url[i] != '#' && ' ' <= url[i] <= '~' {
      assert url[i] in "https" || url[i] == ':' || url[i] in rest;
    }
  }

  lemma CanonicalSplits(slug: string)
    requires ValidSlug(slug)
    ensures SplitUrl(CANONICAL_PREFIX + slug) == Some((HOST, "/in/" + slug))
  {
    hide HOST, CANONICAL_PREFIX, Cut, ParseAuthority, ToLower, ValidSlug, AfterScheme, NoControls;
    var url, rest := CANONICAL_PREFIX + slug, AfterScheme(slug);
    CanonicalIsPlain(slug);
    CanonicalShape(slug);
    CanonicalHostBytes();
    CutNothing(url, '#');
    CutAt("https", ':', rest);
    CutNothing(rest, '?');
    CutAt(HOST, '/', "in/" + slug);
    assert "/" + ("in/" + slug) == "/in/" + slug;
    CanonicalHost();
    LowerStays("https");
    assert Unescape("") == Some("");
  }

  // Every valid slug is the public identifier of its own canonical URL.
  lemma CanonicalParses(slug: string)
    requires ValidSlug(slug)
    ensures Parse(CANONICAL_PREFIX + slug) == Some(Ref(slug, CANONICAL_PREFIX + slug))
  {
    hide HOST, CANONICAL_PREFIX, SplitUrl, EscapedPath, ExtractSlug, IsLinkedInHost, Contains, TrimSpace;
    var url := CANONICAL_PREFIX + slug;
    CanonicalShape(slug);
    assert url[|url| - 1] == slug[|slug| - 1] && url[0] == 'h';
    assert SlugByte(slug[|slug| - 1]);
    TrimKeeps(url);
    CanonicalSplits(slug);
    CanonicalHost();
    CanonicalPathDecodes(slug);
    CanonicalPathYieldsSlug(slug);
  }

  // Canonicalisation is a fixed point: what parsing an accepted input produced
  // parses again, to the same reference.
  lemma CanonicalisationIsFixed(input: string)
    ensures Parse(input).Some? ==> Parse(Parse(input).value.canonicalURL) == Parse(input)
  {
    hide Parse, ValidSlug, CANONICAL_PREFIX;
    AcceptedIsValid(input);
    if Parse(input).Some? {
      CanonicalParses(Parse(input).value.publicID);
    }
  }

  // The references Parse can produce are exactly those of the valid slugs.
  lemma ReferencesIff(ref: Ref)
    ensures (exists input :: Parse(input) == Some(ref))
       <==> ValidSlug(ref.publicID) && ref.canonicalURL == CANONICAL_PREFIX + ref.publicID
  {
    if input :| Parse(input) == Some(ref) {
      AcceptedIsValid(input);
    }
    if ValidSlug(ref.publicID) && ref.canonicalURL == CANONICAL_PREFIX + ref.publicID {
      CanonicalParses(ref.publicID);
    }
  }

  // A host that is let through is linkedin.com or a subdomain of it.
  lemma HostIsLinkedIn(host: string)
    requires IsLinkedInHost(host)
    ensures var name := Cut(ToLower(host), ':').0;
            name == DOMAIN || exists p :: name == p + "." + DOMAIN
  {
    hide ToLower, Cut;
    var name := Cut(ToLower(host), ':').0;
    var n := |name| - |DOMAIN|;
    assert name == name[..n] + DOMAIN;
    if n > 0 {
      assert name[n - 1] == '.';
      assert name == name[..n - 1] + "." + DOMAIN;
    }
  }
}
