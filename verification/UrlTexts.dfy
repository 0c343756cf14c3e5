// The texts internal/urlx/profile_url.go works on: white space, percent-encoding
// and hosts, and what its parser does with plain hosts and with handles outside
// ASCII.

module UrlTexts {
  import opened Domain
  import opened ProfileUrl
  import opened UrlForms

  // ---------------------------------------------------------------------------
  // White space

  // Unicode's White_Space, as far as the Basic Multilingual Plane, where it ends.
  predicate WhiteSpace(cp: nat) {
    || 0x9 <= cp <= 0xd || 0x2000 <= cp <= 0x200a
    || cp in {0x20, 0x85, 0xa0, 0x1680, 0x2028, 0x2029, 0x202f, 0x205f, 0x3000}
  }

  // RFC 3629, section 3.
  function Utf8(cp: nat): string
    requires cp < 0x1_0000
  {
    if cp < 0x80 then [cp as char]
    else if cp < 0x800 then Bytes2(0xc0 + cp / 64, 0x80 + cp % 64)
    else Bytes3(0xe0 + cp / 4096, 0x80 + cp / 64 % 64, 0x80 + cp % 64)
  }

  ghost predicate StartsWhite(s: string) { exists cp: nat :: WhiteSpace(cp) && Utf8(cp) <= s }

  ghost predicate EndsWhite(s: string) { exists cp: nat, a :: WhiteSpace(cp) && s == a + Utf8(cp) }

  predicate AllWhite(cps: seq<nat>) { forall i :: 0 <= i < |cps| ==> WhiteSpace(cps[i]) }

  function Encode(cps: seq<nat>): string
    requires AllWhite(cps)
  {
    if cps == [] then "" else Encode(cps[..|cps| - 1]) + Utf8(cps[|cps| - 1])
  }

  lemma Space3Is(a: char, b: char, c: char) returns (cp: nat)
    requires IsSpace3(a, b, c)
    ensures WhiteSpace(cp) && Utf8(cp) == [a, b, c]
  {
    cp := (a as int - 0xe0) * 4096 + (b as int - 0x80) * 64 + (c as int - 0x80);
  }

  lemma SpaceIs(s: string) returns (cp: nat)
    requires SpaceBefore(s) > 0
    ensures WhiteSpace(cp) && Utf8(cp) == s[..SpaceBefore(s)]
  {
    if IsSpace1(s[0]) {
      cp := s[0] as int;
    } else if |s| >= 2 && IsSpace2(s[0], s[1]) {
      cp := (s[0] as int - 0xc0) * 64 + (s[1] as int - 0x80);
    } else {
      cp := Space3Is(s[0], s[1], s[2]);
    }
  }

  lemma WhiteIsSpace(cp: nat)
    requires WhiteSpace(cp)
    ensures var t := Utf8(cp);
            match |t|
            case 1 => IsSpace1(t[0])
            case 2 => !IsSpace1(t[0]) && !IsSpace1(t[1]) && IsSpace2(t[0], t[1])
            case _ => |t| == 3 && IsSpace3(t[0], t[1], t[2])
  {
    if 0x2000 <= cp <= 0x200a {
      assert cp / 4096 == 2 && cp / 64 == 128;
    }
  }

  // White space is recognised at the start exactly when there is some.
  lemma StartsIff(s: string)
    ensures SpaceBefore(s) > 0 <==> StartsWhite(s)
  {
    hide Utf8;
    if SpaceBefore(s) > 0 {
      var cp := SpaceIs(s);
    }
    if cp: nat :| WhiteSpace(cp) && Utf8(cp) <= s {
      WhiteIsSpace(cp);
      assert forall i :: 0 <= i < |Utf8(cp)| ==> s[i] == Utf8(cp)[i];
    }
  }

  lemma EndsIff(s: string)
    ensures SpaceAfter(s) > 0 <==> EndsWhite(s)
  {
    hide Utf8;
    if SpaceAfter(s) > 0 {
      var n := SpaceAfter(s);
      var cp := SpaceEnd(s);
      assert s == s[..|s| - n] + Utf8(cp);
    }
    if cp: nat, a :| WhiteSpace(cp) && s == a + Utf8(cp) {
      WhiteIsSpace(cp);
      assert forall i :: 0 <= i < |Utf8(cp)| ==> s[|a| + i] == Utf8(cp)[i];
    }
  }

  lemma SpaceEnd(s: string) returns (cp: nat)
    requires SpaceAfter(s) > 0
    ensures WhiteSpace(cp) && Utf8(cp) == s[|s| - SpaceAfter(s)..]
  {
    var n := |s|;
    if IsSpace1(s[n - 1]) {
      cp := s[n - 1] as int;
    } else if n >= 2 && IsSpace2(s[n - 2], s[n - 1]) {
      cp := (s[n - 2] as int - 0xc0) * 64 + (s[n - 1] as int - 0x80);
    } else {
      cp := Space3Is(s[n - 3], s[n - 2], s[n - 1]);
    }
  }

  lemma {:induction false} EncodeFirst(cp: nat, cps: seq<nat>)
    requires WhiteSpace(cp) && AllWhite(cps)
    ensures Encode([cp] + cps) == Utf8(cp) + Encode(cps)
  {
    hide Utf8, WhiteSpace;
    if cps == [] {
      assert [cp] + cps == [cp] && [cp][..0] == [];
    } else {
      var n := |cps| - 1;
      assert ([cp] + cps)[..n + 1] == [cp] + cps[..n];
      EncodeFirst(cp, cps[..n]);
    }
  }

  lemma JoinsLeft(s: string, n: nat, a: string, b: string, c: string)
    requires n <= |s| && s[..n] == a && s[n..] == b + c
    ensures s == a + b + c
  {
    assert s == s[..n] + s[n..];
  }

  lemma JoinsRight(s: string, n: nat, a: string, b: string, c: string)
    requires n <= |s| && s[..n] == a + b && s[n..] == c
    ensures s == a + (b + c)
  {
    assert s == s[..n] + s[n..];
  }

  lemma {:induction false} TrimmedLeft(s: string) returns (pre: seq<nat>)
    ensures AllWhite(pre) && s == Encode(pre) + TrimLeft(s) && !StartsWhite(TrimLeft(s))
  {
    hide Utf8, WhiteSpace, SpaceBefore;
    var n := SpaceBefore(s);
    if n == 0 {
      StartsIff(s);
      pre := [];
    } else {
      var cp := SpaceIs(s);
      var rest := TrimmedLeft(s[n..]);
      pre := [cp] + rest;
      EncodeFirst(cp, rest);
      JoinsLeft(s, n, Utf8(cp), Encode(rest), TrimLeft(s[n..]));
    }
  }

  lemma {:induction false} TrimmedRight(s: string) returns (post: seq<nat>)
    ensures AllWhite(post) && s == TrimRight(s) + Encode(post) && !EndsWhite(TrimRight(s))
  {
    hide Utf8, WhiteSpace, SpaceAfter;
    var n := SpaceAfter(s);
    if n == 0 {
      EndsIff(s);
      post := [];
    } else {
      var cp := SpaceEnd(s);
      var init := TrimmedRight(s[..|s| - n]);
      post := init + [cp];
      assert post[..|post| - 1] == init;
      JoinsRight(s, |s| - n, TrimRight(s[..|s| - n]), Encode(init), Utf8(cp));
    }
  }

  // Exactly the white space around a text is taken away.
  lemma TrimIs(s: string)
    ensures exists pre, post :: AllWhite(pre) && AllWhite(post) && s == Encode(pre) + TrimSpace(s) + Encode(post)
    ensures !StartsWhite(TrimSpace(s)) && !EndsWhite(TrimSpace(s))
  {
    hide Utf8, WhiteSpace, Encode, TrimLeft, TrimRight;
    var pre := TrimmedLeft(s);
    var post := TrimmedRight(TrimLeft(s));
    assert s == Encode(pre) + TrimSpace(s) + Encode(post);
    assert TrimSpace(s) <= TrimLeft(s);
  }

  // ---------------------------------------------------------------------------
  // Percent-encoding

  // What a path may hold as it stands: RFC 3986's unreserved characters, the
  // delimiters Go keeps in a path, and those it accepts there.
  predicate PathText(p: string) {
    forall i :: 0 <= i < |p| ==> IsAlnum(p[i]) || p[i] in "-_.~" || p[i] in "$&+,/:;=@" || p[i] in "!'()*[]%"
  }

  predicate Bytes(s: string) { forall i :: 0 <= i < |s| ==> s[i] as int < 256 }

  lemma HexValues(n: nat)
    requires n < 16
    ensures HexDigit(n) == "0123456789ABCDEF"[n]
    ensures IsHex("0123456789ABCDEF"[n]) && Unhex("0123456789ABCDEF"[n]) == n
    ensures IsHex("0123456789abcdef"[n]) && Unhex("0123456789abcdef"[n]) == n
  {
  }

  lemma EscapedByteIs(c: char)
    requires c as int < 256
    ensures IsAlnum(c) || c in "-_.~" || c in "$&+,/:;=@" ==> EscapeByte(c) == [c]
    ensures !(IsAlnum(c) || c in "-_.~" || c in "$&+,/:;=@") ==>
              exists hi: nat, lo: nat :: hi < 16 && lo < 16 && 16 * hi + lo == c as int
                && EscapeByte(c) == ['%', "0123456789ABCDEF"[hi], "0123456789ABCDEF"[lo]]
  {
    if !KeptInPath(c) {
      var hi, lo := c as int / 16 % 16, c as int % 16;
      HexValues(hi);
      HexValues(lo);
      hide HexDigit, KeptInPath, Unhex;
      assert EscapeByte(c) == ['%', "0123456789ABCDEF"[hi], "0123456789ABCDEF"[lo]];
    }
  }

  // Decoding undoes encoding.
  lemma {:induction false} EncodingIsUndone(s: string)
    requires Bytes(s)
    ensures Unescape(EscapePath(s)) == Some(s)
  {
    if s != "" {
      EncodingIsUndone(s[1..]);
      var rest := EscapePath(s[1..]);
      EscapedByteIs(s[0]);
      if KeptInPath(s[0]) {
        assert s[0] != '%' && ([s[0]] + rest)[1..] == rest;
      } else {
        var hi: nat, lo: nat :| hi < 16 && lo < 16 && 16 * hi + lo == s[0] as int
          && EscapeByte(s[0]) == ['%', "0123456789ABCDEF"[hi], "0123456789ABCDEF"[lo]];
        HexValues(hi);
        HexValues(lo);
        assert EscapePath(s)[3..] == rest;
      }
      assert [s[0]] + s[1..] == s;
    }
  }

  lemma {:induction false} EncodedIsPathText(s: string)
    requires Bytes(s)
    ensures PathText(EscapePath(s))
  {
    if s != "" {
      EncodedIsPathText(s[1..]);
      assert PathText(EscapeByte(s[0]));
    }
  }

  lemma {:induction false} DecodesToStar(p: string)
    requires Unescape(p) == Some("*")
    ensures PathText(p)
  {
    if p[0] == '%' {
      assert |Unescape(p[3..]).value| == 0;
      assert |p| == 3;
    } else {
      assert |Unescape(p[1..]).value| == 0;
      assert |p| == 1 && p[0] == Unescape(p).value[0];
    }
  }

  lemma {:induction false} DecodedIsBytes(p: string)
    requires Bytes(p) && Unescape(p).Some?
    ensures Bytes(Unescape(p).value)
  {
    if p != "" {
      if p[0] == '%' {
        DecodedIsBytes(p[3..]);
      } else {
        DecodedIsBytes(p[1..]);
      }
    }
  }

  // The path the slug is looked for in: the text itself if it may stand in a path,
  // and otherwise its bytes, decoded and encoded again.
  lemma EscapedPathIs(p: string)
    requires Bytes(p)
    ensures EscapedPath(p)
         == if Unescape(p).None? then None
            else if PathText(p) then Some(p)
            else Some(EscapePath(Unescape(p).value))
  {
    hide Unescape, EscapePath;
    if Unescape(p).Some? {
      DecodedIsBytes(p);
      EncodedIsPathText(Unescape(p).value);
      if Unescape(p).value == "*" {
        DecodesToStar(p);
      }
    }
  }

  // Decoding, byte by byte: every percent sign needs two hex digits after it.
  lemma DecodesByteByByte(c: char, rest: string)
    ensures Unescape([c] + rest) ==
              if c != '%' then
                if Unescape(rest).None? then None else Some([c] + Unescape(rest).value)
              else if |rest| < 2 || !IsHex(rest[0]) || !IsHex(rest[1]) || Unescape(rest[2..]).None? then None
              else Some([(16 * Unhex(rest[0]) + Unhex(rest[1])) as char] + Unescape(rest[2..]).value)
  {
    var s := [c] + rest;
    assert s[1..] == rest;
    if |rest| >= 2 { assert s[3..] == rest[2..]; }
  }

  // Decoding a host: ASCII may only be written out, in the characters RFC 3986
  // allows there and four more that Go does.
  lemma HostTakesByte(c: char, rest: string)
    requires c != '%'
    ensures UnescapeHost([c] + rest) ==
              if c as int < 0x80 && !IsAlnum(c) && c !in "-._~" && c !in "!$&'()*+,;=:[]" && c !in "<>\"" then None
              else if UnescapeHost(rest).None? then None
              else Some([c] + UnescapeHost(rest).value)
  {
    assert ([c] + rest)[1..] == rest;
  }

  // Other bytes, and the percent sign, may be percent-encoded.
  lemma HostTakesEscape(a: char, b: char, rest: string)
    ensures UnescapeHost(['%', a, b] + rest) ==
              if !IsHex(a) || !IsHex(b) || UnescapeHost(rest).None? then None
              else if 16 * Unhex(a) + Unhex(b) < 0x80 && !(a == '2' && b == '5') then None
              else Some([(16 * Unhex(a) + Unhex(b)) as char] + UnescapeHost(rest).value)
  {
    var s := ['%', a, b] + rest;
    assert s[3..] == rest && s[..3] == ['%', a, b];
    assert s[..3] == "%25" <==> a == '2' && b == '5';
    hide HostByte;
  }

  // ---------------------------------------------------------------------------
  // Plain hosts

  predicate AsciiText(s: string) { forall i :: 0 <= i < |s| ==> s[i] as int < 0x80 }

  // Letter by letter.
  predicate Lowered(s: string, lower: string) {
    && |lower| == |s|
    && forall i :: 0 <= i < |s| ==> lower[i] == if 'A' <= s[i] <= 'Z' then (s[i] as int + 32) as char else s[i]
  }

  lemma {:induction false} LowersAscii(s: string)
    requires AsciiText(s)
    ensures Lowered(s, ToLower(s))
  {
    if s != "" {
      LowersAscii(s[1..]);
      if |s| >= 3 { assert s[..3][0] == s[0]; }
      if |s| >= 2 { assert s[..2][0] == s[0]; }
    }
  }

  // Outside ASCII two letters have an ASCII lower case: the Kelvin sign and the
  // capital I with a dot.
  lemma LowersOthers(s: string)
    ensures ToLower(Utf8(0x212a) + s) == "k" + ToLower(s)
    ensures ToLower(Utf8(0x130) + s) == "i" + ToLower(s)
  {
    assert (Utf8(0x212a) + s)[..3] == Utf8(0x212a) && (Utf8(0x212a) + s)[3..] == s;
    assert (Utf8(0x130) + s)[..2] == Utf8(0x130) && (Utf8(0x130) + s)[2..] == s;
    if |Utf8(0x130) + s| >= 3 { assert (Utf8(0x130) + s)[..3][0] == Utf8(0x130)[0]; }
  }

  // Letters, digits, hyphens and dots.
  predicate HostText(h: string) { forall i :: 0 <= i < |h| ==> IsAlnum(h[i]) || h[i] == '-' || h[i] == '.' }

  predicate PortText(port: string) {
    port == "" || (port[0] == ':' && forall i :: 1 <= i < |port| ==> '0' <= port[i] <= '9')
  }

  lemma PlainAuthority(h: string, port: string)
    requires HostText(h) && PortText(port)
    ensures ParseAuthority(h + port) == Some(h + port)
  {
    hide UnescapeHost, HostByte;
    var a := h + port;
    CutNothing(a, '@');
    HostTextIsPlain(h, port);
    PlainHostDecodes(a);
    if port == "" {
      assert a == h;
      CutNothing(a, ':');
    } else {
      assert a == h + [':'] + port[1..];
      CutLastAt(h, ':', port[1..]);
    }
  }

  lemma HostTextIsPlain(h: string, port: string)
    requires HostText(h) && PortText(port)
    ensures forall i :: 0 <= i < |h + port| ==> HostByte((h + port)[i]) && (h + port)[i] != '%'
    ensures '@' !in h + port && ':' !in h && (port != "" ==> ':' !in port[1..])
    ensures h + port == "" || (h + port)[0] != '['
    ensures forall c :: c in h + port ==> c !in "/?#" && Visible(c)
  {
  }

  lemma PlainHostIff(h: string, port: string, lower: string)
    requires HostText(h) && PortText(port) && Lowered(h, lower)
    ensures IsLinkedInHost(h + port) <==> LinkedInName(lower)
  {
    hide LinkedInName, MatchesHost, Cut, ToLower;
    var a := h + port;
    LowersAscii(a);
    assert lower == ToLower(a)[..|h|];
    assert forall i :: 0 <= i < |lower| ==> lower[i] != ':';
    if port == "" {
      assert ToLower(a) == lower;
      CutNothing(lower, ':');
    } else {
      assert ToLower(a) == lower + [':'] + ToLower(a)[|h| + 1..];
      CutAt(lower, ':', ToLower(a)[|h| + 1..]);
    }
    MatchesIff(lower);
  }

  // ---------------------------------------------------------------------------
  // Plain URLs

  function PlainUrl(h: string, port: string, path: string): Parts { Parts("https", "", h + port, path, "", "") }

  predicate Visible(c: char) { 0x20 < c as int && c as int != 0x7f }

  // A path of visible bytes, with no query or fragment after it.
  predicate PlainPath(path: string) {
    path != "" && path[0] == '/' && forall i :: 0 <= i < |path| ==> Visible(path[i]) && path[i] !in "?#"
  }

  lemma PlainUrlSplits(h: string, port: string, path: string)
    requires HostText(h) && PortText(port) && PlainPath(path)
    ensures SplitUrl("https://" + h + port + path) == Some((h + port, path))
  {
    var u := PlainUrl(h, port, path);
    assert u.Text() == "https://" + h + port + path;
    PlainParts(h, port, path);
    LowerStays("https");
    EmptyDecodes();
    PlainAuthority(h, port);
    assert u.Authority() == h + port;
    hide ParseAuthority, SplitUrl, ToLower;
    SplitsBack(u);
  }

  lemma PlainParts(h: string, port: string, path: string)
    requires HostText(h) && PortText(port) && PlainPath(path)
    ensures Delimited(PlainUrl(h, port, path)) && Printable(PlainUrl(h, port, path).BeforeFragment())
  {
    hide IsAlnum;
    var u := PlainUrl(h, port, path);
    forall c | c in u.Authority() ensures c !in "/?#" && Visible(c) {
      HostTextIsPlain(h, port);
    }
    forall i | 0 <= i < |u.BeforeFragment()| ensures Visible(u.BeforeFragment()[i]) {
      var c := u.BeforeFragment()[i];
      assert c in "https://" || c in u.Authority() || c in path;
    }
  }

  lemma PlainUrlParses(h: string, port: string, path: string, slug: string)
    requires HostText(h) && PortText(port) && PlainPath(path)
    requires var raw := "https://" + h + port + path; TrimSpace(raw) == raw && |raw| <= 512
    requires EscapedPath(path) == Some("/in/" + slug) && SlugText(slug)
    ensures Parse("https://" + h + port + path)
         == if IsLinkedInHost(h + port) then Some(Ref(slug, "https://www.linkedin.com/in/" + slug)) else None
  {
    hide HostText, PortText, PlainPath, SplitUrl, EscapedPath, ExtractSlug, IsLinkedInHost, TrimSpace, Contains;
    hide ValidSlug, SlugText;
    var raw := "https://" + h + port + path;
    SlugIff(slug);
    assert raw == "https" + "://" + (h + port + path);
    ContainsIff(raw);
    PlainUrlSplits(h, port, path);
    CanonicalPathYieldsSlug(slug);
    assert CANONICAL_PREFIX == "https://www.linkedin.com/in/";
  }

  lemma SlugPathIsPlain(slug: string)
    requires SlugText(slug)
    ensures PlainPath("/in/" + slug)
    ensures slug != "" && IsAscii(slug[|slug| - 1]) && !IsSpace1(slug[|slug| - 1])
  {
    hide Unescape;
  }

  // Which hosts are let through: for every host text, with or without a port, and
  // every slug, within 512 bytes, the URL is accepted if and only if the host,
  // lower-cased letter by letter, has one of the forms the pattern allows.
  lemma {:induction false} HostDecides(h: string, port: string, lower: string, slug: string)
    requires HostText(h) && PortText(port) && Lowered(h, lower) && SlugText(slug)
    requires |"https://" + h + port + "/in/" + slug| <= 512
    ensures Parse("https://" + h + port + "/in/" + slug)
         == if LinkedInName(lower) then Some(Ref(slug, "https://www.linkedin.com/in/" + slug)) else None
  {
    hide HostText, PortText, PlainPath, Lowered, LinkedInName, EscapedPath, IsLinkedInHost, TrimSpace, ValidSlug;
    hide SlugText, Parse;
    var raw := "https://" + h + port + "/in/" + slug;
    assert raw == "https://" + h + port + ("/in/" + slug);
    SlugIff(slug);
    SlugPathIsPlain(slug);
    assert raw[|raw| - 1] == slug[|slug| - 1];
    TrimKeeps(raw);
    PlainHostIff(h, port, lower);
    CanonicalPathDecodes(slug);
    PlainUrlParses(h, port, "/in/" + slug, slug);
  }

  // ---------------------------------------------------------------------------
  // Handles

  predicate HandleByte(c: char) { IsAlnum(c) || c in "-_." || 0x80 <= c as int < 0x100 }

  // Letters, digits, hyphens, underscores, dots and anything outside ASCII.
  predicate HandleText(u: string) { u != "" && forall i :: 0 <= i < |u| ==> HandleByte(u[i]) }

  lemma {:induction false} HandleEncodes(u: string)
    requires forall i :: 0 <= i < |u| ==> HandleByte(u[i])
    ensures forall i :: 0 <= i < |EscapePath(u)| ==> SlugByte(EscapePath(u)[i])
    ensures (forall i :: 0 <= i < |u| ==> IsAscii(u[i])) ==> EscapePath(u) == u
    ensures |EscapePath(u)| >= |u|
  {
    if u != "" {
      HandleEncodes(u[1..]);
      HandleByteEncodes(u[0]);
      assert u == [u[0]] + u[1..];
    }
  }

  lemma HandleByteEncodes(c: char)
    requires HandleByte(c)
    ensures forall i :: 0 <= i < |EscapeByte(c)| ==> SlugByte(EscapeByte(c)[i])
    ensures IsAscii(c) ==> EscapeByte(c) == [c]
    ensures EscapeByte(c) != ""
  {
  }

  lemma HandleIsSlug(u: string)
    requires HandleText(u) && |u| <= 150
    ensures SlugText(EscapePath(u)) && Unescape(EscapePath(u)) == Some(u)
  {
    hide EscapePath, Unescape;
    HandleEncodes(u);
    assert Bytes(u);
    EncodingIsUndone(u);
  }

  lemma {:induction false} PlainDecodes(s: string)
    requires '%' !in s
    ensures Unescape(s) == Some(s)
  {
    EmptyDecodes();
    UnescapeSkips(s, "");
    assert s + "" == s;
  }

  lemma {:induction false} EscapeJoins(a: string, b: string)
    ensures EscapePath(a + b) == EscapePath(a) + EscapePath(b)
  {
    if a == "" {
      assert a + b == b;
    } else {
      EscapeJoins(a[1..], b);
      assert (a + b)[1..] == a[1..] + b && (a + b)[0] == a[0];
      hide EscapeByte;
    }
  }

  lemma InIsKept()
    ensures EscapePath("/in/") == "/in/"
  {
    HandleEncodes("in");
    assert EscapePath("/") == "/" by { assert EscapePath("") == ""; }
    hide EscapePath;
    EscapeJoins("/", "in");
    EscapeJoins("/in", "/");
    assert "/" + "in" == "/in" && "/in" + "/" == "/in/";
  }

  lemma EscapeSkips(u: string)
    ensures EscapePath("/in/" + u) == "/in/" + EscapePath(u)
  {
    hide EscapePath;
    InIsKept();
    EscapeJoins("/in/", u);
  }

  lemma HandlePathEscapes(u: string)
    requires HandleText(u)
    ensures EscapedPath("/in/" + u) == Some("/in/" + EscapePath(u))
  {
    hide EscapePath, EscapedPath, Unescape;
    var p := "/in/" + u;
    assert Bytes(p) && '%' !in p;
    PlainDecodes(p);
    EscapedPathIs(p);
    EscapeSkips(u);
    if PathText(p) {
      forall i | 0 <= i < |u| ensures IsAscii(u[i]) {
        assert p[4 + i] == u[i];
      }
      HandleEncodes(u);
    }
  }

  lemma HandleUrlStays(u: string)
    requires HandleText(u) && !EndsWhite(u)
    ensures TrimSpace("https://www.linkedin.com/in/" + u) == "https://www.linkedin.com/in/" + u
  {
    var prefix, raw := "https://www.linkedin.com/in/", "https://www.linkedin.com/in/" + u;
    EndsIff(u);
    assert raw[0] == 'h' && SpaceBefore(raw) == 0;
    SpaceAfterSlash(prefix, u);
  }

  lemma SpaceAfterSlash(prefix: string, u: string)
    requires |prefix| >= 3 && prefix[|prefix| - 1] == '/' && u != ""
    ensures SpaceAfter(prefix + u) == SpaceAfter(u)
  {
    var raw := prefix + u;
    assert raw[|prefix| - 1] == '/';
    assert forall i :: 0 <= i < |u| ==> raw[|prefix| + i] == u[i];
  }

  // Handles outside ASCII: written as they are, they are accepted and become their
  // percent-encoding, which decodes to them; written percent-encoded, they are the
  // same reference.
  lemma {:induction false} HandlesSurvive(u: string)
    requires HandleText(u) && |u| <= 150 && !EndsWhite(u)
    ensures var slug := EscapePath(u);
            && Unescape(slug) == Some(u)
            && Parse("https://www.linkedin.com/in/" + u) == Some(Ref(slug, "https://www.linkedin.com/in/" + slug))
            && Parse("https://www.linkedin.com/in/" + slug) == Parse("https://www.linkedin.com/in/" + u)
  {
    hide TrimSpace, EscapedPath, IsLinkedInHost, EscapePath, Unescape, EndsWhite, ValidSlug, SlugText;
    assert HostText(HOST) && PortText("") && PlainPath("/in/" + u);
    hide HostText, PortText, PlainPath, Parse, HandleText;
    var raw := "https://www.linkedin.com/in/" + u;
    assert CANONICAL_PREFIX == "https://www.linkedin.com/in/" && HOST == "www.linkedin.com" && HOST + "" == HOST;
    HandleIsSlug(u);
    SlugIff(EscapePath(u));
    HandleUrlStays(u);
    assert raw == "https://" + HOST + "" + ("/in/" + u);
    CanonicalHost();
    HandlePathEscapes(u);
    PlainUrlParses(HOST, "", "/in/" + u, EscapePath(u));
    CanonicalParses(EscapePath(u));
  }

}
