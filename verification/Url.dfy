/** Parsing URLs into the parts a request needs, and printing the authority back. */
module Url {

  datatype UrlParts = UrlParts(host: string, target: string, port: nat, useSsl: bool)

  datatype Error = UnsupportedScheme | InvalidBracket | InvalidPort

  datatype Result<+T> = Ok(value: T) | Err(error: Error)

  // ---- searching ----

  predicate Lacks(s: string, cs: string) { forall i :: 0 <= i < |s| ==> s[i] !in cs }

  /** The index of the first character of `s` that is in `cs`, or the length. */
  function FindFirstOf(s: string, cs: string): (i: nat)
    ensures i <= |s| && (forall k :: 0 <= k < i ==> s[k] !in cs) && (i < |s| ==> s[i] in cs)
  {
    if s == "" || s[0] in cs then 0 else FindFirstOf(s[1..], cs) + 1
  }

  /** "://" stands at index k. */
  predicate DelimiterAt(s: string, k: nat) {
    k + 3 <= |s| && s[k] == ':' && s[k + 1] == '/' && s[k + 2] == '/'
  }

  /** The index of the first occurrence of "://", or the length. */
  function FindSchemeEnd(s: string): (i: nat)
    ensures i <= |s| && (forall k :: 0 <= k < i ==> !DelimiterAt(s, k)) && (i < |s| ==> DelimiterAt(s, i))
  {
    if s == "" || DelimiterAt(s, 0) then 0
    else
      var i := FindSchemeEnd(s[1..]) + 1;
      assert forall k :: 0 < k < i ==> (DelimiterAt(s, k) <==> DelimiterAt(s[1..], k - 1));
      assert i < |s| ==> DelimiterAt(s[1..], i - 1);
      i
  }

  lemma SchemeEndAt(s: string, i: nat)
    requires DelimiterAt(s, i) && forall k :: 0 <= k < i ==> !DelimiterAt(s, k)
    ensures FindSchemeEnd(s) == i
  {
  }

  /** The properties of FindFirstOf determine the index. */
  lemma FirstOfAt(s: string, cs: string, i: nat)
    requires i <= |s| && (forall k :: 0 <= k < i ==> s[k] !in cs) && (i < |s| ==> s[i] in cs)
    ensures FindFirstOf(s, cs) == i
  {
  }

  // ---- schemes ----

  function Lower(c: char): char {
    if 'A' <= c <= 'Z' then (c as int + ('a' as int - 'A' as int)) as char else c
  }

  /** ASCII case-insensitive equality with a lowercase word. */
  predicate SchemeMatches(scheme: string, expected: string) {
    |scheme| == |expected| && forall i :: 0 <= i < |scheme| ==> Lower(scheme[i]) == expected[i]
  }

  method SchemeEquals(scheme: string, expected: string) returns (equal: bool)
    ensures equal <==> SchemeMatches(scheme, expected)
  {
    if |scheme| != |expected| {
      return false;
    }
    for i := 0 to |scheme|
      invariant forall k :: 0 <= k < i ==> Lower(scheme[k]) == expected[k]
    {
      if Lower(scheme[i]) != expected[i] {
        return false;
      }
    }
    return true;
  }

  // ---- ports ----

  predicate IsDigit(c: char) { '0' <= c <= '9' }

  predicate AllDigits(s: string) { forall i :: 0 <= i < |s| ==> IsDigit(s[i]) }

  function ValueOf(s: string): nat
    requires AllDigits(s)
  {
    if s == "" then 0 else 10 * ValueOf(s[..|s| - 1]) + (s[|s| - 1] as int - '0' as int)
  }

  /** std::from_chars into a uint16_t: how far it reads, and the value unless there is none or it is out of range. */
  datatype Chars = Chars(end: nat, value: nat, valid: bool)

  function FromChars(s: string): Chars {
    var end := FindFirstNonDigit(s);
    Chars(end, ValueOf(s[..end]), 0 < end && ValueOf(s[..end]) <= 65535)
  }

  function FindFirstNonDigit(s: string): (i: nat)
    ensures i <= |s| && (forall k :: 0 <= k < i ==> IsDigit(s[k])) && (i < |s| ==> !IsDigit(s[i]))
  {
    if s == "" || !IsDigit(s[0]) then 0 else FindFirstNonDigit(s[1..]) + 1
  }

  /** std::to_chars. */
  function ToChars(n: nat): string {
    (if n < 10 then "" else ToChars(n / 10)) + [(n % 10 + '0' as int) as char]
  }

  // ---- parsing ----

  datatype Authority = Authority(host: string, port: string)

  /** "host", "host:port", "[ipv6]" or "[ipv6]:port"; several colons without brackets are an IPv6 literal. */
  function SplitAuthority(authority: string): Result<Authority> {
    if authority != "" && authority[0] == '[' then
      var close := FindFirstOf(authority, "]");
      if close == |authority| || (close + 1 < |authority| && authority[close + 1] != ':') then Err(InvalidBracket)
      else Ok(Authority(authority[1..close], if close + 1 < |authority| then authority[close + 2..] else ""))
    else
      var colon := FindFirstOf(authority, ":");
      if colon < |authority| && Lacks(authority[colon + 1..], ":")
      then Ok(Authority(authority[..colon], authority[colon + 1..]))
      else Ok(Authority(authority, ""))
  }

  /** The part of the parser behind the scheme. */
  function ParseRest(url: string, useSsl: bool): Result<UrlParts> {
    var noFragment := url[..FindFirstOf(url, "#")];
    var authorityEnd := FindFirstOf(noFragment, "/?");
    var target := noFragment[authorityEnd..];
    match SplitAuthority(noFragment[..authorityEnd])
    case Err(e) => Err(e)
    case Ok(authority) =>
      var chars := FromChars(authority.port);
      if authority.port != "" && (!chars.valid || chars.end != |authority.port| || chars.value == 0)
      then Err(InvalidPort)
      else
        Ok(UrlParts(authority.host,
                    if target == "" || target[0] != '/' then "/" + target else target,
                    if authority.port != "" then chars.value else if useSsl then 443 else 80,
                    useSsl))
  }

  /** A "://" after the start of the path, the query or the fragment is not a scheme delimiter. */
  predicate HasScheme(url: string) {
    FindSchemeEnd(url) < |url| && FindSchemeEnd(url) < FindFirstOf(url, "/?#")
  }

  /** What is behind the scheme, and whether the scheme is the secure one. */
  datatype View = View(text: string, useSsl: bool)

  /** A missing scheme means the secure one. */
  function StripScheme(url: string, plain: string, secure: string): Result<View> {
    if HasScheme(url) then
      var pos := FindSchemeEnd(url);
      var useSsl := SchemeMatches(url[..pos], secure);
      if !useSsl && !SchemeMatches(url[..pos], plain) then Err(UnsupportedScheme) else Ok(View(url[pos + 3..], useSsl))
    else Ok(View(url, true))
  }

  function ParseUrlParts(url: string, plain: string, secure: string): Result<UrlParts> {
    match StripScheme(url, plain, secure)
    case Err(e) => Err(e)
    case Ok(view) => ParseRest(view.text, view.useSsl)
  }

  method Split(authority: string) returns (r: Result<Authority>)
    ensures r == SplitAuthority(authority)
  {
    var host, port := authority, "";
    if authority != "" && authority[0] == '[' {
      var close := FindFirstOf(authority, "]");
      if close == |authority| || (close + 1 < |authority| && authority[close + 1] != ':') {
        return Err(InvalidBracket);
      }
      host := authority[1..close];
      if close + 1 < |authority| {
        port := authority[close + 2..];
      }
    } else {
      var colon := FindFirstOf(authority, ":");
      if colon < |authority| && Lacks(authority[colon + 1..], ":") {
        host, port := authority[..colon], authority[colon + 1..];
      }
    }
    return Ok(Authority(host, port));
  }

  /** A port that exists, a target in origin form without a fragment, and a host that ends in front of the path,
      the query and the fragment. */
  predicate WellFormed(parts: UrlParts) {
    && 1 <= parts.port <= 65535
    && parts.target != "" && parts.target[0] == '/' && Lacks(parts.target, "#")
    && Lacks(parts.host, "/?#")
  }

  /** The parser as it runs: it narrows its view of the URL step by step and fills the parts in. */
  method Parse(text: string, plain: string, secure: string) returns (r: Result<UrlParts>)
    ensures r == ParseUrlParts(text, plain, secure)
    ensures r.Ok? ==> WellFormed(r.value)
    ensures HasScheme(text) && r.Ok? ==>
              (r.value.useSsl <==> SchemeMatches(text[..FindSchemeEnd(text)], secure))
              && (r.value.useSsl || SchemeMatches(text[..FindSchemeEnd(text)], plain))
    ensures !HasScheme(text) && r.Ok? ==> r.value.useSsl
  {
    var url, useSsl := text, true;
    var pos := FindSchemeEnd(url);
    if pos < |url| && pos < FindFirstOf(url, "/?#") {
      var scheme := url[..pos];
      useSsl := SchemeEquals(scheme, secure);
      var isPlain := SchemeEquals(scheme, plain);
      if !useSsl && !isPlain {
        return Err(UnsupportedScheme);
      }
      url := url[pos + 3..];
    }
    ghost var behind := url;
    assert StripScheme(text, plain, secure) == Ok(View(behind, useSsl));
    url := url[..FindFirstOf(url, "#")];
    var authorityEnd := FindFirstOf(url, "/?");
    var authority, target := url[..authorityEnd], url[authorityEnd..];
    var split := Split(authority);
    if split.Err? {
      return Err(split.error);
    }
    var port := split.value.port;
    var parts := UrlParts(split.value.host, "", if useSsl then 443 else 80, useSsl);
    if port != "" {
      var chars := FromChars(port);
      if !chars.valid || chars.end != |port| || chars.value == 0 {
        return Err(InvalidPort);
      }
      parts := parts.(port := chars.value);
    }
    if target == "" || target[0] != '/' {
      parts := parts.(target := "/");
    }
    assert "" + target == target;
    parts := parts.(target := parts.target + target);
    assert ParseRest(behind, useSsl) == Ok(parts);
    AcceptedShape(text, plain, secure);
    return Ok(parts);
  }

  // ---- printing ----

  function FormatAuthority(host: string, port: nat): string {
    (if ':' in host then "[" + host + "]" else host) + PortSuffix(port)
  }

  /** The printer as it runs, appending piece by piece. What it prints splits into the host and the digits it was
      given exactly when the host allows it. */
  method Format(host: string, port: nat) returns (authority: string)
    ensures authority == FormatAuthority(host, port)
    ensures Lacks(host, "/?#") ==>
              (SplitAuthority(authority) == Ok(Authority(host, if port == 0 then "" else ToChars(port)))
               <==> HostOk(host))
  {
    var ipv6 := ':' in host;
    authority := "";
    if ipv6 {
      authority := authority + "[";
    }
    authority := authority + host;
    if ipv6 {
      authority := authority + "]";
    }
    ghost var printed := authority;
    assert printed == if ipv6 then "[" + host + "]" else host;
    if port != 0 {
      authority := authority + ":";
      authority := authority + ToChars(port);
      assert authority == printed + PortSuffix(port);
    }
    assert printed + "" == printed;
    if Lacks(host, "/?#") {
      AuthorityRoundTrip(host, port);
    }
  }

  function DefaultPort(useSsl: bool): nat { if useSsl then 443 else 80 }

  function FormatHostHeader(parts: UrlParts): string {
    FormatAuthority(parts.host, if parts.port == DefaultPort(parts.useSsl) then 0 else parts.port)
  }

  // ---- what every accepted URL gives ----

  /** An accepted URL yields a port in 1-65535, an origin-form target without a fragment, and a host that ends
      before the path, the query and the fragment. */
  lemma AcceptedShape(url: string, plain: string, secure: string)
    requires ParseUrlParts(url, plain, secure).Ok?
    ensures WellFormed(ParseUrlParts(url, plain, secure).value)
  {
    var view := StripScheme(url, plain, secure).value;
    RestShape(view.text, view.useSsl);
  }

  lemma SplitHostIsPart(authority: string, cs: string)
    requires Lacks(authority, cs) && SplitAuthority(authority).Ok?
    ensures Lacks(SplitAuthority(authority).value.host, cs)
  {
  }

  /** The authority ends in front of the path, the query and the fragment. */
  lemma AuthorityLacks(url: string)
    ensures
      var noFragment := url[..FindFirstOf(url, "#")];
      Lacks(noFragment, "#") && Lacks(noFragment[..FindFirstOf(noFragment, "/?")], "/?#")
  {
    var noFragment := url[..FindFirstOf(url, "#")];
    var authority := noFragment[..FindFirstOf(noFragment, "/?")];
    forall i | 0 <= i < |authority| ensures authority[i] !in "/?#" {
      assert authority[i] == noFragment[i] && noFragment[i] == url[i];
    }
  }

  lemma RestShape(url: string, useSsl: bool)
    requires ParseRest(url, useSsl).Ok?
    ensures WellFormed(ParseRest(url, useSsl).value)
  {
    AuthorityLacks(url);
    var noFragment := url[..FindFirstOf(url, "#")];
    SplitHostIsPart(noFragment[..FindFirstOf(noFragment, "/?")], "/?#");
  }

  // ---- round trips ----

  predicate IsWord(s: string) { forall i :: 0 <= i < |s| ==> 'a' <= s[i] <= 'z' }

  /** A host that can be printed into an authority and read back. */
  predicate HostOk(host: string) {
    && Lacks(host, "/?#")
    && (if ':' in host then Lacks(host, "]") else host == "" || host[0] != '[')
  }

  lemma {:induction false} ToCharsValue(n: nat)
    ensures ToChars(n) != "" && AllDigits(ToChars(n)) && ValueOf(ToChars(n)) == n
  {
    var s := ToChars(n);
    if n >= 10 {
      ToCharsValue(n / 10);
      assert s[..|s| - 1] == ToChars(n / 10);
    } else {
      assert s[..|s| - 1] == "";
    }
  }

  function Pow10(k: nat): nat { if k == 0 then 1 else 10 * Pow10(k - 1) }

  lemma {:induction false} ToCharsShort(n: nat, k: nat)
    requires k > 0 && n < Pow10(k)
    ensures |ToChars(n)| <= k
  {
    if n >= 10 {
      ToCharsShort(n / 10, k - 1);
    }
  }

  /** The digits of a port fit the buffer of five and read back as that port. */
  lemma PortDigits(port: nat)
    requires 1 <= port <= 65535
    ensures |ToChars(port)| <= 5
    ensures FromChars(ToChars(port)) == Chars(|ToChars(port)|, port, true)
  {
    PortIsShort(port);
    ToCharsValue(port);
    WholeFromChars(ToChars(port));
  }

  lemma PortIsShort(port: nat)
    requires port <= 65535
    ensures |ToChars(port)| <= 5
  {
    assert Pow10(5) == 10 * Pow10(4) && Pow10(4) == 10 * Pow10(3) && Pow10(3) == 10 * Pow10(2);
    ToCharsShort(port, 5);
  }

  lemma WholeFromChars(s: string)
    requires s != "" && AllDigits(s)
    ensures FromChars(s) == Chars(|s|, ValueOf(s), ValueOf(s) <= 65535)
  {
    assert s[..|s|] == s;
  }

  lemma DigitsLack(s: string)
    requires AllDigits(s)
    ensures Lacks(s, "/?#") && Lacks(s, ":") && Lacks(s, "]")
  {
  }

  /** A colon and a port, or nothing. */
  function PortSuffix(port: nat): string { if port != 0 then ":" + ToChars(port) else "" }

  lemma SuffixLacks(port: nat)
    ensures Lacks(PortSuffix(port), "/?#")
  {
    ToCharsValue(port);
    DigitsLack(ToChars(port));
  }

  lemma LacksAppend(a: string, b: string, cs: string)
    requires Lacks(a, cs) && Lacks(b, cs)
    ensures Lacks(a + b, cs)
  {
  }

  /** Printing an authority and splitting it again gives the host and the digits back exactly when the host allows
      it. */
  lemma AuthorityRoundTrip(host: string, port: nat)
    requires Lacks(host, "/?#")
    ensures
      var r := SplitAuthority(FormatAuthority(host, port));
      if HostOk(host) then r == Ok(Authority(host, if port == 0 then "" else ToChars(port)))
      else r.Ok? ==> r.value.host != host
  {
    var digits := if port == 0 then "" else ToChars(port);
    var tail := if port == 0 then "" else ":" + digits;
    ToCharsValue(port);
    DigitsLack(ToChars(port));
    if ':' in host {
      BracketRoundTrip(host, tail);
    } else {
      PlainRoundTrip(host, tail, digits);
    }
  }

  lemma BracketRoundTrip(host: string, tail: string)
    requires ':' in host && (tail == "" || tail[0] == ':')
    ensures
      var r := SplitAuthority("[" + host + "]" + tail);
      if Lacks(host, "]") then r == Ok(Authority(host, if tail == "" then "" else tail[1..]))
      else r.Ok? ==> r.value.host != host
  {
    if Lacks(host, "]") { BracketSplits(host, tail); } else { BracketCloses(host, tail); }
  }

  /** The text between the brackets, and what follows the closing one. */
  lemma BracketParts(host: string, tail: string)
    ensures
      var authority := "[" + host + "]" + tail;
      && authority[0] == '[' && authority[|host| + 1] == ']' && authority[1..|host| + 1] == host
      && authority[|host| + 2..] == tail
      && forall i :: 0 <= i < |host| ==> authority[i + 1] == host[i]
  {
    var authority := "[" + host + "]" + tail;
    assert authority == "[" + (host + ("]" + tail));
  }

  /** Without a bracket in the host the first closing one is its own. */
  lemma BracketSplits(host: string, tail: string)
    requires Lacks(host, "]") && (tail == "" || tail[0] == ':')
    ensures SplitAuthority("[" + host + "]" + tail) == Ok(Authority(host, if tail == "" then "" else tail[1..]))
  {
    var authority := "[" + host + "]" + tail;
    BracketParts(host, tail);
    forall k | 0 <= k < |host| + 1 ensures authority[k] !in "]" {
      if k > 0 {
        assert authority[(k - 1) + 1] == host[k - 1];
      }
    }
    FirstOfAt(authority, "]", |host| + 1);
    if tail != "" {
      assert authority[|host| + 2..][0] == authority[|host| + 2] && authority[|host| + 3..] == tail[1..];
    }
  }

  /** A bracket in the host ends it early. */
  lemma BracketCloses(host: string, tail: string)
    requires !Lacks(host, "]")
    ensures var r := SplitAuthority("[" + host + "]" + tail); r.Ok? ==> r.value.host != host
  {
    var authority := "[" + host + "]" + tail;
    BracketParts(host, tail);
    var i :| 0 <= i < |host| && host[i] in "]";
    assert authority[i + 1] == host[i];
    assert FindFirstOf(authority, "]") <= i + 1;
  }

  lemma PlainRoundTrip(host: string, tail: string, digits: string)
    requires ':' !in host && Lacks(digits, ":") && Lacks(digits, "]")
    requires tail == "" == digits || tail == ":" + digits
    ensures
      var r := SplitAuthority(host + tail);
      if host == "" || host[0] != '[' then r == Ok(Authority(host, digits)) else r.Ok? ==> r.value.host != host
  {
    var authority := host + tail;
    if host != "" && host[0] == '[' {
      var close := FindFirstOf(authority, "]");
      assert forall i :: |host| <= i < |authority| ==> authority[i] == tail[i - |host|];
    } else {
      FirstOfAt(authority, ":", |host|);
      assert authority[..|host|] == host;
      if tail != "" {
        assert authority[|host| + 1..] == digits;
      } else {
        assert authority == host;
      }
    }
  }

  /** Behind the scheme the authority ends at the target and nothing is lost. */
  lemma RestSplits(authority: string, target: string)
    requires Lacks(authority, "/?#") && target != "" && target[0] == '/' && Lacks(target, "#")
    ensures
      var url := authority + target;
      && url[..FindFirstOf(url, "#")] == url
      && url[..FindFirstOf(url, "/?")] == authority && url[FindFirstOf(url, "/?")..] == target
  {
    var url := authority + target;
    FirstOfAt(url, "#", |url|);
    FirstOfAt(url, "/?", |authority|);
  }

  lemma FormattedLacks(host: string, port: nat)
    requires Lacks(host, "/?#")
    ensures Lacks(FormatAuthority(host, port), "/?#")
  {
    SuffixLacks(port);
    LacksAppend(if ':' in host then "[" + host + "]" else host, PortSuffix(port), "/?#");
  }

  /** An explicit port, or none where the connection's default is meant. */
  predicate PortFor(port: nat, printed: nat, useSsl: bool) {
    1 <= port <= 65535 && (printed == port || (printed == 0 && port == DefaultPort(useSsl)))
  }

  lemma RestRoundTrip(host: string, port: nat, printed: nat, target: string, useSsl: bool)
    requires PortFor(port, printed, useSsl) && target != "" && target[0] == '/' && Lacks(target, "#")
    ensures
      ParseRest(FormatAuthority(host, printed) + target, useSsl) == Ok(UrlParts(host, target, port, useSsl))
      <==> HostOk(host)
  {
    var url := FormatAuthority(host, printed) + target;
    if Lacks(host, "/?#") {
      FormattedLacks(host, printed);
      RestSplits(FormatAuthority(host, printed), target);
      AuthorityRoundTrip(host, printed);
      if printed != 0 {
        ToCharsValue(printed);
        PortDigits(printed);
      }
    } else if ParseRest(url, useSsl).Ok? {
      RestShape(url, useSsl);
    }
  }

  /** A scheme followed by "://" is found as such. */
  lemma SchemeFound(scheme: string, rest: string)
    requires Lacks(scheme, ":/?#")
    ensures
      var url := scheme + "://" + rest;
      FindSchemeEnd(url) == |scheme| && |scheme| < FindFirstOf(url, "/?#")
      && url[..|scheme|] == scheme && url[|scheme| + 3..] == rest
  {
    var url := scheme + "://" + rest;
    assert forall k :: 0 <= k < |scheme| ==> url[k] == scheme[k] && url[k] !in ":/?#";
    SchemeEndAt(url, |scheme|);
    assert url[|scheme|] == ':' && url[|scheme| + 1] == '/';
    FirstOfAt(url, "/?#", |scheme| + 1);
  }

  lemma WordLacks(scheme: string, expected: string)
    requires IsWord(expected) && SchemeMatches(scheme, expected)
    ensures Lacks(scheme, ":/?#")
  {
    forall i | 0 <= i < |scheme| ensures scheme[i] !in ":/?#" {
      assert Lower(scheme[i]) == expected[i];
    }
  }

  /** Parsing scheme://authority/target gives back exactly the parts it was printed from, with the port written
      out, if and only if the host allows it; the scheme may be in any letter case. */
  lemma UrlRoundTrip(scheme: string, plain: string, secure: string,
                     host: string, port: nat, printed: nat, target: string)
    requires IsWord(plain) && IsWord(secure)
    requires SchemeMatches(scheme, plain) || SchemeMatches(scheme, secure)
    requires PortFor(port, printed, SchemeMatches(scheme, secure))
    requires target != "" && target[0] == '/' && Lacks(target, "#")
    ensures
      ParseUrlParts(scheme + "://" + FormatAuthority(host, printed) + target, plain, secure)
        == Ok(UrlParts(host, target, port, SchemeMatches(scheme, secure)))
      <==> HostOk(host)
  {
    if SchemeMatches(scheme, plain) { WordLacks(scheme, plain); } else { WordLacks(scheme, secure); }
    var rest := FormatAuthority(host, printed) + target;
    SchemeFound(scheme, rest);
    assert scheme + "://" + FormatAuthority(host, printed) + target == scheme + "://" + rest;
    RestRoundTrip(host, port, printed, target, SchemeMatches(scheme, secure));
  }

  /** The same with the Host header value, which leaves the default port out. */
  lemma HostHeaderRoundTrip(scheme: string, plain: string, secure: string, parts: UrlParts)
    requires IsWord(plain) && IsWord(secure)
    requires SchemeMatches(scheme, plain) || SchemeMatches(scheme, secure)
    requires parts.useSsl == SchemeMatches(scheme, secure) && 1 <= parts.port <= 65535
    requires parts.target != "" && parts.target[0] == '/' && Lacks(parts.target, "#")
    ensures
      ParseUrlParts(scheme + "://" + FormatHostHeader(parts) + parts.target, plain, secure) == Ok(parts)
      <==> HostOk(parts.host)
  {
    UrlRoundTrip(scheme, plain, secure, parts.host, parts.port,
                 if parts.port == DefaultPort(parts.useSsl) then 0 else parts.port, parts.target);
  }

  lemma RestFragment(url: string, fragment: string, useSsl: bool)
    requires Lacks(url, "#")
    ensures ParseRest(url + "#" + fragment, useSsl) == ParseRest(url, useSsl)
  {
    var long := url + "#" + fragment;
    FirstOfAt(long, "#", |url|);
    FirstOfAt(url, "#", |url|);
    assert long[..|url|] == url == url[..|url|];
  }

  /** A fragment changes nothing, not even when it contains "://". */
  lemma FragmentDropped(url: string, fragment: string, plain: string, secure: string)
    requires Lacks(url, "#")
    ensures ParseUrlParts(url + "#" + fragment, plain, secure) == ParseUrlParts(url, plain, secure)
  {
    FragmentStays(url, fragment, plain, secure);
    var r := StripScheme(url, plain, secure);
    if r.Ok? {
      RestFragment(r.value.text, fragment, r.value.useSsl);
    }
  }

  /** The scheme is stripped in front of the fragment. */
  lemma FragmentStays(url: string, fragment: string, plain: string, secure: string)
    requires Lacks(url, "#")
    ensures
      var r := StripScheme(url, plain, secure);
      && StripScheme(url + "#" + fragment, plain, secure)
           == (if r.Ok? then Ok(View(r.value.text + "#" + fragment, r.value.useSsl)) else r)
      && (r.Ok? ==> Lacks(r.value.text, "#"))
  {
    var long, pos := url + "#" + fragment, FindSchemeEnd(url);
    FragmentKeepsPrefix(url, fragment);
    if HasScheme(url) {
      assert long[..pos] == url[..pos] && long[pos + 3..] == url[pos + 3..] + "#" + fragment;
    }
  }

  /** Whether there is a scheme, and where it ends, is decided in front of the fragment. */
  lemma FragmentKeepsPrefix(url: string, fragment: string)
    requires Lacks(url, "#")
    ensures HasScheme(url + "#" + fragment) <==> HasScheme(url)
    ensures HasScheme(url) ==> FindSchemeEnd(url + "#" + fragment) == FindSchemeEnd(url)
  {
    var long, pos := url + "#" + fragment, FindSchemeEnd(url);
    assert forall k :: 0 <= k < |url| ==> long[k] == url[k];
    assert long[|url|] == '#';
    assert forall k :: 0 <= k < |url| && DelimiterAt(long, k) ==> DelimiterAt(url, k);
    if pos < |url| {
      SchemeEndAt(long, pos);
      FirstOfAt(long, "/?#", FindFirstOf(url, "/?#"));
    }
  }
}
