/** What a URL means, as a relation on its text, and that the parser finds exactly that. */
module UrlMeaning {
  import opened Url

  // ---- the authority ----

  predicate Has(s: string, c: char) { exists i :: 0 <= i < |s| && s[i] == c }

  predicate SeveralColons(s: string) { exists i, j :: 0 <= i < j < |s| && s[i] == ':' && s[j] == ':' }

  predicate Bracketed(s: string) { s != "" && s[0] == '[' }

  /** "[host]" or "[host]:port". */
  predicate MeansBracketed(authority: string, host: string, port: string) {
    && !Has(host, ']')
    && ((port == "" && authority == "[" + host + "]") || authority == "[" + host + "]:" + port)
  }

  /** "host:port" with that one colon, or a host without colons or with several, which is an address without a port. */
  predicate MeansPlain(authority: string, host: string, port: string) {
    && !Bracketed(authority)
    && ((!Has(host, ':') && !Has(port, ':') && authority == host + ":" + port)
        || (port == "" && authority == host && (!Has(host, ':') || SeveralColons(host))))
  }

  predicate Means(authority: string, host: string, port: string) {
    MeansBracketed(authority, host, port) || MeansPlain(authority, host, port)
  }

  lemma HasLacks(s: string, c: char)
    ensures !Has(s, c) <==> Lacks(s, [c])
  {
    if Has(s, c) {
      var i :| 0 <= i < |s| && s[i] == c;
      assert s[i] in [c];
    }
  }

  lemma BracketMeaning(authority: string, host: string, port: string)
    requires MeansBracketed(authority, host, port)
    ensures SplitAuthority(authority) == Ok(Authority(host, port))
  {
    HasLacks(host, ']');
    assert Lacks(host, "]") by { assert "]" == [']']; }
    var tail := if authority == "[" + host + "]" then "" else ":" + port;
    assert authority == "[" + host + "]" + tail;
    BracketSplits(host, tail);
  }

  lemma OneColonMeaning(authority: string, host: string, port: string)
    requires !Bracketed(authority) && !Has(host, ':') && !Has(port, ':') && authority == host + ":" + port
    ensures SplitAuthority(authority) == Ok(Authority(host, port))
  {
    HasLacks(port, ':');
    assert authority[|host|] == ':';
    forall k | 0 <= k < |host| ensures authority[k] !in ":" { assert authority[k] == host[k]; }
    FirstOfAt(authority, ":", |host|);
    assert authority[..|host|] == host && authority[|host| + 1..] == port;
  }

  lemma NoPortMeaning(host: string)
    requires !Bracketed(host) && (!Has(host, ':') || SeveralColons(host))
    ensures SplitAuthority(host) == Ok(Authority(host, ""))
  {
    var colon := FindFirstOf(host, ":");
    if colon < |host| {
      assert host[colon] == ':';
      var i, j :| 0 <= i < j < |host| && host[i] == ':' && host[j] == ':';
      assert colon <= i by { assert host[i] in ":"; }
      assert host[colon + 1..][j - colon - 1] == ':';
      assert !Lacks(host[colon + 1..], ":");
    }
  }

  /** What the parser finds is what the text means. */
  lemma FoundIsMeant(authority: string)
    requires SplitAuthority(authority).Ok?
    ensures Means(authority, SplitAuthority(authority).value.host, SplitAuthority(authority).value.port)
  {
    if Bracketed(authority) {
      var close := FindFirstOf(authority, "]");
      var host := authority[1..close];
      assert authority[close] == ']';
      forall i | 0 <= i < |host| ensures host[i] != ']' { assert host[i] == authority[i + 1]; }
      if close + 1 < |authority| {
        assert authority == "[" + host + "]:" + authority[close + 2..];
      } else {
        assert authority == "[" + host + "]";
      }
    } else {
      FoundPlain(authority);
    }
  }

  lemma FoundPlain(authority: string)
    requires !Bracketed(authority)
    ensures MeansPlain(authority, SplitAuthority(authority).value.host, SplitAuthority(authority).value.port)
  {
    var colon := FindFirstOf(authority, ":");
    if colon < |authority| {
      var host, port := authority[..colon], authority[colon + 1..];
      assert authority[colon] == ':' && authority == host + ":" + port;
      HasLacks(port, ':');
      if !Lacks(port, ":") {
        var j :| 0 <= j < |port| && port[j] in ":";
        assert authority[colon + 1 + j] == ':';
      }
    } else {
      HasLacks(authority, ':');
    }
  }

  /** The parser splits an authority into a host and a port if and only if that is what it means; so an authority
      means one thing at most, and what means nothing is refused. */
  lemma SplitIffMeans(authority: string, host: string, port: string)
    ensures SplitAuthority(authority) == Ok(Authority(host, port)) <==> Means(authority, host, port)
    ensures SplitAuthority(authority) == Err(InvalidBracket) <==> forall h, p :: !Means(authority, h, p)
  {
    if SplitAuthority(authority).Ok? { FoundIsMeant(authority); }
    if exists h, p :: Means(authority, h, p) {
      var h, p :| Means(authority, h, p);
      MeantIsFound(authority, h, p);
    }
    if Means(authority, host, port) { MeantIsFound(authority, host, port); }
  }

  lemma MeantIsFound(authority: string, host: string, port: string)
    requires Means(authority, host, port)
    ensures SplitAuthority(authority) == Ok(Authority(host, port))
  {
    if MeansBracketed(authority, host, port) { BracketMeaning(authority, host, port); }
    else if port == "" && authority == host { NoPortMeaning(host); }
    else { OneColonMeaning(authority, host, port); }
  }

  /** A bracketed authority is refused exactly if its bracket is not closed, or is closed in front of anything but
      the end or a colon. */
  lemma BadBracketIff(authority: string)
    ensures
      SplitAuthority(authority) == Err(InvalidBracket) <==>
        Bracketed(authority)
        && (!Has(authority, ']')
            || exists i :: 0 <= i && i + 1 < |authority| && authority[i] == ']' && !Has(authority[..i], ']')
                           && authority[i + 1] != ':')
  {
    if Bracketed(authority) {
      var close := FindFirstOf(authority, "]");
      HasLacks(authority, ']');
      if close < |authority| {
        assert authority[close] == ']' && !Has(authority[..close], ']');
      }
      forall i | 0 <= i < |authority| && authority[i] == ']' && !Has(authority[..i], ']') ensures i == close {
        FirstBracket(authority, i);
      }
    }
  }

  lemma FirstBracket(s: string, i: nat)
    requires i < |s| && s[i] == ']' && !Has(s[..i], ']')
    ensures FindFirstOf(s, "]") == i
  {
    HasLacks(s[..i], ']');
    forall k | 0 <= k < i ensures s[k] !in "]" { assert s[..i][k] == s[k]; }
    FirstOfAt(s, "]", i);
  }

  // ---- ports ----

  /** A decimal number from 1 to 65535, leading zeros allowed. */
  predicate IsPort(port: string) { port != "" && AllDigits(port) && 1 <= ValueOf(port) <= 65535 }

  lemma PortIff(port: string)
    ensures
      var chars := FromChars(port);
      IsPort(port) <==> chars.valid && chars.end == |port| && chars.value != 0
    ensures IsPort(port) ==> FromChars(port).value == ValueOf(port)
  {
    if AllDigits(port) && port != "" {
      WholeFromChars(port);
    } else if FindFirstNonDigit(port) == |port| {
      assert AllDigits(port);
    }
  }

  // ---- the whole URL ----

  /** A path or a query, or neither; no fragment. */
  predicate IsTail(tail: string) { (tail == "" || tail[0] in "/?") && Lacks(tail, "#") }

  predicate IsFragment(fragment: string) { fragment == "" || fragment[0] == '#' }

  /** The target in origin form: a URL without a path has the path "/". */
  function TargetOf(tail: string): string { if tail != "" && tail[0] == '/' then tail else "/" + tail }

  lemma RestParts(authority: string, tail: string, fragment: string)
    requires Lacks(authority, "/?#") && IsTail(tail) && IsFragment(fragment)
    ensures
      var url := authority + tail + fragment;
      var noFragment := url[..FindFirstOf(url, "#")];
      && noFragment == authority + tail
      && noFragment[..FindFirstOf(noFragment, "/?")] == authority
      && noFragment[FindFirstOf(noFragment, "/?")..] == tail
  {
    var url, both := authority + tail + fragment, authority + tail;
    forall k | 0 <= k < |both| ensures url[k] !in "#" {
      assert url[k] == both[k] && (k < |authority| ==> both[k] == authority[k])
             && (k >= |authority| ==> both[k] == tail[k - |authority|]);
    }
    FirstOfAt(url, "#", |both|);
    assert url[..|both|] == both;
    forall k | 0 <= k < |authority| ensures both[k] !in "/?" { assert both[k] == authority[k]; }
    FirstOfAt(both, "/?", |authority|);
  }

  /** What is behind the scheme: the authority up to the path, the query or the fragment, then the target. */
  lemma RestMeaning(authority: string, tail: string, fragment: string, host: string, port: string, useSsl: bool)
    requires Lacks(authority, "/?#") && IsTail(tail) && IsFragment(fragment)
    ensures
      var r := ParseRest(authority + tail + fragment, useSsl);
      && (Means(authority, host, port) ==>
            r == if port == "" then Ok(UrlParts(host, TargetOf(tail), DefaultPort(useSsl), useSsl))
                 else if IsPort(port) then Ok(UrlParts(host, TargetOf(tail), ValueOf(port), useSsl))
                 else Err(InvalidPort))
      && ((forall h, p :: !Means(authority, h, p)) ==> r == Err(InvalidBracket))
  {
    RestParts(authority, tail, fragment);
    SplitIffMeans(authority, host, port);
    PortIff(port);
  }

  /** A port is refused exactly if the authority means one that is not a number from 1 to 65535. */
  lemma BadPortIff(authority: string, tail: string, fragment: string, useSsl: bool)
    requires Lacks(authority, "/?#") && IsTail(tail) && IsFragment(fragment)
    ensures ParseRest(authority + tail + fragment, useSsl) == Err(InvalidPort)
            <==> exists h, p :: Means(authority, h, p) && p != "" && !IsPort(p)
  {
    var url := authority + tail + fragment;
    if h, p :| Means(authority, h, p) && p != "" && !IsPort(p) {
      RestMeaning(authority, tail, fragment, h, p, useSsl);
    }
    var split := SplitAuthority(authority);
    if split.Ok? {
      FoundIsMeant(authority);
      RestMeaning(authority, tail, fragment, split.value.host, split.value.port, useSsl);
    } else {
      SplitIffMeans(authority, "", "");
      RestMeaning(authority, tail, fragment, "", "", useSsl);
    }
  }

  // ---- the scheme ----

  /** A scheme in front: the parser goes on behind its "://". */
  lemma WithScheme(scheme: string, rest: string, plain: string, secure: string)
    requires Lacks(scheme, ":/?#")
    ensures
      var r := ParseUrlParts(scheme + "://" + rest, plain, secure);
      if SchemeMatches(scheme, secure) then r == ParseRest(rest, true)
      else if SchemeMatches(scheme, plain) then r == ParseRest(rest, false)
      else r == Err(UnsupportedScheme)
  {
    SchemeFound(scheme, rest);
  }

  /** The same letter, the first of them in either case, or the same character. */
  predicate SameLetter(a: char, b: char) {
    a == b || ('A' <= a <= 'Z' && 'a' <= b <= 'z' && a as int - 'A' as int == b as int - 'a' as int)
  }

  /** A scheme is matched in any letter case, and no other way. */
  lemma AnyCase(scheme: string, expected: string)
    requires IsWord(expected)
    ensures SchemeMatches(scheme, expected)
            <==> |scheme| == |expected| && forall i :: 0 <= i < |scheme| ==> SameLetter(scheme[i], expected[i])
  {
    if |scheme| == |expected| {
      forall i | 0 <= i < |scheme| ensures Lower(scheme[i]) == expected[i] <==> SameLetter(scheme[i], expected[i]) {
        assert 'a' <= expected[i] <= 'z';
      }
    }
  }

  /** No scheme in front: "://" comes nowhere, or not before the path, the query or the fragment begins. */
  predicate SchemeLess(url: string) {
    forall k :: 0 <= k < |url| && DelimiterAt(url, k) ==> !Lacks(url[..k], "/?#")
  }

  lemma WithoutScheme(url: string, plain: string, secure: string)
    requires SchemeLess(url)
    ensures ParseUrlParts(url, plain, secure) == ParseRest(url, true)
  {
    SchemeHasDelimiter(url);
  }

  lemma SchemeHasDelimiter(url: string)
    ensures HasScheme(url) ==> exists k :: 0 <= k < |url| && DelimiterAt(url, k) && Lacks(url[..k], "/?#")
  {
    if HasScheme(url) {
      var pos := FindSchemeEnd(url);
      assert DelimiterAt(url, pos) && Lacks(url[..pos], "/?#");
    }
  }

  /** An IPv6 address needs no brackets where it has no port. */
  lemma BareAddress(scheme: string, plain: string, secure: string, host: string, tail: string, fragment: string)
    requires IsWord(plain) && IsWord(secure)
    requires SchemeMatches(scheme, plain) || SchemeMatches(scheme, secure)
    requires Lacks(host, "/?#") && !Bracketed(host) && SeveralColons(host) && IsTail(tail) && IsFragment(fragment)
    ensures
      var useSsl := SchemeMatches(scheme, secure);
      ParseUrlParts(scheme + "://" + (host + tail + fragment), plain, secure)
        == Ok(UrlParts(host, TargetOf(tail), DefaultPort(useSsl), useSsl))
  {
    if SchemeMatches(scheme, plain) { WordLacks(scheme, plain); } else { WordLacks(scheme, secure); }
    WithScheme(scheme, host + tail + fragment, plain, secure);
    RestMeaning(host, tail, fragment, host, "", SchemeMatches(scheme, secure));
  }

  /** A "://" behind the start of the path or the query is part of the target. */
  lemma DelimiterInTarget(plain: string, secure: string, host: string, tail: string)
    requires Lacks(host, "/?#:") && !Bracketed(host) && IsTail(tail)
    ensures ParseUrlParts(host + tail, plain, secure) == Ok(UrlParts(host, TargetOf(tail), 443, true))
  {
    var url := host + tail;
    forall j | 0 <= j <= |host| && j < |url| ensures url[j] != ':' {
      assert url[j] == if j < |host| then host[j] else tail[0];
    }
    forall k | 0 <= k < |url| && DelimiterAt(url, k) ensures !Lacks(url[..k], "/?#") {
      assert k > |host|;
      assert url[..k][|host|] == tail[0] && tail[0] in "/?#";
    }
    WithoutScheme(url, plain, secure);
    assert host + tail + "" == url;
    forall i | 0 <= i < |host| ensures host[i] !in "/?#" && host[i] != ':' {}
    RestMeaning(host, tail, "", host, "", true);
  }
}
