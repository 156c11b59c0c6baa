/** Domain extraction of main.py (`extract_domains_from_urls`): for every URL that starts
    with "http", the network location `urlparse(url).netloc`, when it is not empty.

    The netloc is the authority component of a URL (section 3.2 of RFC 3986:
    userinfo@host:port), found the way `urllib.parse.urlsplit` finds it: a scheme is
    recognised when the text before the first ':' starts with an ASCII letter and holds
    only letters, digits, '+', '-' and '.'; after it, the netloc is present only when the
    rest starts with "//", and then runs up to the first '/', '?' or '#'. */
module Domains {
  import opened Wrappers
  import opened WordRegex
  import Seqs

  predicate StartsWith(s: string, prefix: string)
  {
    |prefix| <= |s| && s[..|prefix|] == prefix
  }

  /** d occurs in s starting at position p */
  predicate OccursAt(d: string, s: string, p: nat)
  {
    p + |d| <= |s| && s[p..p + |d|] == d
  }

  ghost predicate IsSubstring(d: string, s: string)
  {
    exists p :: OccursAt(d, s, p)
  }

  predicate IsSchemeChar(c: char)
  {
    IsAsciiLetter(c) || IsDigit(c) || c == '+' || c == '-' || c == '.'
  }

  predicate IsAuthorityEnd(c: char)
  {
    c == '/' || c == '?' || c == '#'
  }

  /** Position of the first ':' in s, or |s| when there is none. */
  function FindColon(s: string, from: nat): (k: nat)
    requires from <= |s|
    ensures from <= k <= |s|
    ensures k < |s| ==> s[k] == ':'
    ensures forall m :: from <= m < k ==> s[m] != ':'
    decreases |s| - from
  {
    if from == |s| || s[from] == ':' then from else FindColon(s, from + 1)
  }

  /** Position of the first '/', '?' or '#' at or after from, or |s| when there is none. */
  function AuthorityEnd(s: string, from: nat): (k: nat)
    requires from <= |s|
    ensures from <= k <= |s|
    ensures k < |s| ==> IsAuthorityEnd(s[k])
    ensures forall m :: from <= m < k ==> !IsAuthorityEnd(s[m])
    decreases |s| - from
  {
    if from == |s| || IsAuthorityEnd(s[from]) then from else AuthorityEnd(s, from + 1)
  }

  /** A scheme as `urlsplit` accepts it: an ASCII letter, then letters, digits, '+', '-'
      and '.'. */
  predicate IsScheme(scheme: string)
  {
    |scheme| > 0 && IsAsciiLetter(scheme[0]) &&
    forall m :: 0 <= m < |scheme| ==> IsSchemeChar(scheme[m])
  }

  /** Where the part after the scheme starts: just after "scheme:" when the text before the
      first ':' is a valid scheme, otherwise at 0 (no scheme). */
  function SchemeEnd(url: string): (b: nat)
    ensures b <= |url|
  {
    var i := FindColon(url, 0);
    if 0 < i < |url| && IsScheme(url[..i]) then i + 1 else 0
  }

  /** `urlparse(url).netloc`. When the part after the scheme starts with "//", the netloc is
      the longest run after those two slashes that holds no '/', '?' or '#'; otherwise it
      is empty. */
  function Netloc(url: string): (d: string)
    ensures var b := SchemeEnd(url);
      if StartsWith(url[b..], "//") then
        b + 2 + |d| <= |url| && d == url[b + 2..b + 2 + |d|] &&
        (forall m :: 0 <= m < |d| ==> !IsAuthorityEnd(d[m])) &&
        (b + 2 + |d| == |url| || IsAuthorityEnd(url[b + 2 + |d|]))
      else d == []
  {
    var b := SchemeEnd(url);
    if StartsWith(url[b..], "//") then url[b + 2..AuthorityEnd(url, b + 2)] else []
  }

  /** The domain one URL contributes: its netloc, for a URL starting with "http" whose
      netloc is not empty. */
  function DomainOf(url: string): Option<string>
  {
    if StartsWith(url, "http") && Netloc(url) != [] then Some(Netloc(url)) else None
  }

  predicate Accepted(url: string)
  {
    DomainOf(url).Some?
  }

  /** The domains of a list of URLs, in list order (what the loop appends). */
  function DomainsOf(urls: seq<string>): seq<string>
    decreases |urls|
  {
    if urls == [] then []
    else
      var init := DomainsOf(urls[..|urls| - 1]);
      match DomainOf(urls[|urls| - 1])
      case Some(d) => init + [d]
      case None => init
  }

  /** `extract_domains_from_urls(urls)` */
  method ExtractDomainsFromUrls(urls: seq<string>) returns (domains: seq<string>)
    ensures domains == DomainsOf(urls)
  {
    domains := [];
    for i := 0 to |urls|
      invariant domains == DomainsOf(urls[..i])
    {
      var url := urls[i];
      assert urls[..i + 1][..i] == urls[..i];
      if StartsWith(url, "http") {
        var domain := Netloc(url);
        if domain != [] {
          domains := domains + [domain];
        }
      }
    }
    assert urls[..|urls|] == urls;
  }

  /** One URL: a domain comes only from a URL starting with "http"; it is never empty and
      is a piece of the URL with no '/', '?' or '#' in it. */
  lemma DomainOfSpec(url: string)
    ensures !StartsWith(url, "http") ==> DomainOf(url) == None
    ensures DomainOf(url).Some? ==>
      StartsWith(url, "http") && DomainOf(url).value != [] &&
      IsSubstring(DomainOf(url).value, url) &&
      forall m :: 0 <= m < |DomainOf(url).value| ==> !IsAuthorityEnd(DomainOf(url).value[m])
  {
    if DomainOf(url).Some? {
      var b := SchemeEnd(url);
      var d := Netloc(url);
      assert OccursAt(d, url, b + 2);
    }
  }

  lemma {:induction false} DomainsOfAppend(a: seq<string>, b: seq<string>)
    ensures DomainsOf(a + b) == DomainsOf(a) + DomainsOf(b)
    decreases |b|
  {
    if b == [] {
      assert a + b == a;
    } else {
      var b0 := b[..|b| - 1];
      assert (a + b)[..|a + b| - 1] == a + b0;
      assert (a + b)[|a + b| - 1] == b[|b| - 1];
      DomainsOfAppend(a, b0);
    }
  }

  /** The domains are the netlocs of the accepted URLs, one per accepted URL, in input
      order. */
  lemma {:induction false} DomainsAreAcceptedNetlocs(urls: seq<string>)
    ensures DomainsOf(urls) == Netlocs(Seqs.Filter(urls, Accepted))
    decreases |urls|
  {
    if urls != [] {
      var init := urls[..|urls| - 1];
      var last := urls[|urls| - 1];
      assert urls == init + [last];
      DomainsAreAcceptedNetlocs(init);
      DomainsOfSnoc(init, last);
      Seqs.FilterAppend(init, [last], Accepted);
      NetlocsAppend(Seqs.Filter(init, Accepted), Seqs.Filter([last], Accepted));
    }
  }

  /** The last URL adds the netloc of what the filter keeps of it. */
  lemma DomainsOfSnoc(init: seq<string>, last: string)
    ensures DomainsOf(init + [last]) == DomainsOf(init) + Netlocs(Seqs.Filter([last], Accepted))
  {
    var u := init + [last];
    assert u[..|u| - 1] == init;
    assert u[|u| - 1] == last;
    assert [last][1..] == [];
    if Accepted(last) {
      assert Seqs.Filter([last], Accepted) == [last];
      assert Netlocs([last]) == [Netloc(last)];
    } else {
      assert Seqs.Filter([last], Accepted) == [];
    }
  }

  function Netlocs(urls: seq<string>): seq<string>
  {
    seq(|urls|, i requires 0 <= i < |urls| => Netloc(urls[i]))
  }

  lemma NetlocsAppend(a: seq<string>, b: seq<string>)
    ensures Netlocs(a + b) == Netlocs(a) + Netlocs(b)
  {
  }

  /** Output length is at most input length, and every domain is a non-empty piece of some
      input URL that starts with "http". */
  lemma DomainsFromHttpUrls(urls: seq<string>)
    ensures |DomainsOf(urls)| <= |urls|
    ensures forall d :: d in DomainsOf(urls) ==>
      d != [] && exists u :: u in urls && StartsWith(u, "http") && IsSubstring(d, u)
  {
    DomainsAreAcceptedNetlocs(urls);
    var acc := Seqs.Filter(urls, Accepted);
    Seqs.FilterMultiplicity(urls, Accepted);
    forall d | d in DomainsOf(urls)
      ensures d != [] && exists u :: u in urls && StartsWith(u, "http") && IsSubstring(d, u)
    {
      var i :| 0 <= i < |acc| && Netloc(acc[i]) == d;
      var u := acc[i];
      assert u in acc;
      AcceptedDomain(u);
      assert u in urls;
    }
  }

  /** An accepted URL starts with "http" and its netloc is a non-empty piece of it. */
  lemma AcceptedDomain(u: string)
    requires Accepted(u)
    ensures Netloc(u) != [] && StartsWith(u, "http") && IsSubstring(Netloc(u), u)
  {
    DomainOfSpec(u);
  }

  /** A URL that does not start with "http" contributes nothing, wherever it stands. */
  lemma NonHttpIgnored(a: seq<string>, url: string, b: seq<string>)
    requires !StartsWith(url, "http")
    ensures DomainsOf(a + [url] + b) == DomainsOf(a + b)
  {
    DomainsOfAppend(a + [url], b);
    DomainsOfAppend(a, [url]);
    DomainsOfAppend(a, b);
    assert [url][..0] == [];
  }

  /** The authority of `scheme://host` followed by a path, query, fragment or nothing is
      exactly host, userinfo and port included. */
  lemma NetlocOfAuthority(scheme: string, host: string, rest: string)
    requires IsScheme(scheme)
    requires forall m :: 0 <= m < |host| ==> !IsAuthorityEnd(host[m])
    requires rest == [] || IsAuthorityEnd(rest[0])
    ensures Netloc(scheme + "://" + host + rest) == host
  {
    var url := scheme + "://" + host + rest;
    var b := |scheme| + 1;
    assert forall m :: 0 <= m < |scheme| ==> url[m] == scheme[m];
    assert url[|scheme|] == ':';
    assert FindColon(url, 0) == |scheme|;
    assert url[..|scheme|] == scheme;
    assert SchemeEnd(url) == b;
    assert url[b..][..2] == "//";
    assert forall m :: 0 <= m < |host| ==> url[b + 2 + m] == host[m];
    assert b + 2 + |host| < |url| ==> url[b + 2 + |host|] == rest[0];
    assert AuthorityEnd(url, b + 2) == b + 2 + |host|;
    assert url[b + 2..b + 2 + |host|] == host;
  }

  /** Without "//" after the scheme there is no authority: the netloc is empty. */
  lemma NoAuthorityWithoutSlashes(scheme: string, rest: string)
    requires IsScheme(scheme)
    requires !StartsWith(rest, "//")
    ensures Netloc(scheme + ":" + rest) == []
  {
    var url := scheme + ":" + rest;
    assert forall m :: 0 <= m < |scheme| ==> url[m] == scheme[m];
    assert url[|scheme|] == ':';
    assert FindColon(url, 0) == |scheme|;
    assert url[..|scheme|] == scheme;
    assert url[|scheme| + 1..] == rest;
  }
}
