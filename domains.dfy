/**
 * The domain key of a URL (backend_logic.py line 41):
 * `url.split("//")[-1].split("/")[0].replace(".", "_")`.
 * This is a rough cut at the authority part of a URL: ports, user info and
 * query text stay in the key.
 */
module Domains {
  import opened Wrappers
  import Strings

  predicate NoDoubleSlash(s: string) {
    forall i | 0 <= i < |s| - 1 :: !(s[i] == '/' && s[i + 1] == '/')
  }

  /** The text after the leftmost "//" in `s`, or None when `s` has no "//". */
  function AfterFirstDoubleSlash(s: string): (r: Option<string>)
    ensures r.None? ==> NoDoubleSlash(s)
    ensures r.Some? ==> |r.value| + 2 <= |s| && r.value == s[|s| - |r.value|..]
    ensures r.Some? ==> s[|s| - |r.value| - 2] == '/' && s[|s| - |r.value| - 1] == '/'
    ensures r.Some? ==> NoDoubleSlash(s[..|s| - |r.value| - 1])
    decreases |s|
  {
    if |s| < 2 then None
    else if s[0] == '/' && s[1] == '/' then Some(s[2..])
    else
      var r := AfterFirstDoubleSlash(s[1..]);
      if r.Some? then
        assert s[1..][..|s| - 1 - |r.value| - 1] == s[1..|s| - |r.value| - 1];
        r
      else r
  }

  /** `s.split("//")[-1]`: Python splits left to right without overlap, so "a///b" ends in "/b". */
  function LastPiece(s: string): (r: string)
    ensures NoDoubleSlash(r)
    ensures |r| <= |s| && r == s[|s| - |r|..]
    ensures NoDoubleSlash(s) ==> r == s
    decreases |s|
  {
    match AfterFirstDoubleSlash(s)
    case None => s
    case Some(t) => LastPiece(t)
  }

  /** `s.split("/")[0]`: everything before the first "/". */
  function FirstSegment(s: string): (r: string)
    ensures '/' !in r
    ensures |r| <= |s| && r == s[..|r|]
    ensures |r| < |s| ==> s[|r|] == '/'
    decreases |s|
  {
    if |s| == 0 || s[0] == '/' then ""
    else [s[0]] + FirstSegment(s[1..])
  }

  /** The part of the URL that the key is made from. */
  function Host(url: string): string {
    FirstSegment(LastPiece(url))
  }

  /** The key under which a URL's classification is stored and published. */
  function DomainKey(url: string): (key: string)
    ensures '.' !in key && '/' !in key
    ensures |key| == |Host(url)|
  {
    Strings.Replace(Host(url), '.', '_')
  }

  /** `domain.replace('_', '.')`: the name shown in the published title (line 119). */
  function DisplayName(key: string): (name: string)
    ensures '_' !in name
  {
    Strings.Replace(key, '_', '.')
  }

  /** The title shows the host again exactly when the host had no "_" of its own. */
  lemma DisplayNameRestoresHost(url: string)
    requires '_' !in Host(url)
    ensures DisplayName(DomainKey(url)) == Host(url)
  {
    Strings.ReplaceBack(Host(url), '.', '_');
  }

  lemma DisplayNameLosesUnderscores(url: string)
    requires '_' in Host(url)
    ensures DisplayName(DomainKey(url)) != Host(url)
  {
  }

  /** Behind a scheme without "/", the last "//"-piece is everything after the scheme's "//". */
  /**
   * The split cuts at the leftmost "//": when `a` holds no "//" and does not
   * end in "/", the last piece of `a + "//" + b` is the last piece of `b`.
   */
  lemma {:induction false} LastPieceSkipsPrefix(a: string, b: string)
    requires NoDoubleSlash(a) && (a == [] || a[|a| - 1] != '/')
    ensures LastPiece(a + "//" + b) == LastPiece(b)
  {
    var s := a + "//" + b;
    var r := AfterFirstDoubleSlash(s);
    assert s[|a|] == '/' && s[|a| + 1] == '/';
    assert r.Some?;
    var p := |s| - |r.value| - 2;
    assert s[..p + 2][..|a|] == a;
    assert p == |a|;
    assert r.value == b;
  }

  /** Behind a scheme without "/", the last "//"-piece is everything after the scheme's "//". */
  lemma LastPieceAfterScheme(scheme: string, rest: string)
    requires '/' !in scheme && NoDoubleSlash(rest)
    ensures LastPiece(scheme + "//" + rest) == rest
  {
    LastPieceSkipsPrefix(scheme, rest);
  }

  /** A run of four slashes splits into an empty piece and the rest: "a////b" ends in "b". */
  lemma {:induction false} FourSlashesPiece(a: string, b: string)
    requires NoDoubleSlash(a) && (a == [] || a[|a| - 1] != '/')
    ensures LastPiece(a + "////" + b) == LastPiece(b)
  {
    var empty: string := [];
    var slashB := empty + "//" + b;
    assert a + "////" + b == a + "//" + slashB;
    LastPieceSkipsPrefix(a, slashB);
    LastPieceSkipsPrefix(empty, b);
  }

  /** A segment without "/" followed by nothing or by "/..." is the first "/"-piece. */
  lemma {:induction false} FirstSegmentOf(segment: string, tail: string)
    requires '/' !in segment
    requires tail == [] || tail[0] == '/'
    ensures FirstSegment(segment + tail) == segment
  {
    var s := segment + tail;
    var r := FirstSegment(s);
    assert r == s[..|segment|] == segment;
  }

  /** A URL "scheme//host/..." has `host` as its host when the scheme has no "/" and nothing after it holds "//". */
  lemma HostOfUrl(scheme: string, host: string, tail: string)
    requires '/' !in scheme && '/' !in host
    requires tail == [] || tail[0] == '/'
    requires NoDoubleSlash(host + tail)
    ensures Host(scheme + "//" + host + tail) == host
  {
    assert scheme + "//" + host + tail == scheme + "//" + (host + tail);
    LastPieceAfterScheme(scheme, host + tail);
    FirstSegmentOf(host, tail);
  }

  lemma ExampleHost()
    ensures Host("https://example.com/page") == "example.com"
  {
    assert "https://example.com/page" == "https:" + "//" + "example.com" + "/page";
    HostOfUrl("https:", "example.com", "/page");
  }

  lemma ExampleReplace()
    ensures Strings.Replace("example.com", '.', '_') == "example_com"
  {
  }

  lemma ExampleKey()
    ensures DomainKey("https://example.com/page") == "example_com"
  {
    ExampleHost();
    ExampleReplace();
  }

  lemma PortHost()
    ensures Host("http://localhost:8080/admin") == "localhost:8080"
  {
    assert "http://localhost:8080/admin" == "http:" + "//" + "localhost:8080" + "/admin";
    HostOfUrl("http:", "localhost:8080", "/admin");
  }

  lemma PortReplace()
    ensures Strings.Replace("localhost:8080", '.', '_') == "localhost:8080"
  {
  }

  lemma QueryHost()
    ensures Host("https://a.com?ref=x") == "a.com?ref=x"
  {
    assert "https://a.com?ref=x" == "https:" + "//" + "a.com?ref=x" + "";
    HostOfUrl("https:", "a.com?ref=x", "");
  }

  lemma QueryReplace()
    ensures Strings.Replace("a.com?ref=x", '.', '_') == "a_com?ref=x"
  {
  }

  /** The key keeps a port, and a query string that directly follows the host. */
  lemma KeyKeepsPortAndQuery()
    ensures DomainKey("http://localhost:8080/admin") == "localhost:8080"
    ensures DomainKey("https://a.com?ref=x") == "a_com?ref=x"
  {
    PortHost();
    PortReplace();
    QueryHost();
    QueryReplace();
  }

  lemma TripleSlashHost()
    ensures LastPiece("https:///a.com") == "/a.com"
  {
    assert "https:///a.com" == "https:" + "//" + "/a.com";
    LastPieceAfterScheme("https:", "/a.com");
  }

  /** Python splits "https:///a.com" at its first "//", so the host and the key are empty. */
  lemma TripleSlashKey()
    ensures DomainKey("https:///a.com") == ""
  {
    TripleSlashHost();
  }

  lemma UnderscoreHost()
    ensures Host("https://a_b.com") == "a_b.com"
  {
    assert "https://a_b.com" == "https:" + "//" + "a_b.com" + "";
    HostOfUrl("https:", "a_b.com", "");
  }

  lemma DottedHost()
    ensures Host("https://a.b.com") == "a.b.com"
  {
    assert "https://a.b.com" == "https:" + "//" + "a.b.com" + "";
    HostOfUrl("https:", "a.b.com", "");
  }

  lemma SharedReplace()
    ensures Strings.Replace("a_b.com", '.', '_') == "a_b_com"
    ensures Strings.Replace("a.b.com", '.', '_') == "a_b_com"
  {
  }

  /** Two different hosts can share a key, so one overwrites the other in the grouping. */
  lemma DistinctHostsShareKey()
    ensures Host("https://a_b.com") != Host("https://a.b.com")
    ensures DomainKey("https://a_b.com") == DomainKey("https://a.b.com") == "a_b_com"
  {
    UnderscoreHost();
    DottedHost();
    SharedReplace();
  }
}
