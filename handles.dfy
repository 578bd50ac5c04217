/**
 * Resolving a URL's social handle (backend_logic.py lines 76 and 93):
 * `fallback.get(url) or discover(url)`, then tested with `if handle:`.
 */
module Handles {
  import opened Wrappers
  import opened Records

  /** Python truthiness of a handle: None and "" are false. */
  predicate Truthy(h: Option<string>) {
    h.Some? && h.value != ""
  }

  /** `fallback.get(url)` */
  function Lookup(fallback: map<Url, string>, url: Url): Option<string> {
    if url in fallback then Some(fallback[url]) else None
  }

  /** The caller pinned a usable handle for this URL. */
  predicate Pinned(fallback: map<Url, string>, url: Url) {
    Truthy(Lookup(fallback, url))
  }

  /** The handle the stage goes on with, or None when it logs "not found". */
  function Resolve(fallback: map<Url, string>, discover: Url -> Option<string>, url: Url): (r: Option<string>)
    ensures r.Some? ==> r.value != ""
  {
    var h := if Pinned(fallback, url) then Lookup(fallback, url) else discover(url);
    if Truthy(h) then h else None
  }

  /** A pinned handle wins, whatever discovery would have said. */
  lemma OverrideWins(fallback: map<Url, string>, discover: Url -> Option<string>, url: Url)
    requires url in fallback && fallback[url] != ""
    ensures Resolve(fallback, discover, url) == Some(fallback[url])
  {
  }

  /** With a pinned handle the result does not depend on the discovery probe at all. */
  lemma PinnedIgnoresDiscovery(fallback: map<Url, string>, d1: Url -> Option<string>, d2: Url -> Option<string>, url: Url)
    requires Pinned(fallback, url)
    ensures Resolve(fallback, d1, url) == Resolve(fallback, d2, url)
  {
  }

  /** Without a pinned handle (absent or ""), the discovered handle is used if it is truthy. */
  lemma UnpinnedUsesDiscovery(fallback: map<Url, string>, discover: Url -> Option<string>, url: Url)
    requires !Pinned(fallback, url)
    ensures Resolve(fallback, discover, url) == (if Truthy(discover(url)) then discover(url) else None)
  {
  }

  /** The URLs, in order, for which the discovery probe is called. */
  function Unpinned(fallback: map<Url, string>, urls: seq<Url>): seq<Url>
    decreases |urls|
  {
    if urls == [] then []
    else
      var init := Unpinned(fallback, urls[..|urls| - 1]);
      if Pinned(fallback, urls[|urls| - 1]) then init else init + [urls[|urls| - 1]]
  }

  /** Extending the URL list by one adds that URL to the discovery trace exactly when it is not pinned. */
  lemma UnpinnedStep(fallback: map<Url, string>, urls: seq<Url>, i: nat)
    requires i < |urls|
    ensures Unpinned(fallback, urls[..i + 1]) == Unpinned(fallback, urls[..i]) + if Pinned(fallback, urls[i]) then [] else [urls[i]]
  {
    assert urls[..i + 1][..i] == urls[..i];
  }

  /** Discovery is called for a URL exactly when it is an input without a pinned handle. */
  lemma {:induction false} UnpinnedExactly(fallback: map<Url, string>, urls: seq<Url>, url: Url)
    ensures url in Unpinned(fallback, urls) <==> url in urls && !Pinned(fallback, url)
    decreases |urls|
  {
    if urls != [] {
      var init := urls[..|urls| - 1];
      UnpinnedExactly(fallback, init, url);
      assert urls == init + [urls[|urls| - 1]];
    }
  }
}
