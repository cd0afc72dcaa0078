/**
 * The batch filter of scanCampaign (scraper.js): results are deduplicated by
 * URL, first occurrence winning, and only Reddit post URLs (those containing
 * "/comments/") are kept, in their original order.
 */
module Dedup {
  import opened Options
  import opened Text
  import opened Records

  /** Post URLs contain this path segment; profiles, wikis and listings do not. */
  const PostPathMarker: String := "/comments/"

  /** A result the filter can keep: its URL is present, non-empty and contains "/comments/". */
  predicate IsPostResult(r: SearchResult) {
    r.url.Some? && r.url.value != "" && Contains(r.url.value, PostPathMarker)
  }

  /** No result before position `i` has the URL of the one at `i`. */
  predicate FirstWithUrl(rs: seq<SearchResult>, i: int)
    requires 0 <= i < |rs|
  {
    forall j :: 0 <= j < i ==> rs[j].url != rs[i].url
  }

  /** What the filter keeps: each post result whose URL did not occur earlier, in order. */
  function Keep(rs: seq<SearchResult>): (kept: seq<SearchResult>)
    ensures |kept| <= |rs|
    ensures forall k :: 0 <= k < |kept| ==> kept[k].url.Some?
  {
    if rs == [] then []
    else
      var n := |rs| - 1;
      Keep(rs[..n]) + (if IsPostResult(rs[n]) && FirstWithUrl(rs, n) then [rs[n]] else [])
  }

  /** Everything kept is a post result: present, non-empty and containing "/comments/". */
  lemma {:induction false} KeepOnlyPosts(rs: seq<SearchResult>)
    ensures forall k :: 0 <= k < |Keep(rs)| ==> IsPostResult(Keep(rs)[k])
  {
    if rs != [] {
      var n := |rs| - 1;
      KeepOnlyPosts(rs[..n]);
      var prev, kept := Keep(rs[..n]), Keep(rs);
      forall k | 0 <= k < |kept| ensures IsPostResult(kept[k]) {
        if k < |prev| { assert kept[k] == prev[k]; }
      }
    }
  }

  /** The URLs (those present) of a sequence of results. */
  function UrlsOf(rs: seq<SearchResult>): set<String> {
    set k | 0 <= k < |rs| && rs[k].url.Some? :: rs[k].url.value
  }

  lemma UrlsOfAppend(rs: seq<SearchResult>, r: SearchResult)
    requires r.url.Some?
    ensures UrlsOf(rs + [r]) == UrlsOf(rs) + {r.url.value}
  {
    assert forall k :: 0 <= k < |rs| ==> (rs + [r])[k] == rs[k];
    assert (rs + [r])[|rs|] == r;
  }

  /** `a` is `b` with some elements left out, the rest in their original order. */
  predicate IsSubsequence<T(==)>(a: seq<T>, b: seq<T>)
    decreases |b|
  {
    a == [] ||
    (b != [] &&
     ((a[|a| - 1] == b[|b| - 1] && IsSubsequence(a[..|a| - 1], b[..|b| - 1]))
      || IsSubsequence(a, b[..|b| - 1])))
  }

  lemma PrefixFirstWithUrl(rs: seq<SearchResult>, n: int, i: int)
    requires 0 <= i < n <= |rs|
    ensures FirstWithUrl(rs[..n], i) <==> FirstWithUrl(rs, i)
  {
    assert forall j :: 0 <= j <= i ==> rs[..n][j] == rs[j];
  }

  /** Everything kept is an earlier result that came first with its URL. */
  lemma {:induction false} KeepSound(rs: seq<SearchResult>, k: int)
    requires 0 <= k < |Keep(rs)|
    ensures exists i :: 0 <= i < |rs| && rs[i] == Keep(rs)[k] && FirstWithUrl(rs, i)
  {
    var n := |rs| - 1;
    if k < |Keep(rs[..n])| {
      KeepSound(rs[..n], k);
      var i :| 0 <= i < n && rs[..n][i] == Keep(rs[..n])[k] && FirstWithUrl(rs[..n], i);
      PrefixFirstWithUrl(rs, n, i);
      assert rs[i] == Keep(rs)[k];
    } else {
      assert rs[n] == Keep(rs)[k];
    }
  }

  /** Every post result that is the first with its URL is kept. */
  lemma {:induction false} KeepComplete(rs: seq<SearchResult>, i: int)
    requires 0 <= i < |rs| && IsPostResult(rs[i]) && FirstWithUrl(rs, i)
    ensures rs[i] in Keep(rs)
  {
    var n := |rs| - 1;
    if i < n {
      PrefixFirstWithUrl(rs, n, i);
      KeepComplete(rs[..n], i);
      assert rs[..n][i] == rs[i];
    }
  }

  /** The kept URLs are pairwise distinct. */
  lemma {:induction false} KeepDistinct(rs: seq<SearchResult>)
    ensures forall a, b :: 0 <= a < b < |Keep(rs)| ==> Keep(rs)[a].url != Keep(rs)[b].url
  {
    if rs != [] {
      var n := |rs| - 1;
      KeepDistinct(rs[..n]);
      var prev := Keep(rs[..n]);
      if IsPostResult(rs[n]) && FirstWithUrl(rs, n) {
        forall a | 0 <= a < |prev| ensures prev[a].url != rs[n].url {
          KeepSound(rs[..n], a);
        }
      }
    }
  }

  /** The kept results keep their original relative order. */
  lemma {:induction false} KeepOrdered(rs: seq<SearchResult>)
    ensures IsSubsequence(Keep(rs), rs)
  {
    if rs != [] {
      var n := |rs| - 1;
      KeepOrdered(rs[..n]);
      var prev := Keep(rs[..n]);
      if IsPostResult(rs[n]) && FirstWithUrl(rs, n) {
        assert (prev + [rs[n]])[..|prev|] == prev;
      } else {
        assert Keep(rs) == prev;
        if prev != [] { assert rs[..n] == rs[..|rs| - 1]; }
      }
    }
  }

  /** A URL is among the kept ones exactly when some post result has it. */
  lemma {:induction false} KeepUrls(rs: seq<SearchResult>, u: String)
    ensures u in UrlsOf(Keep(rs)) <==> exists j :: 0 <= j < |rs| && IsPostResult(rs[j]) && rs[j].url == Some(u)
  {
    if rs != [] {
      var n := |rs| - 1;
      var prev := Keep(rs[..n]);
      KeepUrls(rs[..n], u);
      assert forall j :: 0 <= j < n ==> rs[..n][j] == rs[j];
      var kept := Keep(rs);
      if u in UrlsOf(kept) {
        var k :| 0 <= k < |kept| && kept[k].url == Some(u);
        if k == |prev| { assert kept[k] == rs[n]; }
        else { assert kept[k] == prev[k]; }
      }
      if exists j :: 0 <= j < |rs| && IsPostResult(rs[j]) && rs[j].url == Some(u) {
        var j :| 0 <= j < |rs| && IsPostResult(rs[j]) && rs[j].url == Some(u);
        if j == n && !(exists j' :: 0 <= j' < n && IsPostResult(rs[j']) && rs[j'].url == Some(u)) {
          assert FirstWithUrl(rs, n);
          assert kept[|prev|] == rs[n];
        } else {
          assert u in UrlsOf(prev);
          var k :| 0 <= k < |prev| && prev[k].url == Some(u);
          assert kept[k] == prev[k];
        }
      }
    }
  }

  /**
   * The filter as the source runs it: one pass with a set of the URLs kept
   * so far; a result is dropped when its URL is absent or empty, already in
   * the set, or lacks "/comments/".
   */
  method FilterBatch(results: seq<SearchResult>) returns (kept: seq<SearchResult>)
    ensures kept == Keep(results)
  {
    var seenUrls: set<String> := {};
    kept := [];
    for i := 0 to |results|
      invariant kept == Keep(results[..i])
      invariant seenUrls == UrlsOf(kept)
    {
      var r := results[i];
      assert results[..i + 1][..i] == results[..i];
      assert results[..i + 1][i] == r;
      PrefixFirstWithUrlIff(results, i);
      if r.url.None? || r.url.value == "" || r.url.value in seenUrls {
        continue;
      }
      if !Contains(r.url.value, PostPathMarker) {
        continue;
      }
      UrlsOfAppend(kept, r);
      seenUrls := seenUrls + {r.url.value};
      kept := kept + [r];
    }
    assert results[..|results|] == results;
  }

  /** For a post result, the set test of FilterBatch decides exactly FirstWithUrl. */
  lemma PrefixFirstWithUrlIff(rs: seq<SearchResult>, i: int)
    requires 0 <= i < |rs|
    ensures IsPostResult(rs[i]) ==>
              (rs[i].url.value in UrlsOf(Keep(rs[..i])) <==> !FirstWithUrl(rs[..i + 1], i))
  {
    if IsPostResult(rs[i]) {
      KeepUrls(rs[..i], rs[i].url.value);
      assert forall j :: 0 <= j <= i ==> rs[..i + 1][j] == rs[j];
      assert forall j :: 0 <= j < i ==> rs[..i][j] == rs[j];
    }
  }
}
