/**
 * Gathering a campaign's candidate posts (scraper.js, the two query loops of
 * scanCampaign). The search service, braveSearchReddit, is an oracle: its
 * n-th call may return any sequence of results. It never fails, because the
 * source turns a missing key, an HTTP error or an exception into [].
 */
module Search {
  import opened Text
  import opened Records

  /** The search service: the results of the call numbered `n` (from 0) for a query. */
  type Oracle = (nat, Query) -> seq<SearchResult>

  /** At most this many keywords, each searched in at most this many subreddits. */
  const KeywordLimit := 5
  const SubredditLimit := 4
  /** Results requested per keyword search. */
  const KeywordResultCount := 5
  /** The broad search: at most this many subreddits, OR-ing at most this many keywords. */
  const BroadSubredditLimit := 3
  const BroadKeywordLimit := 3
  const BroadResultCount := 8

  /** `s.split(',').map(x => x.trim()).filter(Boolean)`. */
  function CommaList(s: String): (items: seq<String>)
    ensures forall k :: 0 <= k < |items| ==> items[k] != []
  {
    TrimmedNonEmpty(Split(s, ','))
  }

  function TrimmedNonEmpty(parts: seq<String>): (items: seq<String>)
    ensures |items| <= |parts|
    ensures forall k :: 0 <= k < |items| ==> items[k] != []
  {
    if parts == [] then []
    else (if Trim(parts[0]) == [] then [] else [Trim(parts[0])]) + TrimmedNonEmpty(parts[1..])
  }

  /** The searches for one query text, one per subreddit in order. */
  function Row(text: String, subs: seq<String>, count: nat): (qs: seq<Query>)
    ensures |qs| == |subs|
    ensures forall j :: 0 <= j < |qs| ==> qs[j] == Query(text, subs[j], count)
  {
    if subs == [] then []
    else Row(text, subs[..|subs| - 1], count) + [Query(text, subs[|subs| - 1], count)]
  }

  /** The keyword searches: for each keyword in order, its row of subreddits. */
  function KeywordQueries(kws: seq<String>, subs: seq<String>): (qs: seq<Query>)
    ensures |qs| == |kws| * |subs|
  {
    if kws == [] then []
    else KeywordQueries(kws[..|kws| - 1], subs) + Row(kws[|kws| - 1], subs, KeywordResultCount)
  }

  /**
   * The keyword searches are keyword-major: the search at position
   * a * |subs| + b is keyword a in subreddit b, asking for 5 results.
   */
  lemma {:induction false} KeywordQueriesOrder(kws: seq<String>, subs: seq<String>, a: nat, b: nat)
    requires a < |kws| && b < |subs|
    ensures a * |subs| + b < |KeywordQueries(kws, subs)|
    ensures KeywordQueries(kws, subs)[a * |subs| + b] == Query(kws[a], subs[b], KeywordResultCount)
    decreases |kws|
  {
    var m, w := |kws| - 1, |subs|;
    var prev := KeywordQueries(kws[..m], subs);
    var last := Row(kws[m], subs, KeywordResultCount);
    assert KeywordQueries(kws, subs) == prev + last;
    EarlierRowIndex(a, b, |kws|, w);
    if a < m {
      KeywordQueriesOrder(kws[..m], subs, a, b);
      assert kws[..m][a] == kws[a];
    } else {
      assert |prev| == a * w;
    }
  }

  /** Position b of row a comes before every position of row m, for a < m. */
  lemma {:induction false} EarlierRowIndex(a: nat, b: nat, m: nat, w: nat)
    requires a < m && b < w
    ensures a * w + b < m * w
    decreases m
  {
    assert m * w == (m - 1) * w + w;
    if a + 1 < m {
      EarlierRowIndex(a, b, m - 1, w);
    }
  }

  /** Every search scanCampaign issues for a campaign, in the order it issues them. */
  function PlannedQueries(c: Campaign): seq<Query> {
    var kws, subs := CommaList(c.keywords), CommaList(c.subreddits);
    KeywordQueries(Prefix(kws, KeywordLimit), Prefix(subs, SubredditLimit))
    + Row(Join(Prefix(kws, BroadKeywordLimit), " OR "), Prefix(subs, BroadSubredditLimit), BroadResultCount)
  }

  /** The results of issuing `qs` in order, the i-th call answered by search(i, qs[i]). */
  function Gathered(qs: seq<Query>, search: Oracle): seq<SearchResult> {
    if qs == [] then []
    else Gathered(qs[..|qs| - 1], search) + search(|qs| - 1, qs[|qs| - 1])
  }

  /** A campaign issues min(5, #keywords) * min(4, #subreddits) + min(3, #subreddits) searches. */
  lemma PlannedQueryCount(c: Campaign)
    ensures var kws, subs := CommaList(c.keywords), CommaList(c.subreddits);
            |PlannedQueries(c)| == Min(|kws|, KeywordLimit) * Min(|subs|, SubredditLimit) + Min(|subs|, BroadSubredditLimit)
  {
  }

  function Min(a: int, b: int): int { if a < b then a else b }

  /** Every gathered result was returned by one of the calls. */
  lemma {:induction false} GatheredFromCalls(qs: seq<Query>, search: Oracle, r: SearchResult)
    requires r in Gathered(qs, search)
    ensures exists i :: 0 <= i < |qs| && r in search(i, qs[i])
  {
    var n := |qs| - 1;
    if r in Gathered(qs[..n], search) {
      GatheredFromCalls(qs[..n], search, r);
      var i :| 0 <= i < n && r in search(i, qs[..n][i]);
      assert qs[..n][i] == qs[i];
    }
  }

  /** When every call returns nothing, nothing is gathered. */
  lemma {:induction false} GatheredDuringOutage(qs: seq<Query>, search: Oracle)
    requires forall i, q :: search(i, q) == []
    ensures Gathered(qs, search) == []
  {
    if qs != [] { GatheredDuringOutage(qs[..|qs| - 1], search); }
  }

  /**
   * One inner loop: search `text` in each subreddit in order, appending each
   * call's results; the calls are numbered on from those already issued.
   */
  method SearchRow(text: String, subs: seq<String>, count: nat, search: Oracle,
                   ghost issued: seq<Query>, calls: nat, before: seq<SearchResult>)
    returns (all: seq<SearchResult>)
    requires calls == |issued| && before == Gathered(issued, search)
    ensures all == Gathered(issued + Row(text, subs, count), search)
  {
    all := before;
    assert issued + Row(text, subs[..0], count) == issued;
    for j := 0 to |subs|
      invariant all == Gathered(issued + Row(text, subs[..j], count), search)
    {
      ghost var done := issued + Row(text, subs[..j], count);
      var q := Query(text, subs[j], count);
      assert (done + [q])[..|done|] == done;
      all := all + search(calls + j, q);
      assert subs[..j + 1][..j] == subs[..j];
      assert done + [q] == issued + Row(text, subs[..j + 1], count);
    }
    assert subs[..|subs|] == subs;
  }

  /** The first loop of scanCampaign: each keyword searched in each subreddit, keyword-major. */
  method KeywordSearches(kws: seq<String>, subs: seq<String>, search: Oracle)
    returns (all: seq<SearchResult>, calls: nat)
    ensures calls == |KeywordQueries(kws, subs)|
    ensures all == Gathered(KeywordQueries(kws, subs), search)
  {
    all, calls := [], 0;
    for i := 0 to |kws|
      invariant calls == |KeywordQueries(kws[..i], subs)|
      invariant all == Gathered(KeywordQueries(kws[..i], subs), search)
    {
      ghost var done := KeywordQueries(kws[..i], subs);
      assert kws[..i + 1][..i] == kws[..i];
      assert KeywordQueries(kws[..i + 1], subs) == done + Row(kws[i], subs, KeywordResultCount);
      all := SearchRow(kws[i], subs, KeywordResultCount, search, done, calls, all);
      calls := calls + |subs|;
    }
    assert kws[..|kws|] == kws;
  }

  /**
   * The two query loops of scanCampaign: the keyword searches (at most 5
   * keywords times at most 4 subreddits, 5 results each), then one broad
   * OR-search per subreddit (at most 3, 8 results each), concatenating every
   * call's results in order.
   */
  method CollectResults(c: Campaign, search: Oracle) returns (all: seq<SearchResult>)
    ensures all == Gathered(PlannedQueries(c), search)
  {
    var subreddits := CommaList(c.subreddits);
    var keywords := CommaList(c.keywords);
    var kws, subs := Prefix(keywords, KeywordLimit), Prefix(subreddits, SubredditLimit);
    var calls;
    all, calls := KeywordSearches(kws, subs, search);
    var broadSubs := Prefix(subreddits, BroadSubredditLimit);
    var broadQuery := Join(Prefix(keywords, BroadKeywordLimit), " OR ");
    all := SearchRow(broadQuery, broadSubs, BroadResultCount, search, KeywordQueries(kws, subs), calls, all);
  }
}
