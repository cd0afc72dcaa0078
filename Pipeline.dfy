/**
 * The scan-and-insert pipeline of scanCampaign and scanAll (scraper.js) as
 * functions on the two tables the scan writes. The Scanner module's
 * Database class runs the same steps in place and is proved equal to these
 * functions; the lemmas here state what the pipeline guarantees.
 */
module Pipeline {
  import opened Options
  import opened Text
  import opened Records
  import opened Relevance
  import opened Identity
  import opened Search
  import opened Dedup

  /** The body column receives at most this many characters of the snippet. */
  const BodyLimit := 2000

  /**
   * The tables the scan works on: the primary keys of seen_posts, the rows
   * of opportunities in insertion order, and the ids of the campaigns table,
   * which the FOREIGN KEY on opportunities.campaign_id refers to.
   */
  datatype Tables = Tables(seen: set<String>, opportunities: seq<Opportunity>, campaignIds: set<int>)

  /** The ids of a campaigns table. */
  function CampaignIdSet(cs: seq<Campaign>): (ids: set<int>)
    ensures forall c :: c in cs ==> c.id in ids
  {
    set k | 0 <= k < |cs| :: cs[k].id
  }

  predicate HasPostId(rows: seq<Opportunity>, postId: String) {
    exists k :: 0 <= k < |rows| && rows[k].postId == postId
  }

  /**
   * INSERT OR IGNORE under UNIQUE(reddit_post_id): the rows afterwards and the
   * number of rows changed (the statement's `changes`).
   */
  function InsertOrIgnore(rows: seq<Opportunity>, row: Opportunity): (seq<Opportunity>, nat) {
    if HasPostId(rows, row.postId) then (rows, 0) else (rows + [row], 1)
  }

  /** The UNIQUE constraint on reddit_post_id. */
  ghost predicate UniquePostIds(rows: seq<Opportunity>) {
    forall a, b :: 0 <= a < b < |rows| ==> rows[a].postId != rows[b].postId
  }

  /** The FOREIGN KEY on campaign_id: every stored opportunity belongs to a campaign of the table. */
  ghost predicate RowsReferenceCampaigns(t: Tables) {
    forall k :: 0 <= k < |t.opportunities| ==> t.opportunities[k].campaignId in t.campaignIds
  }

  /** Every stored opportunity's post id is in seen_posts. */
  ghost predicate RowsSeen(t: Tables) {
    forall k :: 0 <= k < |t.opportunities| ==> t.opportunities[k].postId in t.seen
  }

  predicate AllHaveUrls(rs: seq<SearchResult>) {
    forall k :: 0 <= k < |rs| ==> rs[k].url.Some?
  }

  function PostIdOf(r: SearchResult): String
    requires r.url.Some?
  {
    ExtractPostId(r.url.value)
  }

  function ScoreOf(c: Campaign, r: SearchResult): int {
    ScoreRelevance(TitleOf(r), SnippetOf(r), c.keywords)
  }

  /** The row scanCampaign inserts for a result with the given score. */
  function RowFor(c: Campaign, r: SearchResult, score: int): Opportunity
    requires r.url.Some?
  {
    Opportunity(c.id, PostIdOf(r), ExtractSubreddit(r.url.value), TitleOf(r),
                Prefix(SnippetOf(r), BodyLimit), r.url.value, None, score, PendingStatus)
  }

  /**
   * One turn of the insert loop: skip a seen id; otherwise mark it seen,
   * score the post, discard it on 0, else insert it or ignore a duplicate.
   * When the campaign is not in the campaigns table nothing is stored: a row
   * with an already-stored id is ignored by the UNIQUE index, and a new one
   * violates the foreign key, so the INSERT throws and the surrounding catch
   * drops the post. Either way the post stays seen. The number is 1 when a
   * row was added and 0 otherwise.
   */
  function ProcessResult(t: Tables, c: Campaign, r: SearchResult): (Tables, nat)
    requires r.url.Some?
  {
    var postId := PostIdOf(r);
    if postId in t.seen then (t, 0)
    else
      var marked := t.(seen := t.seen + {postId});
      var score := ScoreOf(c, r);
      if score == 0 then (marked, 0)
      else if c.id !in t.campaignIds then (marked, 0)
      else
        var inserted := InsertOrIgnore(marked.opportunities, RowFor(c, r, score));
        (marked.(opportunities := inserted.0), inserted.1)
  }

  /** The insert loop over a filtered batch: the final tables and foundCount. */
  function ProcessAll(t: Tables, c: Campaign, rs: seq<SearchResult>): (Tables, nat)
    requires AllHaveUrls(rs)
  {
    if rs == [] then (t, 0)
    else
      var n := |rs| - 1;
      var before := ProcessAll(t, c, rs[..n]);
      var step := ProcessResult(before.0, c, rs[n]);
      (step.0, before.1 + step.1)
  }

  /** The loop over one more result is the loop so far followed by one turn. */
  lemma ProcessAllStep(t: Tables, c: Campaign, rs: seq<SearchResult>, i: nat)
    requires AllHaveUrls(rs) && i < |rs|
    ensures AllHaveUrls(rs[..i]) && AllHaveUrls(rs[..i + 1]) && rs[i].url.Some?
    ensures var before := ProcessAll(t, c, rs[..i]);
            var step := ProcessResult(before.0, c, rs[i]);
            && ProcessAll(t, c, rs[..i + 1]).0 == step.0
            && ProcessAll(t, c, rs[..i + 1]).1 == before.1 + step.1
  {
    assert rs[..i + 1][..i] == rs[..i];
  }

  /** The post ids of a batch. */
  function PostIdsOf(rs: seq<SearchResult>): (ids: set<String>)
    requires AllHaveUrls(rs)
    ensures forall k :: 0 <= k < |rs| ==> PostIdOf(rs[k]) in ids
  {
    if rs == [] then {} else PostIdsOf(rs[..|rs| - 1]) + {PostIdOf(rs[|rs| - 1])}
  }

  /** `rows` begins with `earlier`: nothing was removed or changed. */
  predicate Extends(rows: seq<Opportunity>, earlier: seq<Opportunity>) {
    |earlier| <= |rows| && rows[..|earlier|] == earlier
  }

  /** What every row the loop adds satisfies, given the batch, the campaign and the ids seen before. */
  ghost predicate NewRow(row: Opportunity, c: Campaign, rs: seq<SearchResult>, seenBefore: set<String>) {
    && row.campaignId == c.id
    && row.postId !in seenBefore
    && 1 <= row.score <= MaxScore
    && |row.body| <= BodyLimit
    && row.status == PendingStatus && row.author == None
    && exists j :: 0 <= j < |rs| && rs[j].url == Some(row.url) && row == RowFor(c, rs[j], ScoreOf(c, rs[j]))
  }

  /** One turn marks the id seen and either leaves the rows alone (count 0) or appends one row (count 1). */
  lemma ProcessResultFacts(t: Tables, c: Campaign, r: SearchResult)
    requires r.url.Some?
    ensures var (after, n) := ProcessResult(t, c, r);
            && after.seen == t.seen + {PostIdOf(r)}
            && (n == 0 ==> after.opportunities == t.opportunities)
            && (n == 1 ==> after.opportunities == t.opportunities + [RowFor(c, r, ScoreOf(c, r))])
  {
  }

  /** The seen set gains exactly the batch's post ids: every processed id, including those scoring 0. */
  lemma {:induction false} ProcessAllSeen(t: Tables, c: Campaign, rs: seq<SearchResult>)
    requires AllHaveUrls(rs)
    ensures ProcessAll(t, c, rs).0.seen == t.seen + PostIdsOf(rs)
  {
    if rs != [] {
      var n := |rs| - 1;
      ProcessAllSeen(t, c, rs[..n]);
      ProcessResultFacts(ProcessAll(t, c, rs[..n]).0, c, rs[n]);
    }
  }

  /** The existing rows are neither removed nor modified, and foundCount is the number of rows added. */
  lemma {:induction false} ProcessAllAppends(t: Tables, c: Campaign, rs: seq<SearchResult>)
    requires AllHaveUrls(rs)
    ensures var (after, found) := ProcessAll(t, c, rs);
            && Extends(after.opportunities, t.opportunities)
            && found == |after.opportunities| - |t.opportunities|
  {
    if rs != [] {
      var n := |rs| - 1;
      ProcessAllAppends(t, c, rs[..n]);
      var mid := ProcessAll(t, c, rs[..n]).0;
      ProcessResultFacts(mid, c, rs[n]);
      var after := ProcessAll(t, c, rs).0;
      assert after.opportunities[..|mid.opportunities|] == mid.opportunities;
      assert after.opportunities[..|t.opportunities|] == mid.opportunities[..|t.opportunities|];
    }
  }

  /**
   * The seen set gains exactly the batch's post ids, the existing rows are
   * neither removed nor modified, and foundCount is the number of rows added.
   */
  lemma ProcessAllGrowth(t: Tables, c: Campaign, rs: seq<SearchResult>)
    requires AllHaveUrls(rs)
    ensures var (after, found) := ProcessAll(t, c, rs);
            && after.seen == t.seen + PostIdsOf(rs)
            && Extends(after.opportunities, t.opportunities)
            && found == |after.opportunities| - |t.opportunities|
  {
    ProcessAllSeen(t, c, rs);
    ProcessAllAppends(t, c, rs);
  }

  /**
   * Every added row belongs to the campaign, scored in [1, 10], has a body of
   * at most 2000 characters, was built from one of the batch's results, and
   * has a post id that was not seen before the loop.
   */
  lemma {:induction false} ProcessAllNewRows(t: Tables, c: Campaign, rs: seq<SearchResult>)
    requires AllHaveUrls(rs)
    ensures var after := ProcessAll(t, c, rs).0;
            forall k :: |t.opportunities| <= k < |after.opportunities| ==>
              NewRow(after.opportunities[k], c, rs, t.seen)
  {
    if rs != [] {
      var n := |rs| - 1;
      ProcessAllNewRows(t, c, rs[..n]);
      ProcessAllGrowth(t, c, rs[..n]);
      var mid := ProcessAll(t, c, rs[..n]).0;
      ProcessResultFacts(mid, c, rs[n]);
      var after := ProcessAll(t, c, rs).0;
      forall k | |t.opportunities| <= k < |after.opportunities|
        ensures NewRow(after.opportunities[k], c, rs, t.seen)
      {
        if k < |mid.opportunities| {
          assert after.opportunities[k] == mid.opportunities[k];
          NewRowInPrefix(mid.opportunities[k], c, rs, n, t.seen);
        } else {
          LastRowIsNew(mid, c, rs, t.seen);
        }
      }
    }
  }

  /** A row built from a result of a prefix of the batch is built from a result of the batch. */
  lemma NewRowInPrefix(row: Opportunity, c: Campaign, rs: seq<SearchResult>, n: nat, seenBefore: set<String>)
    requires n <= |rs| && NewRow(row, c, rs[..n], seenBefore)
    ensures NewRow(row, c, rs, seenBefore)
  {
    var j :| 0 <= j < n && rs[..n][j].url == Some(row.url) && row == RowFor(c, rs[..n][j], ScoreOf(c, rs[..n][j]));
    assert rs[..n][j] == rs[j];
  }

  /** The row one turn over the batch's last result adds, if any, is a new row of the batch. */
  lemma LastRowIsNew(t: Tables, c: Campaign, rs: seq<SearchResult>, seenBefore: set<String>)
    requires rs != [] && rs[|rs| - 1].url.Some? && seenBefore <= t.seen
    ensures var after := ProcessResult(t, c, rs[|rs| - 1]).0;
            |t.opportunities| < |after.opportunities| ==>
              NewRow(after.opportunities[|t.opportunities|], c, rs, seenBefore)
  {
    var r := rs[|rs| - 1];
    ProcessResultFacts(t, c, r);
    var after := ProcessResult(t, c, r).0;
    if |t.opportunities| < |after.opportunities| {
      assert after.opportunities[|t.opportunities|] == RowFor(c, r, ScoreOf(c, r));
    }
  }

  /** reddit_post_id stays unique: the loop never adds a second row for an id. */
  lemma {:induction false} ProcessAllUnique(t: Tables, c: Campaign, rs: seq<SearchResult>)
    requires AllHaveUrls(rs) && UniquePostIds(t.opportunities)
    ensures UniquePostIds(ProcessAll(t, c, rs).0.opportunities)
  {
    if rs != [] {
      var n := |rs| - 1;
      ProcessAllUnique(t, c, rs[..n]);
      var mid := ProcessAll(t, c, rs[..n]).0;
      var after := ProcessAll(t, c, rs).0;
      if |after.opportunities| > |mid.opportunities| {
        var row := after.opportunities[|mid.opportunities|];
        assert !HasPostId(mid.opportunities, row.postId);
        assert after.opportunities == mid.opportunities + [row];
      }
    }
  }

  /**
   * A result whose post id was seen before the loop, or earlier in the same
   * loop, is never scored or inserted: processing it changes nothing.
   */
  lemma SeenResultSkipped(t: Tables, c: Campaign, rs: seq<SearchResult>, r: SearchResult)
    requires AllHaveUrls(rs) && r.url.Some?
    requires PostIdOf(r) in t.seen + PostIdsOf(rs)
    ensures AllHaveUrls(rs + [r])
    ensures ProcessAll(t, c, rs + [r]) == ProcessAll(t, c, rs)
  {
    var all := rs + [r];
    assert all[..|rs|] == rs && all[|rs|] == r;
    ProcessAllGrowth(t, c, rs);
  }

  /**
   * When every stored row's id is also seen (as the loop itself keeps it),
   * the IGNORE branch never fires: an unseen post with a positive score is
   * always inserted, and the loop keeps that property.
   */
  lemma FreshRelevantInserted(t: Tables, c: Campaign, r: SearchResult)
    requires RowsSeen(t) && r.url.Some? && PostIdOf(r) !in t.seen && ScoreOf(c, r) > 0
    requires c.id in t.campaignIds
    ensures ProcessResult(t, c, r).1 == 1
    ensures ProcessResult(t, c, r).0.opportunities == t.opportunities + [RowFor(c, r, ScoreOf(c, r))]
  {
  }

  lemma {:induction false} ProcessAllKeepsRowsSeen(t: Tables, c: Campaign, rs: seq<SearchResult>)
    requires AllHaveUrls(rs) && RowsSeen(t)
    ensures RowsSeen(ProcessAll(t, c, rs).0)
  {
    if rs != [] {
      var n := |rs| - 1;
      ProcessAllKeepsRowsSeen(t, c, rs[..n]);
      var mid := ProcessAll(t, c, rs[..n]).0;
      var after := ProcessAll(t, c, rs).0;
      assert mid.seen <= after.seen;
      forall k | 0 <= k < |after.opportunities| ensures after.opportunities[k].postId in after.seen {
        if k < |mid.opportunities| {
          assert after.opportunities[k] == mid.opportunities[k];
        }
      }
    }
  }

  /**
   * A campaign missing from the campaigns table stores nothing: each insert
   * is either ignored as a duplicate id or fails on the foreign key and is
   * swallowed, so foundCount stays 0, while the processed ids are still
   * marked seen.
   */
  lemma {:induction false} UnknownCampaignStoresNothing(t: Tables, c: Campaign, rs: seq<SearchResult>)
    requires AllHaveUrls(rs) && c.id !in t.campaignIds
    ensures ProcessAll(t, c, rs).0.opportunities == t.opportunities
    ensures ProcessAll(t, c, rs).0.campaignIds == t.campaignIds
    ensures ProcessAll(t, c, rs).1 == 0
  {
    if rs != [] {
      UnknownCampaignStoresNothing(t, c, rs[..|rs| - 1]);
    }
  }

  /** The insert loop keeps the foreign key: every stored row belongs to a campaign of the table. */
  lemma {:induction false} ProcessAllKeepsForeignKeys(t: Tables, c: Campaign, rs: seq<SearchResult>)
    requires AllHaveUrls(rs) && RowsReferenceCampaigns(t)
    ensures ProcessAll(t, c, rs).0.campaignIds == t.campaignIds
    ensures RowsReferenceCampaigns(ProcessAll(t, c, rs).0)
  {
    if rs != [] {
      var n := |rs| - 1;
      ProcessAllKeepsForeignKeys(t, c, rs[..n]);
      var mid := ProcessAll(t, c, rs[..n]).0;
      var after := ProcessAll(t, c, rs).0;
      forall k | 0 <= k < |after.opportunities| ensures after.opportunities[k].campaignId in after.campaignIds {
        if k < |mid.opportunities| {
          assert after.opportunities[k] == mid.opportunities[k];
        }
      }
    }
  }

  // ------------------------------------------------------------ whole scans

  /** The filtered batch scanCampaign runs its insert loop over: every planned search's results, deduplicated by URL. */
  function Batch(c: Campaign, search: Oracle): (rs: seq<SearchResult>)
    ensures AllHaveUrls(rs)
  {
    Keep(Gathered(PlannedQueries(c), search))
  }

  /** scanCampaign: gather, filter the batch, then run the insert loop. */
  function ScanCampaignSpec(t: Tables, c: Campaign, search: Oracle): (Tables, nat) {
    ProcessAll(t, c, Batch(c, search))
  }

  /** When every search call returns nothing, the batch is empty. */
  lemma BatchDuringOutage(c: Campaign, search: Oracle)
    requires forall i, q :: search(i, q) == []
    ensures Batch(c, search) == []
  {
    GatheredDuringOutage(PlannedQueries(c), search);
  }

  /** When every search call returns nothing, a campaign scan finds 0 and changes nothing. */
  lemma ScanCampaignDuringOutage(t: Tables, c: Campaign, search: Oracle)
    requires forall i, q :: search(i, q) == []
    ensures ScanCampaignSpec(t, c, search) == (t, 0)
  {
    BatchDuringOutage(c, search);
  }

  /** The search service across a whole scanAll: the campaign's position, the call number, the query. */
  type FleetOracle = (nat, nat, Query) -> seq<SearchResult>

  /** The calls made while scanning the k-th active campaign. */
  function CampaignOracle(search: FleetOracle, k: nat): Oracle {
    (i: nat, q: Query) => search(k, i, q)
  }

  /** `SELECT * FROM campaigns WHERE active = 1`, in table order. */
  function ActiveCampaigns(cs: seq<Campaign>): (active: seq<Campaign>)
    ensures forall k :: 0 <= k < |active| ==> active[k].active == 1 && active[k] in cs
    ensures forall c :: c in cs && c.active == 1 ==> c in active
  {
    if cs == [] then []
    else
      var n := |cs| - 1;
      ActiveCampaigns(cs[..n]) + (if cs[n].active == 1 then [cs[n]] else [])
  }

  /** The active campaigns keep table order, one entry per table row. */
  lemma {:induction false} ActiveCampaignsOrdered(cs: seq<Campaign>)
    ensures IsSubsequence(ActiveCampaigns(cs), cs)
  {
    if cs != [] {
      var n := |cs| - 1;
      ActiveCampaignsOrdered(cs[..n]);
      var prev := ActiveCampaigns(cs[..n]);
      if cs[n].active == 1 {
        assert (prev + [cs[n]])[..|prev|] == prev;
      } else {
        assert ActiveCampaigns(cs) == prev;
        if prev != [] { assert cs[..n] == cs[..|cs| - 1]; }
      }
    }
  }

  /** Selecting the active rows of two stretches of the table one after the other selects those of the whole. */
  lemma {:induction false} ActiveCampaignsConcat(a: seq<Campaign>, b: seq<Campaign>)
    ensures ActiveCampaigns(a + b) == ActiveCampaigns(a) + ActiveCampaigns(b)
  {
    if b == [] {
      assert a + b == a;
    } else {
      var n := |b| - 1;
      ActiveCampaignsConcat(a, b[..n]);
      assert (a + b)[..|a + b| - 1] == a + b[..n];
      assert (a + b)[|a + b| - 1] == b[n];
    }
  }

  /** The ids of the campaigns, in order. */
  function CampaignIds(cs: seq<Campaign>): (ids: seq<int>)
    ensures |ids| == |cs| && forall k :: 0 <= k < |cs| ==> ids[k] == cs[k].id
  {
    if cs == [] then [] else CampaignIds(cs[..|cs| - 1]) + [cs[|cs| - 1].id]
  }

  predicate AllBatchesHaveUrls(bs: seq<seq<SearchResult>>) {
    forall k :: 0 <= k < |bs| ==> AllHaveUrls(bs[k])
  }

  /** The insert loops of several campaigns run one after another, campaign k over batch k. */
  function ProcessCampaigns(t: Tables, cs: seq<Campaign>, bs: seq<seq<SearchResult>>): (Tables, nat)
    requires |bs| == |cs| && AllBatchesHaveUrls(bs)
  {
    if cs == [] then (t, 0)
    else
      var m := |cs| - 1;
      var before := ProcessCampaigns(t, cs[..m], bs[..m]);
      var step := ProcessAll(before.0, cs[m], bs[m]);
      (step.0, before.1 + step.1)
  }

  /** `bs` holds the batch of each active campaign, the k-th gathered through the k-th campaign's calls. */
  ghost predicate BatchesOf(bs: seq<seq<SearchResult>>, active: seq<Campaign>, search: FleetOracle) {
    |bs| == |active| && forall k :: 0 <= k < |active| ==> bs[k] == Batch(active[k], CampaignOracle(search, k))
  }

  /** Adding the next campaign's batch extends the relation by one campaign. */
  lemma BatchesOfAppend(bs: seq<seq<SearchResult>>, active: seq<Campaign>, search: FleetOracle, k: nat)
    requires k < |active| && BatchesOf(bs, active[..k], search)
    ensures BatchesOf(bs + [Batch(active[k], CampaignOracle(search, k))], active[..k + 1], search)
  {
    var next := bs + [Batch(active[k], CampaignOracle(search, k))];
    forall j | 0 <= j < k + 1 ensures next[j] == Batch(active[..k + 1][j], CampaignOracle(search, j)) {
      assert active[..k + 1][j] == active[j];
      if j < k {
        assert next[j] == bs[j] == Batch(active[..k][j], CampaignOracle(search, j));
        assert active[..k][j] == active[j];
      }
    }
  }

  lemma BatchesHaveUrls(bs: seq<seq<SearchResult>>, active: seq<Campaign>, search: FleetOracle)
    requires BatchesOf(bs, active, search)
    ensures AllBatchesHaveUrls(bs)
  {
    forall k | 0 <= k < |bs| ensures AllHaveUrls(bs[k]) {
      assert bs[k] == Batch(active[k], CampaignOracle(search, k));
    }
  }

  /**
   * Across consecutive insert loops the seen set only grows, rows are only
   * appended, the total is the number of rows added, and reddit_post_id
   * stays unique.
   */
  lemma {:induction false} ProcessCampaignsGrowth(t: Tables, cs: seq<Campaign>, bs: seq<seq<SearchResult>>)
    requires |bs| == |cs| && AllBatchesHaveUrls(bs)
    ensures var (after, total) := ProcessCampaigns(t, cs, bs);
            && t.seen <= after.seen
            && Extends(after.opportunities, t.opportunities)
            && total == |after.opportunities| - |t.opportunities|
            && (UniquePostIds(t.opportunities) ==> UniquePostIds(after.opportunities))
  {
    if cs != [] {
      var m := |cs| - 1;
      ProcessCampaignsGrowth(t, cs[..m], bs[..m]);
      var mid := ProcessCampaigns(t, cs[..m], bs[..m]).0;
      ProcessAllGrowth(mid, cs[m], bs[m]);
      if UniquePostIds(mid.opportunities) { ProcessAllUnique(mid, cs[m], bs[m]); }
      var after := ProcessCampaigns(t, cs, bs).0;
      assert after.opportunities[..|t.opportunities|] == mid.opportunities[..|t.opportunities|];
    }
  }

  /** Every row the loops add belongs to one of the campaigns they ran for. */
  lemma {:induction false} ProcessCampaignsRowOwners(t: Tables, cs: seq<Campaign>, bs: seq<seq<SearchResult>>)
    requires |bs| == |cs| && AllBatchesHaveUrls(bs)
    ensures var after := ProcessCampaigns(t, cs, bs).0;
            forall k :: |t.opportunities| <= k < |after.opportunities| ==>
              after.opportunities[k].campaignId in CampaignIds(cs)
  {
    if cs != [] {
      var m := |cs| - 1;
      ProcessCampaignsRowOwners(t, cs[..m], bs[..m]);
      ProcessCampaignsGrowth(t, cs[..m], bs[..m]);
      var mid := ProcessCampaigns(t, cs[..m], bs[..m]).0;
      ProcessAllGrowth(mid, cs[m], bs[m]);
      ProcessAllNewRows(mid, cs[m], bs[m]);
      var after := ProcessCampaigns(t, cs, bs).0;
      assert CampaignIds(cs) == CampaignIds(cs[..m]) + [cs[m].id];
      forall k | |t.opportunities| <= k < |after.opportunities|
        ensures after.opportunities[k].campaignId in CampaignIds(cs)
      {
        if k < |mid.opportunities| {
          assert after.opportunities[k] == mid.opportunities[k];
        } else {
          assert NewRow(after.opportunities[k], cs[m], bs[m], mid.seen);
        }
      }
    }
  }

  /** Consecutive insert loops keep every stored row's id in seen_posts. */
  lemma {:induction false} ProcessCampaignsKeepsRowsSeen(t: Tables, cs: seq<Campaign>, bs: seq<seq<SearchResult>>)
    requires |bs| == |cs| && AllBatchesHaveUrls(bs) && RowsSeen(t)
    ensures RowsSeen(ProcessCampaigns(t, cs, bs).0)
  {
    if cs != [] {
      var m := |cs| - 1;
      ProcessCampaignsKeepsRowsSeen(t, cs[..m], bs[..m]);
      ProcessAllKeepsRowsSeen(ProcessCampaigns(t, cs[..m], bs[..m]).0, cs[m], bs[m]);
    }
  }

  /**
   * One turn of the scanAll loop: if the tables and total so far are the fold
   * over the first k campaigns, then scanning campaign k yields the fold over
   * the first k + 1, with that campaign's batch appended.
   */
  lemma ScanAllStep(start: Tables, active: seq<Campaign>, search: FleetOracle, k: nat,
                    batches: seq<seq<SearchResult>>, t: Tables, total: nat, after: Tables, n: nat)
    requires k < |active| && |batches| == k && AllBatchesHaveUrls(batches)
    requires t == ProcessCampaigns(start, active[..k], batches).0
    requires total == ProcessCampaigns(start, active[..k], batches).1
    requires after == ScanCampaignSpec(t, active[k], CampaignOracle(search, k)).0
    requires n == ScanCampaignSpec(t, active[k], CampaignOracle(search, k)).1
    ensures var bs := batches + [Batch(active[k], CampaignOracle(search, k))];
            && AllBatchesHaveUrls(bs)
            && after == ProcessCampaigns(start, active[..k + 1], bs).0
            && total + n == ProcessCampaigns(start, active[..k + 1], bs).1
  {
    var batch := Batch(active[k], CampaignOracle(search, k));
    assert active[..k + 1][..k] == active[..k] && active[..k + 1][k] == active[k];
    assert (batches + [batch])[..k] == batches && (batches + [batch])[k] == batch;
  }

  /** Consecutive insert loops keep the foreign key of every stored row. */
  lemma {:induction false} ProcessCampaignsKeepsForeignKeys(t: Tables, cs: seq<Campaign>, bs: seq<seq<SearchResult>>)
    requires |bs| == |cs| && AllBatchesHaveUrls(bs) && RowsReferenceCampaigns(t)
    ensures ProcessCampaigns(t, cs, bs).0.campaignIds == t.campaignIds
    ensures RowsReferenceCampaigns(ProcessCampaigns(t, cs, bs).0)
  {
    if cs != [] {
      var m := |cs| - 1;
      ProcessCampaignsKeepsForeignKeys(t, cs[..m], bs[..m]);
      ProcessAllKeepsForeignKeys(ProcessCampaigns(t, cs[..m], bs[..m]).0, cs[m], bs[m]);
    }
  }

  /**
   * The table constraints the scan relies on: reddit_post_id is unique,
   * every stored post is also seen, and every stored row's campaign exists.
   */
  ghost predicate TablesValid(t: Tables) {
    UniquePostIds(t.opportunities) && RowsSeen(t) && RowsReferenceCampaigns(t)
  }

  /** Consecutive insert loops keep the table constraints. */
  lemma ProcessCampaignsKeepInvariants(t: Tables, cs: seq<Campaign>, bs: seq<seq<SearchResult>>)
    requires |bs| == |cs| && AllBatchesHaveUrls(bs)
    ensures TablesValid(t) ==> TablesValid(ProcessCampaigns(t, cs, bs).0)
  {
    if TablesValid(t) {
      ProcessCampaignsGrowth(t, cs, bs);
      ProcessCampaignsKeepsRowsSeen(t, cs, bs);
      ProcessCampaignsKeepsForeignKeys(t, cs, bs);
    }
  }

  /** Loops over empty batches change nothing. */
  lemma {:induction false} ProcessCampaignsEmpty(t: Tables, cs: seq<Campaign>, bs: seq<seq<SearchResult>>)
    requires |bs| == |cs| && forall k :: 0 <= k < |bs| ==> bs[k] == []
    ensures AllBatchesHaveUrls(bs) && ProcessCampaigns(t, cs, bs) == (t, 0)
  {
    if cs != [] {
      var m := |cs| - 1;
      ProcessCampaignsEmpty(t, cs[..m], bs[..m]);
    }
  }

  /**
   * Across scanAll the seen set only grows, rows are only appended, the total
   * is the number of rows added, every added row belongs to an active
   * campaign, and reddit_post_id stays unique.
   */
  lemma ScanAllFacts(t: Tables, active: seq<Campaign>, search: FleetOracle, bs: seq<seq<SearchResult>>)
    requires BatchesOf(bs, active, search)
    ensures AllBatchesHaveUrls(bs)
    ensures var (after, total) := ProcessCampaigns(t, active, bs);
            && t.seen <= after.seen
            && Extends(after.opportunities, t.opportunities)
            && total == |after.opportunities| - |t.opportunities|
            && (forall k :: |t.opportunities| <= k < |after.opportunities| ==>
                  after.opportunities[k].campaignId in CampaignIds(active))
            && (UniquePostIds(t.opportunities) ==> UniquePostIds(after.opportunities))
  {
    BatchesHaveUrls(bs, active, search);
    ProcessCampaignsGrowth(t, active, bs);
    ProcessCampaignsRowOwners(t, active, bs);
  }

  /** When every search call fails soft to [], scanAll returns 0 and leaves the tables untouched. */
  lemma ScanAllDuringOutage(t: Tables, active: seq<Campaign>, search: FleetOracle, bs: seq<seq<SearchResult>>)
    requires forall k, i, q :: search(k, i, q) == []
    requires BatchesOf(bs, active, search)
    ensures AllBatchesHaveUrls(bs) && ProcessCampaigns(t, active, bs) == (t, 0)
  {
    forall k | 0 <= k < |bs| ensures bs[k] == [] {
      var oracle := CampaignOracle(search, k);
      forall i: nat, q: Query ensures oracle(i, q) == [] {
        assert oracle(i, q) == search(k, i, q);
      }
      BatchDuringOutage(active[k], oracle);
    }
    ProcessCampaignsEmpty(t, active, bs);
  }
}
