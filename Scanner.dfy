/**
 * The scraper run against the database, in place: the seen_posts and
 * opportunities tables are fields of a Database object that isSeen, markSeen
 * and the INSERT OR IGNORE statement read and update, and scanCampaign and
 * scanAll are loops over it. Each method is proved to leave the tables as
 * the corresponding function of the Pipeline module says.
 */
module Scanner {
  import opened Options
  import opened Text
  import opened Records
  import opened Relevance
  import opened Identity
  import opened Search
  import opened Dedup
  import opened Pipeline

  class Database {
    /** seen_posts: the post ids already processed. */
    var seen: set<String>
    /** opportunities, in insertion order. */
    var opportunities: seq<Opportunity>
    /** campaigns, in table order. */
    var campaigns: seq<Campaign>

    function State(): Tables
      reads this
    {
      Tables(seen, opportunities, CampaignIdSet(campaigns))
    }

    /**
     * The table constraints: reddit_post_id is unique, every stored post is
     * also seen, and every stored row's campaign is in the campaigns table.
     */
    ghost predicate Valid()
      reads this
    {
      TablesValid(State())
    }

    constructor (campaigns: seq<Campaign>)
      ensures this.campaigns == campaigns && seen == {} && opportunities == []
      ensures Valid()
    {
      this.campaigns := campaigns;
      seen := {};
      opportunities := [];
    }

    /** isSeen: whether seen_posts holds the id. */
    predicate IsSeen(postId: String)
      reads this
    {
      postId in seen
    }

    /** markSeen: INSERT OR IGNORE into seen_posts, whose primary key keeps each id once. */
    method MarkSeen(postId: String)
      modifies this
      ensures seen == old(seen) + {postId}
      ensures opportunities == old(opportunities) && campaigns == old(campaigns)
      ensures IsSeen(postId)
      ensures old(Valid()) ==> Valid()
    {
      seen := seen + {postId};
    }

    /**
     * The prepared INSERT OR IGNORE into opportunities. A row whose post id is
     * already stored is ignored by the UNIQUE index first: 0 changes and no
     * error, whatever its campaign. A new row whose campaign is not in the
     * campaigns table violates the FOREIGN KEY, which OR IGNORE does not
     * cover: the statement throws (`ok` is false) and nothing changes.
     * Otherwise the row is appended with 1 change.
     */
    method InsertOpportunity(row: Opportunity) returns (ok: bool, changes: nat)
      modifies this
      ensures ok <==> HasPostId(old(opportunities), row.postId) || row.campaignId in CampaignIdSet(campaigns)
      ensures !ok ==> opportunities == old(opportunities) && changes == 0
      ensures ok ==> (opportunities, changes) == InsertOrIgnore(old(opportunities), row)
      ensures ok ==> (changes == 0 <==> HasPostId(old(opportunities), row.postId))
      ensures seen == old(seen) && campaigns == old(campaigns)
    {
      if HasPostId(opportunities, row.postId) {
        return true, 0;
      }
      if row.campaignId !in CampaignIdSet(campaigns) {
        return false, 0;
      }
      opportunities := opportunities + [row];
      ok, changes := true, 1;
    }

    /**
     * One turn of the insert loop: skip a seen id, else mark it seen, score
     * the post, drop it on 0, else insert it; `added` is 1 when a row was added.
     * A failed insert is swallowed by the catch and adds nothing.
     */
    method ProcessOne(c: Campaign, result: SearchResult) returns (added: nat)
      requires result.url.Some?
      modifies this
      ensures State() == ProcessResult(old(State()), c, result).0
      ensures added == ProcessResult(old(State()), c, result).1
      ensures campaigns == old(campaigns)
    {
      var postId := ExtractPostId(result.url.value);
      if IsSeen(postId) {
        return 0;
      }
      MarkSeen(postId);
      var title := TitleOf(result);
      var snippet := SnippetOf(result);
      var score := ScoreRelevance(title, snippet, c.keywords);
      if score == 0 {
        return 0;
      }
      var sub := ExtractSubreddit(result.url.value);
      var ok, changes := InsertOpportunity(
        Opportunity(c.id, postId, sub, title, Prefix(snippet, BodyLimit),
                    result.url.value, None, score, PendingStatus));
      // A failed insert is swallowed by the catch: the post stays seen and is not counted.
      added := if ok && changes > 0 then 1 else 0;
    }

    /** The insert loop of scanCampaign over an already filtered batch. */
    method InsertResults(c: Campaign, results: seq<SearchResult>) returns (found: nat)
      requires AllHaveUrls(results)
      modifies this
      ensures State() == ProcessAll(old(State()), c, results).0
      ensures found == ProcessAll(old(State()), c, results).1
      ensures campaigns == old(campaigns)
    {
      ghost var start := State();
      found := 0;
      for i := 0 to |results|
        invariant AllHaveUrls(results[..i])
        invariant State() == ProcessAll(start, c, results[..i]).0
        invariant found == ProcessAll(start, c, results[..i]).1
        invariant campaigns == old(campaigns)
      {
        ProcessAllStep(start, c, results, i);
        ghost var done := ProcessAll(start, c, results[..i]);
        ghost var step := ProcessResult(done.0, c, results[i]);
        var added := ProcessOne(c, results[i]);
        assert added == step.1;
        found := found + added;
      }
      assert results[..|results|] == results;
    }

    /** scanCampaign: gather the planned searches, filter the batch, run the insert loop. */
    method ScanCampaign(c: Campaign, search: Oracle) returns (found: nat)
      modifies this
      ensures State() == ScanCampaignSpec(old(State()), c, search).0
      ensures found == ScanCampaignSpec(old(State()), c, search).1
      ensures campaigns == old(campaigns)
      ensures old(Valid()) ==> Valid()
    {
      var all := CollectResults(c, search);
      var batch := FilterBatch(all);
      assert batch == Batch(c, search);
      ghost var start := State();
      found := InsertResults(c, batch);
      if TablesValid(start) {
        ProcessAllUnique(start, c, batch);
        ProcessAllKeepsRowsSeen(start, c, batch);
        ProcessAllKeepsForeignKeys(start, c, batch);
      }
    }

    /**
     * scanAll: scan every active campaign in table order and sum the counts.
     * `batches` holds the batch each campaign's insert loop ran over.
     */
    method ScanAll(search: FleetOracle) returns (total: nat, ghost batches: seq<seq<SearchResult>>)
      modifies this
      ensures BatchesOf(batches, ActiveCampaigns(old(campaigns)), search) && AllBatchesHaveUrls(batches)
      ensures State() == ProcessCampaigns(old(State()), ActiveCampaigns(old(campaigns)), batches).0
      ensures total == ProcessCampaigns(old(State()), ActiveCampaigns(old(campaigns)), batches).1
      ensures campaigns == old(campaigns)
      ensures old(Valid()) ==> Valid()
    {
      var active := ActiveCampaigns(campaigns);
      ghost var start := State();
      total, batches := 0, [];
      for k := 0 to |active|
        invariant campaigns == old(campaigns)
        invariant BatchesOf(batches, active[..k], search) && AllBatchesHaveUrls(batches)
        invariant State() == ProcessCampaigns(start, active[..k], batches).0
        invariant total == ProcessCampaigns(start, active[..k], batches).1
      {
        ghost var before := State();
        var n := ScanCampaign(active[k], CampaignOracle(search, k));
        ScanAllStep(start, active, search, k, batches, before, total, State(), n);
        BatchesOfAppend(batches, active, search, k);
        total := total + n;
        batches := batches + [Batch(active[k], CampaignOracle(search, k))];
      }
      assert active[..|active|] == active;
      ProcessCampaignsKeepInvariants(start, active, batches);
    }
  }
}
