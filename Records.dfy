/**
 * The records the scanner works on: campaign rows, search results as the
 * search service returns them, queries sent to it, and opportunity rows.
 */
module Records {
  import opened Options
  import opened Text

  /** A row of the campaigns table: the columns the scanner reads. */
  datatype Campaign = Campaign(
    id: int,
    brandName: String,
    keywords: String,    // comma-separated
    subreddits: String,  // comma-separated
    active: int)         // the INTEGER column `active`, 1 when the campaign is scanned

  /** One web result from the search service; any of its fields may be absent. */
  datatype SearchResult = SearchResult(
    url: Option<String>,
    title: Option<String>,
    description: Option<String>,
    extraSnippets: Option<seq<String>>)

  /** One call braveSearchReddit(text, subreddit, count). */
  datatype Query = Query(text: String, subreddit: String, count: nat)

  /** A row of the opportunities table as the scanner inserts it (its autoincrement id aside). */
  datatype Opportunity = Opportunity(
    campaignId: int,
    postId: String,      // reddit_post_id, UNIQUE
    subreddit: String,
    title: String,
    body: String,
    url: String,
    author: Option<String>,
    score: int,          // relevance_score
    status: String)

  /** The default of the `status` column. */
  const PendingStatus: String := "pending"

  /** `result.title || ''`. */
  function TitleOf(r: SearchResult): String {
    if r.title.Some? then r.title.value else ""
  }

  /**
   * `result.description || result.extra_snippets?.join(' ') || ''`: an empty
   * description falls through to the joined extra snippets.
   */
  function SnippetOf(r: SearchResult): String {
    if r.description.Some? && r.description.value != "" then r.description.value
    else if r.extraSnippets.Some? then Join(r.extraSnippets.value, " ")
    else ""
  }
}
