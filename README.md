# Reddit opportunity scanner: a verified model

This project models the scan-and-deduplicate pipeline of the scraper in
`scraper.js`. For each active campaign, the scraper:

- searches Reddit through a web search service, with several queries built from the campaign's keywords and subreddits;
- removes duplicate results by URL and keeps only post URLs;
- resolves each post's id and subreddit from its URL;
- skips posts seen before and marks the rest seen;
- scores each post against the campaign's keywords and stores every post with a positive score as an opportunity row.

The model has these modules:

- `Text`: the JavaScript string operations the scraper relies on. These are `toLowerCase`, `trim`, `split` on one character, `join`, `includes`, and `slice(0, n)` / `slice(-n)`.
- `Records`: the campaign row, the search result (`url`, `title`, `description` and `extra_snippets`, each possibly absent), the query, and the opportunity row.
- `Relevance`: `scoreRelevance`, written as a recursive fold over the normalised keyword list and capped at 10.
- `Identity`: `extractPostId` and `extractSubreddit`. Each regular expression is an explicit leftmost-first scan over start positions. The model proves the scan equal to a declarative statement of what the pattern matches.
- `Search`: the two query loops of `scanCampaign`. The search service is an oracle that answers the n-th call with any sequence of results. It never fails, because `braveSearchReddit` turns every error into `[]`.
- `Dedup`: the URL filter, with a one-pass method proved equal to a declarative definition.
- `Pipeline`: the insert loop and `scanAll` as functions on the two tables the scan writes (`seen_posts` and `opportunities`), and the properties of those functions.
- `Scanner`: a `Database` class whose fields are the tables (seen_posts, opportunities, campaigns).
  - `IsSeen` is a predicate on the fields.
  - `MarkSeen`, `InsertOpportunity` (the prepared `INSERT OR IGNORE`) and `ProcessOne` (one turn of the insert loop) are methods that update the fields without a loop.
  - `InsertResults` (the insert loop), `ScanCampaign` and `ScanAll` are methods. `InsertResults` and `ScanAll` carry the loops; `ScanCampaign` calls the loop methods of `Search` and `Dedup` and then `InsertResults`.
  - Each method is proved to leave the tables exactly as the corresponding `Pipeline` function says.
- `ScoringExample`: one worked example of the scorer.

A keyword that straddles the title and the snippet, through the joining space, earns 2 from the combined text, as it does in `scoreRelevance`.

## Model

| member | source | states |
|---|---|---|
| Relevance.ScoreRelevance | scraper.js:8-17 | the score is in [0, 10]; it equals the uncapped keyword sum when that sum is below 10, and never exceeds it |
| Relevance.KeywordContribution | scraper.js:12-15 | a keyword in the lower-cased title earns exactly 3, one only in the combined text (in particular only in the snippet) earns exactly 2, and an absent one earns 0 |
| Relevance.ScoreZeroIff | scraper.js:9-16 | the score is 0 exactly when no trimmed, lower-cased, non-empty keyword occurs in the lower-cased `title + " " + snippet` (the discard test of the insert loop) |
| Relevance.UncappedScoreAdditive | scraper.js:10-15 | the uncapped score of the list `k1,k2` is the sum of the scores of `k1` and of `k2` |
| Relevance.BlankKeywordIgnored | scraper.js:10 | appending an empty or whitespace-only entry to the keyword list leaves the score unchanged |
| Relevance.RepeatedKeywordCountsTwice | scraper.js:10-15 | a keyword list repeated twice scores twice the uncapped score of the list |
| Relevance.ScoreMonotoneInSnippet | scraper.js:9-16 | appending text to the snippet never lowers the score |
| Relevance.SingleKeyword | scraper.js:10-15 | a comma-free keyword list is scored by its one trimmed, lower-cased keyword, or 0 when it trims to nothing |
| ScoringExample.SneakersExample | scraper.js:8-17 | keywords "shoes,sneakers" and the title "Best sneakers for running" with an empty snippet score 3 |
| Identity.ExtractPostId | scraper.js:20-23 | the post id is made of ASCII letters and digits only |
| Identity.ExtractPostIdLeftmost | scraper.js:21-22 | when `/\/comments\/([a-z0-9]+)\//i` matches, the id is the capture of its leftmost match |
| Identity.ExtractPostIdFallback | scraper.js:22 | when the pattern matches nowhere, the id is the last (at most) 12 ASCII alphanumerics of the URL |
| Identity.StripNonAlnumConcat | scraper.js:22 | removing the non-alphanumerics works piece by piece, so the kept characters keep their order and multiplicity |
| Text.SliceLengths | scraper.js:22 | `slice(0, n)` and `slice(-n)` of a longer string have exactly n characters |
| Identity.PostIdAtSpec | scraper.js:21 | the scan at one position captures `id` exactly when the pattern matches there with capture `id` |
| Identity.ExtractSubreddit | scraper.js:25-28 | the subreddit is never empty and contains no '/' |
| Identity.ExtractSubredditLeftmost | scraper.js:26-27 | when `/reddit\.com\/r\/([^/]+)/i` matches, the subreddit is the greedy capture of its leftmost match |
| Identity.ExtractSubredditDefault | scraper.js:27 | when the pattern matches nowhere, the subreddit is "reddit" |
| Identity.SubredditAtSpec | scraper.js:26 | the scan at one position captures `name` exactly when the pattern matches there with capture `name` |
| Text.TrimSpec | scraper.js:10 | trim returns a contiguous slice of its input, with only whitespace removed before and after it, that neither starts nor ends with whitespace |
| Text.JoinSplit | scraper.js:78-79 | joining the parts of a split with the same separator gives the string back |
| Search.CollectResults | scraper.js:77-98 | the gathered results are the concatenation, in call order, of the oracle's answers to the planned searches: each of the first 5 keywords in each of the first 4 subreddits (5 results), then the first 3 keywords OR-ed in each of the first 3 subreddits (8 results) |
| Search.KeywordQueries | scraper.js:84-90 | the keyword loop issues (#keywords) · (#subreddits) searches |
| Search.KeywordQueriesOrder | scraper.js:84-86 | the keyword searches are keyword-major: search number a · (#subreddits) + b is keyword a in subreddit b, asking for 5 results |
| Search.PlannedQueryCount | scraper.js:84-98 | a campaign issues min(5, #keywords) · min(4, #subreddits) + min(3, #subreddits) searches |
| Search.GatheredFromCalls | scraper.js:86-87 | every gathered result was returned by one of the calls |
| Search.GatheredDuringOutage | scraper.js:31-65 | when every call fails soft to `[]`, nothing is gathered |
| Dedup.FilterBatch | scraper.js:101-108 | the one-pass filter with its set of seen URLs returns exactly `Keep` of the results |
| Dedup.KeepOnlyPosts | scraper.js:103-105 | every kept result has a present, non-empty URL containing "/comments/" |
| Dedup.KeepDistinct | scraper.js:103-106 | the kept URLs are pairwise distinct |
| Dedup.KeepOrdered | scraper.js:102 | the kept results are a subsequence of the input, in the original order |
| Dedup.KeepSound | scraper.js:103-107 | every kept result is an input result that is the first with its URL |
| Dedup.KeepComplete | scraper.js:103-107 | every post result that is the first with its URL is kept (first occurrence wins) |
| Dedup.KeepUrls | scraper.js:102-108 | a URL is kept exactly when some post result has it |
| Pipeline.ProcessAllSeen | scraper.js:117-120 | after the insert loop, the seen set is the old one plus every processed post id, including those that score 0 |
| Pipeline.ProcessAllGrowth | scraper.js:116-139 | the insert loop leaves the existing rows in place and changes none of them, and foundCount is the number of rows added |
| Pipeline.ProcessAllNewRows | scraper.js:117-135 | every added row belongs to the campaign, has a score in [1, 10] and a body of at most 2000 characters, is pending with no author, was built from one of the batch's results, and has a post id unseen before the loop |
| Pipeline.ProcessAllUnique | db.js:30 | the insert loop keeps reddit_post_id unique |
| Pipeline.SeenResultSkipped | scraper.js:118-119 | a result whose id was seen before the loop or earlier in it changes nothing: it is neither scored nor inserted |
| Pipeline.FreshRelevantInserted | scraper.js:129-135 | when every stored row's id is seen and the campaign is in the campaigns table, an unseen post with a positive score is always inserted, so it adds 1 |
| Pipeline.UnknownCampaignStoresNothing | scraper.js:129-136 | for a campaign missing from the campaigns table no row is stored and foundCount is 0: an insert of an already-stored id is ignored, and any other insert fails on the foreign key and is swallowed |
| Pipeline.ProcessAllKeepsForeignKeys | db.js:39 | the insert loop keeps every stored row's campaign in the campaigns table |
| Pipeline.ProcessAllKeepsRowsSeen | db.js:54 | the insert loop keeps every stored post id in seen_posts |
| Pipeline.ScanCampaignDuringOutage | scraper.js:77-140 | when every search call returns nothing, a campaign scan finds 0 and changes nothing |
| Pipeline.ActiveCampaigns | scraper.js:144 | the scanned campaigns are exactly those with `active = 1`, taken from the table |
| Pipeline.ActiveCampaignsOrdered | scraper.js:144-146 | the active campaigns are a subsequence of the table: table order, one entry per row |
| Pipeline.ActiveCampaignsConcat | scraper.js:144 | selecting the active rows of two stretches of the table one after the other selects those of the whole, so the selection is row by row |
| Pipeline.ScanAllFacts | scraper.js:143-151 | across scanAll the seen set only grows, rows are only appended, the total is the number of rows added, every added row belongs to an active campaign, and reddit_post_id stays unique |
| Pipeline.ScanAllDuringOutage | scraper.js:143-151 | when every search call returns nothing, scanAll returns 0 and leaves both tables unchanged |
| Scanner.Database.constructor | db.js:16-56 | a new database has the given campaigns, no seen posts and no opportunities, and meets the table constraints |
| Scanner.Database.MarkSeen | scraper.js:72-74 | the id is added to seen_posts (once, by its primary key) and nothing else changes |
| Scanner.Database.InsertOpportunity | scraper.js:110-114 | a row whose post id is already stored is ignored (0 changes, no error) whatever its campaign; otherwise the statement fails, changing nothing, exactly when the row's campaign is not in the campaigns table, and else appends the row with 1 change |
| Scanner.Database.ProcessOne | scraper.js:117-136 | one turn of the insert loop leaves the tables as `ProcessResult` says and reports whether a row was added |
| Scanner.Database.InsertResults | scraper.js:116-139 | the insert loop leaves the tables as `ProcessAll` says and returns its foundCount |
| Scanner.Database.ScanCampaign | scraper.js:77-140 | scanCampaign, for any campaign, leaves the tables as gathering, filtering and the insert loop say, and keeps the table constraints (unique post ids, stored posts seen, stored rows' campaigns present) |
| Scanner.Database.ScanAll | scraper.js:143-152 | scanAll runs each active campaign's scan in table order over its own batch; the tables and total are the fold of those scans, and the table constraints are kept. The batches are returned as a ghost result, each pinned to the filtered results of that campaign's own searches |

## Left out

- The HTTP side of `braveSearchReddit` (scraper.js:31-66) is not modelled: the API key check, the URL and header building, `fetch`, its timeout and JSON decoding. The function is an oracle that may return any results for each call and never fails. Its soft failures to `[]` are the oracle returning `[]`.
- The `sleep` calls (scraper.js:88, 97, 154) and the `await` points only affect timing.
- Console logging (scraper.js:33, 56, 63, 149) is not modelled.
- db.js is represented only by its constraints: reddit_post_id UNIQUE (db.js:30) and the seen_posts primary key (db.js:54). File paths, pragmas and the responses table are not part of this model. server.js is not part of this model.
- opportunities is a sequence of rows in insertion order, not a map keyed by post id. Uniqueness of reddit_post_id is therefore a proved invariant rather than a consequence of the representation.
- The autoincrement `id` and the `detected_at` / `seen_at` timestamps are not modelled.
- Of the failures the `try`/`catch` around the insert (scraper.js:129-136) can swallow, only the FOREIGN KEY failure on campaign_id (db.js:14, 39) is modelled: a campaign missing from the campaigns table. Duplicate ids are handled by `INSERT OR IGNORE`, and no NOT NULL column can receive a null. Other SQLite errors (a full disk, a locked database) are not modelled.
- `toLowerCase` is modelled on ASCII letters only. Other characters are left unchanged, so Unicode case mappings are not captured.
- `slice` counts characters of the model's strings, not UTF-16 code units.
- The order of `SELECT * FROM campaigns` is taken to be table order, because the query has no `ORDER BY`.
