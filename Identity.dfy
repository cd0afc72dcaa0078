/**
 * The post identity resolvers (extractPostId and extractSubreddit in
 * scraper.js). Each regular expression is modelled as an explicit scan over
 * the candidate start positions, leftmost first, as a regex search runs, and
 * is related to a declarative statement of what the pattern matches.
 */
module Identity {
  import opened Options
  import opened Text

  /** The literal part of /\/comments\/([a-z0-9]+)\//i, in lower case. */
  const CommentsMarker: String := "/comments/"
  /** The literal part of /reddit\.com\/r\/([^/]+)/i, in lower case. */
  const SubredditMarker: String := "reddit.com/r/"
  /** The fallback id keeps at most this many trailing characters (slice(-12)). */
  const FallbackIdLength := 12
  /** The community name used when a URL names none. */
  const DefaultSubreddit: String := "reddit"

  /** `marker` (lower case) matches `url` at position `i`, ignoring ASCII case as the `i` flag does. */
  predicate MarkerAt(url: String, marker: String, i: int) {
    0 <= i && i + |marker| <= |url| && ToLower(url[i..i + |marker|]) == marker
  }

  // ---------------------------------------------------------------- post id

  /** The longest run of ASCII letters and digits starting at position `i`. */
  function AlnumRun(s: String, i: nat): (run: String)
    requires i <= |s|
    ensures i + |run| <= |s| && run == s[i..i + |run|]
    ensures AllAsciiAlnum(run)
    ensures i + |run| == |s| || !IsAsciiAlnum(s[i + |run|])
    decreases |s| - i
  {
    if i < |s| && IsAsciiAlnum(s[i]) then [s[i]] + AlnumRun(s, i + 1) else []
  }

  /** The capture group when the post-id pattern is tried at position `i`. */
  function PostIdAt(url: String, i: nat): Option<String>
    requires i <= |url|
  {
    if MarkerAt(url, CommentsMarker, i) then
      var run := AlnumRun(url, i + |CommentsMarker|);
      var end := i + |CommentsMarker| + |run|;
      if run != [] && end < |url| && url[end] == '/' then Some(run) else None
    else None
  }

  /** Tries the post-id pattern at `from`, `from + 1`, ... and returns the first capture. */
  function FindPostId(url: String, from: nat): (r: Option<String>)
    requires from <= |url|
    ensures r.Some? ==> r.value != [] && AllAsciiAlnum(r.value)
    decreases |url| - from
  {
    if from == |url| then None
    else if PostIdAt(url, from).Some? then PostIdAt(url, from)
    else FindPostId(url, from + 1)
  }

  /** url.replace(/[^a-z0-9]/gi, ''): keep the ASCII letters and digits, in order. */
  function StripNonAlnum(s: String): (r: String)
    ensures AllAsciiAlnum(r)
    ensures |r| <= |s|
    ensures forall c :: c in r <==> c in s && IsAsciiAlnum(c)
  {
    if s == [] then []
    else (if IsAsciiAlnum(s[0]) then [s[0]] else []) + StripNonAlnum(s[1..])
  }

  /** Stripping works piece by piece, keeping the kept characters in their order. */
  lemma {:induction false} StripNonAlnumConcat(a: String, b: String)
    ensures StripNonAlnum(a + b) == StripNonAlnum(a) + StripNonAlnum(b)
  {
    if a != [] {
      assert (a + b)[0] == a[0];
      assert (a + b)[1..] == a[1..] + b;
      StripNonAlnumConcat(a[1..], b);
    } else {
      assert a + b == b;
    }
  }

  /** extractPostId: the first capture of the post-id pattern, else the last 12 alphanumerics. */
  function ExtractPostId(url: String): (id: String)
    ensures AllAsciiAlnum(id)
  {
    match FindPostId(url, 0)
    case Some(capture) => capture
    case None => Suffix(StripNonAlnum(url), FallbackIdLength)
  }

  /**
   * What /\/comments\/([a-z0-9]+)\//i matches: at position `i`, "/comments/"
   * in any ASCII case, then the non-empty capture `id` of ASCII letters and
   * digits, then "/".
   */
  ghost predicate PostIdMatch(url: String, i: int, id: String) {
    && MarkerAt(url, CommentsMarker, i)
    && id != [] && AllAsciiAlnum(id)
    && i + |CommentsMarker| + |id| < |url|
    && url[i + |CommentsMarker|..i + |CommentsMarker| + |id|] == id
    && url[i + |CommentsMarker| + |id|] == '/'
  }

  /** A run of alphanumerics followed by a non-alphanumeric (or the end) is the longest run. */
  lemma {:induction false} AlnumRunMaximal(s: String, i: nat, w: String)
    requires i + |w| <= |s| && s[i..i + |w|] == w && AllAsciiAlnum(w)
    requires i + |w| == |s| || !IsAsciiAlnum(s[i + |w|])
    ensures AlnumRun(s, i) == w
    decreases |w|
  {
    if w != [] {
      assert s[i] == w[0];
      assert s[i + 1..i + 1 + |w[1..]|] == w[1..];
      AlnumRunMaximal(s, i + 1, w[1..]);
    }
  }

  /** The scan at one position finds exactly the pattern's match there: both directions. */
  lemma PostIdAtSpec(url: String, i: nat, id: String)
    requires i <= |url|
    ensures PostIdAt(url, i) == Some(id) <==> PostIdMatch(url, i, id)
  {
    if PostIdMatch(url, i, id) {
      AlnumRunMaximal(url, i + |CommentsMarker|, id);
    }
  }

  /** The scan from `from` reaches the leftmost match at or after `from` and returns its capture. */
  lemma {:induction false} FindPostIdLeftmost(url: String, from: nat, i: int, id: String)
    requires from <= i && PostIdMatch(url, i, id)
    requires forall j, other :: from <= j < i ==> !PostIdMatch(url, j, other)
    ensures from <= |url| && FindPostId(url, from) == Some(id)
    decreases i - from
  {
    PostIdAtSpec(url, from, id);
    if from < i {
      if PostIdAt(url, from).Some? {
        PostIdAtSpec(url, from, PostIdAt(url, from).value);
        assert false;
      }
      FindPostIdLeftmost(url, from + 1, i, id);
    }
  }

  /** The scan from `from` finds nothing when the pattern matches nowhere at or after `from`. */
  lemma {:induction false} FindPostIdNone(url: String, from: nat)
    requires from <= |url|
    requires forall i, id :: from <= i ==> !PostIdMatch(url, i, id)
    ensures FindPostId(url, from) == None
    decreases |url| - from
  {
    if from < |url| {
      if PostIdAt(url, from).Some? {
        PostIdAtSpec(url, from, PostIdAt(url, from).value);
        assert false;
      }
      FindPostIdNone(url, from + 1);
    }
  }

  /** When the pattern matches, the id is the capture of its leftmost match. */
  lemma ExtractPostIdLeftmost(url: String, i: int, id: String)
    requires PostIdMatch(url, i, id)
    requires forall j, other :: 0 <= j < i ==> !PostIdMatch(url, j, other)
    ensures ExtractPostId(url) == id
  {
    FindPostIdLeftmost(url, 0, i, id);
  }

  /** When the pattern never matches, the id is the last (at most) 12 alphanumerics of the URL. */
  lemma ExtractPostIdFallback(url: String)
    requires forall i, id :: !PostIdMatch(url, i, id)
    ensures ExtractPostId(url) == Suffix(StripNonAlnum(url), FallbackIdLength)
    ensures |ExtractPostId(url)| <= FallbackIdLength
  {
    FindPostIdNone(url, 0);
  }

  // -------------------------------------------------------------- subreddit

  /** The longest run of characters other than '/' starting at position `i`. */
  function NonSlashRun(s: String, i: nat): (run: String)
    requires i <= |s|
    ensures i + |run| <= |s| && run == s[i..i + |run|]
    ensures '/' !in run
    ensures i + |run| == |s| || s[i + |run|] == '/'
    decreases |s| - i
  {
    if i < |s| && s[i] != '/' then [s[i]] + NonSlashRun(s, i + 1) else []
  }

  /** The capture group when the subreddit pattern is tried at position `i`. */
  function SubredditAt(url: String, i: nat): Option<String>
    requires i <= |url|
  {
    if MarkerAt(url, SubredditMarker, i) then
      var run := NonSlashRun(url, i + |SubredditMarker|);
      if run != [] then Some(run) else None
    else None
  }

  /** Tries the subreddit pattern at `from`, `from + 1`, ... and returns the first capture. */
  function FindSubreddit(url: String, from: nat): (r: Option<String>)
    requires from <= |url|
    ensures r.Some? ==> r.value != [] && '/' !in r.value
    decreases |url| - from
  {
    if from == |url| then None
    else if SubredditAt(url, from).Some? then SubredditAt(url, from)
    else FindSubreddit(url, from + 1)
  }

  /** extractSubreddit: the first capture of the subreddit pattern, else "reddit". */
  function ExtractSubreddit(url: String): (name: String)
    ensures name != [] && '/' !in name
  {
    match FindSubreddit(url, 0)
    case Some(capture) => capture
    case None => DefaultSubreddit
  }

  /**
   * What /reddit\.com\/r\/([^/]+)/i matches: at position `i`, "reddit.com/r/"
   * in any ASCII case, then the greedy capture `name`: one or more characters
   * other than '/', running up to the next '/' or the end of the URL.
   */
  ghost predicate SubredditMatch(url: String, i: int, name: String) {
    && MarkerAt(url, SubredditMarker, i)
    && name != [] && '/' !in name
    && i + |SubredditMarker| + |name| <= |url|
    && url[i + |SubredditMarker|..i + |SubredditMarker| + |name|] == name
    && (i + |SubredditMarker| + |name| == |url| || url[i + |SubredditMarker| + |name|] == '/')
  }

  lemma {:induction false} NonSlashRunMaximal(s: String, i: nat, w: String)
    requires i + |w| <= |s| && s[i..i + |w|] == w && '/' !in w
    requires i + |w| == |s| || s[i + |w|] == '/'
    ensures NonSlashRun(s, i) == w
    decreases |w|
  {
    if w != [] {
      assert s[i] == w[0];
      assert s[i + 1..i + 1 + |w[1..]|] == w[1..];
      assert forall c :: c in w[1..] ==> c in w;
      NonSlashRunMaximal(s, i + 1, w[1..]);
    }
  }

  lemma SubredditAtSpec(url: String, i: nat, name: String)
    requires i <= |url|
    ensures SubredditAt(url, i) == Some(name) <==> SubredditMatch(url, i, name)
  {
    if SubredditMatch(url, i, name) {
      NonSlashRunMaximal(url, i + |SubredditMarker|, name);
    }
  }

  lemma {:induction false} FindSubredditLeftmost(url: String, from: nat, i: int, name: String)
    requires from <= i && SubredditMatch(url, i, name)
    requires forall j, other :: from <= j < i ==> !SubredditMatch(url, j, other)
    ensures from <= |url| && FindSubreddit(url, from) == Some(name)
    decreases i - from
  {
    SubredditAtSpec(url, from, name);
    if from < i {
      if SubredditAt(url, from).Some? {
        SubredditAtSpec(url, from, SubredditAt(url, from).value);
        assert false;
      }
      FindSubredditLeftmost(url, from + 1, i, name);
    }
  }

  lemma {:induction false} FindSubredditNone(url: String, from: nat)
    requires from <= |url|
    requires forall i, name :: from <= i ==> !SubredditMatch(url, i, name)
    ensures FindSubreddit(url, from) == None
    decreases |url| - from
  {
    if from < |url| {
      if SubredditAt(url, from).Some? {
        SubredditAtSpec(url, from, SubredditAt(url, from).value);
        assert false;
      }
      FindSubredditNone(url, from + 1);
    }
  }

  /** When the pattern matches, the community is the capture of its leftmost match. */
  lemma ExtractSubredditLeftmost(url: String, i: int, name: String)
    requires SubredditMatch(url, i, name)
    requires forall j, other :: 0 <= j < i ==> !SubredditMatch(url, j, other)
    ensures ExtractSubreddit(url) == name
  {
    FindSubredditLeftmost(url, 0, i, name);
  }

  /** When the pattern never matches, the community is "reddit". */
  lemma ExtractSubredditDefault(url: String)
    requires forall i, name :: !SubredditMatch(url, i, name)
    ensures ExtractSubreddit(url) == DefaultSubreddit
  {
    FindSubredditNone(url, 0);
  }
}
