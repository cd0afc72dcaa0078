/**
 * The relevance scorer (scoreRelevance in scraper.js): a post's title and
 * snippet are scored against a comma-separated keyword list.
 */
module Relevance {
  import opened Text

  /** The score is capped at this value (Math.min(10, score)). */
  const MaxScore := 10

  /** Trim and lower-case every comma-separated piece, dropping the ones left empty. */
  function NormalizeParts(parts: seq<String>): (kws: seq<String>)
    ensures |kws| <= |parts|
    ensures forall k :: 0 <= k < |kws| ==> kws[k] != []
  {
    if parts == [] then [] else NormalizeOne(parts[0]) + NormalizeParts(parts[1..])
  }

  /** One piece of the list: empty if it trims to nothing, else its trimmed, lower-cased form. */
  function NormalizeOne(part: String): (kws: seq<String>)
    ensures |kws| <= 1
    ensures forall k :: 0 <= k < |kws| ==> kws[k] != []
  {
    var kw := ToLower(Trim(part));
    if kw == [] then [] else [kw]
  }

  function NormalizeKeywords(keywords: String): seq<String> {
    NormalizeParts(Split(keywords, ','))
  }

  /** The lower-cased `title + " " + snippet` every keyword is searched in. */
  function CombinedText(title: String, snippet: String): String {
    ToLower(title + " " + snippet)
  }

  /** Points one keyword earns: 2 when it occurs in the combined text, 1 more when it occurs in the title. */
  function KeywordPoints(kw: String, text: String, lowerTitle: String): int {
    (if Contains(text, kw) then 2 else 0) + (if Contains(lowerTitle, kw) then 1 else 0)
  }

  /** The sum of every keyword's points, before the cap. */
  function RawScore(kws: seq<String>, text: String, lowerTitle: String): (r: int)
    ensures 0 <= r <= 3 * |kws|
  {
    if kws == [] then 0
    else KeywordPoints(kws[0], text, lowerTitle) + RawScore(kws[1..], text, lowerTitle)
  }

  function UncappedScore(title: String, snippet: String, keywords: String): int {
    RawScore(NormalizeKeywords(keywords), CombinedText(title, snippet), ToLower(title))
  }

  /** scoreRelevance: the uncapped score, capped at MaxScore. */
  function ScoreRelevance(title: String, snippet: String, keywords: String): (r: int)
    ensures 0 <= r <= MaxScore
    ensures r <= UncappedScore(title, snippet, keywords)
    ensures r < MaxScore ==> r == UncappedScore(title, snippet, keywords)
  {
    var u := UncappedScore(title, snippet, keywords);
    if u < MaxScore then u else MaxScore
  }

  /** The title is a prefix of the combined text, so a keyword in the title is in the combined text. */
  lemma TitleWithinText(title: String, snippet: String, kw: String)
    requires Contains(ToLower(title), kw)
    ensures Contains(CombinedText(title, snippet), kw)
  {
    LowerConcat(title, " " + snippet);
    assert title + " " + snippet == title + (" " + snippet);
    ContainsInPrefix(ToLower(title), ToLower(" " + snippet), kw);
  }

  lemma SnippetWithinText(title: String, snippet: String, kw: String)
    requires Contains(ToLower(snippet), kw)
    ensures Contains(CombinedText(title, snippet), kw)
  {
    LowerConcat(title + " ", snippet);
    ContainsInSuffix(ToLower(title + " "), ToLower(snippet), kw);
  }

  /**
   * One keyword contributes exactly 3 when it is in the title, exactly 2 when
   * it is in the combined text but not in the title (in particular when it is
   * only in the snippet), and 0 when it is absent.
   */
  lemma KeywordContribution(title: String, snippet: String, kw: String)
    ensures var p := KeywordPoints(kw, CombinedText(title, snippet), ToLower(title));
            && (Contains(ToLower(title), kw) ==> p == 3)
            && (!Contains(ToLower(title), kw) && Contains(CombinedText(title, snippet), kw) ==> p == 2)
            && (!Contains(ToLower(title), kw) && Contains(ToLower(snippet), kw) ==> p == 2)
            && (!Contains(CombinedText(title, snippet), kw) ==> p == 0)
  {
    if Contains(ToLower(title), kw) { TitleWithinText(title, snippet, kw); }
    if Contains(ToLower(snippet), kw) { SnippetWithinText(title, snippet, kw); }
  }

  lemma {:induction false} RawScoreZeroIff(kws: seq<String>, title: String, snippet: String)
    ensures RawScore(kws, CombinedText(title, snippet), ToLower(title)) == 0
            <==> forall k :: 0 <= k < |kws| ==> !Contains(CombinedText(title, snippet), kws[k])
  {
    if kws != [] {
      RawScoreZeroIff(kws[1..], title, snippet);
      KeywordContribution(title, snippet, kws[0]);
      forall k | 1 <= k < |kws| ensures kws[k] == kws[1..][k - 1] { }
    }
  }

  /**
   * The discard condition: a post scores 0 exactly when no normalised keyword
   * occurs in its lower-cased combined text.
   */
  lemma ScoreZeroIff(title: String, snippet: String, keywords: String)
    ensures ScoreRelevance(title, snippet, keywords) == 0
            <==> forall kw :: kw in NormalizeKeywords(keywords) ==> !Contains(CombinedText(title, snippet), kw)
  {
    RawScoreZeroIff(NormalizeKeywords(keywords), title, snippet);
  }

  lemma {:induction false} NormalizeConcat(a: seq<String>, b: seq<String>)
    ensures NormalizeParts(a + b) == NormalizeParts(a) + NormalizeParts(b)
  {
    if a != [] {
      var head := NormalizeOne(a[0]);
      assert (a + b)[0] == a[0];
      assert (a + b)[1..] == a[1..] + b;
      NormalizeConcat(a[1..], b);
      calc {
        NormalizeParts(a + b);
        head + NormalizeParts(a[1..] + b);
        head + (NormalizeParts(a[1..]) + NormalizeParts(b));
        (head + NormalizeParts(a[1..])) + NormalizeParts(b);
      }
    } else {
      assert a + b == b;
    }
  }

  lemma {:induction false} RawScoreConcat(a: seq<String>, b: seq<String>, text: String, lowerTitle: String)
    ensures RawScore(a + b, text, lowerTitle) == RawScore(a, text, lowerTitle) + RawScore(b, text, lowerTitle)
  {
    if a != [] {
      assert (a + b)[0] == a[0];
      assert (a + b)[1..] == a[1..] + b;
      RawScoreConcat(a[1..], b, text, lowerTitle);
    } else {
      assert a + b == b;
    }
  }

  /** Keyword lists add up: the uncapped score of `k1,k2` is that of `k1` plus that of `k2`. */
  lemma UncappedScoreAdditive(title: String, snippet: String, k1: String, k2: String)
    ensures UncappedScore(title, snippet, k1 + "," + k2)
            == UncappedScore(title, snippet, k1) + UncappedScore(title, snippet, k2)
  {
    SplitAround(k1, ',', k2);
    NormalizeConcat(Split(k1, ','), Split(k2, ','));
    RawScoreConcat(NormalizeKeywords(k1), NormalizeKeywords(k2), CombinedText(title, snippet), ToLower(title));
  }

  lemma {:induction false} SplitWithoutSeparator(s: String, sep: char)
    requires sep !in s
    ensures Split(s, sep) == [s]
    decreases |s|
  {
    if s != [] {
      assert s[0] in s;
      assert s[1..] == s[1..] && forall c :: c in s[1..] ==> c in s;
      SplitWithoutSeparator(s[1..], sep);
      assert [s[0]] + s[1..] == s;
    }
  }

  /** A keyword list without commas is one keyword, scored by its trimmed, lower-cased form. */
  lemma SingleKeyword(title: String, snippet: String, kw: String)
    requires ',' !in kw
    ensures UncappedScore(title, snippet, kw)
            == if Trim(kw) == [] then 0
               else KeywordPoints(ToLower(Trim(kw)), CombinedText(title, snippet), ToLower(title))
  {
    SplitWithoutSeparator(kw, ',');
    if Trim(kw) != [] {
      assert ToLower(Trim(kw))[0] == LowerChar(Trim(kw)[0]);
    }
  }

  /** An empty or whitespace-only entry in the keyword list changes nothing. */
  lemma BlankKeywordIgnored(title: String, snippet: String, keywords: String, blank: String)
    requires ',' !in blank && Trim(blank) == []
    ensures ScoreRelevance(title, snippet, keywords + "," + blank) == ScoreRelevance(title, snippet, keywords)
  {
    UncappedScoreAdditive(title, snippet, keywords, blank);
    SingleKeyword(title, snippet, blank);
  }

  /** A keyword listed twice is counted twice. */
  lemma RepeatedKeywordCountsTwice(title: String, snippet: String, keywords: String)
    ensures UncappedScore(title, snippet, keywords + "," + keywords) == 2 * UncappedScore(title, snippet, keywords)
  {
    UncappedScoreAdditive(title, snippet, keywords, keywords);
  }

  lemma {:induction false} RawScoreMonotone(kws: seq<String>, text: String, more: String, lowerTitle: String)
    ensures RawScore(kws, text, lowerTitle) <= RawScore(kws, text + more, lowerTitle)
  {
    if kws != [] {
      RawScoreMonotone(kws[1..], text, more, lowerTitle);
      if Contains(text, kws[0]) { ContainsInPrefix(text, more, kws[0]); }
    }
  }

  /** Appending to a post's snippet never lowers its score. */
  lemma ScoreMonotoneInSnippet(title: String, snippet: String, more: String, keywords: String)
    ensures ScoreRelevance(title, snippet, keywords) <= ScoreRelevance(title, snippet + more, keywords)
  {
    assert title + " " + (snippet + more) == (title + " " + snippet) + more;
    LowerConcat(title + " " + snippet, more);
    RawScoreMonotone(NormalizeKeywords(keywords), CombinedText(title, snippet), ToLower(more), ToLower(title));
  }
}
