/**
 * A worked example of the relevance scorer: keywords "shoes,sneakers", the
 * title "Best sneakers for running" and an empty snippet. The steps are split
 * into small lemmas because the verifier evaluates concrete strings slowly.
 */
module ScoringExample {
  import opened Text
  import opened Relevance


  /** A list of two comma-free keywords splits into those two keywords. */
  lemma TwoKeywordSplit(a: String, b: String)
    requires ',' !in a && ',' !in b
    ensures Split(a + [','] + b, ',') == [a, b]
  {
    SplitAround(a, ',', b);
    SplitWithoutSeparator(a, ',');
    SplitWithoutSeparator(b, ',');
  }

  lemma ExampleSplit()
    ensures Split("shoes,sneakers", ',') == ["shoes", "sneakers"]
  {
    var a: String, b: String := "shoes", "sneakers";
    assert a + [','] + b == "shoes,sneakers";
    TwoKeywordSplit(a, b);
  }

  lemma ExampleNormalizeOne()
    ensures NormalizeOne("shoes") == ["shoes"]
    ensures NormalizeOne("sneakers") == ["sneakers"]
  {
    assert Trim("shoes") == "shoes" && ToLower("shoes") == "shoes";
    assert Trim("sneakers") == "sneakers" && ToLower("sneakers") == "sneakers";
  }

  lemma ExampleKeywords()
    ensures NormalizeKeywords("shoes,sneakers") == ["shoes", "sneakers"]
  {
    ExampleSplit();
    ExampleNormalizeOne();
    var parts: seq<String> := ["shoes", "sneakers"];
    assert parts[1..] == ["sneakers"];
    assert NormalizeParts(["sneakers"]) == ["sneakers"] + NormalizeParts([]);
  }

  lemma ExampleTitle()
    ensures ToLower("Best sneakers for running") == "best sneakers for running"
  {
  }

  lemma ExampleTexts()
    ensures CombinedText("Best sneakers for running", "") == "best sneakers for running "
    ensures ToLower("Best sneakers for running") == "best sneakers for running"
  {
    var title: String := "Best sneakers for running";
    ExampleTitle();
    LowerConcat(title, " ");
    assert title + " " + "" == title + " ";
  }

  /** A text without the letter h cannot contain "shoes". */
  lemma NoShoes(text: String)
    requires forall i :: 0 <= i < |text| ==> text[i] != 'h'
    ensures !Contains(text, "shoes")
  {
    forall i | 0 <= i <= |text| - 5 ensures !OccursAt(text, "shoes", i) {
      assert text[i..i + 5][1] == text[i + 1] != "shoes"[1];
    }
  }

  lemma ExamplePoints()
    ensures KeywordPoints("sneakers", "best sneakers for running ", "best sneakers for running") == 3
    ensures KeywordPoints("shoes", "best sneakers for running ", "best sneakers for running") == 0
  {
    var text: String := "best sneakers for running ";
    var lowerTitle: String := "best sneakers for running";
    assert OccursAt(lowerTitle, "sneakers", 5);
    assert OccursAt(text, "sneakers", 5);
    assert forall i :: 0 <= i < |text| ==> text[i] != 'h';
    NoShoes(text);
    NoShoes(lowerTitle);
  }

  /** "sneakers" is in the title (2 + 1) and "shoes" occurs nowhere, so the score is 3. */
  lemma SneakersExample()
    ensures ScoreRelevance("Best sneakers for running", "", "shoes,sneakers") == 3
  {
    ExampleTexts();
    ExampleKeywords();
    ExamplePoints();
    var kws: seq<String> := ["shoes", "sneakers"];
    assert kws[1..] == ["sneakers"];
    assert RawScore(["sneakers"], "best sneakers for running ", "best sneakers for running") == 3;
  }
}
