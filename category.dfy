/**
 * The category classifier (`CategoryClassifier`): a zero-shot model when one is loaded, and
 * otherwise (or when the model fails) a keyword classifier that scores each category by the
 * fraction of its keywords occurring in the lowercased text and picks the first category with
 * the highest fraction. The intent of a query is a fixed function of its category.
 */
module Category {
  import opened Strings

  /** `DEFAULT_CATEGORIES`. */
  const DefaultCategories: seq<string> := [
    "question", "request", "complaint", "compliment", "bug_report", "feature_request",
    "support_request", "purchase_inquiry", "feedback"
  ]

  /** The keyword classifier's patterns, in the dictionary's order. */
  const KeywordPatterns: seq<(string, seq<string>)> := [
    ("question", ["how", "what", "when", "where", "why", "who", "can", "could", "would",
                  "should", "?"]),
    ("complaint", ["complaint", "unhappy", "disappointed", "frustrated", "angry", "terrible",
                   "worst", "awful", "horrible", "bad"]),
    ("compliment", ["great", "excellent", "awesome", "amazing", "love", "thank", "thanks",
                    "appreciate", "good job"]),
    ("bug_report", ["bug", "error", "broken", "not working", "issue", "problem", "crash",
                    "failed", "failure"]),
    ("feature_request", ["feature", "add", "suggestion", "wish", "would like", "could you",
                         "please add"]),
    ("request", ["request", "need", "want", "require", "looking for", "interested in"]),
    ("support_request", ["help", "support", "assist", "guidance", "trouble", "difficulty"]),
    ("purchase_inquiry", ["price", "cost", "buy", "purchase", "order", "payment", "shipping",
                          "delivery"]),
    ("feedback", ["feedback", "opinion", "thought", "suggest", "improve", "better"])
  ]

  /** The `(predicted_category, confidence, all_scores)` triple; the scores in insertion order. */
  datatype Classification = Classification(category: string, confidence: real,
                                           scores: seq<(string, real)>)

  // ---------------------------------------------------------------------------
  // classify_keyword_based
  // ---------------------------------------------------------------------------

  /** The fraction of the keywords that occur in the text (0 for no keywords). */
  function MatchRatio(keywords: seq<string>, text: string): (r: real)
    ensures 0.0 <= r <= 1.0
    ensures r == 0.0 <==> CountMatches(keywords, text) == 0
  {
    if keywords == [] then 0.0
    else
      FractionBounds(CountMatches(keywords, text), |keywords|);
      CountMatches(keywords, text) as real / |keywords| as real
  }

  /** Every category's score, in the patterns' order. */
  function Scores(patterns: seq<(string, seq<string>)>, text: string): (r: seq<(string, real)>)
    ensures |r| == |patterns|
  {
    seq(|patterns|, i requires 0 <= i < |patterns| => (patterns[i].0, MatchRatio(patterns[i].1, text)))
  }

  /**
   * The loop's `(predicted_category, max_score)` after visiting the scores in order: it starts
   * at `("question", 0)` and moves only to a strictly higher score.
   */
  function Best(scores: seq<(string, real)>): (string, real) {
    if scores == [] then ("question", 0.0)
    else
      var previous := Best(scores[..|scores| - 1]);
      var last := scores[|scores| - 1];
      if last.1 > previous.1 then last else previous
  }

  /** The classification the keyword classifier returns. */
  function KeywordClassify(text: string): Classification {
    var scores := Scores(KeywordPatterns, Lower(text));
    var best := Best(scores);
    Classification(best.0, Min(best.1 * 2.0, 1.0), scores)
  }

  /**
   * The running maximum is the largest score (never below 0); a positive maximum belongs to the
   * first entry that reaches it; otherwise the category is the default "question".
   */
  lemma {:induction false} BestSpec(scores: seq<(string, real)>)
    ensures Best(scores).1 >= 0.0
    ensures forall i :: 0 <= i < |scores| ==> scores[i].1 <= Best(scores).1
    ensures Best(scores).1 == 0.0 ==> Best(scores).0 == "question"
    ensures Best(scores).1 > 0.0 ==>
      exists i :: (0 <= i < |scores| && scores[i] == Best(scores) &&
                   forall j :: 0 <= j < i ==> scores[j].1 < scores[i].1)
  {
    if scores != [] {
      var init := scores[..|scores| - 1];
      BestSpec(init);
      assert forall i :: 0 <= i < |init| ==> scores[i] == init[i];
      var last := scores[|scores| - 1];
      if last.1 > Best(init).1 {
        assert Best(scores) == last;
      } else {
        assert Best(scores) == Best(init);
        if Best(init).1 > 0.0 {
          var i :| 0 <= i < |init| && init[i] == Best(init) &&
            forall j :: 0 <= j < i ==> init[j].1 < init[i].1;
          assert scores[i] == Best(scores);
        }
      }
    }
  }

  lemma BestAppend(scores: seq<(string, real)>, x: (string, real))
    ensures Best(scores + [x]) == if x.1 > Best(scores).1 then x else Best(scores)
  {
    assert (scores + [x])[..|scores|] == scores;
  }

  lemma ScoresStep(patterns: seq<(string, seq<string>)>, i: nat, text: string)
    requires i < |patterns|
    ensures Scores(patterns[..i + 1], text)
         == Scores(patterns[..i], text) + [(patterns[i].0, MatchRatio(patterns[i].1, text))]
  {
  }

  /**
   * The keyword classification: the confidence is twice the best score capped at 1, so it lies
   * in [0, 1]; it is 0 exactly when no keyword of any category occurs, and then the category is
   * "question"; otherwise the category is the first in the table with the highest score.
   */
  lemma KeywordClassifySpec(text: string)
    ensures var r := KeywordClassify(text);
      && 0.0 <= r.confidence <= 1.0
      && |r.scores| == |KeywordPatterns|
      && (forall i :: 0 <= i < |r.scores| ==>
            r.scores[i] == (KeywordPatterns[i].0, MatchRatio(KeywordPatterns[i].1, Lower(text))))
      && (r.confidence == 0.0 <==>
            forall i :: 0 <= i < |KeywordPatterns| ==> CountMatches(KeywordPatterns[i].1, Lower(text)) == 0)
      && (r.confidence == 0.0 ==> r.category == "question")
      && (r.confidence > 0.0 ==>
            exists i :: (0 <= i < |r.scores| && r.scores[i].0 == r.category &&
                         r.confidence == Min(2.0 * r.scores[i].1, 1.0) &&
                         (forall j :: 0 <= j < |r.scores| ==> r.scores[j].1 <= r.scores[i].1) &&
                         (forall j :: 0 <= j < i ==> r.scores[j].1 < r.scores[i].1)))
  {
    var scores := Scores(KeywordPatterns, Lower(text));
    BestSpec(scores);
    BestOfScores(KeywordPatterns, Lower(text));
  }

  /** The best score lies in [0, 1] and is 0 exactly when no keyword of any pattern occurs. */
  lemma BestOfScores(patterns: seq<(string, seq<string>)>, text: string)
    ensures 0.0 <= Best(Scores(patterns, text)).1 <= 1.0
    ensures Best(Scores(patterns, text)).1 == 0.0 <==>
      forall i :: 0 <= i < |patterns| ==> CountMatches(patterns[i].1, text) == 0
  {
    var scores := Scores(patterns, text);
    BestSpec(scores);
    var m := Best(scores).1;
    if scores != [] {
      BestIsAScore(scores);
    }
    if m == 0.0 {
      forall i | 0 <= i < |patterns| ensures CountMatches(patterns[i].1, text) == 0 {
        assert scores[i].1 <= 0.0;
      }
    } else {
      assert exists i :: 0 <= i < |scores| && scores[i].1 == m;
    }
  }

  /** The running maximum of a non-empty list is the initial 0 or one of its scores. */
  lemma {:induction false} BestIsAScore(scores: seq<(string, real)>)
    ensures Best(scores).1 == 0.0 || exists i :: 0 <= i < |scores| && scores[i].1 == Best(scores).1
  {
    if scores != [] {
      var init := scores[..|scores| - 1];
      BestIsAScore(init);
      if Best(init).1 != 0.0 && Best(scores) == Best(init) {
        var i :| 0 <= i < |init| && init[i].1 == Best(init).1;
        assert scores[i] == init[i];
      }
    }
  }

  /** `classify_keyword_based`: scores every category in turn, keeping the first strict maximum. */
  method ClassifyKeywordBased(text: string) returns (r: Classification)
    ensures r == KeywordClassify(text)
    ensures 0.0 <= r.confidence <= 1.0
  {
    var textLower := Lower(text);
    var scores: seq<(string, real)> := [];
    var maxScore := 0.0;
    var predictedCategory := "question";
    for i := 0 to |KeywordPatterns|
      invariant scores == Scores(KeywordPatterns[..i], textLower)
      invariant (predictedCategory, maxScore) == Best(scores)
    {
      var category := KeywordPatterns[i].0;
      var keywords := KeywordPatterns[i].1;
      var matches := CountMatches(keywords, textLower);
      var score := if keywords != [] then matches as real / |keywords| as real else 0.0;
      ScoresStep(KeywordPatterns, i, textLower);
      BestAppend(scores, (category, score));
      scores := scores + [(category, score)];
      if score > maxScore {
        maxScore := score;
        predictedCategory := category;
      }
    }
    assert KeywordPatterns[..|KeywordPatterns|] == KeywordPatterns;
    var confidence := Min(maxScore * 2.0, 1.0);
    r := Classification(predictedCategory, confidence, scores);
    BestSpec(scores);
  }

  // ---------------------------------------------------------------------------
  // The classifier object: construction, zero-shot, dispatch, intent
  // ---------------------------------------------------------------------------

  /** What the zero-shot pipeline does with a text and the candidate labels. */
  datatype ZeroShotOutcome = Raised | Output(labels: seq<string>, labelScores: seq<real>)

  /**
   * The classifier's state: its categories, whether zero-shot is in use, and the loaded
   * pipeline (a function from text and candidate labels to the model's outcome), if any.
   */
  datatype CategoryClassifier = CategoryClassifier(
    categories: seq<string>,
    useZeroShot: bool,
    pipeline: Option<(string, seq<string>) -> ZeroShotOutcome>)

  /** What construction guarantees: zero-shot is in use exactly when a pipeline is loaded. */
  predicate Valid(c: CategoryClassifier) {
    c.categories != [] && (c.useZeroShot <==> c.pipeline.Some?)
  }

  /**
   * `__init__`: `loaded` is the pipeline that loading produced, or None when the library is
   * missing or loading failed; zero-shot stays on only if asked for and loaded.
   */
  function NewClassifier(categories: Option<seq<string>>, useZeroShot: bool,
                         loaded: Option<(string, seq<string>) -> ZeroShotOutcome>): (c: CategoryClassifier)
    ensures Valid(c)
    ensures c.categories == if categories.Some? && categories.value != [] then categories.value
                            else DefaultCategories
    ensures c.useZeroShot <==> useZeroShot && loaded.Some?
  {
    var cats := if categories.Some? && categories.value != [] then categories.value else DefaultCategories;
    if useZeroShot && loaded.Some? then CategoryClassifier(cats, true, loaded)
    else CategoryClassifier(cats, false, None)
  }

  /** `text[:n]`. */
  function Truncate(text: string, n: nat): (r: string)
    ensures |r| <= n && |r| <= |text| && r == text[..|r|]
    ensures |text| <= n ==> r == text
    ensures |text| > n ==> |r| == n
  {
    if |text| <= n then text else text[..n]
  }

  /** `zip(a, b)`: pairs up to the shorter length. */
  function Zip(a: seq<string>, b: seq<real>): (r: seq<(string, real)>)
    ensures |r| == if |a| <= |b| then |a| else |b|
    ensures forall i :: 0 <= i < |r| ==> r[i] == (a[i], b[i])
  {
    if a == [] || b == [] then [] else [(a[0], b[0])] + Zip(a[1..], b[1..])
  }

  /** The pipeline's outcome for the first 512 characters (no pipeline fails like a raise). */
  function ModelOutcome(c: CategoryClassifier, text: string): ZeroShotOutcome {
    if c.pipeline.Some? then c.pipeline.value(Truncate(text, 512), c.categories) else Raised
  }

  /** Whether the outcome yields a top label and a top score without raising. */
  predicate Usable(o: ZeroShotOutcome) {
    o.Output? && o.labels != [] && o.labelScores != []
  }

  /**
   * `classify_zero_shot`: blank text is "question" with confidence 0 and no scores; otherwise the
   * model's top label and score, or the keyword classification when the model raises or gives no
   * label or score.
   */
  function ClassifyZeroShot(c: CategoryClassifier, text: string): (r: Classification)
    ensures Strip(text) == [] ==> r == Classification("question", 0.0, [])
    ensures Strip(text) != [] && !Usable(ModelOutcome(c, text)) ==> r == KeywordClassify(text)
    ensures Strip(text) != [] && Usable(ModelOutcome(c, text)) ==>
      var o := ModelOutcome(c, text);
      r.category == o.labels[0] && r.confidence == o.labelScores[0] &&
      r.scores == Zip(o.labels, o.labelScores)
  {
    if text == [] || Strip(text) == [] then Classification("question", 0.0, [])
    else
      var result := ModelOutcome(c, text);
      if Usable(result) then
        Classification(result.labels[0], result.labelScores[0], Zip(result.labels, result.labelScores))
      else KeywordClassify(text)
  }

  /** `classify`: zero-shot when enabled and loaded, keywords otherwise. */
  function Classify(c: CategoryClassifier, text: string): (r: Classification)
    ensures !c.useZeroShot || c.pipeline.None? ==> r == KeywordClassify(text)
    ensures Valid(c) && c.useZeroShot ==> r == ClassifyZeroShot(c, text)
  {
    if c.useZeroShot && c.pipeline.Some? then ClassifyZeroShot(c, text) else KeywordClassify(text)
  }

  /** `intent_mapping.get(category, 'general')`. */
  function IntentOf(category: string): string {
    match category
    case "question" => "information_seeking"
    case "request" => "action_request"
    case "complaint" => "issue_reporting"
    case "compliment" => "positive_feedback"
    case "bug_report" => "technical_issue"
    case "feature_request" => "product_improvement"
    case "support_request" => "help_needed"
    case "purchase_inquiry" => "sales_interest"
    case "feedback" => "general_feedback"
    case _ => "general"
  }

  /** `get_intent`: the intent of the category `classify` gives. */
  function GetIntent(c: CategoryClassifier, text: string): string {
    IntentOf(Classify(c, text).category)
  }

  // ---------------------------------------------------------------------------
  // Properties
  // ---------------------------------------------------------------------------

  /** Every keyword starts with a visible character. */
  lemma KeywordsVisible()
    ensures forall i, k :: 0 <= i < |KeywordPatterns| && 0 <= k < |KeywordPatterns[i].1| ==>
      KeywordPatterns[i].1[k] != [] && !IsSpace(KeywordPatterns[i].1[k][0])
  {
  }

  /** No keyword occurs in a text of whitespace only. */
  lemma BlankHasNoKeyword(text: string, i: nat)
    requires Strip(text) == [] && i < |KeywordPatterns|
    ensures CountMatches(KeywordPatterns[i].1, Lower(text)) == 0
  {
    StripEmpty(text);
    KeywordsVisible();
    var keys := KeywordPatterns[i].1;
    forall k | 0 <= k < |keys| ensures !Contains(Lower(text), keys[k]) {
      if Contains(Lower(text), keys[k]) {
        ContainsVisible(Lower(text), keys[k], 0);
        assert false;
      }
    }
  }

  /**
   * Whichever path `classify` takes, blank text is a "question" with confidence 0, so its intent
   * is "information_seeking".
   */
  lemma ClassifyBlank(c: CategoryClassifier, text: string)
    requires Strip(text) == []
    ensures Classify(c, text).category == "question"
    ensures Classify(c, text).confidence == 0.0
    ensures GetIntent(c, text) == "information_seeking"
  {
    if !(c.useZeroShot && c.pipeline.Some?) {
      KeywordClassifySpec(text);
      forall i | 0 <= i < |KeywordPatterns|
        ensures CountMatches(KeywordPatterns[i].1, Lower(text)) == 0
      {
        BlankHasNoKeyword(text, i);
      }
    }
  }

  /**
   * The model sees only the first 512 characters: two non-blank texts that agree on them are
   * classified alike whenever the model's outcome is usable.
   */
  lemma ZeroShotSeesPrefix(c: CategoryClassifier, a: string, b: string)
    requires |a| >= 512 && |b| >= 512 && a[..512] == b[..512]
    requires Strip(a) != [] && Strip(b) != [] && Usable(ModelOutcome(c, a))
    ensures ClassifyZeroShot(c, a) == ClassifyZeroShot(c, b)
  {
    SameOutcome(c, a, b);
    var ra, rb := ClassifyZeroShot(c, a), ClassifyZeroShot(c, b);
    assert ra.category == rb.category && ra.confidence == rb.confidence && ra.scores == rb.scores;
  }

  lemma SameOutcome(c: CategoryClassifier, a: string, b: string)
    requires |a| >= 512 && |b| >= 512 && a[..512] == b[..512]
    ensures ModelOutcome(c, a) == ModelOutcome(c, b)
  {
    assert Truncate(a, 512) == Truncate(b, 512);
  }

  /** Every category the keyword classifier can return is a default category. */
  lemma KeywordCategoryIsDefault(text: string)
    ensures KeywordClassify(text).category in DefaultCategories
  {
    var scores := Scores(KeywordPatterns, Lower(text));
    PatternNamesAreDefault();
    assert forall i :: 0 <= i < |scores| ==> scores[i].0 == KeywordPatterns[i].0;
    BestNameIn(scores, DefaultCategories);
  }

  lemma PatternNamesAreDefault()
    ensures forall i :: 0 <= i < |KeywordPatterns| ==> KeywordPatterns[i].0 in DefaultCategories
  {
  }

  /** The running maximum's category is the initial "question" or one of the scored names. */
  lemma {:induction false} BestNameIn(scores: seq<(string, real)>, names: seq<string>)
    requires "question" in names
    requires forall i :: 0 <= i < |scores| ==> scores[i].0 in names
    ensures Best(scores).0 in names
  {
    if scores != [] {
      var init := scores[..|scores| - 1];
      assert forall i :: 0 <= i < |init| ==> init[i] == scores[i];
      BestNameIn(init, names);
    }
  }

  /**
   * The intent mapping sends the nine default categories to nine different intents, none of them
   * "general"; any other category has intent "general".
   */
  lemma IntentMappingSpec(a: string, b: string)
    ensures IntentOf(a) != "general" <==> a in DefaultCategories
    ensures IntentOf(a) == IntentOf(b) != "general" ==> a == b
  {
    if IntentOf(a) == IntentOf(b) != "general" {
      IntentOfDefault(a);
      IntentOfDefault(b);
    }
  }

  /** Each default category is recovered from its intent. */
  lemma IntentOfDefault(a: string)
    requires IntentOf(a) != "general"
    ensures a == match IntentOf(a)
      case "information_seeking" => "question"
      case "action_request" => "request"
      case "issue_reporting" => "complaint"
      case "positive_feedback" => "compliment"
      case "technical_issue" => "bug_report"
      case "product_improvement" => "feature_request"
      case "help_needed" => "support_request"
      case "sales_interest" => "purchase_inquiry"
      case _ => "feedback"
  {
  }

}
