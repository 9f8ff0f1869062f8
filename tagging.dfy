/**
 * The auto-tagger (`AutoTagger`): runs cleaning, keyword extraction, urgency detection,
 * sentiment, category, intent and priority over one query and turns the results into tags.
 */
module Tagging {
  import opened Strings
  import Pre = Preprocessing
  import Pri = Priority
  import Cat = Category

  /** What the sentiment analyser reports for a text. */
  datatype SentimentResult = SentimentResult(sentiment: string, confidence: real,
                                             positive: real, neutral: real, negative: real)

  /**
   * The tagger's components. The sentiment analyser is a function from the cleaned text to its
   * result.
   */
  datatype AutoTagger = AutoTagger(
    preprocessor: Pre.Preprocessor,
    sentimentOf: string -> SentimentResult,
    classifier: Cat.CategoryClassifier,
    scorer: Pri.PriorityScorer)

  datatype SentimentScores = SentimentScores(positive: real, neutral: real, negative: real)

  /** The dictionary `analyze` returns; `urgencyKeywords` is absent from the blank-text default. */
  datatype Analysis = Analysis(
    category: string,
    categoryConfidence: real,
    categoryScores: seq<(string, real)>,
    sentiment: string,
    sentimentConfidence: real,
    sentimentScores: SentimentScores,
    intent: string,
    priority: Pri.Level,
    priorityScore: real,
    isUrgent: bool,
    isVip: bool,
    autoTags: seq<string>,
    keywords: seq<string>,
    urgencyKeywords: Option<seq<(string, seq<string>)>>)

  // ---------------------------------------------------------------------------
  // _generate_tags
  // ---------------------------------------------------------------------------

  /** One `urgency_<group>` tag per group with at least one match, in the groups' order. */
  function UrgencyTags(urgency: seq<(string, seq<string>)>): seq<string> {
    if urgency == [] then []
    else
      var last := urgency[|urgency| - 1];
      UrgencyTags(urgency[..|urgency| - 1]) + (if last.1 != [] then ["urgency_" + last.0] else [])
  }

  /** The tags `_generate_tags` produces. */
  function Tags(category: string, sentiment: string, priority: Pri.Level,
                urgency: seq<(string, seq<string>)>, intent: string,
                isVip: bool, isUrgent: bool): seq<string> {
    [category, "sentiment_" + Lower(sentiment), "priority_" + Lower(priority.Name()),
     "intent_" + intent]
    + UrgencyTags(urgency)
    + (if isVip then ["vip"] else [])
    + (if isUrgent then ["urgent"] else [])
  }

  /**
   * The urgency tags are `urgency_<group>` for exactly the groups with matches, one each, in the
   * groups' order; so there are at most as many as groups, every tag starts with `urgency_`,
   * and each group with matches has its tag.
   */
  lemma UrgencyTagsSpec(urgency: seq<(string, seq<string>)>)
    ensures var withMatches := Filter(urgency, Pre.HasMatches);
      && |UrgencyTags(urgency)| == |withMatches|
      && forall k :: 0 <= k < |withMatches| ==> UrgencyTags(urgency)[k] == "urgency_" + withMatches[k].0
    ensures |UrgencyTags(urgency)| <= |urgency|
    ensures (forall i :: 0 <= i < |urgency| ==> urgency[i].1 != []) ==>
      |UrgencyTags(urgency)| == |urgency|
    ensures forall t :: t in UrgencyTags(urgency) ==> |t| >= 8 && t[..8] == "urgency_"
    ensures forall i :: 0 <= i < |urgency| && urgency[i].1 != [] ==>
      "urgency_" + urgency[i].0 in UrgencyTags(urgency)
    ensures forall t :: t in UrgencyTags(urgency) ==>
      exists i :: 0 <= i < |urgency| && urgency[i].1 != [] && t == "urgency_" + urgency[i].0
  {
    UrgencyTagsInOrder(urgency);
    UrgencyTagsCount(urgency);
    UrgencyTagsSound(urgency);
    UrgencyTagsComplete(urgency);
  }

  lemma {:induction false} UrgencyTagsInOrder(urgency: seq<(string, seq<string>)>)
    ensures var withMatches := Filter(urgency, Pre.HasMatches);
      && |UrgencyTags(urgency)| == |withMatches|
      && forall k :: 0 <= k < |withMatches| ==> UrgencyTags(urgency)[k] == "urgency_" + withMatches[k].0
    decreases |urgency|
  {
    if urgency != [] {
      var n := |urgency| - 1;
      var init, last := urgency[..n], urgency[n];
      UrgencyTagsInOrder(init);
      assert urgency == init + [last];
      FilterConcat(init, [last], Pre.HasMatches);
      assert [last][1..] == [];
      assert Filter([last], Pre.HasMatches) == if Pre.HasMatches(last) then [last] else [];
    }
  }

  lemma {:induction false} UrgencyTagsCount(urgency: seq<(string, seq<string>)>)
    ensures |UrgencyTags(urgency)| <= |urgency|
    ensures (forall i :: 0 <= i < |urgency| ==> urgency[i].1 != []) ==>
      |UrgencyTags(urgency)| == |urgency|
  {
    if urgency != [] {
      var init := urgency[..|urgency| - 1];
      assert forall i :: 0 <= i < |init| ==> init[i] == urgency[i];
      UrgencyTagsCount(init);
    }
  }

  lemma {:induction false} UrgencyTagsSound(urgency: seq<(string, seq<string>)>)
    ensures forall t :: t in UrgencyTags(urgency) ==>
      exists i :: 0 <= i < |urgency| && urgency[i].1 != [] && t == "urgency_" + urgency[i].0
    ensures forall t :: t in UrgencyTags(urgency) ==> |t| >= 8 && t[..8] == "urgency_"
  {
    if urgency != [] {
      var n := |urgency| - 1;
      var init, last := urgency[..n], urgency[n];
      UrgencyTagsSound(init);
      var extra := if last.1 != [] then ["urgency_" + last.0] else [];
      assert UrgencyTags(urgency) == UrgencyTags(init) + extra;
      forall t | t in UrgencyTags(urgency)
        ensures exists i :: 0 <= i < |urgency| && urgency[i].1 != [] && t == "urgency_" + urgency[i].0
      {
        if t in UrgencyTags(init) {
          var i :| 0 <= i < |init| && init[i].1 != [] && t == "urgency_" + init[i].0;
          assert urgency[i] == init[i];
        } else {
          assert t == "urgency_" + urgency[n].0;
        }
      }
    }
  }

  lemma {:induction false} UrgencyTagsComplete(urgency: seq<(string, seq<string>)>)
    ensures forall i :: 0 <= i < |urgency| && urgency[i].1 != [] ==>
      "urgency_" + urgency[i].0 in UrgencyTags(urgency)
  {
    if urgency != [] {
      var n := |urgency| - 1;
      var init := urgency[..n];
      UrgencyTagsComplete(init);
      forall i | 0 <= i < |urgency| && urgency[i].1 != []
        ensures "urgency_" + urgency[i].0 in UrgencyTags(urgency)
      {
        if i < n {
          assert urgency[i] == init[i];
        }
      }
    }
  }

  /**
   * The tag list: category, sentiment, priority and intent first, then the urgency tags, then
   * "vip" for a VIP sender and "urgent" for an urgent query.
   */
  lemma TagsSpec(category: string, sentiment: string, priority: Pri.Level,
                 urgency: seq<(string, seq<string>)>, intent: string, isVip: bool, isUrgent: bool)
    ensures var tags := Tags(category, sentiment, priority, urgency, intent, isVip, isUrgent);
      && |tags| == 4 + |UrgencyTags(urgency)| + (if isVip then 1 else 0) + (if isUrgent then 1 else 0)
      && tags[0] == category
      && tags[1] == "sentiment_" + Lower(sentiment)
      && tags[2] == "priority_" + Lower(priority.Name())
      && tags[3] == "intent_" + intent
      && tags[4..4 + |UrgencyTags(urgency)|] == UrgencyTags(urgency)
      && (isUrgent ==> tags[|tags| - 1] == "urgent")
  {
    var head := [category, "sentiment_" + Lower(sentiment), "priority_" + Lower(priority.Name()),
                 "intent_" + intent];
    var vipTail := if isVip then ["vip"] else [];
    var urgentTail := if isUrgent then ["urgent"] else [];
    Layout(head, UrgencyTags(urgency), vipTail, urgentTail);
  }

  /**
   * After the four fixed tags, "vip" appears exactly for a VIP sender and "urgent" exactly for an
   * urgent query: no urgency tag can be mistaken for either.
   */
  lemma TagFlags(category: string, sentiment: string, priority: Pri.Level,
                 urgency: seq<(string, seq<string>)>, intent: string, isVip: bool, isUrgent: bool)
    ensures var tags := Tags(category, sentiment, priority, urgency, intent, isVip, isUrgent);
      && ("vip" in tags[4..] <==> isVip)
      && ("urgent" in tags[4..] <==> isUrgent)
  {
    var head := [category, "sentiment_" + Lower(sentiment), "priority_" + Lower(priority.Name()),
                 "intent_" + intent];
    var u := UrgencyTags(urgency);
    var vipTail := if isVip then ["vip"] else [];
    var urgentTail := if isUrgent then ["urgent"] else [];
    Layout(head, u, vipTail, urgentTail);
    UrgencyTagsSpec(urgency);
    assert "vip" !in u && "urgent" !in u;
    assert "vip" !in urgentTail && "urgent" !in vipTail;
  }

  /** Where each part of a concatenated tag list ends up. */
  lemma Layout(head: seq<string>, u: seq<string>, vipTail: seq<string>, urgentTail: seq<string>)
    requires |head| == 4
    ensures var tags := head + u + vipTail + urgentTail;
      && |tags| == 4 + |u| + |vipTail| + |urgentTail|
      && (forall i :: 0 <= i < 4 ==> tags[i] == head[i])
      && tags[4..] == u + vipTail + urgentTail
      && (forall x :: x in tags[4..] <==> x in u || x in vipTail || x in urgentTail)
      && tags[4..4 + |u|] == u
      && (urgentTail != [] ==> tags[|tags| - 1] == urgentTail[|urgentTail| - 1])
  {
    var tags := head + u + vipTail + urgentTail;
    assert tags == head + (u + vipTail + urgentTail);
  }

  lemma UrgencyTagsStep(urgency: seq<(string, seq<string>)>, i: nat)
    requires i < |urgency|
    ensures UrgencyTags(urgency[..i + 1])
         == UrgencyTags(urgency[..i]) + (if urgency[i].1 != [] then ["urgency_" + urgency[i].0] else [])
  {
    assert urgency[..i + 1][..i] == urgency[..i];
  }

  /** `_generate_tags`: appends the fixed tags, one tag per detected group, then vip and urgent. */
  method GenerateTags(category: string, sentiment: string, priority: Pri.Level,
                      urgency: seq<(string, seq<string>)>, intent: string,
                      isVip: bool, isUrgent: bool) returns (tags: seq<string>)
    ensures tags == Tags(category, sentiment, priority, urgency, intent, isVip, isUrgent)
  {
    tags := [];
    tags := tags + [category];
    tags := tags + ["sentiment_" + Lower(sentiment)];
    tags := tags + ["priority_" + Lower(priority.Name())];
    tags := tags + ["intent_" + intent];
    ghost var fixed := tags;
    assert fixed == [category, "sentiment_" + Lower(sentiment), "priority_" + Lower(priority.Name()),
                     "intent_" + intent];
    for i := 0 to |urgency|
      invariant tags == fixed + UrgencyTags(urgency[..i])
    {
      UrgencyTagsStep(urgency, i);
      if urgency[i].1 != [] {
        tags := tags + ["urgency_" + urgency[i].0];
      }
    }
    assert urgency[..|urgency|] == urgency;
    ghost var withUrgency := tags;
    if isVip {
      tags := tags + ["vip"];
    }
    assert tags == withUrgency + (if isVip then ["vip"] else []);
    ghost var withVip := tags;
    if isUrgent {
      tags := tags + ["urgent"];
    }
    assert tags == withVip + (if isUrgent then ["urgent"] else []);
  }

  // ---------------------------------------------------------------------------
  // analyze
  // ---------------------------------------------------------------------------

  /** The fixed answer for empty or whitespace-only text. */
  const BlankAnalysis := Analysis(
    "question", 0.0, [], "NEUTRAL", 0.0, SentimentScores(0.0, 1.0, 0.0), "general",
    Pri.MEDIUM, 0.5, false, false, [], [], None)

  /** `subject + " " + text` when a subject is given, the text alone otherwise. */
  function FullText(text: string, subject: Option<string>): (r: string)
    ensures Pri.Given(subject) ==> r == subject.value + " " + text
    ensures !Pri.Given(subject) ==> r == text
  {
    if Pri.Given(subject) then subject.value + " " + text else text
  }

  /** `analyze`: blank text gets the fixed answer, anything else is analysed once cleaned. */
  function Analyze(t: AutoTagger, text: string, senderEmail: Option<string>,
                   senderId: Option<string>, channelType: Option<string>,
                   subject: Option<string>): Analysis {
    if text == [] || Strip(text) == [] then BlankAnalysis
    else
      var cleaned := Pre.CleanText(t.preprocessor, FullText(text, subject));
      AnalyzeCleaned(t, cleaned, senderEmail, senderId, channelType)
  }

  /** The steps of `analyze` after cleaning: every component run on the cleaned text. */
  function AnalyzeCleaned(t: AutoTagger, cleaned: string, senderEmail: Option<string>,
                          senderId: Option<string>, channelType: Option<string>): Analysis {
    var keywords := Pre.ExtractKeywords(t.preprocessor, cleaned, 10);
    var urgency := Pre.DetectUrgency(cleaned);
    var sentiment := t.sentimentOf(cleaned);
    var classification := Cat.Classify(t.classifier, cleaned);
    var intent := Cat.GetIntent(t.classifier, cleaned);
    var priority := Pri.ClassifyPriority(t.scorer, Signals(t, cleaned, senderEmail, senderId, channelType));
    var isVip := Pri.CheckVip(t.scorer, senderEmail, senderId);
    var tags := Tags(classification.category, sentiment.sentiment, priority.level, urgency,
                     intent, isVip, priority.isUrgent);
    Analysis(
      classification.category, classification.confidence, classification.scores,
      sentiment.sentiment, sentiment.confidence,
      SentimentScores(sentiment.positive, sentiment.neutral, sentiment.negative),
      intent, priority.level, priority.score, priority.isUrgent, isVip, tags, keywords,
      Some(urgency))
  }

  /** The arguments `analyze` passes to `classify_priority` (no explicit VIP flag). */
  function Signals(t: AutoTagger, cleaned: string, senderEmail: Option<string>,
                   senderId: Option<string>, channelType: Option<string>): Pri.Signals {
    var sentiment := t.sentimentOf(cleaned);
    Pri.Signals(cleaned, sentiment.sentiment, sentiment.confidence,
                Cat.Classify(t.classifier, cleaned).category, senderEmail, senderId, channelType, None)
  }

  /** `analyze` gives the fixed default for empty or whitespace-only text. */
  lemma AnalyzeBlank(t: AutoTagger, text: string, e: Option<string>,
                     id: Option<string>, ch: Option<string>, subject: Option<string>)
    requires Strip(text) == []
    ensures Analyze(t, text, e, id, ch, subject) == BlankAnalysis
  {
  }

  /**
   * The blank-text default is self-consistent: its score 0.5 is a MEDIUM, non-urgent score, and
   * it carries no tags.
   */
  lemma BlankAnalysisConsistent()
    ensures Pri.DeterminePriority(BlankAnalysis.priorityScore) == BlankAnalysis.priority
    ensures BlankAnalysis.isUrgent <==> BlankAnalysis.priorityScore >= Pri.Threshold(Pri.HIGH)
    ensures BlankAnalysis.autoTags == [] && BlankAnalysis.urgencyKeywords.None?
  {
    assert Pri.Threshold(Pri.MEDIUM) <= 0.5 < Pri.Threshold(Pri.HIGH);
  }

  /**
   * For non-blank text: the level is the level of the score, the query is urgent exactly when
   * the level is HIGH or CRITICAL, the intent is the category's intent, the reported VIP flag is
   * the one the score used, the tags are those of the reported fields with "vip" and "urgent"
   * present exactly when the flags are set, every reported urgency group matched at least one
   * keyword of the cleaned text, and at most ten keywords come back.
   */
  lemma AnalyzeSpec(t: AutoTagger, cleaned: string, senderEmail: Option<string>,
                    senderId: Option<string>, channelType: Option<string>)
    ensures var r := AnalyzeCleaned(t, cleaned, senderEmail, senderId, channelType);
      && r.priority == Pri.DeterminePriority(r.priorityScore)
      && (r.isUrgent <==> r.priority == Pri.HIGH || r.priority == Pri.CRITICAL)
      && (r.isUrgent <==> r.priorityScore >= Pri.Threshold(Pri.HIGH))
      && r.intent == Cat.IntentOf(r.category)
      && r.isVip == Pri.EffectiveVip(t.scorer, Signals(t, cleaned, senderEmail, senderId, channelType))
      && r.autoTags == Tags(r.category, r.sentiment, r.priority, r.urgencyKeywords.value,
                            r.intent, r.isVip, r.isUrgent)
      && |r.autoTags| >= 4 && r.autoTags[0] == r.category
      && ("vip" in r.autoTags[4..] <==> r.isVip)
      && ("urgent" in r.autoTags[4..] <==> r.isUrgent)
      && r.urgencyKeywords.Some?
      && (forall e :: e in r.urgencyKeywords.value ==>
            e.1 != [] && forall k :: k in e.1 ==> Contains(Lower(cleaned), k))
      && |r.keywords| <= 10
  {
    var r := AnalyzeCleaned(t, cleaned, senderEmail, senderId, channelType);
    var priority := Pri.ClassifyPriority(t.scorer, Signals(t, cleaned, senderEmail, senderId, channelType));
    assert r.priority == priority.level && r.priorityScore == priority.score && r.isUrgent == priority.isUrgent;
    TagsSpec(r.category, r.sentiment, r.priority, r.urgencyKeywords.value, r.intent, r.isVip,
             r.isUrgent);
    TagFlags(r.category, r.sentiment, r.priority, r.urgencyKeywords.value, r.intent, r.isVip,
             r.isUrgent);
    Pre.DetectUrgencySpec(cleaned);
    Pre.ExtractKeywordsSpec(t.preprocessor, cleaned, 10);
  }

  /** A VIP sender's query (with a non-negative sentiment confidence) is never LOW. */
  lemma VipQueryNotLow(t: AutoTagger, cleaned: string, senderEmail: Option<string>,
                       senderId: Option<string>, channelType: Option<string>)
    requires Pri.CheckVip(t.scorer, senderEmail, senderId)
    requires t.sentimentOf(cleaned).confidence >= 0.0
    ensures AnalyzeCleaned(t, cleaned, senderEmail, senderId, channelType).isVip
    ensures AnalyzeCleaned(t, cleaned, senderEmail, senderId, channelType).priority != Pri.LOW
  {
    Pri.VipNeverLow(t.scorer, Signals(t, cleaned, senderEmail, senderId, channelType));
  }
}
