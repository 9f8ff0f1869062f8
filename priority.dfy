/**
 * The priority scorer (`PriorityScorer`): VIP lookup, keyword-group urgency, fixed weights for
 * sentiment, category, channel and message length, the capped sum of these, and the threshold
 * map from that score to CRITICAL, HIGH, MEDIUM or LOW. Scores are exact rationals.
 */
module Priority {
  import opened Strings

  datatype Level = CRITICAL | HIGH | MEDIUM | LOW {
    function Name(): string {
      match this
      case CRITICAL => "CRITICAL"
      case HIGH => "HIGH"
      case MEDIUM => "MEDIUM"
      case LOW => "LOW"
    }

    /** Position in the order LOW < MEDIUM < HIGH < CRITICAL. */
    function Rank(): nat {
      match this
      case LOW => 0
      case MEDIUM => 1
      case HIGH => 2
      case CRITICAL => 3
    }
  }

  /** `PRIORITY_THRESHOLDS`: the least score of each level. */
  function Threshold(l: Level): real {
    match l
    case CRITICAL => 0.85
    case HIGH => 0.65
    case MEDIUM => 0.35
    case LOW => 0.0
  }

  datatype KeywordGroup = KeywordGroup(level: string, keywords: seq<string>, weight: real)

  /** The urgency keyword groups with their weights, in the dictionary's order. */
  const UrgencyGroups: seq<KeywordGroup> := [
    KeywordGroup("critical", ["urgent", "critical", "emergency", "asap", "immediately", "now",
                              "crisis", "down", "broken", "not working"], 0.5),
    KeywordGroup("high", ["important", "soon", "quickly", "priority", "needed", "required",
                          "issue", "problem"], 0.3),
    KeywordGroup("negative", ["angry", "frustrated", "disappointed", "terrible", "worst",
                              "awful", "unacceptable"], 0.2)
  ]

  const NegativeSentimentWeight: real := 0.2
  const VipBoost: real := 0.3

  const CategoryWeights: seq<(string, real)> := [
    ("bug_report", 0.3), ("complaint", 0.25), ("support_request", 0.2), ("question", 0.1),
    ("compliment", 0.0), ("feedback", 0.05), ("feature_request", 0.1),
    ("purchase_inquiry", 0.15), ("request", 0.15)
  ]

  const ChannelWeights: seq<(string, real)> := [
    ("WEBSITE_CHAT", 0.2), ("EMAIL", 0.1), ("TWITTER", 0.15), ("FACEBOOK", 0.1),
    ("INSTAGRAM", 0.1), ("LINKEDIN", 0.1), ("DISCORD", 0.15), ("SLACK", 0.15),
    ("TEAMS", 0.15), ("WHATSAPP", 0.15)
  ]

  /** The scorer's state, fixed at construction: the VIP e-mail addresses and sender ids as given. */
  datatype PriorityScorer = PriorityScorer(vipEmails: set<string>, vipSenderIds: set<string>)

  /** The elements of an optional list: `set(xs or [])`. */
  function Elements(xs: Option<seq<string>>): (r: set<string>)
    ensures forall x :: x in r <==> xs.Some? && x in xs.value
  {
    if xs.Some? then set x | x in xs.value else {}
  }

  /** `__init__`: the VIP lists become sets, kept exactly as given (no lowercasing). */
  function NewPriorityScorer(vipEmails: Option<seq<string>>, vipSenderIds: Option<seq<string>>): (s: PriorityScorer)
    ensures forall e :: e in s.vipEmails <==> vipEmails.Some? && e in vipEmails.value
    ensures forall i :: i in s.vipSenderIds <==> vipSenderIds.Some? && i in vipSenderIds.value
  {
    PriorityScorer(Elements(vipEmails), Elements(vipSenderIds))
  }

  /** Python truthiness of an optional string: present and non-empty. */
  predicate Given(s: Option<string>) { s.Some? && s.value != [] }

  // ---------------------------------------------------------------------------
  // check_vip_status
  // ---------------------------------------------------------------------------

  /** `check_vip_status`: the lowercased e-mail is a VIP e-mail, or the sender id is a VIP id. */
  function CheckVip(s: PriorityScorer, senderEmail: Option<string>, senderId: Option<string>): bool {
    if Given(senderEmail) && Lower(senderEmail.value) in s.vipEmails then true
    else if Given(senderId) && senderId.value in s.vipSenderIds then true
    else false
  }

  /**
   * The e-mail is compared without regard to case, but the stored list is used as given, so a
   * stored address with a capital letter never matches; a non-empty e-mail whose lowercase form
   * is listed makes the sender a VIP whatever the id; the sender id must match exactly; with
   * neither an e-mail nor an id the sender is not a VIP. A listed id makes the sender a VIP
   * whatever e-mail comes with it, and a VIP is one of the two.
   */
  lemma VipLookup(s: PriorityScorer, e1: string, e2: string, e: Option<string>, id: Option<string>)
    ensures Lower(e1) == Lower(e2) ==> CheckVip(s, Some(e1), id) == CheckVip(s, Some(e2), id)
    ensures e1 != [] && Lower(e1) in s.vipEmails ==> CheckVip(s, Some(e1), id)
    ensures CheckVip(s, Some(e1), None) <==> e1 != [] && Lower(e1) in s.vipEmails
    ensures CheckVip(s, Some(e1), None) ==> NoUpper(Lower(e1))
    ensures CheckVip(s, None, Some(e1)) <==> e1 != [] && e1 in s.vipSenderIds
    ensures !CheckVip(s, None, None)
    ensures id.Some? && id.value != [] && id.value in s.vipSenderIds ==> CheckVip(s, e, id)
    ensures CheckVip(s, e, id) ==>
      (Given(e) && Lower(e.value) in s.vipEmails) || (Given(id) && id.value in s.vipSenderIds)
  {
    if Lower(e1) == Lower(e2) {
      assert |e1| == |Lower(e1)| && |e2| == |Lower(e2)|;
    }
  }

  // ---------------------------------------------------------------------------
  // score_urgency_keywords
  // ---------------------------------------------------------------------------

  /** One group's contribution: `min(matches / len(keywords), 1.0) * weight` if anything matches. */
  function GroupScore(g: KeywordGroup, text: string): real {
    var matches := CountMatches(g.keywords, text);
    if matches > 0 then Min(matches as real / |g.keywords| as real, 1.0) * g.weight else 0.0
  }

  /** The groups' contributions added up in order. */
  function UrgencyTotal(groups: seq<KeywordGroup>, text: string): real {
    if groups == [] then 0.0
    else UrgencyTotal(groups[..|groups| - 1], text) + GroupScore(groups[|groups| - 1], text)
  }

  function WeightTotal(groups: seq<KeywordGroup>): real {
    if groups == [] then 0.0
    else WeightTotal(groups[..|groups| - 1]) + groups[|groups| - 1].weight
  }

  /** `score_urgency_keywords` as a value. */
  function UrgencyScore(text: string): real {
    Min(UrgencyTotal(UrgencyGroups, Lower(text)), 1.0)
  }

  /** A fraction in [0, 1] of a non-negative weight is at most that weight. */
  lemma ScaleBounds(x: real, w: real)
    requires 0.0 <= x <= 1.0 && 0.0 <= w
    ensures 0.0 <= x * w <= w
    ensures 0.0 < x && 0.0 < w ==> 0.0 < x * w
  {
  }

  /** A group adds nothing when none of its keywords matches, and at most its weight otherwise. */
  lemma GroupScoreBounds(g: KeywordGroup, text: string)
    requires g.weight >= 0.0
    ensures 0.0 <= GroupScore(g, text) <= g.weight
    ensures g.weight > 0.0 ==> (CountMatches(g.keywords, text) == 0 <==> GroupScore(g, text) == 0.0)
  {
    var matches := CountMatches(g.keywords, text);
    if matches > 0 {
      var ratio := matches as real / |g.keywords| as real;
      FractionBounds(matches, |g.keywords|);
      assert GroupScore(g, text) == ratio * g.weight;
      ScaleBounds(ratio, g.weight);
      assert 0.0 <= GroupScore(g, text) <= g.weight;
      assert g.weight != 0.0 ==> GroupScore(g, text) != 0.0;
    } else {
      assert GroupScore(g, text) == 0.0;
    }
  }

  /** The urgency table's total written out group by group. */
  lemma UrgencyTotalOfTable(text: string)
    ensures UrgencyTotal(UrgencyGroups, text)
         == GroupScore(UrgencyGroups[0], text) + GroupScore(UrgencyGroups[1], text)
          + GroupScore(UrgencyGroups[2], text)
    ensures WeightTotal(UrgencyGroups) == 1.0
  {
    var g := UrgencyGroups;
    assert g[..3] == g;
    assert g[..3][..2] == g[..2];
    assert g[..2][..1] == g[..1];
    assert g[..1][..0] == [];
    assert UrgencyTotal(g[..1], text) == GroupScore(g[0], text);
    assert UrgencyTotal(g[..2], text) == UrgencyTotal(g[..1], text) + GroupScore(g[1], text);
    assert UrgencyTotal(g, text) == UrgencyTotal(g[..2], text) + GroupScore(g[2], text);
    assert WeightTotal(g[..1]) == 0.5;
    assert WeightTotal(g[..2]) == WeightTotal(g[..1]) + 0.3;
    assert WeightTotal(g) == WeightTotal(g[..2]) + 0.2;
  }

  /** The total lies between zero and the sum of the weights. */
  lemma {:induction false} UrgencyTotalBounds(groups: seq<KeywordGroup>, text: string)
    requires forall i :: 0 <= i < |groups| ==> groups[i].weight >= 0.0
    ensures 0.0 <= UrgencyTotal(groups, text) <= WeightTotal(groups)
  {
    if groups != [] {
      UrgencyTotalBounds(groups[..|groups| - 1], text);
      GroupScoreBounds(groups[|groups| - 1], text);
    }
  }

  /**
   * The urgency score lies in [0, 1]; since the weights add up to exactly 1, the cap at 1 never
   * changes it.
   */
  lemma UrgencyScoreBounds(text: string)
    ensures 0.0 <= UrgencyScore(text) <= 1.0
    ensures UrgencyScore(text) == UrgencyTotal(UrgencyGroups, Lower(text))
  {
    UrgencyTotalOfTable(Lower(text));
    UrgencyTotalBounds(UrgencyGroups, Lower(text));
  }

  /** The urgency score is zero exactly when no keyword of any group occurs in the lowercased text. */
  lemma UrgencyScoreZero(text: string)
    ensures UrgencyScore(text) == 0.0 <==>
      forall i :: 0 <= i < |UrgencyGroups| ==> CountMatches(UrgencyGroups[i].keywords, Lower(text)) == 0
  {
    var t := Lower(text);
    UrgencyScoreBounds(text);
    UrgencyTotalOfTable(t);
    var g0, g1, g2 := UrgencyGroups[0], UrgencyGroups[1], UrgencyGroups[2];
    GroupScoreBounds(g0, t);
    GroupScoreBounds(g1, t);
    GroupScoreBounds(g2, t);
    if UrgencyScore(text) == 0.0 {
      forall i | 0 <= i < |UrgencyGroups| ensures CountMatches(UrgencyGroups[i].keywords, t) == 0 {
        assert i == 0 || i == 1 || i == 2;
      }
    } else {
      assert CountMatches(g0.keywords, t) != 0 || CountMatches(g1.keywords, t) != 0
          || CountMatches(g2.keywords, t) != 0;
    }
  }

  /** One more group adds its contribution to the running total. */
  lemma UrgencyStep(groups: seq<KeywordGroup>, i: nat, text: string)
    requires i < |groups|
    ensures UrgencyTotal(groups[..i + 1], text) == UrgencyTotal(groups[..i], text) + GroupScore(groups[i], text)
  {
    assert groups[..i + 1][..i] == groups[..i];
  }

  /** A group with at least one match contributes its match ratio (capped at 1) times its weight. */
  lemma GroupScoreOfMatches(g: KeywordGroup, text: string)
    requires CountMatches(g.keywords, text) > 0
    ensures GroupScore(g, text)
         == Min(CountMatches(g.keywords, text) as real / |g.keywords| as real, 1.0) * g.weight
  {
  }

  /** `score_urgency_keywords`: adds up the groups' contributions, then caps the total at 1. */
  method ScoreUrgencyKeywords(text: string) returns (score: real)
    ensures score == UrgencyScore(text)
    ensures 0.0 <= score <= 1.0
  {
    var textLower := Lower(text);
    var total := 0.0;
    for i := 0 to |UrgencyGroups|
      invariant total == UrgencyTotal(UrgencyGroups[..i], textLower)
    {
      var group := UrgencyGroups[i];
      var matches := CountMatches(group.keywords, textLower);
      UrgencyStep(UrgencyGroups, i, textLower);
      if matches > 0 {
        var matchScore := Min(matches as real / |group.keywords| as real, 1.0);
        GroupScoreOfMatches(group, textLower);
        total := total + matchScore * group.weight;
      } else {
        assert GroupScore(group, textLower) == 0.0;
      }
    }
    assert UrgencyGroups[..|UrgencyGroups|] == UrgencyGroups;
    score := Min(total, 1.0);
    UrgencyScoreBounds(text);
  }

  // ---------------------------------------------------------------------------
  // The fixed-weight signals
  // ---------------------------------------------------------------------------

  /** `score_sentiment`: only a negative sentiment raises priority, in proportion to its confidence. */
  function ScoreSentiment(sentiment: string, confidence: real): (r: real)
    ensures sentiment == "NEGATIVE" ==> r == NegativeSentimentWeight * confidence
    ensures sentiment != "NEGATIVE" ==> r == 0.0
    ensures 0.0 <= confidence <= 1.0 ==> 0.0 <= r <= NegativeSentimentWeight
  {
    if sentiment == "NEGATIVE" then NegativeSentimentWeight * confidence
    else if sentiment == "POSITIVE" then 0.0
    else 0.0
  }

  /** `table.get(key, default)` for a dictionary literal given as its ordered items. */
  function Lookup(table: seq<(string, real)>, key: string, default: real): (r: real)
    ensures (forall i :: 0 <= i < |table| ==> table[i].0 != key) ==> r == default
    ensures (exists i :: 0 <= i < |table| && table[i].0 == key) ==>
      exists i :: 0 <= i < |table| && table[i] == (key, r)
  {
    if table == [] then default
    else if table[0].0 == key then table[0].1
    else
      var r := Lookup(table[1..], key, default);
      assert forall i :: 0 < i < |table| ==> table[i] == table[1..][i - 1];
      r
  }

  /** `score_category`: the category's fixed weight, 0.1 for a category not in the table. */
  function ScoreCategory(category: string): (r: real)
    ensures (forall i :: 0 <= i < |CategoryWeights| ==> CategoryWeights[i].0 != category) ==> r == 0.1
    ensures 0.0 <= r <= 0.3
  {
    Lookup(CategoryWeights, category, 0.1)
  }

  /** `score_channel`: the channel's fixed weight, 0.1 when the type is missing, empty or unknown. */
  function ScoreChannel(channelType: Option<string>): (r: real)
    ensures !Given(channelType) ==> r == 0.1
    ensures Given(channelType) &&
      (forall i :: 0 <= i < |ChannelWeights| ==> ChannelWeights[i].0 != channelType.value)
      ==> r == 0.1
    ensures 0.1 <= r <= 0.2
  {
    if Given(channelType) then Lookup(ChannelWeights, channelType.value, 0.1) else 0.1
  }

  /** `score_length`: a small boost for fewer than 5 or more than 200 whitespace-separated words. */
  function ScoreLength(text: string): (r: real)
    ensures r == 0.05 <==> |Split(text)| < 5 || |Split(text)| > 200
    ensures r == 0.0 || r == 0.05
  {
    var wordCount := |Split(text)|;
    if wordCount < 5 then 0.05
    else if wordCount > 200 then 0.05
    else 0.0
  }

  // ---------------------------------------------------------------------------
  // calculate_priority_score, determine_priority, classify_priority
  // ---------------------------------------------------------------------------

  /** The arguments of `calculate_priority_score` and `classify_priority`. */
  datatype Signals = Signals(
    text: string,
    sentiment: string,
    sentimentConfidence: real,
    category: string,
    senderEmail: Option<string>,
    senderId: Option<string>,
    channelType: Option<string>,
    isVip: Option<bool>)

  /** The VIP flag the score uses: the explicit one when given, otherwise the lookup. */
  function EffectiveVip(s: PriorityScorer, sig: Signals): bool {
    if sig.isVip.Some? then sig.isVip.value else CheckVip(s, sig.senderEmail, sig.senderId)
  }

  /** The `scores` list: the VIP boost if VIP, then urgency, sentiment, category, channel, length. */
  function Contributions(s: PriorityScorer, sig: Signals): seq<real> {
    (if EffectiveVip(s, sig) then [VipBoost] else [])
    + [UrgencyScore(sig.text)] + [ScoreSentiment(sig.sentiment, sig.sentimentConfidence)]
    + [ScoreCategory(sig.category)] + [ScoreChannel(sig.channelType)] + [ScoreLength(sig.text)]
  }

  /** `sum`, from the left. */
  function Sum(xs: seq<real>): real {
    if xs == [] then 0.0 else Sum(xs[..|xs| - 1]) + xs[|xs| - 1]
  }

  /** The contributions added up, before the cap. */
  function RawPriorityScore(s: PriorityScorer, sig: Signals): real {
    Sum(Contributions(s, sig))
  }

  /** `calculate_priority_score` as a value: the sum capped at 1. */
  function PriorityScore(s: PriorityScorer, sig: Signals): real {
    Min(RawPriorityScore(s, sig), 1.0)
  }

  lemma SumAppend(xs: seq<real>, x: real)
    ensures Sum(xs + [x]) == Sum(xs) + x
  {
    assert (xs + [x])[..|xs|] == xs;
  }

  /** The sum of a list ending in five given values. */
  lemma SumOfFive(xs: seq<real>, a: real, b: real, c: real, d: real, e: real)
    ensures Sum(xs + [a] + [b] + [c] + [d] + [e]) == Sum(xs) + a + b + c + d + e
  {
    SumAppend(xs, a);
    SumAppend(xs + [a], b);
    SumAppend(xs + [a] + [b], c);
    SumAppend(xs + [a] + [b] + [c], d);
    SumAppend(xs + [a] + [b] + [c] + [d], e);
  }

  /** The raw score written out: 0.3 for a VIP plus the five signal scores. */
  lemma RawPriorityScoreParts(s: PriorityScorer, sig: Signals)
    ensures RawPriorityScore(s, sig)
         == (if EffectiveVip(s, sig) then VipBoost else 0.0) + UrgencyScore(sig.text)
          + ScoreSentiment(sig.sentiment, sig.sentimentConfidence) + ScoreCategory(sig.category)
          + ScoreChannel(sig.channelType) + ScoreLength(sig.text)
  {
    var vip: seq<real> := if EffectiveVip(s, sig) then [VipBoost] else [];
    SumOfFive(vip, UrgencyScore(sig.text), ScoreSentiment(sig.sentiment, sig.sentimentConfidence),
              ScoreCategory(sig.category), ScoreChannel(sig.channelType), ScoreLength(sig.text));
    assert Sum([] + [VipBoost]) == VipBoost by {
      SumAppend([], VipBoost);
    }
    assert [] + [VipBoost] == [VipBoost];
  }

  /**
   * `calculate_priority_score`: collects the contributions in a list, adds them up and caps the
   * sum at 1. With a non-negative sentiment confidence the score is at least 0.1, the least
   * channel weight.
   */
  method CalculatePriorityScore(s: PriorityScorer, sig: Signals) returns (total: real)
    ensures total == PriorityScore(s, sig)
    ensures total <= 1.0
    ensures sig.sentimentConfidence >= 0.0 ==> 0.1 <= total
  {
    var scores: seq<real> := [];
    var isVip := if sig.isVip.Some? then sig.isVip.value else CheckVip(s, sig.senderEmail, sig.senderId);
    if isVip {
      scores := scores + [VipBoost];
    }
    assert scores == if EffectiveVip(s, sig) then [VipBoost] else [];
    var urgencyScore := ScoreUrgencyKeywords(sig.text);
    scores := scores + [urgencyScore];
    var sentimentScore := ScoreSentiment(sig.sentiment, sig.sentimentConfidence);
    scores := scores + [sentimentScore];
    var categoryScore := ScoreCategory(sig.category);
    scores := scores + [categoryScore];
    var channelScore := ScoreChannel(sig.channelType);
    scores := scores + [channelScore];
    var lengthScore := ScoreLength(sig.text);
    scores := scores + [lengthScore];
    assert scores == Contributions(s, sig);
    total := Sum(scores);
    total := Min(total, 1.0);
    if sig.sentimentConfidence >= 0.0 {
      PriorityScoreBounds(s, sig);
    }
  }

  /**
   * `determine_priority`: the highest level whose threshold the score reaches (LOW when it
   * reaches none).
   */
  function DeterminePriority(score: real): (r: Level)
    ensures r != LOW ==> Threshold(r) <= score
    ensures forall l :: Threshold(l) <= score ==> l.Rank() <= r.Rank()
  {
    if score >= Threshold(CRITICAL) then CRITICAL
    else if score >= Threshold(HIGH) then HIGH
    else if score >= Threshold(MEDIUM) then MEDIUM
    else LOW
  }

  /** A higher score never gives a lower level. */
  lemma DeterminePriorityMonotone(a: real, b: real)
    requires a <= b
    ensures DeterminePriority(a).Rank() <= DeterminePriority(b).Rank()
  {
    var la := DeterminePriority(a);
    if la != LOW {
      assert Threshold(la) <= b;
    }
  }

  datatype PriorityResult = PriorityResult(level: Level, score: real, isUrgent: bool)

  /**
   * `classify_priority`: the level of the score, and urgency exactly when the score reaches the
   * HIGH threshold, which is exactly when the level is HIGH or CRITICAL.
   */
  function ClassifyPriority(s: PriorityScorer, sig: Signals): (r: PriorityResult)
    ensures r.score == PriorityScore(s, sig)
    ensures r.level == DeterminePriority(r.score)
    ensures r.isUrgent <==> r.score >= Threshold(HIGH)
    ensures r.isUrgent <==> r.level == HIGH || r.level == CRITICAL
  {
    var score := PriorityScore(s, sig);
    var priority := DeterminePriority(score);
    var isUrgent := score >= Threshold(HIGH);
    PriorityResult(priority, score, isUrgent)
  }

  // ---------------------------------------------------------------------------
  // Properties of the score
  // ---------------------------------------------------------------------------

  /**
   * The score lies in [0.1, 1] when the sentiment confidence is non-negative, and the cap at 1
   * applies only above it.
   */
  lemma PriorityScoreBounds(s: PriorityScorer, sig: Signals)
    requires sig.sentimentConfidence >= 0.0
    ensures 0.1 <= PriorityScore(s, sig) <= 1.0
  {
    RawScoreFloor(s, sig);
  }

  /** Before the cap the score is at least the least channel weight, plus the boost for a VIP. */
  lemma RawScoreFloor(s: PriorityScorer, sig: Signals)
    requires sig.sentimentConfidence >= 0.0
    ensures RawPriorityScore(s, sig) >= (if EffectiveVip(s, sig) then VipBoost else 0.0) + 0.1
  {
    UrgencyScoreBounds(sig.text);
    RawPriorityScoreParts(s, sig);
  }

  /**
   * An explicit VIP flag overrides the lookup: the VIP lists and the sender fields no longer
   * matter. Without one, the score is the one the looked-up flag gives explicitly.
   */
  lemma VipOverride(s: PriorityScorer, t: PriorityScorer, sig: Signals,
                    email: Option<string>, id: Option<string>)
    ensures sig.isVip.Some? ==>
      PriorityScore(s, sig) == PriorityScore(t, sig.(senderEmail := email, senderId := id))
    ensures sig.isVip.None? ==>
      PriorityScore(s, sig) == PriorityScore(s, sig.(isVip := Some(CheckVip(s, sig.senderEmail, sig.senderId))))
  {
  }

  /** VIP status adds exactly 0.3 before the cap, and never lowers the capped score. */
  lemma VipAddsBoost(s: PriorityScorer, sig: Signals)
    ensures RawPriorityScore(s, sig.(isVip := Some(true)))
         == RawPriorityScore(s, sig.(isVip := Some(false))) + VipBoost
    ensures PriorityScore(s, sig.(isVip := Some(true))) >= PriorityScore(s, sig.(isVip := Some(false)))
  {
    RawPriorityScoreParts(s, sig.(isVip := Some(true)));
    RawPriorityScoreParts(s, sig.(isVip := Some(false)));
  }

  /** A VIP query (with non-negative sentiment confidence) is never LOW. */
  lemma VipNeverLow(s: PriorityScorer, sig: Signals)
    requires EffectiveVip(s, sig) && sig.sentimentConfidence >= 0.0
    ensures ClassifyPriority(s, sig).level != LOW
  {
    RawScoreFloor(s, sig);
    AboveMediumNotLow(ClassifyPriority(s, sig).score);
  }

  lemma AboveMediumNotLow(score: real)
    requires score >= 0.4
    ensures DeterminePriority(score) != LOW
  {
  }

  /**
   * Without VIP status, a matching urgency keyword or a negative sentiment, a query can reach
   * at most 0.55 (category 0.3, channel 0.2, length 0.05), below the HIGH threshold: it is never
   * urgent.
   */
  lemma UrgencyNeedsASignal(s: PriorityScorer, sig: Signals)
    requires !EffectiveVip(s, sig) && sig.sentiment != "NEGATIVE"
    requires forall i :: 0 <= i < |UrgencyGroups| ==> CountMatches(UrgencyGroups[i].keywords, Lower(sig.text)) == 0
    ensures PriorityScore(s, sig) <= 0.55
    ensures !ClassifyPriority(s, sig).isUrgent
  {
    var t := Lower(sig.text);
    RawPriorityScoreParts(s, sig);
    UrgencyTotalOfTable(t);
    assert CountMatches(UrgencyGroups[0].keywords, t) == 0;
    assert CountMatches(UrgencyGroups[1].keywords, t) == 0;
    assert CountMatches(UrgencyGroups[2].keywords, t) == 0;
  }
}
