/**
 * The string-level part of the text preprocessing pipeline (`TextPreprocessor`): the
 * whitespace, lowercase and empty-text steps of `clean_text`, the stopword filter, the token
 * filter of `preprocess`, the frequency-ranked `extract_keywords`, and the table-driven
 * `detect_urgency_keywords`.
 */
module Preprocessing {
  import opened Strings

  /**
   * The preprocessor's settings, fixed at construction. The library steps it delegates to are
   * carried as functions:
   *  - `scrub`: Unicode NFKD normalisation and the URL, e-mail, mention and hashtag regex
   *    removals, as the flags select them;
   *  - `tokenizer`: the word tokeniser;
   *  - `stemmer`: the Porter stemmer.
   */
  datatype Preprocessor = Preprocessor(
    removeStopwords: bool,
    lowercase: bool,
    stopWords: set<string>,
    scrub: string -> string,
    tokenizer: string -> seq<string>,
    stemmer: string -> string)

  // ---------------------------------------------------------------------------
  // clean_text
  // ---------------------------------------------------------------------------

  /** `re.sub(r'\s+', ' ', s)`: every maximal run of whitespace becomes one plain space. */
  function CollapseSpaces(s: string): string
    decreases |s|
  {
    if s == [] then []
    else if IsSpace(s[0]) then
      assert StripLeft(s) != s;
      " " + CollapseSpaces(StripLeft(s))
    else TakeWord(s) + CollapseSpaces(DropWord(s))
  }

  /** The words of the text after the steps that precede whitespace handling. */
  function CleanWords(p: Preprocessor, text: string): (ws: seq<string>)
    ensures IsWordList(ws)
  {
    var words := Split(p.scrub(text));
    LowerWordList(words);
    if p.lowercase then LowerWords(words) else words
  }

  /**
   * `clean_text`: empty input gives the empty string; otherwise the scrubbed text with its
   * whitespace collapsed and trimmed, lowercased when `lowercase` is set. The result is the
   * scrubbed text's words joined by single spaces, so it has no leading or trailing whitespace
   * and no whitespace run, and splitting it gives those words back.
   */
  function CleanText(p: Preprocessor, text: string): (r: string)
    ensures text == [] ==> r == []
    ensures text != [] ==> r == Join(CleanWords(p, text))
    ensures Split(r) == if text == [] then [] else CleanWords(p, text)
    ensures NoOuterSpace(r) && NoSpaceRun(r) && SpacesArePlain(r)
    ensures p.lowercase ==> NoUpper(r)
  {
    if text == [] then []
    else
      var words := Split(p.scrub(text));
      var collapsed := Strip(CollapseSpaces(p.scrub(text)));
      CollapseThenStrip(p.scrub(text));
      LowerJoin(words);
      LowerWordList(words);
      SplitJoin(CleanWords(p, text));
      JoinShape(CleanWords(p, text));
      if p.lowercase then Lower(collapsed) else collapsed
  }

  lemma CollapseStartsVisible(s: string)
    requires s != [] && !IsSpace(s[0])
    ensures CollapseSpaces(s) != [] && CollapseSpaces(s)[0] == s[0]
  {
  }

  /** Trimming the end of a text is trimming the end of its last part, if that part starts visibly. */
  lemma {:induction false} StripRightAfter(a: string, b: string)
    requires b != [] && !IsSpace(b[0])
    ensures StripRight(a + b) == a + StripRight(b)
    decreases |b|
  {
    if IsSpace(b[|b| - 1]) {
      assert (a + b)[..|a + b| - 1] == a + b[..|b| - 1];
      StripRightAfter(a, b[..|b| - 1]);
    }
  }

  /** The one-step unfoldings of `CollapseSpaces` and `Split` at a word. */
  lemma AtWord(u: string)
    requires u != [] && !IsSpace(u[0])
    ensures CollapseSpaces(u) == TakeWord(u) + CollapseSpaces(DropWord(u))
    ensures Split(u) == [TakeWord(u)] + Split(DropWord(u))
    ensures IsWord(TakeWord(u))
    ensures DropWord(u) == [] || IsSpace(DropWord(u)[0])
  {
  }

  /** The one-step unfolding of `CollapseSpaces` at whitespace. */
  lemma AtSpace(s: string)
    requires s != [] && IsSpace(s[0])
    ensures CollapseSpaces(s) == " " + CollapseSpaces(StripLeft(s))
    ensures Split(StripLeft(s)) == Split(s)
  {
    SplitLeadingSpaces(s);
  }

  /** For a text that starts visibly, collapsing and trimming the end joins its words. */
  lemma {:induction false} CollapseThenStripRight(u: string)
    requires u == [] || !IsSpace(u[0])
    ensures StripRight(CollapseSpaces(u)) == Join(Split(u))
    decreases |u|, 2
  {
    if u != [] {
      AtWord(u);
      var w, rest := TakeWord(u), DropWord(u);
      if rest == [] {
        assert w + [] == w;
      } else {
        WordThenGap(w, rest);
      }
    }
  }

  /** A word, then whitespace, then the rest: the word joined to the rest's words. */
  lemma {:induction false} WordThenGap(w: string, rest: string)
    requires IsWord(w) && rest != [] && IsSpace(rest[0])
    ensures StripRight(w + CollapseSpaces(rest)) == Join([w] + Split(rest))
    decreases |rest|, 1
  {
    if StripLeft(rest) == [] {
      WordThenTrailingGap(w, rest);
    } else {
      WordThenGapThenWord(w, rest);
    }
  }

  lemma {:induction false} WordThenGapThenWord(w: string, rest: string)
    requires IsWord(w) && rest != [] && IsSpace(rest[0]) && StripLeft(rest) != []
    ensures StripRight(w + CollapseSpaces(rest)) == Join([w] + Split(rest))
    decreases |rest|, 0
  {
    AtSpace(rest);
    var v := StripLeft(rest);
    StripLeftShrinks(rest);
    var c := CollapseSpaces(v);
    CollapseStartsVisible(v);
    AtWord(v);
    assert w + CollapseSpaces(rest) == (w + " ") + c;
    StripRightAfter(w + " ", c);
    CollapseThenStripRight(v);
    JoinCons(w, Split(v));
  }

  lemma WordThenTrailingGap(w: string, rest: string)
    requires IsWord(w) && rest != [] && IsSpace(rest[0]) && StripLeft(rest) == []
    ensures StripRight(w + CollapseSpaces(rest)) == Join([w] + Split(rest))
  {
    AtSpace(rest);
    assert CollapseSpaces(rest) == " " + [];
    assert Split(rest) == [];
    WordThenSpace(w);
    assert [w] + [] == [w];
  }

  /** `rstrip` removes the one space after a word. */
  lemma WordThenSpace(w: string)
    requires IsWord(w)
    ensures StripRight(w + (" " + [])) == w
  {
    var x := w + (" " + []);
    assert x[..|x| - 1] == w;
    assert StripRight(x) == StripRight(w);
  }

  lemma StripLeftShrinks(s: string)
    requires s != [] && IsSpace(s[0])
    ensures |StripLeft(s)| < |s|
  {
  }

  lemma JoinCons(w: string, ws: seq<string>)
    requires ws != []
    ensures Join([w] + ws) == w + " " + Join(ws)
  {
    assert ([w] + ws)[1..] == ws;
  }

  /** A leading space is trimmed away by `lstrip`. */
  lemma StripLeftSpace(x: string)
    ensures StripLeft(" " + x) == StripLeft(x)
  {
    var y := " " + x;
    assert y[0] == ' ' && IsSpace(' ');
    assert y[1..] == x;
  }

  /** The collapsed text of a visibly starting text is unchanged by `lstrip`. */
  lemma CollapseStripLeft(u: string)
    requires u == [] || !IsSpace(u[0])
    ensures StripLeft(CollapseSpaces(u)) == CollapseSpaces(u)
  {
    if u != [] {
      CollapseStartsVisible(u);
    }
  }

  /** Collapsing whitespace runs and then stripping joins the words by single spaces. */
  lemma CollapseThenStrip(s: string)
    ensures Strip(CollapseSpaces(s)) == Join(Split(s))
  {
    if s != [] && IsSpace(s[0]) {
      var v := StripLeft(s);
      SplitLeadingSpaces(s);
      AtSpace(s);
      StripLeftSpace(CollapseSpaces(v));
      CollapseStripLeft(v);
      assert StripLeft(CollapseSpaces(s)) == CollapseSpaces(v);
      CollapseThenStripRight(v);
    } else {
      CollapseStripLeft(s);
      CollapseThenStripRight(s);
    }
  }

  // ---------------------------------------------------------------------------
  // Stopwords, tokens, preprocess
  // ---------------------------------------------------------------------------

  /**
   * `remove_stopwords_from_tokens`: the identity when the flag is off; otherwise every
   * occurrence of a token outside the stop set is kept and every stop token dropped.
   */
  function RemoveStopwords(p: Preprocessor, tokens: seq<string>): (r: seq<string>)
    ensures !p.removeStopwords ==> r == tokens
    ensures p.removeStopwords ==>
      forall t :: multiset(r)[t] == if t in p.stopWords then 0 else multiset(tokens)[t]
  {
    if !p.removeStopwords then tokens else Filter(tokens, t => t !in p.stopWords)
  }

  /** The stopword filter keeps relative order: it distributes over concatenation. */
  lemma RemoveStopwordsKeepsOrder(p: Preprocessor, a: seq<string>, b: seq<string>)
    ensures RemoveStopwords(p, a + b) == RemoveStopwords(p, a) + RemoveStopwords(p, b)
  {
    if p.removeStopwords {
      FilterConcat(a, b, t => t !in p.stopWords);
    }
  }

  /** `string.punctuation`. */
  const Punctuation: string := "!\"#$%&'()*+,-./:;<=>?@[\\]^_`{|}~"

  /**
   * The token test of `preprocess`: longer than one character and not a piece of the
   * punctuation string (Python's `t not in string.punctuation` is a substring test).
   */
  predicate KeepToken(t: string) {
    |t| > 1 && !Contains(Punctuation, t)
  }

  datatype Preprocessed = Cleaned(text: string) | Tokens(tokens: seq<string>)

  function StemAll(p: Preprocessor, tokens: seq<string>): seq<string> {
    seq(|tokens|, i requires 0 <= i < |tokens| => p.stemmer(tokens[i]))
  }

  /**
   * `preprocess`: the cleaned text, or, in tokenize mode, the tokens of the cleaned text
   * without stopwords, stemmed when asked, that pass the token test.
   */
  function Preprocess(p: Preprocessor, text: string, tokenize: bool, stem: bool): (r: Preprocessed)
    ensures !tokenize ==> r == Cleaned(CleanText(p, text))
    ensures tokenize ==> r.Tokens? && forall i :: 0 <= i < |r.tokens| ==> KeepToken(r.tokens[i])
  {
    var cleaned := CleanText(p, text);
    if tokenize then
      var tokens := RemoveStopwords(p, p.tokenizer(cleaned));
      var stemmed := if stem then StemAll(p, tokens) else tokens;
      Tokens(Filter(stemmed, KeepToken))
    else
      Cleaned(cleaned)
  }

  /**
   * In tokenize mode without stemming, a token survives exactly when the tokeniser produced it
   * from the cleaned text, it is not a stopword (if those are removed) and it passes the
   * token test; each surviving token keeps all its occurrences.
   */
  lemma PreprocessTokens(p: Preprocessor, text: string, t: string)
    ensures var toks := Preprocess(p, text, true, false).tokens;
      multiset(toks)[t] ==
        if KeepToken(t) && !(p.removeStopwords && t in p.stopWords)
        then multiset(p.tokenizer(CleanText(p, text)))[t] else 0
  {
  }

  // ---------------------------------------------------------------------------
  // extract_keywords
  // ---------------------------------------------------------------------------

  /** The keyword test of `extract_keywords`: longer than three characters and alphanumeric. */
  predicate IsKeyword(t: string) {
    |t| > 3 && IsAlnumString(t)
  }

  /** How often `w` occurs in `ks` (the value `Counter(ks)` holds for `w`). */
  function Count(ks: seq<string>, w: string): nat {
    multiset(ks)[w]
  }

  /** The distinct elements of `ks` in order of first occurrence: the keys of `Counter(ks)`. */
  function Distinct(ks: seq<string>): (d: seq<string>)
    ensures forall x :: x in d <==> x in ks
    ensures forall i, j :: 0 <= i < j < |d| ==> d[i] != d[j]
  {
    if ks == [] then []
    else
      var init, last := ks[..|ks| - 1], ks[|ks| - 1];
      assert ks == init + [last];
      var d := Distinct(init);
      if last in d then d else d + [last]
  }

  /** Counts never increase along `s`. */
  predicate ByCountDescending(ks: seq<string>, s: seq<string>) {
    forall i, j :: 0 <= i < j < |s| ==> Count(ks, s[i]) >= Count(ks, s[j])
  }

  /** `x` placed just before the first element whose count does not exceed its own. */
  function InsertByCount(ks: seq<string>, x: string, s: seq<string>): (r: seq<string>)
    requires ByCountDescending(ks, s)
    ensures multiset(r) == multiset(s) + multiset{x}
    ensures ByCountDescending(ks, r)
  {
    if s == [] || Count(ks, s[0]) <= Count(ks, x) then
      PrependLeader(ks, x, s);
      [x] + s
    else
      var tail := InsertByCount(ks, x, s[1..]);
      assert s == [s[0]] + s[1..];
      HeadStaysFirst(ks, s, x, tail);
      [s[0]] + tail
  }

  /** An element counted at least as often as the head of `s` may go in front of it. */
  lemma PrependLeader(ks: seq<string>, x: string, s: seq<string>)
    requires ByCountDescending(ks, s) && (s == [] || Count(ks, s[0]) <= Count(ks, x))
    ensures ByCountDescending(ks, [x] + s)
  {
    var r := [x] + s;
    forall i, j | 0 <= i < j < |r| ensures Count(ks, r[i]) >= Count(ks, r[j]) {
      assert r[j] == s[j - 1];
      if i > 0 {
        assert r[i] == s[i - 1];
      } else if j > 1 {
        assert Count(ks, s[0]) >= Count(ks, s[j - 1]);
      }
    }
  }

  /** The head of `s` still leads once `x`, counted less often, is inserted into the rest. */
  lemma HeadStaysFirst(ks: seq<string>, s: seq<string>, x: string, tail: seq<string>)
    requires s != [] && ByCountDescending(ks, s) && Count(ks, s[0]) > Count(ks, x)
    requires multiset(tail) == multiset(s[1..]) + multiset{x} && ByCountDescending(ks, tail)
    ensures ByCountDescending(ks, [s[0]] + tail)
  {
    forall j | 0 <= j < |tail| ensures Count(ks, s[0]) >= Count(ks, tail[j]) {
      assert tail[j] in multiset(tail);
      if tail[j] != x {
        assert tail[j] in multiset(s[1..]);
        var k :| 0 <= k < |s[1..]| && s[1..][k] == tail[j];
        assert s[k + 1] == tail[j];
      }
    }
    var r := [s[0]] + tail;
    forall i, j | 0 <= i < j < |r| ensures Count(ks, r[i]) >= Count(ks, r[j]) {
      assert r[j] == tail[j - 1];
      if i > 0 {
        assert r[i] == tail[i - 1];
      }
    }
  }

  /** `Counter.most_common` order: by count, highest first, ties in first-occurrence order. */
  function RankByCount(ks: seq<string>, d: seq<string>): (r: seq<string>)
    ensures multiset(r) == multiset(d)
    ensures ByCountDescending(ks, r)
  {
    if d == [] then []
    else
      assert d == [d[0]] + d[1..];
      InsertByCount(ks, d[0], RankByCount(ks, d[1..]))
  }

  /** `Counter(ks).most_common(n)`, keys only. */
  function MostCommon(ks: seq<string>, n: int): seq<string> {
    var ranked := RankByCount(ks, Distinct(ks));
    if n <= 0 then [] else if n >= |ranked| then ranked else ranked[..n]
  }

  /**
   * `most_common(n)` gives at most `n` distinct elements of `ks`, counts never increasing, and
   * no element left out occurs more often than any element given; an element is left out only
   * when all `n` places are taken.
   */
  lemma MostCommonSpec(ks: seq<string>, n: int)
    ensures var r := MostCommon(ks, n);
      && |r| <= (if n <= 0 then 0 else n)
      && (forall i, j :: 0 <= i < j < |r| ==> r[i] != r[j])
      && (forall i :: 0 <= i < |r| ==> r[i] in ks)
      && ByCountDescending(ks, r)
      && (forall w :: w in ks && w !in r ==>
            |r| >= n && forall i :: 0 <= i < |r| ==> Count(ks, r[i]) >= Count(ks, w))
  {
    var ranked := RankByCount(ks, Distinct(ks));
    var r := MostCommon(ks, n);
    var m := |r|;
    assert r == ranked[..m];
    RankedMembers(ks, ranked);
    PrefixOfRanked(ks, ranked, m, r);
    LeftOutOfPrefix(ks, ranked, n, r);
  }

  /** The ranking holds every element of `ks` exactly once. */
  lemma RankedMembers(ks: seq<string>, ranked: seq<string>)
    requires ranked == RankByCount(ks, Distinct(ks))
    ensures forall x :: x in ranked <==> x in ks
    ensures forall i, j :: 0 <= i < j < |ranked| ==> ranked[i] != ranked[j]
  {
    var d := Distinct(ks);
    SameMembers(d, ranked);
    DistinctPermutation(d, ranked);
  }

  /** A prefix keeps the order and the distinctness of the whole, and only its members. */
  lemma PrefixOfRanked(ks: seq<string>, ranked: seq<string>, m: nat, r: seq<string>)
    requires m <= |ranked| && r == ranked[..m] && ByCountDescending(ks, ranked)
    requires forall i, j :: 0 <= i < j < |ranked| ==> ranked[i] != ranked[j]
    requires forall x :: x in ranked <==> x in ks
    ensures ByCountDescending(ks, r)
    ensures forall i, j :: 0 <= i < j < |r| ==> r[i] != r[j]
    ensures forall i :: 0 <= i < |r| ==> r[i] in ks
  {
    forall i | 0 <= i < |r| ensures r[i] in ks {
      assert r[i] == ranked[i];
    }
  }

  /** What a prefix of the ranking leaves out occurs no more often than what it keeps. */
  lemma LeftOutOfPrefix(ks: seq<string>, ranked: seq<string>, n: int, r: seq<string>)
    requires ByCountDescending(ks, ranked) && (forall x :: x in ranked <==> x in ks)
    requires r == ranked[..if n <= 0 then 0 else if n >= |ranked| then |ranked| else n]
    ensures forall w :: w in ks && w !in r ==>
      |r| >= n && forall i :: 0 <= i < |r| ==> Count(ks, r[i]) >= Count(ks, w)
  {
    var m := |r|;
    forall w | w in ks && w !in r
      ensures m >= n && forall i :: 0 <= i < m ==> Count(ks, r[i]) >= Count(ks, w)
    {
      var k :| 0 <= k < |ranked| && ranked[k] == w;
      PrefixMiss(ranked, m, k);
      forall i | 0 <= i < m ensures Count(ks, r[i]) >= Count(ks, w) {
        assert r[i] == ranked[i];
      }
    }
  }

  lemma PrefixMiss(s: seq<string>, m: nat, k: nat)
    requires m <= |s| && k < |s| && s[k] !in s[..m]
    ensures m <= k
  {
  }

  /** Two sequences with the same multiset have the same members. */
  lemma SameMembers(a: seq<string>, b: seq<string>)
    requires multiset(a) == multiset(b)
    ensures forall x :: x in a <==> x in b
  {
    forall x ensures x in a <==> x in b {
      assert x in a <==> x in multiset(a);
      assert x in b <==> x in multiset(b);
    }
  }

  /** A permutation of a sequence without repetitions has no repetitions either. */
  lemma DistinctPermutation(d: seq<string>, r: seq<string>)
    requires forall i, j :: 0 <= i < j < |d| ==> d[i] != d[j]
    requires multiset(r) == multiset(d)
    ensures forall i, j :: 0 <= i < j < |r| ==> r[i] != r[j]
  {
    forall x ensures multiset(d)[x] <= 1 {
      MultiplicityOfDistinct(d, x);
    }
    forall i, j | 0 <= i < j < |r| ensures r[i] != r[j] {
      var x := r[i];
      assert r == r[..i] + [r[i]] + r[i + 1..j] + [r[j]] + r[j + 1..];
      assert multiset(r) == multiset(r[..i]) + multiset{r[i]} + multiset(r[i + 1..j])
        + multiset{r[j]} + multiset(r[j + 1..]);
      assert multiset(r)[x] >= 1 + multiset{r[j]}[x];
    }
  }

  lemma {:induction false} MultiplicityOfDistinct(d: seq<string>, x: string)
    requires forall i, j :: 0 <= i < j < |d| ==> d[i] != d[j]
    ensures multiset(d)[x] <= 1
    decreases |d|
  {
    if d != [] {
      assert d == [d[0]] + d[1..];
      MultiplicityOfDistinct(d[1..], x);
      if d[0] == x {
        assert x !in d[1..];
      }
    }
  }

  /** `extract_keywords`: the `max_keywords` most frequent keywords of the tokenised text. */
  function ExtractKeywords(p: Preprocessor, text: string, maxKeywords: int): seq<string> {
    var tokens := Preprocess(p, text, true, false).tokens;
    MostCommon(Filter(tokens, IsKeyword), maxKeywords)
  }

  /**
   * At most `max_keywords` distinct words, each one of the text's tokens that are alphanumeric
   * and longer than three characters, ordered by non-increasing frequency; such a token is left
   * out only when all `max_keywords` places are taken, and then by keywords at least as frequent.
   */
  lemma ExtractKeywordsSpec(p: Preprocessor, text: string, maxKeywords: int)
    ensures var r := ExtractKeywords(p, text, maxKeywords);
      var ks := Filter(Preprocess(p, text, true, false).tokens, IsKeyword);
      && |r| <= (if maxKeywords <= 0 then 0 else maxKeywords)
      && (forall i, j :: 0 <= i < j < |r| ==> r[i] != r[j])
      && (forall i :: 0 <= i < |r| ==> r[i] in ks && IsKeyword(r[i]) && KeepToken(r[i]))
      && ByCountDescending(ks, r)
      && (forall w :: w in ks && w !in r ==>
            |r| >= maxKeywords && forall i :: 0 <= i < |r| ==> Count(ks, r[i]) >= Count(ks, w))
  {
    var tokens := Preprocess(p, text, true, false).tokens;
    var ks := Filter(tokens, IsKeyword);
    MostCommonSpec(ks, maxKeywords);
    var r := ExtractKeywords(p, text, maxKeywords);
    forall i | 0 <= i < |r| ensures r[i] in ks && IsKeyword(r[i]) && KeepToken(r[i]) {
      assert r[i] in multiset(ks);
      assert r[i] in multiset(tokens);
    }
  }

  // ---------------------------------------------------------------------------
  // detect_urgency_keywords
  // ---------------------------------------------------------------------------

  /** The keyword groups of `detect_urgency_keywords`, in the dictionary's order. */
  const UrgencyGroups: seq<(string, seq<string>)> := [
    ("critical", ["urgent", "critical", "emergency", "asap", "immediately", "now", "crisis"]),
    ("high", ["important", "soon", "quickly", "priority", "needed", "required"]),
    ("negative", ["broken", "error", "bug", "issue", "problem", "failed", "not working", "down"]),
    ("positive", ["thank", "great", "excellent", "awesome", "love", "amazing"]),
    ("question", ["how", "what", "when", "where", "why", "who", "can", "could", "would"]),
    ("complaint", ["complaint", "unhappy", "disappointed", "frustrated", "angry", "terrible", "worst"]),
    ("compliment", ["compliment", "praise", "appreciate", "happy", "satisfied", "pleased"])
  ]

  /** `[kw for kw in keys if kw in text]`. */
  function Matching(keys: seq<string>, text: string): (r: seq<string>)
    ensures forall k :: k in r <==> k in keys && Contains(text, k)
  {
    var r := Filter(keys, k => Contains(text, k));
    assert forall k :: k in r <==> k in keys && Contains(text, k) by {
      forall k ensures k in r <==> k in keys && Contains(text, k) {
        assert k in r <==> k in multiset(r);
        assert k in keys <==> k in multiset(keys);
      }
    }
    r
  }

  /** Every group paired with the keywords of it that occur in `text`. */
  function GroupMatches(groups: seq<(string, seq<string>)>, text: string): (r: seq<(string, seq<string>)>)
    ensures |r| == |groups|
    ensures forall i :: 0 <= i < |groups| ==> r[i] == (groups[i].0, Matching(groups[i].1, text))
  {
    seq(|groups|, i requires 0 <= i < |groups| => (groups[i].0, Matching(groups[i].1, text)))
  }

  predicate HasMatches(e: (string, seq<string>)) { e.1 != [] }

  /** The groups with at least one match, each with its matches, in table order. */
  function Detected(groups: seq<(string, seq<string>)>, text: string): seq<(string, seq<string>)> {
    Filter(GroupMatches(groups, text), HasMatches)
  }

  /** `detect_urgency_keywords` as a value: the detected groups of the lowercased text. */
  function DetectUrgency(text: string): seq<(string, seq<string>)> {
    Detected(UrgencyGroups, Lower(text))
  }

  /**
   * The detected map has an entry only for a group with at least one match, that entry holds
   * exactly the group's keywords occurring in the text, and every group with a match has one.
   */
  lemma DetectedSpec(groups: seq<(string, seq<string>)>, text: string)
    ensures var r := Detected(groups, text);
      && (forall e :: e in r ==>
            e.1 != [] && exists i :: 0 <= i < |groups| && e == (groups[i].0, Matching(groups[i].1, text)))
      && (forall i :: 0 <= i < |groups| && Matching(groups[i].1, text) != [] ==>
            (groups[i].0, Matching(groups[i].1, text)) in r)
  {
    var all := GroupMatches(groups, text);
    var r := Detected(groups, text);
    forall e | e in r
      ensures e.1 != [] && exists i :: 0 <= i < |groups| && e == (groups[i].0, Matching(groups[i].1, text))
    {
      assert e in multiset(r);
      assert e in multiset(all);
      var i :| 0 <= i < |all| && all[i] == e;
    }
    forall i | 0 <= i < |groups| && Matching(groups[i].1, text) != []
      ensures (groups[i].0, Matching(groups[i].1, text)) in r
    {
      assert all[i] in multiset(all);
      assert all[i] in multiset(r);
    }
  }

  /** Every detected entry is non-empty and holds only keywords occurring in the lowercased text. */
  lemma DetectUrgencySpec(text: string)
    ensures forall e :: e in DetectUrgency(text) ==>
      e.1 != [] && forall k :: k in e.1 ==> Contains(Lower(text), k)
  {
    DetectedSpec(UrgencyGroups, Lower(text));
  }

  /** Detecting over one more group appends that group's entry, if it has matches. */
  lemma DetectedStep(groups: seq<(string, seq<string>)>, i: nat, text: string)
    requires i < |groups|
    ensures var m := Matching(groups[i].1, text);
      Detected(groups[..i + 1], text)
        == Detected(groups[..i], text) + (if m != [] then [(groups[i].0, m)] else [])
  {
    var e := (groups[i].0, Matching(groups[i].1, text));
    var before, after := GroupMatches(groups[..i], text), GroupMatches(groups[..i + 1], text);
    assert |after| == |before + [e]|;
    forall j | 0 <= j < |after| ensures after[j] == (before + [e])[j] {
      assert groups[..i + 1][j] == groups[j];
    }
    assert after == before + [e];
    FilterConcat(before, [e], HasMatches);
    assert [e][1..] == [];
    assert Filter([e], HasMatches) == if HasMatches(e) then [e] else [];
    assert Detected(groups[..i + 1], text) == Filter(before, HasMatches) + Filter([e], HasMatches);
  }

  /** `detect_urgency_keywords`: fills the detected map group by group. */
  method DetectUrgencyKeywords(text: string) returns (detected: seq<(string, seq<string>)>)
    ensures detected == DetectUrgency(text)
  {
    var textLower := Lower(text);
    detected := [];
    for i := 0 to |UrgencyGroups|
      invariant detected == Detected(UrgencyGroups[..i], textLower)
    {
      var (category, keywords) := UrgencyGroups[i];
      var matches := Matching(keywords, textLower);
      DetectedStep(UrgencyGroups, i, textLower);
      if matches != [] {
        detected := detected + [(category, matches)];
      }
    }
    assert UrgencyGroups[..|UrgencyGroups|] == UrgencyGroups;
  }
}
