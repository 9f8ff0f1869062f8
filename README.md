# Query classification pipeline, modelled in Dafny

This project models the deterministic core of the ML service that tags incoming customer queries:

- the text preprocessor: `clean_text`, the stopword filter, the token filter of `preprocess`,
  `extract_keywords` and `detect_urgency_keywords`;
- the priority scorer: VIP lookup, keyword-group urgency, fixed weights for sentiment, category,
  channel and message length, the capped sum, and the CRITICAL / HIGH / MEDIUM / LOW thresholds;
- the keyword category classifier, the dispatch between it and a zero-shot model, and the
  category-to-intent table;
- the auto-tagger that composes these for one query and builds its ordered tag list.

Scores are exact rationals (`real`). Text is `seq<char>`. "Keyword in text" is Python's
substring test, not word matching: `now` occurs in "know" and `down` in "download".
Every dictionary literal whose iteration order matters is an ordered sequence of pairs. That
order decides ties between categories and the order of the urgency tags.

Modules, one file each:

- `Strings` (`strings.dfy`): the Python string primitives the code relies on. These are
  `str.isspace`, ASCII `lower`, `split()`, `strip()`, `" ".join`, substring `in` and an
  order-keeping filter, with the round trip `Split(Join(ws)) == ws`.
- `Preprocessing` (`preprocessing.dfy`): `TextPreprocessor`.
- `Priority` (`priority.dfy`): `PriorityScorer`.
- `Category` (`category.dfy`): `CategoryClassifier`.
- `Tagging` (`tagging.dfy`): `AutoTagger`.

Each loop in the source is a method proved equal to a specification function:
`ScoreUrgencyKeywords`, `ClassifyKeywordBased`, `DetectUrgencyKeywords` and `GenerateTags`.
`CalculatePriorityScore` has no loop: it builds the `scores` list by appends, sums it and caps
the sum, and is proved equal to `PriorityScore`. The lemmas prove the promised properties about
those functions. A sentiment label is any string, as the analyser returns it; only
`"NEGATIVE"` adds to the score. The configuration objects are only written in their constructors, so they are
immutable datatypes. The library calls they make are function-valued fields: the NFKD and regex
scrub, the tokeniser, the stemmer, the zero-shot pipeline and the sentiment analyser.

## Model

| member | source | states |
|---|---|---|
| Strings.Lower | ml-service/preprocessing/text_preprocessor.py:84-85 | lowercasing keeps the length, maps each uppercase ASCII letter to its lowercase letter and leaves every other character as it is, so the result has no uppercase letter, keeps every whitespace position, and is the text itself when it has no uppercase letter |
| Strings.LowerIdempotent | ml-service/preprocessing/text_preprocessor.py:84-85 | lowercasing an already lowercased text changes nothing |
| Strings.CountMatches | ml-service/classification/priority_scorer.py:70 | the number of keywords occurring as substrings is at most the number of keywords, and zero exactly when none occurs |
| Strings.CountMatchesIsFilter | ml-service/classification/category_classifier.py:130 | the count is exactly the number of keywords, with repeats, that occur in the text: the length of the keyword list filtered by `k in text` |
| Strings.Split | ml-service/classification/priority_scorer.py:120 | `str.split()` yields non-empty words without whitespace |
| Strings.SplitJoin | ml-service/preprocessing/text_preprocessor.py:80-81 | splitting words joined by single spaces gives the words back |
| Strings.JoinShape | ml-service/preprocessing/text_preprocessor.py:80-81 | words joined by single spaces have no outer whitespace, no whitespace run, and only plain spaces |
| Strings.LowerJoin | ml-service/preprocessing/text_preprocessor.py:84-85 | lowercasing a joined text is joining the lowercased words |
| Strings.StripEmpty | ml-service/classification/category_classifier.py:82 | `strip()` gives the empty string exactly when the text is all whitespace |
| Strings.Filter | ml-service/preprocessing/text_preprocessor.py:102 | a comprehension filter keeps every occurrence of a kept element and drops every other |
| Strings.FilterConcat | ml-service/preprocessing/text_preprocessor.py:102 | filtering keeps relative order: it distributes over concatenation |
| Preprocessing.CleanText | ml-service/preprocessing/text_preprocessor.py:53-87 | empty input gives ""; otherwise the scrubbed words joined by single spaces, with no leading, trailing or repeated whitespace, splitting back into those words, and no uppercase letter when lowercasing is on |
| Preprocessing.CleanWords | ml-service/preprocessing/text_preprocessor.py:80-85 | the cleaned words are a list of non-empty words without whitespace |
| Preprocessing.CollapseSpaces | ml-service/preprocessing/text_preprocessor.py:80 | `re.sub(r'\s+', ' ', ...)`; `CollapseThenStrip` states that collapsing then stripping joins the `split()` words |
| Preprocessing.CollapseThenStrip | ml-service/preprocessing/text_preprocessor.py:80-81 | collapsing whitespace runs to one space and then stripping equals joining the `split()` words |
| Preprocessing.RemoveStopwords | ml-service/preprocessing/text_preprocessor.py:98-102 | the identity when the flag is off; otherwise each token outside the stop set keeps all its occurrences and each stop token is dropped |
| Preprocessing.RemoveStopwordsKeepsOrder | ml-service/preprocessing/text_preprocessor.py:98-102 | the filter keeps relative order (it distributes over concatenation) |
| Preprocessing.Preprocess | ml-service/preprocessing/text_preprocessor.py:108-135 | without tokenizing, the cleaned text; with tokenizing, tokens that are longer than one character and not part of `string.punctuation` |
| Preprocessing.PreprocessTokens | ml-service/preprocessing/text_preprocessor.py:123-133 | a token survives, with all its occurrences, exactly when the tokeniser produced it, it is not a removed stopword and it passes the token test |
| Preprocessing.Distinct | ml-service/preprocessing/text_preprocessor.py:145-146 | the counter's keys: the same members as the keyword list, without repetition |
| Preprocessing.InsertByCount | ml-service/preprocessing/text_preprocessor.py:147 | inserting into a count-ordered list adds exactly that element and keeps the order |
| Preprocessing.RankByCount | ml-service/preprocessing/text_preprocessor.py:147 | the ranking is a permutation of the keys, ordered by non-increasing count |
| Preprocessing.MostCommon | ml-service/preprocessing/text_preprocessor.py:144-147 | `Counter(keywords).most_common(n)`; `MostCommonSpec` states its properties |
| Preprocessing.ExtractKeywords | ml-service/preprocessing/text_preprocessor.py:137-147 | `extract_keywords`; `ExtractKeywordsSpec` states its properties |
| Preprocessing.MostCommonSpec | ml-service/preprocessing/text_preprocessor.py:144-147 | `most_common(n)` gives at most n distinct listed words by non-increasing count; a word is left out only when all n places are taken by words at least as frequent |
| Preprocessing.ExtractKeywordsSpec | ml-service/preprocessing/text_preprocessor.py:137-147 | at most `max_keywords` distinct keywords of the token list, each alphanumeric, longer than three characters and passing the token filter, by non-increasing frequency; a keyword is left out only when all `max_keywords` places are taken by keywords at least as frequent |
| Preprocessing.Matching | ml-service/preprocessing/text_preprocessor.py:165 | a keyword is matched exactly when it is in the group and occurs in the text |
| Preprocessing.Detected | ml-service/preprocessing/text_preprocessor.py:160-169 | the detected map for a group table; `DetectedSpec` states its entries |
| Preprocessing.DetectUrgency | ml-service/preprocessing/text_preprocessor.py:149-169 | `detect_urgency_keywords` on the fixed seven-group table; `DetectUrgencySpec` states its entries |
| Preprocessing.DetectedSpec | ml-service/preprocessing/text_preprocessor.py:160-169 | an entry only for a group with a match, holding exactly that group's matched keywords; every group with a match has one |
| Preprocessing.DetectUrgencySpec | ml-service/preprocessing/text_preprocessor.py:160-169 | every detected entry is non-empty and lists only keywords occurring in the lowercased text |
| Preprocessing.DetectedStep | ml-service/preprocessing/text_preprocessor.py:163-167 | one loop round appends the group's entry exactly when it has matches |
| Preprocessing.DetectUrgencyKeywords | ml-service/preprocessing/text_preprocessor.py:149-169 | the loop builds exactly the detected map of the lowercased text (whose entries `DetectUrgencySpec` characterises) |
| Priority.NewPriorityScorer | ml-service/classification/priority_scorer.py:23-32 | the VIP sets hold exactly the listed addresses and ids, as given (no lowercasing), empty when no list is given |
| Priority.Elements | ml-service/classification/priority_scorer.py:31-32 | `set(xs or [])` holds exactly the listed elements |
| Priority.CheckVip | ml-service/classification/priority_scorer.py:53-59 | `check_vip_status`; `VipLookup` states when it holds |
| Priority.VipLookup | ml-service/classification/priority_scorer.py:53-59 | a non-empty address whose lowercase form is listed makes the sender a VIP, and without an id that is the only way; a non-empty listed id makes the sender a VIP whatever e-mail comes with it; a VIP has a listed lowercased e-mail or a listed id; the lookup ignores the case of the sender's address but a stored address with a capital never matches; the id must match exactly; no sender means no VIP |
| Priority.GroupScoreBounds | ml-service/classification/priority_scorer.py:66-74 | a group adds between 0 and its weight, and nothing exactly when none of its keywords occurs |
| Priority.UrgencyTotalBounds | ml-service/classification/priority_scorer.py:64-74 | the accumulated total lies between 0 and the sum of the weights |
| Priority.UrgencyTotalOfTable | ml-service/classification/priority_scorer.py:35-48 | the three groups' weights add up to exactly 1 |
| Priority.UrgencyScoreBounds | ml-service/classification/priority_scorer.py:61-76 | the urgency score lies in [0, 1] and the final cap never changes it |
| Priority.UrgencyScoreZero | ml-service/classification/priority_scorer.py:61-76 | the urgency score is 0 exactly when no keyword of any group occurs in the lowercased text |
| Priority.UrgencyScore | ml-service/classification/priority_scorer.py:61-76 | `score_urgency_keywords`; `UrgencyScoreBounds`, `UrgencyScoreZero` and `ScoreUrgencyKeywords` state its properties |
| Priority.ScoreUrgencyKeywords | ml-service/classification/priority_scorer.py:61-76 | the loop computes the urgency score, which lies in [0, 1] |
| Priority.ScoreSentiment | ml-service/classification/priority_scorer.py:78-85 | for any label string: 0.2 times the confidence for exactly "NEGATIVE", 0 for every other label; at most 0.2 for a confidence in [0, 1] |
| Priority.Lookup | ml-service/classification/priority_scorer.py:100 | `dict.get`: the default for a missing key, otherwise the key's value in the table |
| Priority.ScoreCategory | ml-service/classification/priority_scorer.py:87-100 | an unknown category scores 0.1; every score lies in [0, 0.3] |
| Priority.ScoreChannel | ml-service/classification/priority_scorer.py:102-116 | a missing, empty or unknown channel type scores 0.1; every score lies in [0.1, 0.2] |
| Priority.ScoreLength | ml-service/classification/priority_scorer.py:118-128 | 0.05 exactly when the `split()` word count is below 5 or above 200, 0 otherwise |
| Priority.EffectiveVip | ml-service/classification/priority_scorer.py:157-159 | the VIP flag the score uses; `VipOverride` states it |
| Priority.PriorityScore | ml-service/classification/priority_scorer.py:130-188 | `calculate_priority_score`; `CalculatePriorityScore`, `PriorityScoreBounds`, `VipAddsBoost` and `VipNeverLow` state its properties |
| Priority.CalculatePriorityScore | ml-service/classification/priority_scorer.py:130-188 | the list-and-sum computation equals the capped sum of the six contributions, at most 1, and at least 0.1 when the sentiment confidence is non-negative |
| Priority.RawPriorityScoreParts | ml-service/classification/priority_scorer.py:155-186 | the summed list is 0.3 for a VIP plus the urgency, sentiment, category, channel and length scores |
| Priority.RawScoreFloor | ml-service/classification/priority_scorer.py:155-186 | with a non-negative sentiment confidence the summed list is at least 0.1, the least channel weight, plus 0.3 for a VIP |
| Priority.PriorityScoreBounds | ml-service/classification/priority_scorer.py:155-188 | the score lies in [0.1, 1] when the sentiment confidence is non-negative |
| Priority.VipOverride | ml-service/classification/priority_scorer.py:157-159 | an explicit VIP flag makes the VIP lists and sender fields irrelevant; without one, the lookup's result is used |
| Priority.VipAddsBoost | ml-service/classification/priority_scorer.py:161-162 | VIP status adds exactly 0.3 before the cap and never lowers the score |
| Priority.VipNeverLow | ml-service/classification/priority_scorer.py:155-188 | a VIP query with non-negative sentiment confidence is never LOW |
| Priority.UrgencyNeedsASignal | ml-service/classification/priority_scorer.py:155-188 | with no VIP status, no urgency keyword and no negative sentiment the score is at most 0.55, so the query is never urgent |
| Priority.DeterminePriority | ml-service/classification/priority_scorer.py:190-207 | the highest level whose threshold (0.85, 0.65, 0.35, 0) the score reaches |
| Priority.DeterminePriorityMonotone | ml-service/classification/priority_scorer.py:190-207 | a higher score never gives a lower level |
| Priority.ClassifyPriority | ml-service/classification/priority_scorer.py:209-250 | the level of the score; urgent exactly when the score reaches 0.65, which is exactly when the level is HIGH or CRITICAL |
| Category.MatchRatio | ml-service/classification/category_classifier.py:130-131 | a category's score is the matched fraction, in [0, 1], and 0 exactly when no keyword occurs |
| Category.Best | ml-service/classification/category_classifier.py:125-136 | the running maximum of the loop; `BestSpec` states its properties |
| Category.KeywordClassify | ml-service/classification/category_classifier.py:100-141 | `classify_keyword_based`; `KeywordClassifySpec` states its properties |
| Category.BestSpec | ml-service/classification/category_classifier.py:125-136 | the running maximum is the largest score; a positive maximum belongs to the first category reaching it (strict `>`); a zero maximum leaves "question" |
| Category.KeywordClassifySpec | ml-service/classification/category_classifier.py:100-141 | one score per category in table order, each the matched fraction; confidence is `min(2 * best score, 1)`, in [0, 1]; it is 0 exactly when no keyword occurs, and then the category is "question"; otherwise the category is the first with the highest score |
| Category.ClassifyKeywordBased | ml-service/classification/category_classifier.py:100-141 | the loop computes the keyword classification, with confidence in [0, 1] |
| Category.KeywordCategoryIsDefault | ml-service/classification/category_classifier.py:113-136 | the keyword classifier only returns default categories |
| Category.NewClassifier | ml-service/classification/category_classifier.py:37-70 | the given categories, or the defaults when none or an empty list is given; zero-shot stays on exactly when asked for and loaded |
| Category.Truncate | ml-service/classification/category_classifier.py:87 | `text[:512]` is a prefix of at most 512 characters: exactly 512 when the text is longer, the whole text otherwise |
| Category.Zip | ml-service/classification/category_classifier.py:93 | `zip` pairs labels and scores position by position up to the shorter length |
| Category.ClassifyZeroShot | ml-service/classification/category_classifier.py:72-98 | blank text gives ("question", 0, {}) without the model; the model's top label and score when it yields them; the keyword classification when it raises or yields none |
| Category.ZeroShotSeesPrefix | ml-service/classification/category_classifier.py:87-89 | only the first 512 characters reach the model |
| Category.Classify | ml-service/classification/category_classifier.py:143-156 | the keyword path whenever zero-shot is off or no model is loaded, the zero-shot path otherwise |
| Category.ClassifyBlank | ml-service/classification/category_classifier.py:82-83 | on either path, blank text is a "question" with confidence 0 and intent "information_seeking" |
| Category.BlankHasNoKeyword | ml-service/classification/category_classifier.py:129-130 | no category keyword occurs in whitespace-only text |
| Category.IntentOf | ml-service/classification/category_classifier.py:170-183 | `intent_mapping.get(category, 'general')`; `IntentMappingSpec` and `IntentOfDefault` state its properties |
| Category.GetIntent | ml-service/classification/category_classifier.py:158-183 | `get_intent`: the intent of the category `classify` gives; `ClassifyBlank` states it for blank text and `AnalyzeSpec` for the pipeline |
| Category.IntentMappingSpec | ml-service/classification/category_classifier.py:170-183 | the nine categories map to nine different intents other than "general"; anything else maps to "general" |
| Category.IntentOfDefault | ml-service/classification/category_classifier.py:171-181 | each category is recovered from its intent |
| Tagging.UrgencyTagsSpec | ml-service/classification/auto_tagger.py:175-178 | the tags are `urgency_<group>` for exactly the groups with matches, one each, in the order of the urgency map; none for other groups |
| Tagging.UrgencyTags | ml-service/classification/auto_tagger.py:175-178 | the urgency tags; `UrgencyTagsSpec` states them |
| Tagging.Tags | ml-service/classification/auto_tagger.py:152-188 | `_generate_tags`; `TagsSpec` and `TagFlags` state its properties |
| Tagging.TagsSpec | ml-service/classification/auto_tagger.py:161-188 | category, sentiment, priority and intent tags first, then the urgency tags; the count is 4 + groups with matches + vip + urgent; "urgent" is last when present |
| Tagging.TagFlags | ml-service/classification/auto_tagger.py:180-186 | after the first four tags, "vip" appears exactly for a VIP sender and "urgent" exactly for an urgent query |
| Tagging.GenerateTags | ml-service/classification/auto_tagger.py:152-188 | the appends build exactly the specified tag list |
| Tagging.FullText | ml-service/classification/auto_tagger.py:84-86 | `subject + " " + text` when a non-empty subject is given, the text alone otherwise |
| Tagging.AnalyzeBlank | ml-service/classification/auto_tagger.py:65-81 | empty or whitespace-only text gives the fixed default |
| Tagging.Analyze | ml-service/classification/auto_tagger.py:46-150 | `analyze`: the fixed default for blank text, whose properties `AnalyzeBlank` states; otherwise `AnalyzeCleaned` of the cleaned full text, whose properties `AnalyzeSpec` states |
| Tagging.AnalyzeCleaned | ml-service/classification/auto_tagger.py:88-150 | the analysis of the cleaned text; `AnalyzeSpec` states its properties |
| Tagging.AnalyzeSpec | ml-service/classification/auto_tagger.py:88-150 | the level matches the score; urgent exactly when HIGH or CRITICAL; intent is the category's intent; the reported VIP flag is the one the score used; the tags follow the reported fields; urgency entries are non-empty and hold occurring keywords; at most ten keywords |
| Tagging.VipQueryNotLow | ml-service/classification/auto_tagger.py:107-118 | a VIP sender is reported as VIP and, with non-negative sentiment confidence, never gets LOW |

## Left out

- NFKD normalisation and the URL, e-mail, mention and hashtag regexes of `clean_text`
  (text_preprocessor.py:58-77) are one uninterpreted function, `scrub`, because they come from
  libraries. The flags that select them are folded into it.
- Word tokenisation (with its `split()` fallback), the NLTK stopword corpus and the Porter stemmer
  are given functions or a given set, because they come from NLTK.
- The `isinstance(text, str)` guard of `clean_text` is not modelled: inputs are typed as strings.
- Lowercasing and `isalnum` are ASCII only. Python's Unicode case mappings and Unicode
  letters and digits are not modelled.
- The zero-shot model is an uninterpreted, deterministic function from text and labels to an
  outcome. Model loading is the `loaded` argument of `NewClassifier`. Any failure of the call
  (an exception, missing keys) is the `Raised` outcome.
- Category.ClassifyZeroShot: `dict(zip(labels, scores))` is kept as the list of pairs, so
  duplicate labels are not merged.
- The sentiment analyser (sentiment_analyzer.py) is a function from the cleaned text to its
  label, confidence and three scores, because it wraps VADER and a transformer.
- `analyze` classifies the cleaned text twice, once directly and once inside `get_intent`. The
  model's pipeline is deterministic, so both calls agree. A non-deterministic model is not
  modelled.
- `AutoTagger.__init__` and `TextPreprocessor.__init__` only construct components and store
  flags; the model takes those components and flags as given.
- Floating-point rounding is not modelled. Scores are exact rationals, so a float sum that lands
  just beside a threshold may classify differently.
- api.py (HTTP routes, environment parsing, the batch loop), logging and the package
  re-exports are left out.
- Preprocessing.MostCommonSpec: does not state that equal counts keep first-occurrence order;
  `RankByCount` builds them in that order, but no lemma states it.
- Preprocessing.ExtractKeywordsSpec: the same tie-order gap, since `extract_keywords` is
  `most_common` over the filtered tokens: which of several equally frequent keywords fill the
  last places is not stated.
