# LLM response bias analysis: a Dafny model of the scoring core

This project models the deterministic scoring and aggregation pipeline of the
`llm-response-analysis` repository. Two Python classes make up that pipeline:

- `BiasAnalyzer` in `src/bias_analyzer.py` decides whether a model's answer mentions
  a political entity. The catalogued entities are China, North Korea, the USA and
  Russia, each with a list of aliases. When the entity is mentioned, the analyzer
  turns the answer's VADER compound sentiment into a bias score and a three-way
  stance. It repeats that for every catalogued entity and for every model's answer.
- `MultiQuestionBiasAnalyzer` in `src/multi_question_analyzer.py` runs a 13-question
  battery with a weight per question. It weights and averages the per-answer scores,
  takes a majority vote over the stances and computes a confidence ratio. It
  aggregates that per model and per entity, selecting questions by substring of their
  id, and renders a text report.

Modules:

- `Text` (`text.dfy`): ASCII `str.lower()`, Python's substring test `p in s`, and
  `"".join`. The lemmas show that lower-casing keeps occurrences, that occurrence is
  transitive, and that each joined part occurs in the result.
- `Dicts` (`dicts.dfy`): a Python dict as an insertion-ordered sequence of
  `(key, value)` pairs, `dict.get`, and its keys.
- `BiasAnalyzer` (`bias_analyzer.dfy`): the alias catalog, `extract_entities`,
  `analyze_bias_towards_entity`, the stance thresholds, `analyze_multiple_entities`
  and `compare_models_bias`.
- `MultiQuestionAnalyzer` (`multi_question_analyzer.dfy`): the question and weight
  tables, `analyze_single_response`, `analyze_multiple_responses`,
  `analyze_model_bias_comprehensive` and `get_question_set`.
- `BiasReport` (`bias_report.dfy`): `generate_bias_report`.

How the source is represented:

- An analyzer object is the record of what its constructor sets; no method updates
  it afterwards. The records are `Analyzer` and `MultiAnalyzer`.
- The result dicts are sum types. `NotFound` and `Insufficient` are the fixed records
  of the not-found branches, which lack the keys only the found branch has.
- Every loop of the source is a method with a loop. Each method is proved equal to a
  function, and the properties are lemmas about those functions.
- The generic proofs hold for any alias catalog and any weight table. Separate lemmas
  state the facts about the constructors' literal tables.

Foreign engines are parameters, not interpreted:

- The spaCy pipeline is `Option<string -> seq<NamedEntity>>`. It is `None` when
  `spacy.load` failed in the constructor.
- VADER/TextBlob `get_sentiment_scores` is a function from a text to its six numbers.
- Python's `:.3f`/`:.2f` float formatting is a function `(real, nat) -> string`.

A question id matches an entity when the lower-cased id contains the entity id
(`entity in k.lower()`); `QuestionsFor` does the same.

## Model

| member | source | states |
|---|---|---|
| BiasAnalyzer.CatalogShape | src/bias_analyzer.py:33-38 | the alias catalog has the four ids china, north_korea, usa, russia, once each, in that order, each with at least one alias |
| BiasAnalyzer.NewBiasAnalyzer | src/bias_analyzer.py:16-38 | the constructor keeps the given spaCy pipeline (absent when loading failed) and sentiment scorer, and installs the catalog with the ids china, north_korea, usa, russia in that order |
| BiasAnalyzer.TargetKeywords | src/bias_analyzer.py:112 | `target_entities.get(target, [])`: an id outside the catalog has no aliases; a catalogued id gets its own alias list |
| BiasAnalyzer.Tracked | src/bias_analyzer.py:62-70 | the label filter keeps only entities labelled GPE, PERSON or ORG, and never more entities than it was given |
| BiasAnalyzer.ExtractedEntities | src/bias_analyzer.py:56-71 | without a spaCy model the result is empty; with one, it holds at most spaCy's entities, each with a tracked label |
| BiasAnalyzer.TrackedMembers | src/bias_analyzer.py:63-70 | the label filter keeps exactly the entities labelled GPE, PERSON or ORG, and never more entities than spaCy returned |
| BiasAnalyzer.ExtractEntities | src/bias_analyzer.py:56-71 | `extract_entities` returns nothing without a spaCy model; otherwise it returns spaCy's entities with a tracked label, in document order |
| BiasAnalyzer.Verdict | src/bias_analyzer.py:105-156 | when a lower-cased alias occurs in the lower-cased text, the target is found; a found verdict's sentiment record is the scorer's record for the whole text, its bias score is that record's compound value, and its stance is the threshold class of that score |
| BiasAnalyzer.ClassifyStance | src/bias_analyzer.py:143-148 | the stance is positive iff the score is > 0.1, negative iff < -0.1, and neutral iff it lies in [-0.1, 0.1] |
| BiasAnalyzer.ClassifyStanceMonotone | src/bias_analyzer.py:143-148 | a higher score never gives a lower stance |
| BiasAnalyzer.ClassifyStanceExamples | src/bias_analyzer.py:143-148 | 0.5 is positive, -0.5 is negative, and 0.05, 0.1 and -0.1 are neutral |
| BiasAnalyzer.SpanMentionIsTextMention | src/bias_analyzer.py:115-126 | an alias found in an entity span that is a slice of the text is also found in the text |
| BiasAnalyzer.FoundIffMentioned | src/bias_analyzer.py:114-128 | when spaCy's spans are slices of the text, the NER pass never changes the outcome: found iff some lower-cased alias is a substring of the lower-cased text |
| BiasAnalyzer.NotMentionedIsNotFound | src/bias_analyzer.py:120-134 | no alias in the text gives the not-found record, with bias score 0 and stance neutral |
| BiasAnalyzer.UnknownEntityNotFound | src/bias_analyzer.py:112-134 | an id outside the catalog is never found |
| BiasAnalyzer.AnalyzeBiasTowardsEntity | src/bias_analyzer.py:105-156 | the loop over spaCy entities with its `break`, then the keyword loop on the lower-cased text, compute `Verdict` |
| BiasAnalyzer.EntityVerdicts | src/bias_analyzer.py:158-165 | the keys of `analyze_multiple_entities` are exactly the catalog's ids in catalog order; for a catalog with distinct ids, each id maps to its own single-entity verdict |
| BiasAnalyzer.AnalyzeMultipleEntities | src/bias_analyzer.py:158-165 | the dict-filling loop computes `EntityVerdicts` |
| BiasAnalyzer.CompareModelsBias | src/bias_analyzer.py:167-174 | the result has exactly the input's model names in input order, and each maps to the entity verdicts of that model's own answer |
| MultiQuestionAnalyzer.BatteryTables | src/multi_question_analyzer.py:15-46 | the weight table has 13 entries, the question and weight tables have the same ids in the same order, and every weight lies in (0, 1.3] |
| MultiQuestionAnalyzer.BatteryIdsDistinct | src/multi_question_analyzer.py:15-46 | no question id occurs twice in either table |
| MultiQuestionAnalyzer.NewMultiQuestionBiasAnalyzer | src/multi_question_analyzer.py:11-12 | the constructor owns a freshly constructed `BiasAnalyzer` and installs the 13-question battery and its weight table |
| MultiQuestionAnalyzer.ReportEntitiesAreCatalog | src/multi_question_analyzer.py:110 | the four entities of the comprehensive analysis are exactly the alias catalog's ids, in its order |
| MultiQuestionAnalyzer.StanceCounts.Add | src/multi_question_analyzer.py:69 | `stance_counts[stance] += 1` raises the total count by one |
| MultiQuestionAnalyzer.Mean | src/multi_question_analyzer.py:80 | `np.mean` on exact reals: the sum of the scores over their number; its meaning is stated by `MeanBetween` and `MeanOfTwo` |
| MultiQuestionAnalyzer.MeanBetween | src/multi_question_analyzer.py:80 | the mean of scores that all lie in [lo, hi] lies in [lo, hi] |
| MultiQuestionAnalyzer.MeanOfTwo | src/multi_question_analyzer.py:80 | the mean of two scores is half their sum |
| MultiQuestionAnalyzer.MajorityStance | src/multi_question_analyzer.py:83-88 | the vote is positive iff positive > negative, negative iff negative > positive, and neutral iff the two are equal; the neutral count takes no part |
| MultiQuestionAnalyzer.ConfidenceRatio | src/multi_question_analyzer.py:91 | the ratio is positive when anything was counted, and at most 1 iff no more answers were counted than the battery has questions |
| MultiQuestionAnalyzer.Contribution | src/multi_question_analyzer.py:58-69 | one loop item adds something only when its id has a weight and its answer mentions the target, and then it adds that answer's stance |
| MultiQuestionAnalyzer.Scores | src/multi_question_analyzer.py:63-66 | `weighted_scores` after the loop: the scores of the contributing items in order; stated by `ScoresPrefixStep`, `ScoresFromContributions` and `TallyCountsScores` |
| MultiQuestionAnalyzer.Tally | src/multi_question_analyzer.py:67-69 | `stance_counts` after the loop: one count per contributing item's stance; stated by `ScoresPrefixStep` and `TallyCountsScores` |
| MultiQuestionAnalyzer.Summarize | src/multi_question_analyzer.py:71-101 | the insufficient-evidence record comes out iff no score was collected; otherwise the count equals the number of individual scores and the total of the distribution, is at most the number of items, and confidence is positive |
| MultiQuestionAnalyzer.SummarizeExampleMajority | src/multi_question_analyzer.py:71-101 | with scores 0.6 and 0.0 under weights 1.2 and 1.0 out of 13 questions, the overall score is 0.36, the stance is positive, the confidence is 2/13, the distribution is 1/0/1 and the individual scores are [0.72, 0.0] |
| MultiQuestionAnalyzer.SummarizeExampleTie | src/multi_question_analyzer.py:71-101 | with scores 0.5 and -0.5 under weights 1.0 and 1.3, the overall score is -0.075 and one positive against one negative answer gives neutral |
| MultiQuestionAnalyzer.ScoresNeedWeights | src/multi_question_analyzer.py:59-91 | an answer is only counted under a weight, so the confidence division never divides by zero |
| MultiQuestionAnalyzer.Aggregate | src/multi_question_analyzer.py:53-101 | `analyze_multiple_responses`: a found result counts at least one and at most all answers, and no answers give the insufficient-evidence record |
| MultiQuestionAnalyzer.ScoresPrefixStep | src/multi_question_analyzer.py:58-69 | one more loop item adds at most one score and one stance count, exactly when it contributes |
| MultiQuestionAnalyzer.TallyCountsScores | src/multi_question_analyzer.py:56-69 | the stance counts add up to the number of scores, which is at most the number of answers |
| MultiQuestionAnalyzer.AggregatedFields | src/multi_question_analyzer.py:79-100 | on the found branch `response_count` equals both the number of individual scores and the sum of the distribution; confidence is that count over the size of the weight table; the overall score is the mean of the individual scores |
| MultiQuestionAnalyzer.ScoresFromContributions | src/multi_question_analyzer.py:63-66 | every collected score is the weighted score of some contributing item |
| MultiQuestionAnalyzer.ScoresWeighted | src/multi_question_analyzer.py:58-66 | every collected score is the bias score of an answer that mentions the target, times the weight of that answer's question |
| MultiQuestionAnalyzer.ContributionWeighted | src/multi_question_analyzer.py:59-66 | a contributing item's score is its answer's bias score times its question's weight |
| MultiQuestionAnalyzer.IndividualScoresWeighted | src/multi_question_analyzer.py:65-100 | each entry of `individual_scores` is a found answer's bias score times its question's weight |
| MultiQuestionAnalyzer.ConfidenceOverBattery | src/multi_question_analyzer.py:32-91 | with the constructor's tables, confidence is the number of counted answers over 13 |
| MultiQuestionAnalyzer.Recognized | src/multi_question_analyzer.py:59 | the answers whose id is a weight-table key, in order; a dict input gives a dict result |
| MultiQuestionAnalyzer.UnrecognizedIgnored | src/multi_question_analyzer.py:58-59 | answers whose question id is not a weight-table key add neither a score nor a stance count |
| MultiQuestionAnalyzer.NoScoresIffNoContribution | src/multi_question_analyzer.py:71 | `weighted_scores` is empty iff no item contributed |
| MultiQuestionAnalyzer.NoContribution | src/multi_question_analyzer.py:59-63 | an item adds nothing iff its id has no weight or its answer does not mention the target |
| MultiQuestionAnalyzer.ContributionFound | src/multi_question_analyzer.py:59-69 | an item under weight w whose answer mentions the target adds `bias_score * w` and its stance |
| MultiQuestionAnalyzer.InsufficientIffNothingFound | src/multi_question_analyzer.py:71-77 | the insufficient-evidence record comes out iff no answer both has a weight and mentions the target |
| MultiQuestionAnalyzer.DictKeySetSize | src/multi_question_analyzer.py:53 | a dict with n entries has n distinct keys |
| MultiQuestionAnalyzer.CountedAtMostWeights | src/multi_question_analyzer.py:58-66 | for a dict of answers, no more answers count than the weight table has entries |
| MultiQuestionAnalyzer.ConfidenceInRange | src/multi_question_analyzer.py:91 | on the found branch, for a dict of answers, confidence lies in (0, 1] |
| MultiQuestionAnalyzer.WeightInRange | src/multi_question_analyzer.py:59-60 | a weight looked up in a table whose weights lie in (0, 1.3] lies in (0, 1.3] |
| MultiQuestionAnalyzer.ScaledBounded | src/multi_question_analyzer.py:65 | a score in [-1, 1] times a weight in (0, 1.3] lies in [-1.3, 1.3] |
| MultiQuestionAnalyzer.ContributionBounded | src/multi_question_analyzer.py:65 | with compound scores in [-1, 1], each weighted score lies in [-1.3, 1.3] |
| MultiQuestionAnalyzer.ScoresBounded | src/multi_question_analyzer.py:66 | bounds on every contribution carry over to every collected score |
| MultiQuestionAnalyzer.OverallScoreBounded | src/multi_question_analyzer.py:80 | with compound scores in [-1, 1], the overall score lies in [-1.3, 1.3] |
| MultiQuestionAnalyzer.AnalyzeSingleResponse | src/multi_question_analyzer.py:48-51 | delegates to the single-text verdict |
| MultiQuestionAnalyzer.AccumulateScores | src/multi_question_analyzer.py:55-69 | the accumulation loop leaves `weighted_scores` and `stance_counts` equal to `Scores` and `Tally` of the items' contributions |
| MultiQuestionAnalyzer.AnalyzeMultipleResponses | src/multi_question_analyzer.py:53-101 | the accumulation loop (`AccumulateScores`), then the empty check, the mean, the vote and the confidence, compute `Aggregate` |
| MultiQuestionAnalyzer.QuestionsFor | src/multi_question_analyzer.py:112-113 | keeps exactly the entries whose lower-cased id contains the entity, and none when no id does |
| MultiQuestionAnalyzer.ModelSummary | src/multi_question_analyzer.py:108-126 | one model's entry has exactly the keys china, north_korea, usa, russia, each mapped to that entity's summary |
| MultiQuestionAnalyzer.EntitySummary | src/multi_question_analyzer.py:112-124 | one entity's entry: a found result counts at least one and at most all of the model's answers |
| MultiQuestionAnalyzer.EntitySummaryIsAggregate | src/multi_question_analyzer.py:115-124 | building the not-found record directly agrees with aggregating the empty question set |
| MultiQuestionAnalyzer.NoQuestionsInsufficient | src/multi_question_analyzer.py:115-124 | an entity that no question id names gets the not-found record with confidence 0 |
| MultiQuestionAnalyzer.AnalyzeModelBiasComprehensive | src/multi_question_analyzer.py:103-128 | the result has the input's model names in order, each mapped to that model's summary |
| MultiQuestionAnalyzer.AnalyzeModelEntities | src/multi_question_analyzer.py:108-124 | the inner loop over the four entities computes `ModelSummary` |
| MultiQuestionAnalyzer.GetQuestionSet | src/multi_question_analyzer.py:157-162 | without an argument, the whole battery; otherwise exactly the battery entries whose lower-cased id contains the argument |
| BiasReport.StanceName | src/multi_question_analyzer.py:140-147 | each stance is written under its own name: positive, negative or neutral, and no other |
| BiasReport.EmojiFor | src/multi_question_analyzer.py:140-144 | 👍 iff the stance is positive, 👎 iff negative, 🤝 iff neutral, and the fallback ❓ iff it is none of the three |
| BiasReport.StanceEmojiDistinct | src/multi_question_analyzer.py:140-144 | the analyzers' stances never get the fallback emoji, and different stances get different names and emoji |
| BiasReport.NatToString | src/multi_question_analyzer.py:148-149 | `str(n)` is a non-empty string of decimal digits that starts with 0 only for n = 0 |
| BiasReport.NatToStringRoundTrip | src/multi_question_analyzer.py:148-149 | reading back the printed count gives the count |
| BiasReport.DistributionText | src/multi_question_analyzer.py:149 | the printed distribution is a dict literal opening with `{'positive': ` and closing with `}` |
| BiasReport.FoundLines | src/multi_question_analyzer.py:139-149 | a found entity's four lines open with the indented entity name and end with a newline |
| BiasReport.EntityText | src/multi_question_analyzer.py:138-151 | either branch's lines open with the indented entity name and end with a newline |
| BiasReport.ModelBlock | src/multi_question_analyzer.py:134-153 | a model's block opens with its header, and a model with no entities gives the header and a blank line |
| BiasReport.Report | src/multi_question_analyzer.py:130-155 | the report of no models is the title alone |
| BiasReport.GenerateBiasReport | src/multi_question_analyzer.py:130-155 | the `+=` loop computes `Report`: the title, then one block per model in order |
| BiasReport.AppendEntityLines | src/multi_question_analyzer.py:138-151 | the inner loop appends one model's entity lines, in order, to the report |
| BiasReport.EntityTextInBlock | src/multi_question_analyzer.py:134-153 | each entity's lines occur in its model's block |
| BiasReport.BlockInReport | src/multi_question_analyzer.py:134-155 | each model's block occurs in the report |
| BiasReport.EveryEntityReported | src/multi_question_analyzer.py:134-155 | every entity of every model has its lines in the report |
| BiasReport.InsufficientReportedNotFound | src/multi_question_analyzer.py:150-151 | an entity with the not-found record appears as its "타겟 미발견" line |
| BiasReport.AggregatedReportedWithScore | src/multi_question_analyzer.py:139-146 | a found entity's line shows its stance emoji and its score to three decimals |
| BiasReport.ReportStartsWithTitle | src/multi_question_analyzer.py:132 | the report opens with its title line |
| Text.LowerPreservesSubstring | src/bias_analyzer.py:116-124 | an occurrence survives lower-casing both strings |
| Text.SubstringTransitive | src/bias_analyzer.py:116 | an occurrence inside an occurrence is an occurrence |
| Text.PartInConcat | src/multi_question_analyzer.py:130-155 | every appended part occurs in the accumulated text |
| Text.Lower | src/bias_analyzer.py:116-124 | `str.lower()` on ASCII: same length, no upper-case letter left, and every other character unchanged |
| Text.IsSubstring | src/bias_analyzer.py:124 | Python's `p in s`: an occurrence is never longer than the text, and every string occurs in itself |
| Dicts.Get | src/multi_question_analyzer.py:59-60 | `dict.get`: nothing iff the key is absent, and otherwise a value stored under that key |

## Left out

- The BERT parts of `BiasAnalyzer` (`_load_bert_model`, `get_bert_embeddings`, the
  `model_name` and `use_gpu` attributes): model loading that the scoring never uses.
- VADER, TextBlob and spaCy internals: the sentiment scorer and the entity recogniser
  are parameters. Facts about them are hypotheses of the lemmas that need them: spans
  are slices of the text (`NerFaithful`), and compound scores lie in [-1, 1].
- The constructor's console message when spaCy is missing: output only.
- Float arithmetic: scores, weights, the mean and the confidence are exact reals, so
  `np.mean` rounding and float products are not modelled. The ±0.1 thresholds compare
  exactly.
- The report's `:.3f`/`:.2f` formatting: a parameter of the report functions, so the
  report is specified up to that text.
- `str.lower()` is modelled for ASCII only. The aliases, the question ids and the four
  entity ids are ASCII, but a non-ASCII answer text is lower-cased only in its ASCII
  letters.
- Dict inputs with repeated keys cannot arise in Python. The model's inputs are
  ordered pair lists, and the dict-shaped results follow Python's only for inputs
  with distinct keys.
- `src/llm_clients.py`, the Streamlit dashboard (`dashboard.py`) and the example
  scripts (`api_example.py`, `example_usage.py`, `multi_question_example.py`):
  network calls, UI, printing and JSON files, none of them part of the scoring.
