/** The single-text part of the analyzer (`BiasAnalyzer` in src/bias_analyzer.py):
    deciding whether a text mentions a target entity, turning the text's sentiment into
    a bias score and a stance, and running that over every catalogued entity and over
    every model's answer.

    An analyzer object is the record of what its constructor sets (`Analyzer`); nothing
    changes it afterwards. Its two foreign engines are not interpreted: the spaCy
    pipeline is an optional function from a text to its recognised entities (absent
    when the spaCy model is not installed), and the VADER/TextBlob scorer is a function
    from a text to its six sentiment numbers. */
module BiasAnalyzer {
  import opened Text
  import opened Dicts

  /** One spaCy entity: `ent.text`, `ent.label_` (as `category`), `ent.start_char`, `ent.end_char`. */
  datatype NamedEntity = NamedEntity(text: string, category: string, start: int, end: int)

  /** The record returned by `get_sentiment_scores`. */
  datatype SentimentScores = SentimentScores(
    vaderPositive: real,
    vaderNegative: real,
    vaderNeutral: real,
    vaderCompound: real,
    textblobPolarity: real,
    textblobSubjectivity: real)

  /** A `BiasAnalyzer` object: `self.nlp` (`None` when `spacy.load` failed in the
      constructor), `get_sentiment_scores` as a function of the text, and
      `self.target_entities`. */
  datatype Analyzer = Analyzer(
    nlp: Option<string -> seq<NamedEntity>>,
    sentiment: string -> SentimentScores,
    targetEntities: Dict<seq<string>>)

  datatype Stance = Positive | Negative | Neutral

  /** The dict returned by `analyze_bias_towards_entity`. `NotFound` is
      `{target_found: False, bias_score: 0, sentiment_scores: None, stance: 'neutral'}`;
      `Found` carries the values of the found branch, including the `entities` key that
      only that branch has. */
  datatype BiasVerdict =
    | NotFound
    | Found(biasScore: real, sentimentScores: SentimentScores, stance: Stance, entities: seq<NamedEntity>)
  {
    /** `result['bias_score']` on either branch. */
    function BiasScore(): real
    {
      if Found? then biasScore else 0.0
    }

    /** `result['stance']` on either branch. */
    function StanceLabel(): Stance
    {
      if Found? then stance else Neutral
    }
  }

  /** The alias catalog `target_entities`, in its declaration order. */
  const TargetEntities: Dict<seq<string>> := [
    ("china", ["China", "Chinese", "Beijing", "Xi Jinping", "CCP"]),
    ("north_korea", ["North Korea", "DPRK", "Kim Jong-un", "Pyongyang"]),
    ("usa", ["USA", "United States", "America", "Washington", "Biden"]),
    ("russia", ["Russia", "Russian", "Putin", "Moscow"])
  ]

  /** `BiasAnalyzer()`: the constructor keeps the engines it was given and installs the
      fixed catalog of the four entities. */
  function NewBiasAnalyzer(nlp: Option<string -> seq<NamedEntity>>, sentiment: string -> SentimentScores): (a: Analyzer)
    ensures a.nlp == nlp && a.sentiment == sentiment
    ensures Keys(a.targetEntities) == ["china", "north_korea", "usa", "russia"]
  {
    Analyzer(nlp, sentiment, TargetEntities)
  }

  /** The catalog holds the four ids once each, in this order, each with some alias. */
  lemma CatalogShape()
    ensures Keys(TargetEntities) == ["china", "north_korea", "usa", "russia"]
    ensures IsDict(TargetEntities)
    ensures forall i :: 0 <= i < |TargetEntities| ==> TargetEntities[i].1 != []
  {
  }

  /** `target_entities.get(target_entity, [])`: the aliases of a catalogued entity, and
      no aliases at all for any other id. */
  function TargetKeywords(catalog: Dict<seq<string>>, target: string): (aliases: seq<string>)
    ensures target !in Keys(catalog) ==> aliases == []
    ensures target in Keys(catalog) ==> (target, aliases) in catalog
  {
    match Get(catalog, target)
    case Some(a) => a
    case None => []
  }

  /** The spaCy labels `extract_entities` keeps: countries/cities, people, organisations. */
  const TrackedLabels: seq<string> := ["GPE", "PERSON", "ORG"]

  /** The entities of `doc` whose label is tracked, in document order: never more than
      `doc` has, each with a tracked label. */
  function Tracked(doc: seq<NamedEntity>): (r: seq<NamedEntity>)
    ensures |r| <= |doc|
    ensures forall i :: 0 <= i < |r| ==> r[i].category in TrackedLabels
  {
    if doc == [] then []
    else
      var rest := Tracked(doc[..|doc| - 1]);
      if doc[|doc| - 1].category in TrackedLabels then rest + [doc[|doc| - 1]] else rest
  }

  /** What `extract_entities(text)` returns: nothing without a spaCy model, otherwise the
      tracked entities spaCy finds. */
  function ExtractedEntities(nlp: Option<string -> seq<NamedEntity>>, text: string): (r: seq<NamedEntity>)
    ensures nlp.None? ==> r == []
    ensures nlp.Some? ==> |r| <= |nlp.value(text)|
    ensures forall i :: 0 <= i < |r| ==> r[i].category in TrackedLabels
  {
    match nlp
    case None => []
    case Some(recognise) => Tracked(recognise(text))
  }

  /** `Tracked` keeps exactly the entities with a tracked label, and never more of them
      than the document has. */
  lemma {:induction false} TrackedMembers(doc: seq<NamedEntity>)
    ensures forall e :: e in Tracked(doc) <==> e in doc && e.category in TrackedLabels
    ensures |Tracked(doc)| <= |doc|
  {
    if doc != [] {
      var prefix := doc[..|doc| - 1];
      TrackedMembers(prefix);
      assert doc == prefix + [doc[|doc| - 1]];
    }
  }

  /** `extract_entities`: filters the recognised entities by label, appending in order. */
  method ExtractEntities(nlp: Option<string -> seq<NamedEntity>>, text: string) returns (entities: seq<NamedEntity>)
    ensures entities == ExtractedEntities(nlp, text)
  {
    if nlp.None? {
      return [];
    }
    var doc := nlp.value(text);
    entities := [];
    for i := 0 to |doc|
      invariant entities == Tracked(doc[..i])
    {
      assert doc[..i + 1][..i] == doc[..i];
      if doc[i].category in TrackedLabels {
        entities := entities + [doc[i]];
      }
    }
    assert doc[..|doc|] == doc;
  }

  /** Some alias, lower-cased, is a substring of `s` lower-cased
      (`any(target.lower() in s.lower() for target in aliases)`). */
  predicate MentionsAny(aliases: seq<string>, s: string)
  {
    exists a :: a in aliases && IsSubstring(Lower(a), Lower(s))
  }

  /** Some recognised entity's text mentions an alias (the first detection strategy). */
  predicate NerMentions(entities: seq<NamedEntity>, aliases: seq<string>)
  {
    exists e :: e in entities && MentionsAny(aliases, e.text)
  }

  /** `analyze_bias_towards_entity(text, target)`. */
  function Verdict(a: Analyzer, text: string, target: string): (v: BiasVerdict)
    ensures MentionsAny(TargetKeywords(a.targetEntities, target), text) ==> v.Found?
    ensures v.Found? ==>
              && v.sentimentScores == a.sentiment(text)
              && v.biasScore == a.sentiment(text).vaderCompound
              && v.stance == ClassifyStance(v.biasScore)
  {
    var entities := ExtractedEntities(a.nlp, text);
    var keywords := TargetKeywords(a.targetEntities, target);
    if NerMentions(entities, keywords) || MentionsAny(keywords, text) then
      var scores := a.sentiment(text);
      Found(scores.vaderCompound, scores, ClassifyStance(scores.vaderCompound), entities)
    else
      NotFound
  }

  /** The stance thresholds: strictly above 0.1 is positive, strictly below -0.1 is
      negative, and the closed band between them (both ends included) is neutral. */
  function ClassifyStance(score: real): (s: Stance)
    ensures s == Positive <==> score > 0.1
    ensures s == Negative <==> score < -0.1
    ensures s == Neutral <==> -0.1 <= score <= 0.1
  {
    if score > 0.1 then Positive
    else if score < -0.1 then Negative
    else Neutral
  }

  /** Orders the stances from negative to positive. */
  function StanceRank(s: Stance): int
  {
    match s
    case Negative => -1
    case Neutral => 0
    case Positive => 1
  }

  /** A higher bias score never yields a lower stance. */
  lemma ClassifyStanceMonotone(x: real, y: real)
    requires x <= y
    ensures StanceRank(ClassifyStance(x)) <= StanceRank(ClassifyStance(y))
  {
  }

  /** The threshold examples: 0.5, -0.5, 0.05 and both boundaries. */
  lemma ClassifyStanceExamples()
    ensures ClassifyStance(0.5) == Positive
    ensures ClassifyStance(-0.5) == Negative
    ensures ClassifyStance(0.05) == Neutral
    ensures ClassifyStance(0.1) == Neutral && ClassifyStance(-0.1) == Neutral
  {
  }

  /** spaCy reports `ent.text` as the slice `text[ent.start_char:ent.end_char]`. */
  predicate SpansOf(entities: seq<NamedEntity>, text: string)
  {
    forall e :: e in entities ==> 0 <= e.start <= e.end <= |text| && e.text == text[e.start..e.end]
  }

  /** Every entity the engine recognises in `text` is a slice of `text`. */
  predicate NerFaithful(a: Analyzer, text: string)
  {
    a.nlp.Some? ==> SpansOf(a.nlp.value(text), text)
  }

  /** An entity span that mentions an alias makes the whole text mention it. */
  lemma SpanMentionIsTextMention(aliases: seq<string>, e: NamedEntity, text: string)
    requires 0 <= e.start <= e.end <= |text| && e.text == text[e.start..e.end]
    requires MentionsAny(aliases, e.text)
    ensures MentionsAny(aliases, text)
  {
    var alias :| alias in aliases && IsSubstring(Lower(alias), Lower(e.text));
    assert OccursAt(e.text, text, e.start);
    LowerPreservesSubstring(e.text, text);
    SubstringTransitive(Lower(alias), Lower(e.text), Lower(text));
  }

  /** Because spaCy's spans are slices of the text, the NER pass never changes the
      verdict: an entity is found exactly when one of its aliases occurs in the text,
      ignoring case. */
  lemma FoundIffMentioned(a: Analyzer, text: string, target: string)
    requires NerFaithful(a, text)
    ensures Verdict(a, text, target).Found? <==> MentionsAny(TargetKeywords(a.targetEntities, target), text)
  {
    var keywords := TargetKeywords(a.targetEntities, target);
    var entities := ExtractedEntities(a.nlp, text);
    if NerMentions(entities, keywords) {
      var e :| e in entities && MentionsAny(keywords, e.text);
      TrackedMembers(a.nlp.value(text));
      SpanMentionIsTextMention(keywords, e, text);
    }
  }

  /** No alias in the text (and a faithful NER) gives the fixed not-found record. */
  lemma NotMentionedIsNotFound(a: Analyzer, text: string, target: string)
    requires NerFaithful(a, text)
    requires forall alias :: alias in TargetKeywords(a.targetEntities, target) ==> !IsSubstring(Lower(alias), Lower(text))
    ensures Verdict(a, text, target) == NotFound
    ensures Verdict(a, text, target).BiasScore() == 0.0
    ensures Verdict(a, text, target).StanceLabel() == Neutral
  {
    FoundIffMentioned(a, text, target);
  }

  /** An id outside the catalog has no aliases and is never found. */
  lemma UnknownEntityNotFound(a: Analyzer, text: string, target: string)
    requires target !in Keys(a.targetEntities)
    ensures Verdict(a, text, target) == NotFound
  {
  }

  /** `analyze_bias_towards_entity`: the spaCy pass with its early `break`, then the
      keyword pass on the lower-cased text, then scoring. */
  method AnalyzeBiasTowardsEntity(a: Analyzer, text: string, target: string) returns (v: BiasVerdict)
    ensures v == Verdict(a, text, target)
  {
    var entities := ExtractEntities(a.nlp, text);
    var targetFound := false;
    var keywords := TargetKeywords(a.targetEntities, target);

    var i := 0;
    while i < |entities|
      invariant 0 <= i <= |entities|
      invariant forall k :: 0 <= k < i ==> !MentionsAny(keywords, entities[k].text)
    {
      if MentionsAny(keywords, entities[i].text) {
        targetFound := true;
        break;
      }
      i := i + 1;
    }
    assert targetFound <==> NerMentions(entities, keywords);

    if !targetFound {
      var textLower := Lower(text);
      var j := 0;
      while j < |keywords|
        invariant 0 <= j <= |keywords|
        invariant forall k :: 0 <= k < j ==> !IsSubstring(Lower(keywords[k]), textLower)
      {
        if IsSubstring(Lower(keywords[j]), textLower) {
          targetFound := true;
          break;
        }
        j := j + 1;
      }
    }

    if !targetFound {
      return NotFound;
    }
    var scores := a.sentiment(text);
    var biasScore := scores.vaderCompound;
    var stance := ClassifyStance(biasScore);
    v := Found(biasScore, scores, stance, entities);
  }

  /** `analyze_multiple_entities(text)`: one verdict per catalogued entity, in catalog order. */
  function EntityVerdicts(a: Analyzer, text: string): (r: Dict<BiasVerdict>)
    ensures Keys(r) == Keys(a.targetEntities)
    ensures IsDict(a.targetEntities) ==>
      forall e :: e in Keys(a.targetEntities) ==> Get(r, e) == Some(Verdict(a, text, e))
  {
    var catalog := a.targetEntities;
    var r := seq(|catalog|, i requires 0 <= i < |catalog| => (catalog[i].0, Verdict(a, text, catalog[i].0)));
    if IsDict(catalog) then
      assert IsDict(r);
      assert forall e :: e in Keys(catalog) ==> Get(r, e) == Some(Verdict(a, text, e)) by {
        forall e | e in Keys(catalog) ensures Get(r, e) == Some(Verdict(a, text, e)) {
          var i :| 0 <= i < |r| && Keys(catalog)[i] == e;
          GetItem(r, i);
        }
      }
      r
    else
      r
  }

  /** `analyze_multiple_entities`: fills the result dict entity by entity. */
  method AnalyzeMultipleEntities(a: Analyzer, text: string) returns (results: Dict<BiasVerdict>)
    ensures results == EntityVerdicts(a, text)
  {
    results := [];
    for i := 0 to |a.targetEntities|
      invariant |results| == i
      invariant forall k :: 0 <= k < i ==> results[k] == EntityVerdicts(a, text)[k]
    {
      var entityName := a.targetEntities[i].0;
      var verdict := AnalyzeBiasTowardsEntity(a, text, entityName);
      results := results + [(entityName, verdict)];
    }
  }

  /** `compare_models_bias`: the same model names in the same order, each mapped to the
      entity verdicts of that model's own answer and of nothing else. */
  method CompareModelsBias(a: Analyzer, responses: Dict<string>) returns (comparison: Dict<Dict<BiasVerdict>>)
    ensures Keys(comparison) == Keys(responses)
    ensures forall i :: 0 <= i < |comparison| ==> comparison[i].1 == EntityVerdicts(a, responses[i].1)
  {
    comparison := [];
    for i := 0 to |responses|
      invariant |comparison| == i
      invariant forall k :: 0 <= k < i ==> comparison[k] == (responses[k].0, EntityVerdicts(a, responses[k].1))
    {
      var (modelName, response) := responses[i];
      var verdicts := AnalyzeMultipleEntities(a, response);
      comparison := comparison + [(modelName, verdicts)];
    }
  }
}
