/** The text report (`generate_bias_report` in src/multi_question_analyzer.py): a title,
    then one block per model with one line group per entity, in the order of the
    comprehensive results.

    Python's fixed-point float formatting (`:.3f`, `:.2f`) is not interpreted: the
    report takes it as a function from a number and a count of decimals to its text. */
module BiasReport {
  import opened Text
  import opened Dicts
  import opened BiasAnalyzer
  import opened MultiQuestionAnalyzer

  /** Python's `f"{x:.{d}f}"` for a float `x` and `d` decimals. */
  type FixedFormat = (real, nat) -> string

  /** The report's first line and the blank line after it. */
  const Title: string := "=== 종합 편향 분석 리포트 ===\n\n"

  /** `"=" * 30`. */
  const Rule: string := "=============================="

  /** The line of `generate_bias_report` for an entity that was not found. */
  const NotFoundSuffix: string := ": 타겟 미발견\n"

  /** The stance string the analyzers store under `overall_stance`. */
  function StanceName(s: Stance): (name: string)
    ensures name in ["positive", "negative", "neutral"]
    ensures s == Positive <==> name == "positive"
    ensures s == Negative <==> name == "negative"
    ensures s == Neutral <==> name == "neutral"
  {
    match s
    case Positive => "positive"
    case Negative => "negative"
    case Neutral => "neutral"
  }

  /** `{'positive': '👍', 'negative': '👎', 'neutral': '🤝'}.get(stance, '❓')`. */
  function EmojiFor(stance: string): (emoji: string)
    ensures emoji == "❓" <==> stance !in ["positive", "negative", "neutral"]
    ensures emoji == "👍" <==> stance == "positive"
    ensures emoji == "👎" <==> stance == "negative"
    ensures emoji == "🤝" <==> stance == "neutral"
  {
    if stance == "positive" then "👍"
    else if stance == "negative" then "👎"
    else if stance == "neutral" then "🤝"
    else "❓"
  }

  /** The three stances get three different names, and so three different emoji; the
      `'❓'` fallback never shows for a stance the analyzers produce. */
  lemma StanceEmojiDistinct(s: Stance, t: Stance)
    ensures EmojiFor(StanceName(s)) != "❓"
    ensures s != t ==> StanceName(s) != StanceName(t)
    ensures s != t ==> EmojiFor(StanceName(s)) != EmojiFor(StanceName(t))
  {
  }

  function DigitChar(d: nat): char
    requires d < 10
  {
    ('0' as int + d) as char
  }

  predicate IsDigits(s: string)
  {
    forall i :: 0 <= i < |s| ==> '0' <= s[i] <= '9'
  }

  /** `str(n)` for a non-negative `int`: decimal digits, no leading zero. */
  function NatToString(n: nat): (s: string)
    ensures |s| >= 1 && IsDigits(s)
    ensures s[0] == '0' <==> n == 0
  {
    if n < 10 then [DigitChar(n)]
    else NatToString(n / 10) + [DigitChar(n % 10)]
  }

  /** `int(s)` for a string of decimal digits. */
  function DigitsValue(s: string): nat
    requires IsDigits(s)
  {
    if s == [] then 0
    else DigitsValue(s[..|s| - 1]) * 10 + (s[|s| - 1] as int - '0' as int)
  }

  /** `int(str(n)) == n`: the printed counts can be read back. */
  lemma {:induction false} NatToStringRoundTrip(n: nat)
    ensures DigitsValue(NatToString(n)) == n
  {
    if n >= 10 {
      NatToStringRoundTrip(n / 10);
      var s := NatToString(n);
      assert s[..|s| - 1] == NatToString(n / 10);
    }
  }

  /** `str(stance_counts)`: the dict's repr, keys in insertion order, in braces. */
  function DistributionText(c: StanceCounts): (s: string)
    ensures "{'positive': " <= s
    ensures s[|s| - 1] == '}'
  {
    "{'positive': " + NatToString(c.positive)
      + ", 'negative': " + NatToString(c.negative)
      + ", 'neutral': " + NatToString(c.neutral) + "}"
  }

  /** The four lines written for a found entity. */
  function FoundLines(fixed: FixedFormat, entity: string, v: AggregatedVerdict): (s: string)
    requires v.Aggregated?
    ensures "  " + entity + ": " <= s
    ensures s[|s| - 1] == '\n'
  {
    ScoreLine(fixed, entity, EmojiFor(StanceName(v.overallStance)), v.overallBiasScore)
      + StanceLine(fixed, StanceName(v.overallStance), v.confidence)
      + CountLine(v.responseCount)
      + DistributionLine(v.stanceDistribution)
  }

  /** `f"  {entity}: {stance_emoji} 편향점수={overall_bias_score:.3f}\n"`. */
  function ScoreLine(fixed: FixedFormat, entity: string, emoji: string, score: real): string
  {
    "  " + entity + ": " + emoji + " 편향점수=" + fixed(score, 3) + "\n"
  }

  /** `f"      입장={overall_stance}, 신뢰도={confidence:.2f}\n"`. */
  function StanceLine(fixed: FixedFormat, stance: string, confidence: real): string
  {
    "      입장=" + stance + ", 신뢰도=" + fixed(confidence, 2) + "\n"
  }

  /** `f"      응답수={response_count}\n"`. */
  function CountLine(count: nat): string
  {
    "      응답수=" + NatToString(count) + "\n"
  }

  /** `f"      분포={stance_distribution}\n"`. */
  function DistributionLine(c: StanceCounts): string
  {
    "      분포=" + DistributionText(c) + "\n"
  }

  /** What one `(entity, result)` item adds to the report. */
  function EntityText(fixed: FixedFormat, entity: string, v: AggregatedVerdict): (s: string)
    ensures "  " + entity + ": " <= s
    ensures s[|s| - 1] == '\n'
  {
    if v.Aggregated? then FoundLines(fixed, entity, v) else "  " + entity + NotFoundSuffix
  }

  /** The text of each `(entity, result)` item of one model, in order. */
  function EntityTexts(fixed: FixedFormat, results: Dict<AggregatedVerdict>): seq<string>
  {
    seq(|results|, k requires 0 <= k < |results| => EntityText(fixed, results[k].0, results[k].1))
  }

  /** The entity lines of one model, in the order of its results. */
  function EntityLines(fixed: FixedFormat, results: Dict<AggregatedVerdict>): string
  {
    Concat(EntityTexts(fixed, results))
  }

  /** The two heading lines of a model's block. */
  function ModelHeader(name: string): string
  {
    ("📊 " + name + "\n") + (Rule + "\n")
  }

  /** One model's block: heading, entity lines, blank line. */
  function ModelBlock(fixed: FixedFormat, name: string, results: Dict<AggregatedVerdict>): (s: string)
    ensures ModelHeader(name) <= s
    ensures results == [] ==> s == ModelHeader(name) + "\n"
  {
    ModelHeader(name) + EntityLines(fixed, results) + "\n"
  }

  /** The block of each model, in the order of the comprehensive results. */
  function Blocks(fixed: FixedFormat, models: Dict<Dict<AggregatedVerdict>>): seq<string>
  {
    seq(|models|, k requires 0 <= k < |models| => ModelBlock(fixed, models[k].0, models[k].1))
  }

  /** The whole report. */
  function Report(fixed: FixedFormat, models: Dict<Dict<AggregatedVerdict>>): (r: string)
    ensures models == [] ==> r == Title
  {
    Title + Concat(Blocks(fixed, models))
  }

  /** `generate_bias_report`: appends to `report` model by model, entity by entity. */
  method GenerateBiasReport(fixed: FixedFormat, comprehensiveResults: Dict<Dict<AggregatedVerdict>>)
    returns (report: string)
    ensures report == Report(fixed, comprehensiveResults)
  {
    ghost var blocks := Blocks(fixed, comprehensiveResults);
    report := Title;
    for i := 0 to |comprehensiveResults|
      invariant report == Title + Concat(blocks[..i])
    {
      var modelName := comprehensiveResults[i].0;
      var results := comprehensiveResults[i].1;
      ghost var before := report;
      report := report + ("📊 " + modelName + "\n");
      report := report + (Rule + "\n");
      AppendAssoc(before, "📊 " + modelName + "\n", Rule + "\n");
      report := AppendEntityLines(fixed, report, results);
      AppendAssoc(before, ModelHeader(modelName), EntityLines(fixed, results));
      report := report + "\n";
      AppendAssoc(before, ModelHeader(modelName) + EntityLines(fixed, results), "\n");
      ConcatPrefixStep(blocks, i);
      AppendAssoc(Title, Concat(blocks[..i]), blocks[i]);
    }
    assert blocks[..|comprehensiveResults|] == blocks;
  }

  /** The inner loop of `generate_bias_report`: the lines of one model's results,
      appended to `report` in order. */
  method AppendEntityLines(fixed: FixedFormat, report: string, results: Dict<AggregatedVerdict>)
    returns (r: string)
    ensures r == report + EntityLines(fixed, results)
  {
    ghost var texts := EntityTexts(fixed, results);
    r := report;
    for j := 0 to |results|
      invariant r == report + Concat(texts[..j])
    {
      var entity := results[j].0;
      var result := results[j].1;
      ghost var lineStart := r;
      if result.Aggregated? {
        var stanceEmoji := EmojiFor(StanceName(result.overallStance));
        var a := ScoreLine(fixed, entity, stanceEmoji, result.overallBiasScore);
        var b := StanceLine(fixed, StanceName(result.overallStance), result.confidence);
        var c := CountLine(result.responseCount);
        var d := DistributionLine(result.stanceDistribution);
        r := r + a;
        r := r + b;
        AppendAssoc(lineStart, a, b);
        r := r + c;
        AppendAssoc(lineStart, a + b, c);
        r := r + d;
        AppendAssoc(lineStart, a + b + c, d);
      } else {
        r := r + ("  " + entity + NotFoundSuffix);
      }
      assert r == lineStart + texts[j];
      ConcatPrefixStep(texts, j);
      AppendAssoc(report, Concat(texts[..j]), texts[j]);
    }
    assert texts[..|results|] == texts;
  }

  /** The `j`-th entity's text occurs in its model's block. */
  lemma EntityTextInBlock(fixed: FixedFormat, name: string, results: Dict<AggregatedVerdict>, j: int)
    requires 0 <= j < |results|
    ensures IsSubstring(EntityText(fixed, results[j].0, results[j].1), ModelBlock(fixed, name, results))
  {
    var line := EntityText(fixed, results[j].0, results[j].1);
    PartInConcat(EntityTexts(fixed, results), j);
    SubstringExtend(line, EntityLines(fixed, results), ModelHeader(name), "");
    SubstringExtend(line, ModelHeader(name) + EntityLines(fixed, results), "", "\n");
  }

  /** The `i`-th model's block occurs in the report. */
  lemma BlockInReport(fixed: FixedFormat, models: Dict<Dict<AggregatedVerdict>>, i: int)
    requires 0 <= i < |models|
    ensures IsSubstring(ModelBlock(fixed, models[i].0, models[i].1), Report(fixed, models))
  {
    PartInConcat(Blocks(fixed, models), i);
    SubstringExtend(ModelBlock(fixed, models[i].0, models[i].1), Concat(Blocks(fixed, models)), Title, "");
  }

  /** Every entity of every model is reported: its text occurs in the report. */
  lemma EveryEntityReported(fixed: FixedFormat, models: Dict<Dict<AggregatedVerdict>>, i: int, j: int)
    requires 0 <= i < |models| && 0 <= j < |models[i].1|
    ensures IsSubstring(EntityText(fixed, models[i].1[j].0, models[i].1[j].1), Report(fixed, models))
  {
    EntityTextInBlock(fixed, models[i].0, models[i].1, j);
    BlockInReport(fixed, models, i);
    SubstringTransitive(EntityText(fixed, models[i].1[j].0, models[i].1[j].1),
                        ModelBlock(fixed, models[i].0, models[i].1),
                        Report(fixed, models));
  }

  /** An entity without enough evidence is reported as not found. */
  lemma InsufficientReportedNotFound(fixed: FixedFormat, models: Dict<Dict<AggregatedVerdict>>, i: int, j: int)
    requires 0 <= i < |models| && 0 <= j < |models[i].1|
    requires models[i].1[j].1 == Insufficient
    ensures IsSubstring("  " + models[i].1[j].0 + NotFoundSuffix, Report(fixed, models))
  {
    EveryEntityReported(fixed, models, i, j);
  }

  /** A found entity's text starts with its score line. */
  lemma ScoreLineInEntityText(fixed: FixedFormat, entity: string, v: AggregatedVerdict)
    requires v.Aggregated?
    ensures IsSubstring(ScoreLine(fixed, entity, EmojiFor(StanceName(v.overallStance)), v.overallBiasScore),
                        EntityText(fixed, entity, v))
  {
    var first := ScoreLine(fixed, entity, EmojiFor(StanceName(v.overallStance)), v.overallBiasScore);
    var second := StanceLine(fixed, StanceName(v.overallStance), v.confidence);
    var third := CountLine(v.responseCount);
    var fourth := DistributionLine(v.stanceDistribution);
    assert IsSubstring(first, first);
    SubstringExtend(first, first, "", second);
    SubstringExtend(first, first + second, "", third);
    SubstringExtend(first, first + second + third, "", fourth);
    assert EntityText(fixed, entity, v) == first + second + third + fourth;
  }

  /** A found entity's first line shows its emoji and its score, formatted to three
      decimals. */
  lemma AggregatedReportedWithScore(fixed: FixedFormat, models: Dict<Dict<AggregatedVerdict>>, i: int, j: int)
    requires 0 <= i < |models| && 0 <= j < |models[i].1|
    requires models[i].1[j].1.Aggregated?
    ensures var v := models[i].1[j].1;
      IsSubstring(ScoreLine(fixed, models[i].1[j].0, EmojiFor(StanceName(v.overallStance)), v.overallBiasScore),
                  Report(fixed, models))
  {
    var e := models[i].1[j].0;
    var v := models[i].1[j].1;
    ScoreLineInEntityText(fixed, e, v);
    EveryEntityReported(fixed, models, i, j);
    SubstringTransitive(ScoreLine(fixed, e, EmojiFor(StanceName(v.overallStance)), v.overallBiasScore),
                        EntityText(fixed, e, v), Report(fixed, models));
  }

  /** The report opens with its title, whatever the results. */
  lemma ReportStartsWithTitle(fixed: FixedFormat, models: Dict<Dict<AggregatedVerdict>>)
    ensures OccursAt(Title, Report(fixed, models), 0)
  {
    assert Report(fixed, models)[..|Title|] == Title;
  }
}
