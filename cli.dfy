/**
 * The command-line driver after argument parsing (sentiment.py, main):
 * which analysis runs, how an error result ends the process, and the lines
 * of the plain-text report.
 */
module Cli {

  import opened Wrappers
  import opened Classifier
  import opened Engine
  import opened Analysis
  import opened Display

  /** The one input argparse lets through: --text or --file. */
  datatype InputArg = TextInput(text: string) | FileInput(path: string)

  /** The parsed command line; the logging level is not part of this model. */
  datatype Invocation = Invocation(
    input: InputArg,
    options: Options,
    json: bool,
    positiveThreshold: real,
    negativeThreshold: real)

  /**
   * One printed line. Scores are printed with four decimals and the legend
   * with Python's float notation; those two formats are kept abstract.
   */
  datatype Line =
    | Plain(text: string)
    | Figure(caption: string, value: real)
    | LegendLine(positive: real, negative: real)
    | Json(result: Result)

  datatype RunOutcome = RunOutcome(exitCode: nat, stdout: seq<Line>, stderr: seq<string>)

  /**
   * The results main goes on to present: none when the chosen argument is
   * the empty string (Python treats it as absent), otherwise the analysis of
   * the text or of the file.
   */
  function Dispatch(inv: Invocation, read: ReadOutcome, answer: Answer): (res: Option<Result>)
    ensures res.None? <==> (inv.input.TextInput? && inv.input.text == []) || (inv.input.FileInput? && inv.input.path == [])
    ensures inv.input.TextInput? && res.Some? ==>
              res.value == Analyze(Normalise(inv.positiveThreshold, inv.negativeThreshold), Str(inv.input.text), inv.options, answer)
    ensures inv.input.FileInput? && res.Some? ==>
              res.value == AnalyzeFileResult(Normalise(inv.positiveThreshold, inv.negativeThreshold), inv.input.path, read, inv.options, answer)
  {
    var t := Normalise(inv.positiveThreshold, inv.negativeThreshold);
    match inv.input
    case TextInput(text) =>
      if text != [] then Some(Analyze(t, Str(text), inv.options, answer)) else None
    case FileInput(path) =>
      if path != [] then Some(AnalyzeFileResult(t, path, read, inv.options, answer)) else None
  }

  const Banner: string := "\n--- Sentiment and Text Analysis Results ---"
  const SentenceHeading: string := "\nSentence-Level Analysis:"

  function OverallLines(r: Result): seq<Line> {
    match r.overall
    case None => []
    case Some(s) =>
      [Plain("Overall Analysis:"),
       Figure("  Polarity:         ", s.polarity),
       Figure("  Subjectivity:     ", s.subjectivity),
       Plain("  Classification:   " + Label(s.classification))]
  }

  function StatsLines(r: Result): seq<Line> {
    match r.textStats
    case None => []
    case Some(st) =>
      [Plain("Text Statistics:"),
       Plain("  Word Count:       " + DecimalString(st.wordCount)),
       Plain("  Sentence Count:   " + DecimalString(st.sentenceCount))]
  }

  function LanguageLines(r: Result): seq<Line> {
    if r.detectedLanguage.Some? then [Plain("Detected Language:  " + r.detectedLanguage.value)]
    else if r.detectedLanguageError.Some? then [Plain("Language Detection: Failed - " + r.detectedLanguageError.value)]
    else []
  }

  /** Nothing at all for a missing or empty list; otherwise a heading and the phrase line. */
  function PhraseLines(r: Result): (lines: seq<Line>)
    ensures lines == [] <==> r.nounPhrases.None? || r.nounPhrases.value == []
    ensures lines != [] ==> lines == [Plain("\nKey Noun Phrases:"), Plain(PhraseText(ChoosePhrases(r.nounPhrases.value)))]
  {
    if r.nounPhrases.Some? && r.nounPhrases.value != [] then
      [Plain("\nKey Noun Phrases:"), Plain(PhraseText(ChoosePhrases(r.nounPhrases.value)))]
    else []
  }

  /** The lines for the entry at 0-based position i; a failed entry gets a single line. */
  function EntryLines(i: nat, e: SentenceEntry): (lines: seq<Line>)
    ensures e.Unanalysed? ==> |lines| == 1
    ensures e.Analysed? ==> |lines| == 4
  {
    var head := "  Sentence " + DecimalString(i + 1) + ": ";
    match e
    case Unanalysed(_, err) => [Plain(head + "Analysis Failed - " + err)]
    case Analysed(text, s) =>
      [Plain(head + "\"" + Ellipsize(text) + "\""),
       Figure("    Polarity:       ", s.polarity),
       Figure("    Subjectivity:   ", s.subjectivity),
       Plain("    Classification: " + Label(s.classification))]
  }

  /** The number of entries that carry scores. */
  function AnalysedCount(es: seq<SentenceEntry>): (n: nat)
    ensures n <= |es|
  {
    if es == [] then 0 else AnalysedCount(es[..|es| - 1]) + (if es[|es| - 1].Analysed? then 1 else 0)
  }

  /** The per-sentence blocks in order: one line per failed entry and four per scored one. */
  function SentenceSection(es: seq<SentenceEntry>): (lines: seq<Line>)
    ensures |lines| == |es| + 3 * AnalysedCount(es)
  {
    if es == [] then [] else SentenceSection(es[..|es| - 1]) + EntryLines(|es| - 1, es[|es| - 1])
  }

  function SentenceLines(r: Result): seq<Line> {
    match r.sentences
    case None => []
    case Some(es) => [Plain(SentenceHeading)] + SentenceSection(es)
  }

  function Footer(legend: Line): seq<Line> {
    [Plain("---------------------------------------------"),
     Plain("\nNote:"),
     Plain("  Polarity: -1.0 (Negative) to +1.0 (Positive). 0.0 is Neutral."),
     Plain("  Subjectivity: 0.0 (Objective) to +1.0 (Subjective)."),
     legend]
  }

  /** The lines before the sentence section. */
  function ReportHead(r: Result): seq<Line> {
    [Plain(Banner)] + OverallLines(r) + StatsLines(r) + LanguageLines(r) + PhraseLines(r)
  }

  /** The plain-text report, opening with the banner and closing with the legend. */
  function TextReport(r: Result, legend: Line): (lines: seq<Line>)
    ensures |lines| >= 6 && lines[0] == Plain(Banner) && lines[|lines| - 1] == legend
    ensures r.overall.Some? ==> Plain("  Classification:   " + Label(r.overall.value.classification)) in lines
    ensures r.sentences.Some? ==> Plain(SentenceHeading) in lines
    ensures r.detectedLanguage.Some? ==> Plain("Detected Language:  " + r.detectedLanguage.value) in lines
  {
    ReportHead(r) + SentenceLines(r) + Footer(legend)
  }

  /** Prints the report, looping over the sentence entries as main does. */
  method RenderText(r: Result, legend: Line) returns (lines: seq<Line>)
    ensures lines == TextReport(r, legend)
  {
    var middle: seq<Line> := [];
    if r.sentences.Some? {
      var es := r.sentences.value;
      middle := [Plain(SentenceHeading)];
      var i := 0;
      while i < |es|
        invariant 0 <= i <= |es|
        invariant middle == [Plain(SentenceHeading)] + SentenceSection(es[..i])
      {
        assert es[..i + 1][..i] == es[..i];
        middle := middle + EntryLines(i, es[i]);
        i := i + 1;
      }
      assert es[..i] == es;
    }
    lines := ReportHead(r) + middle + Footer(legend);
  }

  /**
   * The end of main: a missing or error result exits 1 with nothing on
   * standard output; JSON output exits 1 only when serialisation fails;
   * otherwise the report is printed and the exit code is 0.
   */
  function Present(results: Option<Result>, json: bool, jsonFailure: Option<string>, legend: Line): (o: RunOutcome)
    ensures o.exitCode == 0 <==> results.Some? && !results.value.Failed() && !(json && jsonFailure.Some?)
    ensures o.exitCode != 0 ==> o.exitCode == 1 && o.stdout == []
    ensures results.None? ==> o.stderr == []
    ensures results.Some? && results.value.Failed() ==>
              o.stderr == ["Operation failed: " + results.value.error.value.message]
    ensures o.exitCode == 0 && json ==> o.stdout == [Json(results.value)]
    ensures o.exitCode == 0 && !json ==> o.stdout == TextReport(results.value, legend)
  {
    match results
    case None => RunOutcome(1, [], [])
    case Some(r) =>
      if r.Failed() then RunOutcome(1, [], ["Operation failed: " + r.error.value.message])
      else if json then
        match jsonFailure
        case Some(e) => RunOutcome(1, [], ["Output Error: Could not format results as JSON - " + e])
        case None => RunOutcome(0, [Json(r)], [])
      else RunOutcome(0, TextReport(r, legend), [])
  }

  /** The closing legend line as main writes it: the thresholds given on the command line. */
  function LegendAsWritten(inv: Invocation): (l: Line)
    ensures l == Legend(Normalise(inv.positiveThreshold, inv.negativeThreshold))
            <==> Logical(inv.positiveThreshold, inv.negativeThreshold)
  {
    LegendLine(inv.positiveThreshold, inv.negativeThreshold)
  }

  /**
   * With illogical command-line thresholds the analyzer classifies with the
   * defaults, but the legend still states the supplied ones: a score of 0.0
   * reaches the stated positive threshold -0.5 and is not Positive.
   */
  lemma LegendAsWrittenMisleads()
    ensures var inv := Invocation(TextInput("fine"), Options(false, false, false), false, -0.5, 0.5);
            var legend := LegendAsWritten(inv);
            && 0.0 >= legend.positive
            && Classify(Normalise(inv.positiveThreshold, inv.negativeThreshold), 0.0) != Positive
  {
  }

  /** The legend line stating the thresholds the analyzer classifies with. */
  function Legend(t: Thresholds): (l: Line)
    ensures l.LegendLine?
    ensures Classify(t, t.positive) == Positive
    ensures forall p :: Classify(t, p) == Positive <==> p >= l.positive
    ensures forall p :: Classify(t, p) == Negative <==> p < l.positive && p <= l.negative
  {
    LegendLine(t.positive, t.negative)
  }

  /** The legend main prints describes the classification of every score in the report. */
  lemma LegendDescribesClassification(inv: Invocation, p: real)
    ensures var t := Normalise(inv.positiveThreshold, inv.negativeThreshold);
            var l := Legend(t);
            && (Classify(t, p) == Positive <==> p >= l.positive)
            && (Classify(t, p) == Negative <==> p < l.positive && p <= l.negative)
            && (Classify(t, p) == Neutral <==> l.negative < p < l.positive)
  {
  }

  /**
   * main after argument parsing: build the analyzer, analyse the text or the
   * file, then present the result. File contents, the engine's answers and
   * a JSON serialisation failure are inputs.
   */
  method Run(inv: Invocation, read: ReadOutcome, answer: Answer, jsonFailure: Option<string>) returns (o: RunOutcome)
    ensures o == Present(Dispatch(inv, read, answer), inv.json, jsonFailure,
                         Legend(Normalise(inv.positiveThreshold, inv.negativeThreshold)))
  {
    var analyzer := new SentimentAnalyzer(inv.positiveThreshold, inv.negativeThreshold);
    var results: Option<Result> := None;
    match inv.input {
      case TextInput(text) =>
        if text != [] {
          var r := analyzer.AnalyzeText(Str(text), inv.options, answer);
          results := Some(r);
        }
      case FileInput(path) =>
        if path != [] {
          var r := analyzer.AnalyzeFile(path, read, inv.options, answer);
          results := Some(r);
        }
    }
    if results.None? {
      o := RunOutcome(1, [], []);
      return;
    }
    var r := results.value;
    if r.Failed() {
      o := RunOutcome(1, [], ["Operation failed: " + r.error.value.message]);
      return;
    }
    if inv.json {
      match jsonFailure
      case Some(e) =>
        o := RunOutcome(1, [], ["Output Error: Could not format results as JSON - " + e]);
      case None =>
        o := RunOutcome(0, [Json(r)], []);
    } else {
      var lines := RenderText(r, Legend(analyzer.Config()));
      o := RunOutcome(0, lines, []);
    }
  }
}
