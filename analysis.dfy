/**
 * The analyzer: validation of the input text, aggregation of the engine's
 * answers into a result dictionary, recovery from per-sentence and
 * language-detection failures, and file analysis (sentiment.py,
 * SentimentAnalyzer.analyze_text and analyze_file).
 */
module Analysis {

  import opened Wrappers
  import opened Classifier
  import opened Engine

  /** The argument handed to the analysis: a string, or a value of any other type. */
  datatype TextArg = Str(value: string) | NotAString

  /** Python's notion of a whitespace character, the characters that str.strip removes. */
  function IsSpace(c: char): (b: bool)
    ensures c == ' ' || c == '\t' || c == '\n' || c == '\r' ==> b
    ensures ('0' <= c <= '9') || ('a' <= c <= 'z') || ('A' <= c <= 'Z') ==> !b
    ensures b ==> c as int <= 0x3000
  {
    var n := c as int;
    (9 <= n <= 13) || (28 <= n <= 32) || n == 0x85 || n == 0xA0 || n == 0x1680
    || (0x2000 <= n <= 0x200A) || n == 0x2028 || n == 0x2029 || n == 0x202F
    || n == 0x205F || n == 0x3000
  }

  /** The string without its leading whitespace. */
  function TrimStart(s: string): (r: string)
    ensures |r| <= |s| && r == s[|s| - |r|..]
    ensures forall i :: 0 <= i < |s| - |r| ==> IsSpace(s[i])
    ensures r == [] || !IsSpace(r[0])
    ensures r == [] <==> forall i :: 0 <= i < |s| ==> IsSpace(s[i])
  {
    if s != [] && IsSpace(s[0]) then
      var r := TrimStart(s[1..]);
      assert s[1..][|s| - 1 - |r|..] == s[|s| - |r|..];
      r
    else s
  }

  /** The string without its trailing whitespace. */
  function TrimEnd(s: string): (r: string)
    ensures |r| <= |s| && r == s[..|r|]
    ensures forall i :: |r| <= i < |s| ==> IsSpace(s[i])
    ensures r == [] || !IsSpace(r[|r| - 1])
    ensures r == [] <==> forall i :: 0 <= i < |s| ==> IsSpace(s[i])
  {
    if s != [] && IsSpace(s[|s| - 1]) then
      var r := TrimEnd(s[..|s| - 1]);
      assert s[..|s| - 1][..|r|] == s[..|r|];
      r
    else s
  }

  /** Python's str.strip() without arguments. */
  function Strip(s: string): (r: string)
    ensures r == [] <==> forall i :: 0 <= i < |s| ==> IsSpace(s[i])
  {
    TrimEnd(TrimStart(s))
  }

  /**
   * The guard of analyze_text: a falsy text, a non-string, or a string that
   * strips to nothing. These are exactly the non-strings and the strings
   * made only of whitespace, the empty string included.
   */
  function Blank(text: TextArg): (b: bool)
    ensures b <==> text.NotAString? || forall i :: 0 <= i < |text.value| ==> IsSpace(text.value[i])
  {
    match text
    case NotAString => true
    case Str(s) => s == [] || Strip(s) == []
  }

  datatype Options = Options(sentenceLevel: bool, nounPhrases: bool, detectLanguage: bool)

  datatype Score = Score(polarity: real, subjectivity: real, classification: Classification)

  /** One entry of the 'sentences' list: full scores, or the sentence's text and its error. */
  datatype SentenceEntry =
    | Analysed(text: string, score: Score)
    | Unanalysed(text: string, error: string)

  datatype TextStats = TextStats(wordCount: nat, sentenceCount: nat)

  datatype ErrorKind = EmptyInput | EngineError | InternalError | FileNotFound | IOError | ResourceExhausted

  /** The 'error' value together with the kind of failure that produced it. */
  datatype Failure = Failure(kind: ErrorKind, message: string)

  /**
   * The result dictionary; each field is one key, present (Some) or absent (None).
   * The timing keys are not part of this model.
   */
  datatype Result = Result(
    error: Option<Failure>,
    overall: Option<Score>,
    sentences: Option<seq<SentenceEntry>>,
    textStats: Option<TextStats>,
    nounPhrases: Option<seq<string>>,
    detectedLanguage: Option<string>,
    detectedLanguageError: Option<string>)
  {
    predicate Failed() {
      error.Some?
    }

    /** 'error' is the only key. */
    predicate ErrorOnly() {
      error.Some? && overall.None? && sentences.None? && textStats.None?
      && nounPhrases.None? && detectedLanguage.None? && detectedLanguageError.None?
    }

    predicate LanguageExclusive() {
      !(detectedLanguage.Some? && detectedLanguageError.Some?)
    }
  }

  /** The dictionary with no key in it. */
  const NoKeys: Result := Result(None, None, None, None, None, None, None)

  function ErrorResult(f: Failure): (r: Result)
    ensures r.ErrorOnly() && r.error == Some(f)
  {
    NoKeys.(error := Some(f))
  }

  const EmptyInputMessage: string :=
    "The text provided is devoid of content, My Lord. Analysis requires substance."

  /** The error for an exception raised by the engine outside the recovered places. */
  function EngineFailure(cls: FailureClass, message: string): Failure {
    match cls
    case LibraryException =>
      Failure(EngineError, "A TextBlob-specific issue occurred: " + message + ". The library appears... temperamental.")
    case OtherException =>
      Failure(InternalError, "A critical unexpected error arose during analysis: " + message + ". Immediate attention required.")
  }

  /** The entry recorded for one sentence. */
  function Entry(t: Thresholds, o: SentenceOutcome): SentenceEntry {
    match o
    case Scored(text, p, s) => Analysed(text, Score(p, s, Classify(t, p)))
    case Failed(text, m) => Unanalysed(text, m)
  }

  /**
   * The 'sentences' list for the engine's sentences, built in the order the
   * loop of analyze_text appends them: one entry per sentence, in order, an
   * error exactly where the engine failed, and the classification of its
   * polarity everywhere else.
   */
  function Entries(t: Thresholds, os: seq<SentenceOutcome>): (es: seq<SentenceEntry>)
    ensures |es| == |os|
    ensures forall i :: 0 <= i < |os| ==> es[i].text == os[i].text
    ensures forall i :: 0 <= i < |os| ==> (es[i].Unanalysed? <==> os[i].Failed?)
    ensures forall i :: 0 <= i < |os| && os[i].Failed? ==> es[i].error == os[i].message
    ensures forall i :: 0 <= i < |os| && os[i].Scored? ==>
              es[i].score == Score(os[i].polarity, os[i].subjectivity, Classify(t, os[i].polarity))
  {
    if os == [] then [] else Entries(t, os[..|os| - 1]) + [Entry(t, os[|os| - 1])]
  }

  /** A sentence that fails changes its own entry and no other. */
  lemma SentenceFailureIsolated(t: Thresholds, os: seq<SentenceOutcome>, k: nat, message: string)
    requires k < |os|
    ensures Entries(t, os[k := Failed(os[k].text, message)])
            == Entries(t, os)[k := Unanalysed(os[k].text, message)]
  {
  }

  /**
   * What every successful result satisfies: the overall score and the text
   * statistics are present, every score carries the classification of its
   * polarity, there is one sentence entry per counted sentence, and the
   * two language keys exclude each other.
   */
  predicate Consistent(t: Thresholds, r: Result) {
    && r.error.None?
    && r.overall.Some?
    && r.textStats.Some?
    && r.overall.value.classification == Classify(t, r.overall.value.polarity)
    && r.LanguageExclusive()
    && (r.sentences.Some? ==>
          && |r.sentences.value| == r.textStats.value.sentenceCount
          && forall i :: 0 <= i < |r.sentences.value| && r.sentences.value[i].Analysed? ==>
               r.sentences.value[i].score.classification == Classify(t, r.sentences.value[i].score.polarity))
  }

  /** The dictionary analyze_text builds once the engine has answered. */
  function Report(t: Thresholds, opts: Options, out: Output): Result {
    Result(
      None,
      Some(Score(out.polarity, out.subjectivity, Classify(t, out.polarity))),
      if opts.sentenceLevel then Some(Entries(t, out.sentences)) else None,
      Some(TextStats(out.wordCount, |out.sentences|)),
      if opts.nounPhrases then Some(out.nounPhrases) else None,
      if opts.detectLanguage && out.language.Detected? then Some(out.language.code) else None,
      if opts.detectLanguage && out.language.Undetected? then Some(out.language.message) else None)
  }

  /** The result of analyze_text for a text, its flags and the engine's answers. */
  function Analyze(t: Thresholds, text: TextArg, opts: Options, answer: Answer): (r: Result)
    ensures r.Failed() <==> Blank(text) || answer.Raised?
    ensures r.Failed() ==> r.ErrorOnly()
    ensures Blank(text) ==> r.error == Some(Failure(EmptyInput, EmptyInputMessage))
    ensures !Blank(text) && answer.Raised? ==>
              r.error.value.kind == (if answer.failure == LibraryException then EngineError else InternalError)
    ensures r.LanguageExclusive()
    ensures !r.Failed() ==> Consistent(t, r)
    ensures !r.Failed() ==>
              && r.overall.value.polarity == answer.output.polarity
              && r.overall.value.subjectivity == answer.output.subjectivity
              && r.textStats.value == TextStats(answer.output.wordCount, |answer.output.sentences|)
              && (r.sentences.Some? <==> opts.sentenceLevel)
              && (r.nounPhrases.Some? <==> opts.nounPhrases)
              && (r.nounPhrases.Some? ==> r.nounPhrases.value == answer.output.nounPhrases)
              && ((r.detectedLanguage.Some? || r.detectedLanguageError.Some?) <==> opts.detectLanguage)
              && (r.detectedLanguage.Some? <==> opts.detectLanguage && answer.output.language.Detected?)
    ensures !r.Failed() && r.sentences.Some? ==> r.sentences.value == Entries(t, answer.output.sentences)
    ensures !r.Failed() && r.detectedLanguage.Some? ==> r.detectedLanguage.value == answer.output.language.code
    ensures !r.Failed() && r.detectedLanguageError.Some? ==> r.detectedLanguageError.value == answer.output.language.message
    ensures !r.Failed() && r.sentences.Some? ==>
              && |r.sentences.value| == |answer.output.sentences|
              && forall i :: 0 <= i < |answer.output.sentences| ==>
                   && r.sentences.value[i].text == answer.output.sentences[i].text
                   && (r.sentences.value[i].Unanalysed? <==> answer.output.sentences[i].Failed?)
  {
    if Blank(text) then ErrorResult(Failure(EmptyInput, EmptyInputMessage))
    else match answer
      case Raised(cls, m) => ErrorResult(EngineFailure(cls, m))
      case Completed(out) => Report(t, opts, out)
  }

  /**
   * A score is Negative exactly when its polarity is at or below the
   * negative threshold without reaching the positive one.
   */
  predicate NegativeBand(t: Thresholds, s: Score) {
    s.classification == Negative <==> s.polarity <= t.negative && s.polarity != t.positive
  }

  /** Under the constructor's invariant, every score of a result lies in the Negative band it should. */
  lemma AnalyzeKeepsNegativeBand(t: Thresholds, text: TextArg, opts: Options, answer: Answer)
    requires Logical(t.positive, t.negative)
    ensures var r := Analyze(t, text, opts, answer);
            && (r.overall.Some? ==> NegativeBand(t, r.overall.value))
            && (r.sentences.Some? ==>
                  forall i :: 0 <= i < |r.sentences.value| && r.sentences.value[i].Analysed? ==>
                    NegativeBand(t, r.sentences.value[i].score))
  {
  }

  /** The empty string, blanks and non-strings are all rejected with the error key alone. */
  lemma BlankInputsRejected(t: Thresholds, opts: Options, answer: Answer)
    ensures Analyze(t, Str(""), opts, answer) == ErrorResult(Failure(EmptyInput, EmptyInputMessage))
    ensures Analyze(t, Str("   "), opts, answer) == ErrorResult(Failure(EmptyInput, EmptyInputMessage))
    ensures Analyze(t, Str(" \t\n"), opts, answer) == ErrorResult(Failure(EmptyInput, EmptyInputMessage))
    ensures Analyze(t, NotAString, opts, answer) == ErrorResult(Failure(EmptyInput, EmptyInputMessage))
  {
    var rejected := ErrorResult(Failure(EmptyInput, EmptyInputMessage));
    assert Blank(Str("")) && Blank(Str("   ")) && Blank(Str(" \t\n")) && Blank(NotAString);
    assert Analyze(t, Str(""), opts, answer) == rejected;
    assert Analyze(t, Str("   "), opts, answer) == rejected;
    assert Analyze(t, Str(" \t\n"), opts, answer) == rejected;
  }

  /**
   * A failing sentence does not abort the analysis: the result is the one
   * the engine's other answers give, with only that sentence's entry turned
   * into an error entry.
   */
  lemma SentenceFailureDoesNotAbort(t: Thresholds, text: TextArg, opts: Options, out: Output, k: nat, message: string)
    requires !Blank(text) && k < |out.sentences|
    ensures var failing := out.(sentences := out.sentences[k := Failed(out.sentences[k].text, message)]);
            var before := Analyze(t, text, opts, Completed(out));
            var after := Analyze(t, text, opts, Completed(failing));
            && !after.Failed()
            && after.(sentences := None) == before.(sentences := None)
            && (opts.sentenceLevel ==>
                  after.sentences.value == before.sentences.value[k := Unanalysed(out.sentences[k].text, message)])
  {
    SentenceFailureIsolated(t, out.sentences, k, message);
  }

  /** How a failed read of a file is reported. */
  datatype ReadOutcome =
    | Read(text: string)
    | NotFound
    | ReadError(cause: string)
    | OutOfMemory
    | Unforeseen(cause: string)

  function ReadFailure(path: string, read: ReadOutcome): (f: Failure)
    requires !read.Read?
  {
    match read
    case NotFound =>
      Failure(FileNotFound, "File not found at path: " + path + ". Ensure its location is correct.")
    case ReadError(e) =>
      Failure(IOError, "Error reading file " + path + ": " + e + ". The file seems... resistant.")
    case OutOfMemory =>
      Failure(ResourceExhausted, "Memory Error: File " + path + " is too large to process with current resources.")
    case Unforeseen(e) =>
      Failure(InternalError, "An unexpected error occurred while processing file " + path + ": " + e + ". Consult the logs.")
  }

  /** The result of analyze_file: the text analysis of the content, or the read error alone. */
  function AnalyzeFileResult(t: Thresholds, path: string, read: ReadOutcome, opts: Options, answer: Answer): (r: Result)
    ensures read.Read? ==> r == Analyze(t, Str(read.text), opts, answer)
    ensures r.Failed() <==> !read.Read? || Blank(Str(read.text)) || answer.Raised?
    ensures r.Failed() ==> r.ErrorOnly()
    ensures read.NotFound? ==>
              r.error.value.kind == FileNotFound && "File not found at path: " + path <= r.error.value.message
    ensures read.ReadError? ==> r.error.value.kind == IOError
    ensures read.OutOfMemory? ==> r.error.value.kind == ResourceExhausted
    ensures read.Unforeseen? ==> r.error.value.kind == InternalError
  {
    if read.Read? then Analyze(t, Str(read.text), opts, answer) else ErrorResult(ReadFailure(path, read))
  }

  /**
   * The analyzer object. Its thresholds are set once by the constructor and
   * never reassigned, so the invariant Valid() holds for its whole life.
   */
  class SentimentAnalyzer {
    const positiveThreshold: real
    const negativeThreshold: real

    function Config(): Thresholds {
      Thresholds(positiveThreshold, negativeThreshold)
    }

    predicate Valid() {
      Logical(positiveThreshold, negativeThreshold)
    }

    /** Keeps the supplied thresholds when they are logical and falls back to (0.1, -0.1) otherwise. */
    constructor (positive: real, negative: real)
      ensures Valid()
      ensures Logical(positive, negative) ==> positiveThreshold == positive && negativeThreshold == negative
      ensures !Logical(positive, negative) ==> positiveThreshold == 0.1 && negativeThreshold == -0.1
      ensures Config() == Normalise(positive, negative)
    {
      if !Logical(positive, negative) {
        positiveThreshold := DefaultPositive;
        negativeThreshold := DefaultNegative;
      } else {
        positiveThreshold := positive;
        negativeThreshold := negative;
      }
    }

    /** Builds the result dictionary key by key, appending one sentence entry per loop iteration. */
    method AnalyzeText(text: TextArg, opts: Options, answer: Answer) returns (r: Result)
      requires Valid()
      ensures r == Analyze(Config(), text, opts, answer)
      ensures r.overall.Some? ==> NegativeBand(Config(), r.overall.value)
      ensures r.sentences.Some? ==>
                forall i :: 0 <= i < |r.sentences.value| && r.sentences.value[i].Analysed? ==>
                  NegativeBand(Config(), r.sentences.value[i].score)
    {
      if Blank(text) {
        r := ErrorResult(Failure(EmptyInput, EmptyInputMessage));
      } else {
        match answer {
          case Raised(cls, m) =>
            r := ErrorResult(EngineFailure(cls, m));
          case Completed(out) =>
            r := Collect(out, opts);
        }
      }
      AnalyzeKeepsNegativeBand(Config(), text, opts, answer);
    }

    /** The dictionary built from a completed engine answer, key by key as analyze_text does. */
    method Collect(out: Output, opts: Options) returns (r: Result)
      ensures r == Report(Config(), opts, out)
    {
      var t := Config();
      r := NoKeys;
      if opts.sentenceLevel {
        var entries: seq<SentenceEntry> := [];
        var i := 0;
        while i < |out.sentences|
          invariant 0 <= i <= |out.sentences|
          invariant entries == Entries(t, out.sentences[..i])
        {
          assert out.sentences[..i + 1][..i] == out.sentences[..i];
          entries := entries + [Entry(t, out.sentences[i])];
          i := i + 1;
        }
        assert out.sentences[..i] == out.sentences;
        r := r.(sentences := Some(entries));
      }
      r := r.(overall := Some(Score(out.polarity, out.subjectivity, Classify(t, out.polarity))));
      r := r.(textStats := Some(TextStats(out.wordCount, |out.sentences|)));
      if opts.nounPhrases {
        r := r.(nounPhrases := Some(out.nounPhrases));
      }
      if opts.detectLanguage {
        match out.language
        case Detected(code) =>
          r := r.(detectedLanguage := Some(code));
        case Undetected(message) =>
          r := r.(detectedLanguageError := Some(message));
      }
    }

    /** A read content is analysed and its result returned unchanged; a failed read yields its error alone. */
    method AnalyzeFile(path: string, read: ReadOutcome, opts: Options, answer: Answer) returns (r: Result)
      requires Valid()
      ensures r == AnalyzeFileResult(Config(), path, read, opts, answer)
    {
      match read
      case Read(text) =>
        r := AnalyzeText(Str(text), opts, answer);
      case _ =>
        r := ErrorResult(ReadFailure(path, read));
    }
  }
}
