/**
 * What the natural-language engine answers when the analyzer consults it.
 * The engine itself is not modelled: its answers are inputs to the analysis.
 */
module Engine {

  /** The engine's answer for one sentence: its scores, or the exception its sentiment raised. */
  datatype SentenceOutcome =
    | Scored(text: string, polarity: real, subjectivity: real)
    | Failed(text: string, message: string)

  /**
   * The language guess, or the message of the exception detection raised;
   * whichever exception it is, the analysis records its message and goes on.
   */
  datatype LanguageOutcome =
    | Detected(code: string)
    | Undetected(message: string)

  /** Everything the engine returns for a text that it processes without raising. */
  datatype Output = Output(
    polarity: real,
    subjectivity: real,
    sentences: seq<SentenceOutcome>,
    wordCount: nat,
    nounPhrases: seq<string>,
    language: LanguageOutcome)

  /** The library's own exception class, or any other exception. */
  datatype FailureClass = LibraryException | OtherException

  /** One consultation of the engine: it completes, or it raises outside the recovered places. */
  datatype Answer =
    | Completed(output: Output)
    | Raised(failure: FailureClass, message: string)
}
