# Customer sentiment analyser: a verified model of its own logic

The repository is one Python script around the TextBlob library. TextBlob
does all of the linguistic work: splitting sentences, scoring polarity and
subjectivity, counting words, extracting noun phrases and guessing the language.
This project models the logic the script adds around it:

- **Thresholds** (`Classifier`). `SentimentAnalyzer.__init__` keeps the supplied
  thresholds only when `-1 <= negative <= positive <= 1` holds. Otherwise it
  uses exactly `(0.1, -0.1)`.
- **Classification** (`Classifier.Classify`). This is the three-way rule of
  `classify_sentiment`. Positive is tested first.
- **Aggregation** (`Analysis`). This is how `analyze_text` turns the engine's
  answers into the result dictionary:
  - blank input is rejected;
  - per-sentence failures are recorded in their own entry and do not abort the run;
  - a language-detection failure is recorded and does not abort the run;
  - any other engine exception yields an error-only result.
- **File analysis** (`Analysis`). `analyze_file` returns the text result
  unchanged, or the read error on its own.
- **Presentation** (`Cli`). This is what `main` does with a result:
  - choosing the text or the file analysis;
  - exit code 1 with nothing on standard output for an error result;
  - the JSON path;
  - the lines of the plain-text report, including the noun-phrase cut-off at
    ten and the 80-character sentence ellipsis (`Display`).

The analyzer is a class, `Analysis.SentimentAnalyzer`. Its two thresholds are
`const` fields because the script never reassigns them after `__init__`. The
class invariant `Valid()` is set up by the constructor and therefore holds for
the object's whole life. `AnalyzeText` and `AnalyzeFile` require it, and
`AnalyzeText` uses it to promise that every score it returns lies in the
right Negative band. `Collect`, the part of `AnalyzeText` that runs once the
engine has answered, builds the result key by key. It adds sentence entries
one loop iteration at a time, as the script does. The postconditions tie the
result to the specification function `Analysis.Analyze`, and the properties
are proved about that function. `Cli.RenderText` is the
loop of `main` that prints the sentence blocks. Its specification function is
`Cli.TextReport`.

The engine is not modelled. Its answers are an input value, `Engine.Answer`. A run
either completes with an `Engine.Output` or raises an exception outside the
places the script recovers from. An `Engine.Output` holds:

- the overall scores;
- one `Scored` or `Failed` outcome per sentence;
- the word count;
- the noun phrases;
- the language outcome.

The file read is an input in the same way (`Analysis.ReadOutcome`). So is a
JSON serialisation failure (`jsonFailure`).

Thresholds and scores are `real`. The script only compares them, so no
floating-point arithmetic is involved.

Where the code and its own docstrings, help texts and comments differ, the model follows the code:

- A score equal to both thresholds is Positive. The docstring says
  "Polarity value <= this is classified as negative" (sentiment.py:33), and
  the `--neg-threshold` help text says "Values <= threshold are Negative"
  (sentiment.py:280). Both are true only when the two thresholds differ
  (`Classifier.LogicalBands`).
- `--text ""` and `--file ""` are falsy in Python. `main` then has no result
  and exits with 1 from its safeguard branch, without an "Operation failed"
  message (`Cli.Dispatch`, `Cli.Present`). The comment there says this
  "Should not happen with required=True" (sentiment.py:326).

A note on `Display.Ellipsize`: a sentence text is kept whole only when it is
shorter than 80 characters (sentiment.py:388). A text of exactly 80
characters is therefore still cut to its first 77 characters plus `...`.

## Model

| member | source | states |
|---|---|---|
| `Classifier.Normalise` | sentiment.py:37-44 | the resulting thresholds are always logical; they equal the supplied pair exactly when that pair is logical, and are exactly (0.1, -0.1) otherwise |
| `Classifier.NormaliseIdempotent` | sentiment.py:37-44 | normalising an already normalised pair leaves it unchanged |
| `Classifier.Classify` | sentiment.py:58-63 | Positive iff the score reaches the positive threshold; Negative iff it is below the positive and at or below the negative; Neutral iff strictly between; so the three cases partition all scores |
| `Classifier.TieIsPositive` | sentiment.py:58-63 | a score equal to both thresholds is Positive, because Positive is tested first |
| `Classifier.LogicalBands` | sentiment.py:58-63 | under the constructor's invariant, Negative means at or below the negative threshold and not equal to the positive one |
| `Classifier.ClassifyMonotone` | sentiment.py:58-63 | a higher score never gets a lower label (Negative < Neutral < Positive), for any thresholds |
| `Analysis.ErrorResult` | sentiment.py:82 | an error result has the `error` key and no other key |
| `Analysis.IsSpace` | sentiment.py:79 | the whitespace set of Python's `str.strip`: space, tab, newline and carriage return are whitespace; ASCII letters and digits are not |
| `Analysis.TrimStart` | sentiment.py:79 | removes exactly the leading whitespace: the result is a suffix of the text, every removed character is whitespace, the result is empty or starts with a non-space, and it is empty iff the text is all whitespace |
| `Analysis.TrimEnd` | sentiment.py:79 | removes exactly the trailing whitespace: the result is a prefix of the text, every removed character is whitespace, the result is empty or ends with a non-space, and it is empty iff the text is all whitespace |
| `Analysis.Strip` | sentiment.py:79 | `text.strip()` is empty iff every character of the text is whitespace |
| `Analysis.Blank` | sentiment.py:79 | the guard `not text or not isinstance(text, str) or not text.strip()` holds exactly for non-strings and for strings made only of whitespace, the empty string included |
| `Analysis.Entries` | sentiment.py:93-109 | one entry per engine sentence, in order, with the sentence's text; an error entry exactly where the engine failed, carrying its message; elsewhere the scores and the classification of the polarity |
| `Analysis.SentenceFailureIsolated` | sentiment.py:96-109 | a sentence that fails turns its own entry into an error entry and changes no other entry |
| `Analysis.Analyze` | sentiment.py:79-173 | the result is an error iff the input is blank or the engine raised; an error result carries only `error`, with the kind that matches the exception class; a success has `overall` with the engine's scores and their classification, `text_stats` with the engine's word and sentence counts, `sentences` iff sentence-level mode (exactly the per-sentence entries `Entries` gives: one per sentence, the engine's scores or its failure message), noun phrases iff requested, a language key iff requested holding the engine's code or its failure message, and never both language keys |
| `Analysis.AnalyzeKeepsNegativeBand` | sentiment.py:37-63 | under the constructor's invariant, the overall score and every scored sentence are Negative exactly when their polarity is at or below the negative threshold and not equal to the positive one |
| `Analysis.BlankInputsRejected` | sentiment.py:79-82 | the empty string, whitespace-only strings and a non-string all yield the empty-input error alone |
| `Analysis.SentenceFailureDoesNotAbort` | sentiment.py:92-117 | making one sentence fail leaves the result a success, with every key except `sentences` unchanged and only that sentence's entry changed |
| `Analysis.AnalyzeFileResult` | sentiment.py:188-215 | a read file yields exactly the text analysis of its content; a failed read yields an error-only result of kind FileNotFound (message starting "File not found at path: " and the path), IOError, ResourceExhausted or InternalError |
| `Analysis.SentimentAnalyzer.constructor` | sentiment.py:27-46 | establishes the invariant; keeps the supplied thresholds when logical, else sets exactly (0.1, -0.1) |
| `Analysis.SentimentAnalyzer.AnalyzeText` | sentiment.py:65-173 | requires the class invariant; the result is the one `Analyze` specifies for the analyzer's thresholds, and every score in it lies in the Negative band the invariant gives |
| `Analysis.SentimentAnalyzer.Collect` | sentiment.py:89-162 | the dictionary built key by key, with the loop that appends one sentence entry per engine sentence, is the success result `Analyze` specifies |
| `Analysis.SentimentAnalyzer.AnalyzeFile` | sentiment.py:175-215 | requires the class invariant; delegates a read content to `AnalyzeText` and returns its result unchanged; otherwise returns the read error alone |
| `Display.Ellipsize` | sentiment.py:388 | the shown text is at most 80 characters; a text shorter than 80 is shown whole; a longer one is exactly 80 characters, its first 77 followed by `...` |
| `Display.ChoosePhrases` | sentiment.py:375-376 | at most ten phrases are listed, as a prefix of the list in order; the `...` marker appears iff there are more than ten; without a marker the whole list is listed |
| `Display.DecimalString` | sentiment.py:362-363 | a count is written as a non-empty string of digits with no leading zero |
| `Display.DecimalRoundTrip` | sentiment.py:362-363 | reading the written count back gives the count |
| `Cli.Dispatch` | sentiment.py:305-322 | no result iff the chosen argument is the empty string; otherwise the text analysis or the file analysis with the normalised thresholds and the given flags |
| `Cli.PhraseLines` | sentiment.py:371-376 | nothing is printed for a missing or empty phrase list; otherwise a heading and the line of chosen phrases |
| `Cli.EntryLines` | sentiment.py:382-392 | a failed sentence is reported on a single line; a scored one on four |
| `Cli.SentenceSection` | sentiment.py:379-392 | the sentence section has one line per failed entry and four per scored entry |
| `Cli.TextReport` | sentiment.py:349-404 | the report opens with the banner and closes with the legend; it shows the overall classification line whenever the result has `overall`, the detected language whenever one was detected, and the sentence-level heading whenever the result has `sentences` |
| `Cli.RenderText` | sentiment.py:349-404 | the lines printed by the loop over sentence entries are exactly the report `TextReport` specifies |
| `Cli.Present` | sentiment.py:325-404 | exit code 0 iff there is a result, it is not an error and JSON output did not fail; a non-zero exit is 1 with nothing on standard output; an error result puts "Operation failed: " and its message on standard error; on success the output is the JSON document or the text report |
| `Cli.LegendAsWritten` | sentiment.py:404 | the legend as written agrees with the thresholds the analyzer classifies with exactly when the supplied thresholds are logical |
| `Cli.LegendAsWrittenMisleads` | sentiment.py:404 | with thresholds (-0.5, 0.5) the printed legend names -0.5 as the positive threshold, yet a score of 0.0 is not classified Positive |
| `Cli.Legend` | sentiment.py:404 | the corrected legend describes the active rule: Positive iff the score reaches its positive value, Negative iff below that and at or below its negative value |
| `Cli.LegendDescribesClassification` | sentiment.py:404 | for every score and every command line, the corrected legend's thresholds give the classification the report shows |
| `Cli.Run` | sentiment.py:299-404 | main after argument parsing produces exactly the outcome `Present` gives for the dispatched result, with the corrected legend |

## Left out

- TextBlob: sentence splitting, scoring, word counting, noun-phrase extraction and language detection. These come from a foreign library. Their answers are the input `Engine.Answer`.
- When the engine raises: the model does not record at which call (the TextBlob constructor, `.sentences`, `.sentiment`, `.words`, `.noun_phrases`). Whatever the call, the result is the error alone.
- Logging: the warning for illogical thresholds, all other log calls, and the `--log-level` setting. These only write to standard error through the logging module.
- `analysis_timestamp`, `processing_time_seconds` and the "Processing Time" report line. These read the wall clock and subtract floats.
- Reading the file. The contents or the exception are the input `Analysis.ReadOutcome`.
- Argument parsing by argparse, including its rejection of a missing or doubled input option. `Cli.Invocation` is the parsed command line.
- `json.dumps`. The JSON document is the abstract line `Cli.Json(result)`. A `TypeError` from it is the input `jsonFailure`.
- Number formatting. The `.4f` score format and Python's float notation in the legend are the abstract lines `Cli.Figure` and `Cli.LegendLine`.
- The exception classes themselves. Only the library-specific/other split (`Engine.FailureClass`) is kept, because it chooses the error message and kind. The two `except` branches of language detection store the same message and differ only in log level, so `Engine.Undetected` carries just the message.
- A `BaseException` that is not an `Exception` (such as a keyboard interrupt) escaping the handlers.
- Cli.Run: uses the corrected legend (see Findings), so its closing line differs from the script's whenever the supplied thresholds are illogical.

## Findings

| source | as written | input that shows it | evidently intended | confidence | as-written member | corrected member |
|---|---|---|---|---|---|---|
| sentiment.py:404 | the legend prints the command-line values `args.pos_threshold` and `args.neg_threshold` | `--pos-threshold -0.5 --neg-threshold 0.5`: the analyzer falls back to (0.1, -0.1), so 0.0 is Neutral, but the legend says scores >= -0.5 are Positive | the legend prints the thresholds the analyzer classifies with | medium; not executed | `Cli.LegendAsWritten` | `Cli.Legend` |

`Cli.LegendAsWritten` is the legend line as the script writes it. Its
contract proves that it agrees with the corrected legend exactly when the
supplied thresholds are logical. `Cli.LegendAsWrittenMisleads` exhibits a
concrete counterexample. `Cli.Run` uses `Cli.Legend` applied to the
analyzer's own thresholds. `Cli.LegendDescribesClassification` proves that
this legend matches every classification in the report.
