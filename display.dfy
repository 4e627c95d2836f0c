/**
 * The pure rules of the plain-text report (sentiment.py, main): how long
 * sentences are shortened, which noun phrases are listed, and how labels
 * and counts are written.
 */
module Display {

  import opened Classifier

  /** The longest sentence text shown, and how much of a longer one is kept before "...". */
  const MaxShown: nat := 80
  const KeptPrefix: nat := 77

  /** A sentence shorter than 80 characters is shown whole; a longer one as its first 77 characters and "...". */
  function Ellipsize(s: string): (r: string)
    ensures |r| <= MaxShown
    ensures |s| < MaxShown ==> r == s
    ensures |s| >= MaxShown ==> |r| == MaxShown && r[..KeptPrefix] == s[..KeptPrefix] && r[KeptPrefix..] == "..."
  {
    if |s| < MaxShown then s else s[..KeptPrefix] + "..."
  }

  /** The most noun phrases the report lists. */
  const MaxPhrases: nat := 10

  /** The phrases listed and whether the "..." marker follows them. */
  datatype PhraseView = PhraseView(shown: seq<string>, more: bool)

  /**
   * The first ten phrases, in order, and a marker exactly when some were
   * left out.
   */
  function ChoosePhrases(ps: seq<string>): (v: PhraseView)
    ensures |v.shown| <= MaxPhrases
    ensures v.shown <= ps
    ensures v.more <==> |ps| > MaxPhrases
    ensures !v.more <==> v.shown == ps
    ensures v.more ==> |v.shown| == MaxPhrases
  {
    if |ps| > MaxPhrases then PhraseView(ps[..MaxPhrases], true) else PhraseView(ps, false)
  }

  /** The strings joined with the separator between consecutive ones. */
  function Join(sep: string, xs: seq<string>): string {
    if |xs| == 0 then "" else if |xs| == 1 then xs[0] else Join(sep, xs[..|xs| - 1]) + sep + xs[|xs| - 1]
  }

  /** The phrase line: two spaces, the shown phrases separated by ", ", then "..." when some were left out. */
  function PhraseText(v: PhraseView): string {
    "  " + Join(", ", v.shown) + (if v.more then "..." else "")
  }

  /** The label as the report and the result dictionary spell it. */
  function Label(c: Classification): string {
    match c
    case Positive => "Positive"
    case Negative => "Negative"
    case Neutral => "Neutral"
  }

  /** The decimal digit character for a value below ten. */
  function Digit(d: nat): (c: char)
    requires d < 10
    ensures '0' <= c <= '9' && c as int - '0' as int == d
  {
    ('0' as int + d) as char
  }

  /** A natural number written in decimal, without leading zeros. */
  function DecimalString(n: nat): (s: string)
    ensures |s| >= 1
    ensures forall i :: 0 <= i < |s| ==> '0' <= s[i] <= '9'
    ensures s[0] == '0' <==> n == 0
    decreases n
  {
    if n < 10 then [Digit(n)] else DecimalString(n / 10) + [Digit(n % 10)]
  }

  /** The number a string of decimal digits denotes. */
  function DecimalValue(s: string): nat
    requires forall i :: 0 <= i < |s| ==> '0' <= s[i] <= '9'
  {
    if s == [] then 0 else DecimalValue(s[..|s| - 1]) * 10 + (s[|s| - 1] as int - '0' as int)
  }

  /** Writing a count in decimal loses nothing: reading it back gives the count. */
  lemma {:induction false} DecimalRoundTrip(n: nat)
    ensures DecimalValue(DecimalString(n)) == n
    decreases n
  {
    if n >= 10 {
      var s := DecimalString(n);
      assert s[..|s| - 1] == DecimalString(n / 10);
      DecimalRoundTrip(n / 10);
    }
  }
}
