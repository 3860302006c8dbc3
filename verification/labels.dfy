/**
 * The classifier-label normaliser (`parseLabel`): spaces become `_`, letters are lowercased,
 * and the result must be one of the five label spellings.
 */
module Labels {
  import opened Wrappers
  import opened Errors
  import opened Text
  import opened Messaging

  /** `label.replaceAll(" ", "_").toLowerCase()`. */
  function Normalise(raw: string): (n: string)
    ensures |n| == |raw|
    ensures forall i :: 0 <= i < |n| ==> n[i] != ' ' && !('A' <= n[i] <= 'Z')
    ensures forall i :: 0 <= i < |n| ==> n[i] == (if raw[i] == ' ' then '_' else LowerChar(raw[i]))
  {
    ToLower(ReplaceChar(raw, ' ', '_'))
  }

  /** The label spelled `n`, if any. */
  function LabelSpelled(n: string): (r: Option<Label>)
    ensures r.Some? <==> exists l :: LabelText(l) == n
    ensures r.Some? ==> LabelText(r.value) == n
  {
    if n == "very_negative" then assert LabelText(VeryNegative) == n; Some(VeryNegative)
    else if n == "negative" then assert LabelText(Negative) == n; Some(Negative)
    else if n == "neutral" then assert LabelText(Neutral) == n; Some(Neutral)
    else if n == "positive" then assert LabelText(Positive) == n; Some(Positive)
    else if n == "very_positive" then assert LabelText(VeryPositive) == n; Some(VeryPositive)
    else None
  }

  /** `parseLabel`: accepts exactly the raw labels whose normal form is one of the five spellings. */
  function ParseLabel(raw: string): (r: Result<Label, Error>)
    ensures r.Ok? <==> exists l :: LabelText(l) == Normalise(raw)
    ensures r.Ok? ==> LabelText(r.value) == Normalise(raw)
    ensures r.Err? ==> r.error == UnknownSentimentLabel(Normalise(raw))
  {
    match LabelSpelled(Normalise(raw))
    case Some(l) => Ok(l)
    case None => Err(UnknownSentimentLabel(Normalise(raw)))
  }

  /** A string without spaces or upper-case ASCII letters is its own normal form. */
  lemma NormaliseFixed(s: string)
    requires forall i :: 0 <= i < |s| ==> s[i] != ' ' && !('A' <= s[i] <= 'Z')
    ensures Normalise(s) == s
  {
  }

  /** Normalisation is idempotent. */
  lemma NormaliseIdempotent(raw: string)
    ensures Normalise(Normalise(raw)) == Normalise(raw)
  {
    NormaliseFixed(Normalise(raw));
  }

  /** Parsing depends on the raw label only through its normal form. */
  lemma ParseLabelOnlySeesNormalForm(raw: string)
    ensures ParseLabel(raw) == ParseLabel(Normalise(raw))
  {
    NormaliseIdempotent(raw);
  }

  /** Every label spelling parses back to its label. */
  lemma ParseLabelText(l: Label)
    ensures ParseLabel(LabelText(l)) == Ok(l)
  {
    var s := LabelText(l);
    assert forall i :: 0 <= i < |s| ==> s[i] == '_' || 'a' <= s[i] <= 'z';
    NormaliseFixed(s);
    var r := ParseLabel(s);
    LabelTextInjective(r.value, l);
  }

  /** The classifier's own spelling of a label is accepted. */
  lemma ParseLabelVeryNegative()
    ensures ParseLabel("Very Negative") == Ok(VeryNegative)
  {
    var n := Normalise("Very Negative");
    assert n == "very_negative";
    LabelTextInjective(ParseLabel("Very Negative").value, VeryNegative);
  }

  /** A label outside the five is rejected, naming its normal form. */
  lemma ParseLabelUnknown()
    ensures ParseLabel("SOMETHING ELSE") == Err(UnknownSentimentLabel("something_else"))
  {
    var n := Normalise("SOMETHING ELSE");
    assert n == "something_else";
    assert LabelSpelled(n) == None;
  }
}
