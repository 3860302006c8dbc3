/**
 * The free-text output parser shared by the background script (`parseTextGenerationOutput`)
 * and the worker (`parseOutput`). Each of the two regular expressions
 *
 *   "?sentiment"?\s*:\s*"?(positive|negative|neutral)"?
 *   "?confidence"?\s*:\s*([0-9]*\.?[0-9]+)
 *
 * is modelled as an anchored matcher (`SentimentAt`, `ConfidenceAt`) plus a leftmost search
 * (`Leftmost`). Every quantifier in them is greedy and none can profitably backtrack, so each
 * anchored matcher is a deterministic scan.
 */
module OutputParser {
  import opened Wrappers
  import opened Errors
  import opened Text
  import opened Messaging

  const SentimentKey: string := "sentiment"
  const ConfidenceKey: string := "confidence"

  /** The literal captured by `([0-9]*\.?[0-9]+)`: the digits before and after the point. */
  datatype Numeral = Numeral(whole: string, frac: string)

  predicate AllDigits(s: string) {
    forall i :: 0 <= i < |s| ==> IsDigit(s[i])
  }

  predicate ValidNumeral(n: Numeral) {
    AllDigits(n.whole) && AllDigits(n.frac) && |n.whole| + |n.frac| > 0
  }

  /** The numeral as it appears in the text; a point appears only with fraction digits. */
  function NumeralText(n: Numeral): string {
    n.whole + (if |n.frac| > 0 then "." + n.frac else "")
  }

  function Pow10(k: nat): (p: nat)
    ensures p >= 1
  {
    if k == 0 then 1 else 10 * Pow10(k - 1)
  }

  /** The value of a string of decimal digits. */
  function DigitsValue(s: string): nat
    requires AllDigits(s)
  {
    if |s| == 0 then 0
    else DigitsValue(s[..|s| - 1]) * 10 + (s[|s| - 1] as int - '0' as int)
  }

  /** The numeral's digits read as one integer, the numerator of its value. */
  function Units(n: Numeral): nat
    requires ValidNumeral(n)
  {
    DigitsValue(n.whole + n.frac)
  }

  /** `parseFloat` of the captured literal, as an exact rational. */
  function NumeralValue(n: Numeral): (v: real)
    requires ValidNumeral(n)
    ensures v >= 0.0
  {
    Units(n) as real / Pow10(|n.frac|) as real
  }

  /** The range check `confidence > 1` is an integer comparison on the numeral's digits. */
  lemma NumeralAtMostOne(n: Numeral)
    requires ValidNumeral(n)
    ensures NumeralValue(n) <= 1.0 <==> Units(n) <= Pow10(|n.frac|)
  {
    RatioAtMostOne(Units(n), Pow10(|n.frac|));
  }

  lemma RatioAtMostOne(u: nat, p: nat)
    requires p > 0
    ensures u as real / p as real <= 1.0 <==> u <= p
  {
    var v := u as real / p as real;
    assert v * p as real == u as real;
    ScaleMonotonic(v, 1.0, p as real);
  }

  lemma ScaleMonotonic(a: real, b: real, p: real)
    requires p > 0.0
    ensures a <= b <==> a * p <= b * p
  {
    if a <= b {
      assert (b - a) * p >= 0.0;
    } else {
      assert (a - b) * p > 0.0;
    }
  }

  /** `([0-9]*\.?[0-9]+)` anchored at `i`. */
  function NumberAt(s: string, i: nat): (r: Option<Numeral>)
    requires i <= |s|
    ensures r.Some? ==> ValidNumeral(r.value) && HasAt(s, i, NumeralText(r.value))
  {
    var a := DigitRunEnd(s, i);
    if a < |s| && s[a] == '.' && DigitRunEnd(s, a + 1) > a + 1 then
      var b := DigitRunEnd(s, a + 1);
      CapturedFraction(s, i, a, b);
      Some(Numeral(s[i..a], s[a + 1..b]))
    else if a > i then
      CapturedWhole(s, i, a);
      Some(Numeral(s[i..a], ""))
    else None
  }

  /** Digits, a point and more digits between `i` and `b` form the numeral they spell. */
  lemma CapturedFraction(s: string, i: nat, a: nat, b: nat)
    requires i <= a && a + 1 < b <= |s| && s[a] == '.'
    requires forall k :: i <= k < a ==> IsDigit(s[k])
    requires forall k :: a + 1 <= k < b ==> IsDigit(s[k])
    ensures ValidNumeral(Numeral(s[i..a], s[a + 1..b]))
    ensures HasAt(s, i, NumeralText(Numeral(s[i..a], s[a + 1..b])))
  {
    assert s[i..b] == s[i..a] + ("." + s[a + 1..b]);
    SliceAt(s, i, b);
  }

  /** A non-empty run of digits between `i` and `a` forms the numeral it spells. */
  lemma CapturedWhole(s: string, i: nat, a: nat)
    requires i < a <= |s|
    requires forall k :: i <= k < a ==> IsDigit(s[k])
    ensures ValidNumeral(Numeral(s[i..a], ""))
    ensures HasAt(s, i, NumeralText(Numeral(s[i..a], "")))
  {
    SliceAt(s, i, a);
  }

  lemma SliceAt(s: string, i: nat, j: nat)
    requires i <= j <= |s|
    ensures HasAt(s, i, s[i..j])
  {
    assert s[i..j] == s[i..][..j - i];
  }

  /** `(positive|negative|neutral)` anchored at `i`. */
  function WordAt(s: string, i: nat): (r: Option<Label>)
    ensures r.Some? ==> IsGenerativeSentiment(r.value) && HasAt(s, i, LabelText(r.value))
  {
    if HasAt(s, i, "positive") then Some(Positive)
    else if HasAt(s, i, "negative") then Some(Negative)
    else if HasAt(s, i, "neutral") then Some(Neutral)
    else None
  }

  /** `s[i..j]` is a run of white space, as `\s*` consumes it. */
  predicate SpaceBetween(s: string, i: nat, j: nat) {
    i <= j <= |s| && forall m :: i <= m < j ==> IsSpace(s[m])
  }

  /**
   * The part both regular expressions share, `"?KEY"?\s*:\s*`, anchored at `k`: the position
   * just after it when it matches.
   */
  function AfterKey(s: string, k: nat, key: string): (v: Option<nat>)
    ensures v.Some? ==> k <= v.value <= |s|
    ensures v.Some? ==>
      var p := SkipQuote(s, k);
      HasAt(s, p, key) &&
      exists c: nat :: SpaceBetween(s, SkipQuote(s, p + |key|), c) && c < v.value && s[c] == ':' && SpaceBetween(s, c + 1, v.value)
    ensures v.Some? ==> v.value == |s| || !IsSpace(s[v.value])
  {
    if k > |s| then None
    else
      var p := SkipQuote(s, k);
      if !HasAt(s, p, key) then None
      else
        var c := SpaceRunEnd(s, SkipQuote(s, p + |key|));
        if c < |s| && s[c] == ':' then Some(SpaceRunEnd(s, c + 1)) else None
  }

  /** The sentiment regular expression anchored at `k`; its capture when it matches. */
  function SentimentAt(s: string, k: nat): (r: Option<Label>)
    ensures r.Some? ==> IsGenerativeSentiment(r.value)
    ensures r.Some? ==>
      && AfterKey(s, k, SentimentKey).Some?
      && HasAt(s, SkipQuote(s, AfterKey(s, k, SentimentKey).value), LabelText(r.value))
  {
    match AfterKey(s, k, SentimentKey)
    case Some(v) => WordAt(s, SkipQuote(s, v))
    case None => None
  }

  /** The confidence regular expression anchored at `k`; its capture when it matches. */
  function ConfidenceAt(s: string, k: nat): (r: Option<Numeral>)
    ensures r.Some? ==> ValidNumeral(r.value)
    ensures r.Some? ==>
      && AfterKey(s, k, ConfidenceKey).Some?
      && HasAt(s, AfterKey(s, k, ConfidenceKey).value, NumeralText(r.value))
  {
    match AfterKey(s, k, ConfidenceKey)
    case Some(v) => NumberAt(s, v)
    case None => None
  }

  /** `String.prototype.match` without the global flag: the capture of the leftmost match at or after `k`. */
  function Leftmost<T>(s: string, k: nat, at: (string, nat) -> Option<T>): (r: Option<T>)
    requires k <= |s|
    ensures r.Some? ==> exists j :: k <= j <= |s| && at(s, j) == r
    decreases |s| - k
  {
    match at(s, k)
    case Some(v) => Some(v)
    case None => if k == |s| then None else Leftmost(s, k + 1, at)
  }

  /** `Leftmost` finds the first matching position and reports nothing only when no position matches. */
  lemma {:induction false} LeftmostIsFirst<T>(s: string, k: nat, at: (string, nat) -> Option<T>)
    requires k <= |s|
    ensures Leftmost(s, k, at).None? <==> forall j :: k <= j <= |s| ==> at(s, j).None?
    ensures Leftmost(s, k, at).Some? ==>
      exists j :: k <= j <= |s| && at(s, j) == Leftmost(s, k, at)
                  && forall i :: k <= i < j ==> at(s, i).None?
    decreases |s| - k
  {
    if at(s, k).None? && k < |s| {
      LeftmostIsFirst(s, k + 1, at);
      if Leftmost(s, k, at).Some? {
        var j :| k + 1 <= j <= |s| && at(s, j) == Leftmost(s, k + 1, at)
                 && forall i :: k + 1 <= i < j ==> at(s, i).None?;
        assert forall i :: k <= i < j ==> at(s, i).None?;
      }
    }
  }

  /** Positions that cannot match are skipped by the search. */
  lemma {:induction false} LeftmostSkips<T>(s: string, k: nat, m: nat, at: (string, nat) -> Option<T>)
    requires k <= m <= |s|
    requires forall j :: k <= j < m ==> at(s, j).None?
    ensures Leftmost(s, k, at) == Leftmost(s, m, at)
    decreases m - k
  {
    if k < m {
      LeftmostSkips(s, k + 1, m, at);
    }
  }

  /** What a generative model's answer parses to: one of three labels and a confidence. */
  datatype ParsedOutput = ParsedOutput(sentiment: Label, confidence: real)

  /**
   * `parseOutput` / `parseTextGenerationOutput`: rejects `undefined` and empty text, then
   * runs both searches independently and range-checks the confidence.
   */
  function ParseOutput(output: Option<string>): (r: Result<ParsedOutput, Error>)
    ensures output.None? || output.value == "" ==> r == Err(EmptyOutput)
    ensures r.Ok? ==> IsGenerativeSentiment(r.value.sentiment)
    ensures r.Ok? ==> 0.0 <= r.value.confidence <= 1.0
    ensures r.Ok? ==> Leftmost(output.value, 0, SentimentAt) == Some(r.value.sentiment)
    ensures r == Err(OutputFormatIncorrect) <==>
      output.Some? && output.value != ""
      && (Leftmost(output.value, 0, SentimentAt).None? || Leftmost(output.value, 0, ConfidenceAt).None?)
    ensures r.Err? ==> r.error == EmptyOutput || r.error == OutputFormatIncorrect || r.error.ConfidenceInvalid?
  {
    if output.None? || output.value == "" then Err(EmptyOutput)
    else
      var s := output.value;
      var sentiment := Leftmost(s, 0, SentimentAt);
      var confidence := Leftmost(s, 0, ConfidenceAt);
      if sentiment.None? || confidence.None? then Err(OutputFormatIncorrect)
      else
        var c := NumeralValue(confidence.value);
        if c < 0.0 || c > 1.0 then Err(ConfidenceInvalid(c))
        else Ok(ParsedOutput(sentiment.value, c))
  }

  /** Because the number grammar has no sign, only a value above one is ever rejected as invalid. */
  lemma InvalidConfidenceExceedsOne(output: Option<string>)
    ensures ParseOutput(output).Err? && ParseOutput(output).error.ConfidenceInvalid? ==>
      ParseOutput(output).error.received > 1.0
  {
  }
}

/** Worked consequences of the parser: the canonical answer layouts parse back in either order. */
module OutputParserLaws {
  import opened Wrappers
  import opened Errors
  import opened Text
  import opened Messaging
  import opened OutputParser

  /** The answer layout the prompts ask for: the sentiment line, then the confidence line. */
  function Render(l: Label, n: Numeral): string {
    SentimentKey + ":" + LabelText(l) + "\n" + ConfidenceKey + ":" + NumeralText(n)
  }

  /** The same two lines in the other order. */
  function RenderConfidenceFirst(l: Label, n: Numeral): string {
    ConfidenceKey + ":" + NumeralText(n) + "\n" + SentimentKey + ":" + LabelText(l)
  }

  /** What a rendered answer must parse to: the label, and the value when it is at most one. */
  function Expected(l: Label, n: Numeral): Result<ParsedOutput, Error>
    requires ValidNumeral(n)
  {
    if NumeralValue(n) <= 1.0 then Ok(ParsedOutput(l, NumeralValue(n)))
    else Err(ConfidenceInvalid(NumeralValue(n)))
  }

  /** No label spelling contains a `c` or a quote, so none can start a confidence match. */
  lemma LabelLacksKeyStart(l: Label)
    ensures 'c' !in LabelText(l) && '"' !in LabelText(l)
  {
  }

  /** A numeral holds only digits and a point, so it cannot start a sentiment match. */
  lemma NumeralLacksKeyStart(n: Numeral)
    requires ValidNumeral(n)
    ensures 's' !in NumeralText(n) && '"' !in NumeralText(n)
  {
    var t := NumeralText(n);
    forall j | 0 <= j < |t|
      ensures IsDigit(t[j]) || t[j] == '.'
    {
      if j < |n.whole| {
        assert t[j] == n.whole[j];
      } else if j > |n.whole| {
        assert t[j] == n.frac[j - |n.whole| - 1];
      }
    }
  }

  /** A run of digits followed by a non-digit is exactly what the greedy `[0-9]*` consumes. */
  lemma {:induction false} DigitsRunTo(s: string, i: nat, d: string)
    requires AllDigits(d) && HasAt(s, i, d)
    requires i + |d| == |s| || !IsDigit(s[i + |d|])
    ensures DigitRunEnd(s, i) == i + |d|
    decreases |d|
  {
    if |d| > 0 {
      HasAtChar(s, i, d, 0);
      assert HasAt(s, i + 1, d[1..]) by {
        assert s[i + 1..][..|d| - 1] == s[i..][..|d|][1..];
      }
      DigitsRunTo(s, i + 1, d[1..]);
    }
  }

  /** An occurrence of `w` at `i` is the slice of that length there. */
  lemma SliceIs(s: string, i: nat, w: string)
    requires HasAt(s, i, w)
    ensures i + |w| <= |s| && s[i..i + |w|] == w
  {
    assert s[i..i + |w|] == s[i..][..|w|];
  }

  /** Position `e` ends the text or holds neither a digit nor a point. */
  predicate EndsNumber(s: string, e: nat) {
    e >= |s| || (!IsDigit(s[e]) && s[e] != '.')
  }

  /** A numeral with a fraction part is captured whole when nothing numeric follows it. */
  lemma NumberAtFraction(s: string, i: nat, n: Numeral)
    requires ValidNumeral(n) && |n.frac| > 0
    requires HasAt(s, i, n.whole) && i + |n.whole| < |s| && s[i + |n.whole|] == '.'
    requires HasAt(s, i + |n.whole| + 1, n.frac)
    requires EndsNumber(s, i + |n.whole| + 1 + |n.frac|)
    ensures NumberAt(s, i) == Some(n)
  {
    var w, e := i + |n.whole|, i + |n.whole| + 1 + |n.frac|;
    DigitsRunTo(s, i, n.whole);
    DigitsRunTo(s, w + 1, n.frac);
    SliceIs(s, i, n.whole);
    SliceIs(s, w + 1, n.frac);
    NumberAtSplit(s, i, w, e, n);
  }

  /** The capture once the two digit runs and the point between them are known. */
  lemma NumberAtSplit(s: string, i: nat, a: nat, b: nat, n: Numeral)
    requires i <= a && a + 1 < b <= |s| && s[a] == '.'
    requires DigitRunEnd(s, i) == a && DigitRunEnd(s, a + 1) == b
    requires s[i..a] == n.whole && s[a + 1..b] == n.frac
    ensures NumberAt(s, i) == Some(n)
  {
  }

  /** A numeral without a fraction part is captured whole when nothing numeric follows it. */
  lemma NumberAtWhole(s: string, i: nat, n: Numeral)
    requires ValidNumeral(n) && |n.frac| == 0 && HasAt(s, i, n.whole)
    requires EndsNumber(s, i + |n.whole|)
    ensures NumberAt(s, i) == Some(n)
  {
    DigitsRunTo(s, i, n.whole);
    SliceIs(s, i, n.whole);
  }

  /** A numeral followed by neither a digit nor a point is captured exactly. */
  lemma NumberAtNumeral(s: string, i: nat, n: Numeral)
    requires ValidNumeral(n) && HasAt(s, i, NumeralText(n))
    requires EndsNumber(s, i + |NumeralText(n)|)
    ensures NumberAt(s, i) == Some(n)
  {
    if |n.frac| > 0 {
      var w := i + |n.whole|;
      assert NumeralText(n) == n.whole + ("." + n.frac);
      HasAtConcat(s, i, n.whole, "." + n.frac);
      HasAtConcat(s, w, ".", n.frac);
      HasAtChar(s, w, ".", 0);
      NumberAtFraction(s, i, n);
    } else {
      assert NumeralText(n) == n.whole;
      NumberAtWhole(s, i, n);
    }
  }

  /** An occurrence of `a + b` is an occurrence of `a` followed by one of `b`. */
  lemma HasAtConcat(s: string, k: nat, a: string, b: string)
    requires HasAt(s, k, a + b)
    ensures HasAt(s, k, a) && HasAt(s, k + |a|, b)
  {
    assert s[k..][..|a|] == (a + b)[..|a|] == a;
    assert s[k + |a|..][..|b|] == (a + b)[|a|..] == b;
  }

  lemma HasAtChar(s: string, k: nat, w: string, j: nat)
    requires HasAt(s, k, w) && j < |w|
    ensures k + j < |s| && s[k + j] == w[j]
  {
    assert s[k..][j] == w[j];
  }

  /**
   * A key written bare and followed directly by a colon, then a value starting with neither a
   * quote nor white space: the shared prefix ends right after the colon.
   */
  lemma AfterKeyRendered(s: string, k: nat, key: string, rest: string)
    requires |key| > 0 && key[0] != '"' && HasAt(s, k, key + ":" + rest)
    requires |rest| > 0 && rest[0] != '"' && !IsSpace(rest[0])
    ensures AfterKey(s, k, key) == Some(k + |key| + 1)
    ensures SkipQuote(s, k + |key| + 1) == k + |key| + 1 && HasAt(s, k + |key| + 1, rest)
  {
    HasAtConcat(s, k, key + ":", rest);
    HasAtConcat(s, k, key, ":");
    HasAtChar(s, k, key, 0);
    HasAtChar(s, k + |key|, ":", 0);
    HasAtChar(s, k + |key| + 1, rest, 0);
  }

  /** A position holding neither a quote nor the key's first character starts no match. */
  lemma AfterKeyAbsent(s: string, k: nat, key: string)
    requires |key| > 0 && k < |s| && s[k] != key[0] && s[k] != '"'
    ensures AfterKey(s, k, key) == None
  {
    assert s[k..][0] == s[k];
  }

  lemma LabelStart(l: Label)
    requires IsGenerativeSentiment(l)
    ensures |LabelText(l)| > 0 && LabelText(l)[0] != '"' && !IsSpace(LabelText(l)[0])
  {
  }

  lemma NumeralStart(n: Numeral)
    requires ValidNumeral(n)
    ensures |NumeralText(n)| > 0 && NumeralText(n)[0] != '"' && !IsSpace(NumeralText(n)[0])
  {
    if |n.whole| == 0 {
      assert NumeralText(n)[0] == '.';
    } else {
      assert NumeralText(n)[0] == n.whole[0];
    }
  }

  lemma WordAtLabel(s: string, w: nat, l: Label)
    requires IsGenerativeSentiment(l) && HasAt(s, w, LabelText(l))
    ensures WordAt(s, w) == Some(l)
  {
    HasAtChar(s, w, LabelText(l), 0);
    if l == Neutral {
      HasAtChar(s, w, LabelText(l), 2);
      assert !HasAt(s, w, "negative") by {
        if HasAt(s, w, "negative") {
          HasAtChar(s, w, "negative", 2);
        }
      }
    }
  }

  lemma KeyStarts()
    ensures |SentimentKey| > 0 && SentimentKey[0] == 's'
    ensures |ConfidenceKey| > 0 && ConfidenceKey[0] == 'c'
  {
  }

  lemma SentimentAtRendered(s: string, k: nat, l: Label)
    requires IsGenerativeSentiment(l)
    requires HasAt(s, k, SentimentKey + ":" + LabelText(l))
    ensures SentimentAt(s, k) == Some(l)
  {
    KeyStarts();
    LabelStart(l);
    AfterKeyRendered(s, k, SentimentKey, LabelText(l));
    WordAtLabel(s, k + |SentimentKey| + 1, l);
  }

  lemma ConfidenceAtRendered(s: string, k: nat, n: Numeral)
    requires ValidNumeral(n)
    requires HasAt(s, k, ConfidenceKey + ":" + NumeralText(n))
    requires EndsNumber(s, k + |ConfidenceKey| + 1 + |NumeralText(n)|)
    ensures ConfidenceAt(s, k) == Some(n)
  {
    KeyStarts();
    NumeralStart(n);
    AfterKeyRendered(s, k, ConfidenceKey, NumeralText(n));
    NumberAtNumeral(s, k + |ConfidenceKey| + 1, n);
  }

  lemma SentimentAtAbsent(s: string, k: nat)
    requires k < |s| && s[k] != 's' && s[k] != '"'
    ensures SentimentAt(s, k) == None
  {
    KeyStarts();
    AfterKeyAbsent(s, k, SentimentKey);
  }

  lemma ConfidenceAtAbsent(s: string, k: nat)
    requires k < |s| && s[k] != 'c' && s[k] != '"'
    ensures ConfidenceAt(s, k) == None
  {
    KeyStarts();
    AfterKeyAbsent(s, k, ConfidenceKey);
  }

  /** Once both searches have succeeded, only the range check remains. */
  lemma ParseOutputFound(s: string, l: Label, n: Numeral)
    requires s != "" && ValidNumeral(n)
    requires Leftmost(s, 0, SentimentAt) == Some(l)
    requires Leftmost(s, 0, ConfidenceAt) == Some(n)
    ensures ParseOutput(Some(s)) == Expected(l, n)
  {
  }

  /** A sentiment field after a stretch holding no `s` and no quote is the one found. */
  lemma SentimentAfter(s: string, h: nat, l: Label)
    requires IsGenerativeSentiment(l) && h <= |s|
    requires forall j :: 0 <= j < h ==> s[j] != 's' && s[j] != '"'
    requires HasAt(s, h, SentimentKey + ":" + LabelText(l))
    ensures Leftmost(s, 0, SentimentAt) == Some(l)
  {
    forall j | 0 <= j < h
      ensures SentimentAt(s, j) == None
    {
      SentimentAtAbsent(s, j);
    }
    LeftmostSkips(s, 0, h, SentimentAt);
    SentimentAtRendered(s, h, l);
  }

  /** A confidence field after a stretch holding no `c` and no quote is the one found. */
  lemma ConfidenceAfter(s: string, h: nat, n: Numeral)
    requires ValidNumeral(n) && h <= |s|
    requires forall j :: 0 <= j < h ==> s[j] != 'c' && s[j] != '"'
    requires HasAt(s, h, ConfidenceKey + ":" + NumeralText(n))
    requires EndsNumber(s, h + |ConfidenceKey| + 1 + |NumeralText(n)|)
    ensures Leftmost(s, 0, ConfidenceAt) == Some(n)
  {
    forall j | 0 <= j < h
      ensures ConfidenceAt(s, j) == None
    {
      ConfidenceAtAbsent(s, j);
    }
    LeftmostSkips(s, 0, h, ConfidenceAt);
    ConfidenceAtRendered(s, h, n);
  }

  /** The positions of `a + b` below `|a|` hold the characters of `a`, the rest those of `b`. */
  lemma SplitConcat(a: string, b: string)
    ensures forall j :: 0 <= j < |a| ==> (a + b)[j] == a[j]
    ensures HasAt(a + b, |a|, b)
  {
    assert (a + b)[|a|..] == b;
  }

  lemma KeyCharacters()
    ensures 's' !in ConfidenceKey + ":" && '"' !in ConfidenceKey + ":"
    ensures 'c' !in SentimentKey + ":" && '"' !in SentimentKey + ":"
    ensures |SentimentKey| == 9 && |ConfidenceKey| == 10
  {
  }

  lemma RenderedSentimentFound(l: Label, n: Numeral)
    requires IsGenerativeSentiment(l) && ValidNumeral(n)
    ensures Leftmost(Render(l, n), 0, SentimentAt) == Some(l)
  {
    var s := Render(l, n);
    var key := SentimentKey + ":" + LabelText(l);
    assert s == key + ("\n" + ConfidenceKey + ":" + NumeralText(n));
    SplitConcat(key, "\n" + ConfidenceKey + ":" + NumeralText(n));
    assert HasAt(s, 0, key);
    SentimentAfter(s, 0, l);
  }

  lemma RenderedConfidenceFound(l: Label, n: Numeral)
    requires IsGenerativeSentiment(l) && ValidNumeral(n)
    ensures Leftmost(Render(l, n), 0, ConfidenceAt) == Some(n)
  {
    var key := SentimentKey + ":";
    var head := key + LabelText(l) + "\n";
    var tail := ConfidenceKey + ":" + NumeralText(n);
    assert Render(l, n) == head + tail;
    KeyCharacters();
    LabelLacksKeyStart(l);
    assert 'c' !in head && '"' !in head;
    SplitConcat(head, tail);
    forall j | 0 <= j < |head|
      ensures (head + tail)[j] != 'c' && (head + tail)[j] != '"'
    {
      assert head[j] in head;
    }
    ConfidenceAfter(head + tail, |head|, n);
  }

  lemma SwappedConfidenceFound(l: Label, n: Numeral)
    requires IsGenerativeSentiment(l) && ValidNumeral(n)
    ensures Leftmost(RenderConfidenceFirst(l, n), 0, ConfidenceAt) == Some(n)
  {
    var s := RenderConfidenceFirst(l, n);
    var key := ConfidenceKey + ":" + NumeralText(n);
    var rest := "\n" + SentimentKey + ":" + LabelText(l);
    assert s == key + rest;
    SplitConcat(key, rest);
    assert HasAt(s, 0, key);
    KeyCharacters();
    assert s[|key|] == rest[0] == '\n';
    ConfidenceAfter(s, 0, n);
  }

  lemma SwappedSentimentFound(l: Label, n: Numeral)
    requires IsGenerativeSentiment(l) && ValidNumeral(n)
    ensures Leftmost(RenderConfidenceFirst(l, n), 0, SentimentAt) == Some(l)
  {
    var key := ConfidenceKey + ":";
    var head := key + NumeralText(n) + "\n";
    var tail := SentimentKey + ":" + LabelText(l);
    assert RenderConfidenceFirst(l, n) == head + tail;
    KeyCharacters();
    NumeralLacksKeyStart(n);
    assert 's' !in head && '"' !in head;
    SplitConcat(head, tail);
    forall j | 0 <= j < |head|
      ensures (head + tail)[j] != 's' && (head + tail)[j] != '"'
    {
      assert head[j] in head;
    }
    SentimentAfter(head + tail, |head|, l);
  }

  /** The requested layout parses to its label and value, or is rejected for a value above one. */
  lemma ParseRendered(l: Label, n: Numeral)
    requires IsGenerativeSentiment(l) && ValidNumeral(n)
    ensures ParseOutput(Some(Render(l, n))) == Expected(l, n)
  {
    RenderedSentimentFound(l, n);
    RenderedConfidenceFound(l, n);
    ParseOutputFound(Render(l, n), l, n);
  }

  /** The two lines in the other order parse the same: the searches are independent. */
  lemma ParseRenderedConfidenceFirst(l: Label, n: Numeral)
    requires IsGenerativeSentiment(l) && ValidNumeral(n)
    ensures ParseOutput(Some(RenderConfidenceFirst(l, n))) == Expected(l, n)
  {
    SwappedSentimentFound(l, n);
    SwappedConfidenceFound(l, n);
    ParseOutputFound(RenderConfidenceFirst(l, n), l, n);
  }

  lemma DigitsValueOfTwoOrThree(s: string)
    requires AllDigits(s) && 2 <= |s| <= 3
    ensures |s| == 2 ==> DigitsValue(s) == (s[0] as int - '0' as int) * 10 + (s[1] as int - '0' as int)
    ensures |s| == 3 ==> DigitsValue(s) == (s[0] as int - '0' as int) * 100
                                          + (s[1] as int - '0' as int) * 10 + (s[2] as int - '0' as int)
  {
    assert s[..|s| - 1][..|s| - 2] == s[..|s| - 2];
    if |s| == 3 {
      assert s[..1][..0] == [];
    } else {
      assert s[..0] == [];
    }
  }

  lemma RenderedNegative()
    ensures Render(Negative, Numeral("0", "87")) == "sentiment:negative\nconfidence:0.87"
  {
  }

  lemma RenderedPositiveFirst()
    ensures RenderConfidenceFirst(Positive, Numeral("1", "5")) == "confidence:1.5\nsentiment:positive"
  {
  }

  /** `sentiment:negative` / `confidence:0.87` parses to negative with confidence 0.87. */
  lemma ParseExampleNegative(s: string)
    requires s == "sentiment:negative\nconfidence:0.87"
    ensures ParseOutput(Some(s)) == Ok(ParsedOutput(Negative, 0.87))
  {
    RenderedNegative();
    var n := Numeral("0", "87");
    assert NumeralValue(n) == 0.87 by {
      assert n.whole + n.frac == "087";
      DigitsValueOfTwoOrThree("087");
    }
    ParseRendered(Negative, n);
  }

  /** A confidence of 1.5 is rejected even when it comes first. */
  lemma ParseExampleOutOfRange(s: string)
    requires s == "confidence:1.5\nsentiment:positive"
    ensures ParseOutput(Some(s)) == Err(ConfidenceInvalid(1.5))
  {
    RenderedPositiveFirst();
    var n := Numeral("1", "5");
    assert NumeralValue(n) == 1.5 by {
      assert n.whole + n.frac == "15";
      DigitsValueOfTwoOrThree("15");
    }
    ParseRenderedConfidenceFirst(Positive, n);
  }

  /** Text without a confidence field is a format error. */
  lemma ParseExampleMissingConfidence()
    ensures ParseOutput(Some("I think positive")) == Err(OutputFormatIncorrect)
  {
    var s := "I think positive";
    forall j | 0 <= j <= |s|
      ensures ConfidenceAt(s, j) == None
    {
      if j < |s| {
        ConfidenceAtAbsent(s, j);
      }
    }
    LeftmostIsFirst(s, 0, ConfidenceAt);
  }
}
