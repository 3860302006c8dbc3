/** Character classes and string operations used by the parsers and the prompt substitution. */
module Text {

  /** `[0-9]` in a JavaScript regular expression. */
  predicate IsDigit(c: char) {
    '0' <= c <= '9'
  }

  /** `\s` in a JavaScript regular expression: the WhiteSpace and LineTerminator code points. */
  predicate IsSpace(c: char) {
    var n := c as int;
    n == 0x09 || n == 0x0A || n == 0x0B || n == 0x0C || n == 0x0D || n == 0x20
    || n == 0xA0 || n == 0x1680 || (0x2000 <= n <= 0x200A) || n == 0x2028 || n == 0x2029
    || n == 0x202F || n == 0x205F || n == 0x3000 || n == 0xFEFF
  }

  /** True iff `w` occurs in `s` starting at position `i`. */
  predicate HasAt(s: string, i: nat, w: string) {
    i <= |s| && w <= s[i..]
  }

  /** The end of the longest run of digits starting at `i` (a greedy `[0-9]*`). */
  function DigitRunEnd(s: string, i: nat): (j: nat)
    requires i <= |s|
    ensures i <= j <= |s|
    ensures forall k :: i <= k < j ==> IsDigit(s[k])
    ensures j == |s| || !IsDigit(s[j])
    decreases |s| - i
  {
    if i < |s| && IsDigit(s[i]) then DigitRunEnd(s, i + 1) else i
  }

  /** The end of the longest run of white space starting at `i` (a greedy `\s*`). */
  function SpaceRunEnd(s: string, i: nat): (j: nat)
    requires i <= |s|
    ensures i <= j <= |s|
    ensures forall k :: i <= k < j ==> IsSpace(s[k])
    ensures j == |s| || !IsSpace(s[j])
    decreases |s| - i
  {
    if i < |s| && IsSpace(s[i]) then SpaceRunEnd(s, i + 1) else i
  }

  /** The position after an optional `"` at `i` (a greedy `"?`). */
  function SkipQuote(s: string, i: nat): (j: nat)
    requires i <= |s|
    ensures j <= |s|
    ensures j == (if i < |s| && s[i] == '"' then i + 1 else i)
  {
    if i < |s| && s[i] == '"' then i + 1 else i
  }

  /** The start of the run of white space that ends at `j`, going no lower than `lo`. */
  function SpaceRunStart(s: string, lo: nat, j: nat): (i: nat)
    requires lo <= j <= |s|
    ensures lo <= i <= j
    ensures forall k :: i <= k < j ==> IsSpace(s[k])
    ensures i == lo || !IsSpace(s[i - 1])
    decreases j - lo
  {
    if j > lo && IsSpace(s[j - 1]) then SpaceRunStart(s, lo, j - 1) else j
  }

  /** `r` sits in `s` at `i` with only white space before and after it. */
  predicate TrimmedAt(s: string, r: string, i: nat) {
    i + |r| <= |s| && s[i..i + |r|] == r
    && (forall k :: 0 <= k < i ==> IsSpace(s[k]))
    && (forall k :: i + |r| <= k < |s| ==> IsSpace(s[k]))
  }

  /** `String.prototype.trim`: removes leading and trailing white space and line terminators. */
  function Trim(s: string): (r: string)
    ensures |r| > 0 ==> !IsSpace(r[0]) && !IsSpace(r[|r| - 1])
    ensures exists i :: TrimmedAt(s, r, i)
  {
    var i := SpaceRunEnd(s, 0);
    var j := SpaceRunStart(s, i, |s|);
    assert TrimmedAt(s, s[i..j], i);
    s[i..j]
  }

  /** Trimming a string padded with white space around a trimmed core yields the core. */
  lemma TrimPadded(a: string, m: string, b: string)
    requires forall k :: 0 <= k < |a| ==> IsSpace(a[k])
    requires forall k :: 0 <= k < |b| ==> IsSpace(b[k])
    requires |m| > 0 ==> !IsSpace(m[0]) && !IsSpace(m[|m| - 1])
    ensures Trim(a + m + b) == m
  {
    var s := a + m + b;
    var i := SpaceRunEnd(s, 0);
    var j := SpaceRunStart(s, i, |s|);
    if |m| == 0 {
      assert forall k :: 0 <= k < |s| ==> IsSpace(s[k]) by {
        assert s == a + b;
      }
      assert i == |s|;
    } else {
      assert s[|a|] == m[0];
      assert s[|a| + |m| - 1] == m[|m| - 1];
      assert i == |a|;
      assert j == |a| + |m|;
      assert s[i..j] == m;
    }
  }

  /** Trimming twice is trimming once. */
  lemma TrimIdempotent(s: string)
    ensures Trim(Trim(s)) == Trim(s)
  {
    TrimOfTrimmed(Trim(s));
  }

  /** A string with no white space at either end is its own trim. */
  lemma TrimOfTrimmed(m: string)
    requires |m| > 0 ==> !IsSpace(m[0]) && !IsSpace(m[|m| - 1])
    ensures Trim(m) == m
  {
    assert "" + m + "" == m;
    TrimPadded("", m, "");
  }

  /** `String.prototype.toLowerCase` on one character, restricted to ASCII letters. */
  function LowerChar(c: char): char {
    if 'A' <= c <= 'Z' then (c as int + 32) as char else c
  }

  /** `s.toLowerCase()` restricted to ASCII: capitals move down by 32, all else is kept. */
  function ToLower(s: string): (r: string)
    ensures |r| == |s|
    ensures forall i :: 0 <= i < |s| && 'A' <= s[i] <= 'Z' ==> r[i] as int == s[i] as int + 32
    ensures forall i :: 0 <= i < |s| && !('A' <= s[i] <= 'Z') ==> r[i] == s[i]
    ensures forall i :: 0 <= i < |r| ==> !('A' <= r[i] <= 'Z')
  {
    seq(|s|, i requires 0 <= i < |s| => LowerChar(s[i]))
  }

  /** Lowering twice is lowering once. */
  lemma ToLowerIdempotent(s: string)
    ensures ToLower(ToLower(s)) == ToLower(s)
  {
  }

  /** `s.replaceAll(from, to)` for a one-character search string and a one-character replacement. */
  function ReplaceChar(s: string, from: char, to: char): (r: string)
    ensures |r| == |s|
    ensures from != to ==> forall i :: 0 <= i < |r| ==> r[i] != from
    ensures forall i :: 0 <= i < |s| && s[i] != from ==> r[i] == s[i]
  {
    seq(|s|, i requires 0 <= i < |s| => if s[i] == from then to else s[i])
  }

  /** True iff `pat` occurs somewhere in `s`. */
  predicate Occurs(s: string, pat: string) {
    exists i :: 0 <= i <= |s| && pat <= s[i..]
  }

  /**
   * Replaces every occurrence of `pat` in `s` by `rep`, scanning from the left and
   * resuming after each replaced occurrence, with `rep` inserted literally.
   */
  function ReplaceAll(s: string, pat: string, rep: string): string
    requires |pat| > 0
    decreases |s|
  {
    if |s| == 0 then ""
    else if pat <= s then rep + ReplaceAll(s[|pat|..], pat, rep)
    else [s[0]] + ReplaceAll(s[1..], pat, rep)
  }

  /** Replacing a pattern by itself changes nothing. */
  lemma {:induction false} ReplaceAllBySelf(s: string, pat: string)
    requires |pat| > 0
    ensures ReplaceAll(s, pat, pat) == s
    decreases |s|
  {
    if |s| == 0 {
    } else if pat <= s {
      ReplaceAllBySelf(s[|pat|..], pat);
      assert s == pat + s[|pat|..];
    } else {
      ReplaceAllBySelf(s[1..], pat);
      assert s == [s[0]] + s[1..];
    }
  }

  /** A string in which the pattern does not occur is left unchanged. */
  lemma {:induction false} ReplaceAllAbsent(s: string, pat: string, rep: string)
    requires |pat| > 0
    requires !Occurs(s, pat)
    ensures ReplaceAll(s, pat, rep) == s
    decreases |s|
  {
    if |s| > 0 {
      assert s[0..] == s;
      assert !(pat <= s);
      forall i | 0 <= i <= |s[1..]|
        ensures !(pat <= s[1..][i..])
      {
        assert s[1..][i..] == s[i + 1..];
      }
      ReplaceAllAbsent(s[1..], pat, rep);
      assert s == [s[0]] + s[1..];
    }
  }

  /** A leading occurrence is replaced and scanning resumes after it. */
  lemma ReplaceAllLeading(pat: string, rest: string, rep: string)
    requires |pat| > 0
    ensures ReplaceAll(pat + rest, pat, rep) == rep + ReplaceAll(rest, pat, rep)
  {
    assert (pat + rest)[|pat|..] == rest;
  }

  /** A prefix that never contains the pattern's first character is copied unchanged. */
  lemma {:induction false} ReplaceAllCopiesPrefix(a: string, rest: string, pat: string, rep: string)
    requires |pat| > 0
    requires forall i :: 0 <= i < |a| ==> a[i] != pat[0]
    ensures ReplaceAll(a + rest, pat, rep) == a + ReplaceAll(rest, pat, rep)
    decreases |a|
  {
    if |a| > 0 {
      var s := a + rest;
      assert s[0] == a[0] != pat[0];
      assert !(pat <= s);
      assert s[1..] == a[1..] + rest;
      ReplaceAllCopiesPrefix(a[1..], rest, pat, rep);
      assert ReplaceAll(s, pat, rep) == [a[0]] + ReplaceAll(a[1..] + rest, pat, rep);
      assert a + ReplaceAll(rest, pat, rep) == [a[0]] + (a[1..] + ReplaceAll(rest, pat, rep));
    } else {
      assert a + rest == rest;
    }
  }

  /**
   * ECMAScript GetSubstitution for a string search pattern (no capture groups): the
   * replacement string's `$$`, `$&`, `` $` `` and `$'` are expanded, every other character
   * is copied. `matched` was found in `str` at `position`.
   */
  function Substitution(matched: string, str: string, position: nat, rep: string): string
    requires position + |matched| <= |str|
    decreases |rep|
  {
    if |rep| == 0 then ""
    else if rep[0] == '$' && |rep| >= 2 && rep[1] == '$' then
      "$" + Substitution(matched, str, position, rep[2..])
    else if rep[0] == '$' && |rep| >= 2 && rep[1] == '&' then
      matched + Substitution(matched, str, position, rep[2..])
    else if rep[0] == '$' && |rep| >= 2 && rep[1] == '`' then
      str[..position] + Substitution(matched, str, position, rep[2..])
    else if rep[0] == '$' && |rep| >= 2 && rep[1] == '\'' then
      str[position + |matched|..] + Substitution(matched, str, position, rep[2..])
    else
      [rep[0]] + Substitution(matched, str, position, rep[1..])
  }

  /** A replacement without `$` is inserted as it is. */
  lemma {:induction false} SubstitutionWithoutDollar(matched: string, str: string, position: nat, rep: string)
    requires position + |matched| <= |str|
    requires '$' !in rep
    ensures Substitution(matched, str, position, rep) == rep
    decreases |rep|
  {
    if |rep| > 0 {
      assert rep[0] != '$';
      assert rep == [rep[0]] + rep[1..];
      SubstitutionWithoutDollar(matched, str, position, rep[1..]);
    }
  }

  /**
   * `str.replaceAll(pat, rep)` exactly as JavaScript evaluates it for a string `pat` and a
   * string `rep`: the occurrences are found left to right in `str` from `i`, and each is
   * replaced by `Substitution` of `rep`.
   */
  function ReplaceAllAsWritten(str: string, pat: string, rep: string, i: nat): string
    requires |pat| > 0 && i <= |str|
    decreases |str| - i
  {
    if i == |str| then ""
    else if HasAt(str, i, pat) then
      Substitution(pat, str, i, rep) + ReplaceAllAsWritten(str, pat, rep, i + |pat|)
    else
      [str[i]] + ReplaceAllAsWritten(str, pat, rep, i + 1)
  }

  /** For a replacement without `$`, the JavaScript evaluation and the literal one agree. */
  lemma {:induction false} AsWrittenAgreesWithoutDollar(str: string, pat: string, rep: string, i: nat)
    requires |pat| > 0 && i <= |str|
    requires '$' !in rep
    ensures ReplaceAllAsWritten(str, pat, rep, i) == ReplaceAll(str[i..], pat, rep)
    decreases |str| - i
  {
    if i < |str| {
      if HasAt(str, i, pat) {
        AsWrittenAgreesWithoutDollar(str, pat, rep, i + |pat|);
        MatchStep(str, pat, rep, i);
      } else {
        AsWrittenAgreesWithoutDollar(str, pat, rep, i + 1);
        CopyStep(str, pat, rep, i);
      }
    } else {
      assert str[i..] == [];
    }
  }

  /** An occurrence at `i`: both evaluations emit `rep` and resume after it, so agreeing there they agree from `i`. */
  lemma MatchStep(str: string, pat: string, rep: string, i: nat)
    requires |pat| > 0 && i < |str| && HasAt(str, i, pat) && '$' !in rep
    requires ReplaceAllAsWritten(str, pat, rep, i + |pat|) == ReplaceAll(str[i + |pat|..], pat, rep)
    ensures ReplaceAllAsWritten(str, pat, rep, i) == ReplaceAll(str[i..], pat, rep)
  {
    SubstitutionWithoutDollar(pat, str, i, rep);
    assert str[i..][|pat|..] == str[i + |pat|..];
    MatchedFirst(str[i..], pat, rep);
  }

  /** No occurrence at `i`: both evaluations copy the character and move on by one, so agreeing there they agree from `i`. */
  lemma CopyStep(str: string, pat: string, rep: string, i: nat)
    requires |pat| > 0 && i < |str| && !HasAt(str, i, pat)
    requires ReplaceAllAsWritten(str, pat, rep, i + 1) == ReplaceAll(str[i + 1..], pat, rep)
    ensures ReplaceAllAsWritten(str, pat, rep, i) == ReplaceAll(str[i..], pat, rep)
  {
    assert str[i..][1..] == str[i + 1..];
    CopiedFirst(str[i..], pat, rep);
  }

  /** The character map agrees with the general left-to-right literal replacement. */
  lemma {:induction false} ReplaceCharIsReplaceAll(s: string, from: char, to: char)
    ensures ReplaceChar(s, from, to) == ReplaceAll(s, [from], [to])
    decreases |s|
  {
    if |s| > 0 {
      ReplaceCharIsReplaceAll(s[1..], from, to);
      ReplaceCharFirst(s, from, to);
      if s[0] == from {
        assert [from] <= s;
        MatchedFirst(s, [from], [to]);
      } else {
        assert !([from] <= s);
        CopiedFirst(s, [from], [to]);
      }
    }
  }

  /** The character map, one character at a time. */
  lemma ReplaceCharFirst(s: string, from: char, to: char)
    requires |s| > 0
    ensures ReplaceChar(s, from, to) == [if s[0] == from then to else s[0]] + ReplaceChar(s[1..], from, to)
  {
  }

  /** Where the pattern opens `s`, it is replaced and scanning resumes after it. */
  lemma MatchedFirst(s: string, pat: string, rep: string)
    requires |pat| > 0 && |s| > 0 && pat <= s
    ensures ReplaceAll(s, pat, rep) == rep + ReplaceAll(s[|pat|..], pat, rep)
  {
  }

  /**
   * The character map is what JavaScript's `s.replaceAll(from, to)` yields when `to` is
   * not `$`.
   */
  lemma ReplaceCharAsWritten(s: string, from: char, to: char)
    requires to != '$'
    ensures ReplaceAllAsWritten(s, [from], [to], 0) == ReplaceChar(s, from, to)
  {
    AsWrittenAgreesWithoutDollar(s, [from], [to], 0);
    assert s[0..] == s;
    ReplaceCharIsReplaceAll(s, from, to);
  }

  /** A string without the pattern's first character is left unchanged. */
  lemma ReplaceAllWithoutFirst(s: string, pat: string, rep: string)
    requires |pat| > 0
    requires forall i :: 0 <= i < |s| ==> s[i] != pat[0]
    ensures ReplaceAll(s, pat, rep) == s
  {
    assert s + "" == s;
    ReplaceAllCopiesPrefix(s, "", pat, rep);
  }

  /** A two-character pattern that does not open `b` does not open `b + tail` either, given the same `tail` conditions. */
  lemma NoMatchAcross(b: string, tail: string, pat: string)
    requires |pat| == 2 && |b| > 0
    requires !(|b| >= 2 && pat <= b)
    requires forall i :: 0 <= i < |tail| ==> tail[i] != pat[0]
    requires |tail| > 0 ==> tail[0] != pat[1]
    ensures !(pat <= b + tail)
  {
    var s := b + tail;
    if |b| == 1 && |tail| > 0 {
      assert s[1] == tail[0];
    } else if |b| >= 2 {
      assert s[..2] == b[..2];
    }
  }

  /**
   * A two-character pattern whose first character does not occur in `tail`, and whose second
   * does not open it, never straddles the boundary: `tail` comes through unchanged.
   */
  lemma {:induction false} ReplaceAllKeepsSuffix(b: string, tail: string, pat: string, rep: string)
    requires |pat| == 2
    requires forall i :: 0 <= i < |tail| ==> tail[i] != pat[0]
    requires |tail| > 0 ==> tail[0] != pat[1]
    ensures ReplaceAll(b + tail, pat, rep) == ReplaceAll(b, pat, rep) + tail
    decreases |b|, 1
  {
    if |b| == 0 {
      assert b + tail == tail;
      ReplaceAllWithoutFirst(tail, pat, rep);
    } else if |b| >= 2 && pat <= b {
      KeepsSuffixAfterMatch(b, tail, pat, rep);
    } else {
      KeepsSuffixAfterCopy(b, tail, pat, rep);
    }
  }

  /** The step of `ReplaceAllKeepsSuffix` where `b` opens with the pattern. */
  lemma {:induction false} KeepsSuffixAfterMatch(b: string, tail: string, pat: string, rep: string)
    requires |pat| == 2 && |b| >= 2 && pat <= b
    requires forall i :: 0 <= i < |tail| ==> tail[i] != pat[0]
    requires |tail| > 0 ==> tail[0] != pat[1]
    ensures ReplaceAll(b + tail, pat, rep) == ReplaceAll(b, pat, rep) + tail
    decreases |b|, 0
  {
    var s := b + tail;
    assert s[..2] == b[..2];
    assert s[2..] == b[2..] + tail;
    ReplaceAllKeepsSuffix(b[2..], tail, pat, rep);
    assert ReplaceAll(b, pat, rep) == rep + ReplaceAll(b[2..], pat, rep);
    assert ReplaceAll(s, pat, rep) == rep + ReplaceAll(s[2..], pat, rep);
  }

  /** The step of `ReplaceAllKeepsSuffix` where `b` does not open with the pattern. */
  lemma {:induction false} KeepsSuffixAfterCopy(b: string, tail: string, pat: string, rep: string)
    requires |pat| == 2 && |b| > 0 && !(|b| >= 2 && pat <= b)
    requires forall i :: 0 <= i < |tail| ==> tail[i] != pat[0]
    requires |tail| > 0 ==> tail[0] != pat[1]
    ensures ReplaceAll(b + tail, pat, rep) == ReplaceAll(b, pat, rep) + tail
    decreases |b|, 0
  {
    CopiedAcross(b, tail, pat, rep);
    CopiedShort(b, pat, rep);
    ReplaceAllKeepsSuffix(b[1..], tail, pat, rep);
    ConsAppend(b[0], ReplaceAll(b[1..], pat, rep), tail);
  }

  /** Where the pattern does not open `s`, its first character is copied and scanning moves on by one. */
  lemma CopiedFirst(s: string, pat: string, rep: string)
    requires |pat| > 0 && |s| > 0 && !(pat <= s)
    ensures ReplaceAll(s, pat, rep) == [s[0]] + ReplaceAll(s[1..], pat, rep)
  {
  }

  /** `CopiedFirst` for a string that is too short for a two-character pattern or does not open with it. */
  lemma CopiedShort(b: string, pat: string, rep: string)
    requires |pat| == 2 && |b| > 0 && !(|b| >= 2 && pat <= b)
    ensures ReplaceAll(b, pat, rep) == [b[0]] + ReplaceAll(b[1..], pat, rep)
  {
    assert !(pat <= b) by {
      if |b| < 2 {
        assert |b| < |pat|;
      }
    }
    CopiedFirst(b, pat, rep);
  }

  /** `CopiedFirst` for `b + tail`, whose first character is `b`'s. */
  lemma CopiedAcross(b: string, tail: string, pat: string, rep: string)
    requires |pat| == 2 && |b| > 0 && !(|b| >= 2 && pat <= b)
    requires forall i :: 0 <= i < |tail| ==> tail[i] != pat[0]
    requires |tail| > 0 ==> tail[0] != pat[1]
    ensures ReplaceAll(b + tail, pat, rep) == [b[0]] + ReplaceAll(b[1..] + tail, pat, rep)
  {
    var s := b + tail;
    NoMatchAcross(b, tail, pat);
    CopiedFirst(s, pat, rep);
    assert s[0] == b[0];
    assert s[1..] == b[1..] + tail;
  }

  lemma ConsAppend(c: char, x: string, tail: string)
    ensures [c] + (x + tail) == ([c] + x) + tail
  {
  }
}
