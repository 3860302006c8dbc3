/**
 * The `dedent` template tag (version 1 of the npm package) as the background script applies
 * it to its two prompt templates: the values are interpolated first, then the smallest
 * indentation of any indented line is cut from every line that starts with a space or tab,
 * the whole text is trimmed, and every backslash-`n` pair becomes a line break.
 */
module DedentTag {
  import opened Wrappers
  import opened Text

  /** `n` spaces. */
  function Spaces(n: nat): (r: string)
    ensures |r| == n
    ensures forall i :: 0 <= i < n ==> r[i] == ' '
  {
    seq(n, _ => ' ')
  }

  /** `ls.join("\n")`. */
  function JoinLines(ls: seq<string>): string
    requires |ls| > 0
    decreases |ls|
  {
    if |ls| == 1 then ls[0] else ls[0] + "\n" + JoinLines(ls[1..])
  }

  /** `s.split("\n")`: the lines between line breaks, at least one. */
  function SplitLines(s: string): (ls: seq<string>)
    ensures |ls| > 0
    ensures forall i :: 0 <= i < |ls| ==> '\n' !in ls[i]
    ensures JoinLines(ls) == s
    decreases |s|
  {
    if |s| == 0 then [""]
    else
      var rest := SplitLines(s[1..]);
      if s[0] == '\n' then
        assert ([""] + rest)[1..] == rest;
        assert s == "" + "\n" + s[1..];
        [""] + rest
      else
        var ls := [[s[0]] + rest[0]] + rest[1..];
        assert |rest| > 1 ==> ls[1..] == rest[1..] && JoinLines(rest) == rest[0] + "\n" + JoinLines(rest[1..]);
        assert s == [s[0]] + s[1..];
        ls
  }

  /** Splitting a prefix without line breaks glues it to the first line. */
  lemma {:induction false} SplitPrefix(a: string, s: string)
    requires '\n' !in a
    ensures SplitLines(a + s) == [a + SplitLines(s)[0]] + SplitLines(s)[1..]
    decreases |a|
  {
    if |a| > 0 {
      assert (a + s)[0] == a[0] && (a + s)[1..] == a[1..] + s;
      SplitPrefix(a[1..], s);
      assert [a[0]] + (a[1..] + SplitLines(s)[0]) == a + SplitLines(s)[0];
    } else {
      assert a + s == s;
      assert a + SplitLines(s)[0] == SplitLines(s)[0];
      assert [SplitLines(s)[0]] + SplitLines(s)[1..] == SplitLines(s);
    }
  }

  /** Splitting undoes joining lines that hold no line break. */
  lemma {:induction false} SplitJoin(ls: seq<string>)
    requires |ls| > 0
    requires forall i :: 0 <= i < |ls| ==> '\n' !in ls[i]
    ensures SplitLines(JoinLines(ls)) == ls
    decreases |ls|
  {
    if |ls| == 1 {
      SplitPrefix(ls[0], "");
      assert ls[0] + "" == ls[0];
    } else {
      var j := JoinLines(ls[1..]);
      SplitJoin(ls[1..]);
      assert ("\n" + j)[1..] == j;
      assert SplitLines("\n" + j) == [""] + ls[1..];
      assert JoinLines(ls) == ls[0] + ("\n" + j);
      SplitPrefix(ls[0], "\n" + j);
      assert ls[0] + "" == ls[0];
      assert ls == [ls[0]] + ls[1..];
    }
  }

  /** Joining lines that lack a character other than the line break gives a text that lacks it. */
  lemma {:induction false} JoinLinesWithout(ls: seq<string>, ch: char)
    requires |ls| > 0 && ch != '\n'
    requires forall i :: 0 <= i < |ls| ==> ch !in ls[i]
    ensures forall i :: 0 <= i < |JoinLines(ls)| ==> JoinLines(ls)[i] != ch
    decreases |ls|
  {
    if |ls| > 1 {
      JoinLinesWithout(ls[1..], ch);
    }
  }

  /** Joining two non-empty runs of lines puts one line break between them. */
  lemma {:induction false} JoinAppend(a: seq<string>, b: seq<string>)
    requires |a| > 0 && |b| > 0
    ensures JoinLines(a + b) == JoinLines(a) + "\n" + JoinLines(b)
    decreases |a|
  {
    if |a| == 1 {
      assert (a + b)[1..] == b;
    } else {
      assert (a + b)[1..] == a[1..] + b;
      JoinAppend(a[1..], b);
    }
  }

  /** The joined text starts with the first line's first character and ends with the last line's last one. */
  lemma {:induction false} JoinEnds(ls: seq<string>)
    requires |ls| > 0 && |ls[0]| > 0 && |ls[|ls| - 1]| > 0
    ensures var j := JoinLines(ls); var last := ls[|ls| - 1];
      |j| > 0 && j[0] == ls[0][0] && j[|j| - 1] == last[|last| - 1]
    decreases |ls|
  {
    if |ls| > 1 {
      var j := JoinLines(ls[1..]);
      var last := ls[|ls| - 1];
      assert ls[1..][|ls[1..]| - 1] == last;
      if |ls[1]| > 0 {
        JoinEnds(ls[1..]);
      } else {
        assert |ls| > 2 ==> ls[2..] == ls[1..][1..];
        assert |ls| > 2 ==> j == "" + "\n" + JoinLines(ls[2..]);
        assert |ls| > 2;
        JoinEndsLast(ls[2..]);
      }
      assert JoinLines(ls) == (ls[0] + "\n") + j;
    }
  }

  /** The joined text ends with the last line's last character. */
  lemma {:induction false} JoinEndsLast(ls: seq<string>)
    requires |ls| > 0 && |ls[|ls| - 1]| > 0
    ensures var j := JoinLines(ls); var last := ls[|ls| - 1];
      |j| > 0 && j[|j| - 1] == last[|last| - 1]
    decreases |ls|
  {
    if |ls| > 1 {
      assert ls[1..][|ls[1..]| - 1] == ls[|ls| - 1];
      JoinEndsLast(ls[1..]);
      assert JoinLines(ls) == (ls[0] + "\n") + JoinLines(ls[1..]);
    }
  }

  /** Trimming a template's joined lines between its opening and closing line yields the lines. */
  lemma TrimJoined(lines: seq<string>, c: nat)
    requires |lines| > 0 && FlushLines(lines) && |lines[0]| > 0
    requires |lines[|lines| - 1]| > 0 && !IsSpace(lines[|lines| - 1][|lines[|lines| - 1]| - 1])
    ensures Trim("\n" + JoinLines(lines) + ("\n" + Spaces(c))) == JoinLines(lines)
  {
    JoinEnds(lines);
    var b := "\n" + Spaces(c);
    assert forall j :: 0 <= j < |b| ==> IsSpace(b[j]);
    TrimPadded("\n", JoinLines(lines), b);
  }

  /**
   * The indentation of a line as `/^(\s+)\S+/` measures it: the length of a leading run of
   * white space that is followed by something else.
   */
  function IndentOf(l: string): (r: Option<nat>)
    ensures r.Some? ==> 0 < r.value < |l| && !IsSpace(l[r.value])
    ensures r.Some? ==> forall i :: 0 <= i < r.value ==> IsSpace(l[i])
    ensures r.None? ==> |l| == 0 || !IsSpace(l[0]) || forall i :: 0 <= i < |l| ==> IsSpace(l[i])
  {
    var k := SpaceRunEnd(l, 0);
    if 0 < k < |l| then Some(k) else None
  }

  /** The smaller of two optional indentations; an absent one does not count. */
  function Smaller(a: Option<nat>, b: Option<nat>): Option<nat> {
    match (a, b)
    case (None, _) => b
    case (_, None) => a
    case (Some(x), Some(y)) => Some(if x <= y then x else y)
  }

  /** `mindent`: the smallest indentation of any indented line, if there is one. */
  function MinIndent(ls: seq<string>): (r: Option<nat>)
    ensures r.Some? <==> exists i :: 0 <= i < |ls| && IndentOf(ls[i]).Some?
    ensures r.Some? ==> forall i :: 0 <= i < |ls| && IndentOf(ls[i]).Some? ==> r.value <= IndentOf(ls[i]).value
    ensures r.Some? ==> exists i :: 0 <= i < |ls| && IndentOf(ls[i]) == r
    decreases |ls|
  {
    if |ls| == 0 then None
    else
      var rest := MinIndent(ls[1..]);
      assert forall i :: 1 <= i < |ls| ==> ls[1..][i - 1] == ls[i];
      assert rest.Some? ==> exists i :: 1 <= i < |ls| && IndentOf(ls[i]) == rest by {
        if rest.Some? {
          var i :| 0 <= i < |ls[1..]| && IndentOf(ls[1..][i]) == rest;
          assert IndentOf(ls[i + 1]) == rest;
        }
      }
      Smaller(IndentOf(ls[0]), rest)
  }

  /** `l[0] === " " || l[0] === "\t" ? l.slice(m) : l`. */
  function StripLine(l: string, m: nat): string {
    if |l| > 0 && (l[0] == ' ' || l[0] == '\t') then l[(if m < |l| then m else |l|)..] else l
  }

  /** Every line with `m` columns of indentation cut. */
  function StripAll(ls: seq<string>, m: nat): (r: seq<string>)
    ensures |r| == |ls|
  {
    seq(|ls|, i requires 0 <= i < |ls| => StripLine(ls[i], m))
  }

  /** `.replace(/\\n/g, "\n")`: each backslash-`n` pair becomes a line break. */
  function Unescape(s: string): string {
    ReplaceAll(s, "\\n", "\n")
  }

  /**
   * Unescaping text between a backslash-free head and a backslash-free tail that opens with a
   * line break unescapes only the middle.
   */
  lemma UnescapeBetween(head: string, mid: string, tail: string)
    requires forall i :: 0 <= i < |head| ==> head[i] != '\\'
    requires forall i :: 0 <= i < |tail| ==> tail[i] != '\\'
    requires |tail| > 0 && tail[0] == '\n'
    ensures Unescape(head + mid + tail) == head + Unescape(mid) + tail
  {
    assert head + mid + tail == head + (mid + tail);
    ReplaceAllCopiesPrefix(head, mid + tail, "\\n", "\n");
    ReplaceAllKeepsSuffix(mid, tail, "\\n", "\n");
  }

  /** A backslash-`n` pair between two other characters becomes a line break. */
  lemma UnescapeOnePair()
    ensures Unescape("a\\nb") == "a\nb"
  {
    var s := "a\\nb";
    assert !("\\n" <= s);
    assert s[1..] == "\\n" + "b";
    ReplaceAllLeading("\\n", "b", "\n");
    assert !("\\n" <= "b");
  }

  /** `dedent` applied to the interpolated text `s` (the escape handling of the raw template text aside). */
  function Dedent(s: string): string {
    var ls := SplitLines(s);
    var stripped := if MinIndent(ls).Some? then JoinLines(StripAll(ls, MinIndent(ls).value)) else s;
    Unescape(Trim(stripped))
  }

  /** A line of a template's source text: indented by `k` spaces unless it is blank. */
  function Indented(l: string, k: nat): string {
    if |l| == 0 then l else Spaces(k) + l
  }

  /**
   * The text of a template literal that opens with a line break, writes each of `lines`
   * indented by `k`, and closes on a line of its own indented by `c`.
   */
  function TemplateText(lines: seq<string>, k: nat, c: nat): string
    requires |lines| > 0
  {
    "\n" + JoinLines(seq(|lines|, i requires 0 <= i < |lines| => Indented(lines[i], k))) + "\n" + Spaces(c)
  }

  /** Lines without line breaks whose non-blank ones start with something other than white space. */
  predicate FlushLines(lines: seq<string>) {
    forall i :: 0 <= i < |lines| ==> '\n' !in lines[i] && (|lines[i]| > 0 ==> !IsSpace(lines[i][0]))
  }

  /** The indentation of an indented template line is the indentation it was given. */
  lemma IndentOfIndented(l: string, k: nat)
    requires k > 0 && |l| > 0 && !IsSpace(l[0])
    ensures IndentOf(Spaces(k) + l) == Some(k)
  {
    var s := Spaces(k) + l;
    assert s[k] == l[0];
    assert forall i :: 0 <= i < k ==> s[i] == ' ';
  }

  /** If every indented line has indentation `k`, and one exists, `mindent` is `k`. */
  lemma MinIndentUniform(ls: seq<string>, k: nat, w: nat)
    requires w < |ls| && IndentOf(ls[w]) == Some(k)
    requires forall i :: 0 <= i < |ls| ==> IndentOf(ls[i]).None? || IndentOf(ls[i]) == Some(k)
    ensures MinIndent(ls) == Some(k)
  {
    var r := MinIndent(ls);
    assert r.Some?;
    var i :| 0 <= i < |ls| && IndentOf(ls[i]) == r;
  }

  /** The lines of a template's source text: the opening blank line, the indented lines, the closing line. */
  function TemplateLines(lines: seq<string>, k: nat, c: nat): (all: seq<string>)
    ensures |all| == |lines| + 2
  {
    [""] + seq(|lines|, i requires 0 <= i < |lines| => Indented(lines[i], k)) + [Spaces(c)]
  }

  /** Splitting a template's text yields its source lines. */
  lemma SplitTemplate(lines: seq<string>, k: nat, c: nat)
    requires |lines| > 0 && FlushLines(lines)
    ensures SplitLines(TemplateText(lines, k, c)) == TemplateLines(lines, k, c)
  {
    var body := seq(|lines|, i requires 0 <= i < |lines| => Indented(lines[i], k));
    var all := TemplateLines(lines, k, c);
    JoinAppend([""], body + [Spaces(c)]);
    JoinAppend(body, [Spaces(c)]);
    assert [""] + (body + [Spaces(c)]) == all;
    assert JoinLines(all) == TemplateText(lines, k, c);
    assert forall i :: 0 <= i < |all| ==> '\n' !in all[i];
    SplitJoin(all);
  }

  /** A template with a non-blank first line has `mindent` equal to its indentation. */
  lemma TemplateIndent(lines: seq<string>, k: nat, c: nat)
    requires |lines| > 0 && k > 0 && FlushLines(lines) && |lines[0]| > 0
    ensures MinIndent(TemplateLines(lines, k, c)) == Some(k)
  {
    var all := TemplateLines(lines, k, c);
    forall i | 0 <= i < |all|
      ensures IndentOf(all[i]).None? || IndentOf(all[i]) == Some(k)
    {
      if 1 <= i <= |lines| && |lines[i - 1]| > 0 {
        IndentOfIndented(lines[i - 1], k);
      }
    }
    IndentOfIndented(lines[0], k);
    MinIndentUniform(all, k, 1);
  }

  /** Cutting the indentation from a template's source lines gives back its lines. */
  lemma StripTemplate(lines: seq<string>, k: nat, c: nat)
    requires |lines| > 0 && FlushLines(lines)
    ensures StripAll(TemplateLines(lines, k, c), k) == [""] + lines + [Spaces(c - (if k < c then k else c))]
  {
    var all := TemplateLines(lines, k, c);
    var stripped := StripAll(all, k);
    var c' := c - (if k < c then k else c);
    var want := [""] + lines + [Spaces(c')];
    forall i | 0 <= i < |all|
      ensures stripped[i] == want[i]
    {
      if 1 <= i <= |lines| && |lines[i - 1]| > 0 {
        assert all[i] == Spaces(k) + lines[i - 1];
      } else if i == |all| - 1 && c > 0 {
        assert all[i] == Spaces(c);
        assert Spaces(c)[(if k < c then k else c)..] == Spaces(c');
      }
    }
  }

  /** `dedent` of a text whose `mindent` is `m`: the stripped lines, joined, trimmed and unescaped. */
  lemma DedentIndented(s: string, m: nat)
    requires MinIndent(SplitLines(s)) == Some(m)
    ensures Dedent(s) == Unescape(Trim(JoinLines(StripAll(SplitLines(s), m))))
  {
  }

  /** Regrouping `e + a + (m + a + s)` when `e` is empty. */
  lemma Regroup<T>(e: seq<T>, a: seq<T>, m: seq<T>, s: seq<T>)
    requires e == []
    ensures e + a + (m + a + s) == a + m + (a + s)
  {
  }

  /** Lines between a blank first line and a closing line of spaces, joined. */
  lemma JoinBetween(lines: seq<string>, c: nat)
    requires |lines| > 0
    ensures JoinLines([""] + lines + [Spaces(c)]) == "\n" + JoinLines(lines) + ("\n" + Spaces(c))
  {
    var tail := lines + [Spaces(c)];
    var m := JoinLines(lines);
    JoinAppend(lines, [Spaces(c)]);
    assert JoinLines(tail) == m + "\n" + Spaces(c);
    assert ([""] + tail)[1..] == tail;
    assert JoinLines([""] + tail) == "" + "\n" + JoinLines(tail);
    assert [""] + lines + [Spaces(c)] == [""] + tail;
    Regroup("", "\n", m, Spaces(c));
  }

  /**
   * A template whose lines are flush and whose first and last lines are not blank dedents to
   * its lines joined, with backslash-`n` pairs turned into line breaks.
   */
  lemma DedentTemplate(lines: seq<string>, k: nat, c: nat)
    requires |lines| > 0 && k > 0 && FlushLines(lines)
    requires |lines[0]| > 0
    requires |lines[|lines| - 1]| > 0 && !IsSpace(lines[|lines| - 1][|lines[|lines| - 1]| - 1])
    ensures Dedent(TemplateText(lines, k, c)) == Unescape(JoinLines(lines))
  {
    var all := TemplateLines(lines, k, c);
    SplitTemplate(lines, k, c);
    TemplateIndent(lines, k, c);
    StripTemplate(lines, k, c);
    var c' := c - (if k < c then k else c);
    DedentIndented(TemplateText(lines, k, c), k);
    JoinBetween(lines, c');
    TrimJoined(lines, c');
  }
}
