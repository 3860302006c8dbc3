/**
 * The two chat messages the background script sends to the generative model: a fixed system
 * prompt and a user prompt with the comment interpolated, both written as `dedent` templates.
 */
module Prompts {
  import opened Text
  import opened DedentTag
  import opened Inference
  import opened PromptLines

  /** The lines of the system prompt template. */
  const SystemLines: seq<string> := [SystemLine1, SystemLine2]

  /** The lines of the user prompt template, with the comment interpolated after `Input: `. */
  function UserLines(comment: string): seq<string> {
    [AnalyzeLine, "", SentimentFormatLine, ConfidenceFormatLine, "", InputLabel + comment, "", OutputLabel]
  }

  /** The system prompt the model receives. */
  const SystemPrompt: string := JoinLines(SystemLines)

  /** The user prompt up to the comment, and after it. */
  const UserPromptHead: string :=
    JoinLines([AnalyzeLine, "", SentimentFormatLine, ConfidenceFormatLine, ""]) + "\n" + InputLabel
  const UserPromptTail: string := "\n" + JoinLines(["", OutputLabel])

  /**
   * The two chat messages sent to the generative model: the two `dedent` templates, the
   * second with the comment interpolated before dedenting.
   */
  function PromptMessages(comment: string): (ms: seq<ChatMessage>)
    ensures |ms| == 2 && ms[0].role == "system" && ms[1].role == "user"
  {
    [ChatMessage("system", Dedent(TemplateText(SystemLines, PromptIndent, PromptClosingIndent))),
     ChatMessage("user", Dedent(TemplateText(UserLines(comment), PromptIndent, PromptClosingIndent)))]
  }

  /** A template line: no line break, no backslash, and no white space at its start. */
  predicate PlainLine(l: string) {
    '\n' !in l && '\\' !in l && (|l| > 0 ==> !IsSpace(l[0]))
  }

  lemma SystemLinesPlain()
    ensures PlainLine(SystemLine1) && PlainLine(SystemLine2)
    ensures SystemLine2[|SystemLine2| - 1] == '.'
  {
    SystemLine1NoBreak();
    SystemLine1NoBackslash();
    SystemLine2NoBreak();
    SystemLine2NoBackslash();
    LineEdges();
  }

  lemma UserLinesPlain()
    ensures PlainLine(AnalyzeLine) && PlainLine(SentimentFormatLine) && PlainLine(ConfidenceFormatLine)
    ensures PlainLine(InputLabel) && PlainLine(OutputLabel) && OutputLabel[|OutputLabel| - 1] == ':'
  {
    AnalyzeLineNoBreak();
    AnalyzeLineNoBackslash();
    FormatLinesNoBreak();
    FormatLinesNoBackslash();
    LabelsNoBreakNorBackslash();
    LineEdges();
  }

  /** Plain lines make a flush template with no backslash in its joined text. */
  lemma PlainLines(ls: seq<string>)
    requires |ls| > 0 && forall i :: 0 <= i < |ls| ==> PlainLine(ls[i])
    ensures FlushLines(ls)
    ensures forall i :: 0 <= i < |JoinLines(ls)| ==> JoinLines(ls)[i] != '\\'
  {
    JoinLinesWithout(ls, '\\');
  }

  /** The system message is the two system lines, joined. */
  lemma SystemPromptDedented(comment: string)
    ensures PromptMessages(comment)[0].content == SystemPrompt
  {
    SystemLinesPlain();
    PlainLines(SystemLines);
    DedentTemplate(SystemLines, PromptIndent, PromptClosingIndent);
    ReplaceAllWithoutFirst(SystemPrompt, "\\n", "\n");
  }

  /** The user template's lines joined are the head, the comment and the tail. */
  lemma UserLinesJoined(comment: string)
    ensures JoinLines(UserLines(comment)) == UserPromptHead + comment + UserPromptTail
  {
    var front := [AnalyzeLine, "", SentimentFormatLine, ConfidenceFormatLine, ""];
    var back := [InputLabel + comment, "", OutputLabel];
    assert UserLines(comment) == front + back;
    JoinAppend(front, back);
    assert back[1..] == ["", OutputLabel];
    assert JoinLines(back) == InputLabel + comment + ("\n" + JoinLines(["", OutputLabel]));
  }

  /** For a comment without a line break, the user message is the joined template lines, unescaped. */
  lemma UserTemplateDedented(comment: string)
    requires '\n' !in comment
    ensures PromptMessages(comment)[1].content == Unescape(UserPromptHead + comment + UserPromptTail)
  {
    UserLinesPlain();
    var lines := UserLines(comment);
    assert FlushLines(lines) by {
      assert lines[5][0] == InputLabel[0];
    }
    DedentTemplate(lines, PromptIndent, PromptClosingIndent);
    UserLinesJoined(comment);
  }

  /**
   * For a comment without a line break, the user message is the template's text with the
   * comment in place, except that each backslash-`n` pair in the comment becomes a line break.
   */
  lemma UserPromptDedented(comment: string)
    requires '\n' !in comment
    ensures PromptMessages(comment)[1].content == UserPromptHead + Unescape(comment) + UserPromptTail
  {
    UserTemplateDedented(comment);
    UserPromptEdgesPlain();
    UnescapeBetween(UserPromptHead, comment, UserPromptTail);
  }

  /** The user prompt's fixed parts hold no backslash, and the tail opens with a line break. */
  lemma UserPromptEdgesPlain()
    ensures forall i :: 0 <= i < |UserPromptHead| ==> UserPromptHead[i] != '\\'
    ensures forall i :: 0 <= i < |UserPromptTail| ==> UserPromptTail[i] != '\\'
    ensures |UserPromptTail| > 0 && UserPromptTail[0] == '\n'
  {
    UserLinesPlain();
    PlainLines([AnalyzeLine, "", SentimentFormatLine, ConfidenceFormatLine, ""]);
    PlainLines(["", OutputLabel]);
  }

  /** The user message of a comment without a line break or backslash-`n` pair embeds it verbatim. */
  lemma UserPromptVerbatim(comment: string)
    requires '\n' !in comment && !Occurs(comment, "\\n")
    ensures PromptMessages(comment)[1].content == UserPromptHead + comment + UserPromptTail
    ensures PromptMessages(comment)[1].content[..|UserPromptHead|] == UserPromptHead
    ensures PromptMessages(comment)[1].content[|UserPromptHead| + |comment|..] == UserPromptTail
  {
    UserPromptDedented(comment);
    ReplaceAllAbsent(comment, "\\n", "\n");
    PartsOfThree(UserPromptHead, comment, UserPromptTail);
  }

  /** The first and last parts of a three-part concatenation, cut back out of it. */
  lemma PartsOfThree(a: string, b: string, c: string)
    ensures (a + b + c)[..|a|] == a && (a + b + c)[|a| + |b|..] == c
  {
  }

  /** A comment holding a backslash-`n` pair reaches the model with a line break in its place. */
  lemma EscapedCommentUnescaped()
    ensures PromptMessages("a\\nb")[1].content == UserPromptHead + "a\nb" + UserPromptTail
  {
    UserPromptDedented("a\\nb");
    UnescapeOnePair();
  }
}
