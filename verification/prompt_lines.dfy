/**
 * The fixed lines of the prompt templates in background.ts, with the facts about their
 * characters that dedenting them depends on.
 */
module PromptLines {
  /** The indentation of the prompt templates' lines, and of their closing lines, in background.ts. */
  const PromptIndent: nat := 14
  const PromptClosingIndent: nat := 12

  /* Each line is written as a concatenation of short literals, which the verifier inspects one at a time. */
  const SystemLine1: string :=
    "You are a helpful " + "assistant that " + "analyzes the " + "sentiment of text."
  const SystemLine2: string :=
    "Especially, you " + "detect negative " + "comments about " + "F1 drivers."
  const AnalyzeLine: string :=
    "Analyze the " + "sentiment of the " + "input text and " + "return the result " + "in following format:"
  const SentimentFormatLine: string := "sentiment:" + "positive|negative" + "|neutral"
  const ConfidenceFormatLine: string := "confidence:" + "0.0-1.0"
  const InputLabel: string := "Input: "
  const OutputLabel: string := "Output:"

  /* No template line holds a line break or a backslash. */

  lemma SystemLine1NoBreak() ensures '\n' !in SystemLine1 {}
  lemma SystemLine1NoBackslash() ensures '\\' !in SystemLine1 {}
  lemma SystemLine2NoBreak() ensures '\n' !in SystemLine2 {}
  lemma SystemLine2NoBackslash() ensures '\\' !in SystemLine2 {}
  lemma AnalyzeLineNoBreak() ensures '\n' !in AnalyzeLine {}
  lemma AnalyzeLineNoBackslash() ensures '\\' !in AnalyzeLine {}

  lemma FormatLinesNoBreak()
    ensures '\n' !in SentimentFormatLine && '\n' !in ConfidenceFormatLine
  {}

  lemma FormatLinesNoBackslash()
    ensures '\\' !in SentimentFormatLine && '\\' !in ConfidenceFormatLine
  {}

  lemma LabelsNoBreakNorBackslash()
    ensures '\n' !in InputLabel && '\\' !in InputLabel
    ensures '\n' !in OutputLabel && '\\' !in OutputLabel
  {}

  /** The first character of every line, and the last of each template's final line. */
  lemma LineEdges()
    ensures SystemLine1[0] == 'Y' && SystemLine2[0] == 'E' && SystemLine2[|SystemLine2| - 1] == '.'
    ensures AnalyzeLine[0] == 'A' && SentimentFormatLine[0] == 's' && ConfidenceFormatLine[0] == 'c'
    ensures InputLabel[0] == 'I' && OutputLabel[0] == 'O' && OutputLabel[|OutputLabel| - 1] == ':'
  {}
}
