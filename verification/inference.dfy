/**
 * The inference library as both the background script and the worker see it: a pipeline of
 * one of two kinds, the shapes of its outputs, and the two checks each caller applies to them.
 * The inference itself is a parameter (`Backend`).
 */
module Inference {
  import opened Wrappers
  import opened Errors
  import opened Messaging

  datatype PipelineKind = GenerationPipeline | ClassificationPipeline

  /** The kind of pipeline `pipeline(task, …)` builds for a task. */
  function KindFor(t: Task): PipelineKind {
    match t
    case TextGeneration => GenerationPipeline
    case TextClassification => ClassificationPipeline
  }

  /** A built pipeline: its kind and the name of the model it was loaded with. */
  datatype Pipeline = Pipeline(kind: PipelineKind, loadedName: string)

  /** The pipeline `pipeline(model.task, model.name, …)` builds. */
  function Build(m: Model): Pipeline {
    Pipeline(KindFor(m.task), m.name)
  }

  /** One chat message: a role and its content. */
  datatype ChatMessage = ChatMessage(role: string, content: string)

  /** One element of a generation pipeline's result: a chat transcript or plain text. */
  datatype GeneratedItem = Transcript(messages: seq<ChatMessage>) | PlainText(text: string)

  /** One classifier answer (the `label` and `score` properties); either may be absent. */
  datatype RawLabel = RawLabel(labelName: Option<string>, score: Option<real>)

  /** A classification pipeline's result: an array of answers, or a single (possibly missing) one. */
  datatype ClassifierOutput = Many(items: seq<RawLabel>) | One(item: Option<RawLabel>)

  /**
   * The inference calls, as functions of the loaded model's name and the input; `None` is a
   * call whose promise rejects.
   */
  datatype Backend = Backend(
    generate: (string, seq<ChatMessage>) -> Option<seq<GeneratedItem>>,
    classify: (string, string) -> Option<ClassifierOutput>)

  /**
   * The generated text: the content of the last message of the first result's transcript, or
   * `undefined` when the first result is not a transcript or the transcript is empty.
   * An empty result array makes the `in` test throw.
   */
  function LastMessageContent(generated: seq<GeneratedItem>): (r: Result<Option<string>, Error>)
    ensures r.Err? <==> |generated| == 0
    ensures r.Err? ==> r.error == TypeError
    ensures r.Ok? && r.value.Some? ==>
      generated[0].Transcript? && |generated[0].messages| > 0
      && r.value.value == generated[0].messages[|generated[0].messages| - 1].content
    ensures r.Ok? && r.value.None? ==> generated[0].PlainText? || generated[0].messages == []
  {
    if |generated| == 0 then Err(TypeError)
    else match generated[0]
      case Transcript(ms) => Ok(if |ms| > 0 then Some(ms[|ms| - 1].content) else None)
      case PlainText(_) => Ok(None)
  }

  /**
   * The label and score of a classifier result: the first element of an array, or the single
   * answer; a missing answer, label or score is a format error.
   */
  function FirstClassification(out: ClassifierOutput): (r: Result<(string, real), Error>)
    ensures r.Err? ==> r.error == InvalidClassificationFormat
    ensures out.Many? ==>
      (r.Ok? <==> |out.items| > 0 && out.items[0].labelName.Some? && out.items[0].score.Some?)
    ensures out.Many? && r.Ok? ==> r.value == (out.items[0].labelName.value, out.items[0].score.value)
    ensures out.One? ==>
      (r.Ok? <==> out.item.Some? && out.item.value.labelName.Some? && out.item.value.score.Some?)
    ensures out.One? && r.Ok? ==> r.value == (out.item.value.labelName.value, out.item.value.score.value)
  {
    var result := match out
      case Many(items) => if |items| > 0 then Some(items[0]) else None
      case One(item) => item;
    if result.None? || result.value.labelName.None? || result.value.score.None? then
      Err(InvalidClassificationFormat)
    else
      Ok((result.value.labelName.value, result.value.score.value))
  }

  /** Runs the generation pipeline and takes the generated text; a rejected call propagates. */
  function GeneratedText(backend: Backend, loadedName: string, messages: seq<ChatMessage>): (r: Result<Option<string>, Error>)
    ensures r.Err? <==> backend.generate(loadedName, messages).None? || backend.generate(loadedName, messages).value == []
    ensures r.Err? ==> r.error == (if backend.generate(loadedName, messages).None? then InferenceFailed else TypeError)
  {
    match backend.generate(loadedName, messages)
    case None => Err(InferenceFailed)
    case Some(generated) => LastMessageContent(generated)
  }

  /** Runs the classification pipeline and takes its first answer; a rejected call propagates. */
  function Classification(backend: Backend, loadedName: string, input: string): (r: Result<(string, real), Error>)
    ensures backend.classify(loadedName, input).None? ==> r == Err(InferenceFailed)
    ensures r.Err? ==> r.error == InferenceFailed || r.error == InvalidClassificationFormat
  {
    match backend.classify(loadedName, input)
    case None => Err(InferenceFailed)
    case Some(out) => FirstClassification(out)
  }
}
