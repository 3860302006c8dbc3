/** The errors thrown by the decision pipeline, one constructor per `throw` site. */
module Errors {

  datatype Error =
      /** Generated text is `undefined` or empty. */
    | EmptyOutput
      /** One of the two pattern searches over generated text found nothing. */
    | OutputFormatIncorrect
      /** The captured confidence parsed to a value outside [0, 1]. */
    | ConfidenceInvalid(received: real)
      /** A classifier label that does not normalise to one of the five labels. */
    | UnknownSentimentLabel(normalised: string)
      /** The classifier result is missing, or lacks `label` or `score`. */
    | InvalidClassificationFormat
      /** Background script: the Phi model met a pipeline that is not a generation pipeline. */
    | NotTextGenerationPipeline
      /** Background script: the classifier model met a pipeline that is not a classification pipeline. */
    | NotTextClassificationPipeline
      /** Background script: the requested model name is neither of the two known ones. */
    | UnknownModel(name: string)
      /** Worker: text generation was requested without prompts. */
    | PromptsRequired
      /** Worker: the cached pipeline has the wrong kind for the requested model. */
    | InvalidGeneratorType
      /** A runtime `TypeError`: indexing an empty generation result, or a missing prompt. */
    | TypeError
      /** The `pipeline(task, model, …)` call that loads a model rejected (download or device failure). */
    | LoadFailed
      /** A call of a loaded pipeline rejected. */
    | InferenceFailed
      /** IndexedDB: a record was added under a key the store already holds; the transaction aborts. */
    | ConstraintError
}
