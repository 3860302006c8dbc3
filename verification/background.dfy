/**
 * The background script: it caches one pipeline and answers `analyzeSentiment` requests,
 * dispatching on the requested model's name.
 */
module Background {
  import opened Wrappers
  import opened Errors
  import opened Messaging
  import opened Inference
  import opened OutputParser
  import opened Labels
  import opened Prompts

  /** An `analyzeSentiment` request; the model is absent when the sender leaves it out. */
  datatype Request = Request(comment: string, model: Option<Model>)

  /** The cached pipeline after the request, and the answer or the error thrown. */
  datatype Reply = Reply(generator: Option<Pipeline>, result: Result<AnalyzeSentimentResult, Error>)

  /** The cached pipeline can serve `m` iff there is one and its kind matches the model's task. */
  predicate Reusable(generator: Option<Pipeline>, m: Model) {
    generator.Some? && generator.value.kind == KindFor(m.task)
  }

  /**
   * `initPipeline`: keeps a cached pipeline of the right kind, otherwise loads one for the
   * model; `loadResolves` says whether that load succeeds.
   */
  function InitPipeline(generator: Option<Pipeline>, m: Model, loadResolves: bool): (r: Result<Pipeline, Error>)
    ensures Reusable(generator, m) ==> r == Ok(generator.value)
    ensures !Reusable(generator, m) ==> (r.Ok? <==> loadResolves)
    ensures r.Ok? ==> r.value.kind == KindFor(m.task)
    ensures r.Ok? && !Reusable(generator, m) ==> r.value.loadedName == m.name
    ensures r.Err? ==> r.error == LoadFailed
  {
    if Reusable(generator, m) then Ok(generator.value)
    else if loadResolves then Ok(Build(m))
    else Err(LoadFailed)
  }

  /** The cached pipeline after `initPipeline`: a failed load leaves the old one in place. */
  function CachedAfter(generator: Option<Pipeline>, m: Model, loadResolves: bool): Option<Pipeline> {
    match InitPipeline(generator, m, loadResolves)
    case Ok(p) => Some(p)
    case Err(_) => generator
  }

  /** The Phi branch, once the pipeline is known to be a generation pipeline. */
  function GenerateAnswer(p: Pipeline, m: Model, comment: string, backend: Backend): (r: Result<AnalyzeSentimentResult, Error>)
    ensures r.Ok? ==> r.value.Generated? && r.value.modelName == m.name
    ensures r.Ok? ==> IsGenerativeSentiment(r.value.sentiment) && 0.0 <= r.value.confidence <= 1.0
    ensures r.Err? ==> r.error in {InferenceFailed, TypeError, EmptyOutput, OutputFormatIncorrect} || r.error.ConfidenceInvalid?
  {
    var text :- GeneratedText(backend, p.loadedName, PromptMessages(comment));
    var parsed :- ParseOutput(text);
    Ok(Generated(m.name, parsed.sentiment, parsed.confidence))
  }

  /** The classifier branch, once the pipeline is known to be a classification pipeline. */
  function ClassifyAnswer(p: Pipeline, m: Model, comment: string, backend: Backend): (r: Result<AnalyzeSentimentResult, Error>)
    ensures r.Ok? ==> r.value.Classified? && r.value.modelName == m.name
    ensures r.Err? ==> r.error in {InferenceFailed, InvalidClassificationFormat} || r.error.UnknownSentimentLabel?
  {
    var labelAndScore :- Classification(backend, p.loadedName, comment);
    var sentiment :- ParseLabel(labelAndScore.0);
    Ok(Classified(m.name, sentiment, labelAndScore.1))
  }

  /** The `analyzeSentiment` handler; `loadResolves` says whether a pipeline load it starts succeeds. */
  function AnalyzeSentiment(generator: Option<Pipeline>, req: Request, loadResolves: bool, backend: Backend): (r: Reply)
    ensures req.model.None? ==> r == Reply(generator, Err(TypeError))
    ensures req.model.Some? ==> r.generator == CachedAfter(generator, req.model.value, loadResolves)
    ensures req.model.Some? && InitPipeline(generator, req.model.value, loadResolves).Err? ==>
      r == Reply(generator, Err(LoadFailed))
    ensures r.result.Ok? ==> req.model.Some? && AnswersFor(req.model.value, r.result.value)
    ensures r.result.Ok? && r.result.value.Generated? ==> 0.0 <= r.result.value.confidence <= 1.0
    ensures
      && req.model.Some? && req.model.value.name != PhiName && req.model.value.name != TabularisaiName
      && InitPipeline(generator, req.model.value, loadResolves).Ok?
      ==> r.result == Err(UnknownModel(req.model.value.name))
    ensures req.model.Some? && IsKnownModel(req.model.value) ==>
      r.result != Err(NotTextGenerationPipeline) && r.result != Err(NotTextClassificationPipeline)
  {
    match req.model
    case None => Reply(generator, Err(TypeError))
    case Some(m) =>
      ModelsTable();
      match InitPipeline(generator, m, loadResolves)
      case Err(e) => Reply(generator, Err(e))
      case Ok(p) =>
        var result :=
          if m.name == PhiName then
            if p.kind != GenerationPipeline then Err(NotTextGenerationPipeline)
            else GenerateAnswer(p, m, req.comment, backend)
          else if m.name == TabularisaiName then
            if p.kind != ClassificationPipeline then Err(NotTextClassificationPipeline)
            else ClassifyAnswer(p, m, req.comment, backend)
          else Err(UnknownModel(m.name));
        Reply(Some(p), result)
  }

  /** A second request for the same model reuses the pipeline the first one loaded, and loads nothing. */
  lemma InitPipelineIdempotent(generator: Option<Pipeline>, m: Model, loadResolves: bool, again: bool)
    requires InitPipeline(generator, m, loadResolves).Ok?
    ensures InitPipeline(Some(InitPipeline(generator, m, loadResolves).value), m, again)
      == InitPipeline(generator, m, loadResolves)
  {
  }

  /** The two known models need different pipeline kinds, so alternating between them loads every time. */
  lemma SwitchingModelsRebuilds(p: Pipeline, again: bool)
    ensures p.kind == KindFor(Phi.task) ==>
      InitPipeline(Some(p), Tabularisai, again) == (if again then Ok(Build(Tabularisai)) else Err(LoadFailed))
    ensures p.kind == KindFor(Tabularisai.task) ==>
      InitPipeline(Some(p), Phi, again) == (if again then Ok(Build(Phi)) else Err(LoadFailed))
  {
  }

  /**
   * A Phi answer is exactly what the output parser makes of the last message of the
   * transcript; a failed load or a rejected generation call is the error thrown.
   */
  lemma GeneratedAnswerIsParsed(generator: Option<Pipeline>, comment: string, loadResolves: bool, backend: Backend)
    ensures var r := AnalyzeSentiment(generator, Request(comment, Some(Phi)), loadResolves, backend).result;
      var init := InitPipeline(generator, Phi, loadResolves);
      && (init.Err? ==> r == Err(LoadFailed))
      && (init.Ok? ==>
            var text := GeneratedText(backend, init.value.loadedName, PromptMessages(comment));
            && (r.Ok? <==> text.Ok? && ParseOutput(text.value).Ok?)
            && (r.Ok? ==> r.value == Generated(PhiName, ParseOutput(text.value).value.sentiment,
                                                ParseOutput(text.value).value.confidence))
            && (text.Err? ==> r == Err(text.error))
            && (text.Ok? && ParseOutput(text.value).Err? ==> r == Err(ParseOutput(text.value).error)))
  {
  }

  /** A classifier answer carries the normalised label and the score of the pipeline's first answer. */
  lemma ClassifiedAnswerIsLabel(generator: Option<Pipeline>, comment: string, loadResolves: bool, backend: Backend)
    ensures var r := AnalyzeSentiment(generator, Request(comment, Some(Tabularisai)), loadResolves, backend).result;
      var init := InitPipeline(generator, Tabularisai, loadResolves);
      && (init.Err? ==> r == Err(LoadFailed))
      && (init.Ok? ==>
            var first := Classification(backend, init.value.loadedName, comment);
            && (r.Ok? <==> first.Ok? && ParseLabel(first.value.0).Ok?)
            && (r.Ok? ==> r.value.Classified? && LabelText(r.value.sentiment) == Normalise(first.value.0)
                          && r.value.score == first.value.1)
            && (first.Err? ==> r == Err(first.error)))
  {
  }

  /** A model record whose task does not fit its name meets the wrong pipeline kind and is refused. */
  lemma MismatchedTaskRefused(generator: Option<Pipeline>, comment: string, loadResolves: bool, backend: Backend)
    ensures var m := Model(PhiName, TextClassification);
      InitPipeline(generator, m, loadResolves).Ok? ==>
      AnalyzeSentiment(generator, Request(comment, Some(m)), loadResolves, backend).result == Err(NotTextGenerationPipeline)
    ensures var m := Model(TabularisaiName, TextGeneration);
      InitPipeline(generator, m, loadResolves).Ok? ==>
      AnalyzeSentiment(generator, Request(comment, Some(m)), loadResolves, backend).result == Err(NotTextClassificationPipeline)
  {
    assert PhiName != TabularisaiName by { assert |PhiName| != |TabularisaiName|; }
  }
}
