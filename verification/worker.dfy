/**
 * The inference worker: it caches the first pipeline it builds, answers `load` and `generate`
 * messages, and posts status messages back to the page.
 */
module Worker {
  import opened Wrappers
  import opened Errors
  import opened Text
  import opened Messaging
  import opened Inference
  import opened OutputParser
  import opened Labels

  /** The cached generator: the model identifier it was built for and its pipeline. */
  datatype Generator = Generator(name: string, pipeline: Pipeline)

  /** The `output` part of a generation record, one variant per model. */
  datatype Output =
    | TextOutput(text: string, sentiment: Label, confidence: real)
    | LabelOutput(sentiment: Label, score: real)

  /** The substituted system and user prompts a generation record carries. */
  datatype PromptPair = PromptPair(system: string, user: string)

  /** The `result` of a `generated` status message (its id and timestamp are left out). */
  datatype GenerateRecord = GenerateRecord(model: Model, text: string, prompts: Option<PromptPair>, output: Output)

  /** The status messages the worker posts. */
  datatype Status = StartInitialization | EndInitialization | GeneratedResult(result: GenerateRecord)

  /** A message to the worker. */
  datatype Request =
    | Load(model: Model)
    | Generate(model: Model, text: string, prompts: Option<seq<ChatMessage>>)

  /** The generator after handling one message, what was posted, and the error thrown, if any. */
  datatype Outcome = Outcome(generator: Option<Generator>, posted: seq<Status>, thrown: Option<Error>)

  /**
   * `initGenerator`: loads a generator only when there is none (`loadResolves` says whether
   * that load succeeds) and posts `end-initialization` once a generator is there. A failed
   * load has posted `start-initialization` only, and stores nothing.
   */
  function InitGenerator(generator: Option<Generator>, m: Model, loadResolves: bool)
    : (r: (Result<Generator, Error>, seq<Status>))
    ensures StartInitialization in r.1 <==> generator.None?
    ensures EndInitialization in r.1 <==> r.0.Ok?
    ensures r.0.Ok? <==> generator.Some? || loadResolves
    ensures r.0.Ok? ==> |r.1| > 0 && r.1[|r.1| - 1] == EndInitialization
    ensures r.0.Err? ==> r.0.error == LoadFailed && r.1 == [StartInitialization]
    ensures generator.Some? ==> r == (Ok(generator.value), [EndInitialization])
    ensures generator.None? && r.0.Ok? ==> r.0.value.name == m.name && r.0.value.pipeline.kind == KindFor(m.task)
  {
    if generator.Some? then (Ok(generator.value), [EndInitialization])
    else if loadResolves then (Ok(Generator(m.name, Build(m))), [StartInitialization, EndInitialization])
    else (Err(LoadFailed), [StartInitialization])
  }

  const Placeholder: string := "{{text}}"

  /** The prompt with the input substituted for every placeholder when its role is `user`. */
  function SubstitutePrompt(p: ChatMessage, input: string): ChatMessage {
    if p.role == "user" then ChatMessage(p.role, ReplaceAll(p.content, Placeholder, input)) else p
  }

  /** The `replacedPrompts` mapping, using a literal replacement. */
  function SubstitutePrompts(prompts: seq<ChatMessage>, input: string): (r: seq<ChatMessage>)
    ensures |r| == |prompts|
    ensures forall i :: 0 <= i < |r| ==> r[i].role == prompts[i].role
    ensures forall i :: 0 <= i < |r| && prompts[i].role != "user" ==> r[i] == prompts[i]
    ensures forall i :: 0 <= i < |r| && prompts[i].role == "user" ==>
      r[i].content == ReplaceAll(prompts[i].content, Placeholder, input)
  {
    seq(|prompts|, i requires 0 <= i < |prompts| => SubstitutePrompt(prompts[i], input))
  }

  /**
   * The `replacedPrompts` mapping exactly as the worker writes it: `String.prototype.replaceAll`
   * with the input as a replacement string, so `$` patterns in the input are expanded.
   */
  function SubstitutePromptsAsWritten(prompts: seq<ChatMessage>, input: string): (r: seq<ChatMessage>)
    ensures |r| == |prompts|
    ensures forall i :: 0 <= i < |r| ==> r[i].role == prompts[i].role
    ensures forall i :: 0 <= i < |r| && prompts[i].role != "user" ==> r[i] == prompts[i]
  {
    seq(|prompts|, i requires 0 <= i < |prompts| =>
      if prompts[i].role == "user"
      then ChatMessage(prompts[i].role, ReplaceAllAsWritten(prompts[i].content, Placeholder, input, 0))
      else prompts[i])
  }

  /**
   * The text-generation branch of `generate`, for the generator already initialised. The
   * prompts are substituted as the worker writes it, `$` patterns included.
   */
  function GenerateText(g: Generator, m: Model, input: string, prompts: Option<seq<ChatMessage>>, backend: Backend)
    : (r: Result<GenerateRecord, Error>)
    ensures prompts.None? ==> r == Err(PromptsRequired)
    ensures prompts.Some? && g.pipeline.kind != GenerationPipeline ==> r == Err(InvalidGeneratorType)
    ensures r.Ok? ==> prompts.Some? && |prompts.value| >= 2 && r.value.model == m && r.value.text == input
    ensures r.Ok? ==>
      r.value.output.TextOutput? && r.value.output.text != ""
      && IsGenerativeSentiment(r.value.output.sentiment) && 0.0 <= r.value.output.confidence <= 1.0
  {
    if prompts.None? then Err(PromptsRequired)
    else if g.pipeline.kind != GenerationPipeline then Err(InvalidGeneratorType)
    else
      var replaced := SubstitutePromptsAsWritten(prompts.value, input);
      var text :- GeneratedText(backend, g.pipeline.loadedName, replaced);
      var parsed :- ParseOutput(text);
      if |replaced| < 2 then Err(TypeError)
      else
        Ok(GenerateRecord(m, input, Some(PromptPair(replaced[0].content, replaced[1].content)),
                          TextOutput(text.GetOr(""), parsed.sentiment, parsed.confidence)))
  }

  /** The classification branch of `generate`, for the generator already initialised. */
  function ClassifyText(g: Generator, m: Model, input: string, backend: Backend): (r: Result<GenerateRecord, Error>)
    ensures g.pipeline.kind != ClassificationPipeline ==> r == Err(InvalidGeneratorType)
    ensures r.Ok? ==> r.value.model == m && r.value.text == input && r.value.prompts.None?
    ensures r.Ok? ==> r.value.output.LabelOutput?
    ensures r.Err? && g.pipeline.kind == ClassificationPipeline ==>
      r.error == InferenceFailed || r.error == InvalidClassificationFormat || r.error.UnknownSentimentLabel?
  {
    if g.pipeline.kind != ClassificationPipeline then Err(InvalidGeneratorType)
    else
      var labelAndScore :- Classification(backend, g.pipeline.loadedName, input);
      var sentiment :- ParseLabel(labelAndScore.0);
      Ok(GenerateRecord(m, input, None, LabelOutput(sentiment, labelAndScore.1)))
  }

  /**
   * `generate`: initialise, then dispatch on the model identifier; an unknown one posts
   * nothing more, and a failed load ends the handling.
   */
  function GenerateStep(generator: Option<Generator>, m: Model, input: string, prompts: Option<seq<ChatMessage>>,
                        loadResolves: bool, backend: Backend): (o: Outcome)
    ensures var init := InitGenerator(generator, m, loadResolves);
      o.generator == (if init.0.Ok? then Some(init.0.value) else generator)
    ensures InitGenerator(generator, m, loadResolves).0.Err? ==> o.thrown == Some(LoadFailed)
    ensures InitGenerator(generator, m, loadResolves).1 <= o.posted
    ensures |o.posted| <= |InitGenerator(generator, m, loadResolves).1| + 1
    ensures o.thrown.Some? ==> o.posted == InitGenerator(generator, m, loadResolves).1
    ensures m.name != PhiName && m.name != TabularisaiName && InitGenerator(generator, m, loadResolves).0.Ok? ==>
      o.posted == InitGenerator(generator, m, loadResolves).1 && o.thrown.None?
    ensures |o.posted| > |InitGenerator(generator, m, loadResolves).1| ==>
      var rec := o.posted[|o.posted| - 1];
      rec.GeneratedResult? && rec.result.model == m && rec.result.text == input
  {
    var (g, init) := InitGenerator(generator, m, loadResolves);
    match g
    case Err(e) => Outcome(generator, init, Some(e))
    case Ok(g) =>
      var result: Option<Result<GenerateRecord, Error>> :=
        if m.name == PhiName then Some(GenerateText(g, m, input, prompts, backend))
        else if m.name == TabularisaiName then Some(ClassifyText(g, m, input, backend))
        else None;
      match result
      case None => Outcome(Some(g), init, None)
      case Some(Ok(record)) => Outcome(Some(g), init + [GeneratedResult(record)], None)
      case Some(Err(e)) => Outcome(Some(g), init, Some(e))
  }

  /** `handleMessage`; `loadResolves` says whether a load the message starts succeeds. */
  function HandleMessage(generator: Option<Generator>, req: Request, loadResolves: bool, backend: Backend): (o: Outcome)
    ensures o.posted != []
    ensures EndInitialization in o.posted <==> generator.Some? || loadResolves
    ensures generator.Some? ==> o.generator == generator
    ensures o.generator.Some? <==> generator.Some? || loadResolves
    ensures o.generator.None? ==> o.posted == [StartInitialization] && o.thrown == Some(LoadFailed)
    ensures req.Load? ==>
      o.posted == InitGenerator(generator, req.model, loadResolves).1 && (o.thrown.None? <==> o.generator.Some?)
  {
    match req
    case Load(m) =>
      var (g, init) := InitGenerator(generator, m, loadResolves);
      (match g
       case Ok(g) => Outcome(Some(g), init, None)
       case Err(e) => Outcome(generator, init, Some(e)))
    case Generate(m, text, prompts) => GenerateStep(generator, m, text, prompts, loadResolves, backend)
  }

  /**
   * A sequence of messages handled one after the other: the generator each leaves behind and
   * everything posted. A thrown error ends that message's handling only. `loads[i]` says
   * whether a load that message `i` starts succeeds.
   */
  function HandleAll(generator: Option<Generator>, reqs: seq<Request>, loads: seq<bool>, backend: Backend)
    : (r: (Option<Generator>, seq<Status>))
    requires |loads| == |reqs|
    decreases |reqs|
  {
    if |reqs| == 0 then (generator, [])
    else
      var o := HandleMessage(generator, reqs[0], loads[0], backend);
      var rest := HandleAll(o.generator, reqs[1..], loads[1..], backend);
      (rest.0, o.posted + rest.1)
  }

  /** The number of loads that fail before the first one that succeeds. */
  function LeadingFailures(loads: seq<bool>): (n: nat)
    ensures n <= |loads|
    ensures forall i :: 0 <= i < n ==> !loads[i]
    ensures n < |loads| ==> loads[n]
  {
    if |loads| == 0 || loads[0] then 0 else 1 + LeadingFailures(loads[1..])
  }

  /**
   * A generation record holds the prompts as substituted and exactly what the parser made of
   * the transcript; for input without `$` those are the literally substituted prompts.
   */
  lemma GeneratedRecordIsParsed(g: Generator, m: Model, input: string, prompts: seq<ChatMessage>, backend: Backend)
    requires g.pipeline.kind == GenerationPipeline
    ensures var replaced := SubstitutePromptsAsWritten(prompts, input);
      var text := GeneratedText(backend, g.pipeline.loadedName, replaced);
      var r := GenerateText(g, m, input, Some(prompts), backend);
      && (r.Ok? <==> text.Ok? && ParseOutput(text.value).Ok? && |prompts| >= 2)
      && (text.Err? ==> r == Err(text.error))
      && (r.Ok? ==>
            && r.value.prompts == Some(PromptPair(replaced[0].content, replaced[1].content))
            && r.value.output == TextOutput(text.value.value, ParseOutput(text.value).value.sentiment,
                                            ParseOutput(text.value).value.confidence))
    ensures '$' !in input && GenerateText(g, m, input, Some(prompts), backend).Ok? ==>
      var literal := SubstitutePrompts(prompts, input);
      GenerateText(g, m, input, Some(prompts), backend).value.prompts
        == Some(PromptPair(literal[0].content, literal[1].content))
  {
    if '$' !in input {
      AsWrittenAgreesWithoutDollar(prompts, input);
    }
  }

  /** A classification record carries the normalised label and the score of the pipeline's first answer. */
  lemma ClassifiedRecordIsLabel(g: Generator, m: Model, input: string, backend: Backend)
    requires g.pipeline.kind == ClassificationPipeline
    ensures var first := Classification(backend, g.pipeline.loadedName, input);
      var r := ClassifyText(g, m, input, backend);
      && (r.Ok? <==> first.Ok? && ParseLabel(first.value.0).Ok?)
      && (first.Err? ==> r == Err(first.error))
      && (r.Ok? ==>
            && r.value.output == LabelOutput(ParseLabel(first.value.0).value, first.value.1)
            && LabelText(r.value.output.sentiment) == Normalise(first.value.0))
  {
  }

  /** Prompts that contain no placeholder are sent unchanged. */
  lemma PromptsWithoutPlaceholder(prompts: seq<ChatMessage>, input: string)
    requires forall i :: 0 <= i < |prompts| ==> !Occurs(prompts[i].content, Placeholder)
    ensures SubstitutePrompts(prompts, input) == prompts
  {
    forall i | 0 <= i < |prompts|
      ensures SubstitutePrompts(prompts, input)[i] == prompts[i]
    {
      ReplaceAllAbsent(prompts[i].content, Placeholder, input);
    }
  }

  /** A user prompt with one placeholder gets the input verbatim in its place. */
  lemma SubstituteOnePlaceholder(before: string, after: string, input: string)
    requires '{' !in before
    requires !Occurs(after, Placeholder)
    ensures SubstitutePrompt(ChatMessage("user", before + Placeholder + after), input)
      == ChatMessage("user", before + input + after)
  {
    ReplaceAllCopiesPrefix(before, Placeholder + after, Placeholder, input);
    assert before + Placeholder + after == before + (Placeholder + after);
    ReplaceAllLeading(Placeholder, after, input);
    ReplaceAllAbsent(after, Placeholder, input);
    assert before + (input + after) == before + input + after;
  }

  /** For input without `$`, the substitution as written and the literal one agree. */
  lemma AsWrittenAgreesWithoutDollar(prompts: seq<ChatMessage>, input: string)
    requires '$' !in input
    ensures SubstitutePromptsAsWritten(prompts, input) == SubstitutePrompts(prompts, input)
  {
    forall i | 0 <= i < |prompts| && prompts[i].role == "user"
      ensures ReplaceAllAsWritten(prompts[i].content, Placeholder, input, 0) == ReplaceAll(prompts[i].content, Placeholder, input)
    {
      Text.AsWrittenAgreesWithoutDollar(prompts[i].content, Placeholder, input, 0);
      assert prompts[i].content[0..] == prompts[i].content;
    }
  }

  /**
   * Input `$&` in place of the placeholder: as written, the placeholder is put back (`$&` names
   * the matched text), while the literal substitution sends the input.
   */
  lemma AsWrittenExpandsDollar(prompts: seq<ChatMessage>, input: string)
    requires prompts == [ChatMessage("user", Placeholder)] && input == "$&"
    ensures SubstitutePromptsAsWritten(prompts, input)[0].content == Placeholder
    ensures SubstitutePrompts(prompts, input)[0].content == input
  {
    assert HasAt(Placeholder, 0, Placeholder);
    assert Substitution(Placeholder, Placeholder, 0, input) == Placeholder;
    assert ReplaceAllAsWritten(Placeholder, Placeholder, input, 0) == Placeholder;
    ReplaceAllLeading(Placeholder, "", input);
    assert Placeholder + "" == Placeholder;
  }

  /**
   * One message: `start-initialization` is posted iff there was no generator, and
   * `end-initialization` iff a generator is there afterwards, which is the old one or the one
   * just loaded for the message's model.
   */
  lemma MessageCounts(generator: Option<Generator>, req: Request, loadResolves: bool, backend: Backend)
    ensures var o := HandleMessage(generator, req, loadResolves, backend);
      && multiset(o.posted)[StartInitialization] == (if generator.None? then 1 else 0)
      && multiset(o.posted)[EndInitialization] == (if generator.Some? || loadResolves then 1 else 0)
      && o.generator == (if generator.Some? then generator
                         else if loadResolves then Some(Generator(req.model.name, Build(req.model)))
                         else None)
  {
    var o := HandleMessage(generator, req, loadResolves, backend);
    var init := InitGenerator(generator, req.model, loadResolves).1;
    if req.Generate? && o.posted != init {
      assert o.posted == init + [o.posted[|o.posted| - 1]];
      assert o.posted[|o.posted| - 1].GeneratedResult?;
    }
  }

  /** Once a generator exists, no message replaces it, and no load is started again. */
  lemma {:induction false} GeneratorNeverReplaced(g: Generator, reqs: seq<Request>, loads: seq<bool>, backend: Backend)
    requires |loads| == |reqs|
    ensures HandleAll(Some(g), reqs, loads, backend).0 == Some(g)
    ensures multiset(HandleAll(Some(g), reqs, loads, backend).1)[StartInitialization] == 0
    decreases |reqs|
  {
    if |reqs| > 0 {
      MessageCounts(Some(g), reqs[0], loads[0], backend);
      GeneratorNeverReplaced(g, reqs[1..], loads[1..], backend);
    }
  }

  /**
   * From a fresh worker, every message whose load fails posts `start-initialization` and
   * nothing else; the first message whose load succeeds builds the generator for its model,
   * which then serves every later message.
   */
  lemma {:induction false} FirstModelSticks(reqs: seq<Request>, loads: seq<bool>, backend: Backend)
    requires |loads| == |reqs|
    ensures var n := LeadingFailures(loads);
      n < |reqs| ==> HandleAll(None, reqs, loads, backend).0 == Some(Generator(reqs[n].model.name, Build(reqs[n].model)))
    ensures LeadingFailures(loads) == |reqs| ==> HandleAll(None, reqs, loads, backend).0 == None
    ensures var n := LeadingFailures(loads);
      multiset(HandleAll(None, reqs, loads, backend).1)[StartInitialization] == (if n < |reqs| then n + 1 else n)
    decreases |reqs|
  {
    if |reqs| > 0 {
      MessageCounts(None, reqs[0], loads[0], backend);
      if !loads[0] {
        FirstModelSticks(reqs[1..], loads[1..], backend);
        assert LeadingFailures(loads) == 1 + LeadingFailures(loads[1..]);
      } else {
        GeneratorNeverReplaced(Generator(reqs[0].model.name, Build(reqs[0].model)), reqs[1..], loads[1..], backend);
      }
    }
  }

  /**
   * Every message posts exactly one `end-initialization`, except those of a fresh worker whose
   * loads fail before the first success.
   */
  lemma {:induction false} EndPostedPerMessage(generator: Option<Generator>, reqs: seq<Request>, loads: seq<bool>,
                                               backend: Backend)
    requires |loads| == |reqs|
    ensures multiset(HandleAll(generator, reqs, loads, backend).1)[EndInitialization]
      == |reqs| - (if generator.Some? then 0 else LeadingFailures(loads))
    decreases |reqs|
  {
    if |reqs| > 0 {
      MessageCounts(generator, reqs[0], loads[0], backend);
      var o := HandleMessage(generator, reqs[0], loads[0], backend);
      EndPostedPerMessage(o.generator, reqs[1..], loads[1..], backend);
      if generator.None? && !loads[0] {
        assert LeadingFailures(loads) == 1 + LeadingFailures(loads[1..]);
      }
    }
  }

  /** The worker never switches models: a generator built for one model refuses the other. */
  lemma NoModelSwitch(input: string, prompts: Option<seq<ChatMessage>>, loadResolves: bool, backend: Backend)
    ensures GenerateStep(Some(Generator(PhiName, Build(Phi))), Tabularisai, input, prompts, loadResolves, backend).thrown
      == Some(InvalidGeneratorType)
    ensures prompts.Some? ==>
      GenerateStep(Some(Generator(TabularisaiName, Build(Tabularisai))), Phi, input, prompts, loadResolves, backend).thrown
        == Some(InvalidGeneratorType)
  {
    assert PhiName != TabularisaiName by { assert |PhiName| != |TabularisaiName|; }
  }
}
