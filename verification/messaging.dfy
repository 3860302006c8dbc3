/**
 * The message protocol between the content script and the background script: the table of
 * supported models, the sentiment labels and the two result variants of `analyzeSentiment`.
 */
module Messaging {

  /** The pipeline task a model is run with. */
  datatype Task = TextGeneration | TextClassification

  /** A model record: the value of one `MODELS` entry. */
  datatype Model = Model(name: string, task: Task)

  const PhiName: string := "onnx-community/Phi-3.5-mini-instruct-onnx-web"
  const TabularisaiName: string := "tabularisai/multilingual-sentiment-analysis"

  const Phi: Model := Model(PhiName, TextGeneration)
  const Tabularisai: Model := Model(TabularisaiName, TextClassification)

  /** The `MODELS` table, keyed by model name. */
  const Models: map<string, Model> := map[PhiName := Phi, TabularisaiName := Tabularisai]

  /** True iff `m` is one of the two members of the `Model` union. */
  predicate IsKnownModel(m: Model) {
    m.name in Models && Models[m.name] == m
  }

  /** The five classifier labels, in their declared order. */
  datatype Label = VeryNegative | Negative | Neutral | Positive | VeryPositive

  /** The label as it is spelled on the wire. */
  function LabelText(l: Label): string {
    match l
    case VeryNegative => "very_negative"
    case Negative => "negative"
    case Neutral => "neutral"
    case Positive => "positive"
    case VeryPositive => "very_positive"
  }

  /** The three labels a generative model may answer with. */
  predicate IsGenerativeSentiment(l: Label) {
    l == Negative || l == Neutral || l == Positive
  }

  /** The two variants of `AnalyzeSentimentResult`. */
  datatype AnalyzeSentimentResult =
    | Generated(modelName: string, sentiment: Label, confidence: real)
    | Classified(modelName: string, sentiment: Label, score: real)

  /** The type-level constraints of each variant: its model name and its label set. */
  predicate WellTyped(r: AnalyzeSentimentResult) {
    match r
    case Generated(name, s, _) => name == PhiName && IsGenerativeSentiment(s)
    case Classified(name, _, _) => name == TabularisaiName
  }

  /** The protocol's promise: the answer is well typed and names the requested model. */
  predicate AnswersFor(m: Model, r: AnalyzeSentimentResult) {
    WellTyped(r) && r.modelName == m.name
  }

  /** `MODELS` has exactly two entries, each keyed by its own name, with the tasks declared for them. */
  lemma ModelsTable()
    ensures |Models| == 2
    ensures forall k :: k in Models ==> Models[k].name == k
    ensures Models[PhiName].task == TextGeneration
    ensures Models[TabularisaiName].task == TextClassification
    ensures forall m: Model :: IsKnownModel(m) <==> m == Phi || m == Tabularisai
  {
    assert |PhiName| != |TabularisaiName|;
    assert Models.Keys == {PhiName, TabularisaiName};
  }

  /** The two label spellings are distinct, so a spelling determines its label. */
  lemma LabelTextInjective(a: Label, b: Label)
    ensures LabelText(a) == LabelText(b) <==> a == b
  {
    if a != b && |LabelText(a)| == |LabelText(b)| {
      // only the pairs negative/positive and very_negative/very_positive share a length
      if IsGenerativeSentiment(a) {
        assert LabelText(a)[0] != LabelText(b)[0];
      } else {
        assert LabelText(a)[5] != LabelText(b)[5];
      }
    }
  }
}
