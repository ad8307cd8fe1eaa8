/**
 * Which loaded model serves a request. `/predict` follows the configured
 * preference `MODEL_TYPE` and falls back to the other slot; `/predict/batch`
 * ignores the preference and always tries the linear slot first.
 */
module Selection {
  import opened Wrappers
  import opened Text
  import opened Loader

  const LinearLabel: string := "logistic_regression"
  const ForestLabel: string := "random_forest"

  /** `os.getenv("MODEL_TYPE", "logreg")`: the default applies only when the variable is unset. */
  const DefaultModelType: string := "logreg"

  function ModelType(env: Environment): string {
    if env.modelType.Some? then env.modelType.value else DefaultModelType
  }

  /** The spellings that select the linear model first. */
  const LinearSpellings: seq<string> := ["logreg", "logistic", "lr"]

  predicate PrefersLinear(modelType: string) {
    Lower(modelType) in LinearSpellings
  }

  /** The model that serves a request and the name reported for it. */
  datatype Choice = Choice(model: Model, name: string)

  /** The name reported for a slot. */
  function SlotName(cat: Category): string {
    if cat == Linear then LinearLabel else ForestLabel
  }

  /** `model`/`model_name` as `/predict` sets them. */
  function Select(modelType: string, lr: Option<Model>, rf: Option<Model>): (r: Option<Choice>)
    ensures r.None? <==> lr.None? && rf.None?
    ensures r.Some? ==>
      (r.value.name == LinearLabel && lr == Some(r.value.model)) ||
      (r.value.name == ForestLabel && rf == Some(r.value.model))
    ensures PrefersLinear(modelType) && lr.Some? ==> r == Some(Choice(lr.value, LinearLabel))
    ensures !PrefersLinear(modelType) && rf.Some? ==> r == Some(Choice(rf.value, ForestLabel))
  {
    if PrefersLinear(modelType) then
      if lr.Some? then Some(Choice(lr.value, LinearLabel))
      else if rf.Some? then Some(Choice(rf.value, ForestLabel))
      else None
    else
      if rf.Some? then Some(Choice(rf.value, ForestLabel))
      else if lr.Some? then Some(Choice(lr.value, LinearLabel))
      else None
  }

  /** `model`/`model_name` as `/predict/batch` sets them: the preference plays no part. */
  function BatchSelect(lr: Option<Model>, rf: Option<Model>): (r: Option<Choice>)
    ensures r.None? <==> lr.None? && rf.None?
    ensures lr.Some? ==> r == Some(Choice(lr.value, LinearLabel))
    ensures lr.None? && rf.Some? ==> r == Some(Choice(rf.value, ForestLabel))
  {
    var model := if lr.Some? then lr else rf;
    var name := if lr.Some? then LinearLabel else ForestLabel;
    if model.None? then None else Some(Choice(model.value, name))
  }

  /** The order in which `/predict` tries the two slots. */
  function Precedence(modelType: string): (order: seq<Category>)
    ensures |order| == 2 && order[0] != order[1]
    ensures Unrecognised !in order
  {
    if PrefersLinear(modelType) then [Linear, Forest] else [Forest, Linear]
  }

  function SlotOf(cat: Category, lr: Option<Model>, rf: Option<Model>): Option<Model> {
    if cat == Linear then lr else if cat == Forest then rf else None
  }

  /** The first filled slot in `order`, with the name reported for it. */
  function FirstFilled(order: seq<Category>, lr: Option<Model>, rf: Option<Model>): Option<Choice>
  {
    if order == [] then None
    else
      var slot := SlotOf(order[0], lr, rf);
      if slot.Some? then Some(Choice(slot.value, SlotName(order[0])))
      else FirstFilled(order[1..], lr, rf)
  }

  lemma FirstFilledOfTwo(a: Category, b: Category, lr: Option<Model>, rf: Option<Model>)
    ensures FirstFilled([a, b], lr, rf) ==
      if SlotOf(a, lr, rf).Some? then Some(Choice(SlotOf(a, lr, rf).value, SlotName(a)))
      else if SlotOf(b, lr, rf).Some? then Some(Choice(SlotOf(b, lr, rf).value, SlotName(b)))
      else None
  {
    var order := [a, b];
    assert order[1..] == [b];
    assert [b][1..] == [];
    assert FirstFilled([b][1..], lr, rf) == None;
  }

  /** `/predict` picks the first filled slot in the order its preference sets. */
  lemma SelectFollowsPrecedence(modelType: string, lr: Option<Model>, rf: Option<Model>)
    ensures Select(modelType, lr, rf) == FirstFilled(Precedence(modelType), lr, rf)
  {
    if PrefersLinear(modelType) {
      FirstFilledOfTwo(Linear, Forest, lr, rf);
    } else {
      FirstFilledOfTwo(Forest, Linear, lr, rf);
    }
  }

  /** `/predict/batch` picks the first filled slot of linear-then-ensemble, whatever the preference. */
  lemma BatchFollowsLinearFirst(lr: Option<Model>, rf: Option<Model>)
    ensures BatchSelect(lr, rf) == FirstFilled([Linear, Forest], lr, rf)
  {
  }

  /** The batch rule is the single-request rule under the default preference. */
  lemma BatchIsDefaultSelect(lr: Option<Model>, rf: Option<Model>)
    ensures BatchSelect(lr, rf) == Select(DefaultModelType, lr, rf)
  {
    LowerUnchanged(DefaultModelType);
  }

  /**
   * With `MODEL_TYPE` unset the preference is linear-first; a set variable is
   * taken as it is, so even an empty value puts the ensemble first.
   */
  lemma UnsetModelTypeIsLinearFirst(env: Environment)
    ensures env.modelType.None? ==> ModelType(env) == DefaultModelType && Precedence(ModelType(env)) == [Linear, Forest]
    ensures env.modelType.Some? ==> ModelType(env) == env.modelType.value
    ensures env.modelType == Some("") ==> Precedence(ModelType(env)) == [Forest, Linear]
  {
    LowerUnchanged(DefaultModelType);
  }

  /**
   * The two endpoints disagree exactly when the preference puts the ensemble
   * first and both slots are filled.
   */
  lemma EndpointsDisagree(modelType: string, lr: Option<Model>, rf: Option<Model>)
    ensures Select(modelType, lr, rf) != BatchSelect(lr, rf) <==>
      !PrefersLinear(modelType) && lr.Some? && rf.Some?
  {
  }
}
