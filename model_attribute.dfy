/**
  The nested-model attribute of lib/types/model.js, whose value is a
  reference to a sub-model.

  The sub-model is opaque: what it answers is fixed by its model type as a
  function of the calls that changed it so far, and the only part of its
  event bus modelled is the multiset of attributes listening to its
  `calculate` event (one registration per `on`, one removed per `un`).

  As written, the base constructor encodes the seed with
  `_toAttributeValue`, which the nested attribute does not override and the
  base throws from; the nested attribute overrides `parse` instead. The model
  takes `parse` as the nested codec.
 */
module NestedModels {
  import opened JsValues
  import opened AttributeSpec
  import opened Attributes

  const LISTEN_BRANCH: string := "LISTEN_BRANCH"

  /** A call the nested attribute makes on its sub-model. */
  datatype Call =
    | Create(data: JsValue)
    | SetData(data: JsValue)
    | CommitBranch(branch: Option<string>)
    | RevertBranch(branch: Option<string>)
    | IsChangedQuery(branch: Option<string>)
    | ValidateQuery
    | ToJSONQuery
    | ReadyQuery

  /** `modelType`: how its instances answer, given the calls that changed them so far. */
  datatype ModelType = ModelType(
    answer: (seq<Call>, Call) -> JsValue,
    settle: (seq<Call>, Call) -> Promise)

  /** A sub-model instance, compared by reference. */
  class SubModel {
    const modelType: ModelType
    /** The calls that changed this instance: its construction, `set`, `commit`, `revert`. */
    var history: seq<Call>
    /** The attributes registered for its `calculate` event. */
    var listeners: multiset<ModelAttribute>

    /** `new modelType(data)`. */
    constructor (modelType: ModelType, data: JsValue)
      ensures this.modelType == modelType
      ensures history == [Create(data)] && listeners == multiset{}
    {
      this.modelType := modelType;
      history := [Create(data)];
      listeners := multiset{};
    }

    /** What a call returns in the current state. */
    function Answer(c: Call): JsValue
      reads this
    {
      modelType.answer(history, c)
    }

    /** The promise a call returns in the current state. */
    function Settle(c: Call): Promise
      reads this
    {
      modelType.settle(history, c)
    }

    /** A call that changes the instance: it answers from the state before and is recorded. */
    method Receive(c: Call) returns (r: JsValue)
      modifies this`history
      ensures r == old(Answer(c))
      ensures history == old(history) + [c]
    {
      r := Answer(c);
      history := history + [c];
    }

    /** `on('calculate', attribute._onModelChange, attribute)`. */
    method On(attribute: ModelAttribute)
      modifies this`listeners
      ensures listeners == old(listeners) + multiset{attribute}
    {
      listeners := listeners + multiset{attribute};
    }

    /** `un('calculate', attribute._onModelChange, attribute)`. */
    method Un(attribute: ModelAttribute)
      modifies this`listeners
      ensures listeners == old(listeners) - multiset{attribute}
    {
      listeners := listeners - multiset{attribute};
    }
  }

  /** An argument of `set` or the constructor: an instance of `modelType`, or anything else. */
  datatype NestedInput = Instance(model: SubModel) | Plain(data: JsValue)

  /** Which way `set(v)` goes. */
  datatype Route = Fails | Unchanged | Replace(next: SubModel) | Forward(data: JsValue)

  /**
    The dispatch of `set(v)`: `null` fails (through `unset`), the reference
    already held changes nothing, another instance replaces the reference, and
    anything else is forwarded into the sub-model already held.
   */
  function SetRoute(current: SubModel, v: NestedInput): (r: Route)
    ensures r.Fails? <==> v == Plain(Null)
    ensures r.Unchanged? <==> v == Instance(current)
    ensures r.Replace? <==> v.Instance? && v.model != current
    ensures r.Forward? <==> v.Plain? && v.data != Null
    ensures r.Replace? ==> r.next == v.model
    ensures r.Forward? ==> r.data == v.data
  {
    if v == Plain(Null) then Fails
    else if v == Instance(current) then Unchanged
    else if v.Instance? then Replace(v.model)
    else Forward(v.data)
  }

  /** The objects `set(v)` may touch besides the attribute, its owner and its current sub-model. */
  function Incoming(v: NestedInput): set<object> {
    if v.Instance? then {v.model} else {}
  }

  const IS_SET_UNSUPPORTED: string := ".isSet is not implemented for nested models"
  const UNSET_UNSUPPORTED: string := ".unset is not implemented for nested models"

  class ModelAttribute {
    const name: string
    const model: Owner
    const modelType: ModelType
    const default: DefaultSpec
    var value: SubModel
    var isSet: JsValue
    /** `_cachBranches`: read for the listen entry, never written by the nested attribute. */
    var branches: map<string, SubModel>

    /** The invariant every method keeps: the attribute's own branch dictionary stays empty. */
    predicate Valid()
      reads this
    {
      branches == map[]
    }

    /** `parse(v)`: an instance passes through; anything else builds a fresh instance from it. */
    static method Parse(modelType: ModelType, v: NestedInput) returns (m: SubModel)
      ensures v.Instance? ==> m == v.model
      ensures v.Plain? ==> fresh(m) && m.modelType == modelType
      ensures v.Plain? ==> m.history == [Create(v.data)] && m.listeners == multiset{}
    {
      if v.Instance? {
        m := v.model;
      } else {
        m := new SubModel(modelType, v.data);
      }
    }

    /**
      `__constructor(initValue)`: the base constructor (seed, encode with
      `parse`, then `commit()`, which is forwarded to the sub-model), then
      `_initModel`.
     */
    constructor (name: string, model: Owner, modelType: ModelType, default: DefaultSpec, initValue: NestedInput)
      modifies Incoming(initValue)
      ensures Valid()
      ensures this.name == name && this.model == model
      ensures this.modelType == modelType && this.default == default
      ensures isSet == Bool(initValue != Plain(Undefined) && initValue != Plain(Null))
      ensures initValue.Instance? ==>
        && value == initValue.model
        && value.history == old(initValue.model.history) + [CommitBranch(None), CommitBranch(Some(LISTEN_BRANCH))]
        && value.listeners == old(initValue.model.listeners) + multiset{this}
      ensures initValue.Plain? ==>
        && fresh(value) && value.modelType == modelType
        && value.history == [Create(if initValue.data == Undefined || initValue.data == Null
                                    then CallOrGetDefault(default) else initValue.data),
                             CommitBranch(None), CommitBranch(Some(LISTEN_BRANCH))]
        && value.listeners == multiset{this}
    {
      this.name := name;
      this.model := model;
      this.modelType := modelType;
      this.default := default;
      branches := map[];
      var setValue;
      if initValue == Plain(Undefined) || initValue == Plain(Null) {
        isSet := Bool(false);
        setValue := Plain(CallOrGetDefault(default));
      } else {
        isSet := Bool(true);
        setValue := initValue;
      }
      var parsed := Parse(modelType, setValue);
      value := parsed;
      new;
      var _ := Commit(None);
      InitModel();
    }

    /** `isSet()`: not supported for nested models. */
    function IsSet(): (c: Completion)
      ensures c.Throw? && c.error == Error(IS_SET_UNSUPPORTED)
    {
      Throw(Error(IS_SET_UNSUPPORTED))
    }

    /** `unset()`: not supported for nested models. */
    function Unset(): (c: Completion)
      ensures c.Throw? && c.error == Error(UNSET_UNSUPPORTED)
    {
      Throw(Error(UNSET_UNSUPPORTED))
    }

    /** `isEqual(v)`: reference identity with the sub-model held. */
    predicate IsEqual(v: NestedInput)
      reads this
      ensures IsEqual(v) <==> v.Instance? && v.model == value
    {
      v == Instance(value)
    }

    /** `ready()`: the sub-model's promise. */
    function Ready(): (p: Promise)
      reads this, value
      ensures p == value.modelType.settle(value.history, ReadyQuery)
    {
      value.Settle(ReadyQuery)
    }

    /** `validate()`: the sub-model's promise. */
    function Validate(): (p: Promise)
      reads this, value
      ensures p == value.modelType.settle(value.history, ValidateQuery)
    {
      value.Settle(ValidateQuery)
    }

    /** `isChanged(branch)`: the sub-model's answer for the same branch argument. */
    function IsChanged(b: Option<string>): (r: JsValue)
      reads this, value
      ensures r == value.modelType.answer(value.history, IsChangedQuery(b))
    {
      value.Answer(IsChangedQuery(b))
    }

    /** `toJSON()`: the sub-model's answer. */
    function ToJSON(): (r: JsValue)
      reads this, value
      ensures r == value.modelType.answer(value.history, ToJSONQuery)
    {
      value.Answer(ToJSONQuery)
    }

    /** `commit(branch)`: forwarded to the sub-model, which answers for the same branch argument. */
    method Commit(b: Option<string>) returns (r: JsValue)
      modifies value`history
      ensures r == old(value.Answer(CommitBranch(b)))
      ensures value.history == old(value.history) + [CommitBranch(b)]
    {
      r := value.Receive(CommitBranch(b));
    }

    /** `revert(branch)`: forwarded to the sub-model, which answers for the same branch argument. */
    method Revert(b: Option<string>) returns (r: JsValue)
      modifies value`history
      ensures r == old(value.Answer(RevertBranch(b)))
      ensures value.history == old(value.history) + [RevertBranch(b)]
    {
      r := value.Receive(RevertBranch(b));
    }

    /**
      `_initModel`: unregister from the sub-model named by the attribute's own
      listen entry, if there is one, register with the current sub-model, and
      "record" it with `this.commit(LISTEN_BRANCH)`, which is forwarded to the
      sub-model and so leaves the attribute's own listen entry unwritten.
     */
    method InitModel()
      modifies value, branches.Values
      ensures value.history == old(value.history) + [CommitBranch(Some(LISTEN_BRANCH))]
      ensures LISTEN_BRANCH !in branches ==> value.listeners == old(value.listeners) + multiset{this}
      ensures LISTEN_BRANCH in branches ==>
        var prev := branches[LISTEN_BRANCH];
        && value.listeners == old(value.listeners) - (if prev == value then multiset{this} else multiset{}) + multiset{this}
        && (prev != value ==> prev.listeners == old(prev.listeners) - multiset{this})
        && (prev != value ==> prev.history == old(prev.history))
    {
      if LISTEN_BRANCH in branches {
        var prev := branches[LISTEN_BRANCH];
        prev.Un(this);
      }
      value.On(this);
      var _ := Commit(Some(LISTEN_BRANCH));
    }

    /** `_emitChange(fromNestedModel)`: rebind unless the change came from the sub-model, then ask the owner to recalculate. */
    method EmitChange(fromNestedModel: bool)
      requires Valid()
      modifies value, model
      ensures fromNestedModel ==> value.history == old(value.history) && value.listeners == old(value.listeners)
      ensures !fromNestedModel ==>
        && value.history == old(value.history) + [CommitBranch(Some(LISTEN_BRANCH))]
        && value.listeners == old(value.listeners) + multiset{this}
      ensures model.log == old(model.log) + [CalculateRequested]
    {
      if !fromNestedModel {
        InitModel();
      }
      model.Calculate();
    }

    /** `_onModelChange`: the sub-model finished a recalculation. */
    method OnModelChange()
      requires Valid()
      modifies value, model
      ensures value.history == old(value.history) && value.listeners == old(value.listeners)
      ensures model.log == old(model.log) + [CalculateRequested]
    {
      EmitChange(true);
    }

    /**
      `set(v)`, following SetRoute. Both changing routes mark the attribute as
      set, register it once more with the sub-model it then holds (the one it
      held before is not unregistered), and ask the owner for one
      recalculation.
     */
    method Set(v: NestedInput) returns (c: Completion)
      requires Valid()
      modifies this, value, model, Incoming(v)
      ensures Valid()
      ensures SetRoute(old(value), v).Fails? ==>
        && c == Unset()
        && value == old(value) && isSet == old(isSet)
        && value.history == old(value.history) && value.listeners == old(value.listeners)
        && model.log == old(model.log)
      ensures SetRoute(old(value), v).Unchanged? ==>
        && c == Normal(Undefined)
        && value == old(value) && isSet == old(isSet)
        && value.history == old(value.history) && value.listeners == old(value.listeners)
        && model.log == old(model.log)
      ensures SetRoute(old(value), v).Replace? ==>
        && c == Normal(Undefined)
        && value == v.model && isSet == Bool(true)
        && value.history == old(v.model.history) + [CommitBranch(Some(LISTEN_BRANCH))]
        && value.listeners == old(v.model.listeners) + multiset{this}
        && old(value).history == old(value.history) && old(value).listeners == old(value.listeners)
        && model.log == old(model.log) + [CalculateRequested]
      ensures SetRoute(old(value), v).Forward? ==>
        && c == Normal(Undefined)
        && value == old(value) && isSet == Bool(true)
        && value.history == old(value.history) + [SetData(v.data), CommitBranch(Some(LISTEN_BRANCH))]
        && value.listeners == old(value.listeners) + multiset{this}
        && model.log == old(model.log) + [CalculateRequested]
    {
      if v == Plain(Null) {
        c := Unset();
      } else if !IsEqual(v) {
        if v.Instance? {
          value := v.model;
        } else {
          var _ := value.Receive(SetData(v.data));
        }
        isSet := Bool(true);
        EmitChange(false);
        c := Normal(Undefined);
      } else {
        c := Normal(Undefined);
      }
    }
  }

  /**
    A `set` that is forwarded into the sub-model registers the attribute with
    it a second time: after construction and one forwarded `set`, the
    sub-model lists the attribute twice.
   */
  method ForwardedSetRegistersAgain(modelType: ModelType) returns (registrations: nat)
    ensures registrations == 2
  {
    var owner := new Owner();
    var a := new ModelAttribute("nested", owner, modelType, Constant(Undefined), Plain(Undefined));
    var _ := a.Set(Plain(Str("data")));
    registrations := a.value.listeners[a];
  }

  /**
    Replacing the sub-model does not unregister the attribute from the one it
    replaces: both the old and the new instance list it once.
   */
  method ReplacedModelStaysRegistered(modelType: ModelType) returns (stale: nat, current: nat)
    ensures stale == 1 && current == 1
  {
    var owner := new Owner();
    var a := new ModelAttribute("nested", owner, modelType, Constant(Undefined), Plain(Undefined));
    var first := a.value;
    var second := new SubModel(modelType, Undefined);
    var _ := a.Set(Instance(second));
    stale := first.listeners[a];
    current := second.listeners[a];
  }
}
