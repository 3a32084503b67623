/**
  The `Attribute` class of lib/attribute.js as an object whose methods update
  its fields in place, one step at a time, as the source does. Each method is
  proved to end in the state, and to make the owner calls, that the step
  functions of AttributeSpec describe.
 */
module Attributes {
  import opened JsValues
  import opened AttributeSpec

  /**
    The owning model as the attribute sees it (`this.model`): it can be asked
    to recalculate and to trigger an event. The recalculation engine and the
    event bus are not part of this model; the owner only records the calls.
   */
  class Owner {
    var log: seq<Effect>

    constructor ()
      ensures log == []
    {
      log := [];
    }

    /** `model.calculate()`. */
    method Calculate()
      modifies this
      ensures log == old(log) + [CalculateRequested]
    {
      log := log + [CalculateRequested];
    }

    /** `model.trigger(event)`. */
    method Trigger(event: string)
      modifies this
      ensures log == old(log) + [Triggered(event)]
    {
      log := log + [Triggered(event)];
    }
  }

  class Attribute {
    const decl: AttrDecl
    const model: Owner
    var value: JsValue
    var isSet: JsValue
    var branches: map<string, JsValue>
    var isSetBranches: map<string, JsValue>

    /** The fields as one value of the state machine. */
    function State(): AttrState
      reads this
    {
      AttrState(value, isSet, branches, isSetBranches)
    }

    /** `__constructor(initValue)`: seed, encode, commit the default branch. */
    constructor (decl: AttrDecl, model: Owner, initValue: JsValue)
      modifies model
      ensures this.decl == decl && this.model == model
      ensures State() == Construct(decl, initValue).state
      ensures model.log == old(model.log) + Construct(decl, initValue).effects
    {
      this.decl := decl;
      this.model := model;
      branches := map[];
      isSetBranches := map[];
      var setValue;
      if initValue == Undefined || initValue == Null {
        isSet := Bool(false);
        setValue := DefaultValue(decl);
      } else {
        isSet := Bool(true);
        setValue := initValue;
      }
      value := decl.codec(setValue);
      new;
      var _ := Commit(None);
    }

    /** `isSet()`. */
    function IsSet(): (r: JsValue)
      reads this
      ensures r == State().isSet
    {
      isSet
    }

    /** `isEqual(x)`. */
    predicate IsEqual(x: JsValue)
      reads this
      ensures IsEqual(x) <==> value == decl.codec(x)
    {
      AttributeSpec.IsEqual(decl, State(), x)
    }

    /** `isChanged(branch)`. */
    predicate IsChanged(b: Option<string>)
      reads this
      ensures IsChanged(b) <==> value != decl.codec(Lookup(branches, ResolveBranch(b)))
    {
      AttributeSpec.IsChanged(decl, State(), b)
    }

    /** `getLastCommitted(branch)`. */
    function GetLastCommitted(b: Option<string>): (v: JsValue)
      reads this
      ensures ResolveBranch(b) in branches ==> v == branches[ResolveBranch(b)]
      ensures ResolveBranch(b) !in branches ==> v == Undefined
    {
      AttributeSpec.GetLastCommitted(State(), b)
    }

    /** `previous()`. */
    function Previous(): (v: JsValue)
      reads this
      ensures PREVIOUS_BRANCH in branches ==> v == branches[PREVIOUS_BRANCH]
      ensures PREVIOUS_BRANCH !in branches ==> v == Undefined
    {
      AttributeSpec.Previous(State())
    }

    /** `get(...args)`. */
    function Get(args: seq<JsValue>): (c: Completion)
      reads this
      ensures c.Throw? <==> |args| > 0
      ensures c.Normal? ==> c.value == value
    {
      AttributeSpec.Get(State(), args)
    }

    /** `toJSON()`. */
    function ToJSON(): (v: JsValue)
      reads this
      ensures v == value
    {
      AttributeSpec.ToJSON(State())
    }

    /** `validate()`. */
    function Validate(): (p: Promise)
      reads this
      ensures p.Fulfilled? <==> Falsy(decl.validationProblem(value))
      ensures p.Rejected? ==> p.reason == decl.validationProblem(value)
    {
      AttributeSpec.Validate(decl, State())
    }

    /** `_emitChange`: ask the owner to recalculate. */
    method EmitChange()
      modifies model
      ensures model.log == old(model.log) + [CalculateRequested]
    {
      model.Calculate();
    }

    /** `_emitCommit(branch)`: trigger the commit event of the branch on the owner. */
    method EmitCommit(b: Option<string>)
      modifies model
      ensures model.log == old(model.log) + [Triggered(CommitEventName(decl.name, b))]
    {
      model.Trigger(CommitEventName(decl.name, b));
    }

    /** `commit(branch)`: returns whether the branch's snapshot was rewritten. */
    method Commit(b: Option<string>) returns (changed: bool)
      modifies this, model
      ensures changed == AttributeSpec.IsChanged(decl, old(State()), b)
      ensures State() == CommitStep(decl, old(State()), b).state
      ensures model.log == old(model.log) + CommitStep(decl, old(State()), b).effects
    {
      var branch := ResolveBranch(b);
      changed := !IsEqual(Lookup(branches, branch));
      if changed {
        branches := branches[branch := value];
        isSetBranches := isSetBranches[branch := isSet];
        EmitCommit(Some(branch));
      }
    }

    /** `set(v)`. */
    method Set(v: JsValue)
      requires SetTerminates(decl, State(), v)
      modifies this, model
      decreases if v == Null && !IsEqual(v) then 2 else 0
      ensures State() == SetStep(decl, old(State()), v).state
      ensures model.log == old(model.log) + SetStep(decl, old(State()), v).effects
    {
      if !IsEqual(v) {
        if v == Null {
          Unset();
        } else {
          var _ := Commit(Some(PREVIOUS_BRANCH));
          value := decl.codec(v);
          isSet := Bool(true);
          EmitChange();
        }
      }
    }

    /** `unset()`. */
    method Unset()
      requires UnsetTerminates(decl, State())
      modifies this, model
      decreases 1
      ensures State() == UnsetStep(decl, old(State())).state
      ensures model.log == old(model.log) + UnsetStep(decl, old(State())).effects
    {
      Set(DefaultValue(decl));
      isSet := Bool(false);
    }

    /** `revert(branch)`. */
    method Revert(b: Option<string>)
      modifies this, model
      ensures State() == RevertStep(decl, old(State()), b).state
      ensures model.log == old(model.log) + RevertStep(decl, old(State()), b).effects
    {
      var branch := ResolveBranch(b);
      if !IsEqual(Lookup(branches, branch)) {
        var _ := Commit(Some(PREVIOUS_BRANCH));
        value := Lookup(branches, branch);
        isSet := Lookup(isSetBranches, branch);
        EmitChange();
      }
    }
  }
}
