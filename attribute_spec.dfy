/**
  The branch state machine of one attribute (lib/attribute.js), as pure
  functions over the attribute's state.

  An attribute holds a canonical value, an "is set" flag and two
  dictionaries keyed by branch name: the value snapshots (`_cachBranches`)
  and the flag snapshots (`_cachIsSetBranches`). Reading a branch that was
  never written yields `undefined`, and that `undefined` is passed through
  the codec like any other value. Every operation returns the new state and
  the calls it makes on its owning model, in order: `calculate()` requests
  and `trigger(event)` notifications.
 */
module AttributeSpec {
  import opened JsValues

  const DEFAULT_BRANCH: string := "DEFAULT_BRANCH"
  const PREVIOUS_BRANCH: string := "PREVIOUS_BRANCH"

  /** `this.default`: a plain value, or a function that is invoked for it. */
  datatype DefaultSpec = Constant(value: JsValue) | Producer(produce: () -> JsValue)

  /**
    What a concrete attribute kind supplies: the attribute's name, its codec
    (`_toAttributeValue`), its default and its validation hook
    (`getValidationError`, read here as a function of the current value).
   */
  datatype AttrDecl = AttrDecl(
    name: string,
    codec: JsValue -> JsValue,
    default: DefaultSpec,
    validationProblem: JsValue -> JsValue)

  /** `value`, `_isSet`, `_cachBranches` and `_cachIsSetBranches`. */
  datatype AttrState = AttrState(
    value: JsValue,
    isSet: JsValue,
    branches: map<string, JsValue>,
    isSetBranches: map<string, JsValue>)

  /** A call the attribute makes on its owning model. */
  datatype Effect = CalculateRequested | Triggered(event: string)

  /** The state after an operation and the owner calls it made, in order. */
  datatype Step = Step(state: AttrState, effects: seq<Effect>)

  /** A codec whose outputs are already canonical. */
  ghost predicate Idempotent(codec: JsValue -> JsValue) {
    forall x :: codec(codec(x)) == codec(x)
  }

  /**
    The states the operations keep when the codec is idempotent: the value
    and every stored snapshot are canonical, and both dictionaries have the
    same branches.
   */
  ghost predicate WellFormed(d: AttrDecl, s: AttrState) {
    && d.codec(s.value) == s.value
    && s.branches.Keys == s.isSetBranches.Keys
    && forall b :: b in s.branches ==> d.codec(s.branches[b]) == s.branches[b]
  }

  /** Only the value snapshots and flag snapshots named in `keep` may differ. */
  predicate OtherBranchesUnchanged(s: AttrState, t: AttrState, keep: set<string>) {
    && t.branches - keep == s.branches - keep
    && t.isSetBranches - keep == s.isSetBranches - keep
  }

  /** `branch = branch || this.DEFAULT_BRANCH`: an absent or empty name means the default branch. */
  function ResolveBranch(b: Option<string>): (r: string)
    ensures r != ""
    ensures b.Some? && b.value != "" ==> r == b.value
    ensures b.None? || b.value == "" ==> r == DEFAULT_BRANCH
  {
    if b.Some? && b.value != "" then b.value else DEFAULT_BRANCH
  }

  /** `dict[key]` on a plain object: a missing key reads as `undefined`. */
  function Lookup(m: map<string, JsValue>, key: string): (v: JsValue)
    ensures key !in m ==> v == Undefined
    ensures key in m ==> v == m[key]
  {
    if key in m then m[key] else Undefined
  }

  /** `_callOrGetDefault`: invoke a producer, otherwise take the value itself. */
  function CallOrGetDefault(ds: DefaultSpec): (v: JsValue)
    ensures ds.Constant? ==> v == ds.value
    ensures ds.Producer? ==> v == ds.produce()
  {
    match ds
    case Constant(x) => x
    case Producer(f) => f()
  }

  /** The attribute's default value. */
  function DefaultValue(d: AttrDecl): JsValue {
    CallOrGetDefault(d.default)
  }

  /** `isEqual`: the current value is strictly equal to the canonical form of `x`. */
  predicate IsEqual(d: AttrDecl, s: AttrState, x: JsValue)
    ensures IsEqual(d, s, x) <==> Get(s, []) == Normal(d.codec(x))
  {
    s.value == d.codec(x)
  }

  /** `isChanged`: the value differs from the canonical form of the branch's snapshot. */
  predicate IsChanged(d: AttrDecl, s: AttrState, b: Option<string>)
    ensures IsChanged(d, s, b) <==> !IsEqual(d, s, GetLastCommitted(s, b))
    ensures ResolveBranch(b) !in s.branches ==> (IsChanged(d, s, b) <==> s.value != d.codec(Undefined))
  {
    !IsEqual(d, s, Lookup(s.branches, ResolveBranch(b)))
  }

  /** `_fromAttributeValue`: the identity in the base attribute. */
  function FromAttributeValue(v: JsValue): JsValue {
    v
  }

  /** `getLastCommitted(branch)`: the branch's snapshot, `undefined` if it was never written. */
  function GetLastCommitted(s: AttrState, b: Option<string>): (v: JsValue)
    ensures ResolveBranch(b) !in s.branches ==> v == Undefined
    ensures ResolveBranch(b) in s.branches ==> v == s.branches[ResolveBranch(b)]
  {
    FromAttributeValue(Lookup(s.branches, ResolveBranch(b)))
  }

  /** `previous()`: the snapshot of the previous branch. */
  function Previous(s: AttrState): (v: JsValue)
    ensures PREVIOUS_BRANCH in s.branches ==> v == s.branches[PREVIOUS_BRANCH]
    ensures PREVIOUS_BRANCH !in s.branches ==> v == Undefined
  {
    GetLastCommitted(s, Some(PREVIOUS_BRANCH))
  }

  /** `get(...args)`: the value itself, and an error for any argument. */
  function Get(s: AttrState, args: seq<JsValue>): (c: Completion)
    ensures c.Throw? <==> |args| > 0
    ensures c.Throw? ==> c.error == Error("Attribute.get() supports no arguments")
    ensures c.Normal? ==> c.value == s.value
  {
    if |args| > 0 then Throw(Error("Attribute.get() supports no arguments"))
    else Normal(FromAttributeValue(s.value))
  }

  /** `toJSON`: what `get()` returns. */
  function ToJSON(s: AttrState): (v: JsValue)
    ensures Get(s, []) == Normal(v)
  {
    Get(s, []).value
  }

  /** The base `getValidationError`, which returns nothing: it never reports a problem. */
  function NoValidationProblem(v: JsValue): (r: JsValue)
    ensures Falsy(r)
  {
    Undefined
  }

  /** `new Attribute.ValidationError(message)`: only its name and message are kept. */
  function ValidationError(message: string): (e: JsValue)
    ensures e.ErrorObj? && e.name == "AttributeValidationError" && e.message == message
    ensures !Falsy(e)
  {
    ErrorObj("AttributeValidationError", message)
  }

  /** `validate`: fulfilled with `true` when the hook's answer is falsy, rejected with that answer otherwise. */
  function Validate(d: AttrDecl, s: AttrState): (p: Promise)
    ensures p.Fulfilled? <==> Falsy(d.validationProblem(s.value))
    ensures p.Fulfilled? ==> p.result == Bool(true)
    ensures p.Rejected? ==> p.reason == d.validationProblem(s.value)
  {
    var error := d.validationProblem(s.value);
    if Falsy(error) then Fulfilled(Bool(true)) else Rejected(error)
  }

  /** The event `_emitCommit` triggers on the owner: `[branch:]commit:name`. */
  function CommitEventName(name: string, b: Option<string>): (e: string)
    ensures ResolveBranch(b) == DEFAULT_BRANCH ==> e == "commit:" + name
    ensures ResolveBranch(b) != DEFAULT_BRANCH ==> e == ResolveBranch(b) + ":commit:" + name
  {
    var branch := ResolveBranch(b);
    (if branch != DEFAULT_BRANCH then branch + ":" else "") + "commit:" + name
  }

  /**
    `commit(branch)`: when the value differs from the branch's snapshot (values
    only, the flag is not compared) the branch receives the value and the flag
    and one commit event is triggered; otherwise nothing happens. The value,
    the flag and every other branch stay as they were.
   */
  function CommitStep(d: AttrDecl, s: AttrState, b: Option<string>): (r: Step)
    ensures r.state.value == s.value && r.state.isSet == s.isSet
    ensures OtherBranchesUnchanged(s, r.state, {ResolveBranch(b)})
    ensures !IsChanged(d, s, b) ==> r == Step(s, [])
    ensures IsChanged(d, s, b) ==>
      && Lookup(r.state.branches, ResolveBranch(b)) == s.value
      && Lookup(r.state.isSetBranches, ResolveBranch(b)) == s.isSet
      && ResolveBranch(b) in r.state.branches && ResolveBranch(b) in r.state.isSetBranches
      && r.effects == [Triggered(CommitEventName(d.name, b))]
  {
    var branch := ResolveBranch(b);
    if IsChanged(d, s, b) then
      var t := s.(branches := s.branches[branch := s.value],
                  isSetBranches := s.isSetBranches[branch := s.isSet]);
      Step(t, [Triggered(CommitEventName(d.name, Some(branch)))])
    else
      Step(s, [])
  }

  /** `set(null)` recurses through `unset()` without end exactly when this fails. */
  predicate SetTerminates(d: AttrDecl, s: AttrState, v: JsValue) {
    v == Null ==> IsEqual(d, s, Null) || DefaultValue(d) != Null
  }

  /** `unset()` recurses through `set(null)` without end exactly when this fails. */
  predicate UnsetTerminates(d: AttrDecl, s: AttrState) {
    DefaultValue(d) != Null || IsEqual(d, s, Null)
  }

  /**
    `set(value)`. The equality test comes first, so an equal value (`null`
    included) changes nothing. Otherwise `null` unsets; any other value is
    snapshotted into the previous branch, encoded, marked as set, and one
    recalculation is requested.
   */
  function SetStep(d: AttrDecl, s: AttrState, v: JsValue): (r: Step)
    requires SetTerminates(d, s, v)
    decreases if v == Null && !IsEqual(d, s, v) then 2 else 0
    ensures IsEqual(d, s, v) ==> r == Step(s, [])
    ensures !IsEqual(d, s, v) && v != Null ==>
      && r.state.value == d.codec(v)
      && r.state.isSet == Bool(true)
      && OtherBranchesUnchanged(s, r.state, {PREVIOUS_BRANCH})
      && (Lookup(r.state.branches, PREVIOUS_BRANCH) == s.value
          || d.codec(Lookup(r.state.branches, PREVIOUS_BRANCH)) == s.value)
      && r.effects == CommitStep(d, s, Some(PREVIOUS_BRANCH)).effects + [CalculateRequested]
    ensures !IsEqual(d, s, v) && v == Null ==>
      && r.state.value == d.codec(DefaultValue(d))
      && r.state.isSet == Bool(false)
      && OtherBranchesUnchanged(s, r.state, {PREVIOUS_BRANCH})
  {
    if IsEqual(d, s, v) then
      Step(s, [])
    else if v == Null then
      UnsetStep(d, s)
    else
      var c := CommitStep(d, s, Some(PREVIOUS_BRANCH));
      Step(c.state.(value := d.codec(v), isSet := Bool(true)), c.effects + [CalculateRequested])
  }

  /**
    `unset()`: `set(default)`, then the flag is cleared. The value ends as the
    canonical default whatever it was before.
   */
  function UnsetStep(d: AttrDecl, s: AttrState): (r: Step)
    requires UnsetTerminates(d, s)
    decreases 1
    ensures r.state.isSet == Bool(false)
    ensures r.state.value == d.codec(DefaultValue(d))
    ensures OtherBranchesUnchanged(s, r.state, {PREVIOUS_BRANCH})
    ensures IsEqual(d, s, DefaultValue(d)) ==> r == Step(s.(isSet := Bool(false)), [])
    ensures !IsEqual(d, s, DefaultValue(d)) ==>
      r.effects == CommitStep(d, s, Some(PREVIOUS_BRANCH)).effects + [CalculateRequested]
  {
    var t := SetStep(d, s, DefaultValue(d));
    Step(t.state.(isSet := Bool(false)), t.effects)
  }

  /**
    `revert(branch)`: when the value differs from the branch's snapshot, the
    previous branch first receives the value about to be discarded, then the
    value and the flag are read back from the branch (after that commit, so
    reverting to the previous branch itself keeps the value), and one
    recalculation is requested. Otherwise nothing happens.
   */
  function RevertStep(d: AttrDecl, s: AttrState, b: Option<string>): (r: Step)
    ensures !IsChanged(d, s, b) ==> r == Step(s, [])
    ensures IsChanged(d, s, b) ==>
      && OtherBranchesUnchanged(s, r.state, {PREVIOUS_BRANCH})
      && (Lookup(r.state.branches, PREVIOUS_BRANCH) == s.value
          || d.codec(Lookup(r.state.branches, PREVIOUS_BRANCH)) == s.value)
      && r.state.value == Lookup(r.state.branches, ResolveBranch(b))
      && r.state.isSet == Lookup(r.state.isSetBranches, ResolveBranch(b))
      && (ResolveBranch(b) != PREVIOUS_BRANCH ==>
            r.state.value == Lookup(s.branches, ResolveBranch(b))
            && r.state.isSet == Lookup(s.isSetBranches, ResolveBranch(b)))
      && r.effects == CommitStep(d, s, Some(PREVIOUS_BRANCH)).effects + [CalculateRequested]
  {
    var branch := ResolveBranch(b);
    if !IsChanged(d, s, b) then
      Step(s, [])
    else
      var c := CommitStep(d, s, Some(PREVIOUS_BRANCH));
      var t := c.state.(value := Lookup(c.state.branches, branch),
                        isSet := Lookup(c.state.isSetBranches, branch));
      Step(t, c.effects + [CalculateRequested])
  }

  /**
    The constructor: an absent initial value (`undefined` or `null`) leaves the
    attribute unset and seeds it from the default, any other value marks it as
    set; the seed is encoded, then the default branch is committed.
   */
  function Construct(d: AttrDecl, init: JsValue): (r: Step)
    ensures r.state.isSet == Bool(init != Undefined && init != Null)
    ensures r.state.value == d.codec(if init == Undefined || init == Null then DefaultValue(d) else init)
    ensures r.state.branches.Keys <= {DEFAULT_BRANCH}
  {
    var absent := init == Undefined || init == Null;
    var seed := if absent then DefaultValue(d) else init;
    var s := AttrState(d.codec(seed), Bool(!absent), map[], map[]);
    CommitStep(d, s, None)
  }
}
