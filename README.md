# Attributes of promised-models, in Dafny

This project models the attribute core of promised-models: the per-attribute
branch state machine of `Attribute` (lib/attribute.js) and the nested-model
attribute `ModelAttribute` (lib/types/model.js).

An attribute holds a canonical value, an "is set" flag and two dictionaries
keyed by branch name: value snapshots and flag snapshots. `set`, `unset`,
`commit`, `revert` and `isChanged` move values between them. Every value
change asks the owning model to recalculate. Every real commit triggers a
`[branch:]commit:<name>` event on the owner. A nested-model attribute holds a
reference to a sub-model instead. It forwards branch operations to that
sub-model, and it registers for the sub-model's `calculate` event.

Files:

- `js_values.dfy` (module `JsValues`): the JavaScript values involved, their
  truthiness, thrown errors and settled promises.
- `attribute_spec.dfy` (module `AttributeSpec`): the attribute's state and each
  operation as a pure step function. A step returns the new state and the owner
  calls made, in order.
- `attribute_properties.dfy` (module `AttributeProperties`): lemmas relating the
  operations.
- `attribute.dfy` (module `Attributes`): the `Attribute` class. Its fields are
  updated in place and each method is proved equal to its step function. The
  owner is the class `Owner`, which records `calculate()` and `trigger(event)`
  calls.
- `model_attribute.dfy` (module `NestedModels`): the `ModelAttribute` class, an
  opaque `SubModel` class and the `set` dispatch rule.

The codec (`_toAttributeValue`) is a parameter of each attribute. Most
properties need the codec to be idempotent, and the lemmas assume that. The
reason: snapshots hold canonical values, yet `isEqual` re-applies the codec to
every snapshot it compares against. A branch that was never written reads as
`undefined`, and that `undefined` also goes through the codec.

Where the documented design and the code differ, the model follows the code:

- In the base `set`, the equality test comes first. So `set(null)` on an
  attribute whose value already equals the canonical form of `null` does
  nothing. It does not unset. The nested attribute tests for `null` first.
- The constructor's `commit()` writes nothing when the seeded value equals the
  canonical form of `undefined`. The default branch then stays missing, and
  `getLastCommitted()` returns `undefined` while `get()` returns the canonical
  form of `undefined`; the two differ unless the codec maps `undefined` to
  itself (`ConstructBaseline`, `ConstructedWithoutBaseline`).
- On such an attribute `set(v)` then `revert()` does not restore the
  constructed value: `revert()` reads the raw `undefined` from the missing
  default branch, so the attribute stays changed and holds a value that is not
  canonical (`RevertWithoutBaseline`). Restoration holds once the default
  branch was written (`SetThenRevert`).
- The default branch does not always hold the current flag after a commit.
  `commit` compares values only, so after an `unset()` that leaves the value
  as it was, `commit()` writes nothing and the branch keeps the old flag
  (`CommitKeepsStaleFlag`).
- After `set(v)` and `revert()`, `previous()` returns the canonical form of
  `v`, not `v` itself (`SetThenRevert`).
- `revert('PREVIOUS_BRANCH')` keeps the value. It first commits the current
  value into that same branch, then reads it back. It still asks for a
  recalculation (`RevertToPreviousKeepsValue`).
- The nested attribute never unregisters from a sub-model. The listen entry is
  "recorded" through `this.commit(LISTEN_BRANCH)`, and that call is forwarded
  to the sub-model. The attribute's own dictionary stays empty, so the
  unregistration is never reached. A replaced sub-model keeps the attribute
  registered (`ReplacedModelStaysRegistered`).
- A `set` forwarded into the sub-model also runs the rebinding. The same
  sub-model then lists the attribute twice (`ForwardedSetRegistersAgain`).
- The nested attribute overrides `parse`, but the base constructor calls
  `_toAttributeValue`, which the base class throws from. The model uses
  `parse` as the nested attribute's codec.

## Model

| member | source | states |
|---|---|---|
| `AttributeSpec.ResolveBranch` | lib/attribute.js:121 | an absent or empty branch argument means the default branch, any other name is kept; the result is never empty |
| `AttributeSpec.Lookup` | lib/attribute.js:97 | a branch that was never written reads as `undefined`, a written one as its snapshot |
| `AttributeSpec.CallOrGetDefault` | lib/attribute.js:229-231 | a producer default is invoked, a plain default is returned as it is |
| `AttributeSpec.GetLastCommitted` | lib/attribute.js:137-140 | the branch's snapshot, or `undefined` when the branch was never committed |
| `AttributeSpec.Previous` | lib/attribute.js:145-147 | the previous branch's snapshot, or `undefined` when it is missing |
| `AttributeSpec.IsEqual` | lib/attribute.js:86-88 | the attribute equals `x` exactly when `get()` returns the canonical form of `x` |
| `AttributeSpec.IsChanged` | lib/attribute.js:95-98 | changed with respect to a branch exactly when not equal to the branch's last committed value; for a never-committed branch, exactly when the value is not the canonical form of `undefined` |
| `AttributeSpec.NoValidationProblem` | lib/attribute.js:71 | the base hook never reports a problem (its answer is falsy), so `validate` fulfills |
| `AttributeSpec.Get` | lib/attribute.js:170-175 | fails exactly when given an argument, with the source's message; otherwise returns the value unchanged |
| `AttributeSpec.ToJSON` | lib/attribute.js:77-79 | is what `get()` returns without arguments |
| `AttributeSpec.ValidationError` | lib/attribute.js:240-242 | an error named `AttributeValidationError` carrying the message; it is truthy |
| `AttributeSpec.Validate` | lib/attribute.js:56-63 | fulfilled with `true` exactly when the hook's answer is falsy, otherwise rejected with that very answer |
| `AttributeSpec.CommitEventName` | lib/attribute.js:222-227 | `commit:<name>` for the default branch and `<branch>:commit:<name>` for any other |
| `AttributeSpec.CommitStep` | lib/attribute.js:119-131 | when the value differs from the branch's canonical snapshot, that branch receives value and flag and one commit event is triggered; otherwise nothing changes; value, flag and other branches are untouched |
| `AttributeSpec.SetStep` | lib/attribute.js:153-164 | an equal value (even `null`) changes nothing and calls nothing; a changing non-null value becomes the encoded value, is marked set, touches only the previous branch, which keeps the old value up to the codec, and ends with one recalculation request; a changing `null` unsets |
| `AttributeSpec.UnsetStep` | lib/attribute.js:46-49 | always ends unset with the canonical default; when the value already equals the default only the flag changes and nothing is called |
| `AttributeSpec.RevertStep` | lib/attribute.js:104-112 | a no-op when unchanged; otherwise the previous branch first takes the discarded value, value and flag are read back from the branch, and one recalculation is requested |
| `AttributeSpec.Construct` | lib/attribute.js:16-31 | an absent initial value gives an unset attribute seeded from the default, any other a set one seeded from it; the seed is encoded and at most the default branch is written |
| `AttributeProperties.CommitRequestsNoCalculation` | lib/attribute.js:119-131 | a commit never asks the owner to recalculate |
| `AttributeProperties.ConstructIsClean` | lib/attribute.js:16-31 | with an idempotent codec, a new attribute is not changed with respect to the default branch and its state is well formed |
| `AttributeProperties.ConstructBaseline` | lib/attribute.js:29-30 | after construction `getLastCommitted()` equals `get()` exactly when the value is not the canonical form of `undefined`, or is `undefined` itself |
| `AttributeProperties.ConstructedWithoutBaseline` | lib/attribute.js:22-30 | with a codec mapping `undefined` to `""` and no initial value, `get()` gives `""` while `getLastCommitted()` gives `undefined` |
| `AttributeProperties.IsEqualReflexive` | lib/attribute.js:86-88 | a well-formed attribute is equal to what its own `get()` returns |
| `AttributeProperties.RevertWithoutBaseline` | lib/attribute.js:104-112 | with a codec mapping `undefined` to `""` and no initial value, `set("a")` then `revert()` leaves the raw `undefined`, not the constructed `""`; the attribute stays changed and is no longer well formed |
| `AttributeProperties.CommitKeepsStaleFlag` | lib/attribute.js:119-131 | after construction from the default and `unset()`, `commit()` leaves the flag cleared in the state but set in the default branch's snapshot |
| `AttributeProperties.CommitClears` | lib/attribute.js:119-131 | after a commit of a canonical value the attribute is not changed with respect to that branch, and a second commit returns false and triggers nothing |
| `AttributeProperties.CommitPreservesWellFormed` | lib/attribute.js:124-127 | a commit keeps every snapshot canonical and both dictionaries on the same branches |
| `AttributeProperties.SetTwiceIsSetOnce` | lib/attribute.js:153-164 | a second `set` of the same value changes nothing and calls nothing, for every value including `null` |
| `AttributeProperties.SetChangingValue` | lib/attribute.js:153-163 | a changing non-null `set` requests exactly one recalculation, leaves the default branch as it was, and leaves the previous branch holding the old value, or missing when the old value is the canonical form of `undefined` |
| `AttributeProperties.SetPreservesWellFormed` | lib/attribute.js:153-164 | with an idempotent codec every `set` keeps the state well formed |
| `AttributeProperties.UnsetPreservesWellFormed` | lib/attribute.js:46-49 | with an idempotent codec `unset` keeps the state well formed |
| `AttributeProperties.UnsetCalculations` | lib/attribute.js:46-49 | `unset` requests no recalculation when the value already equals the default, and exactly one otherwise |
| `AttributeProperties.RevertRestores` | lib/attribute.js:104-112 | reverting a changed attribute to a committed branch leaves it unchanged with respect to that branch and well formed, requests one recalculation, and leaves the discarded value in the previous branch |
| `AttributeProperties.RevertToPreviousKeepsValue` | lib/attribute.js:106-110 | reverting to the previous branch keeps value and flag, yet requests a recalculation |
| `AttributeProperties.RevertToMissingBranch` | lib/attribute.js:108-109 | reverting to a never-committed branch sets value and flag to `undefined`, and the attribute stays changed with respect to it exactly when `undefined` is not its own canonical form |
| `AttributeProperties.SetThenRevert` | lib/attribute.js:104-112 | `set(v)` on a clean attribute whose default branch was written, then `revert()`, restores the committed value and flag, leaves it clean, and `previous()` gives the canonical form of `v` |
| `AttributeProperties.CommitEventNamesDistinct` | lib/attribute.js:224 | two commits trigger the same event name only for the same branch |
| `Attributes.Owner.Calculate` | lib/attribute.js:216 | records one recalculation request |
| `Attributes.Owner.Trigger` | lib/attribute.js:225 | records one triggered event |
| `Attributes.Attribute.constructor` | lib/attribute.js:16-31 | the new fields are the state `Construct` gives, and the owner receives its calls |
| `Attributes.Attribute.IsSet` | lib/attribute.js:38-40 | the flag field of the state |
| `Attributes.Attribute.IsEqual` | lib/attribute.js:86-88 | the value field equals the canonical form of `x` |
| `Attributes.Attribute.IsChanged` | lib/attribute.js:95-98 | the value field differs from the canonical form of the resolved branch's snapshot, `undefined` when missing |
| `Attributes.Attribute.GetLastCommitted` | lib/attribute.js:137-140 | the resolved branch's snapshot, or `undefined` when it was never written |
| `Attributes.Attribute.Previous` | lib/attribute.js:145-147 | the previous branch's snapshot, or `undefined` when it was never written |
| `Attributes.Attribute.Get` | lib/attribute.js:170-175 | fails exactly when given an argument, and otherwise returns the value field |
| `Attributes.Attribute.ToJSON` | lib/attribute.js:77-79 | the value field |
| `Attributes.Attribute.Validate` | lib/attribute.js:56-63 | fulfilled exactly when the hook's answer for the value field is falsy, otherwise rejected with that answer |
| `Attributes.Attribute.EmitChange` | lib/attribute.js:215-217 | asks the owner for exactly one recalculation |
| `Attributes.Attribute.EmitCommit` | lib/attribute.js:222-227 | triggers exactly the branch's commit event on the owner |
| `Attributes.Attribute.Commit` | lib/attribute.js:119-131 | returns whether the attribute was changed with respect to the branch; the fields and the owner's calls are those of `CommitStep` |
| `Attributes.Attribute.Set` | lib/attribute.js:153-164 | the fields and the owner's calls are those of `SetStep` |
| `Attributes.Attribute.Unset` | lib/attribute.js:46-49 | the fields and the owner's calls are those of `UnsetStep` |
| `Attributes.Attribute.Revert` | lib/attribute.js:104-112 | the fields and the owner's calls are those of `RevertStep` |
| `NestedModels.SubModel.constructor` | lib/types/model.js:117 | a fresh instance of the model type, built from the data, with no listeners |
| `NestedModels.SubModel.Receive` | lib/types/model.js:60-69 | a forwarded call answers from the sub-model's state before it and is appended to its record of calls |
| `NestedModels.SubModel.On` | lib/types/model.js:146 | adds one registration of the attribute |
| `NestedModels.SubModel.Un` | lib/types/model.js:144 | removes one registration of the attribute |
| `NestedModels.SetRoute` | lib/types/model.js:96-104 | `null` fails, the reference already held is a no-op, another instance replaces the reference, anything else is forwarded; each route exactly under its condition |
| `NestedModels.ModelAttribute.Parse` | lib/types/model.js:113-119 | an instance passes through unchanged; anything else gives a fresh instance built from it |
| `NestedModels.ModelAttribute.constructor` | lib/types/model.js:15-19 | the flag follows the base rule; the sub-model received the forwarded default commit and the listen commit, and lists the attribute once more; the own dictionary is empty |
| `NestedModels.ModelAttribute.IsSet` | lib/types/model.js:24-26 | always fails with the source's message |
| `NestedModels.ModelAttribute.Unset` | lib/types/model.js:31-33 | always fails with the source's message |
| `NestedModels.ModelAttribute.IsEqual` | lib/types/model.js:87-89 | equal exactly to an instance that is the very sub-model held |
| `NestedModels.ModelAttribute.Ready` | lib/types/model.js:39-41 | the sub-model's own `ready()` promise in its current state |
| `NestedModels.ModelAttribute.Validate` | lib/types/model.js:46-48 | the sub-model's own `validate()` promise in its current state, whatever the attribute's own flag and branches |
| `NestedModels.ModelAttribute.IsChanged` | lib/types/model.js:53-55 | the sub-model's own answer for the same, unresolved branch argument |
| `NestedModels.ModelAttribute.ToJSON` | lib/types/model.js:80-82 | the sub-model's own `toJSON()` answer |
| `NestedModels.ModelAttribute.Commit` | lib/types/model.js:60-62 | returns the sub-model's answer for the same branch argument and changes only the sub-model's record of calls |
| `NestedModels.ModelAttribute.Revert` | lib/types/model.js:67-69 | returns the sub-model's answer for the same branch argument and changes only the sub-model's record of calls |
| `NestedModels.ModelAttribute.InitModel` | lib/types/model.js:140-148 | unregisters from the own listen entry only if one exists, registers with the current sub-model, and forwards the listen commit to it |
| `NestedModels.ModelAttribute.EmitChange` | lib/types/model.js:129-135 | rebinds (one more registration, one forwarded listen commit) unless the change came from the sub-model, then asks the owner for one recalculation |
| `NestedModels.ModelAttribute.OnModelChange` | lib/types/model.js:121-123 | asks the owner for one recalculation and leaves the sub-model's registrations and calls as they were |
| `NestedModels.ModelAttribute.Set` | lib/types/model.js:96-108 | follows `SetRoute`: `null` fails like `unset` and changes nothing; the held reference changes nothing; both changing routes mark the attribute set, register it once more with the sub-model then held, leave the replaced one registered, and ask for one recalculation; the own dictionary stays empty |
| `NestedModels.ForwardedSetRegistersAgain` | lib/types/model.js:103-106 | after construction and one forwarded `set`, the sub-model lists the attribute twice |
| `NestedModels.ReplacedModelStaysRegistered` | lib/types/model.js:140-148 | after the reference is replaced, the old and the new sub-model each list the attribute once |

## Left out

- The recalculation engine (`model.calculate`) and the model's event bus (`model.trigger`) are not part of this model: the owner only records the calls it receives, in order.
- Delivery of a sub-model's `calculate` event to its listeners is not modelled: `OnModelChange` is the entry point such a delivery would call.
- Promises are represented as already settled (`Fulfilled` or `Rejected`); their asynchrony is not modelled.
- The `Inheritable` class machinery, the `ModelAttributeStatic` factory (lib/types/model.js:156-165) and the deprecated `parse` alias (lib/attribute.js:191-193) are dynamic class construction with no behaviour to state.
- `ValidationError` keeps only its name and message; stack capture is runtime-specific.
- `AttributeSpec.SetStep`, `AttributeSpec.UnsetStep`, `Attributes.Attribute.Set`, `Attributes.Attribute.Unset`: the inputs for which `set(null)` and `unset()` recurse into each other without end (a `null` default and a value different from the canonical `null`) are excluded by a precondition, since the source only ends there by overflowing the stack.
- The codec of a concrete attribute kind is a total function parameter; the base `_toAttributeValue`, which always throws, is not modelled, and the nested attribute uses `parse` as its codec.
- A producer default is a deterministic function and does not see the attribute; a producer that reads other state is not modelled.
- The validation hook sees only the current value; a hook reading other attribute state is not modelled.
- Numbers are integers: NaN (never strictly equal to itself), -0 and fractions are not modelled.
- Branch arguments are strings or absent; other falsy arguments, and branch names that collide with properties inherited by plain objects, are not modelled.
- Whether an argument of the nested `set` is an instance of the model type (`instanceof`, subclasses included) is decided by the caller's choice of `Instance` or `Plain`; a default that is itself a model instance is not modelled.
- `NestedModels.SubModel.On`, `NestedModels.SubModel.Un`: the event bus is not part of this model; `on` is taken to add one registration per call, even for a listener already registered, and `un` to remove one. `ForwardedSetRegistersAgain` and `ReplacedModelStaysRegistered` rest on that reading; `un` is never reached as written.
- The members the nested attribute inherits without overriding (`get`, `getLastCommitted`, `previous`) are not modelled separately for it.
- The asynchronous persistence flows (`fetch`, `save`, storage) exercised by test/persistent.js are I/O outside the attribute core.
