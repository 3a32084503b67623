/**
  Properties of the attribute state machine that relate several operations:
  construction leaves the attribute clean, commit clears the change and is
  idempotent, an equal `set` is a no-op, a changing `set` requests one
  recalculation, `revert` restores the committed value, and commit event
  names identify their branch. Most of them need the codec to be idempotent:
  snapshots hold canonical values, yet every comparison re-applies the codec
  to them.
 */
module AttributeProperties {
  import opened JsValues
  import opened AttributeSpec

  /** Calls to `calculate()` among the owner calls of a step. */
  function Calculations(effects: seq<Effect>): nat {
    multiset(effects)[CalculateRequested]
  }

  /** A commit never asks for a recalculation. */
  lemma CommitRequestsNoCalculation(d: AttrDecl, s: AttrState, b: Option<string>)
    ensures Calculations(CommitStep(d, s, b).effects) == 0
  {
    var r := CommitStep(d, s, b);
    if IsChanged(d, s, b) {
      assert r.effects == [Triggered(CommitEventName(d.name, b))];
    }
  }

  /**
    Right after construction the attribute is not changed with respect to the
    default branch, and its state is well formed.
   */
  lemma ConstructIsClean(d: AttrDecl, init: JsValue)
    requires Idempotent(d.codec)
    ensures !IsChanged(d, Construct(d, init).state, None)
    ensures WellFormed(d, Construct(d, init).state)
  {
    var r := Construct(d, init);
    var seed := if init == Undefined || init == Null then DefaultValue(d) else init;
    assert d.codec(d.codec(seed)) == d.codec(seed);
  }

  /**
    After construction, `getLastCommitted()` agrees with `get()` exactly when
    the constructor's commit wrote the default branch or the value is
    `undefined`: a value equal to the canonical form of `undefined` is not
    committed, so the branch stays missing.
   */
  lemma ConstructBaseline(d: AttrDecl, init: JsValue)
    ensures var s := Construct(d, init).state;
      GetLastCommitted(s, None) == Get(s, []).value
      <==> (s.value != d.codec(Undefined) || s.value == Undefined)
  {
    var s := Construct(d, init).state;
    if s.value == d.codec(Undefined) {
      assert DEFAULT_BRANCH !in s.branches;
    } else {
      assert s.branches[DEFAULT_BRANCH] == s.value;
    }
  }

  /** A codec that reads `undefined` as the empty string, as a string kind might. */
  function EmptyStringForUndefined(v: JsValue): (r: JsValue)
    ensures r != Undefined
  {
    if v == Undefined then Str("") else v
  }

  /**
    With such a codec and no initial value, the constructed attribute returns
    `""` from `get()` while `getLastCommitted()` returns `undefined`.
   */
  lemma ConstructedWithoutBaseline()
    ensures var d := AttrDecl("title", EmptyStringForUndefined, Constant(Undefined), NoValidationProblem);
      var s := Construct(d, Undefined).state;
      Get(s, []) == Normal(Str("")) && GetLastCommitted(s, None) == Undefined
  {
    var d := AttrDecl("title", EmptyStringForUndefined, Constant(Undefined), NoValidationProblem);
    var s := Construct(d, Undefined).state;
    assert s.value == Str("");
    assert DEFAULT_BRANCH !in s.branches;
  }

  /**
    Without a baseline, `revert()` does not return to the constructed value:
    after `set("a")` and `revert()` the value is the raw `undefined` read from
    the missing default branch, which the codec does not map to itself, so the
    attribute stays changed and its state is no longer well formed.
   */
  lemma RevertWithoutBaseline()
    ensures var d := AttrDecl("title", EmptyStringForUndefined, Constant(Undefined), NoValidationProblem);
      var s0 := Construct(d, Undefined).state;
      var s2 := RevertStep(d, SetStep(d, s0, Str("a")).state, None).state;
      && s0.value == Str("")
      && s2.value == Undefined
      && IsChanged(d, s2, None)
      && !WellFormed(d, s2)
  {
    var d := AttrDecl("title", EmptyStringForUndefined, Constant(Undefined), NoValidationProblem);
    var s0 := Construct(d, Undefined).state;
    assert s0.value == Str("") && s0.branches == map[];
    var s1 := SetStep(d, s0, Str("a")).state;
    assert s1.value == Str("a") && s1.branches == map[];
    var s2 := RevertStep(d, s1, None).state;
    assert DEFAULT_BRANCH !in s2.branches;
    assert s2.value == Undefined;
  }

  /** A codec that keeps every value as it is. */
  function Verbatim(v: JsValue): JsValue {
    v
  }

  /**
    A commit compares values only, so a flag change alone is never recorded:
    after `unset()` of an attribute already holding its default, `commit()`
    writes nothing and the default branch keeps the old flag.
   */
  lemma CommitKeepsStaleFlag()
    ensures var d := AttrDecl("title", Verbatim, Constant(Str("x")), NoValidationProblem);
      var s := CommitStep(d, UnsetStep(d, Construct(d, Str("x")).state).state, None).state;
      && s.isSet == Bool(false)
      && DEFAULT_BRANCH in s.isSetBranches
      && s.isSetBranches[DEFAULT_BRANCH] == Bool(true)
  {
    var d := AttrDecl("title", Verbatim, Constant(Str("x")), NoValidationProblem);
    var s0 := Construct(d, Str("x")).state;
    assert s0.branches[DEFAULT_BRANCH] == Str("x") && s0.isSetBranches[DEFAULT_BRANCH] == Bool(true);
    var s1 := UnsetStep(d, s0).state;
    assert s1.value == Str("x") && s1.branches == s0.branches && s1.isSetBranches == s0.isSetBranches;
  }

  /** `isEqual` is reflexive: a well-formed attribute equals what `get()` returns. */
  lemma IsEqualReflexive(d: AttrDecl, s: AttrState)
    requires WellFormed(d, s)
    ensures IsEqual(d, s, Get(s, []).value)
  {
  }

  /**
    Commit clears the change with respect to its branch, and a second commit
    of the same branch returns false and triggers nothing.
   */
  lemma CommitClears(d: AttrDecl, s: AttrState, b: Option<string>)
    requires d.codec(s.value) == s.value
    ensures !IsChanged(d, CommitStep(d, s, b).state, b)
    ensures CommitStep(d, CommitStep(d, s, b).state, b) == Step(CommitStep(d, s, b).state, [])
  {
    var r := CommitStep(d, s, b);
    if IsChanged(d, s, b) {
      assert Lookup(r.state.branches, ResolveBranch(b)) == s.value;
    }
  }

  /** Commit keeps a well-formed state well formed. */
  lemma CommitPreservesWellFormed(d: AttrDecl, s: AttrState, b: Option<string>)
    requires WellFormed(d, s)
    ensures WellFormed(d, CommitStep(d, s, b).state)
  {
    var t := CommitStep(d, s, b).state;
    var branch := ResolveBranch(b);
    forall k | k in t.branches
      ensures d.codec(t.branches[k]) == t.branches[k]
    {
      if k != branch {
        assert k in t.branches - {branch};
      }
    }
    assert t.branches.Keys == t.isSetBranches.Keys by {
      assert t.branches - {branch} == s.branches - {branch};
      assert t.isSetBranches - {branch} == s.isSetBranches - {branch};
    }
  }

  /**
    Setting the same value twice: the second `set` changes nothing and asks
    for nothing, whatever the first did (for `null` too, through `unset`).
   */
  lemma SetTwiceIsSetOnce(d: AttrDecl, s: AttrState, v: JsValue)
    requires SetTerminates(d, s, v)
    ensures SetTerminates(d, SetStep(d, s, v).state, v)
    ensures SetStep(d, SetStep(d, s, v).state, v) == Step(SetStep(d, s, v).state, [])
  {
    var t := SetStep(d, s, v).state;
    if !IsEqual(d, s, v) && v == Null {
      assert t.value == d.codec(DefaultValue(d)) && t.isSet == Bool(false);
      if !IsEqual(d, t, Null) {
        assert IsEqual(d, t, DefaultValue(d));
        assert UnsetStep(d, t) == Step(t.(isSet := Bool(false)), []);
        assert t.(isSet := Bool(false)) == t;
      }
    }
  }

  /**
    A changing, non-null `set` requests exactly one recalculation, leaves the
    default branch as it was, and leaves the previous branch holding the old
    value, or missing when the old value is the canonical form of
    `undefined`.
   */
  lemma SetChangingValue(d: AttrDecl, s: AttrState, v: JsValue)
    requires WellFormed(d, s)
    requires v != Null && !IsEqual(d, s, v)
    ensures Calculations(SetStep(d, s, v).effects) == 1
    ensures Lookup(SetStep(d, s, v).state.branches, DEFAULT_BRANCH) == Lookup(s.branches, DEFAULT_BRANCH)
    ensures var t := SetStep(d, s, v).state;
      Lookup(t.branches, PREVIOUS_BRANCH) == s.value
      || (PREVIOUS_BRANCH !in t.branches && d.codec(Undefined) == s.value)
  {
    var r := SetStep(d, s, v);
    CommitRequestsNoCalculation(d, s, Some(PREVIOUS_BRANCH));
    assert r.effects == CommitStep(d, s, Some(PREVIOUS_BRANCH)).effects + [CalculateRequested];
    assert DEFAULT_BRANCH in r.state.branches - {PREVIOUS_BRANCH} <==> DEFAULT_BRANCH in s.branches - {PREVIOUS_BRANCH};
  }

  /** Every `set` keeps a well-formed state well formed when the codec is idempotent. */
  lemma SetPreservesWellFormed(d: AttrDecl, s: AttrState, v: JsValue)
    requires Idempotent(d.codec) && WellFormed(d, s)
    requires SetTerminates(d, s, v)
    decreases if v == Null && !IsEqual(d, s, v) then 2 else 0
    ensures WellFormed(d, SetStep(d, s, v).state)
  {
    if IsEqual(d, s, v) {
    } else if v == Null {
      UnsetPreservesWellFormed(d, s);
    } else {
      CommitPreservesWellFormed(d, s, Some(PREVIOUS_BRANCH));
      assert d.codec(d.codec(v)) == d.codec(v);
    }
  }

  /** `unset` keeps a well-formed state well formed when the codec is idempotent. */
  lemma UnsetPreservesWellFormed(d: AttrDecl, s: AttrState)
    requires Idempotent(d.codec) && WellFormed(d, s)
    requires UnsetTerminates(d, s)
    decreases 1
    ensures WellFormed(d, UnsetStep(d, s).state)
  {
    SetPreservesWellFormed(d, s, DefaultValue(d));
  }

  /**
    `unset` when the value already equals the canonical default only clears
    the flag and asks for nothing; otherwise it asks for one recalculation.
   */
  lemma UnsetCalculations(d: AttrDecl, s: AttrState)
    requires UnsetTerminates(d, s)
    ensures Calculations(UnsetStep(d, s).effects) == if IsEqual(d, s, DefaultValue(d)) then 0 else 1
  {
    if !IsEqual(d, s, DefaultValue(d)) {
      CommitRequestsNoCalculation(d, s, Some(PREVIOUS_BRANCH));
    }
  }

  /**
    Reverting a changed attribute to a committed branch: afterwards it is not
    changed with respect to that branch, the state stays well formed, one
    recalculation is requested, and the previous branch holds the discarded
    value (or is missing when that value is the canonical form of
    `undefined`).
   */
  lemma RevertRestores(d: AttrDecl, s: AttrState, b: Option<string>)
    requires WellFormed(d, s)
    requires IsChanged(d, s, b) && ResolveBranch(b) in s.branches
    ensures var t := RevertStep(d, s, b).state;
      && !IsChanged(d, t, b)
      && WellFormed(d, t)
      && (Lookup(t.branches, PREVIOUS_BRANCH) == s.value
          || (PREVIOUS_BRANCH !in t.branches && d.codec(Undefined) == s.value))
    ensures Calculations(RevertStep(d, s, b).effects) == 1
  {
    var branch := ResolveBranch(b);
    var c := CommitStep(d, s, Some(PREVIOUS_BRANCH));
    CommitPreservesWellFormed(d, s, Some(PREVIOUS_BRANCH));
    CommitRequestsNoCalculation(d, s, Some(PREVIOUS_BRANCH));
    assert branch in c.state.branches by {
      if branch != PREVIOUS_BRANCH {
        assert branch in s.branches - {PREVIOUS_BRANCH};
      }
    }
    var t := RevertStep(d, s, b).state;
    assert t.value == c.state.branches[branch];
    assert d.codec(t.value) == t.value;
  }

  /**
    Reverting to the previous branch itself keeps the value: the commit that
    saves the discarded value overwrites the very snapshot that is then read
    back. A recalculation is still requested.
   */
  lemma RevertToPreviousKeepsValue(d: AttrDecl, s: AttrState, b: Option<string>)
    requires ResolveBranch(b) == PREVIOUS_BRANCH && IsChanged(d, s, b)
    ensures RevertStep(d, s, b).state.value == s.value
    ensures RevertStep(d, s, b).state.isSet == s.isSet
    ensures Calculations(RevertStep(d, s, b).effects) == 1
  {
    CommitRequestsNoCalculation(d, s, Some(PREVIOUS_BRANCH));
  }

  /**
    Reverting to a branch that was never committed sets both the value and the
    flag to `undefined`, and the attribute stays changed with respect to that
    branch unless `undefined` is its own canonical form.
   */
  lemma RevertToMissingBranch(d: AttrDecl, s: AttrState, b: Option<string>)
    requires WellFormed(d, s)
    requires ResolveBranch(b) !in s.branches && ResolveBranch(b) != PREVIOUS_BRANCH
    requires IsChanged(d, s, b)
    ensures RevertStep(d, s, b).state.value == Undefined
    ensures RevertStep(d, s, b).state.isSet == Undefined
    ensures IsChanged(d, RevertStep(d, s, b).state, b) <==> d.codec(Undefined) != Undefined
  {
    var branch := ResolveBranch(b);
    var t := RevertStep(d, s, b).state;
    assert branch !in t.branches - {PREVIOUS_BRANCH};
    assert branch !in t.isSetBranches - {PREVIOUS_BRANCH};
  }

  /**
    `set(v)` on a clean attribute followed by `revert()` restores the committed
    value and flag, leaves it clean again, and `previous()` then returns the
    canonical form of `v`.
   */
  lemma SetThenRevert(d: AttrDecl, s: AttrState, v: JsValue)
    requires Idempotent(d.codec) && WellFormed(d, s)
    requires DEFAULT_BRANCH in s.branches && !IsChanged(d, s, None)
    requires v != Null && !IsEqual(d, s, v)
    ensures var t := RevertStep(d, SetStep(d, s, v).state, None).state;
      && t.value == s.value
      && t.isSet == s.isSetBranches[DEFAULT_BRANCH]
      && !IsChanged(d, t, None)
      && Previous(t) == d.codec(v)
  {
    var s1 := SetStep(d, s, v).state;
    SetPreservesWellFormed(d, s, v);
    SetChangingValue(d, s, v);
    assert s1.value == d.codec(v);
    assert s1.branches[DEFAULT_BRANCH] == s.branches[DEFAULT_BRANCH] == s.value;
    assert DEFAULT_BRANCH in s1.isSetBranches - {PREVIOUS_BRANCH};
    assert s1.isSetBranches[DEFAULT_BRANCH] == s.isSetBranches[DEFAULT_BRANCH];
    assert IsChanged(d, s1, None);
    RevertRestores(d, s1, None);
    assert IsChanged(d, s1, Some(PREVIOUS_BRANCH)) by {
      assert d.codec(s.value) == s.value;
    }
  }

  /** Distinct branches trigger distinct commit events. */
  lemma CommitEventNamesDistinct(name: string, b1: Option<string>, b2: Option<string>)
    requires CommitEventName(name, b1) == CommitEventName(name, b2)
    ensures ResolveBranch(b1) == ResolveBranch(b2)
  {
    var r1, r2 := ResolveBranch(b1), ResolveBranch(b2);
    var tail := ":commit:" + name;
    if r1 != DEFAULT_BRANCH && r2 != DEFAULT_BRANCH {
      var e := CommitEventName(name, b1);
      assert e == r1 + tail && e == r2 + tail;
      assert |r1| == |r2|;
      assert r1 == e[..|r1|] == r2;
    }
  }
}
