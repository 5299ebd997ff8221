/**
 * components/forms/FormRenderer.tsx: the validation rules and the default
 * values built from a form, the filter applied to the answers on submit, and
 * the checkbox toggle.
 *
 * The form is the one of lib/ai/prompts/formGenerationPrompt.ts (a question
 * whose `required` is absent is not required). A zod rule is named by what it
 * accepts rather than built as a zod object.
 */
module FormRenderer {
  import opened Js
  import opened Seqs
  import opened GenerateForm

  /** A field's value as react-hook-form holds it. */
  datatype FieldValue = Undefined | Single(text: string) | Multiple(items: seq<string>)

  function Get(values: map<string, FieldValue>, key: string): FieldValue {
    if key in values then values[key] else Undefined
  }

  // ---------------------------------------------------------------------------
  // the questions of a form, in order

  function Flatten(sections: seq<FormSection>): (qs: seq<FormQuestion>) {
    if sections == [] then [] else Flatten(sections[..|sections| - 1]) + sections[|sections| - 1].questions
  }

  lemma FlattenSnoc(sections: seq<FormSection>, s: FormSection)
    ensures Flatten(sections + [s]) == Flatten(sections) + s.questions
  {
    assert (sections + [s])[..|sections|] == sections;
  }

  // ---------------------------------------------------------------------------
  // buildValidationSchema

  /** A field rule: `z.array(z.string())` or `z.string()`, with `.min(1, message)` or `.optional()`. */
  datatype Rule = RequiredList(message: string) | OptionalList | RequiredString(message: string) | OptionalString

  function RuleFor(q: FormQuestion): Rule {
    if q.qtype == Checkbox then
      (if q.required then RequiredList("Please select at least one option") else OptionalList)
    else if q.qtype == Textarea || q.qtype == Text then
      (if q.required then RequiredString("This field is required") else OptionalString)
    else
      (if q.required then RequiredString("Please select an option") else OptionalString)
  }

  /** Whether a value passes a rule. */
  predicate Accepts(rule: Rule, v: FieldValue) {
    match rule
    case RequiredList(_) => v.Multiple? && |v.items| >= 1
    case OptionalList => v.Undefined? || v.Multiple?
    case RequiredString(_) => v.Single? && |v.text| >= 1
    case OptionalString => v.Undefined? || v.Single?
  }

  /**
   * What a question demands: a required checkbox question at least one ticked
   * box, any other required question a non-empty string; an optional question
   * may be left undefined.
   */
  lemma RuleForAccepts(q: FormQuestion, v: FieldValue)
    ensures Accepts(RuleFor(q), v) <==>
      if q.required then
        (if q.qtype == Checkbox then v.Multiple? && v.items != [] else v.Single? && v.text != "")
      else
        v.Undefined? || (if q.qtype == Checkbox then v.Multiple? else v.Single?)
  {
  }

  /** `shape` after the loop has visited `qs`, starting from `shape`. */
  function RulesFrom(shape: map<string, Rule>, qs: seq<FormQuestion>): map<string, Rule> {
    if qs == [] then shape else RulesFrom(shape, qs[..|qs| - 1])[qs[|qs| - 1].id := RuleFor(qs[|qs| - 1])]
  }

  function ValidationRules(form: FormOutput): map<string, Rule> {
    RulesFrom(map[], Flatten(form.sections))
  }

  lemma RulesFromSnoc(shape: map<string, Rule>, qs: seq<FormQuestion>, q: FormQuestion)
    ensures RulesFrom(shape, qs + [q]) == RulesFrom(shape, qs)[q.id := RuleFor(q)]
  {
    assert (qs + [q])[..|qs|] == qs;
  }

  lemma {:induction false} RulesFromAppend(shape: map<string, Rule>, a: seq<FormQuestion>, b: seq<FormQuestion>)
    ensures RulesFrom(shape, a + b) == RulesFrom(RulesFrom(shape, a), b)
    decreases |b|
  {
    if b == [] {
      assert a + b == a;
    } else {
      var b0, last := b[..|b| - 1], b[|b| - 1];
      assert b == b0 + [last] && a + b == (a + b0) + [last];
      RulesFromSnoc(shape, a + b0, last);
      RulesFromSnoc(RulesFrom(shape, a), b0, last);
      RulesFromAppend(shape, a, b0);
    }
  }

  /** The rules are keyed by exactly the question ids. */
  lemma {:induction false} RulesFromKeys(shape: map<string, Rule>, qs: seq<FormQuestion>, k: string)
    ensures k in RulesFrom(shape, qs) <==> k in shape || exists i :: 0 <= i < |qs| && qs[i].id == k
    decreases |qs|
  {
    if qs != [] {
      var q0 := qs[..|qs| - 1];
      RulesFromKeys(shape, q0, k);
      if exists i :: 0 <= i < |q0| && q0[i].id == k {
        var i :| 0 <= i < |q0| && q0[i].id == k;
        assert qs[i].id == k;
      }
      if exists i :: 0 <= i < |qs| && qs[i].id == k {
        var i :| 0 <= i < |qs| && qs[i].id == k;
        if i < |q0| {
          assert q0[i].id == k;
        }
      }
    }
  }

  /** When ids repeat, the rule of the last question with that id is the one kept. */
  lemma {:induction false} RulesFromLastWins(shape: map<string, Rule>, qs: seq<FormQuestion>, i: nat)
    requires i < |qs| && forall j :: i < j < |qs| ==> qs[j].id != qs[i].id
    ensures qs[i].id in RulesFrom(shape, qs) && RulesFrom(shape, qs)[qs[i].id] == RuleFor(qs[i])
    decreases |qs|
  {
    if i < |qs| - 1 {
      var q0 := qs[..|qs| - 1];
      assert q0[i] == qs[i];
      RulesFromLastWins(shape, q0, i);
    }
  }

  /** The zod object check: every key of the shape accepts its value; other keys are ignored. */
  predicate Satisfies(values: map<string, FieldValue>, rules: map<string, Rule>) {
    forall k :: k in rules ==> Accepts(rules[k], Get(values, k))
  }

  /**
   * For a form whose question ids are distinct, the answers pass exactly when
   * every question's own rule accepts its answer.
   */
  lemma ValidationRulesIff(form: FormOutput, values: map<string, FieldValue>)
    requires Distinct(IdsOf(Flatten(form.sections)))
    ensures Satisfies(values, ValidationRules(form)) <==> EachAccepted(Flatten(form.sections), values)
  {
    var qs := Flatten(form.sections);
    var rules := ValidationRules(form);
    forall i | 0 <= i < |qs| ensures qs[i].id in rules && rules[qs[i].id] == RuleFor(qs[i]) {
      forall j | i < j < |qs| ensures qs[j].id != qs[i].id {
        assert IdsOf(qs)[j] == qs[j].id && IdsOf(qs)[i] == qs[i].id;
      }
      RulesFromLastWins(map[], qs, i);
    }
    if Satisfies(values, rules) {
      forall i | 0 <= i < |qs| ensures Accepts(RuleFor(qs[i]), Get(values, qs[i].id)) {
        assert qs[i].id in rules;
      }
    }
    if EachAccepted(qs, values) {
      forall k | k in rules ensures Accepts(rules[k], Get(values, k)) {
        RulesFromKeys(map[], qs, k);
        var i :| 0 <= i < |qs| && qs[i].id == k;
        assert rules[qs[i].id] == RuleFor(qs[i]);
      }
      assert Satisfies(values, rules);
    }
  }

  /** Every question's own rule accepts its answer. */
  predicate EachAccepted(qs: seq<FormQuestion>, values: map<string, FieldValue>) {
    forall i :: 0 <= i < |qs| ==> Accepts(RuleFor(qs[i]), Get(values, qs[i].id))
  }

  function IdsOf(qs: seq<FormQuestion>): (ids: seq<string>)
    ensures |ids| == |qs| && forall i :: 0 <= i < |qs| ==> ids[i] == qs[i].id
  {
    seq(|qs|, i requires 0 <= i < |qs| => qs[i].id)
  }

  /** `buildValidationSchema`: one rule per question, assigned in form order. */
  method BuildValidationSchema(form: FormOutput) returns (shape: map<string, Rule>)
    ensures shape == ValidationRules(form)
  {
    shape := map[];
    var sections := form.sections;
    var i := 0;
    while i < |sections|
      invariant 0 <= i <= |sections|
      invariant shape == RulesFrom(map[], Flatten(sections[..i]))
    {
      ghost var before := shape;
      var questions := sections[i].questions;
      var j := 0;
      while j < |questions|
        invariant 0 <= j <= |questions|
        invariant shape == RulesFrom(before, questions[..j])
      {
        var question := questions[j];
        if question.qtype == Checkbox {
          shape := shape[question.id := if question.required then RequiredList("Please select at least one option") else OptionalList];
        } else if question.qtype == Textarea || question.qtype == Text {
          shape := shape[question.id := if question.required then RequiredString("This field is required") else OptionalString];
        } else {
          shape := shape[question.id := if question.required then RequiredString("Please select an option") else OptionalString];
        }
        assert questions[..j + 1] == questions[..j] + [question];
        RulesFromSnoc(before, questions[..j], question);
        j := j + 1;
      }
      assert questions[..j] == questions;
      assert sections[..i + 1] == sections[..i] + [sections[i]];
      FlattenSnoc(sections[..i], sections[i]);
      RulesFromAppend(map[], Flatten(sections[..i]), questions);
      i := i + 1;
    }
    assert sections[..i] == sections;
  }

  // ---------------------------------------------------------------------------
  // buildDefaultValues

  function DefaultFor(q: FormQuestion, provided: Option<map<string, FieldValue>>): FieldValue {
    if provided.Some? && Get(provided.value, q.id) != Undefined then provided.value[q.id]
    else if q.qtype == Checkbox then Multiple([])
    else if q.required then Single("")
    else Undefined
  }

  function DefaultsFrom(defaults: map<string, FieldValue>, qs: seq<FormQuestion>,
                        provided: Option<map<string, FieldValue>>): map<string, FieldValue> {
    if qs == [] then defaults
    else DefaultsFrom(defaults, qs[..|qs| - 1], provided)[qs[|qs| - 1].id := DefaultFor(qs[|qs| - 1], provided)]
  }

  function DefaultValues(form: FormOutput, provided: Option<map<string, FieldValue>>): map<string, FieldValue> {
    DefaultsFrom(map[], Flatten(form.sections), provided)
  }

  lemma DefaultsFromSnoc(d: map<string, FieldValue>, qs: seq<FormQuestion>, q: FormQuestion,
                         provided: Option<map<string, FieldValue>>)
    ensures DefaultsFrom(d, qs + [q], provided) == DefaultsFrom(d, qs, provided)[q.id := DefaultFor(q, provided)]
  {
    assert (qs + [q])[..|qs|] == qs;
  }

  lemma {:induction false} DefaultsFromAppend(d: map<string, FieldValue>, a: seq<FormQuestion>, b: seq<FormQuestion>,
                                              provided: Option<map<string, FieldValue>>)
    ensures DefaultsFrom(d, a + b, provided) == DefaultsFrom(DefaultsFrom(d, a, provided), b, provided)
    decreases |b|
  {
    if b == [] {
      assert a + b == a;
    } else {
      var b0, last := b[..|b| - 1], b[|b| - 1];
      assert b == b0 + [last] && a + b == (a + b0) + [last];
      DefaultsFromSnoc(d, a + b0, last, provided);
      DefaultsFromSnoc(DefaultsFrom(d, a, provided), b0, last, provided);
      DefaultsFromAppend(d, a, b0, provided);
    }
  }

  /** The defaults have exactly the question ids as keys. */
  lemma {:induction false} DefaultsFromKeys(d: map<string, FieldValue>, qs: seq<FormQuestion>,
                                            provided: Option<map<string, FieldValue>>, k: string)
    ensures k in DefaultsFrom(d, qs, provided) <==> k in d || exists i :: 0 <= i < |qs| && qs[i].id == k
    decreases |qs|
  {
    if qs != [] {
      var q0 := qs[..|qs| - 1];
      DefaultsFromKeys(d, q0, provided, k);
      if exists i :: 0 <= i < |q0| && q0[i].id == k {
        var i :| 0 <= i < |q0| && q0[i].id == k;
        assert qs[i].id == k;
      }
      if exists i :: 0 <= i < |qs| && qs[i].id == k {
        var i :| 0 <= i < |qs| && qs[i].id == k;
        if i < |q0| {
          assert q0[i].id == k;
        }
      }
    }
  }

  /** Each id gets the default of the last question carrying it. */
  lemma {:induction false} DefaultsFromLastWins(d: map<string, FieldValue>, qs: seq<FormQuestion>,
                                                provided: Option<map<string, FieldValue>>, i: nat)
    requires i < |qs| && forall j :: i < j < |qs| ==> qs[j].id != qs[i].id
    ensures qs[i].id in DefaultsFrom(d, qs, provided)
      && DefaultsFrom(d, qs, provided)[qs[i].id] == DefaultFor(qs[i], provided)
    decreases |qs|
  {
    if i < |qs| - 1 {
      var q0 := qs[..|qs| - 1];
      assert q0[i] == qs[i];
      DefaultsFromLastWins(d, q0, provided, i);
    }
  }

  /**
   * A provided value other than `undefined` wins; otherwise a checkbox
   * question starts with no box ticked, a required question with "", and an
   * optional one undefined.
   */
  lemma DefaultForSpec(q: FormQuestion, provided: Option<map<string, FieldValue>>)
    ensures provided.Some? && q.id in provided.value && provided.value[q.id] != Undefined ==>
      DefaultFor(q, provided) == provided.value[q.id]
    ensures (provided.None? || Get(provided.value, q.id) == Undefined) ==>
      DefaultFor(q, provided) == (if q.qtype == Checkbox then Multiple([]) else if q.required then Single("") else Undefined)
  {
  }

  /** Without provided values, a question's default passes its rule exactly when the question is optional. */
  lemma DefaultPassesIffOptional(q: FormQuestion)
    ensures Accepts(RuleFor(q), DefaultFor(q, None)) <==> !q.required
  {
  }

  /** `buildDefaultValues`. */
  method BuildDefaultValues(form: FormOutput, provided: Option<map<string, FieldValue>>)
    returns (defaults: map<string, FieldValue>)
    ensures defaults == DefaultValues(form, provided)
  {
    defaults := map[];
    var sections := form.sections;
    var i := 0;
    while i < |sections|
      invariant 0 <= i <= |sections|
      invariant defaults == DefaultsFrom(map[], Flatten(sections[..i]), provided)
    {
      ghost var before := defaults;
      var questions := sections[i].questions;
      var j := 0;
      while j < |questions|
        invariant 0 <= j <= |questions|
        invariant defaults == DefaultsFrom(before, questions[..j], provided)
      {
        var question := questions[j];
        if provided.Some? && question.id in provided.value && provided.value[question.id] != Undefined {
          defaults := defaults[question.id := provided.value[question.id]];
        } else if question.qtype == Checkbox {
          defaults := defaults[question.id := Multiple([])];
        } else if question.required {
          defaults := defaults[question.id := Single("")];
        } else {
          defaults := defaults[question.id := Undefined];
        }
        assert questions[..j + 1] == questions[..j] + [question];
        DefaultsFromSnoc(before, questions[..j], question, provided);
        j := j + 1;
      }
      assert questions[..j] == questions;
      assert sections[..i + 1] == sections[..i] + [sections[i]];
      FlattenSnoc(sections[..i], sections[i]);
      DefaultsFromAppend(map[], Flatten(sections[..i]), questions, provided);
      i := i + 1;
    }
    assert sections[..i] == sections;
  }

  // ---------------------------------------------------------------------------
  // handleFormSubmit

  predicate Kept(v: FieldValue) {
    v != Undefined && v != Single("")
  }

  /** The answers `handleFormSubmit` passes on. */
  function Submitted(data: map<string, FieldValue>): (r: map<string, FieldValue>)
    ensures forall k :: k in r <==> k in data && Kept(data[k])
    ensures forall k :: k in r ==> r[k] == data[k]
  {
    map k | k in data && Kept(data[k]) :: data[k]
  }

  /** `handleFormSubmit`: keys visited one by one, each kept or dropped on its value. */
  method HandleFormSubmit(data: map<string, FieldValue>) returns (filtered: map<string, FieldValue>)
    ensures filtered == Submitted(data)
  {
    filtered := map[];
    var remaining := data.Keys;
    while remaining != {}
      invariant remaining <= data.Keys
      invariant forall k :: k in filtered <==> k in data && k !in remaining && Kept(data[k])
      invariant forall k :: k in filtered ==> filtered[k] == data[k]
      decreases |remaining|
    {
      var key :| key in remaining;
      var value := data[key];
      if value != Undefined && value != Single("") {
        filtered := filtered[key := value];
      }
      remaining := remaining - {key};
    }
  }

  /** Empty lists of ticked boxes are passed on; filtering again changes nothing. */
  lemma SubmittedProperties(data: map<string, FieldValue>)
    ensures forall k :: k in data && data[k] == Multiple([]) ==> k in Submitted(data)
    ensures Submitted(Submitted(data)) == Submitted(data)
  {
  }

  /** Answers that passed validation still pass after the filter. */
  lemma SubmittedStillSatisfies(values: map<string, FieldValue>, rules: map<string, Rule>)
    requires Satisfies(values, rules)
    ensures Satisfies(Submitted(values), rules)
  {
    var r := Submitted(values);
    forall k | k in rules ensures Accepts(rules[k], Get(r, k)) {
      assert Accepts(rules[k], Get(values, k));
    }
  }

  // ---------------------------------------------------------------------------
  // the checkbox handler (lines 209-217)

  /** The new value of a checkbox field when the box for `value` is ticked or unticked. */
  function ToggleCheckbox(current: Option<seq<string>>, value: string, checked: bool): (r: seq<string>)
    ensures checked ==> r == (if current.Some? then current.value else []) + [value]
    ensures !checked ==> value !in r
    ensures !checked ==> forall x :: x in r <==> x != value && current.Some? && x in current.value
  {
    var currentValues := if current.Some? then current.value else [];
    if checked then currentValues + [value] else Without(currentValues, {value})
  }

  /** Ticking a box that was not ticked and unticking it again restores the list. */
  lemma TickUntick(current: seq<string>, value: string)
    requires value !in current
    ensures ToggleCheckbox(Some(ToggleCheckbox(Some(current), value, true)), value, false) == current
  {
    WithoutAppend(current, [value], {value});
    WithoutNone(current, {value});
  }

  /** Unticking keeps the other ticked values in their order. */
  lemma UntickKeepsOrder(a: seq<string>, b: seq<string>, value: string)
    ensures ToggleCheckbox(Some(a + b), value, false) == ToggleCheckbox(Some(a), value, false) + ToggleCheckbox(Some(b), value, false)
  {
    WithoutAppend(a, b, {value});
  }
}
