/**
 * lib/ai/generateForm.ts: asking Claude for a client intake form, and the two
 * helpers that give every generated question an id and repair choice
 * questions that came back without options.
 *
 * The form has the shape of the zod schema in
 * lib/ai/prompts/formGenerationPrompt.ts (lines 4-29); a field the schema marks
 * optional is an `Option`.
 */
module GenerateForm {
  import opened Js
  import opened Claude
  import opened Sanitize
  import opened ClaudeResponse

  datatype QuestionType = Radio | Checkbox | Text | Select | Textarea

  datatype FormOption = FormOption(value: string, labelText: string, impact: string)

  datatype FormQuestion = FormQuestion(
    id: string,
    qtype: QuestionType,
    labelText: string,
    description: Option<string>,
    options: Option<seq<FormOption>>,
    required: bool)

  datatype FormSection = FormSection(title: string, description: string, questions: seq<FormQuestion>)

  datatype FormOutput = FormOutput(sections: seq<FormSection>)

  /**
   * `generateForm` once the prompt is built: the reply's JSON, parsed by
   * `parse` and checked against the form schema by `check`; every other
   * failure is reported as "Failed to generate form: ...".
   */
  const FailurePrefix := "Failed to generate form: "

  function GenerateForm<J>(attempt: Attempt<seq<Block>>, parse: string -> Option<J>,
                           check: J -> Checked<FormOutput>): (r: Generated<FormOutput>)
    ensures attempt.Threw? && attempt.error.OtherError? && attempt.error.isError ==>
      r == Err(Plain(FailurePrefix + attempt.error.message, None))
    ensures r.Ok? <==> (attempt.Returned? && FirstText(attempt.value).Some? &&
      var json := parse(JsonText(FirstText(attempt.value).value));
      json.Some? && check(json.value).Valid?)
    ensures r.Ok? ==> r.output == check(parse(JsonText(FirstText(attempt.value).value)).value).output
  {
    Generate(attempt, s => s, parse, check, FailurePrefix)
  }

  // ---------------------------------------------------------------------------
  // question ids

  const MaxSlugLength := 30

  /** `label.toLowerCase().replace(/[^a-z0-9]+/g, "_").substring(0, 30)`. */
  function Slug(labelText: string): (r: string)
    ensures |r| <= MaxSlugLength
  {
    var collapsed := CollapseRuns(ToLower(labelText), NotLowerAlnum, '_');
    if |collapsed| <= MaxSlugLength then collapsed else collapsed[..MaxSlugLength]
  }

  /** `q_<section>_<question>_<slug>`. */
  function GenerateQuestionId(sectionIndex: nat, questionIndex: nat, labelText: string): (r: string)
    ensures |r| > 0
  {
    "q_" + NatToString(sectionIndex) + "_" + NatToString(questionIndex) + "_" + Slug(labelText)
  }

  predicate IdChar(c: char) {
    'a' <= c <= 'z' || '0' <= c <= '9' || c == '_'
  }

  /** A slug is lower-case letters, digits and single underscores. */
  lemma SlugShape(labelText: string)
    ensures var r := Slug(labelText);
      (forall i :: 0 <= i < |r| ==> IdChar(r[i])) && NoAdjacentRuns(r, NotLowerAlnum)
  {
    var collapsed := CollapseRuns(ToLower(labelText), NotLowerAlnum, '_');
    CollapseRunsRep(ToLower(labelText), NotLowerAlnum, '_');
    CollapseRunsNoAdjacent(ToLower(labelText), NotLowerAlnum, '_');
    var r := Slug(labelText);
    assert forall i :: 0 <= i < |r| ==> r[i] == collapsed[i];
  }

  /** Generated ids use only lower-case letters, digits and underscores. */
  lemma QuestionIdChars(sectionIndex: nat, questionIndex: nat, labelText: string)
    ensures var r := GenerateQuestionId(sectionIndex, questionIndex, labelText);
      forall i :: 0 <= i < |r| ==> IdChar(r[i])
  {
    SlugShape(labelText);
    var a, b, c := NatToString(sectionIndex), NatToString(questionIndex), Slug(labelText);
    assert IdText(a) && IdText(b) && IdText(c);
    IdTextConcat("q_", a);
    IdTextConcat("q_" + a, "_");
    IdTextConcat("q_" + a + "_", b);
    IdTextConcat("q_" + a + "_" + b, "_");
    IdTextConcat("q_" + a + "_" + b + "_", c);
  }

  predicate IdText(s: string) {
    forall i :: 0 <= i < |s| ==> IdChar(s[i])
  }

  lemma IdTextConcat(x: string, y: string)
    requires IdText(x) && IdText(y)
    ensures IdText(x + y)
  {
    forall i | 0 <= i < |x + y| ensures IdChar((x + y)[i]) {
      if i >= |x| {
        assert (x + y)[i] == y[i - |x|];
      }
    }
  }

  /** Two strings without `_`, each followed by `_`, are told apart by the first `_`. */
  lemma SplitAtUnderscore(x: string, y: string, x2: string, y2: string)
    requires '_' !in x && '_' !in x2 && x + "_" + y == x2 + "_" + y2
    ensures x == x2 && y == y2
  {
    var s := x + "_" + y;
    FirstUnderscore(x, y);
    FirstUnderscore(x2, y2);
    assert x == s[..|x|] == x2;
    assert y == s[|x| + 1..] == y2;
  }

  lemma FirstUnderscore(x: string, y: string)
    requires '_' !in x
    ensures IndexOfFrom(x + "_" + y, "_", 0) == Some(|x|)
  {
    var s := x + "_" + y;
    forall k | 0 <= k < |x| ensures !OccursAt(s, "_", k) {
      assert s[k..k + 1][0] == x[k] != '_';
    }
    assert s[|x|..|x| + 1] == "_";
    assert OccursAt(s, "_", |x|);
    var r := IndexOfFrom(s, "_", 0);
    assert r.Some? && r.value <= |x|;
  }

  lemma DigitsHaveNoUnderscore(n: nat)
    ensures '_' !in NatToString(n)
  {
  }

  /** The id without its `q_` head. */
  lemma QuestionIdTail(sectionIndex: nat, questionIndex: nat, labelText: string)
    ensures GenerateQuestionId(sectionIndex, questionIndex, labelText)[2..]
      == NatToString(sectionIndex) + "_" + (NatToString(questionIndex) + "_" + Slug(labelText))
  {
    var a, t := NatToString(sectionIndex), NatToString(questionIndex) + "_" + Slug(labelText);
    assert GenerateQuestionId(sectionIndex, questionIndex, labelText) == "q_" + (a + "_" + t);
  }

  /**
   * A generated id determines the position it was generated for: questions at
   * different positions never share a generated id, whatever their labels.
   */
  lemma QuestionIdPositions(s1: nat, q1: nat, l1: string, s2: nat, q2: nat, l2: string)
    requires GenerateQuestionId(s1, q1, l1) == GenerateQuestionId(s2, q2, l2)
    ensures s1 == s2 && q1 == q2
  {
    QuestionIdTail(s1, q1, l1);
    QuestionIdTail(s2, q2, l2);
    DigitsHaveNoUnderscore(s1);
    DigitsHaveNoUnderscore(s2);
    DigitsHaveNoUnderscore(q1);
    DigitsHaveNoUnderscore(q2);
    SplitAtUnderscore(NatToString(s1), NatToString(q1) + "_" + Slug(l1),
                      NatToString(s2), NatToString(q2) + "_" + Slug(l2));
    SplitAtUnderscore(NatToString(q1), Slug(l1), NatToString(q2), Slug(l2));
    NatToStringInjective(s1, s2);
    NatToStringInjective(q1, q2);
  }

  /** A label of lower-case letters and digits only is kept as it is. */
  lemma SlugOfPlainLabel(labelText: string)
    requires |labelText| <= MaxSlugLength
    requires forall i :: 0 <= i < |labelText| ==> 'a' <= labelText[i] <= 'z' || '0' <= labelText[i] <= '9'
    ensures Slug(labelText) == labelText
  {
    assert ToLower(labelText) == labelText;
    CollapseRunsFixpoint(labelText, NotLowerAlnum, '_');
  }

  /** Punctuation and spaces become single underscores: "Team size?" gives the slug `team_size_`. */
  lemma SlugExample(labelText: string)
    requires labelText == "Team size?"
    ensures Slug(labelText) == "team_size_"
  {
    var collapsed := CollapseRuns(ToLower(labelText), NotLowerAlnum, '_');
    assert |collapsed| <= |ToLower(labelText)| == 10;
    calc {
      collapsed;
    == { LowerExample(labelText); }
      CollapseRuns("team size?", NotLowerAlnum, '_');
    == { CollapseExample(); }
      "team" + CollapseRuns(" size?", NotLowerAlnum, '_');
    == { CollapseSpaceExample(); }
      "team" + "_size_";
    ==
      "team_size_";
    }
  }

  lemma LowerExample(labelText: string)
    requires labelText == "Team size?"
    ensures ToLower(labelText) == "team size?"
  {
    var lower := ToLower(labelText);
    forall i | 0 <= i < 10 ensures lower[i] == "team size?"[i] {
      assert lower[i] == LowerChar(labelText[i]);
    }
  }

  lemma CollapseExample()
    ensures CollapseRuns("team size?", NotLowerAlnum, '_') == "team" + CollapseRuns(" size?", NotLowerAlnum, '_')
  {
    assert "team size?" == "team" + " size?";
    assert PlainText("team");
    CollapsePlainPrefix("team", " size?");
  }

  lemma CollapseSpaceExample()
    ensures CollapseRuns(" size?", NotLowerAlnum, '_') == "_size_"
  {
    calc {
      CollapseRuns(" size?", NotLowerAlnum, '_');
    == { assert InRun(NotLowerAlnum, ' '); }
      "_" + CollapseRuns(DropRun(" size?", NotLowerAlnum), NotLowerAlnum, '_');
    == { assert DropRun(" size?", NotLowerAlnum) == "size?"; }
      "_" + CollapseRuns("size?", NotLowerAlnum, '_');
    == { assert "size?" == "size" + "?"; assert PlainText("size"); CollapsePlainPrefix("size", "?"); }
      "_" + ("size" + CollapseRuns("?", NotLowerAlnum, '_'));
    == { QuestionMarkExample(); }
      "_" + ("size" + "_");
    ==
      "_size_";
    }
  }

  lemma QuestionMarkExample()
    ensures CollapseRuns("?", NotLowerAlnum, '_') == "_"
  {
    assert InRun(NotLowerAlnum, '?');
    assert DropRun("?", NotLowerAlnum) == [];
  }

  /** Text made only of lower-case letters and digits, which `CollapseRuns` leaves alone. */
  predicate PlainText(a: string) {
    a == [] || (!InRun(NotLowerAlnum, a[0]) && PlainText(a[1..]))
  }

  /** Lower-case letters and digits pass through unchanged. */
  lemma {:induction false} CollapsePlainPrefix(a: string, b: string)
    requires PlainText(a)
    ensures CollapseRuns(a + b, NotLowerAlnum, '_') == a + CollapseRuns(b, NotLowerAlnum, '_')
  {
    if a == [] {
      assert a + b == b;
    } else {
      CollapsePlainPrefix(a[1..], b);
      CollapsePlainStep(a, b);
    }
  }

  lemma CollapsePlainStep(a: string, b: string)
    requires a != [] && !InRun(NotLowerAlnum, a[0])
    requires CollapseRuns(a[1..] + b, NotLowerAlnum, '_') == a[1..] + CollapseRuns(b, NotLowerAlnum, '_')
    ensures CollapseRuns(a + b, NotLowerAlnum, '_') == a + CollapseRuns(b, NotLowerAlnum, '_')
  {
    var c := CollapseRuns(b, NotLowerAlnum, '_');
    var t := a[1..];
    calc {
      CollapseRuns(a + b, NotLowerAlnum, '_');
    == { ConsAssoc(a[0], t, b); assert a == [a[0]] + t; }
      CollapseRuns([a[0]] + (t + b), NotLowerAlnum, '_');
    == { CollapseCons(a[0], t + b); }
      [a[0]] + CollapseRuns(t + b, NotLowerAlnum, '_');
    ==
      [a[0]] + (t + c);
    == { ConsAssoc(a[0], t, c); assert a == [a[0]] + t; }
      a + c;
    }
  }

  lemma ConsAssoc(x: char, t: string, u: string)
    ensures [x] + (t + u) == ([x] + t) + u
  {
  }

  /** A character outside the run class is copied and the rest collapsed. */
  lemma CollapseCons(c: char, s: string)
    requires !InRun(NotLowerAlnum, c)
    ensures CollapseRuns([c] + s, NotLowerAlnum, '_') == [c] + CollapseRuns(s, NotLowerAlnum, '_')
  {
    assert ([c] + s)[0] == c;
    assert ([c] + s)[1..] == s;
  }

  // ---------------------------------------------------------------------------
  // repairing the generated form

  /** The types that need a list of options. */
  predicate IsChoice(t: QuestionType) {
    t == Radio || t == Checkbox || t == Select
  }

  predicate HasOptions(q: FormQuestion) {
    q.options.Some? && |q.options.value| > 0
  }

  /** One question at position (`sectionIndex`, `questionIndex`), as `sanitizeFormOutput` maps it. */
  function SanitizeQuestion(q: FormQuestion, sectionIndex: nat, questionIndex: nat): (r: FormQuestion)
    ensures r.labelText == q.labelText && r.description == q.description && r.required == q.required
  {
    var id := if q.id != "" then q.id else GenerateQuestionId(sectionIndex, questionIndex, q.labelText);
    if IsChoice(q.qtype) && !HasOptions(q) then
      q.(id := id, qtype := Text, options := None)
    else
      q.(id := id)
  }

  function SanitizeSection(s: FormSection, sectionIndex: nat): (r: FormSection)
    ensures r.title == s.title && r.description == s.description
    ensures |r.questions| == |s.questions|
  {
    s.(questions := seq(|s.questions|, j requires 0 <= j < |s.questions| =>
      SanitizeQuestion(s.questions[j], sectionIndex, j)))
  }

  /** `sanitizeFormOutput`. */
  function SanitizeFormOutput(form: FormOutput): (r: FormOutput)
    ensures |r.sections| == |form.sections|
  {
    FormOutput(seq(|form.sections|, i requires 0 <= i < |form.sections| =>
      SanitizeSection(form.sections[i], i)))
  }

  /** A question every consumer can rely on: an id, and options whenever its type needs them. */
  predicate WellFormedQuestion(q: FormQuestion) {
    q.id != "" && (IsChoice(q.qtype) ==> HasOptions(q))
  }

  predicate WellFormedForm(f: FormOutput) {
    forall i, j :: 0 <= i < |f.sections| && 0 <= j < |f.sections[i].questions| ==>
      WellFormedQuestion(f.sections[i].questions[j])
  }

  /**
   * A question keeps its id when it has one and otherwise gets its generated
   * id; a choice question without options becomes a text question without
   * options; every other question keeps its type and options.
   */
  lemma SanitizeQuestionSpec(q: FormQuestion, sectionIndex: nat, questionIndex: nat)
    ensures var r := SanitizeQuestion(q, sectionIndex, questionIndex);
      && WellFormedQuestion(r)
      && (q.id != "" ==> r.id == q.id)
      && (q.id == "" ==> r.id == GenerateQuestionId(sectionIndex, questionIndex, q.labelText))
      && (IsChoice(q.qtype) && !HasOptions(q) ==> r.qtype == Text && r.options.None?)
      && (!IsChoice(q.qtype) || HasOptions(q) ==> r.qtype == q.qtype && r.options == q.options)
  {
  }

  /** A well-formed question is left exactly as it is. */
  lemma SanitizeQuestionFixpoint(q: FormQuestion, sectionIndex: nat, questionIndex: nat)
    requires WellFormedQuestion(q)
    ensures SanitizeQuestion(q, sectionIndex, questionIndex) == q
  {
  }

  /**
   * The repaired form has the same sections in the same order, each with the
   * same questions in the same order, and every question is well formed.
   */
  lemma SanitizeFormOutputSpec(form: FormOutput)
    ensures var r := SanitizeFormOutput(form);
      && WellFormedForm(r)
      && (forall i :: 0 <= i < |form.sections| ==>
            r.sections[i].title == form.sections[i].title
            && r.sections[i].description == form.sections[i].description
            && |r.sections[i].questions| == |form.sections[i].questions|)
      && (forall i, j :: 0 <= i < |form.sections| && 0 <= j < |form.sections[i].questions| ==>
            r.sections[i].questions[j] == SanitizeQuestion(form.sections[i].questions[j], i, j))
  {
    var r := SanitizeFormOutput(form);
    forall i, j | 0 <= i < |r.sections| && 0 <= j < |r.sections[i].questions|
      ensures WellFormedQuestion(r.sections[i].questions[j])
    {
      SanitizeQuestionSpec(form.sections[i].questions[j], i, j);
    }
  }

  /** A form with nothing to repair comes back unchanged. */
  lemma SanitizeFormOutputFixpoint(form: FormOutput)
    requires WellFormedForm(form)
    ensures SanitizeFormOutput(form) == form
  {
    var r := SanitizeFormOutput(form);
    forall i | 0 <= i < |form.sections| ensures r.sections[i] == form.sections[i] {
      var s := form.sections[i];
      forall j | 0 <= j < |s.questions| ensures r.sections[i].questions[j] == s.questions[j] {
        SanitizeQuestionFixpoint(s.questions[j], i, j);
      }
    }
  }

  /** Repairing twice is repairing once. */
  lemma SanitizeFormOutputIdempotent(form: FormOutput)
    ensures SanitizeFormOutput(SanitizeFormOutput(form)) == SanitizeFormOutput(form)
  {
    SanitizeFormOutputSpec(form);
    SanitizeFormOutputFixpoint(SanitizeFormOutput(form));
  }
}
