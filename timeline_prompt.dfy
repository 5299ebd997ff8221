/**
 * lib/ai/prompts/timelineGenerationPrompt.ts: the timeline schema Claude must
 * answer with, the questionnaire answers rendered into the prompt, and the
 * parts of the prompt that appear only under a condition.
 *
 * The fixed wording of the prompt is not modelled; numbers the schema types
 * as `z.number()` are `real`.
 */
module TimelinePrompt {
  import opened Js
  import opened GenerateForm

  // ---------------------------------------------------------------------------
  // the timeline schema (lines 4-19)

  datatype Phase = Phase(
    id: string,
    name: string,
    durationWeeks: real,
    tasks: seq<string>,
    dependencies: seq<string>)

  datatype Timeline = Timeline(
    phases: seq<Phase>,
    totalWeeks: real,
    totalHours: real,
    totalCost: real,
    assumptions: seq<string>,
    risks: seq<string>)

  // ---------------------------------------------------------------------------
  // questionnaire answers

  /**
   * A stored answer: `null`, an array (checkbox questions) or any other value,
   * given by its string rendering. A missing key reads as `undefined`, which
   * the source treats like `null`.
   */
  datatype Answer = Null | Listed(items: seq<string>) | Scalar(text: string)

  /** The stored form: `formData.sections`, absent when the form has none. */
  datatype FormData = FormData(sections: Option<seq<FormSection>>)

  const ResponsesHeader := "\n**Client Questionnaire Responses**:\n"
  const NotAnswered := "A: Not answered"
  const RequiredMarker := " *(Required)*"

  function Lookup(responses: map<string, Answer>, id: string): Option<Answer> {
    if id in responses then Some(responses[id]) else None
  }

  /** The answer line, without its newline. */
  function AnswerLine(answer: Option<Answer>): (r: string)
    ensures |r| >= 3 && r[..3] == "A: "
  {
    match answer
    case None => NotAnswered
    case Some(Null) => NotAnswered
    case Some(Listed(items)) => if |items| > 0 then "A: " + Join(items, ", ") else NotAnswered
    case Some(Scalar(text)) => "A: " + text
  }

  function QuestionBlock(q: FormQuestion, responses: map<string, Answer>): string {
    "\n**Q: " + q.labelText + "**" + (if q.required then RequiredMarker else "") + "\n"
      + AnswerLine(Lookup(responses, q.id)) + "\n"
  }

  function QuestionsBlock(qs: seq<FormQuestion>, responses: map<string, Answer>): string {
    if qs == [] then "" else QuestionsBlock(qs[..|qs| - 1], responses) + QuestionBlock(qs[|qs| - 1], responses)
  }

  /** A section's heading, and its description line when it has one. */
  function SectionHead(s: FormSection): string {
    "\n### " + s.title + "\n" + (if s.description != "" then s.description + "\n" else "")
  }

  function SectionBlock(s: FormSection, responses: map<string, Answer>): string {
    SectionHead(s) + QuestionsBlock(s.questions, responses)
  }

  function SectionsBlock(ss: seq<FormSection>, responses: map<string, Answer>): string {
    if ss == [] then "" else SectionsBlock(ss[..|ss| - 1], responses) + SectionBlock(ss[|ss| - 1], responses)
  }

  /** What `formatFormResponses` returns. */
  function FormattedResponses(responses: map<string, Answer>, formData: FormData): string {
    match formData.sections
    case None => ""
    case Some(sections) => ResponsesHeader + SectionsBlock(sections, responses)
  }

  /** `formatFormResponses`: the text built up section by section and question by question. */
  method FormatFormResponses(responses: map<string, Answer>, formData: FormData) returns (formatted: string)
    ensures formatted == FormattedResponses(responses, formData)
  {
    if formData.sections.None? {
      return "";
    }
    var sections := formData.sections.value;
    formatted := ResponsesHeader;
    var i := 0;
    while i < |sections|
      invariant 0 <= i <= |sections|
      invariant formatted == ResponsesHeader + SectionsBlock(sections[..i], responses)
    {
      SectionStep(sections, i, responses);
      formatted := AppendSection(formatted, sections[i], responses);
      i := i + 1;
    }
    assert sections[..i] == sections;
  }

  /** The body of the outer loop: one section's heading, then its questions in order. */
  method AppendSection(before: string, section: FormSection, responses: map<string, Answer>) returns (formatted: string)
    ensures formatted == before + SectionBlock(section, responses)
  {
    var head := SectionHeadText(section);
    formatted := before + head;
    ghost var prefix := formatted;
    var j := 0;
    while j < |section.questions|
      invariant 0 <= j <= |section.questions|
      invariant formatted == prefix + QuestionsBlock(section.questions[..j], responses)
    {
      var block := QuestionText(section.questions[j], responses);
      QuestionStep(prefix, section.questions, j, responses, formatted, block);
      formatted := formatted + block;
      j := j + 1;
    }
    assert section.questions[..j] == section.questions;
    ConcatAssoc(before, SectionHead(section), QuestionsBlock(section.questions, responses));
  }

  /** The outer loop keeps its invariant: one more section appended is one more section formatted. */
  lemma SectionStep(sections: seq<FormSection>, i: nat, responses: map<string, Answer>)
    requires i < |sections|
    ensures ResponsesHeader + SectionsBlock(sections[..i], responses) + SectionBlock(sections[i], responses)
      == ResponsesHeader + SectionsBlock(sections[..i + 1], responses)
  {
    assert sections[..i + 1] == sections[..i] + [sections[i]];
    SectionsBlockSnoc(sections[..i], sections[i], responses);
    ConcatAssoc(ResponsesHeader, SectionsBlock(sections[..i], responses), SectionBlock(sections[i], responses));
  }

  /** The inner loop keeps its invariant: one more question's block is one more question formatted. */
  lemma QuestionStep(prefix: string, qs: seq<FormQuestion>, j: nat, responses: map<string, Answer>,
                     formatted: string, block: string)
    requires j < |qs|
    requires formatted == prefix + QuestionsBlock(qs[..j], responses)
    requires block == QuestionBlock(qs[j], responses)
    ensures formatted + block == prefix + QuestionsBlock(qs[..j + 1], responses)
  {
    ConcatAssoc(prefix, QuestionsBlock(qs[..j], responses), block);
    assert qs[..j + 1] == qs[..j] + [qs[j]];
    QuestionsBlockSnoc(qs[..j], qs[j], responses);
  }

  /** One question's lines, as the inner loop appends them. */
  method QuestionText(question: FormQuestion, responses: map<string, Answer>) returns (block: string)
    ensures block == QuestionBlock(question, responses)
  {
    var answer := Lookup(responses, question.id);
    block := "\n**Q: " + question.labelText + "**";
    if question.required {
      block := block + RequiredMarker;
    }
    block := block + "\n";
    if answer.Some? && !answer.value.Null? {
      if answer.value.Listed? {
        block := block + (if |answer.value.items| > 0 then "A: " + Join(answer.value.items, ", ") else NotAnswered);
      } else {
        block := block + "A: " + answer.value.text;
      }
    } else {
      block := block + NotAnswered;
    }
    block := block + "\n";
  }

  /** A section's heading lines, as the outer loop appends them. */
  method SectionHeadText(section: FormSection) returns (head: string)
    ensures head == SectionHead(section)
  {
    head := "\n### " + section.title + "\n";
    if section.description != "" {
      head := head + section.description + "\n";
    }
  }

  lemma QuestionsBlockSnoc(qs: seq<FormQuestion>, q: FormQuestion, responses: map<string, Answer>)
    ensures QuestionsBlock(qs + [q], responses) == QuestionsBlock(qs, responses) + QuestionBlock(q, responses)
  {
    assert (qs + [q])[..|qs|] == qs;
  }

  lemma SectionsBlockSnoc(ss: seq<FormSection>, s: FormSection, responses: map<string, Answer>)
    ensures SectionsBlock(ss + [s], responses) == SectionsBlock(ss, responses) + SectionBlock(s, responses)
  {
    assert (ss + [s])[..|ss|] == ss;
  }

  /** Adding sections at the end adds their blocks at the end. */
  lemma {:induction false} SectionsBlockAppend(a: seq<FormSection>, b: seq<FormSection>, responses: map<string, Answer>)
    ensures SectionsBlock(a + b, responses) == SectionsBlock(a, responses) + SectionsBlock(b, responses)
    decreases |b|
  {
    if b == [] {
      assert a + b == a;
    } else {
      var b0, last := b[..|b| - 1], b[|b| - 1];
      assert b == b0 + [last];
      assert a + b == (a + b0) + [last];
      SectionsBlockSnoc(a + b0, last, responses);
      SectionsBlockSnoc(b0, last, responses);
      SectionsBlockAppend(a, b0, responses);
      ConcatAssoc(SectionsBlock(a, responses), SectionsBlock(b0, responses), SectionBlock(last, responses));
    }
  }

  lemma ConcatAssoc(x: string, y: string, z: string)
    ensures (x + y) + z == x + (y + z)
  {
  }

  /** The text is empty exactly when the form has no sections field. */
  lemma FormattedResponsesEmpty(responses: map<string, Answer>, formData: FormData)
    ensures FormattedResponses(responses, formData) == "" <==> formData.sections.None?
  {
    if formData.sections.Some? {
      assert |ResponsesHeader| > 0;
    }
  }

  /** Each section contributes its own block after those of the sections before it. */
  lemma FormattedResponsesPerSection(responses: map<string, Answer>, sections: seq<FormSection>, s: FormSection)
    ensures FormattedResponses(responses, FormData(Some(sections + [s])))
      == FormattedResponses(responses, FormData(Some(sections))) + SectionHead(s) + QuestionsBlock(s.questions, responses)
  {
    SectionsBlockSnoc(sections, s, responses);
    ConcatAssoc(ResponsesHeader, SectionsBlock(sections, responses), SectionBlock(s, responses));
    ConcatAssoc(FormattedResponses(responses, FormData(Some(sections))), SectionHead(s), QuestionsBlock(s.questions, responses));
  }

  /** Null, a missing key and an empty list all read "A: Not answered". */
  lemma UnansweredLines()
    ensures AnswerLine(None) == NotAnswered
    ensures AnswerLine(Some(Null)) == NotAnswered
    ensures AnswerLine(Some(Listed([]))) == NotAnswered
  {
  }

  /** A one-element list reads exactly like the element given as a plain value. */
  lemma SingletonListIsScalar(x: string)
    ensures AnswerLine(Some(Listed([x]))) == AnswerLine(Some(Scalar(x)))
  {
    assert Join([x], ", ") == x;
  }

  /** Only the answers to the form's own questions matter: other keys never reach the prompt. */
  lemma {:induction false} QuestionsBlockLocal(qs: seq<FormQuestion>, r1: map<string, Answer>, r2: map<string, Answer>)
    requires forall k :: 0 <= k < |qs| ==> Lookup(r1, qs[k].id) == Lookup(r2, qs[k].id)
    ensures QuestionsBlock(qs, r1) == QuestionsBlock(qs, r2)
    decreases |qs|
  {
    if qs != [] {
      QuestionsBlockLocal(qs[..|qs| - 1], r1, r2);
    }
  }

  lemma {:induction false} SectionsBlockLocal(ss: seq<FormSection>, r1: map<string, Answer>, r2: map<string, Answer>)
    requires forall i, k :: 0 <= i < |ss| && 0 <= k < |ss[i].questions| ==>
      Lookup(r1, ss[i].questions[k].id) == Lookup(r2, ss[i].questions[k].id)
    ensures SectionsBlock(ss, r1) == SectionsBlock(ss, r2)
    decreases |ss|
  {
    if ss != [] {
      SectionsBlockLocal(ss[..|ss| - 1], r1, r2);
      QuestionsBlockLocal(ss[|ss| - 1].questions, r1, r2);
    }
  }

  lemma FormattedResponsesLocal(r1: map<string, Answer>, r2: map<string, Answer>, sections: seq<FormSection>)
    requires forall i, k :: 0 <= i < |sections| && 0 <= k < |sections[i].questions| ==>
      Lookup(r1, sections[i].questions[k].id) == Lookup(r2, sections[i].questions[k].id)
    ensures FormattedResponses(r1, FormData(Some(sections))) == FormattedResponses(r2, FormData(Some(sections)))
  {
    SectionsBlockLocal(sections, r1, r2);
  }

  // ---------------------------------------------------------------------------
  // the conditional parts of the prompt

  /**
   * Line 60: the questionnaire block, only when both the responses and the
   * stored form were supplied.
   */
  function FormResponsesPart(formResponses: Option<map<string, Answer>>, formData: Option<FormData>): (r: string)
    ensures r != "" ==> formResponses.Some? && formData.Some? && formData.value.sections.Some?
  {
    if formResponses.Some? && formData.Some? then FormattedResponses(formResponses.value, formData.value) else ""
  }

  /** Lines 48-49 and 62: the custom instructions, only when they are a non-empty string. */
  function CustomInstructionsPart(custom: Option<string>): (r: string)
    ensures r == "" <==> custom.None? || custom.value == ""
    ensures r != "" ==> r == "**Custom Instructions**: " + custom.value + "\n"
  {
    if custom.Some? && custom.value != "" then "**Custom Instructions**: " + custom.value + "\n" else ""
  }
}
