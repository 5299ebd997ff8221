/**
 * What lib/ai/generateForm.ts and lib/ai/generateTimeline.ts both do with a
 * Claude reply: take its first text block, cut the JSON out of a Markdown code
 * fence with the regular expression
 *     /```(?:json)?\s*\n?([\s\S]*?)\n?```/
 * and turn every failure that is not already a `ClaudeError` into one.
 *
 * `JSON.parse` and the zod schema are not modelled: they are parameters, a
 * parse that may fail and a validation that may reject with a message.
 */
module ClaudeResponse {
  import opened Js
  import opened Claude

  const Fence := "```"

  // ---------------------------------------------------------------------------
  // the fenced block

  /** The first position at or after `p` that is not whitespace (or the end). */
  function SkipSpaces(s: string, p: nat): (q: nat)
    requires p <= |s|
    ensures p <= q <= |s|
    ensures forall k :: p <= k < q ==> IsSpace(s[k])
    ensures q == |s| || !IsSpace(s[q])
    decreases |s| - p
  {
    if p < |s| && IsSpace(s[p]) then SkipSpaces(s, p + 1) else p
  }

  /**
   * Where the capture group starts for a fence opening at `i`: after the three
   * backticks, an optional `json` (taken whenever it is there) and all the
   * whitespace that follows; `\n?` then matches nothing, whitespace having
   * already taken every newline.
   */
  function CaptureStart(s: string, i: nat): (w: nat)
    requires i + 3 <= |s|
    ensures i + 3 <= w <= |s|
  {
    var p := i + 3;
    var q := if p + 4 <= |s| && s[p..p + 4] == "json" then p + 4 else p;
    SkipSpaces(s, q)
  }

  /**
   * The capture of the first match, if the text matches. The match starts at
   * the first fence; the lazy group ends at the first fence after the capture
   * start, one character earlier when that character is a newline.
   */
  function FencedBlock(s: string): (r: Option<string>)
  {
    match IndexOfFrom(s, Fence, 0)
    case None => None
    case Some(i) =>
      var w := CaptureStart(s, i);
      match IndexOfFrom(s, Fence, w)
      case None => None
      case Some(j) =>
        var e := if j > w && s[j - 1] == '\n' then j - 1 else j;
        Some(s[w..e])
  }

  /** The captured text never contains a fence. */
  lemma FencedBlockHasNoFence(s: string)
    requires FencedBlock(s).Some?
    ensures forall k :: !OccursAt(FencedBlock(s).value, Fence, k)
  {
    var i := IndexOfFrom(s, Fence, 0).value;
    var w := CaptureStart(s, i);
    var j := IndexOfFrom(s, Fence, w).value;
    var e := if j > w && s[j - 1] == '\n' then j - 1 else j;
    var c := s[w..e];
    forall k | OccursAt(c, Fence, k) ensures false {
      OccursInSlice(s, w, e, k);
    }
  }

  lemma OccursInSlice(s: string, a: nat, b: nat, k: int)
    requires a <= b <= |s| && OccursAt(s[a..b], Fence, k)
    ensures OccursAt(s, Fence, a + k)
  {
    var t := s[a..b];
    assert |Fence| == 3;
    assert 0 <= k && k + 3 <= |t| && t[k..k + 3] == Fence;
    forall m | 0 <= m < 3 ensures s[a + k..a + k + 3][m] == Fence[m] {
      assert t[k..k + 3][m] == t[k + m] == s[a + k + m];
    }
    assert s[a + k..a + k + 3] == Fence;
  }

  /** No character of `json` or of whitespace is a backtick, so no fence starts between the opening fence and the capture. */
  lemma NoFenceBeforeCapture(s: string, i: nat, k: nat)
    requires OccursAt(s, Fence, i) && i + 3 <= k < CaptureStart(s, i)
    ensures !OccursAt(s, Fence, k)
  {
    var p := i + 3;
    var q := if p + 4 <= |s| && s[p..p + 4] == "json" then p + 4 else p;
    assert s[k] != '`' by {
      if k < q {
        assert s[k] == s[p..p + 4][k - p];
      } else {
        assert IsSpace(s[k]);
      }
    }
    assert k + 3 <= |s| ==> s[k..k + 3][0] == s[k];
  }

  /**
   * The text matches exactly when it holds a fence and a second one that
   * starts at least three characters after the first.
   */
  lemma FencedBlockIffTwoFences(s: string)
    ensures FencedBlock(s).Some? <==>
      exists i, j :: OccursAt(s, Fence, i) && OccursAt(s, Fence, j) && i + 3 <= j
  {
    match IndexOfFrom(s, Fence, 0)
    case None =>
    case Some(i) =>
      var w := CaptureStart(s, i);
      if FencedBlock(s).Some? {
        var j := IndexOfFrom(s, Fence, w).value;
        assert OccursAt(s, Fence, i) && OccursAt(s, Fence, j) && i + 3 <= j;
      }
      if exists a, b :: OccursAt(s, Fence, a) && OccursAt(s, Fence, b) && a + 3 <= b {
        var a, b :| OccursAt(s, Fence, a) && OccursAt(s, Fence, b) && a + 3 <= b;
        assert i <= a;
        if b < w {
          NoFenceBeforeCapture(s, i, b);
        }
        assert IndexOfFrom(s, Fence, w).Some?;
      }
  }

  /** The text handed to `JSON.parse`: the fenced block if there is one, else the whole reply, trimmed. */
  function JsonText(response: string): (r: string)
    ensures FencedBlock(response).None? ==> r == Trim(response)
    ensures FencedBlock(response).Some? ==> r == Trim(FencedBlock(response).value)
  {
    var block := FencedBlock(response);
    Trim(if block.Some? then block.value else response)
  }

  /** A reply of the usual shape, "```json", a newline, the JSON, a newline, "```", yields the JSON. */
  lemma JsonFenceExample()
    ensures FencedBlock("```json\n{}\n```") == Some("{}")
  {
    var s := "```json\n{}\n```";
    assert OccursAt(s, Fence, 0);
    assert s[3..7] == "json";
    assert IsSpace(s[7]) && !IsSpace(s[8]);
    assert SkipSpaces(s, 7) == 8;
    assert CaptureStart(s, 0) == 8;
    assert s[8..11][0] == '{' && s[9..12][0] == '}' && s[10..13][0] == '\n';
    assert !OccursAt(s, Fence, 8) && !OccursAt(s, Fence, 9) && !OccursAt(s, Fence, 10);
    assert OccursAt(s, Fence, 11);
    assert IndexOfFrom(s, Fence, 8) == Some(11);
    assert s[10] == '\n' && s[8..10] == "{}";
  }

  // ---------------------------------------------------------------------------
  // the generation pipeline

  /** The content blocks of a reply; only text blocks matter. */
  datatype Block = TextBlock(text: string) | OtherBlock

  /** `response.content.find(block => block.type === "text")`. */
  function FirstText(blocks: seq<Block>): (r: Option<string>)
    ensures r.Some? <==> exists k :: 0 <= k < |blocks| && blocks[k].TextBlock?
  {
    if blocks == [] then None
    else if blocks[0].TextBlock? then Some(blocks[0].text)
    else
      var r := FirstText(blocks[1..]);
      assert r.Some? <==> exists k :: 1 <= k < |blocks| && blocks[k].TextBlock? by {
        if r.Some? {
          var k :| 0 <= k < |blocks[1..]| && blocks[1..][k].TextBlock?;
          assert blocks[k + 1].TextBlock?;
        }
      }
      r
  }

  /** The text found is that of the first text block. */
  lemma {:induction false} FirstTextIsFirst(blocks: seq<Block>)
    requires FirstText(blocks).Some?
    ensures exists k :: (0 <= k < |blocks| && blocks[k] == TextBlock(FirstText(blocks).value) &&
      forall m :: 0 <= m < k ==> !blocks[m].TextBlock?)
  {
    if !blocks[0].TextBlock? {
      FirstTextIsFirst(blocks[1..]);
      var k :| 0 <= k < |blocks[1..]| && blocks[1..][k] == TextBlock(FirstText(blocks[1..]).value)
        && forall m :: 0 <= m < k ==> !blocks[1..][m].TextBlock?;
      assert blocks[k + 1] == TextBlock(FirstText(blocks).value);
      forall m | 0 <= m < k + 1 ensures !blocks[m].TextBlock? {
        if m > 0 {
          assert blocks[m] == blocks[1..][m - 1];
        }
      }
    } else {
      assert blocks[0] == TextBlock(FirstText(blocks).value);
    }
  }

  /** The schema check: the typed output, or a rejection (a `ZodError`, which is an `Error`). */
  datatype Checked<O> = Valid(output: O) | Invalid(message: string)

  datatype Generated<O> = Ok(output: O) | Err(error: ClaudeError)

  const NoTextMessage := "No text content in Claude response"
  const NotJsonMessage := "Claude response was not valid JSON. Please try again."

  /**
   * The message a failure that is not a `ClaudeError` is reported with:
   * `prefix` is "Failed to generate form: " or "Failed to generate timeline: ",
   * followed by the error's message, or "Unknown error" for a thrown value that
   * is not an `Error`.
   */
  function WrapMessage(prefix: string, isError: bool, message: string): string {
    prefix + (if isError then message else "Unknown error")
  }

  /**
   * The body of `generateForm` / `generateTimeline` once the prompt is built:
   * `attempt` is what the Claude call did, `decode` what happens to the JSON
   * text before parsing (the timeline's entity decoding, or nothing).
   */
  function Generate<J, O>(attempt: Attempt<seq<Block>>, decode: string -> string,
                          parse: string -> Option<J>, check: J -> Checked<O>, prefix: string): (r: Generated<O>)
  {
    match HandleClaudeError(attempt)
    case Mapped(e) => Err(e)
    case Rethrown(e) => Err(Plain(WrapMessage(prefix, e.isError, e.message), None))
    case Done(blocks) =>
      match FirstText(blocks)
      case None => Err(Plain(NoTextMessage, None))
      case Some(text) =>
        var block := FencedBlock(text);
        var candidate := decode(if block.Some? then block.value else text);
        match parse(Trim(candidate))
        case None => Err(Plain(NotJsonMessage, None))
        case Some(json) =>
          match check(json)
          case Valid(out) => Ok(out)
          case Invalid(msg) => Err(Plain(WrapMessage(prefix, true, msg), None))
  }

  /**
   * Errors the Claude call already turned into a `ClaudeError` pass through
   * unchanged; every other failure becomes a `ClaudeError` without a status.
   */
  lemma GenerateErrors<J, O>(attempt: Attempt<seq<Block>>, decode: string -> string,
                             parse: string -> Option<J>, check: J -> Checked<O>, prefix: string)
    ensures var r := Generate(attempt, decode, parse, check, prefix);
      && (HandleClaudeError(attempt).Mapped? ==> r == Err(HandleClaudeError(attempt).error))
      && (attempt.Threw? && attempt.error.OtherError? ==>
            r.Err? && r.error == Plain(WrapMessage(prefix, attempt.error.isError, attempt.error.message), None))
      && (attempt.Returned? && r.Err? ==> r.error.Plain? && r.error.statusCode.None?)
  {
  }

  /** A reply without a text block fails with the fixed message, whatever the parser would say. */
  lemma GenerateNoText<J, O>(blocks: seq<Block>, decode: string -> string,
                             parse: string -> Option<J>, check: J -> Checked<O>, prefix: string)
    requires forall k :: 0 <= k < |blocks| ==> !blocks[k].TextBlock?
    ensures Generate(Returned(blocks), decode, parse, check, prefix) == Err(Plain(NoTextMessage, None))
  {
  }

  /** A reply that parses and passes the schema is returned as the schema produced it. */
  lemma GenerateSuccess<J, O>(attempt: Attempt<seq<Block>>, decode: string -> string,
                              parse: string -> Option<J>, check: J -> Checked<O>, prefix: string)
    ensures var r := Generate(attempt, decode, parse, check, prefix);
      r.Ok? <==> (attempt.Returned? && FirstText(attempt.value).Some? &&
        var text := FirstText(attempt.value).value;
        var block := FencedBlock(text);
        var json := parse(Trim(decode(if block.Some? then block.value else text)));
        json.Some? && check(json.value).Valid?)
  {
  }
}
