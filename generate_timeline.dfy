/**
 * lib/ai/generateTimeline.ts: asking Claude for a project timeline. It shares
 * the reply handling of form generation and adds one step: before parsing,
 * five HTML entities are decoded, one global replace after the other.
 */
module GenerateTimeline {
  import opened Js
  import opened Claude
  import opened ClaudeResponse
  import opened TimelinePrompt

  /** Lines 75-80, in their order: `&amp;` first. */
  function DecodeEntities(s: string): string {
    var amp := ReplaceAll(s, "&amp;", "&");
    var lt := ReplaceAll(amp, "&lt;", "<");
    var gt := ReplaceAll(lt, "&gt;", ">");
    var quot := ReplaceAll(gt, "&quot;", "\"");
    ReplaceAll(quot, "&#39;", "'")
  }

  /** Text without `&` holds no entity and is left as it is. */
  lemma DecodeEntitiesNoAmpersand(s: string)
    requires '&' !in s
    ensures DecodeEntities(s) == s
  {
    ReplaceAllAbsent(s, "&amp;", "&");
    ReplaceAllAbsent(s, "&lt;", "<");
    ReplaceAllAbsent(s, "&gt;", ">");
    ReplaceAllAbsent(s, "&quot;", "\"");
    ReplaceAllAbsent(s, "&#39;", "'");
  }

  /** Every entity is longer than its character, so decoding never lengthens the text. */
  lemma DecodeEntitiesShrinks(s: string)
    ensures |DecodeEntities(s)| <= |s|
  {
    var amp := ReplaceAll(s, "&amp;", "&");
    var lt := ReplaceAll(amp, "&lt;", "<");
    var gt := ReplaceAll(lt, "&gt;", ">");
    var quot := ReplaceAll(gt, "&quot;", "\"");
    ReplaceAllShrinks(s, "&amp;", "&");
    ReplaceAllShrinks(amp, "&lt;", "<");
    ReplaceAllShrinks(lt, "&gt;", ">");
    ReplaceAllShrinks(gt, "&quot;", "\"");
    ReplaceAllShrinks(quot, "&#39;", "'");
  }

  /**
   * Because `&amp;` goes first, the `&` it produces can start a new entity:
   * the doubly escaped `&amp;lt;` decodes all the way to `<`.
   */
  lemma DoubleEscapedDecodes()
    ensures DecodeEntities("&amp;lt;") == "<"
  {
    ReplaceStep("&amp;lt;", "&amp;", "&", "lt;");
    ReplaceAllAbsent("lt;", "&amp;", "&");
    assert ReplaceAll("&amp;lt;", "&amp;", "&") == "&lt;";
    ReplaceStep("&lt;", "&lt;", "<", "");
    assert ReplaceAll("&lt;", "&lt;", "<") == "<";
    ReplaceAllAbsent("<", "&gt;", ">");
    ReplaceAllAbsent("<", "&quot;", "\"");
    ReplaceAllAbsent("<", "&#39;", "'");
  }

  /** A text that starts with the pattern has it replaced and the rest scanned on. */
  lemma ReplaceStep(s: string, pat: string, rep: string, rest: string)
    requires pat != [] && s == pat + rest
    ensures ReplaceAll(s, pat, rep) == rep + ReplaceAll(rest, pat, rep)
  {
    assert s[..|pat|] == pat && s[|pat|..] == rest;
  }

  /**
   * The hexadecimal forms `sanitizeHtml` in lib/sanitize.ts produces for `'`
   * and `/` are not among the five entities and stay encoded.
   */
  lemma HexEntitiesStay()
    ensures DecodeEntities("&#x27;") == "&#x27;"
    ensures DecodeEntities("&#x2F;") == "&#x2F;"
  {
    NoEntityAtStart("&#x27;");
    NoEntityAtStart("&#x2F;");
  }

  /** A six-character `&#x..;` text matches none of the five patterns anywhere. */
  lemma NoEntityAtStart(s: string)
    requires |s| == 6 && s[..3] == "&#x" && '&' !in s[1..]
    ensures DecodeEntities(s) == s
  {
    assert s[..5] != "&amp;" && s[..4] != "&lt;" && s[..4] != "&gt;" && s[..6] != "&quot;" && s[..5] != "&#39;" by {
      assert s[..5][1] == '#' && s[..4][1] == '#' && s[..6][1] == '#' && s[..5][2] == 'x';
    }
    KeepFirst(s, "&amp;", "&");
    KeepFirst(s, "&lt;", "<");
    KeepFirst(s, "&gt;", ">");
    KeepFirst(s, "&quot;", "\"");
    KeepFirst(s, "&#39;", "'");
  }

  /** When the text does not start with the pattern and holds no other `&`, nothing is replaced. */
  lemma KeepFirst(s: string, pat: string, rep: string)
    requires pat != [] && pat[0] == '&' && |s| >= 1 && '&' !in s[1..]
    requires |s| >= |pat| ==> s[..|pat|] != pat
    ensures ReplaceAll(s, pat, rep) == s
  {
    ReplaceAllAbsent(s[1..], pat, rep);
    assert s == [s[0]] + s[1..];
  }

  const FailurePrefix := "Failed to generate timeline: "

  /**
   * `generateTimeline` once the prompt is built: like form generation, but the
   * JSON text is entity-decoded before it is parsed.
   */
  function GenerateTimeline<J>(attempt: Attempt<seq<Block>>, parse: string -> Option<J>,
                               check: J -> Checked<Timeline>): (r: Generated<Timeline>)
    ensures attempt.Threw? && attempt.error.OtherError? && attempt.error.isError ==>
      r == Err(Plain(FailurePrefix + attempt.error.message, None))
    ensures r.Ok? <==> (attempt.Returned? && FirstText(attempt.value).Some? &&
      var text := FirstText(attempt.value).value;
      var block := FencedBlock(text);
      var json := parse(Trim(DecodeEntities(if block.Some? then block.value else text)));
      json.Some? && check(json.value).Valid?)
  {
    Generate(attempt, DecodeEntities, parse, check, FailurePrefix)
  }

  /** For a reply without `&` the parser sees exactly what form generation would give it. */
  lemma GenerateTimelineWithoutEntities<J>(text: string, parse: string -> Option<J>, check: J -> Checked<Timeline>)
    requires '&' !in text
    ensures GenerateTimeline(Returned([TextBlock(text)]), parse, check)
      == Generate(Returned([TextBlock(text)]), s => s, parse, check, FailurePrefix)
  {
    var block := FencedBlock(text);
    if block.Some? {
      FencedBlockIsSlice(text);
      DecodeEntitiesNoAmpersand(block.value);
    } else {
      DecodeEntitiesNoAmpersand(text);
    }
  }

  lemma FencedBlockIsSlice(s: string)
    requires FencedBlock(s).Some?
    ensures forall c :: c in FencedBlock(s).value ==> c in s
  {
  }
}
