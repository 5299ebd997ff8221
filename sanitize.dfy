/**
 * lib/sanitize.ts: HTML escaping, whitespace normalisation, the e-mail shape
 * check and file-name sanitising. Each source function is a chain of global
 * regular-expression replacements; the chain is modelled step by step and then
 * characterised by what its result looks like.
 */
module Sanitize {
  import opened Js

  // ---------------------------------------------------------------------------
  // sanitizeHtml

  /** The five replacements of `sanitizeHtml`, in source order. */
  function SanitizeHtml(s: string): string {
    var s1 := ReplaceAll(s, "<", "&lt;");
    var s2 := ReplaceAll(s1, ">", "&gt;");
    var s3 := ReplaceAll(s2, "\"", "&quot;");
    var s4 := ReplaceAll(s3, "'", "&#x27;");
    ReplaceAll(s4, "/", "&#x2F;")
  }

  predicate IsHtmlSpecial(c: char) {
    c == '<' || c == '>' || c == '"' || c == '\'' || c == '/'
  }

  /** The entity each special character becomes; every other character stands for itself. */
  function EscapeChar(c: char): (r: string)
    ensures forall i :: 0 <= i < |r| ==> !IsHtmlSpecial(r[i])
    ensures |r| >= 1
    ensures !IsHtmlSpecial(c) ==> r == [c]
  {
    match c
    case '<' => "&lt;"
    case '>' => "&gt;"
    case '"' => "&quot;"
    case '\'' => "&#x27;"
    case '/' => "&#x2F;"
    case _ => [c]
  }

  /** Character-by-character escaping: the reference the replace chain is compared with. */
  function EscapeAll(s: string): (r: string)
    ensures forall i :: 0 <= i < |r| ==> !IsHtmlSpecial(r[i])
    ensures |r| >= |s|
  {
    if s == [] then [] else EscapeChar(s[0]) + EscapeAll(s[1..])
  }

  lemma {:induction false} SanitizeHtmlAppend(a: string, b: string)
    ensures SanitizeHtml(a + b) == SanitizeHtml(a) + SanitizeHtml(b)
  {
    var a1, b1 := ReplaceAll(a, "<", "&lt;"), ReplaceAll(b, "<", "&lt;");
    ReplaceCharAppend(a, b, '<', "&lt;");
    var a2, b2 := ReplaceAll(a1, ">", "&gt;"), ReplaceAll(b1, ">", "&gt;");
    ReplaceCharAppend(a1, b1, '>', "&gt;");
    var a3, b3 := ReplaceAll(a2, "\"", "&quot;"), ReplaceAll(b2, "\"", "&quot;");
    ReplaceCharAppend(a2, b2, '"', "&quot;");
    var a4, b4 := ReplaceAll(a3, "'", "&#x27;"), ReplaceAll(b3, "'", "&#x27;");
    ReplaceCharAppend(a3, b3, '\'', "&#x27;");
    ReplaceCharAppend(a4, b4, '/', "&#x2F;");
  }

  lemma ReplaceOneChar(c: char, p: char, rep: string)
    ensures ReplaceAll([c], [p], rep) == if c == p then rep else [c]
  {
    assert [c][..1] == [c] && [c][1..] == [];
  }

  lemma SanitizeHtmlChar(c: char)
    ensures SanitizeHtml([c]) == EscapeChar(c)
  {
    ReplaceOneChar(c, '<', "&lt;");
    var s1 := ReplaceAll([c], "<", "&lt;");
    if c == '>' { ReplaceOneChar(c, '>', "&gt;"); } else { ReplaceAllAbsent(s1, ">", "&gt;"); }
    var s2 := ReplaceAll(s1, ">", "&gt;");
    if c == '"' { ReplaceOneChar(c, '"', "&quot;"); } else { ReplaceAllAbsent(s2, "\"", "&quot;"); }
    var s3 := ReplaceAll(s2, "\"", "&quot;");
    if c == '\'' { ReplaceOneChar(c, '\'', "&#x27;"); } else { ReplaceAllAbsent(s3, "'", "&#x27;"); }
    var s4 := ReplaceAll(s3, "'", "&#x27;");
    if c == '/' { ReplaceOneChar(c, '/', "&#x2F;"); } else { ReplaceAllAbsent(s4, "/", "&#x2F;"); }
  }

  /** The sequential replace chain escapes each character independently. */
  lemma {:induction false} SanitizeHtmlIsEscapeAll(s: string)
    ensures SanitizeHtml(s) == EscapeAll(s)
  {
    if s != [] {
      assert s == [s[0]] + s[1..];
      SanitizeHtmlAppend([s[0]], s[1..]);
      SanitizeHtmlChar(s[0]);
      SanitizeHtmlIsEscapeAll(s[1..]);
    }
  }

  /** Output is free of the five special characters and never shorter than the input. */
  lemma SanitizeHtmlSafe(s: string)
    ensures forall i :: 0 <= i < |SanitizeHtml(s)| ==> !IsHtmlSpecial(SanitizeHtml(s)[i])
    ensures |SanitizeHtml(s)| >= |s|
  {
    SanitizeHtmlIsEscapeAll(s);
  }

  /** Text without special characters (ampersands included) passes through unchanged. */
  lemma {:induction false} SanitizeHtmlKeepsPlainText(s: string)
    requires forall i :: 0 <= i < |s| ==> !IsHtmlSpecial(s[i])
    ensures SanitizeHtml(s) == s
  {
    SanitizeHtmlIsEscapeAll(s);
    EscapeAllPlain(s);
  }

  lemma {:induction false} EscapeAllPlain(s: string)
    requires forall i :: 0 <= i < |s| ==> !IsHtmlSpecial(s[i])
    ensures EscapeAll(s) == s
  {
    if s != [] {
      EscapeAllPlain(s[1..]);
    }
  }

  /** `&` is not escaped, so a raw `<` and an already-escaped `&lt;` collide. */
  lemma SanitizeHtmlNotInjective()
    ensures SanitizeHtml("<") == SanitizeHtml("&lt;")
    ensures "<" != "&lt;"
  {
    SanitizeHtmlChar('<');
    SanitizeHtmlKeepsPlainText("&lt;");
  }

  // ---------------------------------------------------------------------------
  // replacing runs of characters (`/x+/g` and `/x{2,}/g` with a one-character replacement)

  /**
   * The character classes whose runs the source collapses: `\s` (sanitizeInput),
   * `_` (sanitizeFileName) and `[^a-z0-9]` (generateQuestionId in lib/ai/generateForm.ts).
   */
  datatype RunClass = Whitespace | Underscore | NotLowerAlnum

  predicate InRun(k: RunClass, c: char) {
    match k
    case Whitespace => IsSpace(c)
    case Underscore => c == '_'
    case NotLowerAlnum => !(('a' <= c <= 'z') || ('0' <= c <= '9'))
  }

  /** No two characters of the class stand next to each other. */
  predicate NoAdjacentRuns(s: string, inRun: RunClass) {
    forall i, j :: 0 <= i < |s| && 0 <= j < |s| && j == i + 1 ==> !(InRun(inRun, s[i]) && InRun(inRun, s[j]))
  }

  /** Drops the leading run of characters of class `inRun`. */
  function DropRun(s: string, inRun: RunClass): (r: string)
    ensures |r| <= |s| && r == s[|s| - |r|..]
    ensures r == [] || !InRun(inRun, r[0])
    ensures forall i :: 0 <= i < |s| - |r| ==> InRun(inRun, s[i])
  {
    if |s| > 0 && InRun(inRun, s[0]) then DropRun(s[1..], inRun) else s
  }

  /** The characters of `s` outside the run class, in order. */
  function Outside(s: string, inRun: RunClass): string {
    if s == [] then [] else (if InRun(inRun, s[0]) then [] else [s[0]]) + Outside(s[1..], inRun)
  }

  lemma {:induction false} OutsideAppend(a: string, b: string, inRun: RunClass)
    ensures Outside(a + b, inRun) == Outside(a, inRun) + Outside(b, inRun)
  {
    if a != [] {
      assert (a + b)[1..] == a[1..] + b;
      OutsideAppend(a[1..], b, inRun);
    } else {
      assert a + b == b;
    }
  }

  lemma {:induction false} OutsideOfRun(s: string, inRun: RunClass)
    requires forall i :: 0 <= i < |s| ==> InRun(inRun, s[i])
    ensures Outside(s, inRun) == []
  {
    if s != [] {
      OutsideOfRun(s[1..], inRun);
    }
  }

  /**
   * Every maximal run of `inRun` characters replaced by the single character
   * `rep` (itself a run character); what it guarantees is stated by the lemmas
   * below.
   */
  function CollapseRuns(s: string, inRun: RunClass, rep: char): (r: string)
    requires InRun(inRun, rep)
    decreases |s|
    ensures |r| <= |s| && (r == [] <==> s == [])
  {
    if s == [] then []
    else if InRun(inRun, s[0]) then [rep] + CollapseRuns(DropRun(s, inRun), inRun, rep)
    else [s[0]] + CollapseRuns(s[1..], inRun, rep)
  }

  /** The result starts with a run character exactly when the input does. */
  lemma CollapseRunsHead(s: string, inRun: RunClass, rep: char)
    requires InRun(inRun, rep) && s != []
    ensures InRun(inRun, CollapseRuns(s, inRun, rep)[0]) <==> InRun(inRun, s[0])
  {
  }

  /** The text ends with a character of the class. */
  predicate EndsInRun(s: string, inRun: RunClass) {
    s != [] && InRun(inRun, s[|s| - 1])
  }

  /** The result ends with a run character exactly when the input does. */
  lemma {:induction false} CollapseRunsLast(s: string, inRun: RunClass, rep: char)
    requires InRun(inRun, rep)
    ensures EndsInRun(CollapseRuns(s, inRun, rep), inRun) == EndsInRun(s, inRun)
    decreases |s|
  {
    if s != [] {
      if InRun(inRun, s[0]) {
        CollapseRunsLast(DropRun(s, inRun), inRun, rep);
        LastAfterRun(s, inRun, rep);
      } else {
        CollapseRunsLast(s[1..], inRun, rep);
        LastAfterPlain(s, inRun, rep);
      }
    }
  }

  /** The step of `CollapseRunsLast` for text starting with a run. */
  lemma LastAfterRun(s: string, inRun: RunClass, rep: char)
    requires InRun(inRun, rep) && s != [] && InRun(inRun, s[0])
    requires var t := DropRun(s, inRun);
      EndsInRun(CollapseRuns(t, inRun, rep), inRun) == EndsInRun(t, inRun)
    ensures EndsInRun(CollapseRuns(s, inRun, rep), inRun) == EndsInRun(s, inRun)
  {
    var t := DropRun(s, inRun);
    CollapseRunCons(s, inRun, rep);
    DropRunLast(s, inRun);
    EndsStep(CollapseRuns(s, inRun, rep), rep, CollapseRuns(t, inRun, rep), inRun);
  }

  /** The step of `CollapseRunsLast` for text starting outside a run. */
  lemma LastAfterPlain(s: string, inRun: RunClass, rep: char)
    requires InRun(inRun, rep) && s != [] && !InRun(inRun, s[0])
    requires EndsInRun(CollapseRuns(s[1..], inRun, rep), inRun) == EndsInRun(s[1..], inRun)
    ensures EndsInRun(CollapseRuns(s, inRun, rep), inRun) == EndsInRun(s, inRun)
  {
    CollapsePlainCons(s, inRun, rep);
    EndsStep(CollapseRuns(s, inRun, rep), s[0], CollapseRuns(s[1..], inRun, rep), inRun);
    EndsStep(s, s[0], s[1..], inRun);
  }

  lemma CollapseRunCons(s: string, inRun: RunClass, rep: char)
    requires InRun(inRun, rep) && s != [] && InRun(inRun, s[0])
    ensures CollapseRuns(s, inRun, rep) == [rep] + CollapseRuns(DropRun(s, inRun), inRun, rep)
  {
  }

  lemma CollapsePlainCons(s: string, inRun: RunClass, rep: char)
    requires InRun(inRun, rep) && s != [] && !InRun(inRun, s[0])
    ensures CollapseRuns(s, inRun, rep) == [s[0]] + CollapseRuns(s[1..], inRun, rep)
  {
  }

  /** A character put in front changes where the text ends only when the rest is empty. */
  lemma EndsStep(r: string, x: char, rt: string, inRun: RunClass)
    requires r == [x] + rt
    ensures EndsInRun(r, inRun) == if rt == [] then InRun(inRun, x) else EndsInRun(rt, inRun)
  {
    LastOfCons(x, rt, r);
  }

  lemma LastOfCons(x: char, rt: string, r: string)
    requires r == [x] + rt
    ensures r[|r| - 1] == (if rt == [] then x else rt[|rt| - 1])
  {
  }

  /** What follows a dropped run ends where the text did; dropping all of it means the text ends in the run. */
  lemma DropRunLast(s: string, inRun: RunClass)
    requires s != []
    ensures var t := DropRun(s, inRun);
      && (t != [] ==> t[|t| - 1] == s[|s| - 1])
      && (t == [] ==> InRun(inRun, s[|s| - 1]))
  {
  }

  /** Dropping a leading run loses nothing outside the run. */
  lemma {:induction false} DropRunOutside(s: string, inRun: RunClass)
    ensures Outside(DropRun(s, inRun), inRun) == Outside(s, inRun)
    decreases |s|
  {
    if |s| > 0 && InRun(inRun, s[0]) {
      DropRunOutside(s[1..], inRun);
    }
  }

  /** Every run character left in the result is `rep`. */
  lemma {:induction false} CollapseRunsRep(s: string, inRun: RunClass, rep: char)
    requires InRun(inRun, rep)
    ensures var r := CollapseRuns(s, inRun, rep);
      forall i :: 0 <= i < |r| && InRun(inRun, r[i]) ==> r[i] == rep
    decreases |s|
  {
    if s != [] {
      var r := CollapseRuns(s, inRun, rep);
      if InRun(inRun, s[0]) {
        var t := DropRun(s, inRun);
        CollapseRunsRep(t, inRun, rep);
        assert r == [rep] + CollapseRuns(t, inRun, rep);
      } else {
        CollapseRunsRep(s[1..], inRun, rep);
        assert r == [s[0]] + CollapseRuns(s[1..], inRun, rep);
      }
    }
  }

  /** No two run characters are adjacent in the result. */
  lemma {:induction false} CollapseRunsNoAdjacent(s: string, inRun: RunClass, rep: char)
    requires InRun(inRun, rep)
    ensures var r := CollapseRuns(s, inRun, rep);
      NoAdjacentRuns(r, inRun)
    decreases |s|
  {
    if s != [] {
      if InRun(inRun, s[0]) {
        var t := DropRun(s, inRun);
        CollapseRunsNoAdjacent(t, inRun, rep);
        if t != [] {
          CollapseRunsHead(t, inRun, rep);
        }
      } else {
        var r := CollapseRuns(s, inRun, rep);
        CollapseRunsNoAdjacent(s[1..], inRun, rep);
        assert r == [s[0]] + CollapseRuns(s[1..], inRun, rep);
      }
    }
  }

  /** The characters outside runs are kept, in order. */
  lemma {:induction false} CollapseRunsOutside(s: string, inRun: RunClass, rep: char)
    requires InRun(inRun, rep)
    ensures Outside(CollapseRuns(s, inRun, rep), inRun) == Outside(s, inRun)
    decreases |s|
  {
    if s != [] {
      if InRun(inRun, s[0]) {
        var t := DropRun(s, inRun);
        CollapseRunsOutside(t, inRun, rep);
        DropRunOutside(s, inRun);
        OutsideAppend([rep], CollapseRuns(t, inRun, rep), inRun);
      } else {
        CollapseRunsOutside(s[1..], inRun, rep);
        OutsideAppend([s[0]], CollapseRuns(s[1..], inRun, rep), inRun);
      }
    }
  }

  /** Text already in collapsed form is a fixed point. */
  lemma {:induction false} CollapseRunsFixpoint(s: string, inRun: RunClass, rep: char)
    requires InRun(inRun, rep)
    requires forall i :: 0 <= i < |s| && InRun(inRun, s[i]) ==> s[i] == rep
    requires NoAdjacentRuns(s, inRun)
    ensures CollapseRuns(s, inRun, rep) == s
  {
    if s != [] {
      if InRun(inRun, s[0]) {
        if |s| > 1 {
          assert !InRun(inRun, s[1]);
          assert DropRun(s, inRun) == DropRun(s[1..], inRun) == s[1..];
        } else {
          assert DropRun(s, inRun) == [];
        }
      }
      CollapseRunsFixpoint(s[1..], inRun, rep);
    }
  }

  // ---------------------------------------------------------------------------
  // sanitizeInput

  /** `input.trim().replace(/\s+/g, " ")`. */
  function SanitizeInput(s: string): string {
    CollapseRuns(Trim(s), Whitespace, ' ')
  }

  lemma OutsideTrim(s: string)
    ensures Outside(Trim(s), Whitespace) == Outside(s, Whitespace)
  {
    OutsideTrimStart(s);
    OutsideTrimEnd(TrimStart(s));
  }

  lemma OutsideTrimStart(s: string)
    ensures Outside(TrimStart(s), Whitespace) == Outside(s, Whitespace)
  {
    var t := TrimStart(s);
    var k := |s| - |t|;
    assert s == s[..k] + t;
    OutsideAppend(s[..k], t, Whitespace);
    OutsideOfRun(s[..k], Whitespace);
  }

  lemma OutsideTrimEnd(t: string)
    ensures Outside(TrimEnd(t), Whitespace) == Outside(t, Whitespace)
  {
    var r := TrimEnd(t);
    assert t == r + t[|r|..];
    OutsideAppend(r, t[|r|..], Whitespace);
    OutsideOfRun(t[|r|..], Whitespace);
  }

  /**
   * The result has no whitespace at either end, no two adjacent whitespace
   * characters, no whitespace other than ' ', and keeps every non-whitespace
   * character of the input in order.
   */
  lemma SanitizeInputShape(s: string)
    ensures SpaceCollapsed(SanitizeInput(s))
    ensures Outside(SanitizeInput(s), Whitespace) == Outside(s, Whitespace)
  {
    var t := Trim(s);
    assert t == [] || (!IsSpace(t[0]) && !IsSpace(t[|t| - 1]));
    CollapseTrimmed(t);
    OutsideTrim(s);
    CollapseRunsOutside(t, Whitespace, ' ');
  }

  /** Collapsing text with no whitespace at either end gives that shape. */
  lemma CollapseTrimmed(t: string)
    requires t == [] || (!IsSpace(t[0]) && !IsSpace(t[|t| - 1]))
    ensures SpaceCollapsed(CollapseRuns(t, Whitespace, ' '))
  {
    CollapseRunsRep(t, Whitespace, ' ');
    CollapseRunsNoAdjacent(t, Whitespace, ' ');
    if t != [] {
      CollapseRunsHead(t, Whitespace, ' ');
      CollapseRunsLast(t, Whitespace, ' ');
    }
  }

  /** No whitespace at either end, no two adjacent, and no whitespace other than ' '. */
  predicate SpaceCollapsed(r: string) {
    && (r == [] || (!IsSpace(r[0]) && !IsSpace(r[|r| - 1])))
    && NoAdjacentRuns(r, Whitespace)
    && (forall i :: 0 <= i < |r| && IsSpace(r[i]) ==> r[i] == ' ')
  }

  /** Text in that shape is left alone. */
  lemma SanitizeInputFixpoint(r: string)
    requires SpaceCollapsed(r)
    ensures SanitizeInput(r) == r
  {
    SpaceCollapsedTrimmed(r);
    SpaceCollapsedFixpoint(r);
  }

  lemma SpaceCollapsedTrimmed(r: string)
    requires SpaceCollapsed(r)
    ensures Trim(r) == r
  {
    TrimOfTrimmed(r);
  }

  lemma SpaceCollapsedFixpoint(r: string)
    requires SpaceCollapsed(r)
    ensures CollapseRuns(r, Whitespace, ' ') == r
  {
    CollapseRunsFixpoint(r, Whitespace, ' ');
  }

  lemma SanitizeInputIdempotent(s: string)
    ensures SanitizeInput(SanitizeInput(s)) == SanitizeInput(s)
  {
    SanitizeInputShape(s);
    SanitizeInputFixpoint(SanitizeInput(s));
  }

  // ---------------------------------------------------------------------------
  // isValidEmail

  predicate EmailAtom(s: string) {
    s != [] && forall i :: 0 <= i < |s| ==> !IsSpace(s[i]) && s[i] != '@'
  }

  /**
   * What `/^[^\s@]+@[^\s@]+\.[^\s@]+$/` matches, read literally: some split of
   * the text into three non-empty atoms joined by '@' and '.'.
   */
  ghost predicate EmailRegexMatches(s: string) {
    exists i, j :: 0 < i < j < |s| - 1 && s[i] == '@' && s[j] == '.'
      && EmailAtom(s[..i]) && EmailAtom(s[i + 1..j]) && EmailAtom(s[j + 1..])
  }

  /** A '.' with at least one character on each side. */
  predicate HasInnerDot(d: string) {
    exists j :: 0 < j < |d| - 1 && d[j] == '.'
  }

  /** The decision the regex test makes, by one scan for the first '@'. */
  predicate IsValidEmail(s: string) {
    NoSpace(s) &&
    match IndexOfFrom(s, "@", 0)
    case None => false
    case Some(at) => at > 0 && '@' !in s[at + 1..] && HasInnerDot(s[at + 1..])
  }

  /** The scan for "@" finds the first '@' character. */
  lemma FirstAt(s: string, i: nat)
    requires i < |s| && s[i] == '@' && '@' !in s[..i]
    ensures IndexOfFrom(s, "@", 0) == Some(i)
  {
    AtOccurrence(s, i);
    forall k | 0 <= k < i ensures !OccursAt(s, "@", k) {
      assert s[..i][k] == s[k];
      AtOccurrence(s, k);
    }
  }

  lemma FoundAt(s: string)
    requires IndexOfFrom(s, "@", 0).Some?
    ensures var i := IndexOfFrom(s, "@", 0).value;
      i < |s| && s[i] == '@' && '@' !in s[..i]
  {
    var i := IndexOfFrom(s, "@", 0).value;
    AtOccurrence(s, i);
    forall k | 0 <= k < i ensures s[k] != '@' {
      AtOccurrence(s, k);
    }
    CharNotInPrefix(s, i, '@');
  }

  /** "@" occurs at `k` exactly when the character there is '@'. */
  lemma AtOccurrence(s: string, k: nat)
    requires k < |s|
    ensures OccursAt(s, "@", k) <==> s[k] == '@'
  {
    assert s[k..k + 1] == [s[k]];
  }

  lemma CharNotInPrefix(s: string, i: nat, c: char)
    requires i <= |s| && forall k :: 0 <= k < i ==> s[k] != c
    ensures c !in s[..i]
  {
    forall k | 0 <= k < i ensures s[..i][k] != c { }
  }

  lemma EmailToRegex(s: string)
    requires IsValidEmail(s)
    ensures EmailRegexMatches(s)
  {
    FoundAt(s);
    var i := IndexOfFrom(s, "@", 0).value;
    var domain := s[i + 1..];
    var j :| 0 < j < |domain| - 1 && domain[j] == '.';
    var jj := i + 1 + j;
    assert s[jj] == '.';
    assert EmailAtom(s[..i]);
    assert s[i + 1..jj] == domain[..j];
    assert EmailAtom(s[i + 1..jj]);
    assert s[jj + 1..] == domain[j + 1..];
    assert EmailAtom(s[jj + 1..]);
  }

  lemma RegexToEmail(s: string)
    requires EmailRegexMatches(s)
    ensures IsValidEmail(s)
  {
    var i, j :| 0 < i < j < |s| - 1 && s[i] == '@' && s[j] == '.'
      && EmailAtom(s[..i]) && EmailAtom(s[i + 1..j]) && EmailAtom(s[j + 1..]);
    AtomsNoSpace(s, i, j);
    AtomHasNoAt(s[..i]);
    FirstAt(s, i);
    DomainShape(s, i, j);
  }

  lemma AtomHasNoAt(a: string)
    requires EmailAtom(a)
    ensures '@' !in a
  {
    forall k | 0 <= k < |a| ensures a[k] != '@' { }
  }

  /** After the '@', two atoms around a '.' make a domain with no '@' and an inner dot. */
  lemma DomainShape(s: string, i: nat, j: nat)
    requires 0 < i < j < |s| - 1 && s[j] == '.'
    requires EmailAtom(s[i + 1..j]) && EmailAtom(s[j + 1..])
    ensures '@' !in s[i + 1..] && HasInnerDot(s[i + 1..])
  {
    var domain := s[i + 1..];
    assert domain[j - i - 1] == '.';
    forall k | 0 <= k < |domain| ensures domain[k] != '@' {
      var p := i + 1 + k;
      if p < j { assert s[i + 1..j][k] == s[p]; }
      else if j < p { assert s[j + 1..][p - j - 1] == s[p]; }
    }
  }

  lemma AtomsNoSpace(s: string, i: nat, j: nat)
    requires 0 < i < j < |s| - 1 && s[i] == '@' && s[j] == '.'
    requires EmailAtom(s[..i]) && EmailAtom(s[i + 1..j]) && EmailAtom(s[j + 1..])
    ensures NoSpace(s)
  {
    forall k | 0 <= k < |s| ensures !IsSpace(s[k]) {
      if k < i { assert s[..i][k] == s[k]; }
      else if i < k < j { assert s[i + 1..j][k - i - 1] == s[k]; }
      else if j < k { assert s[j + 1..][k - j - 1] == s[k]; }
    }
  }

  /** The scan decides exactly what the regular expression matches. */
  lemma IsValidEmailMatchesRegex(s: string)
    ensures IsValidEmail(s) <==> EmailRegexMatches(s)
  {
    if IsValidEmail(s) {
      EmailToRegex(s);
    }
    if EmailRegexMatches(s) {
      RegexToEmail(s);
    }
  }

  function CountChar(s: string, c: char): (n: nat)
    ensures n <= |s|
  {
    if s == [] then 0 else (if s[0] == c then 1 else 0) + CountChar(s[1..], c)
  }

  lemma {:induction false} CountCharZero(s: string, c: char)
    ensures CountChar(s, c) == 0 <==> c !in s
  {
    if s != [] {
      CountCharZero(s[1..], c);
      assert s == [s[0]] + s[1..];
    }
  }

  lemma {:induction false} CountCharSplit(s: string, k: nat, c: char)
    requires k <= |s|
    ensures CountChar(s, c) == CountChar(s[..k], c) + CountChar(s[k..], c)
  {
    if k > 0 {
      CountCharSplit(s[1..], k - 1, c);
      assert s[1..][..k - 1] == s[..k][1..];
      assert s[1..][k - 1..] == s[k..];
    }
  }

  /** Splitting at an '@': the count is one plus the counts on either side. */
  lemma CountAround(s: string, i: nat)
    requires i < |s| && s[i] == '@'
    ensures CountChar(s, '@') == CountChar(s[..i], '@') + 1 + CountChar(s[i + 1..], '@')
  {
    CountCharSplit(s, i, '@');
    assert s[i..][1..] == s[i + 1..];
  }

  /**
   * Equivalently: no whitespace, exactly one '@' with a non-empty local part
   * before it, and a '.' inside the domain that is neither its first nor its
   * last character.
   */
  lemma IsValidEmailShape(s: string)
    ensures IsValidEmail(s) <==>
      (NoSpace(s) && CountChar(s, '@') == 1 &&
       exists i :: 0 < i < |s| && s[i] == '@' && HasInnerDot(s[i + 1..]))
  {
    if IsValidEmail(s) {
      FoundAt(s);
      var i := IndexOfFrom(s, "@", 0).value;
      CountAround(s, i);
      CountCharZero(s[..i], '@');
      CountCharZero(s[i + 1..], '@');
    }
    if NoSpace(s) && CountChar(s, '@') == 1 &&
       exists i :: 0 < i < |s| && s[i] == '@' && HasInnerDot(s[i + 1..]) {
      var i :| 0 < i < |s| && s[i] == '@' && HasInnerDot(s[i + 1..]);
      CountAround(s, i);
      CountCharZero(s[..i], '@');
      CountCharZero(s[i + 1..], '@');
      FirstAt(s, i);
    }
  }

  // ---------------------------------------------------------------------------
  // sanitizeFileName

  predicate FileNameChar(c: char) {
    ('a' <= c <= 'z') || ('A' <= c <= 'Z') || ('0' <= c <= '9') || c == '.' || c == '_' || c == '-'
  }

  /** `replace(/[^a-zA-Z0-9._-]/g, "_")`. */
  function ReplaceDisallowed(s: string): (r: string)
    ensures |r| == |s|
    ensures forall i :: 0 <= i < |s| ==> r[i] == if FileNameChar(s[i]) then s[i] else '_'
  {
    if s == [] then [] else [if FileNameChar(s[0]) then s[0] else '_'] + ReplaceDisallowed(s[1..])
  }

  const MaxFileNameLength := 255

  /** The three steps of `sanitizeFileName`. */
  function SanitizeFileName(s: string): string {
    var t := CollapseRuns(ReplaceDisallowed(s), Underscore, '_');
    if |t| <= MaxFileNameLength then t else t[..MaxFileNameLength]
  }

  predicate CleanFileName(r: string) {
    && |r| <= MaxFileNameLength
    && (forall i :: 0 <= i < |r| ==> FileNameChar(r[i]))
    && NoAdjacentRuns(r, Underscore)
  }

  /** Only `[A-Za-z0-9._-]`, never "__", at most 255 characters. */
  lemma SanitizeFileNameClean(s: string)
    ensures CleanFileName(SanitizeFileName(s))
  {
    var m := ReplaceDisallowed(s);
    var t := CollapseRuns(m, Underscore, '_');
    CollapseRunsOutside(m, Underscore, '_');
    CollapseRunsNoAdjacent(m, Underscore, '_');
    assert forall i :: 0 <= i < |t| ==> FileNameChar(t[i]) by {
      forall i | 0 <= i < |t| ensures FileNameChar(t[i]) {
        if t[i] != '_' {
          OutsideKeepsClass(t, m, i);
        }
      }
    }
  }

  /** A character of a collapsed text that is outside the run class comes from the input. */
  lemma OutsideKeepsClass(t: string, m: string, i: nat)
    requires i < |t| && t[i] != '_'
    requires Outside(t, Underscore) == Outside(m, Underscore)
    requires forall k :: 0 <= k < |m| ==> FileNameChar(m[k])
    ensures FileNameChar(t[i])
  {
    OutsideHas(t, i, Underscore);
    OutsideClass(m);
  }

  /** Every character outside the run class is kept by `Outside`. */
  lemma {:induction false} OutsideHas(t: string, i: nat, inRun: RunClass)
    requires i < |t| && !InRun(inRun, t[i])
    ensures t[i] in Outside(t, inRun)
  {
    if i > 0 {
      OutsideHas(t[1..], i - 1, inRun);
    }
  }

  lemma {:induction false} OutsideClass(m: string)
    requires forall k :: 0 <= k < |m| ==> FileNameChar(m[k])
    ensures forall c :: c in Outside(m, Underscore) ==> FileNameChar(c)
  {
    if m != [] {
      OutsideClass(m[1..]);
    }
  }

  /** Sanitising an already sanitised name changes nothing. */
  lemma SanitizeFileNameIdempotent(s: string)
    ensures SanitizeFileName(SanitizeFileName(s)) == SanitizeFileName(s)
  {
    var r := SanitizeFileName(s);
    SanitizeFileNameClean(s);
    assert ReplaceDisallowed(r) == r;
    CollapseRunsFixpoint(r, Underscore, '_');
  }
}
