/**
 * The scam-check endpoint: after the generative model has answered, its reply is
 * read line by line into an explanation paragraph and a list of safety tips, and
 * a verdict is picked from keywords in the explanation.
 */
module ScamCheck {
  import opened Wrappers
  import opened Text

  // ---------------------------------------------------------------------------
  // Lines and what they contribute
  // ---------------------------------------------------------------------------

  /** A trimmed line that opens the explanation: it starts with "explanation" in any case. */
  predicate IsExplanationHeader(t: string) {
    StartsWith(ToLower(t), "explanation")
  }

  /** A trimmed line that opens the tips: it starts with "safety tips" in any case. */
  predicate IsSafetyTipsHeader(t: string) {
    StartsWith(ToLower(t), "safety tips")
  }

  predicate IsHeader(line: string) {
    IsExplanationHeader(Trim(line)) || IsSafetyTipsHeader(Trim(line))
  }

  /** `g` matches `/^\s*:?\s*$/`: whitespace, at most one colon, whitespace. */
  predicate IsLabelGap(g: string) {
    g == [] || (IsSpace(g[0]) && IsLabelGap(g[1..])) || (g[0] == ':' && AllSpace(g[1..]))
  }

  /** Removes what the regex `^\s*:?\s*` matches: whitespace, then one colon if there is one, then whitespace. */
  function SkipLabelGap(rest: string): (r: string)
    ensures |r| <= |rest| && r == rest[|rest| - |r|..]
    ensures r != [] ==> !IsSpace(r[0])
  {
    var afterSpace := TrimStart(rest);
    if afterSpace != [] && afterSpace[0] == ':' then TrimStart(afterSpace[1..]) else afterSpace
  }

  /** Whitespace up to index `n`, then either the end or a colon followed by whitespace only, is a gap. */
  lemma {:induction false} SpacesThenGap(g: string, n: nat)
    requires n <= |g| && forall i :: 0 <= i < n ==> IsSpace(g[i])
    requires n < |g| ==> g[n] == ':' && forall i :: n < i < |g| ==> IsSpace(g[i])
    ensures IsLabelGap(g)
    decreases n
  {
    if n > 0 {
      SpacesThenGap(g[1..], n - 1);
    } else if g != [] {
      assert forall i :: 0 <= i < |g| - 1 ==> g[1..][i] == g[i + 1];
    }
  }

  lemma ColonGap(rest: string, n: nat, m: nat)
    requires n < |rest| && rest[n..] == TrimStart(rest) && rest[n] == ':'
    requires m == |rest| - |TrimStart(rest[n + 1..])|
    ensures IsLabelGap(rest[..m])
  {
    var tail := rest[n + 1..];
    var k := |tail| - |TrimStart(tail)|;
    assert m == n + 1 + k;
    var g := rest[..m];
    assert |TrimStart(rest)| == |rest| - n;
    assert forall i :: 0 <= i < n ==> IsSpace(g[i]) by {
      forall i | 0 <= i < n ensures IsSpace(g[i]) {
        assert g[i] == rest[i];
      }
    }
    assert forall i :: n < i < |g| ==> IsSpace(g[i]) by {
      forall i | n < i < |g| ensures IsSpace(g[i]) {
        assert g[i] == tail[i - n - 1];
      }
    }
    SpacesThenGap(g, n);
  }

  /** What `SkipLabelGap` removes is a label gap. */
  lemma SkipLabelGapRemovesGap(rest: string)
    ensures IsLabelGap(rest[..|rest| - |SkipLabelGap(rest)|])
  {
    var afterSpace := TrimStart(rest);
    var n := |rest| - |afterSpace|;
    var m := |rest| - |SkipLabelGap(rest)|;
    if afterSpace != [] && afterSpace[0] == ':' {
      ColonGap(rest, n, m);
    } else {
      assert m == n;
      SpacesThenGap(rest[..n], n);
    }
    assert IsLabelGap(rest[..m]);
  }

  /**
   * `SkipLabelGap` removes as much as the pattern allows: what is left starts with
   * neither whitespace (see its contract) nor a colon, unless a colon was removed already.
   */
  lemma SkipLabelGapIsGreedy(rest: string)
    ensures var r := SkipLabelGap(rest); r != [] && r[0] == ':' ==> ':' in rest[..|rest| - |r|]
  {
    var afterSpace := TrimStart(rest);
    var n := |rest| - |afterSpace|;
    if afterSpace != [] && afterSpace[0] == ':' {
      var m := |rest| - |SkipLabelGap(rest)|;
      assert rest[..m][n] == ':';
    }
  }

  /** Replacing the regex `^explanation\s*:?\s*` (case-insensitive) by nothing in an explanation header: the text after the label. */
  function StripExplanationLabel(t: string): (r: string)
    requires IsExplanationHeader(t)
    ensures ToLower(t[..11]) == "explanation"
    ensures |r| <= |t| - 11 && r == t[|t| - |r|..]
    ensures IsLabelGap(t[11..][..|t| - 11 - |r|])
    ensures r != [] ==> !IsSpace(r[0])
    ensures r != [] && r[0] == ':' ==> ':' in t[11..][..|t| - 11 - |r|]
  {
    assert ToLower(t[..11]) == ToLower(t)[..11];
    SkipLabelGapRemovesGap(t[11..]);
    SkipLabelGapIsGreedy(t[11..]);
    SkipLabelGap(t[11..])
  }

  /** The bullet markers a tip may start with. */
  predicate IsBullet(c: char) {
    c == '-' || c == '\U{2022}' || c == '*'
  }

  /** `t` matches `/^\d+\./` with the dot at index `n`. */
  predicate NumberedAt(t: string, n: int) {
    1 <= n < |t| && t[n] == '.' && forall i :: 0 <= i < n ==> IsDigit(t[i])
  }

  /** The length of the run of digits `t` starts with. */
  function DigitRun(t: string): (n: nat)
    ensures n <= |t|
    ensures forall i :: 0 <= i < n ==> IsDigit(t[i])
    ensures n < |t| ==> !IsDigit(t[n])
  {
    if t != [] && IsDigit(t[0]) then 1 + DigitRun(t[1..]) else 0
  }

  /** The dot of `/^\d+\./` can only come right after the whole leading run of digits. */
  lemma NumberedAtDigitRun(t: string, n: int)
    requires NumberedAt(t, n)
    ensures n == DigitRun(t)
  {
  }

  /**
   * The tip a trimmed line of the tips section contributes: a bulleted line its text
   * after the marker, a numbered line its text after `<digits>.`, any other line none.
   */
  function TipOf(t: string): (r: Option<string>)
    ensures t == [] ==> r == None
    ensures r.Some? ==> |r.value| < |t|
  {
    if t != [] && IsBullet(t[0]) then Some(Trim(t[1..]))
    else
      var n := DigitRun(t);
      // `\s*` after the dot removes only what the final `trim()` would remove anyway
      if 0 < n < |t| && t[n] == '.' then Some(Trim(t[n + 1..])) else None
  }

  /**
   * The bullet test comes first; otherwise a line gives a tip exactly when it matches
   * `/^\d+\./`, and the tip is what follows the dot, trimmed.
   */
  lemma TipOfPatterns(t: string)
    ensures t != [] && IsBullet(t[0]) ==> TipOf(t) == Some(Trim(t[1..]))
    ensures (t == [] || !IsBullet(t[0])) ==> (TipOf(t).Some? <==> exists n :: NumberedAt(t, n))
    ensures (t == [] || !IsBullet(t[0])) ==> forall n :: NumberedAt(t, n) ==> TipOf(t) == Some(Trim(t[n + 1..]))
  {
    forall n | NumberedAt(t, n) ensures n == DigitRun(t) {
      NumberedAtDigitRun(t, n);
    }
    var d := DigitRun(t);
    if 0 < d < |t| && t[d] == '.' {
      assert NumberedAt(t, d);
    }
  }

  // ---------------------------------------------------------------------------
  // The line-by-line reading, as a fold
  // ---------------------------------------------------------------------------

  /** The two section flags of the parser; they are never both set. */
  datatype Section = Outside | InExplanation | InSafetyTips

  datatype ParseState = ParseState(section: Section, explanation: string, tips: seq<string>)

  const Start := ParseState(Outside, [], [])

  /** What reading one more line of the reply does to the parser's state. */
  function Step(s: ParseState, line: string): ParseState {
    var t := Trim(line);
    if IsExplanationHeader(t) then ParseState(InExplanation, StripExplanationLabel(t), s.tips)
    else if IsSafetyTipsHeader(t) then s.(section := InSafetyTips)
    else if s.section == InExplanation && t != [] then s.(explanation := s.explanation + " " + t)
    else if s.section == InSafetyTips && t != [] then
      match TipOf(t)
      case Some(tip) => s.(tips := s.tips + [tip])
      case None => s
    else s
  }

  /** Reading `lines` in order, from state `s`. */
  function Run(s: ParseState, lines: seq<string>): ParseState {
    if lines == [] then s else Step(Run(s, lines[..|lines| - 1]), lines[|lines| - 1])
  }

  /** Reading one more line of a list. */
  lemma RunOneMore(s: ParseState, lines: seq<string>, i: nat)
    requires i < |lines|
    ensures Run(s, lines[..i + 1]) == Step(Run(s, lines[..i]), lines[i])
  {
    assert lines[..i + 1][..i] == lines[..i];
  }

  /** `Step`, case by case, in the order the parser tests them. */
  lemma StepCases(s: ParseState, line: string)
    ensures var t := Trim(line);
      && (IsExplanationHeader(t) ==> Step(s, line) == ParseState(InExplanation, StripExplanationLabel(t), s.tips))
      && (!IsExplanationHeader(t) && IsSafetyTipsHeader(t) ==> Step(s, line) == s.(section := InSafetyTips))
      && (!IsExplanationHeader(t) && !IsSafetyTipsHeader(t) && s.section == InExplanation && t != [] ==>
            Step(s, line) == s.(explanation := s.explanation + " " + t))
      && (!IsExplanationHeader(t) && !IsSafetyTipsHeader(t) && s.section == InSafetyTips && t != [] ==>
            Step(s, line) == if TipOf(t).Some? then s.(tips := s.tips + [TipOf(t).value]) else s)
      && (!IsExplanationHeader(t) && !IsSafetyTipsHeader(t) && (s.section == Outside || t == []) ==> Step(s, line) == s)
  {
  }

  /** The five tips given when the reply yields none. */
  const DefaultTips: seq<string> := [
    "Verify the sender's identity through official channels",
    "Look for spelling and grammar errors which are common in scams",
    "Check if the offer seems too good to be true (it probably is)",
    "Contact the organization directly using contact info from their official website",
    "Never share OTP, PIN, or password with anyone"
  ]

  datatype Analysis = Analysis(explanation: string, safetyTips: seq<string>)

  /**
   * The result of a finished parse: the explanation without surrounding whitespace, and
   * the tips read, or the five defaults when none were read; never an empty tip list.
   */
  function Finish(s: ParseState): (a: Analysis)
    ensures |a.safetyTips| > 0
    ensures a.safetyTips == DefaultTips || a.safetyTips == s.tips
    ensures s.tips != [] ==> a.safetyTips == s.tips
    ensures a.explanation == [] <==> AllSpace(s.explanation)
    ensures a.explanation != [] ==> !IsSpace(a.explanation[0]) && !IsSpace(a.explanation[|a.explanation| - 1])
    ensures exists i :: TrimmedAt(s.explanation, a.explanation, i)
  {
    TrimIsSlice(s.explanation);
    Analysis(Trim(s.explanation), if s.tips == [] then DefaultTips else s.tips)
  }

  /** The explanation and tips read from a model reply. */
  function Analyze(reply: string): Analysis {
    Finish(Run(Start, Split(reply, '\n')))
  }

  /** The parse loop as the endpoint runs it, with its two flags and its in-place updates. */
  method ParseReply(reply: string) returns (explanation: string, safetyTips: seq<string>)
    ensures Analysis(explanation, safetyTips) == Analyze(reply)
  {
    var lines := Split(reply, '\n');
    explanation := [];
    safetyTips := [];
    var isExplanationSection := false;
    var isSafetyTipsSection := false;
    for i := 0 to |lines|
      invariant !(isExplanationSection && isSafetyTipsSection)
      invariant Run(Start, lines[..i]).section ==
        if isExplanationSection then InExplanation else if isSafetyTipsSection then InSafetyTips else Outside
      invariant Run(Start, lines[..i]).explanation == explanation
      invariant Run(Start, lines[..i]).tips == safetyTips
    {
      RunOneMore(Start, lines, i);
      StepCases(Run(Start, lines[..i]), lines[i]);
      TipOfPatterns(Trim(lines[i]));
      var trimmedLine := Trim(lines[i]);
      if StartsWith(ToLower(trimmedLine), "explanation") {
        isExplanationSection := true;
        isSafetyTipsSection := false;
        explanation := StripExplanationLabel(trimmedLine);
      } else if StartsWith(ToLower(trimmedLine), "safety tips") {
        isExplanationSection := false;
        isSafetyTipsSection := true;
      } else if isExplanationSection && trimmedLine != [] {
        explanation := explanation + " " + trimmedLine;
      } else if isSafetyTipsSection && trimmedLine != [] {
        if trimmedLine[0] == '-' || trimmedLine[0] == '\U{2022}' || trimmedLine[0] == '*' {
          safetyTips := safetyTips + [Trim(trimmedLine[1..])];
        } else {
          var n := DigitRun(trimmedLine);
          if 0 < n < |trimmedLine| && trimmedLine[n] == '.' {
            safetyTips := safetyTips + [Trim(trimmedLine[n + 1..])];
          }
        }
      }
    }
    assert lines[..|lines|] == lines;
    explanation := Trim(explanation);
    if |safetyTips| == 0 {
      safetyTips := DefaultTips;
    }
  }

  // ---------------------------------------------------------------------------
  // What the reading guarantees
  // ---------------------------------------------------------------------------

  /** Reading two lists one after the other is reading their concatenation. */
  lemma {:induction false} RunAppend(s: ParseState, a: seq<string>, b: seq<string>)
    ensures Run(s, a + b) == Run(Run(s, a), b)
    decreases |b|
  {
    if b == [] {
      assert a + b == a;
    } else {
      var n := |b| - 1;
      assert (a + b)[..|a + b| - 1] == a + b[..n];
      assert (a + b)[|a + b| - 1] == b[n];
      RunAppend(s, a, b[..n]);
    }
  }

  /** A blank line changes nothing: no section switch, no explanation text, no tip. */
  lemma BlankLineIsIgnored(s: ParseState, line: string)
    requires AllSpace(line)
    ensures Step(s, line) == s
  {
  }

  /** Blank lines may be added or removed anywhere in a reply without changing what is read. */
  lemma BlankLinesDoNotMatter(s: ParseState, a: seq<string>, line: string, b: seq<string>)
    requires AllSpace(line)
    ensures Run(s, a + [line] + b) == Run(s, a + b)
  {
    RunAppend(s, a + [line], b);
    RunAppend(s, a, b);
    assert (a + [line])[..|a|] == a;
    BlankLineIsIgnored(Run(s, a), line);
  }

  /** The "safety tips" header line contributes neither explanation text nor a tip. */
  lemma SafetyTipsHeaderAddsNothing(s: ParseState, line: string)
    requires IsSafetyTipsHeader(Trim(line))
    ensures Step(s, line) == s.(section := InSafetyTips)
  {
    assert ToLower(Trim(line))[0] == 's';
  }

  /** Tips are only ever appended: one line adds at most one, and none is removed or reordered. */
  lemma {:induction false} TipsOnlyGrow(s: ParseState, lines: seq<string>)
    ensures |s.tips| <= |Run(s, lines).tips| <= |s.tips| + |lines|
    ensures Run(s, lines).tips[..|s.tips|] == s.tips
    decreases |lines|
  {
    if lines != [] {
      var n := |lines| - 1;
      TipsOnlyGrow(s, lines[..n]);
      var before := Run(s, lines[..n]);
      assert Run(s, lines) == Step(before, lines[n]);
      StepCases(before, lines[n]);
      assert Step(before, lines[n]).tips[..|before.tips|] == before.tips;
    }
  }

  /** Inside a section no line is a header. */
  predicate NoHeaders(lines: seq<string>) {
    forall k :: 0 <= k < |lines| ==> !IsHeader(lines[k])
  }

  lemma NoHeadersDropLast(lines: seq<string>)
    requires lines != [] && NoHeaders(lines)
    ensures NoHeaders(lines[..|lines| - 1]) && !IsHeader(lines[|lines| - 1])
  {
  }

  /** What one line adds to the explanation paragraph: its trimmed text after a space, unless it is blank. */
  function ParagraphPiece(line: string): string {
    if Trim(line) == [] then [] else " " + Trim(line)
  }

  /** The explanation paragraph made of lines: each non-blank line, trimmed, after a single space. */
  function Paragraph(lines: seq<string>): string {
    if lines == [] then [] else ParagraphPiece(lines[0]) + Paragraph(lines[1..])
  }

  lemma {:induction false} ParagraphAppend(lines: seq<string>, line: string)
    ensures Paragraph(lines + [line]) == Paragraph(lines) + ParagraphPiece(line)
  {
    if lines == [] {
      assert [line][1..] == [];
    } else {
      assert (lines + [line])[1..] == lines[1..] + [line];
      ParagraphAppend(lines[1..], line);
    }
  }

  lemma AppendAssoc<T>(a: seq<T>, b: seq<T>, c: seq<T>)
    ensures a + (b + c) == a + b + c
  {
  }

  lemma DropLastThenAppend<T>(xs: seq<T>)
    requires xs != []
    ensures xs[..|xs| - 1] + [xs[|xs| - 1]] == xs
  {
  }

  lemma ParagraphLast(lines: seq<string>)
    requires lines != []
    ensures Paragraph(lines) == Paragraph(lines[..|lines| - 1]) + ParagraphPiece(lines[|lines| - 1])
  {
    DropLastThenAppend(lines);
    ParagraphAppend(lines[..|lines| - 1], lines[|lines| - 1]);
  }

  /** The tip one line lists, if any. */
  function TipList(line: string): seq<string> {
    match TipOf(Trim(line))
    case Some(tip) => [tip]
    case None => []
  }

  /** The tips listed by lines: each line's tip, in order, for the lines that have one. */
  function TipsIn(lines: seq<string>): seq<string> {
    if lines == [] then [] else TipList(lines[0]) + TipsIn(lines[1..])
  }

  lemma {:induction false} TipsInAppend(lines: seq<string>, line: string)
    ensures TipsIn(lines + [line]) == TipsIn(lines) + TipList(line)
  {
    if lines == [] {
      assert [line][1..] == [];
    } else {
      var all := lines + [line];
      assert all[0] == lines[0];
      assert all[1..] == lines[1..] + [line];
      assert TipsIn(all) == TipList(lines[0]) + TipsIn(lines[1..] + [line]);
      TipsInAppend(lines[1..], line);
      AppendAssoc(TipList(lines[0]), TipsIn(lines[1..]), TipList(line));
    }
  }

  lemma TipsInLast(lines: seq<string>)
    requires lines != []
    ensures TipsIn(lines) == TipsIn(lines[..|lines| - 1]) + TipList(lines[|lines| - 1])
  {
    DropLastThenAppend(lines);
    TipsInAppend(lines[..|lines| - 1], lines[|lines| - 1]);
  }

  /** One header-free line in the explanation section adds its piece of the paragraph. */
  lemma StepInExplanation(s: ParseState, line: string)
    requires s.section == InExplanation && !IsHeader(line)
    ensures Step(s, line) == s.(explanation := s.explanation + ParagraphPiece(line))
  {
    StepCases(s, line);
    if Trim(line) == [] {
      assert s.explanation + ParagraphPiece(line) == s.explanation;
    }
  }

  /** One header-free line in the tips section adds its tip, if it has one. */
  lemma StepInSafetyTips(s: ParseState, line: string)
    requires s.section == InSafetyTips && !IsHeader(line)
    ensures Step(s, line) == s.(tips := s.tips + TipList(line))
  {
    StepCases(s, line);
    if TipOf(Trim(line)).None? {
      assert s.tips + TipList(line) == s.tips;
    }
  }

  /** In the explanation section, header-free lines are appended to the paragraph and touch nothing else. */
  lemma {:induction false} ExplanationSection(s: ParseState, lines: seq<string>)
    requires s.section == InExplanation && NoHeaders(lines)
    ensures Run(s, lines) == s.(explanation := s.explanation + Paragraph(lines))
    decreases |lines|
  {
    if lines == [] {
      assert s.explanation + [] == s.explanation;
    } else {
      var n := |lines| - 1;
      NoHeadersDropLast(lines);
      ExplanationSection(s, lines[..n]);
      ExplanationLastLine(s, lines);
    }
  }

  /** The last line of a header-free run in the explanation section adds its piece to the paragraph so far. */
  lemma ExplanationLastLine(s: ParseState, lines: seq<string>)
    requires s.section == InExplanation && lines != [] && !IsHeader(lines[|lines| - 1])
    ensures Step(s.(explanation := s.explanation + Paragraph(lines[..|lines| - 1])), lines[|lines| - 1]) ==
      s.(explanation := s.explanation + Paragraph(lines))
  {
    var n := |lines| - 1;
    StepInExplanation(s.(explanation := s.explanation + Paragraph(lines[..n])), lines[n]);
    ParagraphLast(lines);
    AppendAssoc(s.explanation, Paragraph(lines[..n]), ParagraphPiece(lines[n]));
  }

  /** In the tips section, header-free lines add their tips in order and touch nothing else. */
  lemma {:induction false} SafetyTipsSection(s: ParseState, lines: seq<string>)
    requires s.section == InSafetyTips && NoHeaders(lines)
    ensures Run(s, lines) == s.(tips := s.tips + TipsIn(lines))
    decreases |lines|
  {
    if lines == [] {
      assert s.tips + [] == s.tips;
    } else {
      var n := |lines| - 1;
      NoHeadersDropLast(lines);
      SafetyTipsSection(s, lines[..n]);
      SafetyTipsLastLine(s, lines);
    }
  }

  /** The last line of a header-free run in the tips section adds its tip, if any, to the tips so far. */
  lemma SafetyTipsLastLine(s: ParseState, lines: seq<string>)
    requires s.section == InSafetyTips && lines != [] && !IsHeader(lines[|lines| - 1])
    ensures Step(s.(tips := s.tips + TipsIn(lines[..|lines| - 1])), lines[|lines| - 1]) ==
      s.(tips := s.tips + TipsIn(lines))
  {
    var n := |lines| - 1;
    StepInSafetyTips(s.(tips := s.tips + TipsIn(lines[..n])), lines[n]);
    TipsInLast(lines);
    AppendAssoc(s.tips, TipsIn(lines[..n]), TipList(lines[n]));
  }

  /**
   * The explanation is the last explanation header's text followed by the paragraph of
   * the lines after it, whatever came before that header; the tips so far are kept.
   */
  lemma LastExplanationWins(s: ParseState, before: seq<string>, header: string, after: seq<string>)
    requires IsExplanationHeader(Trim(header)) && NoHeaders(after)
    ensures Run(s, before + [header] + after) ==
      ParseState(InExplanation, StripExplanationLabel(Trim(header)) + Paragraph(after), Run(s, before).tips)
  {
    RunAppend(s, before + [header], after);
    assert (before + [header])[..|before|] == before;
    StepCases(Run(s, before), header);
    ExplanationSection(Run(s, before + [header]), after);
  }

  /**
   * After a "safety tips" header, the header-free lines that follow add exactly their
   * tips, in order, after the tips already read; the explanation is kept.
   */
  lemma TipsFollowHeader(s: ParseState, before: seq<string>, header: string, after: seq<string>)
    requires IsSafetyTipsHeader(Trim(header)) && NoHeaders(after)
    ensures Run(s, before + [header] + after) ==
      ParseState(InSafetyTips, Run(s, before).explanation, Run(s, before).tips + TipsIn(after))
  {
    RunAppend(s, before + [header], after);
    assert (before + [header])[..|before|] == before;
    SafetyTipsHeaderAddsNothing(Run(s, before), header);
    SafetyTipsSection(Run(s, before + [header]), after);
  }

  /** Without an explanation header the explanation stays empty. */
  lemma {:induction false} NoExplanationHeader(lines: seq<string>)
    requires forall k :: 0 <= k < |lines| ==> !IsExplanationHeader(Trim(lines[k]))
    ensures Run(Start, lines).explanation == [] && Run(Start, lines).section != InExplanation
    decreases |lines|
  {
    if lines != [] {
      var n := |lines| - 1;
      NoExplanationHeader(lines[..n]);
      StepCases(Run(Start, lines[..n]), lines[n]);
    }
  }

  /** Without a "safety tips" header no tip is read. */
  lemma {:induction false} NoSafetyTipsHeader(lines: seq<string>)
    requires forall k :: 0 <= k < |lines| ==> !IsSafetyTipsHeader(Trim(lines[k]))
    ensures Run(Start, lines).tips == [] && Run(Start, lines).section != InSafetyTips
    decreases |lines|
  {
    if lines != [] {
      var n := |lines| - 1;
      NoSafetyTipsHeader(lines[..n]);
      StepCases(Run(Start, lines[..n]), lines[n]);
    }
  }

  /** A reply without a "safety tips" header gets exactly the five default tips. */
  lemma DefaultTipsWithoutHeader(reply: string)
    requires forall line :: line in Split(reply, '\n') ==> !IsSafetyTipsHeader(Trim(line))
    ensures Analyze(reply).safetyTips == DefaultTips
  {
    NoSafetyTipsHeader(Split(reply, '\n'));
  }

  // ---------------------------------------------------------------------------
  // The verdict
  // ---------------------------------------------------------------------------

  /** The three verdicts, each with its badge class and its sentence. */
  datatype Verdict = PossiblySafe | Suspicious | LikelyScam {
    function Label(): string {
      match this
      case PossiblySafe => "Possibly Safe"
      case Suspicious => "Suspicious"
      case LikelyScam => "Likely Scam"
    }

    function BadgeClass(): string {
      match this
      case PossiblySafe => "safe"
      case Suspicious => "warning"
      case LikelyScam => "danger"
    }

    function VerdictText(): string {
      match this
      case PossiblySafe => "This message appears to be safe"
      case Suspicious => "\U{26A0}\U{FE0F} This message contains suspicious elements - proceed with caution"
      case LikelyScam => "\U{26A0}\U{FE0F} DANGER! This message shows strong signs of being a financial scam"
    }

    function Severity(): nat {
      match this
      case PossiblySafe => 0
      case Suspicious => 1
      case LikelyScam => 2
    }
  }

  /** Words that make an explanation suspicious. */
  const Triggers: seq<string> := ["scam", "fraud", "suspicious", "dangerous", "malicious"]

  /** Words that make a suspicious explanation a likely scam. */
  const Strengtheners: seq<string> := ["likely", "probably", "high risk"]

  ghost predicate MentionsAny(lower: string, words: seq<string>) {
    exists w :: w in words && Occurs(lower, w)
  }

  /**
   * The verdict for an explanation: safe when its lower-cased text holds no trigger word,
   * a likely scam when it holds a trigger word and a strengthener, suspicious otherwise.
   */
  function Classify(explanation: string): (v: Verdict)
    ensures v == PossiblySafe <==> !MentionsAny(ToLower(explanation), Triggers)
    ensures v == LikelyScam <==>
      MentionsAny(ToLower(explanation), Triggers) && MentionsAny(ToLower(explanation), Strengtheners)
    ensures v == Suspicious <==>
      MentionsAny(ToLower(explanation), Triggers) && !MentionsAny(ToLower(explanation), Strengtheners)
  {
    var lowerExplanation := ToLower(explanation);
    if Contains(lowerExplanation, "scam") || Contains(lowerExplanation, "fraud") ||
       Contains(lowerExplanation, "suspicious") || Contains(lowerExplanation, "dangerous") ||
       Contains(lowerExplanation, "malicious")
    then
      if Contains(lowerExplanation, "likely") || Contains(lowerExplanation, "probably") ||
         Contains(lowerExplanation, "high risk")
      then LikelyScam
      else Suspicious
    else PossiblySafe
  }

  /** More text never lowers the verdict: a trigger or strengthener stays present in a longer explanation. */
  lemma VerdictNeverDropsWithMoreText(a: string, e: string, b: string)
    ensures Classify(e).Severity() <= Classify(a + e + b).Severity()
  {
    ToLowerConcat(a, e);
    ToLowerConcat(a + e, b);
    var lower, longer := ToLower(e), ToLower(a + e + b);
    assert longer == ToLower(a) + lower + ToLower(b);
    forall w | Occurs(lower, w) ensures Occurs(longer, w) {
      OccursInLonger(lower, w, ToLower(a), ToLower(b));
    }
  }

  /** A reply without an explanation header leaves the explanation empty, and the verdict is "Possibly Safe". */
  lemma SafeWithoutExplanationHeader(reply: string)
    requires forall line :: line in Split(reply, '\n') ==> !IsExplanationHeader(Trim(line))
    ensures Analyze(reply).explanation == []
    ensures Classify(Analyze(reply).explanation) == PossiblySafe
  {
    var lines := Split(reply, '\n');
    NoExplanationHeader(lines);
    var s := Run(Start, lines);
    assert AllSpace(s.explanation);
    assert Analyze(reply) == Finish(s);
    EmptyExplanationIsSafe();
  }

  /** An empty explanation holds no trigger word. */
  lemma EmptyExplanationIsSafe()
    ensures Classify([]) == PossiblySafe
  {
    assert ToLower([]) == [];
  }

  // ---------------------------------------------------------------------------
  // The endpoint
  // ---------------------------------------------------------------------------

  datatype ScamCheckBody =
    | ErrorBody(error: string)
    | VerdictBody(verdict: string, verdictText: string, badgeClass: string, explanation: string, safetyTips: seq<string>)

  datatype ScamCheckResponse = ScamCheckResponse(status: nat, body: ScamCheckBody)

  /**
   * The scam-check handler. `modelReply` is what the generative model answers to the
   * prompt built from the message; it is consulted only for a POST with a non-blank message.
   */
  method HandleScamCheck(httpMethod: string, message: Option<string>, modelReply: string)
    returns (res: ScamCheckResponse)
    ensures httpMethod != "POST" ==> res == ScamCheckResponse(405, ErrorBody("Method not allowed"))
    ensures httpMethod == "POST" && IsBlankMessage(message) ==>
      res == ScamCheckResponse(400, ErrorBody("Message is required"))
    ensures httpMethod == "POST" && !IsBlankMessage(message) ==>
      && res.status == 200 && res.body.VerdictBody?
      && Analysis(res.body.explanation, res.body.safetyTips) == Analyze(modelReply)
      && res.body.verdict == Classify(res.body.explanation).Label()
      && res.body.badgeClass == Classify(res.body.explanation).BadgeClass()
      && res.body.verdictText == Classify(res.body.explanation).VerdictText()
  {
    if httpMethod != "POST" {
      return ScamCheckResponse(405, ErrorBody("Method not allowed"));
    }
    if message.None? || Trim(message.value) == [] {
      return ScamCheckResponse(400, ErrorBody("Message is required"));
    }
    var explanation, safetyTips := ParseReply(modelReply);
    var verdict := Classify(explanation);
    res := ScamCheckResponse(200, VerdictBody(verdict.Label(), verdict.VerdictText(), verdict.BadgeClass(), explanation, safetyTips));
  }
}
