/** Workflow text, one step a line: an optional label, a colon, and the prompt. */
module EasyLang {
  import opened Common
  import opened Strings
  import opened WorkflowCompiler

  datatype ParseError = ParseError(line: nat, before: string)

  // ---- white space --------------------------------------------------------------------------

  /** The Unicode property White_Space. */
  predicate White(c: char) {
    || '\t' <= c <= '\r' || c == ' ' || c == 0x85 as char || c == 0xA0 as char || c == 0x1680 as char
    || 0x2000 as char <= c <= 0x200A as char || c == 0x2028 as char || c == 0x2029 as char || c == 0x202F as char
    || c == 0x205F as char || c == 0x3000 as char
  }

  function TrimStart(s: string): string {
    if s != "" && White(s[0]) then TrimStart(s[1..]) else s
  }

  function TrimEnd(s: string): string {
    if s != "" && White(s[|s| - 1]) then TrimEnd(s[..|s| - 1]) else s
  }

  function Trim(s: string): string {
    TrimEnd(TrimStart(s))
  }

  predicate Trimmed(s: string) {
    s == "" || (!White(s[0]) && !White(s[|s| - 1]))
  }

  // ---- lines --------------------------------------------------------------------------------

  function StripReturn(s: string): string {
    if s != "" && s[|s| - 1] == '\r' then s[..|s| - 1] else s
  }

  /** Lines end at a line feed, with or without a carriage return before it; the last one need not. */
  function Lines(text: string): seq<string>
    decreases |text|
  {
    if text == "" then [] else
    match Find(text, "\n", 0)
    case None => [text]
    case Some(k) => Fits(text, "\n", k); [StripReturn(text[..k])] + Lines(text[k + 1..])
  }

  /** `line` is trimmed. */
  predicate Skipped(line: string) {
    line == "" || "//" <= line || "#" <= line
  }

  // ---- labels -------------------------------------------------------------------------------

  predicate LabelChar(c: char, letters: Letters) {
    AlphaNumeric(c, letters) || c == '_' || c == '-'
  }

  function Gather(line: string, letters: Letters): string {
    if line == "" then "" else
    var n := |line| - 1;
    var made := Gather(line[..n], letters);
    if LabelChar(line[n], letters) then made + [line[n]]
    else if White(line[n]) && made != "" && made[|made| - 1] != '_' then made + ['_']
    else made
  }

  function AutoLabel(line: string, letters: Letters): string {
    var made := Gather(line, letters);
    var cut := if made != "" && made[|made| - 1] == '_' then made[..|made| - 1] else made;
    if cut == "" then "step" else cut
  }

  method MakeLabel(line: string, letters: Letters) returns (made: string)
    ensures made == AutoLabel(line, letters)
  {
    made := "";
    var i := 0;
    while i < |line|
      invariant 0 <= i <= |line|
      invariant made == Gather(line[..i], letters)
    {
      assert line[..i + 1][..i] == line[..i];
      if LabelChar(line[i], letters) {
        made := made + [line[i]];
      } else if White(line[i]) && made != "" && made[|made| - 1] != '_' {
        made := made + ['_'];
      }
      i := i + 1;
    }
    assert line[..i] == line;
    if made != "" && made[|made| - 1] == '_' {
      made := made[..|made| - 1];
    }
    if made == "" {
      made := "step";
    }
  }

  // ---- steps --------------------------------------------------------------------------------

  function ParseLine(raw: string, number: nat, letters: Letters): Result<WorkflowStep, ParseError> {
    var line := Trim(raw);
    match Find(line, ":", 0)
    case None => Ok(WorkflowStep(AutoLabel(line, letters), line))
    case Some(colon) =>
      Fits(line, ":", colon);
      var before, after := Trim(line[..colon]), Trim(line[colon + 1..]);
      if ' ' in before then Err(ParseError(number, before))
      else Ok(WorkflowStep(if before != "" then before else AutoLabel(after, letters), after))
  }

  datatype Outcome = Outcome(steps: seq<WorkflowStep>, errors: seq<ParseError>)

  function ParseLines(lines: seq<string>, letters: Letters): Outcome {
    if lines == [] then Outcome([], []) else
    var n := |lines| - 1;
    var so := ParseLines(lines[..n], letters);
    if Skipped(Trim(lines[n])) then so else
    match ParseLine(Trim(lines[n]), n + 1, letters)
    case Ok(step) => so.(steps := so.steps + [step])
    case Err(error) => so.(errors := so.errors + [error])
  }

  function Parse(text: string, letters: Letters): Result<seq<WorkflowStep>, seq<ParseError>> {
    var all := ParseLines(Lines(text), letters);
    if all.errors != [] then Err(all.errors) else Ok(all.steps)
  }

  method ParseWorkflow(text: string, letters: Letters) returns (r: Result<seq<WorkflowStep>, seq<ParseError>>)
    ensures r == Parse(text, letters)
  {
    hide ParseLine, Skipped, Trim, Lines;
    var lines := Lines(text);
    var steps, errors := [], [];
    var i := 0;
    while i < |lines|
      invariant 0 <= i <= |lines|
      invariant Outcome(steps, errors) == ParseLines(lines[..i], letters)
    {
      assert lines[..i + 1][..i] == lines[..i];
      var line := Trim(lines[i]);
      if !Skipped(line) {
        match ParseLine(line, i + 1, letters) {
          case Ok(step) => steps := steps + [step];
          case Err(error) => errors := errors + [error];
        }
      }
      i := i + 1;
    }
    assert lines[..i] == lines;
    return if errors != [] then Err(errors) else Ok(steps);
  }

  // ---- which lines are refused --------------------------------------------------------------

  /** A line that is neither blank nor a comment and has a space in what stands before its first colon. */
  ghost predicate Refused(raw: string) {
    var line := Trim(raw);
    && !Skipped(line)
    && exists k :: && 0 <= k < |line| && line[k] == ':' && (forall i :: 0 <= i < k ==> line[i] != ':')
                   && ' ' in Trim(line[..k])
  }

  lemma {:induction false} TrimSpec(s: string)
    ensures Trimmed(Trim(s)) && (Trimmed(s) ==> Trim(s) == s)
  {
    StartSpec(s);
    EndSpec(TrimStart(s));
  }

  lemma {:induction false} StartSpec(s: string)
    ensures var r := TrimStart(s);
            |r| <= |s| && r == s[|s| - |r|..] && (r != "" ==> !White(r[0])) && (s != "" && !White(s[0]) ==> r == s)
    decreases |s|
  {
    hide White;
    if s != "" && White(s[0]) { StartSpec(s[1..]); }
  }

  lemma {:induction false} EndSpec(s: string)
    ensures var r := TrimEnd(s);
            && |r| <= |s| && r == s[..|r|] && (r != "" ==> !White(r[|r| - 1]))
            && (s != "" && !White(s[|s| - 1]) ==> r == s)
    decreases |s|
  {
    hide White;
    if s != "" && White(s[|s| - 1]) { EndSpec(s[..|s| - 1]); }
  }

  /** What is left after trimming is a part of the text, at its front if the text starts with ink. */
  lemma TrimPart(s: string) returns (i: nat)
    ensures i + |Trim(s)| <= |s| && Trim(s) == s[i..i + |Trim(s)|] && (s != "" && !White(s[0]) ==> i == 0)
  {
    StartSpec(s);
    EndSpec(TrimStart(s));
    hide White, TrimStart, TrimEnd;
    i := |s| - |TrimStart(s)|;
    assert Trim(s) == TrimEnd(TrimStart(s)) && TrimStart(s) == s[i..];
    assert Trim(s) == s[i..][..|Trim(s)|];
  }

  lemma RefusedIff(raw: string, number: nat, letters: Letters)
    requires !Skipped(Trim(raw))
    ensures ParseLine(Trim(raw), number, letters).Err? <==> Refused(raw)
    ensures ParseLine(Trim(raw), number, letters).Err? ==> ParseLine(Trim(raw), number, letters).error.line == number
  {
    hide AutoLabel, White;
    var line := Trim(raw);
    TrimSpec(raw);
    TrimSpec(line);
    hide Trim, Find;
    FoundChar(line, ':');
  }

  /** The refused lines, by number, in order. */
  ghost function RefusedLines(lines: seq<string>): seq<nat> {
    if lines == [] then [] else
    var n := |lines| - 1;
    RefusedLines(lines[..n]) + if Refused(lines[n]) then [n + 1] else []
  }

  /** Errors name exactly the refused lines; there is a workflow exactly when there are none. */
  lemma {:induction false} ErrorsExact(lines: seq<string>, letters: Letters)
    ensures var errors := ParseLines(lines, letters).errors;
            && |errors| == |RefusedLines(lines)|
            && forall i :: 0 <= i < |errors| ==> errors[i].line == RefusedLines(lines)[i]
    decreases |lines|
  {
    hide Refused, Skipped, Trim, ParseLine;
    if lines != [] {
      var n := |lines| - 1;
      ErrorsExact(lines[..n], letters);
      if Skipped(Trim(lines[n])) {
        assert !Refused(lines[n]) by { SkippedFine(lines[n]); }
      } else {
        RefusedIff(lines[n], n + 1, letters);
      }
    }
  }

  lemma SkippedFine(raw: string)
    requires Skipped(Trim(raw))
    ensures !Refused(raw)
  {
  }
}
