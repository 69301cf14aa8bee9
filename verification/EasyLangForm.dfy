/** Which steps workflow text can express: exactly the canonical ones, each by a labelled line. */
module EasyLangForm {
  import opened Common
  import opened Strings
  import opened WorkflowCompiler
  import opened EasyLang

  predicate Lacks(s: string, c: char) {
    forall i :: 0 <= i < |s| ==> s[i] != c
  }

  predicate GoodTitle(title: string) {
    && title != "" && Trimmed(title) && Lacks(title, ':') && Lacks(title, ' ') && Lacks(title, '\n')
    && title[0] != '#' && !(title[0] == '/' && |title| > 1 && title[1] == '/')
  }

  predicate Canonical(step: WorkflowStep) {
    GoodTitle(step.title) && Trimmed(step.prompt) && Lacks(step.prompt, '\n')
  }

  ghost predicate AllCanonical(steps: seq<WorkflowStep>) {
    forall i :: 0 <= i < |steps| ==> Canonical(steps[i])
  }

  function Line(step: WorkflowStep): string {
    step.title + ": " + step.prompt
  }

  function Render(steps: seq<WorkflowStep>): string {
    if steps == [] then "" else Line(steps[0]) + "\n" + Render(steps[1..])
  }

  function Rendered(steps: seq<WorkflowStep>): (r: seq<string>)
    ensures |r| == |steps| && forall i :: 0 <= i < |r| ==> r[i] == Line(steps[i])
  {
    seq(|steps|, i requires 0 <= i < |steps| => Line(steps[i]))
  }

  // ---- a rendered line reads back -----------------------------------------------------------

  lemma TrimLine(step: WorkflowStep)
    requires Canonical(step)
    ensures var line := Trim(Line(step));
            && Trimmed(line) && |line| > |step.title| && line[..|step.title|] == step.title && line[|step.title|] == ':'
            && line[|step.title| + 1..] == if step.prompt == "" then "" else " " + step.prompt
  {
    hide Lacks, White;
    var line, title := Line(step), step.title;
    assert line[0] == title[0];
    TrimSpec(line);
    if step.prompt == "" {
      assert line == title + ":" + " ";
      var short := title + ":";
      assert line[..|line| - 1] == short && line[|line| - 1] == ' ' && short[|short| - 1] == ':';
      assert White(' ') && !White(':') by { Blank(); }
      assert TrimStart(line) == line;
      assert TrimEnd(line) == TrimEnd(short) == short;
    } else {
      assert line[|line| - 1] == step.prompt[|step.prompt| - 1];
    }
  }

  lemma Blank()
    ensures White(' ') && !White(':')
  {
  }

  lemma TrimBlank(s: string)
    requires Trimmed(s)
    ensures Trim(" " + s) == s
  {
    assert (" " + s)[1..] == s;
    TrimSpec(s);
  }

  lemma NotSkipped(line: string, title: string)
    requires GoodTitle(title) && |line| > |title| && line[..|title|] == title && line[|title|] == ':'
    ensures !Skipped(line)
  {
    hide Lacks, White;
    assert line[0] == title[0];
    if |title| > 1 { assert line[1] == title[1]; }
  }

  lemma LineParses(step: WorkflowStep, number: nat, letters: Letters)
    requires Canonical(step)
    ensures var line := Trim(Line(step)); !Skipped(line) && ParseLine(line, number, letters) == Ok(step)
  {
    hide AutoLabel, White, Line, Trimmed;
    var line, title := Trim(Line(step)), step.title;
    TrimLine(step);
    NotSkipped(line, title);
    TrimSpec(line);
    TrimSpec(title);
    hide Trim, Find;
    forall i | 0 <= i < |title| ensures line[i] != ':' { assert line[i] == line[..|title|][i]; }
    FindChar(line, ':', |title|);
    if step.prompt == "" { TrimSpec(""); } else { TrimBlank(step.prompt); }
    assert Trim(line[|title| + 1..]) == step.prompt by { Empty(); }
  }

  lemma Empty()
    ensures Trim("") == ""
  {
  }

  lemma {:induction false} RenderedParses(steps: seq<WorkflowStep>, letters: Letters)
    requires AllCanonical(steps)
    ensures ParseLines(Rendered(steps), letters) == Outcome(steps, [])
    decreases |steps|
  {
    hide Canonical, ParseLine, Skipped, Trim, Line;
    if steps != [] {
      var n := |steps| - 1;
      RenderedParses(steps[..n], letters);
      assert Rendered(steps)[..n] == Rendered(steps[..n]);
      LineParses(steps[n], n + 1, letters);
      assert steps == steps[..n] + [steps[n]];
    }
  }

  lemma LineWhole(step: WorkflowStep)
    requires Canonical(step)
    ensures Lacks(Line(step), '\n') && StripReturn(Line(step)) == Line(step)
  {
    var line := Line(step);
    var n := |step.title|;
    forall i | 0 <= i < |line| ensures line[i] != '\n' {
      assert line[i] == if i < n then step.title[i] else if i < n + 2 then ": "[i - n] else step.prompt[i - n - 2];
    }
    if step.prompt != "" {
      assert line[|line| - 1] == step.prompt[|step.prompt| - 1];
    }
  }

  lemma {:induction false} RenderLines(steps: seq<WorkflowStep>)
    requires AllCanonical(steps)
    ensures Lines(Render(steps)) == Rendered(steps)
    decreases |steps|
  {
    hide Canonical, Find, Line, StripReturn;
    if steps != [] {
      var text, line := Render(steps), Line(steps[0]);
      LineWhole(steps[0]);
      assert text == line + ("\n" + Render(steps[1..]));
      forall i | 0 <= i < |line| ensures text[i] != '\n' { assert text[i] == line[i]; }
      FindChar(text, '\n', |line|);
      assert text[..|line|] == line && text[|line| + 1..] == Render(steps[1..]);
      RenderLines(steps[1..]);
      assert Rendered(steps) == [line] + Rendered(steps[1..]);
    }
  }

  // ---- whatever is parsed is canonical ------------------------------------------------------

  /** No letter or digit is white space. */
  ghost predicate LettersInk(letters: Letters) {
    forall c: char {:trigger letters(c)} :: letters(c) ==> !White(c)
  }

  predicate LabelChars(s: string, letters: Letters) {
    forall i :: 0 <= i < |s| ==> LabelChar(s[i], letters)
  }

  lemma {:induction false} GatherChars(line: string, letters: Letters)
    ensures LabelChars(Gather(line, letters), letters)
    decreases |line|
  {
    hide AlphaNumeric, White;
    if line != "" { GatherChars(line[..|line| - 1], letters); }
  }

  lemma LabelCharGood(c: char, letters: Letters)
    requires LettersInk(letters) && LabelChar(c, letters)
    ensures !White(c) && c != ':' && c != '\n' && c != ' ' && c != '#' && c != '/'
  {
  }

  lemma AutoLabelGood(line: string, letters: Letters)
    requires LettersInk(letters)
    ensures GoodTitle(AutoLabel(line, letters))
  {
    GatherChars(line, letters);
    var made := AutoLabel(line, letters);
    assert LabelChars(made, letters) by {
      assert "step" == ['s', 't', 'e', 'p'];
    }
    hide Gather, AutoLabel;
    forall i | 0 <= i < |made|
      ensures !White(made[i]) && made[i] != ':' && made[i] != '\n' && made[i] != ' ' && made[i] != '#' && made[i] != '/'
    {
      LabelCharGood(made[i], letters);
    }
    hide White;
    assert made != "" by { AutoLabelSome(line, letters); }
  }

  lemma AutoLabelSome(line: string, letters: Letters)
    ensures AutoLabel(line, letters) != ""
  {
  }

  lemma TrimLacks(s: string, c: char)
    requires Lacks(s, c)
    ensures Lacks(Trim(s), c)
  {
    hide Trim;
    var i := TrimPart(s);
  }

  lemma SkippedStart(line: string)
    ensures Skipped(line) <==> line == "" || line[0] == '#' || (line[0] == '/' && |line| > 1 && line[1] == '/')
  {
    if line != "" {
      assert line[..1] == [line[0]];
      if |line| > 1 { assert line[..2] == [line[0], line[1]]; }
    }
  }

  lemma BeforeGood(line: string, colon: nat)
    requires Trimmed(line) && !Skipped(line) && Lacks(line, '\n') && colon < |line| && line[colon] == ':'
    requires forall i :: 0 <= i < colon ==> line[i] != ':'
    requires ' ' !in Trim(line[..colon]) && Trim(line[..colon]) != ""
    ensures GoodTitle(Trim(line[..colon]))
  {
    hide White;
    var front := line[..colon];
    var title := Trim(front);
    TrimSpec(front);
    var i := TrimPart(front);
    hide Trim;
    assert front != "" && front[0] == line[0];
    assert i == 0 && title == front[..|title|];
    assert forall k :: 0 <= k < |title| ==> title[k] == line[k];
    SkippedStart(line);
  }

  lemma SubLacks(s: string, i: nat, j: nat, c: char)
    requires Lacks(s, c) && i <= j <= |s|
    ensures Lacks(s[i..j], c)
  {
  }

  lemma ParsedCanonical(raw: string, number: nat, letters: Letters)
    requires LettersInk(letters) && Lacks(raw, '\n') && !Skipped(Trim(raw))
    requires ParseLine(Trim(raw), number, letters).Ok?
    ensures Canonical(ParseLine(Trim(raw), number, letters).value)
  {
    hide AutoLabel, White, LettersInk, GoodTitle, Trimmed;
    var line := Trim(raw);
    TrimSpec(raw);
    TrimSpec(line);
    TrimLacks(raw, '\n');
    AutoLabelGood(line, letters);
    hide Trim, Find, Skipped;
    FoundChar(line, ':');
    if Find(line, ":", 0).Some? {
      var colon := Find(line, ":", 0).value;
      var before, rest := Trim(line[..colon]), line[colon + 1..];
      SubLacks(line, colon + 1, |line|, '\n');
      TrimSpec(rest);
      TrimLacks(rest, '\n');
      AutoLabelGood(Trim(rest), letters);
      if ' ' !in before && before != "" { BeforeGood(line, colon); }
    }
  }

  lemma {:induction false} LinesWhole(text: string)
    ensures forall i :: 0 <= i < |Lines(text)| ==> Lacks(Lines(text)[i], '\n')
    decreases |text|
  {
    hide Find;
    if text != "" {
      FoundChar(text, '\n');
      var r := Find(text, "\n", 0);
      if r.Some? {
        LinesWhole(text[r.value + 1..]);
      }
    }
  }

  lemma {:induction false} StepsCanonical(lines: seq<string>, letters: Letters)
    requires LettersInk(letters) && forall i :: 0 <= i < |lines| ==> Lacks(lines[i], '\n')
    ensures AllCanonical(ParseLines(lines, letters).steps)
    decreases |lines|
  {
    hide LettersInk, Lacks, Skipped, Trim, ParseLine, Canonical;
    if lines != [] {
      var n := |lines| - 1;
      StepsCanonical(lines[..n], letters);
      if !Skipped(Trim(lines[n])) && ParseLine(Trim(lines[n]), n + 1, letters).Ok? {
        ParsedCanonical(lines[n], n + 1, letters);
      }
    }
  }

  /** A list of steps is what some text means if and only if every step is canonical, and then its labelled lines are
      such a text. */
  lemma RenderIff(steps: seq<WorkflowStep>, letters: Letters)
    requires LettersInk(letters)
    ensures Parse(Render(steps), letters) == Ok(steps) <==> AllCanonical(steps)
  {
    hide LettersInk, AllCanonical, Lines, Render, ParseLines, Lacks;
    LinesWhole(Render(steps));
    StepsCanonical(Lines(Render(steps)), letters);
    if AllCanonical(steps) {
      RenderLines(steps);
      RenderedParses(steps, letters);
    }
  }

  /** Every text that parses means the same as the labelled lines of its steps. */
  lemma ParseRendered(text: string, letters: Letters)
    requires LettersInk(letters) && Parse(text, letters).Ok?
    ensures Parse(Render(Parse(text, letters).value), letters) == Parse(text, letters)
  {
    hide LettersInk, AllCanonical, Lines, Render, ParseLines, Lacks;
    LinesWhole(text);
    StepsCanonical(Lines(text), letters);
    RenderIff(Parse(text, letters).value, letters);
  }
}
