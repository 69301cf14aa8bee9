/** Workflow texts that parse and yet do not compile to what they say. */
module CompilerExamples {
  import opened Common
  import opened Lists
  import opened WatText
  import opened WatModule
  import opened WorkflowCompiler
  import opened WorkflowMeaning
  import opened EasyLang
  import opened EasyLangForm

  lemma RenderOne(step: WorkflowStep)
    ensures Render([step]) == step.title + ": " + step.prompt + "\n"
  {
    assert [step][1..] == [];
    assert Render([]) == "";
    assert Line(step) + "\n" + "" == Line(step) + "\n";
  }

  /** A text of one canonical line means its step. */
  lemma OneLine(step: WorkflowStep, letters: Letters)
    requires Canonical(step) && LettersInk(letters)
    ensures Parse(step.title + ": " + step.prompt + "\n", letters) == Ok([step])
  {
    hide Parse, Canonical, LettersInk;
    RenderOne(step);
    RenderIff([step], letters);
  }

  /** A label that is a step number duplicates an export name. */
  lemma NumberLabelExample(letters: Letters)
    requires LettersInk(letters)
    ensures Parse("0: x\n", letters) == Ok([WorkflowStep("0", "x")])
    ensures !Distinct(Exports(Compile([WorkflowStep("0", "x")], letters)))
  {
    hide Parse, LettersInk, Compile, Exports, Distinct;
    var step := WorkflowStep("0", "x");
    assert step.title + ": " + step.prompt + "\n" == "0: x\n";
    OneLine(step, letters);
    assert Tag(step, letters) == "0" == Decimal(0);
    assert [step][0] == step;
    ExportsIff([step], letters);
  }

  /** A tab inside a prompt passes the parser and gives text that is no WebAssembly text. */
  lemma TabExample(letters: Letters)
    requires LettersInk(letters)
    ensures Parse("t: a\tb\n", letters) == Ok([WorkflowStep("t", "a\tb")])
    ensures Load(Wat([WorkflowStep("t", "a\tb")], letters)) == None
  {
    hide Parse, LettersInk, Load, Wat;
    var step := WorkflowStep("t", "a\tb");
    assert step.title + ": " + step.prompt + "\n" == "t: a\tb\n";
    OneLine(step, letters);
    assert !AllPrintable(step.prompt) by { assert step.prompt[1] == '\t'; }
    assert [step][0] == step;
    LoadIff([step], letters);
  }

  /** A prompt of 257 bytes before another step. */
  const LONG: seq<WorkflowStep> := [WorkflowStep("a", Times('a', 257)), WorkflowStep("b", "b")]

  lemma LongLengths()
    ensures Length(LONG[0]) == 257 && Length(LONG[1]) == 1 && Twin(LONG, 0) == LONG
  {
    TimesBytes('a', 257);
    assert Utf8("b") == Utf8Char('b') by { assert "b"[1..] == ""; }
    assert Times('b', 1) == "b";
  }

  /** It parses, it fits, and its step does not log it. */
  lemma LongExample(letters: Letters)
    requires LettersInk(letters)
    ensures Parse(Render(LONG), letters) == Ok(LONG) && Fits(LONG)
    ensures !LogsAll(LONG, letters)
  {
    hide Parse, Render, LettersInk, LogsAll, Length;
    assert Canonical(LONG[0]) && Canonical(LONG[1]);
    RenderIff(LONG, letters);
    LongLengths();
    OverrunLost(LONG, letters, 0);
  }
}
