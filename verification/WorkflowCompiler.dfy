/** From workflow steps to WebAssembly text: one data segment and one exported function per step. */
module WorkflowCompiler {
  import opened Common
  import opened WatText
  import opened WatModule

  datatype WorkflowStep = WorkflowStep(title: string, prompt: string)

  /** The characters beyond ASCII that count as letters or digits. */
  type Letters = char -> bool

  const SLOT := 256

  // ---- text ---------------------------------------------------------------------------------

  predicate AlphaNumeric(c: char, letters: Letters) {
    'a' <= c <= 'z' || 'A' <= c <= 'Z' || '0' <= c <= '9' || (c >= 0x80 as char && letters(c))
  }

  function Sanitize(name: string, letters: Letters): (r: string)
    ensures |r| == |name| && forall i :: 0 <= i < |r| ==> r[i] == '_' || AlphaNumeric(r[i], letters)
  {
    seq(|name|, i requires 0 <= i < |name| => if AlphaNumeric(name[i], letters) || name[i] == '_' then name[i] else '_')
  }

  const IMPORT_FRONT: seq<Piece> := [
    Piece(LParen, ""), Piece(Atom("import"), " "), Piece(Quoted("aios"), " "), Piece(Quoted("log"), " "),
    Piece(LParen, ""), Piece(Atom("func"), " "), Piece(Atom("$log"), " ")]

  const IMPORT_TYPE: seq<Piece> := [
    Piece(LParen, ""), Piece(Atom("param"), " "), Piece(Atom("i32"), " "), Piece(Atom("i32"), ""), Piece(RParen, " "),
    Piece(LParen, ""), Piece(Atom("result"), " "), Piece(Atom("i32"), ""), Piece(RParen, ""), Piece(RParen, ""),
    Piece(RParen, "\n  ")]

  const IMPORT_PIECES: seq<Piece> := IMPORT_FRONT + IMPORT_TYPE

  const MEMORY_PIECES: seq<Piece> := [
    Piece(LParen, ""), Piece(Atom("memory"), " "), Piece(LParen, ""), Piece(Atom("export"), " "),
    Piece(Quoted("memory"), ""), Piece(RParen, " "), Piece(Atom("1"), ""), Piece(RParen, "\n  ")]

  const HEAD: seq<Piece> := [Piece(LParen, ""), Piece(Atom("module"), "\n  ")]

  function DataPieces(offset: nat, prompt: string): seq<Piece> {
    [Piece(LParen, ""), Piece(Atom("data"), " "), Piece(LParen, ""), Piece(Atom("i32.const"), " "),
     Piece(Atom(Decimal(offset)), ""), Piece(RParen, " "), Piece(Data(prompt), ""), Piece(RParen, "\n  ")]
  }

  function ExportPieces(name: string, gap: string): seq<Piece> {
    [Piece(LParen, ""), Piece(Atom("export"), " "), Piece(Quoted(name), ""), Piece(RParen, gap)]
  }

  const RESULT_PIECES: seq<Piece> := [
    Piece(LParen, ""), Piece(Atom("result"), " "), Piece(Atom("i32"), ""), Piece(RParen, "\n    ")]

  function ConstPieces(value: nat, gap: string): seq<Piece> {
    [Piece(Atom("i32.const"), " "), Piece(Atom(Decimal(value)), gap)]
  }

  const CALL_PIECES: seq<Piece> := [
    Piece(Atom("call"), " "), Piece(Atom("$log"), "\n    "), Piece(Atom("drop"), "\n    ")]

  function StepBodyPieces(offset: nat, length: nat): seq<Piece> {
    ConstPieces(offset, "\n    ") + (ConstPieces(length, "\n    ") + (CALL_PIECES + ConstPieces(0, "\n  ")))
  }

  function FuncHead(name: string): seq<Piece> {
    [Piece(LParen, ""), Piece(Atom("func"), " ")] + if name == "" then [] else [Piece(Atom(name), " ")]
  }

  const END: seq<Piece> := [Piece(RParen, "\n  ")]

  function StepName(i: nat): string {
    "step_" + Decimal(i)
  }

  function LabelName(step: WorkflowStep, letters: Letters): string {
    "step_" + Sanitize(step.title, letters)
  }

  function FuncPieces(i: nat, step: WorkflowStep, letters: Letters): seq<Piece> {
    FuncHead("$" + StepName(i))
    + (ExportPieces(StepName(i), " ") + (ExportPieces(LabelName(step, letters), " ")
    + (RESULT_PIECES + (StepBodyPieces(SLOT * i, |Utf8(step.prompt)|) + END))))
  }

  function StepPieces(i: nat, step: WorkflowStep, letters: Letters): seq<Piece> {
    DataPieces(SLOT * i, step.prompt) + FuncPieces(i, step, letters)
  }

  function StepsPieces(steps: seq<WorkflowStep>, letters: Letters): seq<Piece> {
    if steps == [] then [] else
    var n := |steps| - 1;
    StepsPieces(steps[..n], letters) + StepPieces(n, steps[n], letters)
  }

  function CountPieces(n: nat): seq<Piece> {
    FuncHead("") + (ExportPieces("step_count", " ") + (RESULT_PIECES + (ConstPieces(n, "\n  ") + END)))
  }

  function HookPieces(name: string, gap: string): seq<Piece> {
    FuncHead("") + (ExportPieces(name, "") + [Piece(RParen, gap)])
  }

  function TailPieces(n: nat): seq<Piece> {
    CountPieces(n) + (HookPieces("init", "\n  ") + (HookPieces("start", "\n") + [Piece(RParen, "\n")]))
  }

  function Wat(steps: seq<WorkflowStep>, letters: Letters): string {
    SpellAll(HEAD + (IMPORT_PIECES + (MEMORY_PIECES + (StepsPieces(steps, letters) + TailPieces(|steps|)))))
  }

  lemma {:induction false} SpellConcat(a: seq<Piece>, b: seq<Piece>)
    ensures SpellAll(a + b) == SpellAll(a) + SpellAll(b)
    decreases |a|
  {
    hide Spell;
    if a == [] {
      assert a + b == b;
    } else {
      assert (a + b)[1..] == a[1..] + b;
      SpellConcat(a[1..], b);
    }
  }

  /** The generator's loop: text is appended step by step. */
  method GenerateWat(steps: seq<WorkflowStep>, letters: Letters) returns (wat: string)
    ensures wat == Wat(steps, letters)
  {
    hide SpellAll, StepPieces, TailPieces;
    wat := SpellAll(HEAD);
    wat := wat + SpellAll(IMPORT_PIECES);
    wat := wat + SpellAll(MEMORY_PIECES);
    ghost var head := wat;
    var i := 0;
    assert SpellAll([]) == "" by { SpellNone(); }
    while i < |steps|
      invariant 0 <= i <= |steps|
      invariant wat == head + SpellAll(StepsPieces(steps[..i], letters))
    {
      wat := wat + SpellAll(StepPieces(i, steps[i], letters));
      assert steps[..i + 1][..i] == steps[..i];
      SpellConcat(StepsPieces(steps[..i], letters), StepPieces(i, steps[i], letters));
      i := i + 1;
    }
    assert steps[..i] == steps;
    var tail := TailPieces(|steps|);
    wat := wat + SpellAll(tail);
    var body := StepsPieces(steps, letters);
    SpellConcat(HEAD, IMPORT_PIECES + (MEMORY_PIECES + (body + tail)));
    SpellConcat(IMPORT_PIECES, MEMORY_PIECES + (body + tail));
    SpellConcat(MEMORY_PIECES, body + tail);
    SpellConcat(body, tail);
  }

  lemma SpellNone()
    ensures SpellAll([]) == ""
  {
  }

  // ---- the module the text stands for -------------------------------------------------------

  function StepBody(offset: nat, length: nat): seq<Instr> {
    [Const(offset), Const(length), CallLog, Drop, Const(0)]
  }

  function StepFunction(i: nat, step: WorkflowStep, letters: Letters): Field {
    Function("$" + StepName(i), [Utf8(StepName(i)), Utf8(LabelName(step, letters))], true,
             StepBody(SLOT * i, |Utf8(step.prompt)|))
  }

  function StepSegment(i: nat, prompt: string): Field {
    Segment(SLOT * i, Utf8(prompt) + [0])
  }

  function StepFields(steps: seq<WorkflowStep>, letters: Letters): seq<Field> {
    if steps == [] then [] else
    var n := |steps| - 1;
    StepFields(steps[..n], letters) + [StepSegment(n, steps[n].prompt), StepFunction(n, steps[n], letters)]
  }

  function Hook(name: string): Field {
    Function("", [Utf8(name)], false, [])
  }

  function TailFields(n: nat): seq<Field> {
    [Function("", [Utf8("step_count")], true, [Const(n)]), Hook("init"), Hook("start")]
  }

  function Compile(steps: seq<WorkflowStep>, letters: Letters): seq<Field> {
    [ImportLog, Memory] + (StepFields(steps, letters) + TailFields(|steps|))
  }

  // ---- the text is legible ------------------------------------------------------------------

  /** Well spelled, and nothing that follows can run into the last token. */
  ghost predicate Good(ps: seq<Piece>) {
    AllWellSpelled(ps) && Separated(ps) && (ps != [] ==> ps[|ps| - 1].gap != "" || !ps[|ps| - 1].lexeme.Atom?)
  }

  lemma GoodConcat(a: seq<Piece>, b: seq<Piece>)
    requires Good(a) && Good(b)
    ensures Good(a + b)
  {
    hide WellSpelled;
    var ps := a + b;
    forall i | 0 <= i < |ps| - 1 ensures Apart(ps[i], ps[i + 1]) {
      if i + 1 < |a| {
        assert Apart(a[i], a[i + 1]);
      } else if i >= |a| {
        assert Apart(b[i - |a|], b[i - |a| + 1]);
      }
    }
  }

  lemma TokensConcat(a: seq<Piece>, b: seq<Piece>)
    ensures Tokens(a + b) == Tokens(a) + Tokens(b)
    ensures AllLegible(a + b) <==> AllLegible(a) && AllLegible(b)
  {
    hide TokenOf, Legible;
    var ps := a + b;
    assert forall i :: 0 <= i < |a| ==> ps[i] == a[i];
    assert forall i :: 0 <= i < |b| ==> ps[|a| + i] == b[i];
  }

  /** These pieces spell these tokens, and can be read back exactly if `ok`. */
  ghost predicate Writes(ps: seq<Piece>, ts: seq<Token>, ok: bool) {
    Good(ps) && Tokens(ps) == ts && (AllLegible(ps) <==> ok)
  }

  lemma WritesConcat(a: seq<Piece>, ta: seq<Token>, oka: bool, b: seq<Piece>, tb: seq<Token>, okb: bool)
    requires Writes(a, ta, oka) && Writes(b, tb, okb)
    ensures Writes(a + b, ta + tb, oka && okb)
  {
    hide Good, AllLegible;
    GoodConcat(a, b);
    TokensConcat(a, b);
  }

  predicate IsName(s: string) {
    s != "" && forall i :: 0 <= i < |s| ==> IdChar(s[i])
  }

  predicate IsPlain(s: string) {
    forall i :: 0 <= i < |s| ==> Plain(s[i])
  }

  predicate IsGaps(s: string) {
    forall i :: 0 <= i < |s| ==> IsGap(s[i])
  }

  lemma WritesParen(gap: string)
    requires IsGaps(gap)
    ensures Writes([Piece(LParen, gap)], [Open], true) && Writes([Piece(RParen, gap)], [Close], true)
  {
  }

  lemma Keywords()
    ensures IsName("import") && IsName("func") && IsName("$log") && IsName("param") && IsName("i32") && IsName("result")
    ensures IsName("memory") && IsName("export") && IsName("1") && IsName("data") && IsName("i32.const")
    ensures IsName("call")
    ensures IsName("drop") && IsName("module")
  {
  }

  lemma Gaps()
    ensures IsGaps("") && IsGaps(" ") && IsGaps("\n") && IsGaps("\n  ") && IsGaps("\n    ")
    ensures IsPlain("aios") && IsPlain("log") && IsPlain("memory") && IsPlain("step_count") && IsPlain("init")
    ensures IsPlain("start")
  {
  }

  lemma WritesImport()
    ensures Writes(IMPORT_PIECES, FieldTokens(ImportLog), true)
  {
    hide IsName, IsGaps, IsPlain, Utf8, IdChar, IsGap, Writes;
    var front := [Open, Word("import"), Str(Utf8("aios")), Str(Utf8("log")), Open, Word("func"), Word("$log")];
    var back := [Open, Word("param"), Word("i32"), Word("i32"), Close, Open, Word("result"), Word("i32"), Close,
                 Close, Close];
    WritesFront();
    WritesType();
    WritesConcat(IMPORT_FRONT, front, true, IMPORT_TYPE, back, true);
    assert front + back == IMPORT_TOKENS;
  }

  lemma WritesFront()
    ensures Writes(IMPORT_FRONT, [Open, Word("import"), Str(Utf8("aios")), Str(Utf8("log")), Open, Word("func"),
                                  Word("$log")], true)
  {
    hide Utf8, IdChar, IsGap, Plain;
    Keywords();
    Gaps();
  }

  lemma WritesType()
    ensures Writes(IMPORT_TYPE, [Open, Word("param"), Word("i32"), Word("i32"), Close,
                                 Open, Word("result"), Word("i32"), Close, Close, Close], true)
  {
    hide Utf8, IdChar, IsGap, Plain;
    Keywords();
    Gaps();
  }

  lemma WritesMemory()
    ensures Writes(MEMORY_PIECES, FieldTokens(Memory), true)
  {
    hide Utf8, IdChar, IsGap, Plain;
    Keywords();
    Gaps();
  }

  lemma NumberName(n: nat)
    ensures IsName(Decimal(n)) && IsPlain(Decimal(n))
  {
    forall i | 0 <= i < |Decimal(n)| ensures IdChar(Decimal(n)[i]) && Plain(Decimal(n)[i]) {
      assert '0' <= Decimal(n)[i] <= '9';
    }
  }

  lemma WritesSegment(offset: nat, prompt: string)
    ensures Writes(DataPieces(offset, prompt), FieldTokens(Segment(offset, Utf8(prompt) + [0])), AllPrintable(prompt))
  {
    hide Utf8, IdChar, IsGap, Plain, Decimal, AllPrintable;
    Keywords();
    Gaps();
    NumberName(offset);
    var ps := DataPieces(offset, prompt);
    assert ps[6].lexeme == Data(prompt);
    assert forall i :: 0 <= i < |ps| && i != 6 ==> !ps[i].lexeme.Data?;
  }

  lemma WritesExport(name: string, gap: string)
    requires IsPlain(name) && IsGaps(gap)
    ensures Writes(ExportPieces(name, gap), [Open, Word("export"), Str(Utf8(name)), Close], true)
  {
    hide Utf8, IdChar, IsGap, Plain;
    Keywords();
    Gaps();
  }

  lemma WritesResult()
    ensures Writes(RESULT_PIECES, RESULT_TOKENS, true)
  {
    hide IdChar, IsGap;
    Keywords();
    Gaps();
  }

  lemma WritesConst(value: nat, gap: string)
    requires IsGaps(gap) && gap != ""
    ensures Writes(ConstPieces(value, gap), InstrTokens(Const(value)), true)
  {
    hide IdChar, IsGap, Decimal;
    Keywords();
    Gaps();
    NumberName(value);
  }

  lemma WritesCall()
    ensures Writes(CALL_PIECES, InstrTokens(CallLog) + InstrTokens(Drop), true)
  {
    hide IdChar, IsGap;
    Keywords();
    Gaps();
  }

  lemma WritesHead(name: string)
    requires name == "" || IsName(name)
    ensures Writes(FuncHead(name), [Open, Word("func")] + (if name == "" then [] else [Word(name)]), true)
  {
    hide IdChar, IsGap;
    Keywords();
    Gaps();
  }

  lemma BodyTokensOf(offset: nat, length: nat)
    ensures BodyTokens(StepBody(offset, length))
            == InstrTokens(Const(offset))
               + (InstrTokens(Const(length)) + ((InstrTokens(CallLog) + InstrTokens(Drop)) + InstrTokens(Const(0))))
  {
    hide InstrTokens;
    var body := StepBody(offset, length);
    assert body[1..] == [Const(length), CallLog, Drop, Const(0)];
    assert body[1..][1..] == [CallLog, Drop, Const(0)];
    BodyTokensTwo(CallLog, Drop, Const(0));
    assert BodyTokens(body[1..]) == InstrTokens(Const(length)) + BodyTokens(body[1..][1..]);
  }

  lemma BodyTokensTwo(x: Instr, y: Instr, z: Instr)
    ensures BodyTokens([x, y, z]) == (InstrTokens(x) + InstrTokens(y)) + InstrTokens(z)
  {
    hide InstrTokens;
    assert [x, y, z][1..] == [y, z] && [y, z][1..] == [z] && [z][1..] == [];
    assert BodyTokens([]) == [];
    assert BodyTokens([z]) == InstrTokens(z);
    assert BodyTokens([y, z]) == InstrTokens(y) + InstrTokens(z);
  }

  lemma WritesBody(offset: nat, length: nat)
    ensures Writes(StepBodyPieces(offset, length), BodyTokens(StepBody(offset, length)), true)
  {
    hide Writes, InstrTokens, ConstPieces, CALL_PIECES, BodyTokens, IsGaps;
    Gaps();
    WritesConst(offset, "\n    ");
    WritesConst(length, "\n    ");
    WritesConst(0, "\n  ");
    WritesCall();
    var call, zero := InstrTokens(CallLog) + InstrTokens(Drop), InstrTokens(Const(0));
    WritesConcat(CALL_PIECES, call, true, ConstPieces(0, "\n  "), zero, true);
    WritesConcat(ConstPieces(length, "\n    "), InstrTokens(Const(length)), true,
                 CALL_PIECES + ConstPieces(0, "\n  "), call + zero, true);
    WritesConcat(ConstPieces(offset, "\n    "), InstrTokens(Const(offset)), true,
                 ConstPieces(length, "\n    ") + (CALL_PIECES + ConstPieces(0, "\n  ")),
                 InstrTokens(Const(length)) + (call + zero), true);
    BodyTokensOf(offset, length);
  }

  lemma NamesPlain(i: nat, step: WorkflowStep, letters: Letters)
    ensures IsName("$" + StepName(i)) && IsPlain(StepName(i)) && IsPlain(LabelName(step, letters))
  {
    NumberName(i);
    hide Decimal;
    var name, title := StepName(i), LabelName(step, letters);
    assert "step_" == ['s', 't', 'e', 'p', '_'];
    forall k | 0 <= k < |name| ensures IdChar(name[k]) && Plain(name[k]) {
      assert name[k] == if k < 5 then "step_"[k] else Decimal(i)[k - 5];
    }
    forall k | 0 <= k < |title| ensures Plain(title[k]) {
      assert title[k] == if k < 5 then "step_"[k] else Sanitize(step.title, letters)[k - 5];
    }
  }

  lemma ExportTokensTwo(x: Bytes, y: Bytes)
    ensures ExportTokens([x, y]) == [Open, Word("export"), Str(x), Close] + [Open, Word("export"), Str(y), Close]
    ensures ExportTokens([x]) == [Open, Word("export"), Str(x), Close]
  {
    assert [x, y][1..] == [y] && [y][1..] == [] && [x][1..] == [];
    assert ExportTokens([]) == [];
  }

  /** The pieces of a function, put together from the pieces of its parts. */
  lemma WritesFunction(name: string, ex: seq<Piece>, exports: seq<Bytes>, result: bool, body: seq<Piece>,
                       instrs: seq<Instr>, gap: string)
    requires name == "" || IsName(name)
    requires Writes(ex, ExportTokens(exports), true) && Writes(body, BodyTokens(instrs), true) && IsGaps(gap)
    ensures var res := if result then RESULT_PIECES else [];
            Writes(FuncHead(name) + (ex + (res + (body + [Piece(RParen, gap)]))),
                   FunctionTokens(name, exports, result, instrs), true)
  {
    hide Writes, ExportTokens, BodyTokens, FuncHead, RESULT_PIECES, RESULT_TOKENS, IsName, IsGaps;
    var res := if result then RESULT_PIECES else [];
    var resT := if result then RESULT_TOKENS else [];
    var head, end := [Open, Word("func")] + (if name == "" then [] else [Word(name)]), [Piece(RParen, gap)];
    WritesHead(name);
    WritesResult();
    WritesNothing();
    WritesParen(gap);
    WritesConcat(body, BodyTokens(instrs), true, end, [Close], true);
    WritesConcat(res, resT, true, body + end, BodyTokens(instrs) + [Close], true);
    WritesConcat(ex, ExportTokens(exports), true, res + (body + end), resT + (BodyTokens(instrs) + [Close]), true);
    WritesConcat(FuncHead(name), head, true, ex + (res + (body + end)),
                 ExportTokens(exports) + (resT + (BodyTokens(instrs) + [Close])), true);
    assert head + (ExportTokens(exports) + (resT + (BodyTokens(instrs) + [Close])))
      == FunctionTokens(name, exports, result, instrs);
  }

  lemma WritesNothing()
    ensures Writes([], [], true)
  {
  }

  lemma WritesStepFunction(i: nat, step: WorkflowStep, letters: Letters)
    ensures Writes(FuncPieces(i, step, letters), FieldTokens(StepFunction(i, step, letters)), true)
  {
    hide Writes, ExportTokens, BodyTokens, FuncHead, RESULT_PIECES, FunctionTokens, StepBody, StepBodyPieces,
         ExportPieces, IsName, IsPlain, IsGaps, Utf8, StepName, LabelName;
    var name, title := StepName(i), LabelName(step, letters);
    var x, y := Utf8(name), Utf8(title);
    NamesPlain(i, step, letters);
    Gaps();
    WritesExport(name, " ");
    WritesExport(title, " ");
    WritesConcat(ExportPieces(name, " "), [Open, Word("export"), Str(x), Close], true,
                 ExportPieces(title, " "), [Open, Word("export"), Str(y), Close], true);
    ExportTokensTwo(x, y);
    var length := |Utf8(step.prompt)|;
    WritesBody(SLOT * i, length);
    var ex, body := ExportPieces(name, " ") + ExportPieces(title, " "), StepBodyPieces(SLOT * i, length);
    WritesFunction("$" + name, ex, [x, y], true, body, StepBody(SLOT * i, length), "\n  ");
    assert FuncPieces(i, step, letters) == FuncHead("$" + name) + (ex + (RESULT_PIECES + (body + END)));
  }

  ghost predicate PromptsPrintable(steps: seq<WorkflowStep>) {
    forall i :: 0 <= i < |steps| ==> AllPrintable(steps[i].prompt)
  }

  lemma FieldsTokensFew(a: Field, b: Field, c: Field)
    ensures FieldsTokens([a, b]) == FieldTokens(a) + FieldTokens(b)
    ensures FieldsTokens([a, b, c]) == FieldTokens(a) + (FieldTokens(b) + FieldTokens(c))
  {
    hide FieldTokens;
    assert [a, b, c][1..] == [b, c] && [b, c][1..] == [c] && [c][1..] == [] && [a, b][1..] == [b] && [b][1..] == [];
    assert FieldsTokens([]) == [] && FieldsTokens([c]) == FieldTokens(c) && FieldsTokens([b]) == FieldTokens(b);
    assert FieldsTokens([b, c]) == FieldTokens(b) + FieldTokens(c);
  }

  lemma {:induction false} WritesSteps(steps: seq<WorkflowStep>, letters: Letters)
    ensures Writes(StepsPieces(steps, letters), FieldsTokens(StepFields(steps, letters)), PromptsPrintable(steps))
    decreases |steps|
  {
    hide Writes, FieldTokens, FieldsTokens, AllPrintable, DataPieces, FuncPieces, StepSegment, StepFunction;
    if steps == [] {
      WritesNothing();
      assert FieldsTokens([]) == [] by { NoTokens(); }
    } else {
      var n := |steps| - 1;
      var step, before := steps[n], steps[..n];
      WritesSteps(before, letters);
      WritesStep(n, step, letters);
      var two := [StepSegment(n, step.prompt), StepFunction(n, step, letters)];
      WritesConcat(StepsPieces(before, letters), FieldsTokens(StepFields(before, letters)), PromptsPrintable(before),
                   StepPieces(n, step, letters), FieldsTokens(two), AllPrintable(step.prompt));
      FieldsTokensConcat(StepFields(before, letters), two);
      assert PromptsPrintable(steps) <==> PromptsPrintable(before) && AllPrintable(step.prompt) by {
        assert steps == before + [step];
      }
    }
  }

  lemma NoTokens()
    ensures FieldsTokens([]) == []
  {
  }

  lemma WritesStep(n: nat, step: WorkflowStep, letters: Letters)
    ensures Writes(StepPieces(n, step, letters),
                   FieldsTokens([StepSegment(n, step.prompt), StepFunction(n, step, letters)]),
                   AllPrintable(step.prompt))
  {
    hide Writes, FieldTokens, FieldsTokens, AllPrintable, DataPieces, FuncPieces, StepFunction, Utf8;
    var segment, func := StepSegment(n, step.prompt), StepFunction(n, step, letters);
    WritesSegment(SLOT * n, step.prompt);
    WritesStepFunction(n, step, letters);
    WritesConcat(DataPieces(SLOT * n, step.prompt), FieldTokens(segment), AllPrintable(step.prompt),
                 FuncPieces(n, step, letters), FieldTokens(func), true);
    FieldsTokensFew(segment, func, func);
  }

  lemma WritesHook(name: string, gap: string)
    requires IsPlain(name) && IsGaps(gap)
    ensures Writes(HookPieces(name, gap), FieldTokens(Hook(name)), true)
  {
    hide Writes, ExportTokens, FuncHead, RESULT_PIECES, FunctionTokens, ExportPieces, IsName, IsPlain, IsGaps, Utf8;
    Gaps();
    WritesExport(name, "");
    ExportTokensTwo(Utf8(name), Utf8(name));
    WritesNothing();
    var ex, end := ExportPieces(name, ""), [Piece(RParen, gap)];
    WritesFunction("", ex, [Utf8(name)], false, [], [], gap);
    assert HookPieces(name, gap) == FuncHead("") + (ex + ([] + ([] + end)));
  }

  lemma WritesCount(n: nat)
    ensures Writes(CountPieces(n), FieldTokens(Function("", [Utf8("step_count")], true, [Const(n)])), true)
  {
    hide Writes, ExportTokens, FuncHead, RESULT_PIECES, FunctionTokens, ExportPieces, IsName, IsPlain, IsGaps, Utf8,
         InstrTokens, ConstPieces;
    Gaps();
    WritesExport("step_count", " ");
    ExportTokensTwo(Utf8("step_count"), []);
    WritesConst(n, "\n  ");
    BodyTokensOne(Const(n));
    var ex, body := ExportPieces("step_count", " "), ConstPieces(n, "\n  ");
    WritesFunction("", ex, [Utf8("step_count")], true, body, [Const(n)], "\n  ");
    assert CountPieces(n) == FuncHead("") + (ex + (RESULT_PIECES + (body + END)));
  }

  lemma BodyTokensOne(x: Instr)
    ensures BodyTokens([x]) == InstrTokens(x)
  {
    hide InstrTokens;
    assert [x][1..] == [];
    assert BodyTokens([]) == [];
  }

  lemma WritesTail(n: nat)
    ensures Writes(TailPieces(n), FieldsTokens(TailFields(n)) + [Close], true)
  {
    hide Writes, FieldTokens, FieldsTokens, CountPieces, HookPieces, Hook, IsPlain, IsGaps, Utf8;
    Gaps();
    var count := Function("", [Utf8("step_count")], true, [Const(n)]);
    var a, b, c := FieldTokens(count), FieldTokens(Hook("init")), FieldTokens(Hook("start"));
    var init, start, end := HookPieces("init", "\n  "), HookPieces("start", "\n"), [Piece(RParen, "\n")];
    WritesCount(n);
    WritesHook("init", "\n  ");
    WritesHook("start", "\n");
    WritesParen("\n");
    WritesConcat(start, c, true, end, [Close], true);
    WritesConcat(init, b, true, start + end, c + [Close], true);
    WritesConcat(CountPieces(n), a, true, init + (start + end), b + (c + [Close]), true);
    FieldsTokensFew(count, Hook("init"), Hook("start"));
    assert a + (b + (c + [Close])) == a + (b + c) + [Close];
  }

  lemma WritesModule(steps: seq<WorkflowStep>, letters: Letters)
    ensures Writes(HEAD + (IMPORT_PIECES + (MEMORY_PIECES + (StepsPieces(steps, letters) + TailPieces(|steps|)))),
                   [Open, Word("module")] + FieldsTokens(Compile(steps, letters)) + [Close], PromptsPrintable(steps))
  {
    hide Writes, FieldTokens, FieldsTokens, StepsPieces, TailPieces, StepFields, TailFields, PromptsPrintable, HEAD,
         IMPORT_PIECES, MEMORY_PIECES;
    var ok, body, tail := PromptsPrintable(steps), StepsPieces(steps, letters), TailPieces(|steps|);
    var bodyT, tailT := FieldsTokens(StepFields(steps, letters)), FieldsTokens(TailFields(|steps|)) + [Close];
    var impT, memT, headT := FieldTokens(ImportLog), FieldTokens(Memory), [Open, Word("module")];
    WritesSteps(steps, letters);
    WritesTail(|steps|);
    WritesMemory();
    WritesImport();
    assert Writes(HEAD, headT, true) by { WritesOpening(); }
    WritesConcat(body, bodyT, ok, tail, tailT, true);
    WritesConcat(MEMORY_PIECES, memT, true, body + tail, bodyT + tailT, ok);
    WritesConcat(IMPORT_PIECES, impT, true, MEMORY_PIECES + (body + tail), memT + (bodyT + tailT), ok);
    WritesConcat(HEAD, headT, true, IMPORT_PIECES + (MEMORY_PIECES + (body + tail)),
                 impT + (memT + (bodyT + tailT)), ok);
    FieldsTokensFew(ImportLog, Memory, Memory);
    FieldsTokensConcat(StepFields(steps, letters), TailFields(|steps|));
    FieldsTokensConcat([ImportLog, Memory], StepFields(steps, letters) + TailFields(|steps|));
    assert headT + (impT + (memT + (bodyT + tailT))) == headT + FieldsTokens(Compile(steps, letters)) + [Close];
  }

  lemma WritesOpening()
    ensures Writes(HEAD, [Open, Word("module")], true)
  {
    hide IdChar, IsGap;
    Keywords();
    Gaps();
  }

  lemma {:induction false} CompiledNames(steps: seq<WorkflowStep>, letters: Letters)
    ensures forall i :: 0 <= i < |StepFields(steps, letters)| ==> NameOk(StepFields(steps, letters)[i])
    decreases |steps|
  {
    if steps != [] { CompiledNames(steps[..|steps| - 1], letters); }
  }

  ghost predicate NamesOk(fs: seq<Field>) {
    forall i :: 0 <= i < |fs| ==> NameOk(fs[i])
  }

  lemma CompiledNamesOk(steps: seq<WorkflowStep>, letters: Letters)
    ensures NamesOk(Compile(steps, letters))
  {
    hide StepFields, Utf8;
    CompiledNames(steps, letters);
  }

  lemma LoadWritten(ps: seq<Piece>, fs: seq<Field>, ok: bool)
    requires Writes(ps, [Open, Word("module")] + FieldsTokens(fs) + [Close], ok) && NamesOk(fs)
    ensures Load(SpellAll(ps)) == if ok then Some(fs) else None
  {
    hide Lex, SpellAll, FieldsTokens, ReadModule, AllLegible, AllWellSpelled, Separated;
    LexSpelled(ps);
    ModuleRead(fs);
  }

  /** The text reads back as the module it was written for, exactly if no prompt has a control character. */
  lemma LoadIff(steps: seq<WorkflowStep>, letters: Letters)
    ensures Load(Wat(steps, letters)) == if PromptsPrintable(steps) then Some(Compile(steps, letters)) else None
  {
    hide PromptsPrintable, Writes, SpellAll, Load, NamesOk, Compile, HEAD, IMPORT_PIECES, MEMORY_PIECES, StepsPieces,
         TailPieces;
    WritesModule(steps, letters);
    CompiledNamesOk(steps, letters);
    LoadWritten(HEAD + (IMPORT_PIECES + (MEMORY_PIECES + (StepsPieces(steps, letters) + TailPieces(|steps|)))),
                Compile(steps, letters), PromptsPrintable(steps));
  }
}
