/** A reader for the module fields that a workflow compiles to, and what running such a module does. */
module WatModule {
  import opened Common
  import opened WatText

  datatype Instr = Const(value: nat) | CallLog | Drop

  datatype Field =
    | ImportLog
    | Memory
    | Segment(offset: nat, bytes: Bytes)
    | Function(name: string, exports: seq<Bytes>, result: bool, body: seq<Instr>)

  // ---- fields as tokens ---------------------------------------------------------------------

  const IMPORT_TOKENS: seq<Token> := [
    Open, Word("import"), Str(Utf8("aios")), Str(Utf8("log")), Open, Word("func"), Word("$log"),
    Open, Word("param"), Word("i32"), Word("i32"), Close, Open, Word("result"), Word("i32"), Close, Close, Close]

  const MEMORY_TOKENS: seq<Token> := [
    Open, Word("memory"), Open, Word("export"), Str(Utf8("memory")), Close, Word("1"), Close]

  const RESULT_TOKENS: seq<Token> := [Open, Word("result"), Word("i32"), Close]

  function ExportTokens(exports: seq<Bytes>): seq<Token> {
    if exports == [] then [] else [Open, Word("export"), Str(exports[0]), Close] + ExportTokens(exports[1..])
  }

  function InstrTokens(x: Instr): seq<Token> {
    match x
    case Const(value) => [Word("i32.const"), Word(Decimal(value))]
    case CallLog => [Word("call"), Word("$log")]
    case Drop => [Word("drop")]
  }

  function BodyTokens(body: seq<Instr>): seq<Token> {
    if body == [] then [] else InstrTokens(body[0]) + BodyTokens(body[1..])
  }

  function FunctionTokens(name: string, exports: seq<Bytes>, result: bool, body: seq<Instr>): seq<Token> {
    [Open, Word("func")] + ((if name == "" then [] else [Word(name)])
    + (ExportTokens(exports) + ((if result then RESULT_TOKENS else []) + (BodyTokens(body) + [Close]))))
  }

  function FieldTokens(f: Field): seq<Token> {
    match f
    case ImportLog => IMPORT_TOKENS
    case Memory => MEMORY_TOKENS
    case Segment(offset, bytes) =>
      [Open, Word("data"), Open, Word("i32.const"), Word(Decimal(offset)), Close, Str(bytes), Close]
    case Function(name, exports, result, body) => FunctionTokens(name, exports, result, body)
  }

  function FieldsTokens(fs: seq<Field>): seq<Token> {
    if fs == [] then [] else FieldTokens(fs[0]) + FieldsTokens(fs[1..])
  }

  // ---- reading fields -----------------------------------------------------------------------

  function ReadExports(ts: seq<Token>): (r: (seq<Bytes>, seq<Token>))
    ensures |r.1| <= |ts|
  {
    if |ts| >= 4 && ts[0] == Open && ts[1] == Word("export") && ts[2].Str? && ts[3] == Close then
      var (more, rest) := ReadExports(ts[4..]);
      ([ts[2].bytes] + more, rest)
    else ([], ts)
  }

  function ReadInstr(ts: seq<Token>): (r: Option<(Instr, seq<Token>)>)
    ensures r.Some? ==> |r.value.1| < |ts|
  {
    if ts == [] then None
    else if ts[0] == Word("drop") then Some((Drop, ts[1..]))
    else if |ts| == 1 then None
    else if ts[0] == Word("call") && ts[1] == Word("$log") then Some((CallLog, ts[2..]))
    else if ts[0] == Word("i32.const") && ts[1].Word? && ReadDecimal(ts[1].word).Some? then
      Some((Const(ReadDecimal(ts[1].word).value), ts[2..]))
    else None
  }

  function ReadBody(ts: seq<Token>): (r: Option<(seq<Instr>, seq<Token>)>)
    ensures r.Some? ==> |r.value.1| < |ts|
    decreases |ts|
  {
    if ts == [] then None
    else if ts[0] == Close then Some(([], ts[1..]))
    else match ReadInstr(ts)
      case None => None
      case Some((x, rest)) =>
        match ReadBody(rest)
        case None => None
        case Some((more, after)) => Some(([x] + more, after))
  }

  /** What follows `(func`. */
  function ReadFunction(ts: seq<Token>): (r: Option<(Field, seq<Token>)>)
    ensures r.Some? ==> |r.value.1| < |ts|
  {
    var named := ts != [] && ts[0].Word? && ts[0].word != "" && ts[0].word[0] == '$';
    var (exports, afterExports) := ReadExports(if named then ts[1..] else ts);
    var result := RESULT_TOKENS <= afterExports;
    match ReadBody(if result then afterExports[4..] else afterExports)
    case None => None
    case Some((body, rest)) => Some((Function(if named then ts[0].word else "", exports, result, body), rest))
  }

  /** What follows `(data`. */
  function ReadSegment(ts: seq<Token>): (r: Option<(Field, seq<Token>)>)
    ensures r.Some? ==> |r.value.1| < |ts|
  {
    if && |ts| >= 6 && ts[0] == Open && ts[1] == Word("i32.const") && ts[2].Word? && ReadDecimal(ts[2].word).Some?
       && ts[3] == Close && ts[4].Str? && ts[5] == Close
    then Some((Segment(ReadDecimal(ts[2].word).value, ts[4].bytes), ts[6..])) else None
  }

  function ReadField(ts: seq<Token>): (r: Option<(Field, seq<Token>)>)
    ensures r.Some? ==> |r.value.1| < |ts|
  {
    if |ts| < 2 || ts[0] != Open then None
    else if ts[1] == Word("func") then ReadFunction(ts[2..])
    else if ts[1] == Word("data") then ReadSegment(ts[2..])
    else if IMPORT_TOKENS <= ts then Some((ImportLog, ts[|IMPORT_TOKENS|..]))
    else if MEMORY_TOKENS <= ts then Some((Memory, ts[|MEMORY_TOKENS|..]))
    else None
  }

  function ReadFields(ts: seq<Token>): Option<seq<Field>>
    decreases |ts|
  {
    if ts == [Close] then Some([]) else
    match ReadField(ts)
    case None => None
    case Some((f, rest)) =>
      match ReadFields(rest)
      case None => None
      case Some(more) => Some([f] + more)
  }

  function ReadModule(ts: seq<Token>): Option<seq<Field>> {
    if |ts| >= 2 && ts[0] == Open && ts[1] == Word("module") then ReadFields(ts[2..]) else None
  }

  /** A module's text, read. */
  function Load(text: string): Option<seq<Field>> {
    match Lex(text)
    case None => None
    case Some(ts) => ReadModule(ts)
  }

  // ---- what is written is what is read ------------------------------------------------------

  predicate NameOk(f: Field) {
    f.Function? ==> f.name == "" || f.name[0] == '$'
  }

  /** The tokens after the exports of a function cannot be taken for one more export. */
  predicate NoExport(ts: seq<Token>) {
    !(|ts| >= 2 && ts[0] == Open && ts[1] == Word("export"))
  }

  lemma {:induction false} ExportsRead(exports: seq<Bytes>, r: seq<Token>)
    requires NoExport(r)
    ensures ReadExports(ExportTokens(exports) + r) == (exports, r)
    decreases |exports|
  {
    var ts := ExportTokens(exports) + r;
    if exports == [] {
      assert ts == r;
    } else {
      assert ts[4..] == ExportTokens(exports[1..]) + r;
      ExportsRead(exports[1..], r);
      assert exports == [exports[0]] + exports[1..];
    }
  }

  lemma InstrRead(x: Instr, r: seq<Token>)
    ensures ReadInstr(InstrTokens(x) + r) == Some((x, r)) && (InstrTokens(x) + r)[0] != Close
  {
    var ts := InstrTokens(x) + r;
    assert ts[|InstrTokens(x)|..] == r;
    if x.Const? { DecimalRoundTrip(x.value); }
  }

  lemma {:induction false} BodyRead(body: seq<Instr>, r: seq<Token>)
    ensures ReadBody(BodyTokens(body) + [Close] + r) == Some((body, r))
    decreases |body|
  {
    hide ReadInstr, InstrTokens;
    var ts := BodyTokens(body) + [Close] + r;
    if body == [] {
      assert ts == [Close] + r;
      assert ts[1..] == r;
    } else {
      var after := BodyTokens(body[1..]) + [Close] + r;
      assert ts == InstrTokens(body[0]) + after;
      InstrRead(body[0], after);
      BodyRead(body[1..], r);
      assert body == [body[0]] + body[1..];
    }
  }

  lemma {:induction false} BodyStart(body: seq<Instr>, r: seq<Token>)
    ensures var ts := BodyTokens(body) + [Close] + r; ts != [] && ts[0] != Open
  {
    if body != [] { assert (BodyTokens(body) + [Close] + r)[0] == InstrTokens(body[0])[0]; }
  }

  lemma ResultRead(result: bool, ts: seq<Token>)
    requires ts != [] && ts[0] != Open
    ensures var all := (if result then RESULT_TOKENS else []) + ts;
            && (RESULT_TOKENS <= all <==> result) && (result ==> all[4..] == ts) && (!result ==> all == ts)
            && NoExport(all)
  {
    var all := (if result then RESULT_TOKENS else []) + ts;
    assert RESULT_TOKENS[0] == Open && RESULT_TOKENS[1] == Word("result");
    if result {
      assert all[..4] == RESULT_TOKENS && all[4..] == ts;
    } else {
      assert all == ts;
      assert !(RESULT_TOKENS <= all);
    }
  }

  lemma NameRead(name: string, ts: seq<Token>)
    requires (name == "" || name[0] == '$') && (ts == [] || !ts[0].Word? || ts[0].word == "" || ts[0].word[0] != '$')
    ensures var all := (if name == "" then [] else [Word(name)]) + ts;
            var named := all != [] && all[0].Word? && all[0].word != "" && all[0].word[0] == '$';
            && (named <==> name != "") && (named ==> all[0].word == name && all[1..] == ts) && (!named ==> all == ts)
  {
  }

  lemma {:induction false} BodyPlain(body: seq<Instr>, r: seq<Token>)
    ensures var ts := BodyTokens(body) + [Close] + r; !ts[0].Word? || ts[0].word == "" || ts[0].word[0] != '$'
  {
    if body != [] { assert (BodyTokens(body) + [Close] + r)[0] == InstrTokens(body[0])[0]; }
  }

  lemma FunctionRead(f: Field, r: seq<Token>)
    requires f.Function? && NameOk(f)
    ensures ReadField(FieldTokens(f) + r) == Some((f, r))
  {
    hide ReadBody, ReadExports, ExportTokens, BodyTokens, RESULT_TOKENS, NoExport, IMPORT_TOKENS, MEMORY_TOKENS;
    var tail := BodyTokens(f.body) + [Close] + r;
    var after := (if f.result then RESULT_TOKENS else []) + tail;
    var exported := ExportTokens(f.exports) + after;
    var all := (if f.name == "" then [] else [Word(f.name)]) + exported;
    assert FieldTokens(f) + r == [Open, Word("func")] + all;
    assert (FieldTokens(f) + r)[2..] == all;
    BodyStart(f.body, r);
    ResultRead(f.result, tail);
    ExportsRead(f.exports, after);
    BodyRead(f.body, r);
    FirstPlain(f, r);
    NameRead(f.name, exported);
  }

  lemma FirstPlain(f: Field, r: seq<Token>)
    requires f.Function?
    ensures var result := if f.result then RESULT_TOKENS else [];
            var ts := ExportTokens(f.exports) + (result + (BodyTokens(f.body) + [Close] + r));
            ts == [] || !ts[0].Word? || ts[0].word == "" || ts[0].word[0] != '$'
  {
    hide BodyTokens;
    var tail := BodyTokens(f.body) + [Close] + r;
    var after := (if f.result then RESULT_TOKENS else []) + tail;
    if f.exports != [] {
      assert (ExportTokens(f.exports) + after)[0] == Open;
    } else {
      assert ExportTokens(f.exports) + after == after;
      if f.result {
        assert after[0] == Open;
      } else {
        assert after == tail;
        BodyPlain(f.body, r);
      }
    }
  }

  lemma FieldRead(f: Field, r: seq<Token>)
    requires NameOk(f)
    ensures ReadField(FieldTokens(f) + r) == Some((f, r)) && FieldTokens(f) + r != [Close]
  {
    hide ReadFunction, Utf8, FunctionTokens;
    var ts := FieldTokens(f) + r;
    assert ts[|FieldTokens(f)|..] == r;
    match f {
      case ImportLog =>
      case Memory =>
      case Segment(offset, bytes) =>
        DecimalRoundTrip(offset);
        assert ts[2..][6..] == r;
      case Function(_, _, _, _) => FunctionRead(f, r);
    }
  }

  lemma {:induction false} FieldsRead(fs: seq<Field>)
    requires forall i :: 0 <= i < |fs| ==> NameOk(fs[i])
    ensures ReadFields(FieldsTokens(fs) + [Close]) == Some(fs)
    decreases |fs|
  {
    hide ReadField, FieldTokens, NameOk;
    if fs == [] {
      assert FieldsTokens(fs) + [Close] == [Close];
    } else {
      var after := FieldsTokens(fs[1..]) + [Close];
      assert FieldsTokens(fs) + [Close] == FieldTokens(fs[0]) + after;
      FieldRead(fs[0], after);
      FieldsRead(fs[1..]);
      assert fs == [fs[0]] + fs[1..];
    }
  }

  /** A module written as tokens reads back as its fields. */
  lemma ModuleRead(fs: seq<Field>)
    requires forall i :: 0 <= i < |fs| ==> NameOk(fs[i])
    ensures ReadModule([Open, Word("module")] + FieldsTokens(fs) + [Close]) == Some(fs)
  {
    hide FieldsTokens, ReadFields;
    var ts := [Open, Word("module")] + FieldsTokens(fs) + [Close];
    assert ts[2..] == FieldsTokens(fs) + [Close];
    FieldsRead(fs);
  }

  lemma {:induction false} FieldsTokensConcat(a: seq<Field>, b: seq<Field>)
    ensures FieldsTokens(a + b) == FieldsTokens(a) + FieldsTokens(b)
    decreases |a|
  {
    if a == [] {
      assert a + b == b;
    } else {
      assert (a + b)[1..] == a[1..] + b;
      FieldsTokensConcat(a[1..], b);
    }
  }

  // ---- running ------------------------------------------------------------------------------

  const PAGE_SIZE: nat := 65536

  function Zeros(n: nat): (m: Bytes)
    ensures |m| == n
  {
    seq(n, _ => 0)
  }

  function Write(mem: Bytes, offset: nat, bytes: Bytes): (r: Bytes)
    requires offset + |bytes| <= |mem|
    ensures |r| == |mem|
  {
    mem[..offset] + bytes + mem[offset + |bytes|..]
  }

  /** Active segments in order; one that does not fit traps. */
  function Lay(fs: seq<Field>, mem: Bytes): (r: Option<Bytes>)
    ensures r.Some? ==> |r.value| == |mem|
  {
    if fs == [] then Some(mem)
    else if !fs[0].Segment? then Lay(fs[1..], mem)
    else if fs[0].offset + |fs[0].bytes| > |mem| then None
    else Lay(fs[1..], Write(mem, fs[0].offset, fs[0].bytes))
  }

  function Instantiate(fs: seq<Field>): Option<Bytes> {
    Lay(fs, Zeros(PAGE_SIZE))
  }

  /** The first function exported under a name. */
  function Lookup(fs: seq<Field>, name: Bytes): (r: Option<Field>)
    ensures r.Some? ==> r.value.Function? && name in r.value.exports
  {
    if fs == [] then None
    else if fs[0].Function? && name in fs[0].exports then Some(fs[0])
    else Lookup(fs[1..], name)
  }

  /** The operand stack and the bytes the host has been asked to log. */
  datatype Machine = Machine(stack: seq<nat>, logged: seq<Bytes>)

  function Exec(body: seq<Instr>, mem: Bytes, m: Machine): Option<Machine> {
    if body == [] then Some(m) else
    var n := |m.stack|;
    match body[0]
    case Const(value) => Exec(body[1..], mem, m.(stack := m.stack + [value]))
    case Drop => if n == 0 then None else Exec(body[1..], mem, m.(stack := m.stack[..n - 1]))
    case CallLog =>
      if n < 2 || m.stack[n - 2] + m.stack[n - 1] > |mem| then None
      else Exec(body[1..], mem, Machine(m.stack[..n - 2] + [0],
                                        m.logged + [mem[m.stack[n - 2]..m.stack[n - 2] + m.stack[n - 1]]]))
  }

  /** Call an export: what it leaves on the stack and what it logs. */
  function Call(fs: seq<Field>, mem: Bytes, name: Bytes): Option<Machine> {
    match Lookup(fs, name)
    case None => None
    case Some(f) => Exec(f.body, mem, Machine([], []))
  }
}
