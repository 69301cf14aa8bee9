/** What a compiled workflow does: which bytes each step logs, and which exports the module has. */
module WorkflowMeaning {
  import opened Common
  import opened Lists
  import opened WatText
  import opened WatModule
  import opened WorkflowCompiler

  function Length(step: WorkflowStep): nat {
    |Utf8(step.prompt)|
  }

  /** Every segment, with its NUL, lies in the one page of memory. */
  ghost predicate Fits(steps: seq<WorkflowStep>) {
    forall i :: 0 <= i < |steps| ==> SLOT * i + Length(steps[i]) + 1 <= PAGE_SIZE
  }

  /** No prompt but the last one is longer than its slot. */
  ghost predicate InSlots(steps: seq<WorkflowStep>) {
    forall i :: 0 <= i < |steps| - 1 ==> Length(steps[i]) <= SLOT
  }

  // ---- memory -------------------------------------------------------------------------------

  function Then(a: Option<Bytes>, fs: seq<Field>): Option<Bytes> {
    if a.None? then None else Lay(fs, a.value)
  }

  lemma {:induction false} LayConcat(a: seq<Field>, b: seq<Field>, mem: Bytes)
    ensures Lay(a + b, mem) == Then(Lay(a, mem), b)
    decreases |a|
  {
    hide Write;
    if a == [] {
      assert a + b == b;
    } else {
      assert (a + b)[0] == a[0] && (a + b)[1..] == a[1..] + b;
      if !a[0].Segment? {
        LayConcat(a[1..], b, mem);
      } else if a[0].offset + |a[0].bytes| <= |mem| {
        LayConcat(a[1..], b, Write(mem, a[0].offset, a[0].bytes));
      }
    }
  }

  lemma {:induction false} LayPlain(fs: seq<Field>, mem: Bytes)
    requires forall i :: 0 <= i < |fs| ==> !fs[i].Segment?
    ensures Lay(fs, mem) == Some(mem)
    decreases |fs|
  {
    if fs != [] { LayPlain(fs[1..], mem); }
  }

  lemma LayStep(segment: Field, func: Field, mem: Bytes)
    requires segment.Segment? && func.Function?
    ensures Lay([segment, func], mem) ==
            if segment.offset + |segment.bytes| <= |mem| then Some(Write(mem, segment.offset, segment.bytes)) else None
  {
    hide Write;
    assert [segment, func][1..] == [func];
    forall m: Bytes ensures Lay([func], m) == Some(m) { LayPlain([func], m); }
  }

  /** The memory a compiled workflow starts with is that of its step segments. */
  lemma InstantiateSteps(steps: seq<WorkflowStep>, letters: Letters)
    ensures Instantiate(Compile(steps, letters)) == Lay(StepFields(steps, letters), Zeros(PAGE_SIZE))
  {
    hide Lay, StepFields, Zeros, Utf8;
    var mem, body, tail := Zeros(PAGE_SIZE), StepFields(steps, letters), TailFields(|steps|);
    LayConcat([ImportLog, Memory], body + tail, mem);
    LayPlain([ImportLog, Memory], mem);
    LayConcat(body, tail, mem);
    if Lay(body, mem).Some? { LayPlain(tail, Lay(body, mem).value); }
  }

  /** Laying down one more step. */
  lemma LayLast(steps: seq<WorkflowStep>, letters: Letters, mem: Bytes)
    requires steps != []
    ensures var n := |steps| - 1;
            var before, segment := Lay(StepFields(steps[..n], letters), mem), Utf8(steps[n].prompt) + [0];
            Lay(StepFields(steps, letters), mem) ==
            if before.None? || SLOT * n + |segment| > |mem| then None else Some(Write(before.value, SLOT * n, segment))
  {
    hide Lay, StepFunction, Utf8, Write;
    var n := |steps| - 1;
    var segment, func := StepSegment(n, steps[n].prompt), StepFunction(n, steps[n], letters);
    assert func.Function? by { StepIsFunction(n, steps[n], letters); }
    LayConcat(StepFields(steps[..n], letters), [segment, func], mem);
    var before := Lay(StepFields(steps[..n], letters), mem);
    if before.Some? { LayStep(segment, func, before.value); }
  }

  lemma StepIsFunction(i: nat, step: WorkflowStep, letters: Letters)
    ensures StepFunction(i, step, letters).Function?
  {
  }

  /** The step segments can be laid down if and only if they fit. */
  lemma {:induction false} LaidIff(steps: seq<WorkflowStep>, letters: Letters, mem: Bytes)
    requires |mem| == PAGE_SIZE
    ensures Lay(StepFields(steps, letters), mem).Some? <==> Fits(steps)
    decreases |steps|
  {
    hide Lay, Utf8, Write, StepFields;
    if steps == [] {
      assert Lay(StepFields(steps, letters), mem).Some? by { NoSteps(letters, mem); }
    } else {
      var n := |steps| - 1;
      LaidIff(steps[..n], letters, mem);
      LayLast(steps, letters, mem);
      assert steps == steps[..n] + [steps[n]];
      assert Fits(steps) <==> Fits(steps[..n]) && SLOT * n + Length(steps[n]) + 1 <= PAGE_SIZE;
    }
  }

  /** A compiled module can be instantiated if and only if every segment fits the page. */
  lemma InstantiatesIff(steps: seq<WorkflowStep>, letters: Letters)
    ensures Instantiate(Compile(steps, letters)).Some? <==> Fits(steps)
  {
    hide Lay, StepFields, Instantiate, Compile, Fits;
    InstantiateSteps(steps, letters);
    LaidIff(steps, letters, Zeros(PAGE_SIZE));
  }

  lemma NoSteps(letters: Letters, mem: Bytes)
    ensures Lay(StepFields([], letters), mem) == Some(mem)
  {
  }

  ghost predicate Reads(mem: Bytes, i: nat, step: WorkflowStep) {
    SLOT * i + Length(step) <= |mem| && mem[SLOT * i..SLOT * i + Length(step)] == Utf8(step.prompt)
  }

  lemma PrefixSlice(a: Bytes, b: Bytes, m: nat, lo: nat, hi: nat)
    requires lo <= hi <= m <= |a| && m <= |b| && a[..m] == b[..m]
    ensures a[lo..hi] == b[lo..hi]
  {
    forall i | lo <= i < hi ensures a[i] == b[i] { assert a[..m][i] == b[..m][i]; }
  }

  lemma WriteReads(mem: Bytes, n: nat, bytes: Bytes, i: nat, step: WorkflowStep)
    requires SLOT * n + |bytes| <= |mem| && Reads(mem, i, step) && i < n && Length(step) <= SLOT
    ensures Reads(Write(mem, SLOT * n, bytes), i, step)
  {
    hide Utf8;
    var mem' := Write(mem, SLOT * n, bytes);
    var lo, hi := SLOT * i, SLOT * i + Length(step);
    assert hi <= SLOT * n;
    assert mem'[..SLOT * n] == mem[..SLOT * n];
    PrefixSlice(mem, mem', SLOT * n, lo, hi);
  }

  lemma WriteNew(mem: Bytes, n: nat, step: WorkflowStep)
    requires SLOT * n + Length(step) + 1 <= |mem|
    ensures Reads(Write(mem, SLOT * n, Utf8(step.prompt) + [0]), n, step)
  {
    hide Utf8;
  }

  /** Prompts in their slots are found where the steps look for them. */
  lemma {:induction false} LaidReads(steps: seq<WorkflowStep>, letters: Letters, mem: Bytes)
    requires |mem| == PAGE_SIZE && Fits(steps) && InSlots(steps)
    ensures var laid := Lay(StepFields(steps, letters), mem);
            laid.Some? && forall i :: 0 <= i < |steps| ==> Reads(laid.value, i, steps[i])
    decreases |steps|
  {
    hide Lay, Utf8, Write, StepFields, Reads;
    LaidIff(steps, letters, mem);
    if steps != [] {
      var n := |steps| - 1;
      assert steps == steps[..n] + [steps[n]];
      LaidReads(steps[..n], letters, mem);
      LayLast(steps, letters, mem);
      var before := Lay(StepFields(steps[..n], letters), mem).value;
      WriteNew(before, n, steps[n]);
      forall i | 0 <= i < n ensures Reads(Write(before, SLOT * n, Utf8(steps[n].prompt) + [0]), i, steps[i]) {
        WriteReads(before, n, Utf8(steps[n].prompt) + [0], i, steps[i]);
      }
    }
  }

  // ---- running a step -----------------------------------------------------------------------

  lemma ExecConst(value: nat, rest: seq<Instr>, mem: Bytes, m: Machine)
    ensures Exec([Const(value)] + rest, mem, m) == Exec(rest, mem, Machine(m.stack + [value], m.logged))
  {
    assert ([Const(value)] + rest)[1..] == rest;
  }

  lemma ExecLog(rest: seq<Instr>, mem: Bytes, offset: nat, length: nat)
    ensures Exec([CallLog, Drop] + rest, mem, Machine([offset, length], [])) ==
            if offset + length <= |mem| then Exec(rest, mem, Machine([], [mem[offset..offset + length]])) else None
  {
    var body, m := [CallLog, Drop] + rest, Machine([offset, length], []);
    assert body[1..] == [Drop] + rest && body[1..][1..] == rest;
    if offset + length <= |mem| {
      var logged := [mem[offset..offset + length]];
      assert m.stack[..0] + [0] == [0] && m.logged + logged == logged;
      assert Exec(body, mem, m) == Exec(body[1..], mem, Machine([0], logged));
      assert [0][..0] == [];
    }
  }

  lemma ExecStep(offset: nat, length: nat, mem: Bytes)
    ensures Exec(StepBody(offset, length), mem, Machine([], [])) ==
            if offset + length <= |mem| then Some(Machine([0], [mem[offset..offset + length]])) else None
  {
    hide Exec;
    assert StepBody(offset, length) == [Const(offset)] + ([Const(length)] + ([CallLog, Drop] + ([Const(0)] + [])));
    ExecConst(offset, [Const(length)] + ([CallLog, Drop] + ([Const(0)] + [])), mem, Machine([], []));
    ExecConst(length, [CallLog, Drop] + ([Const(0)] + []), mem, Machine([offset], []));
    assert [] + [offset] == [offset] && [offset] + [length] == [offset, length] && [] + [0] == [0];
    ExecLog([Const(0)] + [], mem, offset, length);
    if offset + length <= |mem| {
      var logged := [mem[offset..offset + length]];
      ExecConst(0, [], mem, Machine([], logged));
      ExecDone(mem, Machine([0], logged));
    }
  }

  lemma ExecDone(mem: Bytes, m: Machine)
    ensures Exec([], mem, m) == Some(m)
  {
  }

  /** Calling the step's function logs its prompt and returns 0. */
  ghost predicate Logs(mem: Bytes, i: nat, step: WorkflowStep, letters: Letters) {
    Exec(StepFunction(i, step, letters).body, mem, Machine([], [])) == Some(Machine([0], [Utf8(step.prompt)]))
  }

  lemma LogsIff(mem: Bytes, i: nat, step: WorkflowStep, letters: Letters)
    ensures Logs(mem, i, step, letters) <==> Reads(mem, i, step)
  {
    hide Exec, Utf8;
    ExecStep(SLOT * i, Length(step), mem);
    var text := Utf8(step.prompt);
    if SLOT * i + Length(step) <= |mem| {
      var found := mem[SLOT * i..SLOT * i + Length(step)];
      assert [found][0] == found && [text][0] == text;
    }
  }

  ghost predicate LogsAll(steps: seq<WorkflowStep>, letters: Letters) {
    var mem := Instantiate(Compile(steps, letters));
    mem.Some? && forall i :: 0 <= i < |steps| ==> Logs(mem.value, i, steps[i], letters)
  }

  lemma InSlotsLogs(steps: seq<WorkflowStep>, letters: Letters)
    requires Fits(steps) && InSlots(steps)
    ensures LogsAll(steps, letters)
  {
    hide Lay, StepFields, Compile, Instantiate, Logs, Reads, Zeros;
    InstantiateSteps(steps, letters);
    LaidReads(steps, letters, Zeros(PAGE_SIZE));
    var mem := Lay(StepFields(steps, letters), Zeros(PAGE_SIZE)).value;
    forall i | 0 <= i < |steps| ensures Logs(mem, i, steps[i], letters) { LogsIff(mem, i, steps[i], letters); }
  }

  // ---- prompts longer than their slot ---------------------------------------------------------

  ghost predicate SameLengths(a: seq<WorkflowStep>, b: seq<WorkflowStep>) {
    |a| == |b| && forall i :: 0 <= i < |a| ==> Length(a[i]) == Length(b[i])
  }

  function Times(c: char, n: nat): (s: string)
    ensures |s| == n && forall i :: 0 <= i < n ==> s[i] == c
  {
    seq(n, _ => c)
  }

  lemma {:induction false} TimesBytes(c: char, n: nat)
    requires c < 0x80 as char
    ensures |Utf8(Times(c, n))| == n && forall i :: 0 <= i < n ==> Utf8(Times(c, n))[i] == c as byte
    decreases n
  {
    if n > 0 {
      TimesBytes(c, n - 1);
      assert Times(c, n)[1..] == Times(c, n - 1);
    }
  }

  /** The same lengths, but prompt `k` is all a's and the others are all b's. */
  function Twin(steps: seq<WorkflowStep>, k: nat): (r: seq<WorkflowStep>)
    ensures |r| == |steps|
    ensures forall i :: 0 <= i < |r| ==>
              r[i] == steps[i].(prompt := Times(if i == k then 'a' else 'b', Length(steps[i])))
  {
    seq(|steps|, i requires 0 <= i < |steps| =>
      steps[i].(prompt := Times(if i == k then 'a' else 'b', Length(steps[i]))))
  }

  lemma TwinAlike(steps: seq<WorkflowStep>, k: nat)
    requires Fits(steps)
    ensures SameLengths(steps, Twin(steps, k)) && PromptsPrintable(Twin(steps, k)) && Fits(Twin(steps, k))
  {
    hide Utf8;
    forall i | 0 <= i < |steps| ensures Length(Twin(steps, k)[i]) == Length(steps[i]) {
      TimesBytes(if i == k then 'a' else 'b', Length(steps[i]));
    }
  }

  /** Segments from slot `m` on leave the memory below it alone. */
  lemma {:induction false} LaidBelow(steps: seq<WorkflowStep>, letters: Letters, mem: Bytes, m: nat, p: nat)
    requires |mem| == PAGE_SIZE && m <= |steps| && p < SLOT * m && p < PAGE_SIZE
    requires Lay(StepFields(steps, letters), mem).Some?
    ensures var early := Lay(StepFields(steps[..m], letters), mem);
            early.Some? && Lay(StepFields(steps, letters), mem).value[p] == early.value[p]
    decreases |steps|
  {
    hide Lay, StepFields, Utf8;
    if m == |steps| {
      assert steps[..m] == steps;
    } else {
      var n := |steps| - 1;
      LayLast(steps, letters, mem);
      LaidBelow(steps[..n], letters, mem, m, p);
      assert steps[..n][..m] == steps[..m];
    }
  }

  /** A prompt that overruns its slot is damaged by the segment after it. */
  lemma OverrunLost(steps: seq<WorkflowStep>, letters: Letters, k: nat)
    requires Fits(steps) && k < |steps| - 1 && Length(steps[k]) > SLOT
    ensures !LogsAll(Twin(steps, k), letters)
  {
    hide Lay, StepFields, Utf8, Zeros, Instantiate, Compile, Logs, Fits;
    var twin, mem := Twin(steps, k), Zeros(PAGE_SIZE);
    TwinAlike(steps, k);
    InstantiateSteps(twin, letters);
    LaidIff(twin, letters, mem);
    var laid := Lay(StepFields(twin, letters), mem).value;
    var p := SLOT * (k + 1);
    assert p < PAGE_SIZE by { Bound(twin, k + 1); }
    LaidBelow(twin, letters, mem, k + 2, p);
    LayLast(twin[..k + 2], letters, mem);
    assert twin[..k + 2][..k + 1] == twin[..k + 1] && twin[..k + 2][k + 1] == twin[k + 1];
    TimesBytes('b', Length(steps[k + 1]));
    TimesBytes('a', Length(steps[k]));
    assert laid[p] != 'a' as byte;
    NotRead(laid, k, twin[k]);
    LogsIff(laid, k, twin[k], letters);
  }

  lemma Bound(steps: seq<WorkflowStep>, k: nat)
    requires Fits(steps) && k < |steps|
    ensures SLOT * k < PAGE_SIZE
  {
    assert SLOT * k + Length(steps[k]) + 1 <= PAGE_SIZE;
  }

  lemma NotRead(mem: Bytes, k: nat, step: WorkflowStep)
    requires Length(step) > SLOT && Utf8(step.prompt)[SLOT] == 'a' as byte
    requires SLOT * (k + 1) < |mem| && mem[SLOT * (k + 1)] != 'a' as byte
    ensures !Reads(mem, k, step)
  {
    hide Utf8;
    if Reads(mem, k, step) {
      SliceAt(mem, SLOT * k, SLOT * k + Length(step), SLOT);
    }
  }

  lemma SliceAt(mem: Bytes, lo: nat, hi: nat, i: nat)
    requires lo <= hi <= |mem| && lo + i < hi
    ensures mem[lo..hi][i] == mem[lo + i]
  {
  }

  /** Lengths that fit are safe whatever the prompts say if and only if all but the last stay in their slots. */
  lemma LengthsIff(steps: seq<WorkflowStep>, letters: Letters)
    requires Fits(steps)
    ensures (forall other :: SameLengths(steps, other) && PromptsPrintable(other) ==> LogsAll(other, letters))
            <==> InSlots(steps)
  {
    hide LogsAll, PromptsPrintable;
    if InSlots(steps) {
      forall other | SameLengths(steps, other) && PromptsPrintable(other) ensures LogsAll(other, letters) {
        InSlotsLogs(other, letters);
      }
    } else {
      var k :| 0 <= k < |steps| - 1 && Length(steps[k]) > SLOT;
      TwinAlike(steps, k);
      OverrunLost(steps, letters, k);
    }
  }

  // ---- one given workflow ---------------------------------------------------------------------

  ghost predicate Covers(steps: seq<WorkflowStep>, j: nat, p: nat)
    requires j < |steps|
  {
    SLOT * j <= p <= SLOT * j + Length(steps[j])
  }

  /** The byte that segment `j` puts at position `p`: of its prompt, or the NUL after it. */
  ghost function ByteOf(steps: seq<WorkflowStep>, j: nat, p: nat): byte
    requires j < |steps| && Covers(steps, j, p)
  {
    (Utf8(steps[j].prompt) + [0])[p - SLOT * j]
  }

  /** The last segment over position `p` puts there what segment `i` puts there. */
  ghost predicate Agrees(steps: seq<WorkflowStep>, i: nat, p: nat)
    requires i < |steps| && Covers(steps, i, p)
  {
    forall j :: LastOver(steps, j, p) ==> ByteOf(steps, j, p) == ByteOf(steps, i, p)
  }

  /** No later segment contradicts prompt `i`. */
  ghost predicate Unspoilt(steps: seq<WorkflowStep>, i: nat)
    requires i < |steps|
  {
    forall p :: SLOT * i <= p < SLOT * i + Length(steps[i]) ==> Agrees(steps, i, p)
  }

  ghost predicate LastOver(steps: seq<WorkflowStep>, j: nat, p: nat) {
    j < |steps| && Covers(steps, j, p) && forall k :: j < k < |steps| ==> !Covers(steps, k, p)
  }

  /** Every position below some segment's end has a last segment over it. */
  lemma {:induction false} LastOverExists(steps: seq<WorkflowStep>, i: nat, p: nat) returns (j: nat)
    requires i < |steps| && Covers(steps, i, p)
    ensures LastOver(steps, j, p)
    decreases |steps| - i
  {
    hide Covers;
    if k :| i < k < |steps| && Covers(steps, k, p) { j := LastOverExists(steps, k, p); } else { j := i; }
  }

  /** After laying, a position holds the byte of the last segment over it. */
  lemma {:induction false} LaidByte(steps: seq<WorkflowStep>, letters: Letters, mem: Bytes, j: nat, p: nat)
    requires |mem| == PAGE_SIZE && Fits(steps) && LastOver(steps, j, p) && p < PAGE_SIZE
    ensures var laid := Lay(StepFields(steps, letters), mem); laid.Some? && laid.value[p] == ByteOf(steps, j, p)
    decreases |steps|
  {
    hide Lay, StepFields, Utf8;
    LaidIff(steps, letters, mem);
    var n := |steps| - 1;
    LayLast(steps, letters, mem);
    if j < n {
      assert steps[..n][j] == steps[j];
      assert forall k :: 0 <= k < n ==> steps[..n][k] == steps[k];
      assert !Covers(steps, n, p);
      forall k | j < k < n ensures !Covers(steps[..n], k, p) { assert !Covers(steps, k, p); }
      LaidByte(steps[..n], letters, mem, j, p);
    }
  }

  /** The steps of one given workflow all log their prompts if and only if no prompt is spoilt by a later segment. */
  lemma ContentsIff(steps: seq<WorkflowStep>, letters: Letters)
    requires Fits(steps)
    ensures LogsAll(steps, letters) <==> forall i :: 0 <= i < |steps| ==> Unspoilt(steps, i)
  {
    hide Lay, StepFields, Compile, Instantiate, Logs, Unspoilt, Zeros;
    var mem := Zeros(PAGE_SIZE);
    InstantiateSteps(steps, letters);
    LaidIff(steps, letters, mem);
    var laid := Lay(StepFields(steps, letters), mem).value;
    forall i | 0 <= i < |steps| ensures Logs(laid, i, steps[i], letters) <==> Unspoilt(steps, i) {
      LogsIff(laid, i, steps[i], letters);
      ReadsIff(steps, letters, i);
    }
  }

  ghost predicate SameByte(mem: Bytes, step: WorkflowStep, i: nat, p: nat)
    requires SLOT * i <= p < SLOT * i + Length(step) <= |mem|
  {
    mem[p] == Utf8(step.prompt)[p - SLOT * i]
  }

  lemma ReadsPointwise(mem: Bytes, i: nat, step: WorkflowStep)
    requires SLOT * i + Length(step) <= |mem|
    ensures Reads(mem, i, step)
            <==> forall p :: SLOT * i <= p < SLOT * i + Length(step) ==> SameByte(mem, step, i, p)
  {
    hide Utf8;
    var lo, text := SLOT * i, Utf8(step.prompt);
    var found := mem[lo..lo + |text|];
    if found == text {
      forall p | lo <= p < lo + |text| ensures SameByte(mem, step, i, p) { assert found[p - lo] == mem[p]; }
    }
    if forall p :: lo <= p < lo + |text| ==> SameByte(mem, step, i, p) {
      forall k | 0 <= k < |text| ensures found[k] == text[k] { assert SameByte(mem, step, i, lo + k); }
    }
  }

  lemma ReadsIff(steps: seq<WorkflowStep>, letters: Letters, i: nat)
    requires Fits(steps) && i < |steps| && Lay(StepFields(steps, letters), Zeros(PAGE_SIZE)).Some?
    ensures Reads(Lay(StepFields(steps, letters), Zeros(PAGE_SIZE)).value, i, steps[i]) <==> Unspoilt(steps, i)
  {
    hide Lay, StepFields, Utf8, Zeros, Reads, Length, Fits, Agrees;
    var laid := Lay(StepFields(steps, letters), Zeros(PAGE_SIZE)).value;
    End(steps, i);
    forall p | SLOT * i <= p < SLOT * i + Length(steps[i])
      ensures Agrees(steps, i, p) <==> SameByte(laid, steps[i], i, p)
    {
      PositionIff(steps, letters, i, p);
    }
    ReadsPointwise(laid, i, steps[i]);
  }

  lemma End(steps: seq<WorkflowStep>, i: nat)
    requires Fits(steps) && i < |steps|
    ensures SLOT * i + Length(steps[i]) < PAGE_SIZE
  {
    assert SLOT * i + Length(steps[i]) + 1 <= PAGE_SIZE;
  }

  lemma PositionIff(steps: seq<WorkflowStep>, letters: Letters, i: nat, p: nat)
    requires Fits(steps) && i < |steps| && SLOT * i <= p < SLOT * i + Length(steps[i]) && p < PAGE_SIZE
    ensures var laid := Lay(StepFields(steps, letters), Zeros(PAGE_SIZE));
            && laid.Some?
            && SLOT * i + Length(steps[i]) <= PAGE_SIZE
            && (Agrees(steps, i, p) <==> SameByte(laid.value, steps[i], i, p))
  {
    hide Lay, StepFields, Utf8, Zeros;
    End(steps, i);
    var k := LastOverExists(steps, i, p);
    forall j | LastOver(steps, j, p)
      ensures Lay(StepFields(steps, letters), Zeros(PAGE_SIZE)).Some?
      ensures Lay(StepFields(steps, letters), Zeros(PAGE_SIZE)).value[p] == ByteOf(steps, j, p)
    {
      LaidByte(steps, letters, Zeros(PAGE_SIZE), j, p);
    }
  }

  // ---- exports ------------------------------------------------------------------------------

  function ExportsOf(f: Field): seq<Bytes> {
    match f
    case Memory => [Utf8("memory")]
    case Function(_, exports, _, _) => exports
    case _ => []
  }

  function Exports(fs: seq<Field>): seq<Bytes> {
    if fs == [] then [] else ExportsOf(fs[0]) + Exports(fs[1..])
  }

  function Encoded(names: seq<string>): (r: seq<Bytes>)
    ensures |r| == |names| && forall i :: 0 <= i < |r| ==> r[i] == Utf8(names[i])
  {
    seq(|names|, i requires 0 <= i < |names| => Utf8(names[i]))
  }

  function Names(steps: seq<WorkflowStep>, letters: Letters): seq<string> {
    if steps == [] then [] else
    var n := |steps| - 1;
    Names(steps[..n], letters) + [StepName(n), LabelName(steps[n], letters)]
  }

  function AllNames(steps: seq<WorkflowStep>, letters: Letters): seq<string> {
    ["memory"] + (Names(steps, letters) + ["step_count", "init", "start"])
  }

  function Tag(step: WorkflowStep, letters: Letters): string {
    Sanitize(step.title, letters)
  }

  /** Sanitized labels differ from one another and from every step number. */
  ghost predicate TagsDistinct(steps: seq<WorkflowStep>, letters: Letters) {
    && (forall i, j :: 0 <= i < j < |steps| ==> Tag(steps[i], letters) != Tag(steps[j], letters))
    && (forall i, j :: 0 <= i < |steps| && 0 <= j < |steps| ==> Tag(steps[i], letters) != Decimal(j))
  }

  ghost predicate NoneIsCount(steps: seq<WorkflowStep>, letters: Letters) {
    forall i :: 0 <= i < |steps| ==> Tag(steps[i], letters) != "count"
  }

  lemma {:induction false} ExportsConcat(a: seq<Field>, b: seq<Field>)
    ensures Exports(a + b) == Exports(a) + Exports(b)
    decreases |a|
  {
    hide ExportsOf;
    if a == [] {
      assert a + b == b;
    } else {
      assert (a + b)[1..] == a[1..] + b;
      ExportsConcat(a[1..], b);
    }
  }

  lemma ExportsFew(a: Field, b: Field, c: Field)
    ensures Exports([a, b]) == ExportsOf(a) + ExportsOf(b)
    ensures Exports([a, b, c]) == ExportsOf(a) + (ExportsOf(b) + ExportsOf(c))
  {
    hide ExportsOf;
    assert [a, b, c][1..] == [b, c] && [b, c][1..] == [c] && [c][1..] == [] && [a, b][1..] == [b] && [b][1..] == [];
    assert Exports([]) == [] && Exports([c]) == ExportsOf(c) && Exports([b]) == ExportsOf(b);
    assert Exports([b, c]) == ExportsOf(b) + ExportsOf(c);
  }

  lemma {:induction false} ExportsSteps(steps: seq<WorkflowStep>, letters: Letters)
    ensures Exports(StepFields(steps, letters)) == Encoded(Names(steps, letters))
    decreases |steps|
  {
    hide Utf8, StepName, LabelName;
    if steps != [] {
      var n := |steps| - 1;
      ExportsSteps(steps[..n], letters);
      var segment, func := StepSegment(n, steps[n].prompt), StepFunction(n, steps[n], letters);
      ExportsConcat(StepFields(steps[..n], letters), [segment, func]);
      ExportsFew(segment, func, func);
      hide Exports;
      assert Encoded([StepName(n), LabelName(steps[n], letters)])
        == [Utf8(StepName(n)), Utf8(LabelName(steps[n], letters))];
    }
  }

  lemma ExportsCompiled(steps: seq<WorkflowStep>, letters: Letters)
    ensures Exports(Compile(steps, letters)) == Encoded(AllNames(steps, letters))
  {
    hide Utf8, Exports, StepFields, Names;
    var body, tail := StepFields(steps, letters), TailFields(|steps|);
    ExportsSteps(steps, letters);
    ExportsConcat([ImportLog, Memory], body + tail);
    ExportsConcat(body, tail);
    ExportsFew(ImportLog, Memory, Memory);
    ExportsFew(tail[0], tail[1], tail[2]);
    assert tail == [tail[0], tail[1], tail[2]];
    assert Exports(tail) == Encoded(["step_count", "init", "start"]);
  }

  lemma EncodedDistinct(names: seq<string>)
    ensures Distinct(Encoded(names)) <==> Distinct(names)
  {
    hide Utf8;
    forall i, j | 0 <= i < j < |names| ensures Encoded(names)[i] == Encoded(names)[j] <==> names[i] == names[j] {
      if Encoded(names)[i] == Encoded(names)[j] { Utf8Injective(names[i], names[j]); }
    }
  }

  lemma DistinctAppend(s: seq<string>, x: string, y: string)
    ensures Distinct(s + [x, y]) <==> Distinct(s) && x !in s && y !in s && x != y
  {
    var all := s + [x, y];
    assert forall i :: 0 <= i < |s| ==> all[i] == s[i];
    assert all[|s|] == x && all[|s| + 1] == y;
    if Distinct(all) {
      DistinctParts(s, [x, y]);
      assert x in [x, y] && y in [x, y];
    }
  }

  lemma {:induction false} NameIn(steps: seq<WorkflowStep>, letters: Letters, x: string)
    ensures x in Names(steps, letters)
            <==> exists j :: 0 <= j < |steps| && (x == StepName(j) || x == LabelName(steps[j], letters))
    decreases |steps|
  {
    hide StepName, LabelName;
    if steps != [] {
      var n := |steps| - 1;
      NameIn(steps[..n], letters, x);
      assert x in Names(steps, letters)
             <==> x in Names(steps[..n], letters) || x == StepName(n) || x == LabelName(steps[n], letters);
      assert forall j :: 0 <= j < n ==> steps[..n][j] == steps[j];
    }
  }

  lemma DecimalDiffers(i: nat, j: nat)
    ensures StepName(i) == StepName(j) <==> i == j
  {
    DecimalRoundTrip(i);
    DecimalRoundTrip(j);
    assert StepName(i)[5..] == Decimal(i) && StepName(j)[5..] == Decimal(j);
  }

  lemma TagDiffers(step: WorkflowStep, letters: Letters, x: string)
    ensures LabelName(step, letters) == "step_" + x <==> Tag(step, letters) == x
  {
    assert LabelName(step, letters)[5..] == Tag(step, letters) && ("step_" + x)[5..] == x;
  }

  /** The last step's two names are new. */
  ghost predicate LastTagNew(steps: seq<WorkflowStep>, letters: Letters)
    requires steps != []
  {
    var n := |steps| - 1;
    && (forall j :: 0 <= j < n ==> Tag(steps[j], letters) != Decimal(n))
    && (forall j :: 0 <= j < n ==> Tag(steps[n], letters) != Tag(steps[j], letters))
    && (forall j :: 0 <= j <= n ==> Tag(steps[n], letters) != Decimal(j))
  }

  lemma TagsSplit(steps: seq<WorkflowStep>, letters: Letters)
    requires steps != []
    ensures TagsDistinct(steps, letters) <==> TagsDistinct(steps[..|steps| - 1], letters) && LastTagNew(steps, letters)
  {
    hide Tag, Decimal;
    var n := |steps| - 1;
    assert forall j :: 0 <= j < n ==> steps[..n][j] == steps[j];
  }

  lemma LastNameNew(steps: seq<WorkflowStep>, letters: Letters)
    requires steps != []
    ensures var n := |steps| - 1;
            var before, x, y := Names(steps[..n], letters), StepName(n), LabelName(steps[n], letters);
            x !in before && y !in before && x != y <==> LastTagNew(steps, letters)
  {
    hide Names, Decimal;
    var n := |steps| - 1;
    var x, y := StepName(n), LabelName(steps[n], letters);
    NameIn(steps[..n], letters, x);
    NameIn(steps[..n], letters, y);
    TagDiffers(steps[n], letters, Decimal(n));
    forall j | 0 <= j < n
      ensures x == StepName(j) <==> false
      ensures x == LabelName(steps[j], letters) <==> Tag(steps[j], letters) == Decimal(n)
      ensures y == StepName(j) <==> Tag(steps[n], letters) == Decimal(j)
      ensures y == LabelName(steps[j], letters) <==> Tag(steps[n], letters) == Tag(steps[j], letters)
    {
      DecimalDiffers(n, j);
      TagDiffers(steps[j], letters, Decimal(n));
      TagDiffers(steps[n], letters, Decimal(j));
      TagDiffers(steps[n], letters, Tag(steps[j], letters));
    }
    hide StepName, LabelName, Tag;
    assert forall j :: 0 <= j < n ==> steps[..n][j] == steps[j];
  }

  /** The names of the steps have no repetition exactly if the tags are distinct. */
  lemma {:induction false} NamesDistinct(steps: seq<WorkflowStep>, letters: Letters)
    ensures Distinct(Names(steps, letters)) <==> TagsDistinct(steps, letters)
    decreases |steps|
  {
    hide StepName, LabelName, TagsDistinct, LastTagNew, Distinct;
    if steps == [] {
      assert TagsDistinct(steps, letters) && Distinct(Names(steps, letters)) by { NoNames(letters); }
    } else {
      var n := |steps| - 1;
      NamesDistinct(steps[..n], letters);
      DistinctAppend(Names(steps[..n], letters), StepName(n), LabelName(steps[n], letters));
      LastNameNew(steps, letters);
      TagsSplit(steps, letters);
    }
  }

  lemma NoNames(letters: Letters)
    ensures TagsDistinct([], letters) && Distinct(Names([], letters))
  {
  }

  lemma FixedNames(steps: seq<WorkflowStep>, letters: Letters)
    ensures var names := Names(steps, letters);
            && "memory" !in names && "init" !in names && "start" !in names
            && ("step_count" in names <==> !NoneIsCount(steps, letters))
  {
    hide Names, Decimal;
    NameIn(steps, letters, "memory");
    NameIn(steps, letters, "init");
    NameIn(steps, letters, "start");
    NameIn(steps, letters, "step_count");
    assert "step_count" == "step_" + "count" && "memory"[0] == 'm' && "init"[0] == 'i' && "start"[2] == 'a';
    forall j | 0 <= j < |steps|
      ensures StepName(j) != "step_count"
      ensures LabelName(steps[j], letters) == "step_count" <==> Tag(steps[j], letters) == "count"
      ensures StepName(j)[0] == 's' && StepName(j)[2] == 'e'
      ensures LabelName(steps[j], letters)[0] == 's' && LabelName(steps[j], letters)[2] == 'e'
    {
      TagDiffers(steps[j], letters, "count");
      assert StepName(j)[5] == Decimal(j)[0] && "step_count"[5] == 'c';
    }
  }

  lemma DistinctAround(names: seq<string>)
    requires "memory" !in names && "init" !in names && "start" !in names
    ensures Distinct(["memory"] + (names + ["step_count", "init", "start"]))
            <==> Distinct(names) && "step_count" !in names
  {
    var tail := ["step_count", "init", "start"];
    var all := ["memory"] + (names + tail);
    var n := |names|;
    assert all[0] == "memory" && all[n + 1] == "step_count" && all[n + 2] == "init" && all[n + 3] == "start";
    assert forall i :: 0 <= i < n ==> all[i + 1] == names[i];
    if Distinct(all) {
      DistinctParts(["memory"], names + tail);
      DistinctParts(names, tail);
      assert "step_count" in tail;
    } else {
      var i, j :| 0 <= i < j < |all| && all[i] == all[j];
      AroundClash(names, i, j);
    }
  }

  lemma AroundClash(names: seq<string>, i: nat, j: nat)
    requires "memory" !in names && "init" !in names && "start" !in names
    requires var all := ["memory"] + (names + ["step_count", "init", "start"]); i < j < |all| && all[i] == all[j]
    ensures !Distinct(names) || "step_count" in names
  {
    var all, n := ["memory"] + (names + ["step_count", "init", "start"]), |names|;
    assert all[0] == "memory" && all[n + 1] == "step_count" && all[n + 2] == "init" && all[n + 3] == "start";
    assert "memory"[0] == 'm' && "step_count"[2] == 'e' && "init"[0] == 'i' && "start"[2] == 'a' && "start"[0] == 's';
    if 0 < i <= n { assert all[i] == names[i - 1]; }
    if 0 < j <= n { assert all[j] == names[j - 1]; }
  }

  /** No two exports share a name if and only if the sanitized labels are distinct, none is a step number and none is
      `count`. */
  lemma ExportsIff(steps: seq<WorkflowStep>, letters: Letters)
    ensures Distinct(Exports(Compile(steps, letters))) <==> TagsDistinct(steps, letters) && NoneIsCount(steps, letters)
  {
    hide Distinct, Exports, Compile, TagsDistinct, NoneIsCount, Names, Encoded;
    ExportsCompiled(steps, letters);
    EncodedDistinct(AllNames(steps, letters));
    FixedNames(steps, letters);
    DistinctAround(Names(steps, letters));
    NamesDistinct(steps, letters);
  }

  // ---- calling by name ----------------------------------------------------------------------

  lemma {:induction false} LookupAt(fs: seq<Field>, k: nat, name: Bytes)
    requires Distinct(Exports(fs)) && k < |fs| && fs[k].Function? && name in fs[k].exports
    ensures Lookup(fs, name) == Some(fs[k])
    decreases |fs|
  {
    if k > 0 {
      DistinctParts(ExportsOf(fs[0]), Exports(fs[1..]));
      assert fs[1..][k - 1] == fs[k];
      InExports(fs[1..], k - 1, name);
      LookupAt(fs[1..], k - 1, name);
    }
  }

  lemma {:induction false} InExports(fs: seq<Field>, k: nat, name: Bytes)
    requires k < |fs| && fs[k].Function? && name in fs[k].exports
    ensures name in Exports(fs)
    decreases |fs|
  {
    if k > 0 { InExports(fs[1..], k - 1, name); }
  }

  lemma {:induction false} StepAt(steps: seq<WorkflowStep>, letters: Letters, i: nat)
    requires i < |steps|
    ensures var fs := StepFields(steps, letters);
            |fs| == 2 * |steps| && fs[2 * i + 1] == StepFunction(i, steps[i], letters)
    decreases |steps|
  {
    hide StepFunction, StepSegment;
    var n := |steps| - 1;
    if i < n {
      StepAt(steps[..n], letters, i);
    } else if n > 0 {
      StepAt(steps[..n], letters, 0);
    }
  }

  /** Compilation preserves meaning: each step, called by number or by label, logs exactly its prompt. */
  lemma MeaningPreserved(steps: seq<WorkflowStep>, letters: Letters, i: nat)
    requires PromptsPrintable(steps) && Fits(steps) && InSlots(steps)
    requires TagsDistinct(steps, letters) && NoneIsCount(steps, letters) && i < |steps|
    ensures var fs := Load(Wat(steps, letters));
            && fs.Some? && Instantiate(fs.value).Some?
            && var mem, done := Instantiate(fs.value).value, Some(Machine([0], [Utf8(steps[i].prompt)]));
               && Call(fs.value, mem, Utf8(StepName(i))) == done
               && Call(fs.value, mem, Utf8(LabelName(steps[i], letters))) == done
  {
    hide Load, Wat, Instantiate, StepFields, Distinct, Exports, TagsDistinct, NoneIsCount, Utf8, StepName, LabelName,
         Exec, Lookup;
    LoadIff(steps, letters);
    ExportsIff(steps, letters);
    InSlotsLogs(steps, letters);
    var fs, func := Compile(steps, letters), StepFunction(i, steps[i], letters);
    StepAt(steps, letters, i);
    assert fs[2 * i + 3] == func;
    LookupAt(fs, 2 * i + 3, Utf8(StepName(i)));
    LookupAt(fs, 2 * i + 3, Utf8(LabelName(steps[i], letters)));
    assert Logs(Instantiate(fs).value, i, steps[i], letters);
  }
}
