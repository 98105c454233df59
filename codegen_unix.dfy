/** The NASM text emitter for Unix targets (Compilador/src/codegen/unix.rs). The
    per-instruction and per-operand renderers are functions; the program-level
    emitter is a method appending to its output string, proved to produce
    `UnixAsm`. */
module CodegenUnix {
  import opened Wrappers
  import opened Decimal
  import Ast
  import opened Ir

  /** 2^64: `usize` arithmetic wraps modulo this (release-mode behaviour). */
  const USIZE_MODULUS: int := 0x1_0000_0000_0000_0000

  /** `get_local_offset`: the code of the name's last character minus the code
      of `'0'` (an empty name counts as `'0'`), as a wrapping `usize` subtraction. */
  function LocalOffset(name: string): (r: nat)
    ensures r < USIZE_MODULUS
  {
    var last := if name == [] then '0' else name[|name| - 1];
    ((last as int) - ('0' as int)) % USIZE_MODULUS
  }

  /** `get_local_offset(name) * 8`, again wrapping. */
  function SlotBytes(name: string): nat {
    (LocalOffset(name) * 8) % USIZE_MODULUS
  }

  /** `ir_value_to_asm`. */
  function OperandText(v: IRValue): string {
    match v
    case Const(n) => IntToString(n)
    case Local(name) => "[rbp - " + NatToString(SlotBytes(name)) + "]"
    case Global(name) => "[" + name + "]"
    case Temp(_) => "rax"
  }

  /** `generate_instruction`. */
  function InstrText(op: IROp): string {
    match op
    case Add(r, a, b) =>
      "    mov rax, " + OperandText(a) + "\n    add rax, " + OperandText(b) + "\n    mov " + OperandText(r) + ", rax\n"
    case Sub(r, a, b) =>
      "    mov rax, " + OperandText(a) + "\n    sub rax, " + OperandText(b) + "\n    mov " + OperandText(r) + ", rax\n"
    case Mul(r, a, b) =>
      "    mov rax, " + OperandText(a) + "\n    mov rbx, " + OperandText(b) + "\n    imul rax, rbx\n    mov "
      + OperandText(r) + ", rax\n"
    case Div(r, a, b) =>
      "    mov rax, " + OperandText(a) + "\n    mov rbx, " + OperandText(b) + "\n    cqo\n    idiv rbx\n    mov "
      + OperandText(r) + ", rax\n"
    case Assign(t, s) => "    mov rax, " + OperandText(s) + "\n    mov " + OperandText(t) + ", rax\n"
    case Print(v) => "    mov rdi, " + OperandText(v) + "\n    call print_int\n"
    case Label(name) => name + ":\n"
    case Jump(l) => "    jmp " + l + "\n"
    case JumpIfZero(v, l) => "    cmp " + OperandText(v) + ", 0\n    je " + l + "\n"
    case JumpIfNotZero(v, l) => "    cmp " + OperandText(v) + ", 0\n    jne " + l + "\n"
    case Return(r) =>
      if r.Some? then "    mov rax, " + OperandText(r.value) + "\n    mov rsp, rbp\n    pop rbp\n    ret\n"
      else "    mov rsp, rbp\n    pop rbp\n    ret\n"
    case _ => ""
  }

  const Header: string := "section .text\n" + "extern print_int\n" + "global _start\n\n"

  const Epilogue: string := "    mov rsp, rbp\n" + "    pop rbp\n" + "    ret\n\n"

  /** The `_start` entry point: calls `main`, then exits through syscall 60 with status 0. */
  const Trailer: string :=
    "_start:\n" + "    call main\n" + "    mov rax, 60\n" + "    mov rdi, 0\n" + "    syscall\n"

  /** The label and frame setup of a function; stack space is reserved only when
      the function has locals. */
  function Prologue(f: IRFunction): string {
    f.name + ":\n" + "    push rbp\n" + "    mov rbp, rsp\n"
    + (if |f.locals| > 0 then "    sub rsp, " + IntToString(|f.locals| * 8) + "\n" else "")
  }

  /** The texts of the elements of `xs`, concatenated in order. */
  function Concat<T>(xs: seq<T>, render: T -> string): string {
    if xs == [] then "" else Concat(xs[..|xs| - 1], render) + render(xs[|xs| - 1])
  }

  lemma {:induction false} ConcatAppend<T>(a: seq<T>, b: seq<T>, render: T -> string)
    ensures Concat(a + b, render) == Concat(a, render) + Concat(b, render)
    decreases |b|
  {
    if b == [] {
      assert a + b == a;
    } else {
      var n := |b| - 1;
      assert (a + b)[..|a + b| - 1] == a + b[..n];
      assert (a + b)[|a + b| - 1] == b[n];
      ConcatAppend(a, b[..n], render);
    }
  }

  function InstrsText(code: seq<IROp>): string {
    Concat(code, InstrText)
  }

  function FunctionText(f: IRFunction): string {
    Prologue(f) + InstrsText(f.instructions) + Epilogue
  }

  function FunctionsText(fs: seq<IRFunction>): string {
    Concat(fs, FunctionText)
  }

  /** The whole output of `generate_unix_asm`. */
  function UnixAsm(p: IRProgram): string {
    Header + FunctionsText(p.functions) + Trailer
  }

  /** `generate_unix_asm`. */
  method GenerateUnixAsm(program: IRProgram) returns (output: string)
    ensures output == UnixAsm(program)
  {
    output := "";
    output := Push3(output, "section .text\n", "extern print_int\n", "global _start\n\n");
    assert output == Header;
    var fs := program.functions;
    var i := 0;
    while i < |fs|
      invariant 0 <= i <= |fs|
      invariant output == Header + FunctionsText(fs[..i])
    {
      output := EmitFunction(output, fs[i]);
      ConcatSnoc(fs, i, FunctionText);
      AppendAssoc(Header, FunctionsText(fs[..i]), FunctionText(fs[i]));
      i := i + 1;
    }
    assert fs[..i] == fs;
    output := EmitTrailer(output);
  }

  /** The `_start` pushes of `generate_unix_asm`. */
  method EmitTrailer(before: string) returns (output: string)
    ensures output == before + Trailer
  {
    output := before;
    output := output + "_start:\n";
    output := output + "    call main\n";
    output := output + "    mov rax, 60\n";
    output := output + "    mov rdi, 0\n";
    output := output + "    syscall\n";
    AppendAssoc(before, "_start:\n", "    call main\n");
    AppendAssoc(before, "_start:\n" + "    call main\n", "    mov rax, 60\n");
    AppendAssoc(before, "_start:\n" + "    call main\n" + "    mov rax, 60\n", "    mov rdi, 0\n");
    AppendAssoc(before, "_start:\n" + "    call main\n" + "    mov rax, 60\n" + "    mov rdi, 0\n", "    syscall\n");
  }

  /** Three pushes in a row, as one append. */
  method Push3(before: string, a: string, b: string, c: string) returns (output: string)
    ensures output == before + (a + b + c)
  {
    output := before;
    output := output + a;
    output := output + b;
    output := output + c;
    AppendAssoc(before, a, b);
    AppendAssoc(before, a + b, c);
  }

  /** The body of the per-function loop of `generate_unix_asm`. */
  method EmitFunction(before: string, func: IRFunction) returns (output: string)
    ensures output == before + FunctionText(func)
  {
    output := EmitPrologue(before, func);
    output := EmitInstructions(output, func.instructions);
    output := Push3(output, "    mov rsp, rbp\n", "    pop rbp\n", "    ret\n\n");
    var p, i := Prologue(func), InstrsText(func.instructions);
    AppendAssoc(before + p, i, Epilogue);
    AppendAssoc(before, p, i + Epilogue);
    AppendAssoc(p, i, Epilogue);
  }

  method EmitPrologue(before: string, func: IRFunction) returns (output: string)
    ensures output == before + Prologue(func)
  {
    output := Push3(before, func.name + ":\n", "    push rbp\n", "    mov rbp, rsp\n");
    var localCount := |func.locals|;
    var reserve := "";
    if localCount > 0 {
      reserve := "    sub rsp, " + IntToString(localCount * 8) + "\n";
      output := output + reserve;
    }
    AppendAssoc(before, func.name + ":\n" + "    push rbp\n" + "    mov rbp, rsp\n", reserve);
  }

  /** The instruction loop: one `generate_instruction` text per instruction, in order. */
  method EmitInstructions(before: string, code: seq<IROp>) returns (output: string)
    ensures output == before + InstrsText(code)
  {
    output := before;
    ghost var emitted := "";
    var j := 0;
    while j < |code|
      invariant 0 <= j <= |code|
      invariant output == before + emitted
      invariant emitted == InstrsText(code[..j])
    {
      var piece := InstrText(code[j]);
      InstrsTextSnoc(code, j, piece);
      AppendAssoc(before, emitted, piece);
      output := output + piece;
      emitted := emitted + piece;
      j := j + 1;
    }
    assert code[..j] == code;
  }

  lemma AppendAssoc(a: string, b: string, c: string)
    ensures (a + b) + c == a + (b + c)
  {
  }

  lemma InstrsTextSnoc(code: seq<IROp>, j: nat, piece: string)
    requires j < |code| && piece == InstrText(code[j])
    ensures InstrsText(code[..j + 1]) == InstrsText(code[..j]) + piece
  {
    ConcatSnoc(code, j, InstrText);
  }

  lemma ConcatSnoc<T>(xs: seq<T>, i: nat, render: T -> string)
    requires i < |xs|
    ensures Concat(xs[..i + 1], render) == Concat(xs[..i], render) + render(xs[i])
  {
    assert xs[..i + 1][..i] == xs[..i];
  }

  // ----- Properties -----

  /** Functions are emitted one after another in program order. */
  lemma FunctionsTextAppend(a: seq<IRFunction>, b: seq<IRFunction>)
    ensures FunctionsText(a + b) == FunctionsText(a) + FunctionsText(b)
  {
    ConcatAppend(a, b, FunctionText);
  }

  lemma InstrsTextAppend(a: seq<IROp>, b: seq<IROp>)
    ensures InstrsText(a + b) == InstrsText(a) + InstrsText(b)
  {
    ConcatAppend(a, b, InstrText);
  }

  /** `piece` sits in `text` at offset `at`. */
  predicate OccursAt(text: string, piece: string, at: nat) {
    at + |piece| <= |text| && text[at..at + |piece|] == piece
  }

  /** The `k`-th element's text sits in the concatenation right after the texts
      of the elements before it. */
  lemma ConcatPlacement<T>(xs: seq<T>, k: nat, render: T -> string)
    requires k < |xs|
    ensures OccursAt(Concat(xs, render), render(xs[k]), |Concat(xs[..k], render)|)
  {
    var front, back := xs[..k + 1], xs[k + 1..];
    assert xs == front + back;
    ConcatAppend(front, back, render);
    ConcatSnoc(xs, k, render);
    var a, b, c := Concat(xs[..k], render), render(xs[k]), Concat(back, render);
    assert Concat(xs, render) == a + b + c;
    assert (a + b + c)[|a|..|a| + |b|] == b;
  }

  /** The output starts with the header and ends with the `_start` trailer. */
  lemma UnixFrame(p: IRProgram)
    ensures UnixAsm(p)[..|Header|] == Header
    ensures UnixAsm(p)[|UnixAsm(p)| - |Trailer|..] == Trailer
  {
  }

  /** Every function's text, label first, sits between header and trailer right
      after the texts of the functions before it: functions appear in program order. */
  lemma UnixFunctionPlacement(p: IRProgram, k: nat)
    requires k < |p.functions|
    ensures var f := p.functions[k];
      var off := |Header| + |FunctionsText(p.functions[..k])|;
      off + |FunctionText(f)| <= |UnixAsm(p)| - |Trailer| &&
      OccursAt(UnixAsm(p), FunctionText(f), off) &&
      OccursAt(UnixAsm(p), f.name + ":\n", off)
  {
    var fs := p.functions;
    ConcatPlacement(fs, k, FunctionText);
    FunctionLabelFirst(fs[k]);
    Framed(UnixAsm(p), Header, FunctionsText(fs), Trailer, |FunctionsText(fs[..k])|, FunctionText(fs[k]),
      fs[k].name + ":\n");
  }

  lemma FunctionLabelFirst(f: IRFunction)
    ensures |f.name| + 2 <= |FunctionText(f)| && FunctionText(f)[..|f.name| + 2] == f.name + ":\n"
  {
  }

  /** Slicing through a text framed by a header and a trailer. */
  lemma Framed(out: string, header: string, body: string, trailer: string, off: nat, piece: string, lead: string)
    requires out == header + body + trailer
    requires OccursAt(body, piece, off)
    requires |lead| <= |piece| && piece[..|lead|] == lead
    ensures |header| + off + |piece| <= |out| - |trailer|
    ensures OccursAt(out, piece, |header| + off) && OccursAt(out, lead, |header| + off)
  {
    assert out[|header| + off..|header| + off + |piece|] == body[off..off + |piece|];
    assert out[|header| + off..|header| + off + |lead|] == piece[..|lead|];
  }

  /** The start of the trailer sits at the end of the framed text. */
  lemma TrailerLead(out: string, front: string, trailer: string, lead: string)
    requires out == front + trailer
    requires |lead| <= |trailer| && trailer[..|lead|] == lead
    ensures OccursAt(out, lead, |out| - |trailer|)
  {
    assert out[|front|..|front| + |lead|] == trailer[..|lead|];
  }

  /** Comparisons, calls and the array instructions are the ones that emit
      nothing; every other instruction emits some text. */
  lemma InstrTextEmptyIff(op: IROp)
    ensures InstrText(op) == "" <==>
      op.CmpEq? || op.CmpLt? || op.Call? || op.Alloc? || op.ArraySet? || op.ArrayGet?
  {
    if op.Label? {
      assert |InstrText(op)| == |op.name| + 2;
    }
  }

  /** Where an operand's text says the value lives. */
  datatype Storage = Immediate(n: int) | Slot(bytes: nat) | Memory(symbol: string) | Accumulator

  function StorageOf(v: IRValue): Storage {
    match v
    case Const(n) => Immediate(n)
    case Local(name) => Slot(SlotBytes(name))
    case Global(name) => Memory(name)
    case Temp(_) => Accumulator
  }

  /** A symbol that cannot be mistaken for a stack slot. */
  predicate PlainSymbol(v: IRValue) {
    v.Global? ==> forall i :: 0 <= i < |v.name| ==> v.name[i] != ' '
  }

  lemma IntTextStart(n: int)
    ensures IntToString(n)[0] == '-' || IsDigit(IntToString(n)[0])
  {
  }

  /** Operand rendering is faithful to exactly the storage: two operands (with
      plain global symbols) render the same iff they denote the same storage.
      So every `Temp` is `rax`, and two locals collide iff their slots do. */
  lemma OperandTextFaithful(v: IRValue, w: IRValue)
    requires PlainSymbol(v) && PlainSymbol(w)
    ensures OperandText(v) == OperandText(w) <==> StorageOf(v) == StorageOf(w)
  {
    LeadChar(v);
    LeadChar(w);
    match (v, w)
    case (Const(a), Const(b)) => IntToStringInjective(a, b);
    case (Local(a), Local(b)) => SlotTextInjective(SlotBytes(a), SlotBytes(b));
    case (Local(a), Global(b)) => SlotIsNotSymbol(SlotBytes(a), b);
    case (Global(a), Local(b)) => SlotIsNotSymbol(SlotBytes(b), a);
    case (Global(a), Global(b)) => SymbolTextInjective(a, b);
    case (Temp(_), Temp(_)) =>
    case _ =>
      assert OperandText(v)[0] != OperandText(w)[0];
  }

  /** The first character of an operand's text tells constants, memory
      operands and `rax` apart. */
  lemma LeadChar(v: IRValue)
    ensures |OperandText(v)| > 0
    ensures v.Const? ==> OperandText(v)[0] == '-' || IsDigit(OperandText(v)[0])
    ensures v.Local? || v.Global? ==> OperandText(v)[0] == '['
    ensures v.Temp? ==> OperandText(v)[0] == 'r'
  {
    if v.Const? {
      IntTextStart(v.n);
    }
  }

  lemma SlotTextInjective(a: nat, b: nat)
    ensures "[rbp - " + NatToString(a) + "]" == "[rbp - " + NatToString(b) + "]" <==> a == b
  {
    var t, u := "[rbp - " + NatToString(a) + "]", "[rbp - " + NatToString(b) + "]";
    if t == u {
      assert t[7..|t| - 1] == NatToString(a);
      assert u[7..|u| - 1] == NatToString(b);
      ParseNatRoundTrip(a, NatToString(b));
    }
  }

  lemma SymbolTextInjective(a: string, b: string)
    ensures "[" + a + "]" == "[" + b + "]" <==> a == b
  {
    var t, u := "[" + a + "]", "[" + b + "]";
    if t == u {
      assert t[1..|t| - 1] == a;
      assert u[1..|u| - 1] == b;
    }
  }

  lemma SlotIsNotSymbol(bytes: nat, symbol: string)
    requires forall i :: 0 <= i < |symbol| ==> symbol[i] != ' '
    ensures "[rbp - " + NatToString(bytes) + "]" != "[" + symbol + "]"
  {
    var slot, text := "[rbp - " + NatToString(bytes) + "]", "[" + symbol + "]";
    assert slot[4] == ' ';
    if |text| == |slot| {
      assert text[4] == symbol[3];
    }
  }

  /** Locals whose names end in the same character share a slot. */
  lemma LocalSlotFromLastChar(a: string, b: string)
    requires a != [] && b != [] && a[|a| - 1] == b[|b| - 1]
    ensures OperandText(Local(a)) == OperandText(Local(b))
  {
  }

  /** A name ending in the digit `d` gets the slot `8 * d`. */
  lemma DigitLocalSlot(name: string)
    requires name != [] && IsDigit(name[|name| - 1])
    ensures SlotBytes(name) == 8 * DigitValue(name[|name| - 1])
  {
  }

  /** A last character below `'0'` makes the subtraction wrap around. */
  lemma LocalOffsetWraps(name: string)
    requires name != [] && name[|name| - 1] < '0'
    ensures LocalOffset(name) == USIZE_MODULUS + (name[|name| - 1] as int) - ('0' as int)
  {
  }

  /** The text of a constant reads back as the constant. */
  lemma ConstTextRoundTrip(n: Ast.i64)
    ensures ParseInt(OperandText(Const(n))) == Some(n as int)
  {
    IntToStringRoundTrip(n);
  }
}
