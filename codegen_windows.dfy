/** The NASM text emitter for Windows targets (Compilador/src/codegen/windows.rs).
    Its operand renderer and local-offset rule are textually the ones of the Unix
    emitter, so `CodegenUnix.OperandText` and `CodegenUnix.LocalOffset` serve both;
    only `Add` is lowered, and the entry point calls a `main_func` the compiler
    never defines. */
module CodegenWindows {
  import opened Ir
  import opened CodegenUnix

  function WindowsInstrText(op: IROp): string {
    match op
    case Add(r, a, b) =>
      "    mov rax, " + OperandText(a) + "\n    add rax, " + OperandText(b) + "\n    mov " + OperandText(r) + ", rax\n"
    case _ => ""
  }

  const WindowsHeader: string := "section .text\n" + "extern printf\n" + "global main\n\n"

  /** The entry point: 40 bytes of shadow space around a call of `main_func`. */
  const WindowsTrailer: string :=
    "main:\n" + "    sub rsp, 40\n" + "    call main_func\n" + "    add rsp, 40\n" + "    ret\n"

  /** Label and frame setup; no stack space is reserved, whatever the locals. */
  function WindowsPrologue(f: IRFunction): string {
    f.name + ":\n" + "    push rbp\n" + "    mov rbp, rsp\n"
  }

  function WindowsInstrsText(code: seq<IROp>): string {
    Concat(code, WindowsInstrText)
  }

  function WindowsFunctionText(f: IRFunction): string {
    WindowsPrologue(f) + WindowsInstrsText(f.instructions) + Epilogue
  }

  function WindowsFunctionsText(fs: seq<IRFunction>): string {
    Concat(fs, WindowsFunctionText)
  }

  /** The whole output of `generate_windows_asm`. */
  function WindowsAsm(p: IRProgram): string {
    WindowsHeader + WindowsFunctionsText(p.functions) + WindowsTrailer
  }

  /** `generate_windows_asm`. */
  method GenerateWindowsAsm(program: IRProgram) returns (output: string)
    ensures output == WindowsAsm(program)
  {
    output := "";
    output := Push3(output, "section .text\n", "extern printf\n", "global main\n\n");
    assert output == WindowsHeader;
    var fs := program.functions;
    var i := 0;
    while i < |fs|
      invariant 0 <= i <= |fs|
      invariant output == WindowsHeader + WindowsFunctionsText(fs[..i])
    {
      output := EmitWindowsFunction(output, fs[i]);
      ConcatSnoc(fs, i, WindowsFunctionText);
      AppendAssoc(WindowsHeader, WindowsFunctionsText(fs[..i]), WindowsFunctionText(fs[i]));
      i := i + 1;
    }
    assert fs[..i] == fs;
    output := EmitWindowsTrailer(output);
  }

  /** The entry-point pushes of `generate_windows_asm`. */
  method EmitWindowsTrailer(before: string) returns (output: string)
    ensures output == before + WindowsTrailer
  {
    output := before;
    output := output + "main:\n";
    output := output + "    sub rsp, 40\n";
    output := output + "    call main_func\n";
    output := output + "    add rsp, 40\n";
    output := output + "    ret\n";
    AppendAssoc(before, "main:\n", "    sub rsp, 40\n");
    AppendAssoc(before, "main:\n" + "    sub rsp, 40\n", "    call main_func\n");
    AppendAssoc(before, "main:\n" + "    sub rsp, 40\n" + "    call main_func\n", "    add rsp, 40\n");
    AppendAssoc(before, "main:\n" + "    sub rsp, 40\n" + "    call main_func\n" + "    add rsp, 40\n", "    ret\n");
  }

  /** The body of the per-function loop of `generate_windows_asm`. */
  method EmitWindowsFunction(before: string, func: IRFunction) returns (output: string)
    ensures output == before + WindowsFunctionText(func)
  {
    output := Push3(before, func.name + ":\n", "    push rbp\n", "    mov rbp, rsp\n");
    output := EmitWindowsInstructions(output, func.instructions);
    output := Push3(output, "    mov rsp, rbp\n", "    pop rbp\n", "    ret\n\n");
    var p, i := WindowsPrologue(func), WindowsInstrsText(func.instructions);
    AppendAssoc(before + p, i, Epilogue);
    AppendAssoc(before, p, i + Epilogue);
    AppendAssoc(p, i, Epilogue);
  }

  method EmitWindowsInstructions(before: string, code: seq<IROp>) returns (output: string)
    ensures output == before + WindowsInstrsText(code)
  {
    output := before;
    ghost var emitted := "";
    var j := 0;
    while j < |code|
      invariant 0 <= j <= |code|
      invariant output == before + emitted
      invariant emitted == WindowsInstrsText(code[..j])
    {
      var piece := WindowsInstrText(code[j]);
      ConcatSnoc(code, j, WindowsInstrText);
      AppendAssoc(before, emitted, piece);
      output := output + piece;
      emitted := emitted + piece;
      j := j + 1;
    }
    assert code[..j] == code;
  }

  // ----- Properties -----

  /** An `Add` is rendered exactly as the Unix emitter renders it; every other
      instruction, `Print` and `Return` included, renders as nothing. */
  lemma WindowsInstrIsUnixAdd(op: IROp)
    ensures WindowsInstrText(op) == (if op.Add? then InstrText(op) else "")
  {
  }

  /** The `Add` instructions of a list, in order. */
  function Adds(code: seq<IROp>): (r: seq<IROp>)
    ensures |r| <= |code|
    ensures forall i :: 0 <= i < |r| ==> r[i].Add? && r[i] in code
  {
    if code == [] then []
    else
      var front := Adds(code[..|code| - 1]);
      var last := code[|code| - 1];
      assert forall x :: x in code[..|code| - 1] ==> x in code;
      if last.Add? then front + [last] else front
  }

  /** The instruction text of a Windows function is the Unix text of its `Add`
      instructions alone. */
  lemma {:induction false} WindowsInstrsAreUnixAdds(code: seq<IROp>)
    ensures WindowsInstrsText(code) == InstrsText(Adds(code))
    decreases |code|
  {
    if code != [] {
      var front := code[..|code| - 1];
      var last := code[|code| - 1];
      WindowsInstrsAreUnixAdds(front);
      if last.Add? {
        InstrsTextAppend(Adds(front), [last]);
        assert [last][..0] == [];
      }
    }
  }

  /** A Windows function reserves no stack: its prologue is the Unix one exactly
      when the function has no locals. */
  lemma WindowsPrologueIgnoresLocals(f: IRFunction)
    ensures WindowsPrologue(f) == Prologue(f) <==> |f.locals| == 0
  {
    if |f.locals| > 0 {
      assert |Prologue(f)| > |WindowsPrologue(f)|;
    }
  }

  /** A user function named `main` yields a `main:` label of its own besides the
      one of the entry point, at two distinct offsets. */
  lemma UserMainDuplicatesEntry(p: IRProgram, k: nat)
    requires k < |p.functions| && p.functions[k].name == "main"
    ensures var at := |WindowsHeader| + |WindowsFunctionsText(p.functions[..k])|;
      OccursAt(WindowsAsm(p), "main:\n", at) &&
      OccursAt(WindowsAsm(p), "main:\n", |WindowsAsm(p)| - |WindowsTrailer|) &&
      at < |WindowsAsm(p)| - |WindowsTrailer|
  {
    var fs := p.functions;
    ConcatPlacement(fs, k, WindowsFunctionText);
    var t := WindowsFunctionText(fs[k]);
    assert t[..6] == "main:\n";
    Framed(WindowsAsm(p), WindowsHeader, WindowsFunctionsText(fs), WindowsTrailer, |WindowsFunctionsText(fs[..k])|, t,
      "main:\n");
    TrailerLead(WindowsAsm(p), WindowsHeader + WindowsFunctionsText(fs), WindowsTrailer, "main:\n");
  }
}
