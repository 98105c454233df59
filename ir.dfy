/** The three-address intermediate representation (Compilador/src/ir/mod.rs). */
module Ir {
  import opened Wrappers
  import opened Ast

  /** An operand: exactly four kinds, a constant carrying a Rust `i64`. */
  datatype IRValue =
    | Const(n: i64)
    | Local(name: string)
    | Global(name: string)
    | Temp(name: string)

  /** One instruction. Every arithmetic and comparison instruction stores its
      operands in the order (result, left, right); labels are referred to by name. */
  datatype IROp =
    | Add(result: IRValue, left: IRValue, right: IRValue)
    | Sub(result: IRValue, left: IRValue, right: IRValue)
    | Mul(result: IRValue, left: IRValue, right: IRValue)
    | Div(result: IRValue, left: IRValue, right: IRValue)
    | CmpEq(result: IRValue, left: IRValue, right: IRValue)
    | CmpLt(result: IRValue, left: IRValue, right: IRValue)
    | Assign(target: IRValue, source: IRValue)
    | Call(callee: string, args: seq<IRValue>, callResult: Option<IRValue>)
    | Label(name: string)
    | Jump(targetLabel: string)
    | JumpIfZero(cond: IRValue, targetLabel: string)
    | JumpIfNotZero(cond: IRValue, targetLabel: string)
    | Return(returned: Option<IRValue>)
    | Print(value: IRValue)
    | Alloc(array: string, size: nat)
    | ArraySet(arr: IRValue, index: IRValue, value: IRValue)
    | ArrayGet(dest: IRValue, arr: IRValue, index: IRValue)
  {
    predicate IsArith() { Add? || Sub? || Mul? || Div? }

    predicate IsJump() { Jump? || JumpIfZero? || JumpIfNotZero? }
  }

  datatype IRFunction = IRFunction(
    name: string,
    params: seq<string>,
    instructions: seq<IROp>,
    locals: map<string, IRValue>)

  datatype IRProgram = IRProgram(functions: seq<IRFunction>, globals: map<string, IRValue>)

  /** The names of the labels an instruction list defines, in order. */
  function DefinedLabels(code: seq<IROp>): seq<string> {
    if code == [] then []
    else (if code[0].Label? then [code[0].name] else []) + DefinedLabels(code[1..])
  }

  /** The labels an instruction list jumps to, in order. */
  function JumpTargets(code: seq<IROp>): seq<string> {
    if code == [] then []
    else (if code[0].IsJump() then [code[0].targetLabel] else []) + JumpTargets(code[1..])
  }

  lemma {:induction false} DefinedLabelsAppend(a: seq<IROp>, b: seq<IROp>)
    ensures DefinedLabels(a + b) == DefinedLabels(a) + DefinedLabels(b)
  {
    if a != [] {
      assert (a + b)[1..] == a[1..] + b;
      DefinedLabelsAppend(a[1..], b);
    } else {
      assert a + b == b;
    }
  }

  lemma {:induction false} JumpTargetsAppend(a: seq<IROp>, b: seq<IROp>)
    ensures JumpTargets(a + b) == JumpTargets(a) + JumpTargets(b)
  {
    if a != [] {
      assert (a + b)[1..] == a[1..] + b;
      JumpTargetsAppend(a[1..], b);
    } else {
      assert a + b == b;
    }
  }

  lemma SingleLabels(op: IROp)
    ensures DefinedLabels([op]) == (if op.Label? then [op.name] else [])
    ensures JumpTargets([op]) == (if op.IsJump() then [op.targetLabel] else [])
  {
    assert [op][1..] == [];
  }

  /** Where an instruction stores its result, if it stores one. */
  function Dest(op: IROp): Option<IRValue> {
    if op.IsArith() || op.CmpEq? || op.CmpLt? then Some(op.result)
    else if op.Assign? then Some(op.target)
    else if op.Call? then op.callResult
    else if op.ArrayGet? then Some(op.dest)
    else None
  }

  /** The temporaries an instruction list writes, in order. */
  function WrittenTemps(code: seq<IROp>): seq<string> {
    if code == [] then []
    else (if Dest(code[0]).Some? && Dest(code[0]).value.Temp? then [Dest(code[0]).value.name] else [])
         + WrittenTemps(code[1..])
  }

  lemma {:induction false} WrittenTempsAppend(a: seq<IROp>, b: seq<IROp>)
    ensures WrittenTemps(a + b) == WrittenTemps(a) + WrittenTemps(b)
  {
    if a != [] {
      assert (a + b)[1..] == a[1..] + b;
      WrittenTempsAppend(a[1..], b);
    } else {
      assert a + b == b;
    }
  }

  lemma SingleWrite(op: IROp)
    ensures WrittenTemps([op]) == (if Dest(op).Some? && Dest(op).value.Temp? then [Dest(op).value.name] else [])
  {
    assert [op][1..] == [];
  }

  predicate NoDuplicates(s: seq<string>) {
    forall i, j :: 0 <= i < j < |s| ==> s[i] != s[j]
  }

  /** Label well-formedness: every label is defined once, and every jump names a
      label defined in the same instruction list. */
  predicate LabelsWellFormed(code: seq<IROp>) {
    NoDuplicates(DefinedLabels(code)) &&
    forall l :: l in JumpTargets(code) ==> l in DefinedLabels(code)
  }
}
