/** The optimizer (Compilador/src/optimizer/mod.rs): four passes over each
    function's instruction list. Each pass is a method that rewrites the list
    the way the source does, proved equal to a function of the old list; the
    properties of the passes are lemmas about those functions. */
module Optimizer {
  import opened Wrappers
  import Ast
  import opened Ir

  // ----- constant_propagation -----

  /** An `Add` or `Sub` of two constants into a temporary: the only instructions
      constant propagation rewrites. */
  predicate Foldable(op: IROp) {
    (op.Add? || op.Sub?) && op.left.Const? && op.right.Const? && op.result.Temp?
  }

  function FoldedValue(op: IROp): int
    requires Foldable(op)
  {
    if op.Add? then op.left.n + op.right.n else op.left.n - op.right.n
  }

  /** The folded constant is again an `i64` (Rust's `a + b` on `i64` would
      otherwise overflow). */
  predicate FoldFits(op: IROp) {
    Foldable(op) ==> Ast.I64_MIN <= FoldedValue(op) <= Ast.I64_MAX
  }

  predicate AllFoldFit(code: seq<IROp>) {
    forall i :: 0 <= i < |code| ==> FoldFits(code[i])
  }

  /** What constant propagation makes of one instruction. */
  function Fold(op: IROp): (r: IROp)
    requires FoldFits(op)
  {
    if Foldable(op) then Assign(op.result, Const(FoldedValue(op))) else op
  }

  function FoldAll(code: seq<IROp>): (r: seq<IROp>)
    requires AllFoldFit(code)
    ensures |r| == |code| && forall i :: 0 <= i < |code| ==> r[i] == Fold(code[i])
  {
    if code == [] then [] else FoldAll(code[..|code| - 1]) + [Fold(code[|code| - 1])]
  }

  /** `constant_propagation`: rewrites every foldable `Add`/`Sub` in place into an
      assignment of the folded constant; the instruction count does not change. */
  method ConstantPropagation(f: IRFunction) returns (g: IRFunction)
    requires AllFoldFit(f.instructions)
    ensures g == f.(instructions := FoldAll(f.instructions))
  {
    var code := f.instructions;
    var i := 0;
    while i < |code|
      invariant 0 <= i <= |code| == |f.instructions|
      invariant forall k :: 0 <= k < i ==> code[k] == Fold(f.instructions[k])
      invariant forall k :: i <= k < |code| ==> code[k] == f.instructions[k]
    {
      match code[i] {
        case Add(result, left, right) =>
          if left.Const? && right.Const? && result.Temp? {
            code := code[i := Assign(result, Const(left.n + right.n))];
          }
        case Sub(result, left, right) =>
          if left.Const? && right.Const? && result.Temp? {
            code := code[i := Assign(result, Const(left.n - right.n))];
          }
        case _ =>
      }
      i := i + 1;
    }
    g := f.(instructions := code);
  }

  /** Folding rewrites an instruction exactly when it is foldable; in particular a
      `Mul`, a `Div`, or an `Add`/`Sub` into a non-temporary is never folded. */
  lemma FoldChangesExactlyFoldable(op: IROp)
    requires FoldFits(op)
    ensures Fold(op) != op <==> Foldable(op)
    ensures op.Mul? || op.Div? || (op.IsArith() && !op.result.Temp?) ==> Fold(op) == op
    ensures Foldable(op) ==> Fold(op) == Assign(op.result, Const(FoldedValue(op)))
  {
  }

  /** Folding twice is folding once. */
  lemma {:induction false} FoldAllIdempotent(code: seq<IROp>)
    requires AllFoldFit(code)
    ensures AllFoldFit(FoldAll(code)) && FoldAll(FoldAll(code)) == FoldAll(code)
  {
    var once := FoldAll(code);
    assert forall i :: 0 <= i < |once| ==> !Foldable(once[i]);
    var twice := FoldAll(once);
    assert forall i :: 0 <= i < |once| ==> twice[i] == once[i];
  }

  // A reference semantics for the straight-line arithmetic fragment, to state
  // that folding does not change what the code computes.

  type Store = map<IRValue, int>

  function Eval(v: IRValue, s: Store): int {
    if v.Const? then v.n else if v in s then s[v] else 0
  }

  /** Rust's `/` on integers: truncation toward zero. */
  function TruncDiv(a: int, b: int): int
    requires b != 0
  {
    var q := (if a < 0 then -a else a) / (if b < 0 then -b else b);
    if (a < 0) == (b < 0) then q else -q
  }

  /** One instruction of the fragment; `None` for a division by zero (a panic) and
      for every instruction outside the fragment. */
  function Exec(op: IROp, s: Store): Option<Store> {
    match op
    case Add(r, a, b) => Some(s[r := Eval(a, s) + Eval(b, s)])
    case Sub(r, a, b) => Some(s[r := Eval(a, s) - Eval(b, s)])
    case Mul(r, a, b) => Some(s[r := Eval(a, s) * Eval(b, s)])
    case Div(r, a, b) => if Eval(b, s) == 0 then None else Some(s[r := TruncDiv(Eval(a, s), Eval(b, s))])
    case Assign(t, v) => Some(s[t := Eval(v, s)])
    case _ => None
  }

  function Run(code: seq<IROp>, s: Store): Option<Store> {
    if code == [] then Some(s)
    else match Run(code[..|code| - 1], s)
      case None => None
      case Some(s') => Exec(code[|code| - 1], s')
  }

  /** Constant propagation preserves the meaning of straight-line code. */
  lemma {:induction false} FoldAllPreservesRun(code: seq<IROp>, s: Store)
    requires AllFoldFit(code)
    ensures Run(FoldAll(code), s) == Run(code, s)
  {
    if code != [] {
      var n := |code| - 1;
      FoldAllPreservesRun(code[..n], s);
      assert FoldAll(code)[..n] == FoldAll(code[..n]);
      match Run(code[..n], s) {
        case None =>
        case Some(s') =>
          var op := code[n];
          if Foldable(op) {
            assert Exec(Fold(op), s') == Some(s'[op.result := FoldedValue(op)]);
          }
      }
    }
  }

  // ----- dead_code_elimination -----

  function ValueTemps(v: IRValue): set<string> {
    if v.Temp? then {v.name} else {}
  }

  function ValueGlobals(v: IRValue): set<string> {
    if v.Global? then {v.name} else {}
  }

  /** The temporaries the marking loop counts as read by one instruction: the
      operand of `Print` and `Return(Some)`, and both operands of arithmetic.
      Reads by `Assign`, comparisons, jumps, calls and array instructions are not
      counted. */
  function ReadTemps(op: IROp): set<string> {
    if op.Print? then ValueTemps(op.value)
    else if op.Return? && op.returned.Some? then ValueTemps(op.returned.value)
    else if op.IsArith() then ValueTemps(op.left) + ValueTemps(op.right)
    else {}
  }

  function ReadGlobals(op: IROp): set<string> {
    if op.Print? then ValueGlobals(op.value)
    else if op.Return? && op.returned.Some? then ValueGlobals(op.returned.value)
    else if op.IsArith() then ValueGlobals(op.left) + ValueGlobals(op.right)
    else {}
  }

  function UsedTemps(code: seq<IROp>): set<string> {
    if code == [] then {} else UsedTemps(code[..|code| - 1]) + ReadTemps(code[|code| - 1])
  }

  function UsedGlobals(code: seq<IROp>): set<string> {
    if code == [] then {} else UsedGlobals(code[..|code| - 1]) + ReadGlobals(code[|code| - 1])
  }

  /** A temporary is used exactly when some instruction reads it. */
  lemma {:induction false} UsedTempsMembership(code: seq<IROp>, t: string)
    ensures t in UsedTemps(code) <==> exists i :: 0 <= i < |code| && t in ReadTemps(code[i])
  {
    if code != [] {
      var n := |code| - 1;
      UsedTempsMembership(code[..n], t);
      if t in UsedTemps(code[..n]) {
        var i :| 0 <= i < n && t in ReadTemps(code[..n][i]);
        assert code[i] == code[..n][i];
      }
      if exists i :: 0 <= i < |code| && t in ReadTemps(code[i]) {
        var i :| 0 <= i < |code| && t in ReadTemps(code[i]);
        if i < n {
          assert code[..n][i] == code[i];
        }
      }
    }
  }

  /** The retain predicate: an arithmetic instruction into a temporary survives
      only if that temporary is used; everything else survives. */
  predicate Kept(op: IROp, used: set<string>) {
    op.IsArith() && op.result.Temp? ==> op.result.name in used
  }

  function Retain(code: seq<IROp>, used: set<string>): (r: seq<IROp>)
    ensures |r| <= |code|
    ensures forall x :: x in r ==> x in code && Kept(x, used)
  {
    if code == [] then []
    else
      var front := Retain(code[..|code| - 1], used);
      if Kept(code[|code| - 1], used) then front + [code[|code| - 1]] else front
  }

  /** `mark_used`: adds the operand's name to the temp or global set it belongs to. */
  method MarkUsed(value: IRValue, temps: set<string>, globals: set<string>)
    returns (temps': set<string>, globals': set<string>)
    ensures temps' == temps + ValueTemps(value) && globals' == globals + ValueGlobals(value)
  {
    temps', globals' := temps, globals;
    match value {
      case Temp(name) => temps' := temps' + {name};
      case Global(name) => globals' := globals' + {name};
      case _ =>
    }
  }

  /** One iteration of the marking loop of `dead_code_elimination`. */
  method MarkInstruction(op: IROp, temps: set<string>, globals: set<string>)
    returns (temps': set<string>, globals': set<string>)
    ensures temps' == temps + ReadTemps(op) && globals' == globals + ReadGlobals(op)
  {
    temps', globals' := temps, globals;
    match op {
      case Print(value) =>
        temps', globals' := MarkUsed(value, temps', globals');
      case Return(returned) =>
        if returned.Some? {
          temps', globals' := MarkUsed(returned.value, temps', globals');
        }
      case Add(_, left, right) =>
        temps', globals' := MarkUsed(left, temps', globals');
        temps', globals' := MarkUsed(right, temps', globals');
      case Sub(_, left, right) =>
        temps', globals' := MarkUsed(left, temps', globals');
        temps', globals' := MarkUsed(right, temps', globals');
      case Mul(_, left, right) =>
        temps', globals' := MarkUsed(left, temps', globals');
        temps', globals' := MarkUsed(right, temps', globals');
      case Div(_, left, right) =>
        temps', globals' := MarkUsed(left, temps', globals');
        temps', globals' := MarkUsed(right, temps', globals');
      case _ =>
    }
  }

  /** `dead_code_elimination`: marks the temporaries read anywhere in the list,
      then retains the instructions that are kept. */
  method DeadCodeElimination(f: IRFunction) returns (g: IRFunction)
    ensures g == f.(instructions := Retain(f.instructions, UsedTemps(f.instructions)))
    ensures var used := UsedTemps(f.instructions);
      forall x :: multiset(g.instructions)[x] == (if Kept(x, used) then multiset(f.instructions)[x] else 0)
    ensures IsSubsequence(g.instructions, f.instructions)
  {
    var usedTemps, usedGlobals := MarkAll(f.instructions);
    var retained := RetainUsed(f.instructions, usedTemps);
    g := f.(instructions := retained);
    forall x {
      RetainCount(f.instructions, usedTemps, x);
    }
    RetainIsSubsequence(f.instructions, usedTemps);
  }

  /** The marking loop of `dead_code_elimination`. */
  method MarkAll(code: seq<IROp>) returns (usedTemps: set<string>, usedGlobals: set<string>)
    ensures usedTemps == UsedTemps(code) && usedGlobals == UsedGlobals(code)
  {
    usedTemps, usedGlobals := {}, {};
    var i := 0;
    while i < |code|
      invariant 0 <= i <= |code|
      invariant usedTemps == UsedTemps(code[..i]) && usedGlobals == UsedGlobals(code[..i])
    {
      assert code[..i + 1][..i] == code[..i];
      usedTemps, usedGlobals := MarkInstruction(code[i], usedTemps, usedGlobals);
      i := i + 1;
    }
    assert code[..i] == code;
  }

  /** The `retain` of `dead_code_elimination`. */
  method RetainUsed(code: seq<IROp>, usedTemps: set<string>) returns (retained: seq<IROp>)
    ensures retained == Retain(code, usedTemps)
  {
    retained := [];
    var i := 0;
    while i < |code|
      invariant 0 <= i <= |code|
      invariant retained == Retain(code[..i], usedTemps)
    {
      assert code[..i + 1][..i] == code[..i];
      var keep := true;
      if code[i].IsArith() && code[i].result.Temp? {
        keep := code[i].result.name in usedTemps;
      }
      if keep {
        retained := retained + [code[i]];
      }
      i := i + 1;
    }
    assert code[..i] == code;
  }

  /** `a` is `b` with some elements deleted, the rest in their order. */
  predicate IsSubsequence(a: seq<IROp>, b: seq<IROp>)
    decreases |b|
  {
    if a == [] then true
    else if b == [] then false
    else if a[|a| - 1] == b[|b| - 1] then IsSubsequence(a[..|a| - 1], b[..|b| - 1])
    else IsSubsequence(a, b[..|b| - 1])
  }

  lemma {:induction false} EmptyIsSubsequence(b: seq<IROp>)
    ensures IsSubsequence([], b)
  {
  }

  /** Dead-code elimination keeps an order-preserving subsequence. */
  lemma {:induction false} RetainIsSubsequence(code: seq<IROp>, used: set<string>)
    ensures IsSubsequence(Retain(code, used), code)
  {
    if code != [] {
      var n := |code| - 1;
      RetainIsSubsequence(code[..n], used);
      if Kept(code[n], used) {
        assert Retain(code, used)[..|Retain(code, used)| - 1] == Retain(code[..n], used);
      } else if Retain(code, used) != [] {
        RetainLastIsKeptPrefix(code, used);
      }
    }
  }

  lemma RetainLastIsKeptPrefix(code: seq<IROp>, used: set<string>)
    requires code != [] && !Kept(code[|code| - 1], used)
    ensures Retain(code, used) == Retain(code[..|code| - 1], used)
  {
  }

  /** The instructions dead-code elimination can never delete. */
  function NonArithmetic(code: seq<IROp>): seq<IROp> {
    if code == [] then []
    else NonArithmetic(code[..|code| - 1]) + (if code[|code| - 1].IsArith() then [] else [code[|code| - 1]])
  }

  /** Every non-arithmetic instruction survives, in order and with its multiplicity. */
  lemma {:induction false} RetainKeepsNonArithmetic(code: seq<IROp>, used: set<string>)
    ensures NonArithmetic(Retain(code, used)) == NonArithmetic(code)
  {
    if code != [] {
      var n := |code| - 1;
      RetainKeepsNonArithmetic(code[..n], used);
      var front := Retain(code[..n], used);
      if Kept(code[n], used) {
        assert (front + [code[n]])[..|front|] == front;
      }
    }
  }

  /** Dead-code elimination leaves a list unchanged exactly when every
      instruction in it is kept. */
  lemma {:induction false} RetainUnchangedIff(code: seq<IROp>, used: set<string>)
    ensures Retain(code, used) == code <==> forall i :: 0 <= i < |code| ==> Kept(code[i], used)
  {
    if code != [] {
      var n := |code| - 1;
      RetainUnchangedIff(code[..n], used);
      if Retain(code, used) == code {
        assert Kept(code[n], used);
        assert Retain(code[..n], used) == code[..n];
      }
      if forall i :: 0 <= i < |code| ==> Kept(code[i], used) {
        assert forall i :: 0 <= i < n ==> Kept(code[..n][i], used);
      }
    }
  }

  /** Dead-code elimination is a filter: an instruction occurs in the output as
      often as in the input when it is kept, and not at all otherwise. */
  lemma {:induction false} RetainCount(code: seq<IROp>, used: set<string>, x: IROp)
    ensures multiset(Retain(code, used))[x] == if Kept(x, used) then multiset(code)[x] else 0
  {
    if code != [] {
      var n := |code| - 1;
      RetainCount(code[..n], used, x);
      assert code == code[..n] + [code[n]];
      assert multiset(code) == multiset(code[..n]) + multiset{code[n]};
    }
  }

  /** An instruction survives exactly when it is kept: only an arithmetic
      instruction into a temporary that nothing reads is deleted. */
  lemma RetainKeepsKept(code: seq<IROp>, used: set<string>)
    ensures forall i :: 0 <= i < |code| ==> (code[i] in Retain(code, used) <==> Kept(code[i], used))
  {
    forall i | 0 <= i < |code|
      ensures code[i] in Retain(code, used) <==> Kept(code[i], used)
    {
      RetainCount(code, used, code[i]);
      assert code[i] in multiset(code);
    }
  }

  lemma {:induction false} UsedTempsAppend(a: seq<IROp>, b: seq<IROp>)
    ensures UsedTemps(a + b) == UsedTemps(a) + UsedTemps(b)
    decreases |b|
  {
    if b == [] {
      assert a + b == a;
    } else {
      var n := |b| - 1;
      assert (a + b)[..|a + b| - 1] == a + b[..n];
      UsedTempsAppend(a, b[..n]);
    }
  }

  /** Reads by `Assign` do not count: an `Add` whose temporary only an `Assign`
      reads is deleted, wherever it stands, although the assigned variable may
      be printed later. */
  lemma DeadCodeIgnoresAssignReads(pre: seq<IROp>, post: seq<IROp>, t: string,
                                   left: IRValue, right: IRValue, target: IRValue)
    requires t !in UsedTemps(pre) && t !in UsedTemps(post)
    requires left != Temp(t) && right != Temp(t)
    ensures var code := pre + [Add(Temp(t), left, right), Assign(target, Temp(t))] + post;
      Add(Temp(t), left, right) !in Retain(code, UsedTemps(code))
  {
    var add, assign := Add(Temp(t), left, right), Assign(target, Temp(t));
    var code := pre + [add, assign] + post;
    var used := UsedTemps(code);
    assert t !in used by {
      UsedTempsPair(add, assign);
      UsedTempsAppend(pre, [add, assign]);
      UsedTempsAppend(pre + [add, assign], post);
    }
    assert !Kept(add, used);
  }

  lemma UsedTempsPair(a: IROp, b: IROp)
    ensures UsedTemps([a, b]) == ReadTemps(a) + ReadTemps(b)
  {
    assert [a, b][..1] == [a] && [a][..0] == [];
    assert UsedTemps([a]) == ReadTemps(a);
    assert UsedTemps([a, b]) == UsedTemps([a]) + ReadTemps(b);
  }

  // ----- common_subexpression_elimination -----

  /** An `Add` of `left` and `right`, in this order, into a temporary. */
  predicate IsAddOf(op: IROp, left: IRValue, right: IRValue) {
    op.Add? && op.left == left && op.right == right && op.result.Temp?
  }

  /** The `expressions` table after scanning `code`: each operand pair maps to the
      result of its first `Add` into a temporary. */
  function AddTable(code: seq<IROp>): map<(IRValue, IRValue), IRValue> {
    if code == [] then map[]
    else
      AddStep(AddTable(code[..|code| - 1]), code[|code| - 1])
  }

  /** The table after one more instruction. */
  function AddStep(t: map<(IRValue, IRValue), IRValue>, op: IROp): map<(IRValue, IRValue), IRValue> {
    if op.Add? && (op.left, op.right) !in t && op.result.Temp? then t[(op.left, op.right) := op.result] else t
  }

  /** What the pass makes of one instruction, given the table built so far. */
  function CseOp(op: IROp, table: map<(IRValue, IRValue), IRValue>): IROp {
    if op.Add? && (op.left, op.right) in table && op.result.Temp? then Assign(op.result, table[(op.left, op.right)])
    else op
  }

  function CseAll(code: seq<IROp>): (r: seq<IROp>)
    ensures |r| == |code|
  {
    if code == [] then []
    else CseAll(code[..|code| - 1]) + [CseOp(code[|code| - 1], AddTable(code[..|code| - 1]))]
  }

  /** `common_subexpression_elimination`: rewrites, in place, every `Add` into a
      temporary whose operand pair an earlier `Add` computed. */
  method CommonSubexpressionElimination(f: IRFunction) returns (g: IRFunction)
    ensures g == f.(instructions := CseAll(f.instructions))
  {
    var code := f.instructions;
    var expressions: map<(IRValue, IRValue), IRValue> := map[];
    var i := 0;
    while i < |code|
      invariant 0 <= i <= |code| == |f.instructions|
      invariant expressions == AddTable(f.instructions[..i])
      invariant code[..i] == CseAll(f.instructions[..i]) && code[i..] == f.instructions[i..]
    {
      assert f.instructions[..i + 1][..i] == f.instructions[..i];
      assert code[i] == f.instructions[i];
      ghost var before := code;
      var op;
      op, expressions := CseInstruction(code[i], expressions);
      code := code[i := op];
      assert code[..i] == before[..i];
      assert code[i + 1..] == before[i + 1..];
      i := i + 1;
    }
    assert code == code[..i];
    assert f.instructions[..i] == f.instructions;
    g := f.(instructions := code);
  }

  /** The loop body of `common_subexpression_elimination` on one instruction. */
  method CseInstruction(op: IROp, expressions: map<(IRValue, IRValue), IRValue>)
    returns (op': IROp, expressions': map<(IRValue, IRValue), IRValue>)
    ensures op' == CseOp(op, expressions) && expressions' == AddStep(expressions, op)
  {
    op', expressions' := op, expressions;
    if op.Add? {
      var key := (op.left, op.right);
      if key in expressions {
        if op.result.Temp? {
          op' := Assign(op.result, expressions[key]);
        }
      } else {
        if op.result.Temp? {
          expressions' := expressions[key := op.result];
        }
      }
    }
  }

  /** The table maps a pair exactly when some `Add` of that pair into a temporary
      occurs, and then to the result of the first one. */
  lemma {:induction false} AddTableFirst(code: seq<IROp>, left: IRValue, right: IRValue)
    ensures (left, right) in AddTable(code) <==> exists j :: 0 <= j < |code| && IsAddOf(code[j], left, right)
    ensures (left, right) in AddTable(code) ==>
      (exists j :: 0 <= j < |code| && IsAddOf(code[j], left, right) &&
         AddTable(code)[(left, right)] == code[j].result &&
         forall k :: 0 <= k < j ==> !IsAddOf(code[k], left, right))
  {
    if code != [] {
      var n := |code| - 1;
      AddTableFirst(code[..n], left, right);
      if (left, right) in AddTable(code[..n]) {
        var j :| 0 <= j < n && IsAddOf(code[..n][j], left, right) &&
          AddTable(code[..n])[(left, right)] == code[..n][j].result &&
          forall k :: 0 <= k < j ==> !IsAddOf(code[..n][k], left, right);
        assert code[j] == code[..n][j];
        assert forall k :: 0 <= k < j ==> code[k] == code[..n][k];
      } else {
        assert forall k :: 0 <= k < n ==> code[k] == code[..n][k];
        if exists j :: 0 <= j < |code| && IsAddOf(code[j], left, right) {
          var j :| 0 <= j < |code| && IsAddOf(code[j], left, right);
          assert j == n || IsAddOf(code[..n][j], left, right);
        }
      }
    }
  }

  lemma {:induction false} CseAllIndex(code: seq<IROp>, i: nat)
    requires i < |code|
    ensures CseAll(code)[i] == CseOp(code[i], AddTable(code[..i]))
  {
    var n := |code| - 1;
    if i < n {
      CseAllIndex(code[..n], i);
      assert code[..n][..i] == code[..i];
    } else {
      assert code[..n] == code[..i];
    }
  }

  /** The pass only rewrites `Add`s into temporaries, and an `Add` is rewritten
      exactly when an earlier `Add` of the same ordered operand pair into a
      temporary exists, into an assignment of the first such result. The first
      occurrence of a pair is left unchanged. */
  lemma CseRewritesRepeatedAdds(code: seq<IROp>, i: nat)
    requires i < |code|
    ensures var op := code[i];
      CseAll(code)[i] != op ==> op.Add? && op.result.Temp?
    ensures var op := code[i];
      op.Add? && op.result.Temp? ==>
        (CseAll(code)[i] != op <==> exists j :: 0 <= j < i && IsAddOf(code[j], op.left, op.right))
    ensures var op := code[i];
      CseAll(code)[i] != op ==>
        (exists j :: 0 <= j < i && IsAddOf(code[j], op.left, op.right) &&
           CseAll(code)[i] == Assign(op.result, code[j].result) &&
           forall k :: 0 <= k < j ==> !IsAddOf(code[k], op.left, op.right))
  {
    CseAllIndex(code, i);
    var op := code[i];
    if op.Add? {
      AddTableFirst(code[..i], op.left, op.right);
      assert forall k :: 0 <= k < i ==> code[..i][k] == code[k];
    }
  }

  /** The table is keyed on the ordered pair: an `Add` of `a` and `b` is not
      merged with an earlier `Add` of `b` and `a`. */
  lemma CseKeyIsOrdered(code: seq<IROp>, i: nat, a: IRValue, b: IRValue)
    requires i < |code| && IsAddOf(code[i], a, b)
    requires forall k :: 0 <= k < i ==> !IsAddOf(code[k], a, b)
    ensures CseAll(code)[i] == code[i]
  {
    CseRewritesRepeatedAdds(code, i);
  }

  // ----- loop_optimization -----

  /** `optimize_loop`: its body is empty, so the list is returned unchanged. */
  method OptimizeLoop(instructions: seq<IROp>, startIndex: nat) returns (r: seq<IROp>)
    ensures r == instructions
  {
    r := instructions;
  }

  /** `loop_optimization`: visits every label whose name starts with `label_`
      and leaves the function unchanged. */
  method LoopOptimization(f: IRFunction) returns (g: IRFunction)
    ensures g == f
  {
    g := f;
    var i := 0;
    while i < |g.instructions|
      invariant g == f
    {
      if g.instructions[i].Label? {
        var name := g.instructions[i].name;
        if |name| >= 6 && name[..6] == "label_" {
          var code := OptimizeLoop(g.instructions, i);
          g := g.(instructions := code);
        }
      }
      i := i + 1;
    }
  }

  // ----- optimize -----

  /** The four passes in the order `optimize` applies them. */
  function Pipeline(code: seq<IROp>): seq<IROp>
    requires AllFoldFit(code)
  {
    var folded := FoldAll(code);
    CseAll(Retain(folded, UsedTemps(folded)))
  }

  /** Each pass leaves the labels and jumps of a list as they were. */
  lemma {:induction false} FoldAllKeepsLabels(code: seq<IROp>)
    requires AllFoldFit(code)
    ensures DefinedLabels(FoldAll(code)) == DefinedLabels(code) && JumpTargets(FoldAll(code)) == JumpTargets(code)
  {
    if code != [] {
      var n := |code| - 1;
      FoldAllKeepsLabels(code[..n]);
      assert code == code[..n] + [code[n]];
      DefinedLabelsAppend(code[..n], [code[n]]);
      JumpTargetsAppend(code[..n], [code[n]]);
      DefinedLabelsAppend(FoldAll(code[..n]), [Fold(code[n])]);
      JumpTargetsAppend(FoldAll(code[..n]), [Fold(code[n])]);
      SingleLabels(code[n]);
      SingleLabels(Fold(code[n]));
    }
  }

  lemma {:induction false} RetainKeepsLabels(code: seq<IROp>, used: set<string>)
    ensures DefinedLabels(Retain(code, used)) == DefinedLabels(code)
    ensures JumpTargets(Retain(code, used)) == JumpTargets(code)
  {
    if code != [] {
      var n := |code| - 1;
      RetainKeepsLabels(code[..n], used);
      assert code == code[..n] + [code[n]];
      DefinedLabelsAppend(code[..n], [code[n]]);
      JumpTargetsAppend(code[..n], [code[n]]);
      DefinedLabelsAppend(Retain(code[..n], used), [code[n]]);
      JumpTargetsAppend(Retain(code[..n], used), [code[n]]);
      SingleLabels(code[n]);
    }
  }

  lemma {:induction false} CseAllKeepsLabels(code: seq<IROp>)
    ensures DefinedLabels(CseAll(code)) == DefinedLabels(code) && JumpTargets(CseAll(code)) == JumpTargets(code)
  {
    if code != [] {
      var n := |code| - 1;
      CseAllKeepsLabels(code[..n]);
      var op' := CseOp(code[n], AddTable(code[..n]));
      assert code == code[..n] + [code[n]];
      DefinedLabelsAppend(code[..n], [code[n]]);
      JumpTargetsAppend(code[..n], [code[n]]);
      DefinedLabelsAppend(CseAll(code[..n]), [op']);
      JumpTargetsAppend(CseAll(code[..n]), [op']);
      SingleLabels(code[n]);
      SingleLabels(op');
    }
  }

  /** The optimizer keeps every label and jump, so label well-formedness of a
      function survives optimization. */
  lemma PipelineKeepsLabels(code: seq<IROp>)
    requires AllFoldFit(code)
    ensures DefinedLabels(Pipeline(code)) == DefinedLabels(code) && JumpTargets(Pipeline(code)) == JumpTargets(code)
    ensures LabelsWellFormed(code) ==> LabelsWellFormed(Pipeline(code))
  {
    var folded := FoldAll(code);
    FoldAllKeepsLabels(code);
    RetainKeepsLabels(folded, UsedTemps(folded));
    CseAllKeepsLabels(Retain(folded, UsedTemps(folded)));
  }

  predicate ProgramFoldFits(p: IRProgram) {
    forall i :: 0 <= i < |p.functions| ==> AllFoldFit(p.functions[i].instructions)
  }

  /** `optimize`: runs the passes on every function in place; the number and order
      of functions, their names, parameters and locals, and the globals are kept. */
  method Optimize(p: IRProgram) returns (q: IRProgram)
    requires ProgramFoldFits(p)
    ensures q.globals == p.globals && |q.functions| == |p.functions|
    ensures forall i :: 0 <= i < |p.functions| ==> Optimized(p.functions[i], q.functions[i])
  {
    q := p;
    var i := 0;
    while i < |q.functions|
      invariant 0 <= i <= |q.functions| == |p.functions| && q.globals == p.globals
      invariant forall k :: 0 <= k < i ==> Optimized(p.functions[k], q.functions[k])
      invariant q.functions[i..] == p.functions[i..]
    {
      assert q.functions[i] == q.functions[i..][0];
      var fn := OptimizeFunction(q.functions[i]);
      var before := q.functions;
      q := q.(functions := before[i := fn]);
      assert q.functions[i + 1..] == before[i + 1..];
      i := i + 1;
    }
  }

  /** `g` is `f` after the four passes. */
  predicate Optimized(f: IRFunction, g: IRFunction) {
    AllFoldFit(f.instructions) && g == f.(instructions := Pipeline(f.instructions))
  }

  /** The four passes of `optimize` on one function. */
  method OptimizeFunction(f: IRFunction) returns (g: IRFunction)
    requires AllFoldFit(f.instructions)
    ensures Optimized(f, g)
  {
    g := ConstantPropagation(f);
    g := DeadCodeElimination(g);
    g := CommonSubexpressionElimination(g);
    g := LoopOptimization(g);
  }
}
