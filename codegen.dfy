/** The tree-walking code generator. ExprGen and ArgsGen say, as functions of
    the module's functions, the symbol table and the builder's log, what
    lowering an expression yields and which instructions it emits; the methods
    below do the lowering step by step against the backend objects and are
    proved to agree with them. */
module Codegen {
  import opened Lex
  import opened Ast
  import opened Llvm

  /** The backend operation each operator is built with. */
  function Kind(op: Op): BinOpKind {
    match op
    case Add => FAdd
    case Sub => FSub
    case Mul => FMul
    case Div => FDiv
  }

  /** Distinct operators are built with distinct instructions. */
  lemma KindInjective(a: Op, b: Op)
    ensures Kind(a) == Kind(b) <==> a == b
  {
  }

  /** Lowering `e`: its result, and the builder's log afterwards. */
  function ExprGen(e: Expr, fns: seq<FunctionRecord>, table: map<string, Value>, log: seq<Instr>)
    : (r: (Result<Value>, seq<Instr>))
    ensures log <= r.1
    decreases e
  {
    match e
    case Variable(name) =>
      if name in table then (Ok(table[name]), log)
      else (Err(NewError("Undefined variable: " + name, ExprNode(e))), log)
    case Number(value) => (Ok(ConstF64(value)), log)
    case Call(callee, args) =>
      var found := Lookup(fns, callee);
      if found.None? then (Err(NewError("Unknown function: " + callee, ExprNode(e))), log)
      else
        var (vs, log1) := ArgsGen(e, args, fns, table, log);
        if vs.Err? then (Err(vs.error), log1)
        else (Ok(Tmp(|log1|)), log1 + [CallInstr(found.value, vs.value)])
    case Binary(op, lhs, rhs) =>
      var (l, log1) := ExprGen(lhs, fns, table, log);
      if l.Err? then (Err(l.error.Pushed(ExprNode(e))), log1)
      else
        var (r, log2) := ExprGen(rhs, fns, table, log1);
        if r.Err? then (Err(r.error.Pushed(ExprNode(e))), log2)
        else (Ok(Tmp(|log2|)), log2 + [BinOp(Kind(op), l.value, r.value)])
  }

  /** Lowering the arguments of `call` left to right; the first failure stops
      the rest and is reported with `call` pushed onto its trace. */
  function ArgsGen(call: Expr, args: seq<Expr>, fns: seq<FunctionRecord>, table: map<string, Value>, log: seq<Instr>)
    : (r: (Result<seq<Value>>, seq<Instr>))
    ensures log <= r.1
    ensures r.0.Ok? ==> |r.0.value| == |args|
    decreases args
  {
    if args == [] then (Ok([]), log)
    else
      var (a, log1) := ExprGen(args[0], fns, table, log);
      if a.Err? then (Err(a.error.Pushed(ExprNode(call))), log1)
      else
        var (rest, log2) := ArgsGen(call, args[1..], fns, table, log1);
        if rest.Err? then (rest, log2)
        else (Ok([a.value] + rest.value), log2)
  }

  /** Puts the values of already lowered arguments in front of the outcome of
      lowering the rest. */
  function Prepend(values: seq<Value>, r: (Result<seq<Value>>, seq<Instr>)): (Result<seq<Value>>, seq<Instr>) {
    if r.0.Ok? then (Ok(values + r.0.value), r.1) else r
  }

  /** `Expr::codegen` for the four expression nodes. Lowering only reads the
      module and the symbol table; it changes nothing but the builder. */
  method CodegenExpr(e: Expr, m: Module, ir: IRBuilder, st: SymbolTable) returns (r: Result<Value>)
    modifies ir
    ensures (r, ir.log) == ExprGen(e, m.functions, st.bindings, old(ir.log))
    ensures ir.position == old(ir.position)
    decreases e
  {
    match e
    case Variable(name) =>
      if name in st.bindings {
        r := Ok(st.bindings[name]);
      } else {
        r := Err(NewError("Undefined variable: " + name, ExprNode(e)));
      }
    case Number(value) =>
      r := Ok(ConstF64(value));
    case Call(callee, args) =>
      var f := m.GetFunction(callee);
      if f.None? {
        return Err(NewError("Unknown function: " + callee, ExprNode(e)));
      }
      // The number of arguments is not checked against the callee's.
      var values: seq<Value> := [];
      var i := 0;
      assert args[0..] == args;
      ghost var all := ArgsGen(e, args, m.functions, st.bindings, ir.log);
      assert all.0.Ok? ==> [] + all.0.value == all.0.value;
      assert Prepend(values, all) == all;
      while i < |args|
        invariant 0 <= i <= |args|
        invariant ir.position == old(ir.position)
        invariant ArgsGen(e, args, m.functions, st.bindings, old(ir.log))
          == Prepend(values, ArgsGen(e, args[i..], m.functions, st.bindings, ir.log))
      {
        ghost var before := ir.log;
        assert args[i..][0] == args[i] && args[i..][1..] == args[i + 1..];
        var a := CodegenExpr(args[i], m, ir, st);
        if a.Err? {
          return Err(a.error.Pushed(ExprNode(e)));
        }
        ghost var tail := ArgsGen(e, args[i + 1..], m.functions, st.bindings, ir.log);
        assert ArgsGen(e, args[i..], m.functions, st.bindings, before) == Prepend([a.value], tail);
        assert tail.0.Ok? ==> values + ([a.value] + tail.0.value) == (values + [a.value]) + tail.0.value;
        values := values + [a.value];
        i := i + 1;
      }
      assert args[i..] == [];
      assert values + [] == values;
      assert ArgsGen(e, args, m.functions, st.bindings, old(ir.log)) == (Ok(values), ir.log);
      var v := ir.Emit(CallInstr(f.value, values));
      r := Ok(v);
    case Binary(op, lhs, rhs) =>
      var l := CodegenExpr(lhs, m, ir, st);
      if l.Err? {
        return Err(l.error.Pushed(ExprNode(e)));
      }
      var rv := CodegenExpr(rhs, m, ir, st);
      if rv.Err? {
        return Err(rv.error.Pushed(ExprNode(e)));
      }
      var v;
      match op {
        case Add => v := ir.Emit(BinOp(FAdd, l.value, rv.value));
        case Sub => v := ir.Emit(BinOp(FSub, l.value, rv.value));
        case Mul => v := ir.Emit(BinOp(FMul, l.value, rv.value));
        case Div => v := ir.Emit(BinOp(FDiv, l.value, rv.value));
      }
      r := Ok(v);
  }

  /** `Proto::codegen`: always adds a new function, with one parameter per
      name of the prototype, parameter i named `p.args[i]`. */
  method CodegenProto(p: Proto, m: Module) returns (f: FuncRef)
    modifies m
    ensures f == FuncRef(|old(m.functions)|)
    ensures m.functions == old(m.functions) + [FunctionRecord(p.name, p.args, 0)]
  {
    f := m.CreateFunction(p.name, |p.args|);
    for i := 0 to |p.args|
      invariant |m.functions| == |old(m.functions)| + 1
      invariant m.functions[..f.index] == old(m.functions)
      invariant m.functions[f.index].name == p.name && m.functions[f.index].blocks == 0
      invariant |m.functions[f.index].params| == |p.args|
      invariant m.functions[f.index].params[..i] == p.args[..i]
    {
      m.SetParamName(f, i, p.args[i]);
      assert m.functions[f.index].params[..i + 1] == m.functions[f.index].params[..i] + [p.args[i]];
    }
    assert m.functions[f.index].params == m.functions[f.index].params[..|p.args|];
    assert m.functions[f.index] == FunctionRecord(p.name, p.args, 0);
    assert m.functions == m.functions[..f.index] + [m.functions[f.index]];
  }

  /** The symbol table built from a function's parameters, inserted in order,
      so that a later parameter of the same name replaces an earlier one. */
  function ParamTable(f: FuncRef, params: seq<string>): map<string, Value>
    decreases |params|
  {
    if params == [] then map[]
    else ParamTable(f, params[..|params| - 1])[params[|params| - 1] := Arg(f, |params| - 1)]
  }

  predicate IsLastOccurrence(params: seq<string>, i: int) {
    0 <= i < |params| && forall j :: i < j < |params| ==> params[j] != params[i]
  }

  /** The table binds exactly the parameter names, each to the parameter that
      is its last occurrence in the list. */
  lemma {:induction false} ParamTableBinds(f: FuncRef, params: seq<string>)
    ensures forall name :: name in ParamTable(f, params) <==> name in params
    ensures forall i :: IsLastOccurrence(params, i) ==> ParamTable(f, params)[params[i]] == Arg(f, i)
    decreases |params|
  {
    if params != [] {
      var n := |params| - 1;
      var init := params[..n];
      ParamTableBinds(f, init);
      assert params == init + [params[n]];
      forall i | IsLastOccurrence(params, i)
        ensures ParamTable(f, params)[params[i]] == Arg(f, i)
      {
        if i < n {
          assert params[n] != params[i];
          assert IsLastOccurrence(init, i);
        }
      }
    }
  }

  /** `Func::codegen`. The function is looked up by name and created from the
      prototype only when absent; an entry block is opened and the builder
      placed there; the symbol table is reset to that function's parameters;
      the body is lowered and returned; the function is verified. A body
      failure comes back unchanged, a verification failure as a fresh error at
      this node; in both cases the function stays in the module. */
  method CodegenFunc(fn: Func, m: Module, ir: IRBuilder, st: SymbolTable,
                     verify: (seq<FunctionRecord>, seq<Instr>, FuncRef) -> bool)
    returns (r: Result<FuncRef>)
    modifies m, ir, st
    ensures
      var found := Lookup(old(m.functions), fn.proto.name);
      var f := if found.Some? then found.value else FuncRef(|old(m.functions)|);
      var fns := if found.Some? then old(m.functions)
                 else old(m.functions) + [FunctionRecord(fn.proto.name, fn.proto.args, 0)];
      && f.index < |fns|
      && m.functions == fns[f.index := fns[f.index].(blocks := fns[f.index].blocks + 1)]
      && ir.position == Some(Block(f, fns[f.index].blocks))
      && st.bindings == ParamTable(f, fns[f.index].params)
      && var (body, log) := ExprGen(fn.body, m.functions, st.bindings, old(ir.log));
      && (body.Err? ==> r == Err(body.error) && ir.log == log)
      && (body.Ok? ==>
            && ir.log == log + [Ret(body.value)]
            && r == if verify(m.functions, ir.log, f) then Ok(f)
                    else Err(NewError("Function verification failed", FuncNode(fn))))
  {
    var found := m.GetFunction(fn.proto.name);
    var f;
    if found.Some? {
      f := found.value;
    } else {
      f := CodegenProto(fn.proto, m);
    }
    ghost var fns := m.functions;
    var bb := m.AppendBlock(f);
    ir.SetPosition(bb);
    st.Clear();
    var params := m.functions[f.index].params;
    ghost var log0 := ir.log;
    ghost var fns1 := m.functions;
    for i := 0 to |params|
      invariant st.bindings == ParamTable(f, params[..i])
      invariant m.functions == fns1 && ir.log == log0 && ir.position == Some(bb)
    {
      assert params[..i + 1][..i] == params[..i];
      st.Insert(params[i], Arg(f, i));
    }
    assert params[..|params|] == params;
    var body := CodegenExpr(fn.body, m, ir, st);
    assert m.functions == fns[f.index := fns[f.index].(blocks := fns[f.index].blocks + 1)];
    assert st.bindings == ParamTable(f, fns[f.index].params);
    assert log0 == old(ir.log);
    if body.Err? {
      return Err(body.error);
    }
    var _ := ir.Emit(Ret(body.value));
    if !verify(m.functions, ir.log, f) {
      return Err(NewError("Function verification failed", FuncNode(fn)));
    }
    r := Ok(f);
  }

  // ---------------------------------------------------------------------
  // What lowering an expression does, stated over ExprGen.

  /** The leaves: a number always succeeds with its constant; a variable
      yields exactly its binding, or fails at itself when unbound. Neither
      emits anything. */
  lemma Leaves(x: string, v: Float, fns: seq<FunctionRecord>, table: map<string, Value>, log: seq<Instr>)
    ensures ExprGen(Number(v), fns, table, log) == (Ok(Const(v)), log)
    ensures var (r, out) := ExprGen(Variable(x), fns, table, log);
      && out == log
      && (r.Ok? <==> x in table)
      && (r.Ok? ==> r.value == table[x])
      && (r.Err? ==> r.error == CodeGenError("Undefined variable: " + x, [ExprNode(Variable(x))]))
  {
  }

  /** Left to right, lhs before rhs: the rhs is lowered only after the lhs has
      succeeded, starting from the log the lhs left; a failure on either side
      comes back with the Binary node pushed; on success exactly one
      instruction, of the operator's kind, is added after both sides. */
  lemma BinarySequencing(op: Op, lhs: Expr, rhs: Expr, fns: seq<FunctionRecord>, table: map<string, Value>, log: seq<Instr>)
    ensures
      var e := Binary(op, lhs, rhs);
      var (l, log1) := ExprGen(lhs, fns, table, log);
      var (r, log2) := ExprGen(rhs, fns, table, log1);
      var (res, out) := ExprGen(e, fns, table, log);
      && log <= log1 <= out
      && (res.Err? <==> l.Err? || r.Err?)
      && (l.Err? ==> out == log1 && res.error == l.error.Pushed(ExprNode(e)))
      && (l.Ok? && r.Err? ==> out == log2 && res.error == r.error.Pushed(ExprNode(e)))
      && (res.Ok? ==> out == log2 + [BinOp(Kind(op), l.value, r.value)] && res.value == Tmp(|log2|))
  {
  }

  /** A call to an unknown function fails at the call before any argument is
      lowered. A successful call ends with one call instruction to the
      resolved function, carrying one value per argument, whatever number of
      parameters that function has. */
  lemma CallLowering(callee: string, args: seq<Expr>, fns: seq<FunctionRecord>, table: map<string, Value>, log: seq<Instr>)
    ensures
      var e := Call(callee, args);
      var (res, out) := ExprGen(e, fns, table, log);
      && (Lookup(fns, callee).None? ==>
            res == Err(CodeGenError("Unknown function: " + callee, [ExprNode(e)])) && out == log)
      && (res.Ok? ==>
            && Lookup(fns, callee).Some?
            && |out| > |log| && res.value == Tmp(|out| - 1)
            && out[|out| - 1].CallInstr?
            && out[|out| - 1].callee == Lookup(fns, callee).value
            && |out[|out| - 1].args| == |args|)
  {
  }

  /** Left to right, first failure wins: lowering `a1 + a2` is lowering `a1`
      and, only if all of it succeeded, lowering `a2` from the log it left. */
  lemma {:induction false} ArgsGenAppend(call: Expr, a1: seq<Expr>, a2: seq<Expr>,
                                         fns: seq<FunctionRecord>, table: map<string, Value>, log: seq<Instr>)
    ensures
      var r1 := ArgsGen(call, a1, fns, table, log);
      ArgsGen(call, a1 + a2, fns, table, log) ==
        if r1.0.Err? then r1 else Prepend(r1.0.value, ArgsGen(call, a2, fns, table, r1.1))
    decreases a1
  {
    if a1 == [] {
      assert a1 + a2 == a2;
      var r2 := ArgsGen(call, a2, fns, table, log);
      assert r2.0.Ok? ==> [] + r2.0.value == r2.0.value;
    } else {
      assert (a1 + a2)[0] == a1[0] && (a1 + a2)[1..] == a1[1..] + a2;
      var (a, log1) := ExprGen(a1[0], fns, table, log);
      if a.Ok? {
        ArgsGenAppend(call, a1[1..], a2, fns, table, log1);
        var rest := ArgsGen(call, a1[1..], fns, table, log1);
        if rest.0.Ok? {
          var r2 := ArgsGen(call, a2, fns, table, rest.1);
          assert r2.0.Ok? ==> [a.value] + (rest.0.value + r2.0.value) == ([a.value] + rest.0.value) + r2.0.value;
        }
      }
    }
  }

  predicate IsChildOf(child: Node, parent: Node) {
    && parent.ExprNode? && child.ExprNode?
    && match parent.expr
       case Binary(_, l, r) => child.expr == l || child.expr == r
       case Call(_, args) => child.expr in args
       case _ => false
  }

  /** Where a lowering failure starts: an unbound variable or a call to an
      unknown function, with the comment that names it. */
  predicate IsFailureSite(comment: string, site: Node, fns: seq<FunctionRecord>, table: map<string, Value>) {
    && site.ExprNode?
    && match site.expr
       case Variable(x) => x !in table && comment == "Undefined variable: " + x
       case Call(c, _) => Lookup(fns, c).None? && comment == "Unknown function: " + c
       case _ => false
  }

  /** The trace runs from the failure site, through each enclosing node in
      turn, up to `root`. */
  predicate IsPropagationTrace(err: CodeGenError, root: Node, fns: seq<FunctionRecord>, table: map<string, Value>) {
    && |err.trace| >= 1
    && err.trace[|err.trace| - 1] == root
    && IsFailureSite(err.comment, err.trace[0], fns, table)
    && forall i :: 0 <= i < |err.trace| - 1 ==> IsChildOf(err.trace[i], err.trace[i + 1])
  }

  lemma PushedExtendsTrace(err: CodeGenError, child: Node, parent: Node,
                           fns: seq<FunctionRecord>, table: map<string, Value>)
    requires IsPropagationTrace(err, child, fns, table) && IsChildOf(child, parent)
    ensures IsPropagationTrace(err.Pushed(parent), parent, fns, table)
  {
    var t := err.Pushed(parent).trace;
    assert t == err.trace + [parent];
    forall i | 0 <= i < |t| - 1 ensures IsChildOf(t[i], t[i + 1]) {
      if i < |err.trace| - 1 {
        assert t[i] == err.trace[i] && t[i + 1] == err.trace[i + 1];
      }
    }
  }

  /** Every failure of lowering `e` carries a trace that starts at an unbound
      variable or unknown callee inside `e`, with the matching comment, and
      climbs one enclosing node per frame up to `e` itself. */
  lemma {:induction false} FailureTrace(e: Expr, fns: seq<FunctionRecord>, table: map<string, Value>, log: seq<Instr>)
    ensures var r := ExprGen(e, fns, table, log).0;
      r.Err? ==> IsPropagationTrace(r.error, ExprNode(e), fns, table)
    decreases e
  {
    match e
    case Variable(_) =>
    case Number(_) =>
    case Call(callee, args) =>
      if Lookup(fns, callee).Some? {
        ArgsFailureTrace(e, args, fns, table, log);
      }
    case Binary(op, lhs, rhs) =>
      var (l, log1) := ExprGen(lhs, fns, table, log);
      FailureTrace(lhs, fns, table, log);
      if l.Err? {
        PushedExtendsTrace(l.error, ExprNode(lhs), ExprNode(e), fns, table);
      } else {
        var (r, log2) := ExprGen(rhs, fns, table, log1);
        FailureTrace(rhs, fns, table, log1);
        if r.Err? {
          PushedExtendsTrace(r.error, ExprNode(rhs), ExprNode(e), fns, table);
        }
      }
  }

  lemma {:induction false} ArgsFailureTrace(call: Expr, args: seq<Expr>,
                                            fns: seq<FunctionRecord>, table: map<string, Value>, log: seq<Instr>)
    requires call.Call? && forall a :: a in args ==> a in call.args
    ensures var r := ArgsGen(call, args, fns, table, log).0;
      r.Err? ==> IsPropagationTrace(r.error, ExprNode(call), fns, table)
    decreases args
  {
    if args != [] {
      var (a, log1) := ExprGen(args[0], fns, table, log);
      FailureTrace(args[0], fns, table, log);
      if a.Err? {
        PushedExtendsTrace(a.error, ExprNode(args[0]), ExprNode(call), fns, table);
      } else {
        ArgsFailureTrace(call, args[1..], fns, table, log1);
      }
    }
  }

  /** Number of instructions lowering emits: one per Binary and Call node. */
  function OpCount(e: Expr): nat
    decreases e
  {
    match e
    case Variable(_) => 0
    case Number(_) => 0
    case Call(_, args) => 1 + ArgsOpCount(args)
    case Binary(_, lhs, rhs) => 1 + OpCount(lhs) + OpCount(rhs)
  }

  function ArgsOpCount(args: seq<Expr>): nat
    decreases args
  {
    if args == [] then 0 else OpCount(args[0]) + ArgsOpCount(args[1..])
  }

  /** A successful lowering appends exactly one instruction per Binary and
      Call node of the expression, and nothing else. */
  lemma {:induction false} EmitCount(e: Expr, fns: seq<FunctionRecord>, table: map<string, Value>, log: seq<Instr>)
    ensures var (r, out) := ExprGen(e, fns, table, log);
      r.Ok? ==> |out| == |log| + OpCount(e)
    decreases e
  {
    match e
    case Variable(_) =>
    case Number(_) =>
    case Call(callee, args) =>
      ArgsEmitCount(e, args, fns, table, log);
    case Binary(op, lhs, rhs) =>
      EmitCount(lhs, fns, table, log);
      EmitCount(rhs, fns, table, ExprGen(lhs, fns, table, log).1);
  }

  lemma {:induction false} ArgsEmitCount(call: Expr, args: seq<Expr>,
                                         fns: seq<FunctionRecord>, table: map<string, Value>, log: seq<Instr>)
    ensures var (r, out) := ArgsGen(call, args, fns, table, log);
      r.Ok? ==> |out| == |log| + ArgsOpCount(args)
    decreases args
  {
    if args != [] {
      EmitCount(args[0], fns, table, log);
      ArgsEmitCount(call, args[1..], fns, table, ExprGen(args[0], fns, table, log).1);
    }
  }

  /** Two modules whose functions have the same names, in the same order. */
  predicate SameNames(fns1: seq<FunctionRecord>, fns2: seq<FunctionRecord>) {
    |fns1| == |fns2| && forall i :: 0 <= i < |fns1| ==> fns1[i].name == fns2[i].name
  }

  /** No arity check: lowering reads nothing of the module but the names of
      its functions, so what the callees' parameter lists hold changes
      neither the outcome nor the instructions emitted. */
  lemma {:induction false} OnlyNamesMatter(e: Expr, fns1: seq<FunctionRecord>, fns2: seq<FunctionRecord>,
                                           table: map<string, Value>, log: seq<Instr>)
    requires SameNames(fns1, fns2)
    ensures ExprGen(e, fns1, table, log) == ExprGen(e, fns2, table, log)
    decreases e
  {
    match e
    case Variable(_) =>
    case Number(_) =>
    case Call(callee, args) =>
      LookupSameNames(fns1, fns2, callee);
      ArgsOnlyNamesMatter(e, args, fns1, fns2, table, log);
    case Binary(op, lhs, rhs) =>
      OnlyNamesMatter(lhs, fns1, fns2, table, log);
      OnlyNamesMatter(rhs, fns1, fns2, table, ExprGen(lhs, fns1, table, log).1);
  }

  lemma {:induction false} ArgsOnlyNamesMatter(call: Expr, args: seq<Expr>, fns1: seq<FunctionRecord>,
                                               fns2: seq<FunctionRecord>, table: map<string, Value>, log: seq<Instr>)
    requires SameNames(fns1, fns2)
    ensures ArgsGen(call, args, fns1, table, log) == ArgsGen(call, args, fns2, table, log)
    decreases args
  {
    if args != [] {
      OnlyNamesMatter(args[0], fns1, fns2, table, log);
      ArgsOnlyNamesMatter(call, args[1..], fns1, fns2, table, ExprGen(args[0], fns1, table, log).1);
    }
  }

  lemma LookupSameNames(fns1: seq<FunctionRecord>, fns2: seq<FunctionRecord>, name: string)
    requires SameNames(fns1, fns2)
    ensures Lookup(fns1, name) == Lookup(fns2, name)
  {
    var r1, r2 := Lookup(fns1, name), Lookup(fns2, name);
    if r1.Some? && r2.Some? {
      assert fns1[r2.value.index].name == name;
      assert fns2[r1.value.index].name == name;
    }
  }
}
