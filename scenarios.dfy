/** Whole definitions lowered from an empty module, each with fresh backend
    objects: what ends up in the module, what the builder emitted, and what
    the definition returns. The verifier of the backend is given as a
    predicate that accepts (or, in one case, rejects) every function. */
module Scenarios {
  import opened Lex
  import opened Ast
  import opened Llvm
  import opened Codegen

  /** `def f(a, b) a + b`: one function named f whose parameters are named a
      and b, with one block; the body is one addition of the two parameters,
      followed by the return of its result. */
  method DefineSum() returns (r: Result<FuncRef>, fns: seq<FunctionRecord>, log: seq<Instr>)
    ensures r == Ok(FuncRef(0))
    ensures fns == [FunctionRecord("f", ["a", "b"], 1)]
    ensures log == [BinOp(FAdd, Arg(FuncRef(0), 0), Arg(FuncRef(0), 1)), Ret(Tmp(0))]
  {
    var m := new Module();
    var ir := new IRBuilder();
    var st := new SymbolTable();
    var fn := Func(Proto("f", ["a", "b"]), Binary(Add, Variable("a"), Variable("b")));
    var f := FuncRef(0);
    assert ["a", "b"][..1] == ["a"] && ["a"][..0] == [];
    assert ParamTable(f, ["a", "b"]) == map["a" := Arg(f, 0), "b" := Arg(f, 1)];
    r := CodegenFunc(fn, m, ir, st, (fns, log, f) => true);
    fns := m.functions;
    log := ir.log;
  }

  /** A body that names an unbound variable: the error is the variable's own,
      with the enclosing Binary node pushed and no frame for the definition;
      nothing is emitted and the new function stays in the module. */
  method DefineWithUnboundVariable() returns (r: Result<FuncRef>, fns: seq<FunctionRecord>, log: seq<Instr>)
    ensures r == Err(CodeGenError("Undefined variable: b",
      [ExprNode(Variable("b")), ExprNode(Binary(Add, Variable("a"), Variable("b")))]))
    ensures fns == [FunctionRecord("f", ["a"], 1)]
    ensures log == []
  {
    var m := new Module();
    var ir := new IRBuilder();
    var st := new SymbolTable();
    var fn := Func(Proto("f", ["a"]), Binary(Add, Variable("a"), Variable("b")));
    var f := FuncRef(0);
    assert ["a"][..0] == [];
    assert ParamTable(f, ["a"]) == map["a" := Arg(f, 0)];
    r := CodegenFunc(fn, m, ir, st, (fns, log, f) => true);
    fns := m.functions;
    log := ir.log;
  }

  /** `def g(x) x` then `def g(y) y`: the second definition reuses the
      existing function, so its body sees the parameter names of the first
      and `y` is unbound. The function gets a second entry block. */
  method DeclareThenDefine() returns (r: Result<FuncRef>, fns: seq<FunctionRecord>, log: seq<Instr>)
    ensures r == Err(CodeGenError("Undefined variable: y", [ExprNode(Variable("y"))]))
    ensures fns == [FunctionRecord("g", ["x"], 2)]
    ensures log == [Ret(Arg(FuncRef(0), 0))]
  {
    var m := new Module();
    var ir := new IRBuilder();
    var st := new SymbolTable();
    var g := FuncRef(0);
    assert ["x"][..0] == [];
    assert ParamTable(g, ["x"]) == map["x" := Arg(g, 0)];
    var first := CodegenFunc(Func(Proto("g", ["x"]), Variable("x")), m, ir, st, (fns, log, f) => true);
    assert m.functions == [FunctionRecord("g", ["x"], 1)];
    assert ir.log == [Ret(Arg(g, 0))];
    r := CodegenFunc(Func(Proto("g", ["y"]), Variable("y")), m, ir, st, (fns, log, f) => true);
    fns := m.functions;
    log := ir.log;
  }

  /** A rejected function: the error is a fresh one at the definition, raised
      after the return was emitted; the function stays in the module. */
  method DefineRejected() returns (r: Result<FuncRef>, fns: seq<FunctionRecord>, log: seq<Instr>)
    ensures r == Err(CodeGenError("Function verification failed",
      [FuncNode(Func(Proto("f", []), Number(Float("1.0"))))]))
    ensures fns == [FunctionRecord("f", [], 1)]
    ensures log == [Ret(Const(Float("1.0")))]
  {
    var m := new Module();
    var ir := new IRBuilder();
    var st := new SymbolTable();
    var fn := Func(Proto("f", []), Number(Float("1.0")));
    r := CodegenFunc(fn, m, ir, st, (fns, log, f) => false);
    fns := m.functions;
    log := ir.log;
  }

  /** `def g(x) x` then `def f(a) g(a, a)`: the call resolves to g and passes
      two arguments although g has one parameter, since the number of
      arguments is not checked. */
  method CallWithoutArityCheck() returns (r: Result<FuncRef>, fns: seq<FunctionRecord>, log: seq<Instr>)
    ensures r == Ok(FuncRef(1))
    ensures fns == [FunctionRecord("g", ["x"], 1), FunctionRecord("f", ["a"], 1)]
    ensures log == [Ret(Arg(FuncRef(0), 0)),
                    CallInstr(FuncRef(0), [Arg(FuncRef(1), 0), Arg(FuncRef(1), 0)]),
                    Ret(Tmp(1))]
  {
    var m := new Module();
    var ir := new IRBuilder();
    var st := new SymbolTable();
    var g, f := FuncRef(0), FuncRef(1);
    assert ["x"][..0] == [] && ["a"][..0] == [];
    assert ParamTable(g, ["x"]) == map["x" := Arg(g, 0)];
    assert ParamTable(f, ["a"]) == map["a" := Arg(f, 0)];
    var first := CodegenFunc(Func(Proto("g", ["x"]), Variable("x")), m, ir, st, (fns, log, f) => true);
    assert m.functions == [FunctionRecord("g", ["x"], 1)];
    assert ir.log == [Ret(Arg(g, 0))];
    assert Lookup(m.functions, "f").None?;
    var call := Call("g", [Variable("a"), Variable("a")]);
    var fns2 := [FunctionRecord("g", ["x"], 1), FunctionRecord("f", ["a"], 1)];
    SameVariableTwice(call, "a", fns2, map["a" := Arg(f, 0)], ir.log);
    r := CodegenFunc(Func(Proto("f", ["a"]), call), m, ir, st, (fns, log, f) => true);
    fns := m.functions;
    log := ir.log;
  }

  /** Two arguments naming the same bound variable lower to its value twice,
      emitting nothing. */
  lemma SameVariableTwice(call: Expr, v: string, fns: seq<FunctionRecord>, table: map<string, Value>, log: seq<Instr>)
    requires v in table
    ensures ArgsGen(call, [Variable(v), Variable(v)], fns, table, log) == (Ok([table[v], table[v]]), log)
  {
    var args := [Variable(v), Variable(v)];
    var x := table[v];
    assert args[1..] == [Variable(v)] && args[1..][1..] == [];
    assert ExprGen(Variable(v), fns, table, log) == (Ok(x), log);
    assert ArgsGen(call, args[1..][1..], fns, table, log) == (Ok([]), log);
    assert [x] + [] == [x];
    assert ArgsGen(call, args[1..], fns, table, log) == (Ok([x]), log);
    assert [x] + [x] == [x, x];
  }

  /** A call to a function that does not exist fails at the call, before its
      arguments are lowered. */
  method CallUnknownFunction() returns (r: Result<FuncRef>, fns: seq<FunctionRecord>, log: seq<Instr>)
    ensures r == Err(CodeGenError("Unknown function: h",
      [ExprNode(Call("h", [Variable("undefined")]))]))
    ensures fns == [FunctionRecord("f", [], 1)]
    ensures log == []
  {
    var m := new Module();
    var ir := new IRBuilder();
    var st := new SymbolTable();
    var fn := Func(Proto("f", []), Call("h", [Variable("undefined")]));
    r := CodegenFunc(fn, m, ir, st, (fns, log, f) => true);
    fns := m.functions;
    log := ir.log;
  }
}
