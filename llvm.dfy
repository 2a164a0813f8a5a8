/** An abstract stand-in for the LLVM wrapper the code generator drives. A
    module is the list of functions in creation order, a function handle is a
    position in that list, values are opaque handles, and the instruction
    builder keeps a log of what it emitted. Verifying a function is left to the
    caller as an uninterpreted predicate. */
module Llvm {
  import opened Lex

  datatype FuncRef = FuncRef(index: nat)

  /** An opaque value handle: a floating-point constant, a function parameter,
      or the result of the instruction at a position of the builder's log. */
  datatype Value = Const(value: Float) | Arg(func: FuncRef, index: nat) | Tmp(index: nat)

  datatype BinOpKind = FAdd | FSub | FMul | FDiv

  datatype Instr =
    | BinOp(kind: BinOpKind, lhs: Value, rhs: Value)
    | CallInstr(callee: FuncRef, args: seq<Value>)
    | Ret(value: Value)

  /** A function of the module: its name, its parameter names (empty until
      named) and the number of basic blocks appended to it so far. */
  datatype FunctionRecord = FunctionRecord(name: string, params: seq<string>, blocks: nat)

  /** A basic block: the function it belongs to and its position there. */
  datatype Block = Block(func: FuncRef, index: nat)

  /** The function a name resolves to: the first one created under it. */
  function Lookup(fns: seq<FunctionRecord>, name: string): (r: Option<FuncRef>)
    ensures r.None? <==> forall i :: 0 <= i < |fns| ==> fns[i].name != name
    ensures r.Some? ==> r.value.index < |fns| && fns[r.value.index].name == name
    ensures r.Some? ==> forall i :: 0 <= i < r.value.index ==> fns[i].name != name
  {
    if fns == [] then None
    else if fns[0].name == name then Some(FuncRef(0))
    else match Lookup(fns[1..], name)
      case None => None
      case Some(f) => Some(FuncRef(f.index + 1))
  }

  /** `const_f64`: a constant is a value of its own; nothing is emitted. */
  function ConstF64(f: Float): (r: Value)
    ensures r.Const? && r.value == f
  {
    Const(f)
  }

  class Module {
    var functions: seq<FunctionRecord>

    constructor ()
      ensures functions == []
    {
      functions := [];
    }

    /** `get_function`: the first function created under `name`, if any. */
    function GetFunction(name: string): (r: Option<FuncRef>)
      reads this
      ensures r.None? <==> forall i :: 0 <= i < |functions| ==> functions[i].name != name
      ensures r.Some? ==> r.value.index < |functions| && functions[r.value.index].name == name
    {
      Lookup(functions, name)
    }

    /** `create_function`: a new function with `arity` unnamed parameters,
        always appended, whatever its name. */
    method CreateFunction(name: string, arity: nat) returns (f: FuncRef)
      modifies this
      ensures f == FuncRef(|old(functions)|)
      ensures functions == old(functions) + [FunctionRecord(name, seq(arity, _ => ""), 0)]
    {
      f := FuncRef(|functions|);
      functions := functions + [FunctionRecord(name, seq(arity, _ => ""), 0)];
    }

    /** Names parameter `i` of function `f`. */
    method SetParamName(f: FuncRef, i: nat, name: string)
      requires f.index < |functions| && i < |functions[f.index].params|
      modifies this
      ensures functions == old(functions)[f.index :=
        old(functions)[f.index].(params := old(functions)[f.index].params[i := name])]
    {
      var rec := functions[f.index];
      functions := functions[f.index := rec.(params := rec.params[i := name])];
    }

    /** `BasicBlock::new`: appends a block to `f`. */
    method AppendBlock(f: FuncRef) returns (b: Block)
      requires f.index < |functions|
      modifies this
      ensures b == Block(f, old(functions)[f.index].blocks)
      ensures functions == old(functions)[f.index :=
        old(functions)[f.index].(blocks := old(functions)[f.index].blocks + 1)]
    {
      var rec := functions[f.index];
      b := Block(f, rec.blocks);
      functions := functions[f.index := rec.(blocks := rec.blocks + 1)];
    }
  }

  class IRBuilder {
    var log: seq<Instr>
    var position: Option<Block>

    constructor ()
      ensures log == [] && position == None
    {
      log := [];
      position := None;
    }

    method SetPosition(b: Block)
      modifies this
      ensures position == Some(b) && log == old(log)
    {
      position := Some(b);
    }

    /** Emits one instruction; its result is the value at its log position. */
    method Emit(i: Instr) returns (v: Value)
      modifies this
      ensures v == Tmp(|old(log)|)
      ensures log == old(log) + [i] && position == old(position)
    {
      v := Tmp(|log|);
      log := log + [i];
    }
  }

  /** The symbol table: parameter names bound to values. */
  class SymbolTable {
    var bindings: map<string, Value>

    constructor ()
      ensures bindings == map[]
    {
      bindings := map[];
    }

    method Clear()
      modifies this
      ensures bindings == map[]
    {
      bindings := map[];
    }

    /** `HashMap::insert`: a later binding of a name replaces the earlier one. */
    method Insert(name: string, v: Value)
      modifies this
      ensures bindings == old(bindings)[name := v]
    {
      bindings := bindings[name := v];
    }
  }
}
