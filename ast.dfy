/** The abstract syntax tree and the code generator's error value. Expression
    nodes form a closed union; a diagnostic trace holds copies of the nodes an
    error passed through, innermost first. */
module Ast {
  import opened Lex

  datatype Op = Add | Sub | Mul | Div

  datatype Expr =
    | Variable(name: string)
    | Number(value: Float)
    | Call(callee: string, args: seq<Expr>)
    | Binary(op: Op, lhs: Expr, rhs: Expr)

  datatype Proto = Proto(name: string, args: seq<string>)

  datatype Func = Func(proto: Proto, body: Expr)

  /** A forward declaration; it has no code generation of its own. */
  datatype Extern = Extern(proto: Proto)

  /** A frame of a diagnostic trace: one of the nodes that can be lowered. */
  datatype Node = ExprNode(expr: Expr) | ProtoNode(proto: Proto) | FuncNode(func: Func)

  datatype CodeGenError = CodeGenError(comment: string, trace: seq<Node>)
  {
    /** The same error after passing up through `node`: the comment and every
        earlier frame are kept, and `node` becomes the outermost frame. */
    function Pushed(node: Node): (e: CodeGenError)
      ensures e.comment == comment
      ensures |e.trace| == |trace| + 1 && e.trace[..|trace|] == trace
      ensures e.trace[|trace|] == node
    {
      CodeGenError(comment, trace + [node])
    }
  }

  /** A fresh error raised at `node`. */
  function NewError(comment: string, node: Node): (e: CodeGenError)
    ensures e.comment == comment && |e.trace| == 1 && e.trace[0] == node
  {
    CodeGenError(comment, [node])
  }

  /** The error after it has passed up through each of `nodes` in turn. */
  function PushAll(e: CodeGenError, nodes: seq<Node>): CodeGenError
    decreases |nodes|
  {
    if nodes == [] then e else PushAll(e.Pushed(nodes[0]), nodes[1..])
  }

  /** Passing up through `nodes` keeps the comment and appends the nodes to
      the trace in the order the error reached them, so a trace begun by
      NewError at the failure site reads innermost first. */
  lemma {:induction false} PushAllAppends(e: CodeGenError, nodes: seq<Node>)
    ensures PushAll(e, nodes) == CodeGenError(e.comment, e.trace + nodes)
    decreases |nodes|
  {
    if nodes != [] {
      PushAllAppends(e.Pushed(nodes[0]), nodes[1..]);
      assert e.trace + [nodes[0]] + nodes[1..] == e.trace + nodes;
    }
  }

  /** `Result<'a, T>` of the code generator. */
  datatype Result<+T> = Ok(value: T) | Err(error: CodeGenError)
}
