/** The two parsers of the front end built from the token scanners: a numeric
    literal as an expression node, and a function prototype
    `name(param, param, ...)`. */
module Parser {
  import opened Lex
  import opened Tokens
  import Ast

  /** `number_expr`: a scanned number becomes a Number node holding the same
      value; failure and abort pass through. */
  function NumberExpr(input: string): (r: Scan<Ast.Expr>)
    ensures r.Failed? <==> ScanNumber(input).Failed?
    ensures r.Aborted? <==> ScanNumber(input).Aborted?
    ensures r.Aborted? ==> r.message == "Cannot parse float"
    ensures r.Parsed? ==>
      && r.value.Number?
      && ScanNumber(input) == Parsed(Tokens.Number(r.value.value), r.rest)
  {
    match ScanNumber(input)
    // The scanner yields only Number tokens, so the other arm of the source's
    // match is unreachable.
    case Parsed(t, rest) => Parsed(Ast.Number(t.value), rest)
    case Failed => Failed
    case Aborted(message) => Aborted(message)
  }

  /** `sep_by(ident, ',')` at the start of the parameter list. When `ident`
      fails after consuming leading whitespace the failure is final; only a
      failure that consumed nothing gives the empty list. */
  function ParseParams(input: string): Scan<seq<string>> {
    var first := ScanIdent(input);
    if first.Parsed? then
      match MoreParams(first.rest)
      case Parsed(ts, rest) => Parsed([AsIdent(first.value).value] + ts, rest)
      case _ => Failed
    else if input != [] && IsSpace(input[0]) then Failed
    else Parsed([], input)
  }

  /** The `(',' ident)*` tail of the list: it stops at the first character
      that is not a comma; a comma must be followed by a name. */
  function MoreParams(input: string): Scan<seq<string>>
    decreases |input|
  {
    if input != [] && input[0] == ',' then
      match ScanIdent(input[1..])
      case Parsed(t, rest) =>
        (match MoreParams(rest)
         case Parsed(ts, rest2) => Parsed([AsIdent(t).value] + ts, rest2)
         case _ => Failed)
      case _ => Failed
    else Parsed([], input)
  }

  /** `proto`: a name, `(`, the parameter list, `)`. The text after `)` is
      left unconsumed. */
  function ParseProto(input: string): Scan<Ast.Proto> {
    match ScanIdent(input)
    case Parsed(nameTok, s1) =>
      if s1 != [] && s1[0] == '(' then
        match ParseParams(s1[1..])
        case Parsed(args, s2) =>
          if s2 != [] && s2[0] == ')' then Parsed(Ast.Proto(AsIdent(nameTok).value, args), s2[1..])
          else Failed
        case _ => Failed
      else Failed
    case _ => Failed
  }

  // Rendering a prototype in the form the parser reads.

  function Render(p: Ast.Proto): string {
    p.name + "(" + Join(p.args) + ")"
  }

  function Join(args: seq<string>): string {
    if args == [] then "" else args[0] + JoinRest(args[1..])
  }

  function JoinRest(args: seq<string>): string {
    if args == [] then "" else ", " + args[0] + JoinRest(args[1..])
  }

  predicate AllNames(args: seq<string>) {
    forall a :: a in args ==> IsName(a)
  }

  /** A character that ends a parameter list without being part of it. */
  predicate EndsList(rest: string) {
    rest == [] || (rest[0] != ',' && !IsIdentChar(rest[0]) && !IsSpace(rest[0]))
  }
}
