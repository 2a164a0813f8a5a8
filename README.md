# Kaleidoscope front end: scanners, prototype parser and code generator

This project is a Dafny model of the core of a small Kaleidoscope compiler
front end written in Rust. The model has three parts:

- **Token scanners** (`lex.dfy`, `tokens.dfy`, `identifier.dfy`, `number.dfy`).
  Each scanner takes the input text. It yields a token with the unconsumed
  remainder (`Parsed`), a parse failure (`Failed`), or an abort (`Aborted`).
  An abort stands for the panic raised by `expect("Cannot parse float")`.
  - Numbers are the maximal run of digits and dots.
  - `ident` skips whitespace, then reads a letter or `_` followed by letters,
    digits and `_`, then skips whitespace.
  - `identifier()` reads a letter followed by letters and digits.
  - `def`, `extern_` and `eof` match exact text.
  - `as_number` and `as_ident` project the payload of a token.
- **Prototype parser** (`parser.dfy`, `parser_facts.dfy`). It models
  `number_expr` and `proto`: a name, `(`, a comma-separated list of names,
  then `)`. The main result is a round trip. A prototype whose name and
  parameters are names, written as `name(a, b, ...)`, parses back to
  itself, and the text after `)` is left unconsumed.
- **AST and code generator** (`ast.dfy`, `llvm.dfy`, `codegen.dfy`,
  `scenarios.dfy`). The AST is plain datatypes. The diagnostic error is a
  comment plus a trace of nodes, innermost first.
  - The backend is abstract. A `Module` is the list of its functions, in
    creation order; a function handle is a position in that list. An
    `IRBuilder` keeps a log of the instructions it emitted and the block
    it is positioned at. A `SymbolTable` is a map from names to values.
  - The lowering of an expression is specified by the functions `ExprGen` and
    `ArgsGen`. They give the result and the builder's log afterwards.
  - The methods `CodegenExpr`, `CodegenProto` and `CodegenFunc` do the work
    step by step on the backend objects. They are proved to agree with
    those functions and with `ParamTable`.
  - Lemmas state what the source promises:
    - lhs before rhs, and the first failing argument wins;
    - the exact errors, and the trace that climbs one enclosing node per frame;
    - one instruction per Binary and Call node;
    - no arity check;
    - the symbol table holds the parameter names, a later duplicate winning.

On these points the code does something a reader might not expect of a
Kaleidoscope front end, and the model follows the code:

- `ident` has no keyword check, so `def` scans as an identifier (`Tokens.KeywordIsIdent`).
- `Extern` is only a struct: it has no code generation of its own.
- A failure in a function body is returned by `Func::codegen` unchanged. No
  frame is added for the function node (`?` at src/ast.rs:189).
- When a function of the same name already exists, the symbol table is filled
  from that function's parameter names, not from the new prototype's
  (`Scenarios.DeclareThenDefine`).

## Model

| member | source | states |
|---|---|---|
| Lex.RunLength | src/token.rs:50 | the length of the longest prefix whose characters are all in the class: the prefix is all in the class and the next character is not |
| Lex.RunLengthOf | src/token.rs:30 | the maximal run is unique: any split into a run of the class and a rest that does not start with one is the split found |
| Tokens.AsNumber | src/token.rs:14-19 | `Some` exactly for a Number token, and then the token is `Number` of the payload |
| Tokens.AsIdent | src/token.rs:21-26 | `Some` exactly for an Identifier token, and then the token is `Identifier` of the payload |
| Tokens.ScanNumber | src/token.rs:29-35 | fails exactly when the input does not start with a digit or dot; on success it yields a Number whose literal is a non-empty maximal digit-and-dot run and a valid float, with input = literal + rest; a run that is not a float aborts with "Cannot parse float" |
| Tokens.IsFloatLiteral | src/token.rs:31 | predicate, no contract of its own: which digit-and-dot runs `parse::<f64>` accepts; facts in `Tokens.FloatLiteralExamples`, `Tokens.ScanNumberOf` and `NumberScanner.ParseStreamOf` |
| Tokens.FloatLiteralExamples | src/token.rs:31 | "1.", ".5" and "42" convert; "." and "1..2" do not |
| Tokens.ScanNumberOf | src/token.rs:29-35 | any input that starts with a maximal digit-and-dot run scans to exactly that run, or aborts when the run is not a float |
| Tokens.ScanDef | src/token.rs:37-39 | succeeds exactly when the input starts with "def", yielding Def and the text after it |
| Tokens.ScanExtern | src/token.rs:41-43 | succeeds exactly when the input starts with "extern", yielding Extern and the text after it |
| Tokens.SkipSpaces | src/token.rs:47-48 | the result is a suffix of the input that does not start with whitespace |
| Tokens.SkipSpacesOf | src/token.rs:47-48 | whitespace followed by a non-space is skipped exactly |
| Tokens.ScanIdent | src/token.rs:45-56 | never aborts; on success the token is an Identifier whose name is a letter or `_` followed by alphanumerics and `_`, and the rest is shorter than the input and does not start with whitespace |
| Tokens.ScanIdentSuffix | src/token.rs:45-56 | what `ident` leaves is a tail of its input (`Lex.IsTail`) |
| Tokens.ScanIdentOf | src/token.rs:45-56 | leading whitespace, a name that nothing extends, trailing whitespace and a rest scan to exactly that name and that rest |
| Tokens.ScanIdentFails | src/token.rs:49 | `ident` fails exactly when the first character after the leading whitespace is missing or is neither a letter nor `_` |
| Tokens.ScanEof | src/token.rs:58-60 | succeeds exactly on the empty input, yielding EOF |
| Tokens.NumberExample | tests/token.rs:7-13 | "1.234" scans to Number 1.234 with remainder "" |
| Tokens.MalformedNumber | src/token.rs:30-33 | "1.2.3" is consumed as one run and then aborts with "Cannot parse float" |
| Tokens.NumberNeedsDigitOrDot | src/token.rs:30 | " 1" and "-1" fail: neither whitespace nor a sign starts a number |
| Tokens.IdentExample | tests/token.rs:19-22 | "v" scans whole |
| Tokens.IdentWithDigits | tests/token.rs:24-27 | "a12" scans whole |
| Tokens.IdentWithUnderscore | tests/token.rs:29-32 | "a_a" scans whole |
| Tokens.IdentStopsAtSpace | tests/token.rs:34-37 | "a a" gives Identifier "a" with remainder "a" |
| Tokens.KeywordIsIdent | src/token.rs:45-56 | "def" scans as an identifier: there is no keyword check |
| Tokens.WholeName | src/token.rs:45-56 | a name alone scans whole with remainder "" |
| Tokens.KeywordExamples | src/token.rs:37-43 | "def" and "extern" scan to their keywords; "define" gives Def with remainder "ine"; " def" and "ext" fail |
| IdentifierScanner.ParseStream | src/token/identifier.rs:17-22 | fails exactly when the input does not start with a letter; on success the name is a letter followed by the maximal alphanumeric run, with input = name + rest |
| IdentifierScanner.AgreesWithIdent | src/token/identifier.rs:18-19 | when the name found is followed by neither `_` nor whitespace, `ident` finds the same name and rest |
| IdentifierScanner.ParseStreamExample | src/token/identifier.rs:37-42 | "a" scans whole with remainder "" |
| IdentifierScanner.ParseStreamStopsAtSpace | src/token/identifier.rs:18-19 | "ab1 c" gives "ab1" and leaves " c", whitespace included |
| IdentifierScanner.ParseStreamRejects | src/token/identifier.rs:18 | "_a", " a" and "1a" fail: only a letter starts a name |
| NumberScanner.ParseStream | src/token/number.rs:16-23 | fails exactly without a leading digit or dot; on success a Number whose literal is a non-empty maximal digit-and-dot run and a valid float, with input = literal + rest; an abort carries "Cannot parse float" |
| NumberScanner.ParseStreamOf | src/token/number.rs:16-23 | any input that starts with a maximal digit-and-dot run gives a Number of exactly that run when it is a float literal, and aborts exactly when it is not |
| NumberScanner.MalformedRunAborts | src/token/number.rs:18-20 | a maximal run that is not a float aborts instead of failing |
| NumberScanner.ParseStreamExample | src/token/number.rs:37-43 | "1.234" scans to Number 1.234 with remainder "" |
| Parser.NumberExpr | src/parser.rs:5-11 | fails or aborts exactly when `number` does; on success a Number node with the scanned value and the same rest |
| Parser.ParseProto | src/parser.rs:13-22 | no contract of its own: `proto` as name, `(`, list, `)`; facts in `ParserFacts.ProtoNames`, `ProtoRoundTrip`, `SpacedRoundTrip` and `SpacesOnlyFails` |
| Parser.ParseParams | src/parser.rs:19 | no contract of its own: `sep_by(ident, ',')`, with a first item that fails after consuming whitespace failing the list; facts in `ParserFacts.ParamsNames`, `ParamsOf` and `SpacesOnlyFails` |
| Parser.MoreParams | src/parser.rs:19 | no contract of its own: the `(',' ident)*` tail of `sep_by`, where a comma not followed by a name fails; facts in `ParserFacts.MoreParamsNames` and `MoreParamsOf` |
| ParserFacts.ParamsNames | src/parser.rs:19 | `Parser.ParseParams` never aborts; every parameter it reads is a name and the rest is a tail of the input |
| ParserFacts.MoreParamsNames | src/parser.rs:19 | `Parser.MoreParams` never aborts; every parameter after a comma is a name and the rest is a tail of the input |
| ParserFacts.ProtoNames | src/parser.rs:13-22 | `Parser.ParseProto` never aborts; on success the name and every parameter are names and the rest is a tail of the input, strictly shorter |
| ParserFacts.MoreParamsStep | src/parser.rs:19 | a comma followed by a name and a parsed tail parses to that name in front of the tail |
| ParserFacts.MoreParamsOf | src/parser.rs:19 | a rendered `, a, b, ...` tail parses to exactly its names, in order |
| ParserFacts.ParamsStep | src/parser.rs:19 | a name followed by a parsed tail is a parameter list with that name first |
| ParserFacts.ParamsOf | src/parser.rs:19 | a rendered `a, b, ...` list parses to exactly its names, in order, including the empty list |
| ParserFacts.ProtoStep | src/parser.rs:13-22 | an input that scans to a name and `(`, then a parsed list and `)`, gives the prototype of that name and list, leaving what follows `)` |
| ParserFacts.ProtoRoundTrip | src/parser.rs:13-22 | any prototype of names written as `name(a, b, ...)` parses back to itself, parameters in order and duplicates kept, with the following text as the rest |
| ParserFacts.SpacesOnlyFails | src/parser.rs:19 | whitespace alone between the parentheses is rejected |
| ParserFacts.SpacedMoreOf | src/parser.rs:19 | a `, a, b, ...` tail with any whitespace on either side of each name parses to exactly its names, in order |
| ParserFacts.SpacedListOf | src/parser.rs:19 | a list `a, b, ...` with any whitespace on either side of each name parses to exactly its names, in order, including the empty list |
| ParserFacts.SpacedRoundTrip | src/parser.rs:13-22 | a prototype with any whitespace around the name, after `(`, before `)` and on either side of every comma parses to its name and parameters, in order, leaving the text after `)` |
| ParserFacts.ProtoThree | tests/parser.rs:16-23 | "f(a, b, c)" parses to Proto f with parameters a, b, c and remainder "" |
| ParserFacts.ProtoNoParams | src/parser.rs:19 | "f()" parses to Proto f with no parameters |
| ParserFacts.ProtoRepeatedParam | src/parser.rs:19-20 | "f(a, a)" keeps both parameters |
| ParserFacts.SpacesOnlyExample | src/parser.rs:19 | "f( )" fails |
| Ast.CodeGenError.Pushed | src/ast.rs:23-34 | the comment and every earlier frame are kept, and the node becomes the last frame |
| Ast.NewError | src/ast.rs:16-21 | exactly the comment, and a trace holding only the node |
| Ast.PushAllAppends | src/ast.rs:23-34 | passing up through nodes appends them to the trace in the order reached, so the trace reads innermost first |
| Llvm.Lookup | src/llvm.rs:60-68 | `None` exactly when no function has the name; otherwise the first function of that name |
| Llvm.Module.GetFunction | src/llvm.rs:60-68 | `None` exactly when no function of the module has the name; otherwise a function of that name (the first, by `Llvm.Lookup`) |
| Llvm.ConstF64 | src/llvm.rs:76-78 | the constant holding exactly the given float; it is a value, not an instruction, so nothing is emitted |
| Llvm.Module.constructor | src/llvm.rs:10 | a new module has no functions |
| Llvm.Module.CreateFunction | src/llvm.rs:70-73 | appends one function with the given name and arity and returns its handle |
| Llvm.Module.SetParamName | src/ast.rs:157-160 | names one parameter of one function; nothing else changes |
| Llvm.Module.AppendBlock | src/ast.rs:183 | appends a block to the function; nothing else changes |
| Llvm.IRBuilder.constructor | src/llvm.rs:36-38 | a new builder has an empty log and no position |
| Llvm.IRBuilder.SetPosition | src/ast.rs:184 | moves the builder to the block; the log is unchanged |
| Llvm.IRBuilder.Emit | src/llvm.rs:45-56 | appends one instruction to the log; its value is the new log position |
| Llvm.SymbolTable.constructor | src/llvm.rs:14 | a new table is empty |
| Llvm.SymbolTable.Clear | src/ast.rs:185 | the table becomes empty |
| Llvm.SymbolTable.Insert | src/ast.rs:187 | a later binding of a name replaces the earlier one |
| Codegen.Kind | src/ast.rs:131-136 | each operator is built with its own instruction: fadd, fsub, fmul, fdiv |
| Codegen.KindInjective | src/ast.rs:131-136 | distinct operators give distinct instructions |
| Codegen.ExprGen | src/ast.rs:50-137 | lowering only appends to the log |
| Codegen.ArgsGen | src/ast.rs:98-101 | lowering arguments only appends to the log; on success one value per argument |
| Codegen.CodegenExpr | src/ast.rs:50-137 | the result and the new log are those of ExprGen; module, symbol table and builder position are unchanged |
| Codegen.CodegenProto | src/ast.rs:148-162 | always appends a new function named after the prototype, whose parameter i is named `args[i]` |
| Codegen.ParamTable | src/ast.rs:185-188 | no contract of its own: the table after inserting the parameters in order; facts in `Codegen.ParamTableBinds` |
| Codegen.ParamTableBinds | src/ast.rs:185-188 | the table binds exactly the parameter names, each to its last occurrence |
| Codegen.CodegenFunc | src/ast.rs:173-194 | reuses the function of that name or creates one; appends an entry block and positions the builder there; the table is that function's parameters; a body failure is returned unchanged with nothing more emitted; otherwise a return is emitted, and a rejected function gives "Function verification failed" at the definition; the function stays in the module |
| Codegen.Leaves | src/ast.rs:57-76 | a number yields its constant; a variable yields its binding, or fails with "Undefined variable: name" and trace [itself]; neither emits anything |
| Codegen.BinarySequencing | src/ast.rs:129-136 | lhs before rhs, rhs only after lhs succeeded; a failure on either side gets the Binary node pushed; success appends one instruction of the operator's kind |
| Codegen.CallLowering | src/ast.rs:93-102 | an unknown callee fails with "Unknown function: name" and trace [the call] before any argument; success ends with one call to the resolved function with one value per argument |
| Codegen.ArgsGenAppend | src/ast.rs:98-101 | arguments are lowered left to right and the first failure wins |
| Codegen.PushedExtendsTrace | src/ast.rs:23-34 | pushing an enclosing node onto a propagation trace gives a propagation trace up to that node |
| Codegen.FailureTrace | src/ast.rs:50-137 | every lowering failure has a trace from an unbound variable or unknown callee, with the matching comment, up through each enclosing node to the expression |
| Codegen.ArgsFailureTrace | src/ast.rs:98-101 | the same for a failure among the arguments of a call |
| Codegen.EmitCount | src/ast.rs:50-137 | a successful lowering emits exactly one instruction per Binary and Call node |
| Codegen.ArgsEmitCount | src/ast.rs:98-101 | the same for the arguments of a call |
| Codegen.OnlyNamesMatter | src/ast.rs:97 | no arity check: lowering depends on the module only through its function names |
| Codegen.ArgsOnlyNamesMatter | src/ast.rs:97-101 | the same for the arguments of a call |
| Codegen.LookupSameNames | src/llvm.rs:60-68 | lookup depends only on the function names |
| Scenarios.DefineSum | src/ast.rs:173-194 | `def f(a, b) a + b` gives one function f(a, b) with one block, emitting an fadd of the two parameters and its return |
| Scenarios.DefineWithUnboundVariable | src/ast.rs:189 | a body failure has the trace [variable, Binary], with no frame for the definition; nothing is emitted and the function stays |
| Scenarios.DeclareThenDefine | src/ast.rs:179-188 | a second definition of a name reuses the first one's function, whose own parameter names fill the table, and adds a second entry block |
| Scenarios.DefineRejected | src/ast.rs:191-192 | a rejected function gives "Function verification failed" with trace [the definition], after the return was emitted |
| Scenarios.CallWithoutArityCheck | src/ast.rs:97-102 | a call with more arguments than the callee has parameters succeeds |
| Scenarios.CallUnknownFunction | src/ast.rs:93-96 | a call to an unknown function fails at the call |

## Left out

- The LLVM wrapper (src/llvm.rs) is modelled only as an abstract backend. It has no types, no textual rendering, and no renaming of a second function created under an existing name. LLVM also makes duplicate parameter names unique within a function (a second `a` becomes `a1`), so with the real backend `def f(a, a) a` binds `a` to the first parameter; `Codegen.ParamTableBinds` (the last occurrence wins) holds for the abstract backend only. The `CString::new(..).expect(..)` panic on a name containing a NUL character (src/llvm.rs:30,46,61,71) is not modelled: such a name is looked up and created like any other. Constant folding is not modelled. The value names such as "addtmp" and "calltmp" are not modelled.
- Function verification is a predicate passed to `Codegen.CodegenFunc`; what the backend checks is not modelled.
- Float semantics: a number is kept as its decimal literal, `Float(literal)`. Only whether the run converts is modelled: at least one digit and at most one dot. The converted value and floating-point arithmetic are not modelled. Token equality is therefore equality of literals: `Number(Float("1.0"))` and `Number(Float("1.00"))` differ, while the derived `PartialEq` of src/token.rs:4 makes `Token::Number(1.0)` and `Token::Number(1.00)` equal.
- Character classes are ASCII approximations of Rust's `is_whitespace`, `is_alphabetic` and `is_alphanumeric`.
- combine's error messages and error positions are not modelled. The distinction between a failure that consumed input and one that did not is modelled only where it changes the outcome: in `sep_by`, a first item that fails after consuming whitespace, and a comma not followed by a name (`many(sep.with(item))`), are both final failures.
- The parser functions `binary_expr`, `call_expr`, `func`, `extern_` and `input`, used by tests/parser.rs and src/bin/main.rs, are not part of this model.
- The REPL (src/bin/main.rs), the demo binary (src/main.rs) and the re-export module src/token/mod.rs are not part of this model.
- `Extern` has no code generation in the source, so the model has none.
- The `map_err(|e| e.pushed(self))` after `Proto::codegen` (src/ast.rs:181) is never taken: prototype lowering cannot fail, so `Codegen.CodegenProto` returns the handle directly.
- The trace holds copies of the nodes (`Ast.Node`) instead of borrowed references.
