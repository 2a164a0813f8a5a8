/** The stand-alone number scanner, `Number::parse_stream`: the same
    combinator as the `number` scanner of the token module. */
module NumberScanner {
  import opened Lex
  import opened Tokens

  /** `Number::parse_stream`, the parser `number()` returns: at least one digit
      or dot, the maximal such run and nothing else, always a Number token. */
  function ParseStream(input: string): (r: Scan<Token>)
    ensures r.Failed? <==> input == [] || !IsDigitOrDot(input[0])
    ensures r.Parsed? ==>
      && r.value.Number?
      && var lexeme := r.value.value.literal;
      && input == lexeme + r.rest
      && lexeme != [] && All(lexeme, DigitOrDot) && IsFloatLiteral(lexeme)
      && (r.rest == [] || !IsDigitOrDot(r.rest[0]))
    ensures r.Aborted? ==> r.message == "Cannot parse float"
  {
    ScanNumber(input)
  }

  /** Any input that starts with a maximal run of digits and dots scans to a
      Number holding exactly that run exactly when the run is a float
      literal, and aborts exactly when it is not. */
  lemma ParseStreamOf(lexeme: string, rest: string)
    requires lexeme != [] && All(lexeme, DigitOrDot)
    requires rest == [] || !IsDigitOrDot(rest[0])
    ensures IsFloatLiteral(lexeme) <==> ParseStream(lexeme + rest) == Parsed(Number(Float(lexeme)), rest)
    ensures !IsFloatLiteral(lexeme) <==> ParseStream(lexeme + rest).Aborted?
  {
    ScanNumberOf(lexeme, rest);
  }

  /** A run of digits and dots that is not a float literal aborts, whatever
      follows it. */
  lemma MalformedRunAborts(lexeme: string, rest: string)
    requires lexeme != [] && All(lexeme, DigitOrDot) && !IsFloatLiteral(lexeme)
    requires rest == [] || !IsDigitOrDot(rest[0])
    ensures ParseStream(lexeme + rest) == Aborted("Cannot parse float")
  {
    ScanNumberOf(lexeme, rest);
  }

  lemma ParseStreamExample()
    ensures ParseStream("1.234") == Parsed(Number(Float("1.234")), "")
  {
    NumberExample();
  }
}
