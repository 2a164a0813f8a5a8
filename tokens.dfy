/** The token type of the front end and its character-level scanners: numbers,
    the `def` and `extern` keywords, identifiers and end of input. Each scanner
    takes the input text and yields a token with the unconsumed remainder, a
    parse failure, or (for numbers only) an abort. */
module Tokens {
  import opened Lex

  datatype Token = EOF | Def | Extern | Identifier(name: string) | Number(value: Float)

  /** The payload of a Number token, and nothing for any other token. */
  function AsNumber(t: Token): (r: Option<Float>)
    ensures r.Some? <==> t.Number?
    ensures r.Some? ==> t == Number(r.value)
  {
    match t
    case Number(f) => Some(f)
    case _ => None
  }

  /** The name carried by an Identifier token, and nothing for any other token. */
  function AsIdent(t: Token): (r: Option<string>)
    ensures r.Some? <==> t.Identifier?
    ensures r.Some? ==> t == Identifier(r.value)
  {
    match t
    case Identifier(s) => Some(s)
    case _ => None
  }

  function DotCount(s: string): nat {
    if s == [] then 0 else (if s[0] == '.' then 1 else 0) + DotCount(s[1..])
  }

  /** Whether a run of digits and dots is accepted by Rust's `str::parse::<f64>`:
      it needs at least one digit and at most one decimal point. */
  predicate IsFloatLiteral(s: string) {
    DotCount(s) <= 1 && exists i | 0 <= i < |s| :: IsDigit(s[i])
  }

  /** Runs with a digit and at most one dot convert, wherever the dot is;
      a lone dot or a second dot does not. */
  lemma FloatLiteralExamples()
    ensures IsFloatLiteral("1.") && IsFloatLiteral(".5") && IsFloatLiteral("42")
    ensures !IsFloatLiteral(".") && !IsFloatLiteral("1..2")
  {
    assert "1."[1..] == "." && "."[1..] == [];
    assert ".5"[1..] == "5" && "5"[1..] == [];
    assert "42"[1..] == "2" && "2"[1..] == [];
    assert "1..2"[1..] == "..2" && "..2"[1..] == ".2";
    assert IsDigit("1."[0]) && IsDigit(".5"[1]) && IsDigit("42"[0]);
  }

  /** `number`: the maximal non-empty run of digits and dots, converted to a
      float; a run that does not convert aborts instead of failing. Nothing is
      skipped before or after the run. */
  function ScanNumber(input: string): (r: Scan<Token>)
    ensures r.Failed? <==> input == [] || !IsDigitOrDot(input[0])
    ensures r.Aborted? ==> r.message == "Cannot parse float"
    ensures r.Parsed? ==>
      && r.value.Number?
      && var lexeme := r.value.value.literal;
      && input == lexeme + r.rest
      && lexeme != [] && All(lexeme, DigitOrDot) && IsFloatLiteral(lexeme)
      && (r.rest == [] || !IsDigitOrDot(r.rest[0]))
  {
    var n := RunLength(input, DigitOrDot);
    if n == 0 then Failed
    else
      assert input == input[..n] + input[n..];
      if IsFloatLiteral(input[..n]) then Parsed(Number(Float(input[..n])), input[n..])
      else Aborted("Cannot parse float")
  }

  /** What `number` does with any input that starts with a maximal run of
      digits and dots: a Number holding exactly that run, or the abort. */
  lemma ScanNumberOf(lexeme: string, rest: string)
    requires lexeme != [] && All(lexeme, DigitOrDot)
    requires rest == [] || !IsDigitOrDot(rest[0])
    ensures ScanNumber(lexeme + rest) ==
      if IsFloatLiteral(lexeme) then Parsed(Number(Float(lexeme)), rest)
      else Aborted("Cannot parse float")
  {
    RunLengthOf(lexeme, rest, DigitOrDot);
    assert (lexeme + rest)[..|lexeme|] == lexeme;
    assert (lexeme + rest)[|lexeme|..] == rest;
  }

  /** `def`: the exact text "def", with nothing skipped. */
  function ScanDef(input: string): (r: Scan<Token>)
    ensures r.Parsed? <==> "def" <= input
    ensures r.Parsed? ==> r.value == Def && input == "def" + r.rest
    ensures !r.Aborted?
  {
    if |input| >= 3 && input[..3] == "def" then Parsed(Def, input[3..]) else Failed
  }

  /** `extern_`: the exact text "extern", with nothing skipped. */
  function ScanExtern(input: string): (r: Scan<Token>)
    ensures r.Parsed? <==> "extern" <= input
    ensures r.Parsed? ==> r.value == Extern && input == "extern" + r.rest
    ensures !r.Aborted?
  {
    if |input| >= 6 && input[..6] == "extern" then Parsed(Extern, input[6..]) else Failed
  }

  /** A name `ident` can produce: a letter or underscore, then letters, digits
      and underscores. */
  predicate IsName(s: string) {
    |s| > 0 && IsIdentStart(s[0]) && All(s[1..], IdentChar)
  }

  /** `spaces`: drops the maximal run of leading whitespace. */
  function SkipSpaces(s: string): (r: string)
    ensures |r| <= |s| && r == s[|s| - |r|..]
    ensures r == [] || !IsSpace(r[0])
  {
    s[RunLength(s, Space)..]
  }

  lemma SkipSpacesOf(lead: string, rest: string)
    requires All(lead, Space)
    requires rest == [] || !IsSpace(rest[0])
    ensures SkipSpaces(lead + rest) == rest
  {
    RunLengthOf(lead, rest, Space);
    assert (lead + rest)[|lead|..] == rest;
  }

  /** `ident`: optional whitespace, a letter or underscore followed by the
      maximal run of alphanumerics and underscores, optional whitespace. There
      is no keyword check. */
  function ScanIdent(input: string): (r: Scan<Token>)
    ensures !r.Aborted?
    ensures r.Parsed? ==>
      && r.value.Identifier?
      && IsName(r.value.name)
      && |r.rest| < |input|
      && (r.rest == [] || !IsSpace(r.rest[0]))
  {
    var s := SkipSpaces(input);
    if s != [] && IsIdentStart(s[0]) then
      var n := 1 + RunLength(s[1..], IdentChar);
      assert s[..n][1..] == s[1..][..n - 1];
      Parsed(Identifier(s[..n]), SkipSpaces(s[n..]))
    else Failed
  }

  /** What `ident` leaves unconsumed is the tail of its input. */
  lemma ScanIdentSuffix(input: string)
    requires ScanIdent(input).Parsed?
    ensures IsTail(ScanIdent(input).rest, input)
  {
  }

  /** Completeness of `ident`: leading whitespace, a name that cannot be
      extended, trailing whitespace and a remainder that does not start with
      whitespace always scan to that name and that remainder. */
  lemma {:induction false} ScanIdentOf(lead: string, name: string, trail: string, rest: string)
    requires All(lead, Space) && IsName(name) && All(trail, Space)
    requires trail != [] || rest == [] || !IsIdentChar(rest[0])
    requires rest == [] || !IsSpace(rest[0])
    ensures ScanIdent(lead + name + trail + rest) == Parsed(Identifier(name), rest)
  {
    var after := trail + rest;
    var s := name + after;
    assert lead + name + trail + rest == lead + s;
    SkipSpacesOf(lead, s);
    assert s[1..] == name[1..] + after;
    RunLengthOf(name[1..], after, IdentChar);
    var n := |name|;
    assert s[..n] == name;
    assert s[n..] == after;
    SkipSpacesOf(trail, rest);
  }

  /** `ident` fails exactly when the first character after the leading
      whitespace is missing or cannot start a name. */
  lemma ScanIdentFails(input: string)
    ensures ScanIdent(input).Failed? <==>
      forall k :: 0 <= k < |input| && All(input[..k], Space) ==> !IsIdentStart(input[k])
  {
    var i := RunLength(input, Space);
    forall k | 0 <= k < |input| && All(input[..k], Space) && IsIdentStart(input[k])
      ensures k == i
    {
      assert input == input[..k] + input[k..];
      RunLengthOf(input[..k], input[k..], Space);
    }
  }

  /** `eof`: succeeds only on the empty input. */
  function ScanEof(input: string): (r: Scan<Token>)
    ensures r.Parsed? <==> input == []
    ensures r.Parsed? ==> r.value == EOF && r.rest == []
    ensures !r.Aborted?
  {
    if input == [] then Parsed(EOF, input) else Failed
  }

  // Concrete cases from the scanners' own tests.

  /** A well-formed literal scans whole. */
  lemma NumberExample()
    ensures ScanNumber("1.234") == Parsed(Number(Float("1.234")), "")
  {
    var good := "1.234";
    assert good + "" == good;
    assert All(good, DigitOrDot) by {
      forall i | 0 <= i < |good| ensures IsDigitOrDot(good[i]) {}
    }
    ScanNumberOf(good, "");
    assert IsDigit(good[0]);
    assert DotCount(good) == 1 by {
      assert good[1..] == ".234" && good[2..] == "234";
      assert DotCount("234") == 0 by {
        assert "234"[1..] == "34" && "34"[1..] == "4" && "4"[1..] == [];
      }
    }
  }

  /** A run with two dots is consumed, then rejected by the conversion. */
  lemma MalformedNumber()
    ensures ScanNumber("1.2.3") == Aborted("Cannot parse float")
  {
    var bad := "1.2.3";
    assert bad + "" == bad;
    assert All(bad, DigitOrDot) by {
      forall i | 0 <= i < |bad| ensures IsDigitOrDot(bad[i]) {}
    }
    ScanNumberOf(bad, "");
    assert DotCount(bad) == 2 by {
      assert bad[1..] == ".2.3" && ".2.3"[1..] == "2.3" && "2.3"[1..] == ".3";
      assert ".3"[1..] == "3" && "3"[1..] == [];
    }
  }

  /** Neither leading whitespace nor a sign starts a number. */
  lemma NumberNeedsDigitOrDot()
    ensures ScanNumber(" 1").Failed? && ScanNumber("-1").Failed?
  {
  }

  lemma IdentExample()
    ensures ScanIdent("v") == Parsed(Identifier("v"), "")
  {
    assert "v"[1..] == [];
    WholeName("v");
  }

  /** Digits may follow the first character. */
  lemma IdentWithDigits()
    ensures ScanIdent("a12") == Parsed(Identifier("a12"), "")
  {
    assert "a12"[1..] == "12";
    assert All("12", IdentChar);
    WholeName("a12");
  }

  /** Underscores may follow the first character. */
  lemma IdentWithUnderscore()
    ensures ScanIdent("a_a") == Parsed(Identifier("a_a"), "")
  {
    assert "a_a"[1..] == "_a";
    WholeName("a_a");
  }

  /** Whitespace ends a name; the whitespace after it is consumed. */
  lemma IdentStopsAtSpace()
    ensures ScanIdent("a a") == Parsed(Identifier("a"), "a")
  {
    assert "a a" == "" + "a" + " " + "a";
    assert All(" ", Space) && IsName("a");
    ScanIdentOf("", "a", " ", "a");
  }

  /** No keyword check: "def" is an identifier to `ident`. */
  lemma KeywordIsIdent()
    ensures ScanIdent("def") == Parsed(Identifier("def"), "")
  {
    assert "def"[1..] == "ef";
    WholeName("def");
  }

  /** A name alone scans whole. */
  lemma WholeName(name: string)
    requires IsName(name)
    ensures ScanIdent(name) == Parsed(Identifier(name), "")
  {
    ScanIdentOf("", name, "", "");
    assert "" + name + "" + "" == name;
  }

  lemma KeywordExamples()
    ensures ScanDef("def") == Parsed(Def, "")
    ensures ScanExtern("extern") == Parsed(Extern, "")
    ensures ScanDef("define") == Parsed(Def, "ine")
    ensures ScanDef(" def").Failed? && ScanExtern("ext").Failed?
  {
    assert "define"[..3] == "def" && "define"[3..] == "ine";
    assert " def"[..3] != "def" by { assert " def"[..3][0] == ' '; }
  }
}
