/** The stand-alone identifier scanner: a letter followed by the maximal run of
    letters and digits. Unlike the `ident` scanner of the token module it
    accepts no underscore and skips no whitespace. */
module IdentifierScanner {
  import opened Lex
  import opened Tokens

  /** `Identifier::parse_stream`, the parser `identifier()` returns. */
  function ParseStream(input: string): (r: Scan<Token>)
    ensures !r.Aborted?
    ensures r.Failed? <==> input == [] || !IsLetter(input[0])
    ensures r.Parsed? ==>
      && r.value.Identifier?
      && var name := r.value.name;
      && input == name + r.rest
      && |name| > 0 && IsLetter(name[0]) && All(name[1..], AlphaNum)
      && (r.rest == [] || !IsAlphaNum(r.rest[0]))
  {
    if input != [] && IsLetter(input[0]) then
      var n := 1 + RunLength(input[1..], AlphaNum);
      assert input[..n][1..] == input[1..][..n - 1];
      assert input == input[..n] + input[n..];
      Parsed(Identifier(input[..n]), input[n..])
    else Failed
  }

  /** Where the two identifier scanners agree: a name found by `identifier()`
      that is followed neither by an underscore nor by whitespace is also what
      `ident` finds, with the same remainder. */
  lemma AgreesWithIdent(input: string)
    requires ParseStream(input).Parsed?
    requires var rest := ParseStream(input).rest; rest == [] || (rest[0] != '_' && !IsSpace(rest[0]))
    ensures ScanIdent(input) == ParseStream(input)
  {
    var r := ParseStream(input);
    var name := r.value.name;
    assert IsName(name);
    ScanIdentOf("", name, "", r.rest);
    assert "" + name + "" + r.rest == input;
  }

  lemma ParseStreamExample()
    ensures ParseStream("a") == Parsed(Identifier("a"), "")
  {
    assert "a"[1..] == [] && "a"[..1] == "a";
  }

  /** The name stops before whitespace, which is left in the remainder. */
  lemma ParseStreamStopsAtSpace()
    ensures ParseStream("ab1 c") == Parsed(Identifier("ab1"), " c")
  {
    assert "ab1 c"[1..] == "b1 c";
    assert "ab1 c"[..3] == "ab1" && "ab1 c"[3..] == " c";
  }

  /** Only a letter starts a name here: not an underscore, whitespace or a
      digit. */
  lemma ParseStreamRejects()
    ensures ParseStream("_a").Failed? && ParseStream(" a").Failed? && ParseStream("1a").Failed?
  {
  }
}
