/** Character classes and the "maximal run" primitive that the scanners of the
    front end are built from (the `letter`, `alpha_num`, `digit`, `spaces`,
    `many` and `many1` combinators they use), plus the shape of a scan result. */
module Lex {

  datatype Option<+T> = None | Some(value: T)

  /** Outcome of running a scanner on a string: a value and the unconsumed
      remainder, a parse failure, or an abort (a Rust panic raised while
      mapping the scanned text, such as `expect("Cannot parse float")`). */
  datatype Scan<+T> = Parsed(value: T, rest: string) | Failed | Aborted(message: string)

  /** A 64-bit float, represented by the decimal literal it was converted from.
      The conversion itself is not modelled. */
  datatype Float = Float(literal: string)

  // ASCII stand-ins for Rust's char::is_whitespace, is_alphabetic,
  // is_alphanumeric and is_digit(10).
  predicate IsSpace(c: char) { c == ' ' || '\t' <= c <= '\r' }
  predicate IsLetter(c: char) { 'a' <= c <= 'z' || 'A' <= c <= 'Z' }
  predicate IsDigit(c: char) { '0' <= c <= '9' }
  predicate IsAlphaNum(c: char) { IsLetter(c) || IsDigit(c) }

  // The characters that may start and continue a name, and those a number
  // literal is made of.
  predicate IsIdentStart(c: char) { IsLetter(c) || c == '_' }
  predicate IsIdentChar(c: char) { IsAlphaNum(c) || c == '_' }
  predicate IsDigitOrDot(c: char) { IsDigit(c) || c == '.' }

  /** The character classes whose maximal runs the scanners consume. */
  datatype Class = Space | AlphaNum | IdentChar | DigitOrDot

  predicate In(c: char, k: Class) {
    match k
    case Space => IsSpace(c)
    case AlphaNum => IsAlphaNum(c)
    case IdentChar => IsIdentChar(c)
    case DigitOrDot => IsDigitOrDot(c)
  }

  predicate All(s: string, k: Class) {
    forall i :: 0 <= i < |s| ==> In(s[i], k)
  }

  /** Length of the longest prefix of `s` whose characters are all in `k`. */
  function RunLength(s: string, k: Class): (n: nat)
    ensures n <= |s|
    ensures All(s[..n], k)
    ensures n < |s| ==> !In(s[n], k)
  {
    if s == [] || !In(s[0], k) then 0
    else
      var m := RunLength(s[1..], k);
      assert s[..1 + m] == [s[0]] + s[1..][..m];
      1 + m
  }

  /** Any split of a string into a run of `k`-characters followed by a remainder that
      does not start with one is the split RunLength finds: the maximal run is
      unique. */
  lemma {:induction false} RunLengthOf(run: string, rest: string, k: Class)
    requires All(run, k)
    requires rest == [] || !In(rest[0], k)
    ensures RunLength(run + rest, k) == |run|
  {
    if run != [] {
      assert (run + rest)[1..] == run[1..] + rest;
      RunLengthOf(run[1..], rest, k);
    } else {
      assert run + rest == rest;
    }
  }

  /** `rest` is what is left of `input` once a prefix has been consumed. */
  predicate IsTail(rest: string, input: string) {
    |rest| <= |input| && rest == input[|input| - |rest|..]
  }

  lemma TailOfTail(a: string, b: string, c: string)
    requires IsTail(a, b) && IsTail(b, c)
    ensures IsTail(a, c)
  {
    assert c[|c| - |b|..][|b| - |a|..] == c[|c| - |a|..];
  }
}
