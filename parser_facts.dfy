/** What the prototype parser accepts: every prototype whose name and
    parameters are names reads back from its rendering, with whitespace allowed
    around each name but not alone between the parentheses. The step lemmas
    each unfold one scanner or parser on an input of a known shape. */
module ParserFacts {
  import opened Lex
  import opened Tokens
  import opened Parser
  import Ast

  /** The tail of a parameter list holds only names, and what it leaves is
      a tail of its input. */
  lemma {:induction false} MoreParamsNames(input: string)
    ensures var r := MoreParams(input);
      && !r.Aborted?
      && (r.Parsed? ==> IsTail(r.rest, input) && AllNames(r.value))
    decreases |input|
  {
    if input != [] && input[0] == ',' {
      var t := ScanIdent(input[1..]);
      if t.Parsed? {
        MoreParamsNames(t.rest);
        var r := MoreParams(t.rest);
        if r.Parsed? {
          assert IsTail(input[1..], input);
          ScanIdentSuffix(input[1..]);
          TailOfTail(t.rest, input[1..], input);
          TailOfTail(r.rest, t.rest, input);
          assert forall a :: a in [t.value.name] + r.value ==> a == t.value.name || a in r.value;
        }
      }
    } else {
      assert input[|input| - |input|..] == input;
    }
  }

  /** A parameter list holds only names, and what it leaves is a tail of its
      input. */
  lemma ParamsNames(input: string)
    ensures var r := ParseParams(input);
      && !r.Aborted?
      && (r.Parsed? ==> IsTail(r.rest, input) && AllNames(r.value))
  {
    var t := ScanIdent(input);
    if t.Parsed? {
      MoreParamsNames(t.rest);
      var r := MoreParams(t.rest);
      if r.Parsed? {
        ScanIdentSuffix(input);
        TailOfTail(r.rest, t.rest, input);
        assert forall a :: a in [t.value.name] + r.value ==> a == t.value.name || a in r.value;
      }
    } else {
      assert input[|input| - |input|..] == input;
    }
  }

  /** A parsed prototype has a name and parameters that are all names, and
      what it leaves is a tail of its input, shorter by at least the name and
      the parentheses. */
  lemma ProtoNames(input: string)
    ensures var r := ParseProto(input);
      && !r.Aborted?
      && (r.Parsed? ==>
            && IsName(r.value.name) && AllNames(r.value.args)
            && |r.rest| < |input| && IsTail(r.rest, input))
  {
    var t := ScanIdent(input);
    if t.Parsed? && t.rest != [] && t.rest[0] == '(' {
      var ps := ParseParams(t.rest[1..]);
      ParamsNames(t.rest[1..]);
      if ps.Parsed? && ps.rest != [] && ps.rest[0] == ')' {
        ScanIdentSuffix(input);
        assert IsTail(t.rest[1..], t.rest);
        TailOfTail(t.rest[1..], t.rest, input);
        TailOfTail(ps.rest, t.rest[1..], input);
        assert IsTail(ps.rest[1..], ps.rest);
        TailOfTail(ps.rest[1..], ps.rest, input);
        assert ParseProto(input) == Parsed(Ast.Proto(t.value.name, ps.value), ps.rest[1..]);
      } else {
        assert ParseProto(input).Failed?;
      }
    } else {
      assert ParseProto(input).Failed?;
    }
  }

  /** A name after ", " scans as that name when nothing can extend it. */
  lemma {:induction false} IdentAfterComma(a: string, next: string)
    requires IsName(a)
    requires next == [] || (!IsIdentChar(next[0]) && !IsSpace(next[0]))
    ensures ScanIdent((", " + a + next)[1..]) == Parsed(Identifier(a), next)
  {
    assert (", " + a + next)[1..] == " " + a + "" + next;
    assert All(" ", Space);
    ScanIdentOf(" ", a, "", next);
  }

  lemma MoreParamsStep(input: string, a: string, next: string, ts: seq<string>, rest: string)
    requires input != [] && input[0] == ','
    requires ScanIdent(input[1..]) == Parsed(Identifier(a), next)
    requires MoreParams(next) == Parsed(ts, rest)
    ensures MoreParams(input) == Parsed([a] + ts, rest)
  {
  }

  /** What follows a parameter in a rendered list: nothing that extends it. */
  lemma {:induction false} AfterParam(args: seq<string>, rest: string)
    requires EndsList(rest)
    ensures var next := JoinRest(args) + rest;
      next == [] || (!IsIdentChar(next[0]) && !IsSpace(next[0]))
  {
    if args != [] {
      assert (JoinRest(args) + rest)[0] == ',';
    }
  }

  lemma ConsTail(s: seq<string>)
    requires s != []
    ensures [s[0]] + s[1..] == s
  {
  }

  lemma {:induction false} JoinRestUnfold(args: seq<string>, rest: string)
    requires args != []
    ensures JoinRest(args) + rest == ", " + args[0] + (JoinRest(args[1..]) + rest)
  {
  }

  lemma {:induction false} AllNamesTail(args: seq<string>)
    requires AllNames(args) && args != []
    ensures IsName(args[0]) && AllNames(args[1..])
  {
    assert args[0] in args;
    assert forall a :: a in args[1..] ==> a in args;
  }

  /** One more ", name" in front of a rendered list that already parses. */
  lemma {:induction false} MoreParamsCons(args: seq<string>, rest: string)
    requires args != [] && AllNames(args) && EndsList(rest)
    requires MoreParams(JoinRest(args[1..]) + rest) == Parsed(args[1..], rest)
    ensures MoreParams(JoinRest(args) + rest) == Parsed(args, rest)
  {
    var next := JoinRest(args[1..]) + rest;
    AllNamesTail(args);
    AfterParam(args[1..], rest);
    IdentAfterComma(args[0], next);
    MoreParamsStep(", " + args[0] + next, args[0], next, args[1..], rest);
    JoinRestUnfold(args, rest);
    ConsTail(args);
  }

  lemma {:induction false} MoreParamsOf(args: seq<string>, rest: string)
    requires AllNames(args) && EndsList(rest)
    ensures MoreParams(JoinRest(args) + rest) == Parsed(args, rest)
    decreases |args|
  {
    if args == [] {
      assert JoinRest(args) + rest == rest;
    } else {
      AllNamesTail(args);
      MoreParamsOf(args[1..], rest);
      MoreParamsCons(args, rest);
    }
  }

  /** A name followed by text that cannot extend it scans as that name. */
  lemma NameThen(a: string, next: string)
    requires IsName(a)
    requires next == [] || (!IsIdentChar(next[0]) && !IsSpace(next[0]))
    ensures ScanIdent(a + next) == Parsed(Identifier(a), next)
  {
    ScanIdentOf("", a, "", next);
    assert "" + a + "" + next == a + next;
  }

  lemma ParamsStep(input: string, a: string, next: string, ts: seq<string>, rest: string)
    requires ScanIdent(input) == Parsed(Identifier(a), next)
    requires MoreParams(next) == Parsed(ts, rest)
    ensures ParseParams(input) == Parsed([a] + ts, rest)
  {
  }

  lemma JoinUnfold(args: seq<string>, rest: string)
    requires args != []
    ensures Join(args) + rest == args[0] + (JoinRest(args[1..]) + rest)
  {
  }

  lemma {:induction false} ParamsOf(args: seq<string>, rest: string)
    requires AllNames(args) && EndsList(rest)
    ensures ParseParams(Join(args) + rest) == Parsed(args, rest)
  {
    if args == [] {
      assert Join(args) + rest == rest;
      ScanIdentFails(rest);
    } else {
      var next := JoinRest(args[1..]) + rest;
      AllNamesTail(args);
      AfterParam(args[1..], rest);
      NameThen(args[0], next);
      MoreParamsOf(args[1..], rest);
      ParamsStep(args[0] + next, args[0], next, args[1..], rest);
      JoinUnfold(args, rest);
      ConsTail(args);
    }
  }

  lemma ProtoStep(input: string, name: string, params: string, args: seq<string>, rest: string)
    requires ScanIdent(input) == Parsed(Identifier(name), "(" + params)
    requires ParseParams(params) == Parsed(args, ")" + rest)
    ensures ParseProto(input) == Parsed(Ast.Proto(name, args), rest)
  {
    assert ("(" + params)[1..] == params;
    assert (")" + rest)[1..] == rest;
  }

  lemma RenderUnfold(p: Ast.Proto, rest: string)
    ensures Render(p) + rest == p.name + ("(" + (Join(p.args) + (")" + rest)))
  {
  }

  /** The name of a rendered prototype scans up to its `(`. */
  lemma NameOfRender(p: Ast.Proto, rest: string)
    requires IsName(p.name)
    ensures var params := Join(p.args) + (")" + rest);
      ScanIdent(p.name + ("(" + params)) == Parsed(Identifier(p.name), "(" + params)
  {
    NameThen(p.name, "(" + (Join(p.args) + (")" + rest)));
  }

  /** The parameters of a rendered prototype parse up to its `)`. */
  lemma ParamsOfRender(p: Ast.Proto, rest: string)
    requires AllNames(p.args)
    ensures ParseParams(Join(p.args) + (")" + rest)) == Parsed(p.args, ")" + rest)
  {
    ParamsOf(p.args, ")" + rest);
  }

  /** Round trip: a prototype whose name and parameters are names, written as
      `name(a, b, ...)`, parses back to itself, parameters in source order and
      duplicates kept, whatever text follows the closing parenthesis. */
  lemma {:induction false} ProtoRoundTrip(p: Ast.Proto, rest: string)
    requires IsName(p.name) && AllNames(p.args)
    ensures ParseProto(Render(p) + rest) == Parsed(p, rest)
  {
    RenderUnfold(p, rest);
    NameOfRender(p, rest);
    ParamsOfRender(p, rest);
    var params := Join(p.args) + (")" + rest);
    ProtoStep(p.name + ("(" + params), p.name, params, p.args, rest);
  }

  /** Whitespace alone between the parentheses is rejected: `ident` consumes
      it and then fails, and a failure after consuming input is final. */
  lemma SpacesOnlyFails(name: string, lead: string, rest: string)
    requires IsName(name) && lead != [] && All(lead, Space)
    ensures ParseProto(name + "(" + lead + ")" + rest).Failed?
  {
    var params := lead + ")" + rest;
    assert name + "(" + lead + ")" + rest == name + ("(" + params);
    assert ("(" + params)[1..] == params;
    assert params[0] == lead[0];
    forall k | 0 <= k < |params| && All(params[..k], Space)
      ensures !IsIdentStart(params[k])
    {
      assert params[|lead|] == ')';
      if k < |lead| {
        assert params[k] == lead[k];
      }
    }
    ScanIdentFails(params);
    NameThen(name, "(" + params);
  }

  // Concrete cases.

  lemma RenderThree()
    ensures Render(Ast.Proto("f", ["a", "b", "c"])) == "f(a, b, c)"
  {
    assert JoinRest(["c"]) == ", c";
    assert JoinRest(["b", "c"]) == ", b, c";
  }

  lemma ProtoThree()
    ensures ParseProto("f(a, b, c)") == Parsed(Ast.Proto("f", ["a", "b", "c"]), "")
  {
    var p := Ast.Proto("f", ["a", "b", "c"]);
    assert "f"[1..] == [] && "a"[1..] == [] && "b"[1..] == [] && "c"[1..] == [];
    assert AllNames(p.args);
    RenderThree();
    assert Render(p) + "" == "f(a, b, c)";
    ProtoRoundTrip(p, "");
  }

  lemma ProtoNoParams()
    ensures ParseProto("f()") == Parsed(Ast.Proto("f", []), "")
  {
    var p := Ast.Proto("f", []);
    assert "f"[1..] == [];
    assert Render(p) + "" == "f()";
    ProtoRoundTrip(p, "");
  }

  /** A repeated parameter name is kept as written. */
  lemma ProtoRepeatedParam()
    ensures ParseProto("f(a, a)") == Parsed(Ast.Proto("f", ["a", "a"]), "")
  {
    var p := Ast.Proto("f", ["a", "a"]);
    assert "f"[1..] == [] && "a"[1..] == [];
    assert AllNames(p.args);
    assert JoinRest(["a"]) == ", a";
    assert Render(p) + "" == "f(a, a)";
    ProtoRoundTrip(p, "");
  }

  // Prototypes written with whitespace around the name and around every
  // parameter. `pads[i]` holds the whitespace before and after parameter i.

  predicate AllPads(pads: seq<(string, string)>) {
    forall i :: 0 <= i < |pads| ==> All(pads[i].0, Space) && All(pads[i].1, Space)
  }

  /** `, a, b, ...` with each name padded by its whitespace. */
  function SpacedMore(args: seq<string>, pads: seq<(string, string)>): string
    requires |pads| == |args|
  {
    if args == [] then ""
    else "," + (pads[0].0 + args[0] + pads[0].1 + SpacedMore(args[1..], pads[1..]))
  }

  /** `a, b, ...` with each name padded by its whitespace. */
  function SpacedList(args: seq<string>, pads: seq<(string, string)>): string
    requires |pads| == |args|
  {
    if args == [] then ""
    else pads[0].0 + args[0] + pads[0].1 + SpacedMore(args[1..], pads[1..])
  }

  lemma AllPadsTail(pads: seq<(string, string)>)
    requires AllPads(pads) && pads != []
    ensures All(pads[0].0, Space) && All(pads[0].1, Space) && AllPads(pads[1..])
  {
    assert forall i :: 0 <= i < |pads[1..]| ==> pads[1..][i] == pads[i + 1];
  }

  /** What follows a padded parameter: a comma or the end of the list. */
  lemma AfterSpacedParam(args: seq<string>, pads: seq<(string, string)>, tail: string)
    requires |pads| == |args| && EndsList(tail)
    ensures var next := SpacedMore(args, pads) + tail;
      next == [] || (!IsIdentChar(next[0]) && !IsSpace(next[0]))
  {
    if args != [] {
      assert (SpacedMore(args, pads) + tail)[0] == ',';
    }
  }

  lemma SpacedMoreUnfold(args: seq<string>, pads: seq<(string, string)>, tail: string)
    requires |pads| == |args| && args != []
    ensures SpacedMore(args, pads) + tail ==
      "," + (pads[0].0 + args[0] + pads[0].1 + (SpacedMore(args[1..], pads[1..]) + tail))
  {
  }

  lemma SpacedListUnfold(args: seq<string>, pads: seq<(string, string)>, tail: string)
    requires |pads| == |args| && args != []
    ensures SpacedList(args, pads) + tail ==
      pads[0].0 + args[0] + pads[0].1 + (SpacedMore(args[1..], pads[1..]) + tail)
  {
  }

  /** One more padded `, name` in front of a padded tail that already parses. */
  lemma SpacedMoreCons(args: seq<string>, pads: seq<(string, string)>, tail: string)
    requires |pads| == |args| && args != [] && AllNames(args) && AllPads(pads) && EndsList(tail)
    requires MoreParams(SpacedMore(args[1..], pads[1..]) + tail) == Parsed(args[1..], tail)
    ensures MoreParams(SpacedMore(args, pads) + tail) == Parsed(args, tail)
  {
    var next := SpacedMore(args[1..], pads[1..]) + tail;
    var input := "," + (pads[0].0 + args[0] + pads[0].1 + next);
    SpacedMoreUnfold(args, pads, tail);
    assert input[1..] == pads[0].0 + args[0] + pads[0].1 + next;
    ConsTail(args);
    AllNamesTail(args);
    AllPadsTail(pads);
    AfterSpacedParam(args[1..], pads[1..], tail);
    ScanIdentOf(pads[0].0, args[0], pads[0].1, next);
    MoreParamsStep(input, args[0], next, args[1..], tail);
  }

  lemma {:induction false} SpacedMoreOf(args: seq<string>, pads: seq<(string, string)>, tail: string)
    requires |pads| == |args| && AllNames(args) && AllPads(pads) && EndsList(tail)
    ensures MoreParams(SpacedMore(args, pads) + tail) == Parsed(args, tail)
    decreases |args|
  {
    if args == [] {
      assert SpacedMore(args, pads) + tail == tail;
    } else {
      AllNamesTail(args);
      AllPadsTail(pads);
      SpacedMoreOf(args[1..], pads[1..], tail);
      SpacedMoreCons(args, pads, tail);
    }
  }

  /** A padded list parses to exactly its names, in order. */
  lemma {:induction false} SpacedListOf(args: seq<string>, pads: seq<(string, string)>, tail: string)
    requires |pads| == |args| && AllNames(args) && AllPads(pads) && EndsList(tail)
    ensures ParseParams(SpacedList(args, pads) + tail) == Parsed(args, tail)
  {
    if args == [] {
      assert SpacedList(args, pads) + tail == tail;
      ScanIdentFails(tail);
    } else {
      var next := SpacedMore(args[1..], pads[1..]) + tail;
      var input := pads[0].0 + args[0] + pads[0].1 + next;
      SpacedListUnfold(args, pads, tail);
      ConsTail(args);
      AllNamesTail(args);
      AllPadsTail(pads);
      AfterSpacedParam(args[1..], pads[1..], tail);
      ScanIdentOf(pads[0].0, args[0], pads[0].1, next);
      SpacedMoreOf(args[1..], pads[1..], tail);
      ParamsStep(input, args[0], next, args[1..], tail);
    }
  }

  /** A padded name followed by `(`. */
  lemma SpacedName(l1: string, name: string, l2: string, params: string)
    requires All(l1, Space) && IsName(name) && All(l2, Space)
    ensures ScanIdent(l1 + name + l2 + ("(" + params)) == Parsed(Identifier(name), "(" + params)
  {
    assert ("(" + params)[0] == '(';
    ScanIdentOf(l1, name, l2, "(" + params);
  }

  /** A padded list followed by `)`. */
  lemma SpacedParams(args: seq<string>, pads: seq<(string, string)>, rest: string)
    requires |pads| == |args| && AllNames(args) && AllPads(pads)
    ensures ParseParams(SpacedList(args, pads) + (")" + rest)) == Parsed(args, ")" + rest)
  {
    assert (")" + rest)[0] == ')';
    SpacedListOf(args, pads, ")" + rest);
  }

  /** Whitespace is allowed around the name, after `(`, before `)` and on
      either side of every comma, because every name goes through `ident`:
      a padded prototype parses to its name and parameters, in order. */
  lemma SpacedRoundTrip(l1: string, name: string, l2: string, args: seq<string>,
                        pads: seq<(string, string)>, rest: string)
    requires All(l1, Space) && IsName(name) && All(l2, Space)
    requires |pads| == |args| && AllNames(args) && AllPads(pads)
    ensures ParseProto(l1 + name + l2 + ("(" + (SpacedList(args, pads) + (")" + rest)))) ==
      Parsed(Ast.Proto(name, args), rest)
  {
    var params := SpacedList(args, pads) + (")" + rest);
    SpacedName(l1, name, l2, params);
    SpacedParams(args, pads, rest);
    ProtoStep(l1 + name + l2 + ("(" + params), name, params, args, rest);
  }

  lemma SpacesOnlyExample()
    ensures ParseProto("f( )").Failed?
  {
    assert "f( )" == "f" + "(" + " " + ")" + "";
    assert "f"[1..] == [];
    assert All(" ", Space);
    SpacesOnlyFails("f", " ", "");
  }
}
