/**
 * The recursive-descent argument parser of args.cxx. It matches each
 * argument against the option table and appends to a tree: the node of a
 * matched option, an argUnrecognised_t for anything else (with the text
 * after an '=' as its parameter), and nothing for "--dump-ast", which only
 * sets the dump flag. The globals `args` and `needASTDump` are the fields of
 * an `Arguments` object; a C++ exception is the `Raised` outcome.
 *
 * The parser is specified over the lexer's lookahead: the current token and
 * the tokens still to come, which the tokenizer is proved to hand out one
 * per next().
 *
 * As written, an "--name=value" argument that matches no option adds
 * argUnrecognised_t(name, value) but leaves the value token current, so the
 * next round of the parse loop adds a second node, argUnrecognised_t(value);
 * `AssignedArgument` shows it.
 */
module ArgsParser {
  import opened Options
  import opened ArgsTokenizer
  import opened ArgsTypes

  /** typeToName(): a fixed name for each token type, for error messages. */
  function TypeToName(kind: TokenType): (name: string)
    ensures name != ""
  {
    match kind
    case Unknown => "unknown"
    case Arg => "argument"
    case Space => "implicit space"
    case Equals => "equals sign"
  }

  /** No two token types share a name. */
  lemma TypeNamesDistinct(a: TokenType, b: TokenType)
    ensures TypeToName(a) == TypeToName(b) <==> a == b
  {
  }

  /** What the parser sees of the lexer: the current token and those to come. */
  datatype Lookahead = Lookahead(token: Token, rest: seq<Token>)

  /** The lookahead of a lexer. */
  function Look(lexer: Tokenizer): Lookahead
    reads lexer
    requires lexer.Valid()
  {
    Lookahead(lexer.token, lexer.Pending())
  }

  /** The lookahead after next(). */
  function Advance(l: Lookahead): (r: Lookahead)
    ensures |r.rest| <= |l.rest| && Size(r) <= |l.rest|
  {
    Lookahead(Head(l.rest), Tail(l.rest))
  }

  /** How many valid tokens are left, counting the current one. */
  function Size(l: Lookahead): nat
  {
    |l.rest| + (if l.token.Valid() then 1 else 0)
  }

  /** The lookahead of a lexer just built over `args`. */
  function Initial(args: seq<string>): Lookahead
  {
    Lookahead(Head(Stream(args)), Tail(Stream(args)))
  }

  /** The position of the first option spelled `name`, or the table's size. */
  function FindOption(options: seq<OptionSpec>, name: string): (i: nat)
    ensures i <= |options|
    ensures i < |options| ==> options[i].Name() == name
    ensures forall j :: 0 <= j < i ==> options[j].Name() != name
  {
    if options == [] then 0
    else if options[0].Name() == name then 0
    else 1 + FindOption(options[1..], name)
  }

  /** The nodes an optional node adds to a tree. */
  function Nodes(node: Option<ArgNode>): seq<ArgNode>
  {
    if node.Some? then [node.value] else []
  }

  /**
   * What one parse step does: it throws, or it returns `ok` having built at
   * most one node, perhaps set the dump flag, and left the lexer at `after`.
   */
  datatype Parsed = Threw | Parsed(ok: bool, node: Option<ArgNode>, dump: bool, after: Lookahead)

  /**
   * parseArgument(): a leading space is skipped; any token but an argument
   * is refused; a matched option becomes its node (makeNode); "--dump-ast"
   * sets the dump flag; anything else is unrecognised, with the token after
   * an '=' as its parameter unless that is a space.
   */
  function ParseArg(options: seq<OptionSpec>, l: Lookahead): (r: Parsed)
    ensures r.Parsed? && r.ok ==> Size(r.after) < Size(l)
    ensures r.Parsed? && !r.ok ==> r == Parsed(false, None, false, l)
    decreases Size(l), 0
  {
    if l.token.kind != Space && l.token.kind != Arg then Parsed(false, None, false, l)
    else
      var l1 := if l.token.kind == Space then Advance(l) else l;
      var argument := l1.token.value;
      var i := FindOption(options, argument);
      var l2 := Advance(l1);
      if i < |options| then MakeNodeOf(options, options[i].kind, l2)
      else Unmatched(argument, l2)
  }

  /**
   * The end of parseArgument() for an argument that names no option, once
   * the token after it is current: "--dump-ast" sets the dump flag;
   * otherwise an unrecognised node, with the token after an '=' as its
   * parameter unless that is a space.
   */
  function Unmatched(argument: string, l: Lookahead): (r: Parsed)
    ensures r.Parsed? && r.ok && Size(r.after) <= Size(l)
  {
    if argument == "--dump-ast" then Parsed(true, None, true, l)
    else if l.token.kind != Equals then Parsed(true, Some(UnrecognisedArgument(argument)), false, l)
    else
      var l3 := Advance(l);
      if l3.token.kind == Space then Parsed(true, Some(UnrecognisedArgument(argument)), false, l3)
      else Parsed(true, Some(UnrecognisedNode(argument, l3.token.value)), false, l3)
  }

  /**
   * makeNode() after its next(): a tree option parses one argument into a
   * new tree, help and version make their nodes, and any other type throws.
   */
  function MakeNodeOf(options: seq<OptionSpec>, kind: ArgType, l: Lookahead): (r: Parsed)
    ensures r.Parsed? ==> r.ok && r.node.Some? && Size(r.after) <= Size(l)
    decreases Size(l), 2
  {
    match kind
    case Tree => ParseTreeOf(options, l)
    case Help => Parsed(true, Some(OfKind(Help)), false, l)
    case Version => Parsed(true, Some(OfKind(Version)), false, l)
    case Unrecognised => Threw
  }

  /** parseTree(): one argument into a new tree, or a throw if it is refused. */
  function ParseTreeOf(options: seq<OptionSpec>, l: Lookahead): (r: Parsed)
    ensures r.Parsed? ==> r.ok && r.node.Some? && Size(r.after) <= Size(l)
    decreases Size(l), 1
  {
    var inner := ParseArg(options, l);
    if inner.Threw? || !inner.ok then Threw
    else Parsed(true, Some(TreeNode(Nodes(inner.node))), inner.dump, inner.after)
  }

  /** How a call ends: with a return value or with an exception. */
  datatype Outcome = Returned(value: bool) | Raised

  /** The whole parse loop: its outcome, the nodes it appends and the dump flag. */
  datatype Run = Run(outcome: Outcome, nodes: seq<ArgNode>, dump: bool)

  /**
   * The loop of parseArguments(): parse while the current token is valid,
   * stopping at the first refusal or exception.
   */
  function ParseAll(options: seq<OptionSpec>, l: Lookahead): Run
    decreases Size(l)
  {
    if !l.token.Valid() then Run(Returned(true), [], false)
    else
      match ParseArg(options, l)
      case Threw => Run(Raised, [], false)
      case Parsed(ok, node, dump, after) =>
        if !ok then Run(Returned(false), [], false)
        else
          var rest := ParseAll(options, after);
          Run(rest.outcome, Nodes(node) + rest.nodes, dump || rest.dump)
  }

  /** The run of a loop that has already appended `prefix` and set `dump` to `flag`. */
  function After(prefix: seq<ArgNode>, flag: bool, run: Run): Run
  {
    Run(run.outcome, prefix + run.nodes, flag || run.dump)
  }

  /** One round of the parse loop, as it affects the loop's result. */
  lemma ParseAllStep(options: seq<OptionSpec>, l: Lookahead, prefix: seq<ArgNode>, flag: bool)
    requires l.token.Valid()
    ensures ParseArg(options, l).Threw? ==> After(prefix, flag, ParseAll(options, l)) == Run(Raised, prefix, flag)
    ensures ParseArg(options, l).Parsed? && !ParseArg(options, l).ok ==>
      After(prefix, flag, ParseAll(options, l)) == Run(Returned(false), prefix, flag)
    ensures ParseArg(options, l).Parsed? && ParseArg(options, l).ok ==>
      var p := ParseArg(options, l);
      After(prefix, flag, ParseAll(options, l)) == After(prefix + Nodes(p.node), flag || p.dump, ParseAll(options, p.after))
  {
    var p := ParseArg(options, l);
    if p.Threw? || !p.ok {
      assert prefix + [] == prefix;
    } else {
      var rest := ParseAll(options, p.after);
      assert prefix + (Nodes(p.node) + rest.nodes) == prefix + Nodes(p.node) + rest.nodes;
    }
  }

  /** parseArgument() refuses exactly the tokens that are neither an argument nor a space. */
  lemma RefusesOnlyOtherTokens(options: seq<OptionSpec>, l: Lookahead)
    ensures ParseArg(options, l).Parsed? && !ParseArg(options, l).ok <==> l.token.kind != Arg && l.token.kind != Space
  {
  }

  /**
   * An argument that names no option never throws: it adds an unrecognised
   * node, or nothing when it is "--dump-ast", which sets the dump flag.
   */
  lemma UnknownNamesDoNotThrow(options: seq<OptionSpec>, l: Lookahead)
    requires l.token.kind == Arg
    requires forall j :: 0 <= j < |options| ==> options[j].Name() != l.token.value
    ensures ParseArg(options, l).Parsed? && ParseArg(options, l).ok
    ensures ParseArg(options, l).dump <==> l.token.value == "--dump-ast"
    ensures l.token.value != "--dump-ast" ==>
      ParseArg(options, l).node.Some? && ParseArg(options, l).node.value.UnrecognisedNode? &&
      ParseArg(options, l).node.value.argument == l.token.value
  {
  }

  /**
   * An argument spelled like a help or version option adds that option's
   * node; one spelled like an option of another leaf type throws.
   */
  lemma OptionsMakeTheirNodes(options: seq<OptionSpec>, l: Lookahead, i: nat)
    requires l.token.kind == Arg && i < |options| && options[i].Name() == l.token.value
    requires forall j :: 0 <= j < i ==> options[j].Name() != l.token.value
    ensures options[i].kind == Help ==> ParseArg(options, l) == Parsed(true, Some(OfKind(Help)), false, Advance(l))
    ensures options[i].kind == Version ==> ParseArg(options, l) == Parsed(true, Some(OfKind(Version)), false, Advance(l))
    ensures options[i].kind == Unrecognised ==> ParseArg(options, l).Threw?
  {
    assert FindOption(options, l.token.value) == i;
  }

  /** The part of pcat's option table whose node types args.hxx declares. */
  const HelpAndVersion := [OptionSpec("--version", Version), OptionSpec("--help", Help), OptionSpec("-h", Help)]

  /** "--help" parses to a single help node. */
  lemma HelpArgument()
    ensures ParseAll(HelpAndVersion, Initial(["--help"])) == Run(Returned(true), [OfKind(Help)], false)
  {
    SimpleStream();
    var l := Initial(["--help"]);
    assert l == Lookahead(Token(Arg, "--help"), []);
    assert FindOption(HelpAndVersion, "--help") == 1;
    assert ParseArg(HelpAndVersion, l) == Parsed(true, Some(OfKind(Help)), false, Lookahead(Invalid, []));
  }

  /**
   * "--argument=value" names no option: it adds an unrecognised node with
   * the value as its parameter, and then, since the value token is still
   * current, a second unrecognised node for the value alone.
   */
  lemma AssignedArgument()
    ensures ParseAll(HelpAndVersion, Initial(["--argument=value"])) ==
      Run(Returned(true), [UnrecognisedNode("--argument", "value"), UnrecognisedNode("value", "")], false)
  {
    AssignedStream();
    var l := Initial(["--argument=value"]);
    var value := Lookahead(Token(Arg, "value"), []);
    assert l == Lookahead(Token(Arg, "--argument"), [EqualsSign, Token(Arg, "value")]);
    AssignedFirstStep();
    AssignedValueStep();
    var last := ParseAll(HelpAndVersion, value);
    assert last == Run(Returned(true), [UnrecognisedNode("value", "")], false);
  }

  /** The first step over "--argument=value" takes the '=' and the value. */
  lemma AssignedFirstStep()
    ensures ParseArg(HelpAndVersion, Lookahead(Token(Arg, "--argument"), [EqualsSign, Token(Arg, "value")])) ==
      Parsed(true, Some(UnrecognisedNode("--argument", "value")), false, Lookahead(Token(Arg, "value"), []))
  {
    assert FindOption(HelpAndVersion, "--argument") == 3;
  }

  /** The value token, still current, is then parsed as an argument of its own. */
  lemma AssignedValueStep()
    ensures ParseArg(HelpAndVersion, Lookahead(Token(Arg, "value"), [])) ==
      Parsed(true, Some(UnrecognisedArgument("value")), false, Lookahead(Invalid, []))
  {
    assert FindOption(HelpAndVersion, "value") == 3;
  }

  /** "--dump-ast" adds no node and asks for the dump. */
  lemma DumpRequest()
    ensures ParseAll(HelpAndVersion, Initial(["--dump-ast"])) == Run(Returned(true), [], true)
  {
    var a := "--dump-ast";
    LexRun(a, 0, 10);
    assert a[0..10] == a;
    assert Stream([a]) == [Token(Arg, a)];
    assert FindOption(HelpAndVersion, a) == 3;
  }

  /**
   * A first argument that starts with '=' makes the equals token the first
   * token of the stream, where no space precedes it, and it is refused.
   */
  lemma LeadingEqualsRefused()
    ensures ParseAll(HelpAndVersion, Initial(["=x"])).outcome == Returned(false)
  {
    var a := "=x";
    LexRun(a, 1, 2);
    assert a[1..2] == "x";
    assert Lex(a, 1) == [Token(Arg, "x")];
    assert Lex(a, 0) == [EqualsSign] + Lex(a, 1);
    assert Rest([a], 1) == [];
    assert Stream([a]) == [EqualsSign, Token(Arg, "x")];
  }

  /**
   * An argument after the first that starts with '=' is not refused: the
   * space token before it is skipped, the equals token is then taken as an
   * argument "=" that names no option, and the rest of the argument follows
   * as one more unrecognised argument.
   */
  lemma LaterLeadingEqualsAccepted()
    ensures ParseAll(HelpAndVersion, Initial(["--foo", "=x"])) ==
      Run(Returned(true), [UnrecognisedArgument("--foo"), UnrecognisedArgument("="), UnrecognisedArgument("x")], false)
  {
    LaterEqualsStream();
    var l := Initial(["--foo", "=x"]);
    assert l == Lookahead(Token(Arg, "--foo"), [OfType(Space), EqualsSign, Token(Arg, "x")]);
    LaterEqualsFirstStep();
    LaterEqualsRest();
  }

  /** From the space on, the parse takes "=" and then "x" as unrecognised arguments. */
  lemma LaterEqualsRest()
    ensures ParseAll(HelpAndVersion, Lookahead(OfType(Space), [EqualsSign, Token(Arg, "x")])) ==
      Run(Returned(true), [UnrecognisedArgument("="), UnrecognisedArgument("x")], false)
  {
    LaterEqualsSecondStep();
    LaterEqualsLastStep();
    var last := Lookahead(Token(Arg, "x"), []);
    assert ParseAll(HelpAndVersion, last) == Run(Returned(true), [UnrecognisedArgument("x")], false);
  }

  /** "--foo" then "=x" lex as the argument, a space, the '=' and the argument "x". */
  lemma LaterEqualsStream()
    ensures Stream(["--foo", "=x"]) == [Token(Arg, "--foo"), OfType(Space), EqualsSign, Token(Arg, "x")]
  {
    var args := ["--foo", "=x"];
    var a, b := args[0], args[1];
    LexRun(a, 0, 5);
    assert a[0..5] == a;
    assert Lex(a, 0) == [Token(Arg, a)];
    LexRun(b, 1, 2);
    assert b[1..2] == "x";
    assert Lex(b, 0) == [EqualsSign, Token(Arg, "x")];
    RestStep(args, 1);
    assert Rest(args, 2) == [];
  }

  /** The first step takes "--foo" and stops at the space, which is not an '='. */
  lemma LaterEqualsFirstStep()
    ensures ParseArg(HelpAndVersion, Lookahead(Token(Arg, "--foo"), [OfType(Space), EqualsSign, Token(Arg, "x")])) ==
      Parsed(true, Some(UnrecognisedArgument("--foo")), false, Lookahead(OfType(Space), [EqualsSign, Token(Arg, "x")]))
  {
    assert FindOption(HelpAndVersion, "--foo") == 3;
  }

  /** The second step skips the space and takes the '=' itself as the argument. */
  lemma LaterEqualsSecondStep()
    ensures ParseArg(HelpAndVersion, Lookahead(OfType(Space), [EqualsSign, Token(Arg, "x")])) ==
      Parsed(true, Some(UnrecognisedArgument("=")), false, Lookahead(Token(Arg, "x"), []))
  {
    assert FindOption(HelpAndVersion, "=") == 3;
  }

  /** The last step takes "x" as an argument of its own. */
  lemma LaterEqualsLastStep()
    ensures ParseArg(HelpAndVersion, Lookahead(Token(Arg, "x"), [])) ==
      Parsed(true, Some(UnrecognisedArgument("x")), false, Lookahead(Invalid, []))
  {
    assert FindOption(HelpAndVersion, "x") == 3;
  }

  /** The parser's globals: the argument tree and the dump request. */
  class Arguments {
    var tree: ArgsTree?
    var needASTDump: bool

    /** Before any parse: no tree and no dump. */
    constructor ()
      ensures tree == null && !needASTDump
    {
      tree := null;
      needASTDump := false;
    }

    /** parseArgument(lexer, options, ast) */
    method ParseArgument(lexer: Tokenizer, options: seq<OptionSpec>, ast: ArgsTree) returns (r: Outcome)
      requires lexer.Valid()
      modifies lexer, ast, this
      decreases Size(Look(lexer)), 0
      ensures lexer.Valid() && tree == old(tree)
      ensures ParseArg(options, old(Look(lexer))).Threw? <==> r.Raised?
      ensures ParseArg(options, old(Look(lexer))).Threw? ==>
        ast.children == old(ast.children) && needASTDump == old(needASTDump)
      ensures ParseArg(options, old(Look(lexer))).Parsed? ==>
        var p := ParseArg(options, old(Look(lexer)));
        && r == Returned(p.ok) && Look(lexer) == p.after
        && ast.children == old(ast.children) + Nodes(p.node)
        && needASTDump == (old(needASTDump) || p.dump)
    {
      ghost var l := Look(lexer);
      var kind := lexer.token.kind;
      if kind == Space {
        var _ := lexer.Next();
      } else if kind != Arg {
        return Returned(false);
      }
      ghost var l1 := Look(lexer);
      var argument := lexer.token.value;
      var i := 0;
      while i < |options|
        invariant i <= |options|
        invariant forall j :: 0 <= j < i ==> options[j].Name() != argument
      {
        if argument == options[i].Name() {
          assert FindOption(options, argument) == i;
          var node := MakeNode(lexer, options, options[i]);
          if node.None? {
            return Raised;
          }
          var _ := ast.Add(node.value, true);
          return Returned(true);
        }
        i := i + 1;
      }
      assert FindOption(options, argument) == |options|;
      r := AddUnmatched(lexer, ast, argument);
    }

    /**
     * The end of parseArgument() for an argument that names no option: move
     * past it, then record it, or the dump request.
     */
    method AddUnmatched(lexer: Tokenizer, ast: ArgsTree, argument: string) returns (r: Outcome)
      requires lexer.Valid()
      modifies lexer, ast, this
      ensures lexer.Valid() && tree == old(tree) && r == Returned(true)
      ensures var p := Unmatched(argument, Advance(old(Look(lexer))));
        && Look(lexer) == p.after
        && ast.children == old(ast.children) + Nodes(p.node)
        && needASTDump == (old(needASTDump) || p.dump)
    {
      var _ := lexer.Next();
      if argument == "--dump-ast" {
        needASTDump := true;
        return Returned(true);
      } else if lexer.token.kind != Equals {
        var _ := ast.Add(UnrecognisedArgument(argument), true);
      } else {
        var _ := lexer.Next();
        if lexer.token.kind == Space {
          var _ := ast.Add(UnrecognisedArgument(argument), true);
        } else {
          var _ := ast.Add(UnrecognisedNode(argument, lexer.token.value), true);
        }
      }
      return Returned(true);
    }

    /** makeNode(lexer, options, option); `None` is the exception it throws. */
    method MakeNode(lexer: Tokenizer, options: seq<OptionSpec>, option: OptionSpec) returns (node: Option<ArgNode>)
      requires lexer.Valid()
      modifies lexer, this
      decreases Size(Advance(Look(lexer))), 3
      ensures lexer.Valid() && tree == old(tree)
      ensures MakeNodeOf(options, option.kind, Advance(old(Look(lexer)))).Threw? <==> node.None?
      ensures node.None? ==> needASTDump == old(needASTDump)
      ensures node.Some? ==>
        var p := MakeNodeOf(options, option.kind, Advance(old(Look(lexer))));
        node == p.node && Look(lexer) == p.after && needASTDump == (old(needASTDump) || p.dump)
    {
      var _ := lexer.Next();
      match option.kind
      case Tree =>
        node := ParseTree(lexer, options);
      case Help =>
        node := Some(OfKind(Help));
      case Version =>
        node := Some(OfKind(Version));
      case Unrecognised =>
        node := None;
    }

    /** parseTree(lexer, options); `None` is the exception it throws. */
    method ParseTree(lexer: Tokenizer, options: seq<OptionSpec>) returns (node: Option<ArgNode>)
      requires lexer.Valid()
      modifies lexer, this
      decreases Size(Look(lexer)), 1
      ensures lexer.Valid() && tree == old(tree)
      ensures ParseTreeOf(options, old(Look(lexer))).Threw? <==> node.None?
      ensures node.None? ==> needASTDump == old(needASTDump)
      ensures node.Some? ==>
        var p := ParseTreeOf(options, old(Look(lexer)));
        node == p.node && Look(lexer) == p.after && needASTDump == (old(needASTDump) || p.dump)
    {
      var subtree := new ArgsTree();
      var r := ParseArgument(lexer, options, subtree);
      if r != Returned(true) {
        return None;
      }
      assert subtree.children == Nodes(ParseArg(options, old(Look(lexer))).node);
      return Some(TreeNode(subtree.children));
    }

    /**
     * parseArguments(argCount, argList, options): refuse fewer than two
     * arguments or a null list; otherwise skip the program name, install a
     * fresh tree, clear the dump flag and parse until the tokens run out.
     */
    method ParseArguments(argCount: nat, argList: Option<seq<string>>, options: seq<OptionSpec>) returns (r: Outcome)
      requires argList.Some? ==> argCount <= |argList.value|
      modifies this
      ensures argCount < 2 || argList.None? ==> r == Returned(false) && tree == old(tree) && needASTDump == old(needASTDump)
      ensures argCount >= 2 && argList.Some? ==>
        var run := ParseAll(options, Initial(argList.value[1..argCount]));
        && r == run.outcome && tree != null && fresh(tree)
        && tree.children == run.nodes && needASTDump == run.dump
    {
      if argCount < 2 || argList.None? {
        return Returned(false);
      }
      var lexer := new Tokenizer(argList.value[1..argCount]);
      tree := new ArgsTree();
      needASTDump := false;
      ghost var goal := ParseAll(options, Look(lexer));
      assert After([], false, goal) == goal;
      while lexer.token.Valid()
        invariant lexer.Valid() && fresh(lexer) && tree != null && fresh(tree)
        invariant goal == After(tree.children, needASTDump, ParseAll(options, Look(lexer)))
        decreases Size(Look(lexer))
      {
        ghost var l := Look(lexer);
        ParseAllStep(options, l, tree.children, needASTDump);
        r := ParseArgument(lexer, options, tree);
        if r != Returned(true) {
          return;
        }
      }
      assert tree.children + [] == tree.children;
      return Returned(true);
    }
  }
}
