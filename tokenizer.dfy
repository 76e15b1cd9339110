/**
 * args::tokenizer: the character-level lexer behind the argument parser. It
 * walks the argument strings one after the other and cuts them into `arg`
 * tokens (a run of characters up to the next '=' or the end of the
 * argument), `equals` tokens (one '=') and `space` tokens (the boundary
 * between two arguments); once every argument is used up it yields the
 * invalid `unknown` token for ever.
 *
 * The argument strings are a sequence of strings; the `arg` pointer into the
 * current string is the pair (`hasArg`, `arg`), with the null pointer as
 * `hasArg == false`, and the `offset` pointer is an index into `arg`.
 * `Stream` gives the whole token sequence the lexer produces, and the class
 * is proved to hand it out one token per call.
 */
module ArgsTokenizer {

  /** tokenType_t */
  datatype TokenType = Unknown | Arg | Space | Equals

  /** token_t: a token type and the text it covers. */
  datatype Token = Token(kind: TokenType, value: string)
  {
    /** valid(): anything but an unknown token. */
    predicate Valid()
    {
      kind != Unknown
    }
  }

  /** The default token_t: unknown, with no text. */
  const Invalid := Token(Unknown, "")

  /** The token_t built from a type alone, as the lexer does for a space. */
  function OfType(kind: TokenType): (t: Token)
    ensures t.kind == kind && t.value == ""
    ensures t.Valid() <==> kind != Unknown
  {
    Token(kind, "")
  }

  /** The token an '=' produces. */
  const EqualsSign := Token(Equals, "=")

  /** A default token is invalid; a token of any other type is valid. */
  lemma DefaultTokenInvalid()
    ensures !Invalid.Valid() && Invalid.kind == Unknown && Invalid.value == ""
    ensures forall kind :: OfType(kind).Valid() <==> kind != Unknown
  {
  }

  /**
   * Where the `arg` token that starts at `i` ends: at the first '=' from `i`
   * on, or at the end of the argument.
   */
  function ArgEnd(a: string, i: nat): (e: nat)
    requires i <= |a|
    ensures i <= e <= |a|
    ensures forall k :: i <= k < e ==> a[k] != '='
    ensures e == |a| || a[e] == '='
    decreases |a| - i
  {
    if i == |a| || a[i] == '=' then i else ArgEnd(a, i + 1)
  }

  /** The first '=' from `i` on (or the end) is the only place a run can stop. */
  lemma ArgEndIs(a: string, i: nat, e: nat)
    requires i <= e <= |a|
    requires forall k :: i <= k < e ==> a[k] != '='
    requires e == |a| || a[e] == '='
    ensures ArgEnd(a, i) == e
  {
  }

  /**
   * The tokens one argument yields from position `i` on: an equals token
   * for each '=', and an arg token for each maximal run without one.
   */
  function Lex(a: string, i: nat): seq<Token>
    requires i <= |a|
    decreases |a| - i
  {
    if i == |a| then []
    else if a[i] == '=' then [EqualsSign] + Lex(a, i + 1)
    else [Token(Arg, a[i..ArgEnd(a, i)])] + Lex(a, ArgEnd(a, i))
  }

  /** The tokens from argument `k` on, each argument preceded by a space. */
  function Rest(args: seq<string>, k: nat): seq<Token>
    decreases |args| - k
  {
    if k >= |args| then [] else [OfType(Space)] + Lex(args[k], 0) + Rest(args, k + 1)
  }

  /** Every token the lexer hands out for the argument strings `args`. */
  function Stream(args: seq<string>): seq<Token>
  {
    if args == [] then [] else Lex(args[0], 0) + Rest(args, 1)
  }

  /** The first token of a sequence, or the invalid token when there is none. */
  function Head(ts: seq<Token>): Token
  {
    if ts == [] then Invalid else ts[0]
  }

  /** All tokens but the first. */
  function Tail(ts: seq<Token>): seq<Token>
  {
    if ts == [] then [] else ts[1..]
  }

  /** The text of a sequence of tokens, one after the other. */
  function Text(ts: seq<Token>): string
  {
    if ts == [] then "" else ts[0].value + Text(ts[1..])
  }

  /** The argument strings one after the other. */
  function Joined(args: seq<string>): string
  {
    if args == [] then "" else args[0] + Joined(args[1..])
  }

  /** The shapes a token of one argument can take. */
  predicate ArgumentToken(t: Token)
  {
    t == EqualsSign || (t.kind == Arg && t.value != "" && '=' !in t.value)
  }

  lemma {:induction false} TextAppend(xs: seq<Token>, ys: seq<Token>)
    ensures Text(xs + ys) == Text(xs) + Text(ys)
  {
    if xs != [] {
      TextAppend(xs[1..], ys);
      assert (xs + ys)[1..] == xs[1..] + ys;
    } else {
      assert xs + ys == ys;
    }
  }

  /**
   * The tokens of one argument put back together give the argument, and
   * each is an equals sign or a non-empty run without '='.
   */
  lemma {:induction false} LexReproduces(a: string, i: nat)
    requires i <= |a|
    ensures Text(Lex(a, i)) == a[i..]
    ensures forall t :: t in Lex(a, i) ==> ArgumentToken(t)
    decreases |a| - i
  {
    if i < |a| {
      var j := if a[i] == '=' then i + 1 else ArgEnd(a, i);
      var first := if a[i] == '=' then EqualsSign else Token(Arg, a[i..j]);
      LexReproduces(a, j);
      TextAppend([first], Lex(a, j));
      assert Text([first]) == first.value;
      assert first.value == a[i..j];
      assert a[i..] == a[i..j] + a[j..];
      if first != EqualsSign {
        assert forall k :: 0 <= k < |first.value| ==> first.value[k] == a[i + k];
      }
    }
  }

  /**
   * The whole token stream, put back together, is the argument strings one
   * after the other: spaces carry no text.
   */
  lemma {:induction false} RestReproduces(args: seq<string>, k: nat)
    requires k <= |args|
    ensures Text(Rest(args, k)) == Joined(args[k..])
    decreases |args| - k
  {
    if k < |args| {
      RestReproduces(args, k + 1);
      LexReproduces(args[k], 0);
      var lexed := Lex(args[k], 0);
      var later := Rest(args, k + 1);
      assert Rest(args, k) == [OfType(Space)] + lexed + later;
      TextAppend([OfType(Space)] + lexed, later);
      TextAppend([OfType(Space)], lexed);
      assert Text([OfType(Space)]) == "";
      assert args[k][0..] == args[k];
      assert args[k..][1..] == args[k + 1..];
      assert Joined(args[k..]) == args[k] + Joined(args[k + 1..]);
    }
  }

  lemma StreamReproduces(args: seq<string>)
    ensures Text(Stream(args)) == Joined(args)
  {
    if args != [] {
      LexReproduces(args[0], 0);
      RestReproduces(args, 1);
      TextAppend(Lex(args[0], 0), Rest(args, 1));
      assert args[0][0..] == args[0];
      assert args[1..] == args[1..][0..];
    }
  }

  /**
   * The lexer's fields: how many arguments have been loaded, whether `arg`
   * points anywhere, the argument it points at, the read position in it, its
   * length, and the current token.
   */
  datatype LexState = LexState(currentArg: nat, hasArg: bool, arg: string, offset: nat, length: nat, token: Token)

  /** The states the lexer keeps to once it has loaded its first argument. */
  predicate Loaded(args: seq<string>, s: LexState)
  {
    && s.currentArg <= |args|
    && (s.hasArg ==> 0 < s.currentArg && s.arg == args[s.currentArg - 1] && s.length == |s.arg| && s.offset <= s.length)
    && (!s.hasArg ==> s.currentArg == |args|)
  }

  /** The tokens a lexer in state `s` has still to hand out. */
  function Remaining(args: seq<string>, s: LexState): seq<Token>
    requires Loaded(args, s)
  {
    if !s.hasArg then [] else Lex(s.arg, s.offset) + Rest(args, s.currentArg)
  }

  /**
   * nextArg(): past the last argument `arg` becomes null; otherwise it points
   * at the next argument, read from its start.
   */
  function NextArg(args: seq<string>, s: LexState): (r: LexState)
    requires s.currentArg <= |args|
    ensures Loaded(args, r)
    ensures r.token == s.token
  {
    if s.currentArg == |args| then s.(hasArg := false, arg := "", offset := 0, length := 0)
    else s.(currentArg := s.currentArg + 1, hasArg := true, arg := args[s.currentArg], offset := 0,
            length := |args[s.currentArg]|)
  }

  /**
   * readToken(): nothing when there is no argument; at the end of one, a
   * space before the next (or nothing after the last); an equals sign; or
   * the run of characters up to the next '=' or the end of the argument.
   */
  function Read(args: seq<string>, s: LexState): (r: LexState)
    requires Loaded(args, s)
    ensures Loaded(args, r)
  {
    if !s.hasArg then s.(token := Invalid)
    else if s.offset == s.length then
      var n := NextArg(args, s);
      if !n.hasArg then n.(token := Invalid) else n.(token := OfType(Space))
    else if s.arg[s.offset] == '=' then s.(offset := s.offset + 1, token := EqualsSign)
    else
      var e := ArgEnd(s.arg, s.offset);
      s.(offset := e, token := Token(Arg, s.arg[s.offset..e]))
  }

  lemma HeadTail(t: Token, xs: seq<Token>)
    ensures Head([t] + xs) == t && Tail([t] + xs) == xs
  {
  }

  lemma TokensAssociate(a: seq<Token>, b: seq<Token>, c: seq<Token>)
    ensures a + (b + c) == (a + b) + c
  {
  }

  /** The tokens from argument `k` on: a space, that argument's tokens, then the rest. */
  lemma RestStep(args: seq<string>, k: nat)
    requires k < |args|
    ensures Rest(args, k) == [OfType(Space)] + (Lex(args[k], 0) + Rest(args, k + 1))
  {
    TokensAssociate([OfType(Space)], Lex(args[k], 0), Rest(args, k + 1));
  }

  /** A read at the end of an argument moves on to the next one. */
  lemma ReadAtArgumentEnd(args: seq<string>, s: LexState)
    requires Loaded(args, s) && s.hasArg && s.offset == s.length
    ensures Read(args, s).token == Head(Remaining(args, s))
    ensures Remaining(args, Read(args, s)) == Tail(Remaining(args, s))
  {
    var k := s.currentArg;
    assert Lex(s.arg, s.offset) == [];
    assert Remaining(args, s) == [] + Rest(args, k);
    if k < |args| {
      var r := NextArg(args, s).(token := OfType(Space));
      assert Read(args, s) == r;
      assert Remaining(args, r) == Lex(args[k], 0) + Rest(args, k + 1);
      RestStep(args, k);
      HeadTail(OfType(Space), Remaining(args, r));
    }
  }

  /** A read inside an argument takes an equals sign or a run. */
  lemma ReadInsideArgument(args: seq<string>, s: LexState)
    requires Loaded(args, s) && s.hasArg && s.offset < s.length
    ensures Read(args, s).token == Head(Remaining(args, s))
    ensures Remaining(args, Read(args, s)) == Tail(Remaining(args, s))
  {
    var i := s.offset;
    var n := Read(args, s);
    if s.arg[i] == '=' {
      assert n == s.(offset := i + 1, token := EqualsSign);
      assert Lex(s.arg, i) == [EqualsSign] + Lex(s.arg, i + 1);
    } else {
      var e := ArgEnd(s.arg, i);
      assert n == s.(offset := e, token := Token(Arg, s.arg[i..e]));
      assert Lex(s.arg, i) == [Token(Arg, s.arg[i..e])] + Lex(s.arg, e);
    }
    assert Remaining(args, n) == Lex(s.arg, n.offset) + Rest(args, s.currentArg);
    TokensAssociate([n.token], Lex(s.arg, n.offset), Rest(args, s.currentArg));
    assert Remaining(args, s) == [n.token] + (Lex(s.arg, n.offset) + Rest(args, s.currentArg));
    HeadTail(n.token, Remaining(args, n));
  }

  /**
   * Each read hands out the next token of what was left and drops it from
   * what is left; once nothing is left, every read yields the invalid token.
   */
  lemma ReadTakesNextToken(args: seq<string>, s: LexState)
    requires Loaded(args, s)
    ensures Loaded(args, Read(args, s))
    ensures Read(args, s).token == Head(Remaining(args, s))
    ensures Remaining(args, Read(args, s)) == Tail(Remaining(args, s))
  {
    if s.hasArg && s.offset == s.length {
      ReadAtArgumentEnd(args, s);
    } else if s.hasArg {
      ReadInsideArgument(args, s);
    }
  }

  /** The state tokenizer_t's member initialisers leave. */
  function Start(): LexState
  {
    LexState(0, false, "", 0, 0, Invalid)
  }

  /**
   * The constructor's nextArg() and first read leave the first token of the
   * stream current and the rest of the stream to come.
   */
  lemma StartsStream(args: seq<string>)
    ensures Loaded(args, Read(args, NextArg(args, Start())))
    ensures Read(args, NextArg(args, Start())).token == Head(Stream(args))
    ensures Remaining(args, Read(args, NextArg(args, Start()))) == Tail(Stream(args))
  {
    ReadTakesNextToken(args, NextArg(args, Start()));
  }

  /** tokenizer_t */
  class Tokenizer {
    const args: seq<string>
    var currentArg: nat
    var hasArg: bool
    var arg: string
    var offset: nat
    var length: nat
    var token: Token

    function State(): LexState
      reads this
    {
      LexState(currentArg, hasArg, arg, offset, length, token)
    }

    predicate Valid()
      reads this
    {
      Loaded(args, State())
    }

    /** The tokens still to come after the current one. */
    function Pending(): seq<Token>
      reads this
      requires Valid()
    {
      Remaining(args, State())
    }

    /**
     * tokenizer_t(argsCount, argsList): load the first argument and read the
     * first token, which is invalid when there are no arguments.
     */
    constructor (argsList: seq<string>)
      ensures args == argsList && Valid()
      ensures token == Head(Stream(argsList)) && Pending() == Tail(Stream(argsList))
      ensures argsList == [] ==> !token.Valid()
    {
      args := argsList;
      currentArg, hasArg, arg, offset, length, token := 0, false, "", 0, 0, Invalid;
      new;
      NextArgument();
      ReadToken();
      StartsStream(argsList);
    }

    /** nextArg() */
    method NextArgument()
      requires currentArg <= |args|
      modifies this
      ensures State() == NextArg(args, old(State()))
    {
      if currentArg == |args| {
        hasArg, arg, offset, length := false, "", 0, 0;
      } else {
        arg := args[currentArg];
        currentArg := currentArg + 1;
        hasArg := true;
        offset := 0;
        length := |arg|;
      }
    }

    /** readToken(), with its scan for the end of an arg token. */
    method ReadToken()
      requires Valid()
      modifies this
      ensures State() == Read(args, old(State()))
    {
      if !hasArg {
        token := Invalid;
      } else if offset == length {
        NextArgument();
        if !hasArg {
          token := Invalid;
        } else {
          token := OfType(Space);
        }
      } else if arg[offset] == '=' {
        offset := offset + 1;
        token := EqualsSign;
      } else {
        var begin := offset;
        while offset < length
          invariant begin <= offset <= length == |arg|
          invariant ArgEnd(arg, offset) == ArgEnd(arg, begin)
          invariant currentArg == old(currentArg) && hasArg && arg == old(arg) && length == old(length)
          decreases length - offset
        {
          if arg[offset] == '=' {
            break;
          }
          offset := offset + 1;
        }
        token := Token(Arg, arg[begin..offset]);
      }
    }

    /**
     * next(): read one token; it is the one token() then shows, the first of
     * those that were still to come.
     */
    method Next() returns (t: Token)
      requires Valid()
      modifies this
      ensures Valid() && t == token
      ensures State() == Read(args, old(State()))
      ensures token == Head(old(Pending())) && Pending() == Tail(old(Pending()))
    {
      ghost var before := State();
      ReadToken();
      ReadTakesNextToken(args, before);
      t := token;
    }
  }

  /** The tokens of an argument from a run of characters without '=' on. */
  lemma LexRun(a: string, i: nat, e: nat)
    requires i < e <= |a|
    requires forall k :: i <= k < e ==> a[k] != '='
    requires e == |a| || a[e] == '='
    ensures Lex(a, i) == [Token(Arg, a[i..e])] + Lex(a, e)
  {
    ArgEndIs(a, i, e);
  }

  /** The stream of a single argument is that argument's tokens. */
  lemma OneArgument(a: string)
    ensures Stream([a]) == Lex(a, 0)
  {
    assert Rest([a], 1) == [];
  }

  /** The stream of three arguments: each one's tokens, with a space between. */
  lemma ThreeArguments(a: string, b: string, c: string)
    ensures Stream([a, b, c]) == Lex(a, 0) + ([OfType(Space)] + Lex(b, 0)) + ([OfType(Space)] + Lex(c, 0))
  {
    var args := [a, b, c];
    assert Rest(args, 3) == [];
    assert Rest(args, 2) == [OfType(Space)] + Lex(c, 0);
    assert Rest(args, 1) == [OfType(Space)] + Lex(b, 0) + Rest(args, 2);
  }

  /** An argument with no '=' in it is a single arg token. */
  lemma WholeArgument(a: string)
    requires a != [] && '=' !in a
    ensures Lex(a, 0) == [Token(Arg, a)]
  {
    LexRun(a, 0, |a|);
    assert a[0..|a|] == a;
  }

  /** "--help" lexes as one arg token. */
  lemma HelpLex()
    ensures Lex("--help", 0) == [Token(Arg, "--help")]
  {
    WholeArgument("--help");
  }

  /** "--version" lexes as one arg token. */
  lemma VersionLex()
    ensures Lex("--version", 0) == [Token(Arg, "--version")]
  {
    WholeArgument("--version");
  }

  /** test/tokenizer.cxx, "--help": one arg token, then nothing. */
  lemma SimpleStream()
    ensures Stream(["--help"]) == [Token(Arg, "--help")]
  {
    OneArgument("--help");
    HelpLex();
  }

  /** "--argument=value" lexes as arg, equals, arg. */
  lemma AssignedLex()
    ensures Lex("--argument=value", 0) == [Token(Arg, "--argument"), EqualsSign, Token(Arg, "value")]
  {
    var a := "--argument=value";
    LexRun(a, 11, 16);
    assert a[11..16] == "value";
    assert Lex(a, 10) == [EqualsSign] + Lex(a, 11);
    LexRun(a, 0, 10);
    assert a[0..10] == "--argument";
  }

  /** test/tokenizer.cxx, "--argument=value": arg, equals, arg. */
  lemma AssignedStream()
    ensures Stream(["--argument=value"]) == [Token(Arg, "--argument"), EqualsSign, Token(Arg, "value")]
  {
    OneArgument("--argument=value");
    AssignedLex();
  }

  /**
   * test/tokenizer.cxx, "--version --argument=value --help": arg, space,
   * arg, equals, arg, space, arg.
   */
  lemma MultipleStream()
    ensures Stream(["--version", "--argument=value", "--help"]) ==
      [Token(Arg, "--version"), OfType(Space), Token(Arg, "--argument"), EqualsSign, Token(Arg, "value"),
       OfType(Space), Token(Arg, "--help")]
  {
    ThreeArguments("--version", "--argument=value", "--help");
    VersionLex();
    AssignedLex();
    HelpLex();
  }
}
