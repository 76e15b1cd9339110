/**
 * The argument tree the parser builds: argNode_t and its kinds, argsTree_t
 * with its find() and add(), and the option table entries option_t.
 * Polymorphic nodes are one datatype with a constructor per node class; the
 * tree the parser fills in place is a class whose children are values.
 */
module ArgsTypes {
  import opened Options

  /** argType_t, as declared next to the node classes. */
  datatype ArgType = Tree | Unrecognised | Help | Version

  /**
   * argNode_t and its subclasses: a nested argsTree_t, an argUnrecognised_t
   * with its argument and parameter, or an argOfType_t<T> carrying only its
   * type (argHelp_t, argVersion_t).
   */
  datatype ArgNode =
    | TreeNode(children: seq<ArgNode>)
    | UnrecognisedNode(argument: string, parameter: string)
    | OfKind(kind: ArgType)
  {
    /** type() */
    function Type(): ArgType
    {
      match this
      case TreeNode(_) => Tree
      case UnrecognisedNode(_, _) => Unrecognised
      case OfKind(kind) => kind
    }
  }

  /** argUnrecognised_t(argument): no parameter. */
  function UnrecognisedArgument(argument: string): (n: ArgNode)
    ensures n.Type() == Unrecognised && n.UnrecognisedNode? && n.argument == argument && n.parameter == ""
  {
    UnrecognisedNode(argument, "")
  }

  /** argHelp_t and argVersion_t report the type they are instantiated with. */
  lemma NodeTypes()
    ensures OfKind(Help).Type() == Help && OfKind(Version).Type() == Version
    ensures forall cs :: TreeNode(cs).Type() == Tree
    ensures forall a, p :: UnrecognisedNode(a, p).Type() == Unrecognised
  {
  }

  /** option_t: the spelling of an option and the node type it stands for. */
  datatype OptionSpec = OptionSpec(option: string, kind: ArgType)
  {
    /** name() is another name for option(). */
    function Name(): string
    {
      option
    }
  }

  /** The first node of a given type in a list of children, if there is one. */
  function FirstOfType(children: seq<ArgNode>, kind: ArgType): Option<ArgNode>
  {
    if children == [] then None
    else if children[0].Type() == kind then Some(children[0])
    else FirstOfType(children[1..], kind)
  }

  /**
   * FirstOfType finds nothing exactly when no child has the type, and
   * otherwise the child at the first position that has it.
   */
  lemma {:induction false} FirstOfTypeIsFirst(children: seq<ArgNode>, kind: ArgType)
    ensures FirstOfType(children, kind).None? <==> forall i :: 0 <= i < |children| ==> children[i].Type() != kind
    ensures FirstOfType(children, kind).Some? ==>
      exists i :: 0 <= i < |children| && children[i] == FirstOfType(children, kind).value && children[i].Type() == kind &&
        forall j :: 0 <= j < i ==> children[j].Type() != kind
  {
    if children != [] && children[0].Type() != kind {
      var rest := children[1..];
      FirstOfTypeIsFirst(rest, kind);
      assert forall i :: 1 <= i < |children| ==> children[i] == rest[i - 1];
      if FirstOfType(rest, kind).Some? {
        var i :| 0 <= i < |rest| && rest[i] == FirstOfType(rest, kind).value && rest[i].Type() == kind &&
          forall j :: 0 <= j < i ==> rest[j].Type() != kind;
        assert children[i + 1] == rest[i];
      }
    }
  }

  /** Appending a child changes what find() sees only when nothing matched before. */
  lemma {:induction false} FirstOfTypeAppend(children: seq<ArgNode>, node: ArgNode, kind: ArgType)
    ensures FirstOfType(children + [node], kind) ==
      if FirstOfType(children, kind).Some? then FirstOfType(children, kind)
      else if node.Type() == kind then Some(node) else None
  {
    if children == [] {
      assert children + [node] == [node];
      assert [node][1..] == [];
    } else {
      assert (children + [node])[1..] == children[1..] + [node];
      FirstOfTypeAppend(children[1..], node, kind);
    }
  }

  /** argsTree_t */
  class ArgsTree {
    var children: seq<ArgNode>

    /** A new tree has no children. */
    constructor ()
      ensures children == []
    {
      children := [];
    }

    /** count() and size(): the number of children. */
    function Count(): nat
      reads this
    {
      |children|
    }

    /** find(type): the first child of that type, or null. */
    method Find(kind: ArgType) returns (found: Option<ArgNode>)
      ensures found == FirstOfType(children, kind)
      ensures found.Some? ==> found.value in children && found.value.Type() == kind
    {
      var i := 0;
      while i < |children|
        invariant i <= |children|
        invariant FirstOfType(children[i..], kind) == FirstOfType(children, kind)
      {
        assert children[i..][1..] == children[i + 1..];
        if children[i].Type() == kind {
          return Some(children[i]);
        }
        i := i + 1;
      }
      return None;
    }

    /**
     * add(node): the node goes on the end of the children, and the result
     * says so; when the allocation fails (`memoryFree` is false) nothing is
     * added and the result is false.
     */
    method Add(node: ArgNode, memoryFree: bool) returns (added: bool)
      modifies this
      ensures added == memoryFree
      ensures children == if memoryFree then old(children) + [node] else old(children)
      ensures Count() == old(Count()) + (if memoryFree then 1 else 0)
    {
      if !memoryFree {
        return false;
      }
      children := children + [node];
      return true;
    }
  }
}
