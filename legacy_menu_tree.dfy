/**
 * The earlier menu structure of lib/menu_tree.py, which the terminal loop of
 * lib/_3_cli.py drives. A node has one label, and its procedure is a record
 * of a prompt, a callable and optional integer input bounds. Menu and
 * procedure input are read from the terminal: here the integer the user
 * typed is a parameter (`None` when `int()` cannot parse it), and so is the
 * outcome of calling the stored callable.
 */
module LegacyMenu {
  import opened Wrappers
  import opened PyValues

  const LabelError := ValueError("Label must be a string greater than 0 characters")
  const PromptError := ValueError("Prompt must be a string greater than 0 characters")
  const FuncError := ValueError("Function parameter must be a function")
  const InputReqError := ValueError("Input required must be either True or False")
  const LowerBoundError := ValueError("Lower bound must be an integer > 0")
  const UpperBoundError := ValueError("Upper bound must be an integer > lower bound")
  const ChildError := ValueError("Child must be an instance of the Node class")
  /** What `int()` raises for text that is not an integer literal. */
  const NotAnInteger := ValueError("invalid literal for int() with base 10")
  const OutOfBounds := ValueError("Value must be an integer between the bounds")

  /** The procedure record `add_procedure` stores. */
  datatype Procedure = Procedure(prompt: string, func: Value, inputReq: bool,
                                 lowerBound: Option<int>, upperBound: Option<int>)

  /** What the stored callable did when called: returned a value, or exited the program. */
  datatype FuncOutcome = Returned(value: Node?) | ExitsApp

  /** What `run_procedure` led to: the argument the callable got and the next node, or program exit. */
  datatype Next = Next(arg: Option<int>, node: Node?) | AppExited(arg: Option<int>)

  /**
   * The checks of `add_procedure`, in source order: a non-empty prompt, a
   * callable, a bool `input_req`, and when it is True an int lower bound
   * above 0 and an int upper bound above it (`True` counts as 1).
   */
  function ProcedureFrom(prompt: Value, func: Value, inputReq: Value, lowerBound: Value, upperBound: Value): (r: Result<Procedure, Error>)
    ensures r.Success? <==>
      && prompt.Str? && |prompt.s| > 0 && func.Fn? && inputReq.Bool?
      && (inputReq.b ==> IsInstanceInt(lowerBound) && IntOf(lowerBound) > 0 &&
                         IsInstanceInt(upperBound) && IntOf(upperBound) > IntOf(lowerBound))
    ensures r.Success? ==>
      && r.value.prompt == prompt.s && r.value.func == func && r.value.inputReq == inputReq.b
      && (r.value.inputReq ==> r.value.lowerBound == Some(IntOf(lowerBound)) && r.value.upperBound == Some(IntOf(upperBound)))
      && (!r.value.inputReq ==> r.value.lowerBound == None && r.value.upperBound == None)
    ensures !(prompt.Str? && |prompt.s| > 0) ==> r == Failure(PromptError)
    ensures prompt.Str? && |prompt.s| > 0 && !func.Fn? ==> r == Failure(FuncError)
    ensures prompt.Str? && |prompt.s| > 0 && func.Fn? && !inputReq.Bool? ==> r == Failure(InputReqError)
  {
    if !(prompt.Str? && |prompt.s| > 0) then Failure(PromptError)
    else if !func.Fn? then Failure(FuncError)
    else if !inputReq.Bool? then Failure(InputReqError)
    else if inputReq.b then
      if !(IsInstanceInt(lowerBound) && IntOf(lowerBound) > 0) then Failure(LowerBoundError)
      else if !(IsInstanceInt(upperBound) && IntOf(upperBound) > IntOf(lowerBound)) then Failure(UpperBoundError)
      else Success(Procedure(prompt.s, func, true, Some(IntOf(lowerBound)), Some(IntOf(upperBound))))
    else Success(Procedure(prompt.s, func, false, None, None))
  }

  /** A stored procedure that needs input has bounds with 0 < lower < upper. */
  ghost predicate WellBounded(p: Procedure) {
    p.inputReq ==> p.lowerBound.Some? && p.upperBound.Some? && 0 < p.lowerBound.value < p.upperBound.value
  }

  lemma ProcedureFromWellBounded(prompt: Value, func: Value, inputReq: Value, lowerBound: Value, upperBound: Value)
    requires ProcedureFrom(prompt, func, inputReq, lowerBound, upperBound).Success?
    ensures WellBounded(ProcedureFrom(prompt, func, inputReq, lowerBound, upperBound).value)
  {
  }

  /**
   * Python list indexing `xs[i]` on a list of length `len`: `i` counts from
   * the front when non-negative and from the back when negative.
   */
  function PyListIndex(len: nat, i: int): (r: Option<nat>)
    ensures r.Some? <==> -(len as int) <= i < len
    ensures r.Some? ==> r.value < len && (if i >= 0 then r.value == i else r.value == len + i)
  {
    if 0 <= i < len then Some(i) else if -(len as int) <= i < 0 then Some(len + i) else None
  }

  /**
   * Child `k` of a menu of `len` entries is selected by typing `k + 1` and
   * also by typing `k + 1 - len`, and by nothing else.
   */
  lemma {:induction false} MenuEntriesForChild(len: nat, k: nat, n: int)
    requires k < len
    ensures PyListIndex(len, k) == Some(k)
    ensures PyListIndex(len, k - len) == Some(k)
    ensures PyListIndex(len, n - 1) == Some(k) <==> n == k + 1 || n == k + 1 - len
  {
  }

  class MenuTree {
    const root: Node

    constructor (node: Node)
      modifies node`menuTree
      ensures root == node && node.menuTree == this
    {
      root := node;
      new;
      node.menuTree := this;
    }

    /** `to_main`: the root the tree was built with. */
    function ToMain(): (r: Node)
      ensures r == root
    {
      root
    }
  }

  class Node {
    var labelText: string
    var menuTree: MenuTree?
    var parent: Node?
    var children: seq<Node>
    var procedure: Option<Procedure>

    ghost predicate Valid()
      reads this
    {
      |labelText| > 0 && (procedure.Some? ==> WellBounded(procedure.value))
    }

    constructor Init(labelText: string)
      requires |labelText| > 0
      ensures this.labelText == labelText && menuTree == null && parent == null && children == [] && procedure == None
      ensures Valid()
    {
      this.labelText := labelText;
      menuTree := null;
      parent := null;
      children := [];
      procedure := None;
    }

    /** `Node(label)`: only a non-empty string label is accepted. */
    static method New(labelText: Value) returns (r: Result<Node, Error>)
      ensures r.Success? <==> labelText.Str? && |labelText.s| > 0
      ensures r.Success? ==>
        && fresh(r.value) && r.value.Valid() && r.value.labelText == labelText.s
        && r.value.menuTree == null && r.value.parent == null && r.value.children == [] && r.value.procedure == None
      ensures r.Failure? ==> r.error == LabelError
    {
      if !(labelText.Str? && |labelText.s| > 0) {
        return Failure(LabelError);
      }
      var n := new Node.Init(labelText.s);
      return Success(n);
    }

    /** The `label` setter: a non-string or empty value raises and keeps the old labelText. */
    method SetLabel(v: Value) returns (err: Option<Error>)
      requires Valid()
      modifies this`labelText
      ensures Valid()
      ensures err.None? <==> v.Str? && |v.s| > 0
      ensures err.None? ==> labelText == v.s
      ensures err.Some? ==> err.value == LabelError && labelText == old(labelText)
    {
      if !(v.Str? && |v.s| > 0) {
        return Some(LabelError);
      }
      labelText := v.s;
      return None;
    }

    /** `add_procedure`: stores the checked record, replacing any earlier one; a failed check stores nothing. */
    method AddProcedure(prompt: Value, func: Value, inputReq: Value, lowerBound: Value, upperBound: Value)
      returns (err: Option<Error>)
      requires Valid()
      modifies this`procedure
      ensures Valid()
      ensures var p := ProcedureFrom(prompt, func, inputReq, lowerBound, upperBound);
        && (p.Success? ==> err.None? && procedure == Some(p.value))
        && (p.Failure? ==> err == Some(p.error) && procedure == old(procedure))
    {
      var p := ProcedureFrom(prompt, func, inputReq, lowerBound, upperBound);
      if p.Failure? {
        return Some(p.error);
      }
      ProcedureFromWellBounded(prompt, func, inputReq, lowerBound, upperBound);
      procedure := Some(p.value);
      return None;
    }

    /** `add_child`: sets the child's parent and tree to this node's, then appends it. */
    method AddChild(node: Node?) returns (err: Option<Error>)
      modifies this`children, {node}`parent, {node}`menuTree
      ensures node == null ==> err == Some(ChildError) && children == old(children)
      ensures node != null ==>
        && err.None?
        && node.parent == this && node.menuTree == old(menuTree)
        && children == old(children) + [node]
    {
      if node == null {
        return Some(ChildError);
      }
      node.parent := this;
      node.menuTree := menuTree;
      children := children + [node];
      return None;
    }

    /** `add_children`: attaches in list order and stops at the first non-Node, keeping earlier attachments. */
    method AddChildren(nodes: seq<Node?>) returns (err: Option<Error>)
      modifies this`children, nodes`parent, nodes`menuTree
      ensures (err.Some? <==> null in nodes) && (err.Some? ==> err.value == ChildError)
      ensures exists k :: (0 <= k <= |nodes| && null !in nodes[..k] && (k < |nodes| ==> nodes[k] == null) &&
        children == old(children) + Attached(nodes[..k]) &&
        forall n :: n in nodes[k..] && n !in nodes[..k] && n != null ==>
          n.parent == old(n.parent) && n.menuTree == old(n.menuTree))
      ensures forall i :: 0 <= i < |nodes| && null !in nodes[..i + 1] ==> nodes[i].parent == this && nodes[i].menuTree == old(menuTree)
    {
      var tree := menuTree;
      var i := 0;
      while i < |nodes|
        invariant 0 <= i <= |nodes| && null !in nodes[..i]
        invariant children == old(children) + Attached(nodes[..i])
        invariant menuTree == tree
        invariant forall j :: 0 <= j < i ==> nodes[j].parent == this && nodes[j].menuTree == tree
        invariant forall n :: n in nodes[i..] && n !in nodes[..i] && n != null ==>
          n.parent == old(n.parent) && n.menuTree == old(n.menuTree)
      {
        var e := AddChild(nodes[i]);
        if e.Some? {
          return e;
        }
        assert nodes[..i + 1] == nodes[..i] + [nodes[i]];
        AttachedAppend(nodes[..i], nodes[i]);
        i := i + 1;
      }
      assert nodes[..i] == nodes;
      return None;
    }

    /**
     * `show_menu`, given the integer typed (None when `int()` fails): entry n
     * selects `children[n - 1]` under Python indexing; anything else reports
     * an invalid option through the tree and stays on this node, and without
     * a tree that report itself raises.
     */
    function ShowMenu(entry: Option<int>): (r: Result<Node, Error>)
      reads this
      ensures entry.Some? && PyListIndex(|children|, entry.value - 1).Some? ==>
        r == Success(children[PyListIndex(|children|, entry.value - 1).value])
      ensures !(entry.Some? && PyListIndex(|children|, entry.value - 1).Some?) ==>
        (menuTree != null ==> r == Success(this)) && (menuTree == null ==> r.Failure?)
      ensures r.Success? ==> r.value == this || r.value in children
    {
      var idx := if entry.Some? then PyListIndex(|children|, entry.value - 1) else None;
      if idx.Some? then Success(children[idx.value])
      else if menuTree == null then Failure(AttributeError("invalid_option"))
      else Success(this)
    }

    /**
     * `run_procedure`: with `input_req` the typed integer must parse and lie
     * within the bounds before the callable is called with it; without, the
     * callable is called with no argument. A falsy return falls back to the
     * parent. `entry` is None both for a line `int()` refuses and for no
     * line at all (`input` raising EOFError); either way the call raises, and
     * the model reports both as `NotAnInteger`.
     */
    function RunProcedure(entry: Option<int>, outcome: FuncOutcome): (r: Result<Next, Error>)
      reads this
      requires Valid()
      ensures procedure.None? ==> r.Failure?
      ensures procedure.Some? && procedure.value.inputReq ==>
        (r.Success? <==> entry.Some? && procedure.value.lowerBound.value <= entry.value <= procedure.value.upperBound.value)
      ensures procedure.Some? && !procedure.value.inputReq ==> r.Success?
      ensures r.Success? ==> r.value.arg == (if procedure.value.inputReq then entry else None)
      ensures r.Success? ==> (r.value.AppExited? <==> outcome.ExitsApp?)
      ensures r.Success? && outcome.Returned? ==>
        r.value.node == (if outcome.value != null then outcome.value else parent)
    {
      if procedure.None? then Failure(AttributeError("values"))
      else
        var p := procedure.value;
        if p.inputReq then
          if entry.None? then Failure(NotAnInteger)
          else if p.lowerBound.value <= entry.value <= p.upperBound.value then Success(Call(entry, outcome))
          else Failure(OutOfBounds)
        else Success(Call(None, outcome))
    }

    /** The node a called procedure leads to: its result when truthy, else the parent. */
    function Call(arg: Option<int>, outcome: FuncOutcome): Next
      reads this
    {
      match outcome
      case ExitsApp => AppExited(arg)
      case Returned(n) => Next(arg, if n != null then n else parent)
    }

    /** `go_back`: the node this one was last attached under. */
    function GoBack(): (r: Node?)
      reads this
      ensures r == parent
    {
      parent
    }
  }

  /** The nodes of a list, all of them Nodes. */
  function Attached(nodes: seq<Node?>): (r: seq<Node>)
    requires null !in nodes
    ensures |r| == |nodes| && forall i :: 0 <= i < |nodes| ==> r[i] == nodes[i]
  {
    if nodes == [] then [] else [nodes[0]] + Attached(nodes[1..])
  }

  lemma AttachedAppend(nodes: seq<Node?>, n: Node)
    requires null !in nodes
    ensures Attached(nodes + [n]) == Attached(nodes) + [n]
  {
    assert null !in nodes + [n];
  }
}
