/**
 * The menu-navigation structure of src/lib/tree/menu_tree.py: a mutable graph
 * of `Node` objects with validated labels, a parent link that every
 * attachment overwrites, an ordered list of children, one stored procedure,
 * a `data_ref` selection slot and the class-wide `Node.last_node`.
 *
 * A procedure is a callable whose effect is not modelled; what it returned is
 * a parameter of `RunProcedure`. The user's pick in the terminal menu is an
 * index parameter of `ShowMenu`. An argument that "is not a Node" is `null`.
 */
module Menu {
  import opened Wrappers
  import opened PyValues
  import Entities

  const OptionLabelError := ValueError("option_label must be a string greater than 0 characters")
  const TitleLabelError := ValueError("title_label must be a string greater than 0 characters")
  const ProcedureError := ValueError("Function parameter must be a function")
  const ChildError := ValueError("Child must be an instance of the Node class")
  /** What `pick` raises when given no options. */
  const NoOptionsError := ValueError("options should not be an empty list")

  /** A label setter: only a non-empty string is stored. */
  function CheckLabel(v: Value, err: Error): (r: Result<string, Error>)
    ensures r.Success? <==> v.Str? && |v.s| > 0
    ensures r.Success? ==> r.value == v.s && |r.value| > 0
    ensures r.Failure? ==> r.error == err
  {
    if v.Str? && |v.s| > 0 then Success(v.s) else Failure(err)
  }

  /** The title a new node is given: the option label when no title is passed. */
  function TitleArgument(optionLabel: Value, titleLabel: Value): (t: Value)
    ensures titleLabel.NoneV? ==> t == optionLabel
    ensures !titleLabel.NoneV? ==> t == titleLabel
  {
    if titleLabel.NoneV? then optionLabel else titleLabel
  }

  /** The class attribute `Node.last_node`, shared by every node. */
  class NodeClass {
    var lastNode: Node?

    constructor ()
      ensures lastNode == null
    {
      lastNode := null;
    }
  }

  class MenuTree {
    const root: Node

    /** `MenuTree(node)`: `node` becomes the root and is linked back to the tree. */
    constructor (node: Node)
      modifies node`menuTree
      ensures root == node && node.menuTree == this
    {
      root := node;
      new;
      node.menuTree := this;
    }

    /** `to_main`: the root the tree was built with, whatever happened since. */
    function ToMain(): (r: Node)
      ensures r == root
    {
      root
    }
  }

  class Node {
    var optionLabel: string
    var titleLabel: string
    var menuTree: MenuTree?
    var parent: Node?
    var children: seq<Node>
    var procedure: Value
    var dataRef: Entities.Entity?

    /** Labels are non-empty and the procedure slot holds nothing or a callable. */
    ghost predicate Valid()
      reads this
    {
      |optionLabel| > 0 && |titleLabel| > 0 && (procedure.NoneV? || procedure.Fn?)
    }

    constructor Init(optionLabel: string, titleLabel: string)
      requires |optionLabel| > 0 && |titleLabel| > 0
      ensures this.optionLabel == optionLabel && this.titleLabel == titleLabel
      ensures menuTree == null && parent == null && children == [] && procedure == NoneV && dataRef == null
      ensures Valid()
    {
      this.optionLabel := optionLabel;
      this.titleLabel := titleLabel;
      menuTree := null;
      parent := null;
      children := [];
      procedure := NoneV;
      dataRef := null;
    }

    /**
     * `Node(option_label, title_label=None)`: the option label is checked
     * first, then the title (the option label when none is given); a new node
     * is detached, childless and has no procedure.
     */
    static method New(optionLabel: Value, titleLabel: Value) returns (r: Result<Node, Error>)
      ensures CheckLabel(optionLabel, OptionLabelError).Failure? ==> r == Failure(OptionLabelError)
      ensures CheckLabel(optionLabel, OptionLabelError).Success? ==>
        var t := TitleArgument(optionLabel, titleLabel);
        && (CheckLabel(t, TitleLabelError).Failure? ==> r == Failure(TitleLabelError))
        && (CheckLabel(t, TitleLabelError).Success? ==>
              && r.Success? && fresh(r.value) && r.value.Valid()
              && r.value.optionLabel == optionLabel.s && r.value.titleLabel == t.s
              && r.value.menuTree == null && r.value.parent == null && r.value.children == []
              && r.value.procedure == NoneV && r.value.dataRef == null)
    {
      var o := CheckLabel(optionLabel, OptionLabelError);
      if o.Failure? {
        return Failure(o.error);
      }
      var t := CheckLabel(TitleArgument(optionLabel, titleLabel), TitleLabelError);
      if t.Failure? {
        return Failure(t.error);
      }
      var n := new Node.Init(o.value, t.value);
      return Success(n);
    }

    /** The `option_label` setter: a non-string or empty value raises and keeps the old label. */
    method SetOptionLabel(v: Value) returns (err: Option<Error>)
      requires Valid()
      modifies this`optionLabel
      ensures Valid()
      ensures err.None? <==> v.Str? && |v.s| > 0
      ensures err.None? ==> optionLabel == v.s
      ensures err.Some? ==> err.value == OptionLabelError && optionLabel == old(optionLabel)
    {
      var c := CheckLabel(v, OptionLabelError);
      if c.Failure? {
        return Some(c.error);
      }
      optionLabel := c.value;
      return None;
    }

    /** The `title_label` setter: a non-string or empty value raises and keeps the old label. */
    method SetTitleLabel(v: Value) returns (err: Option<Error>)
      requires Valid()
      modifies this`titleLabel
      ensures Valid()
      ensures err.None? <==> v.Str? && |v.s| > 0
      ensures err.None? ==> titleLabel == v.s
      ensures err.Some? ==> err.value == TitleLabelError && titleLabel == old(titleLabel)
    {
      var c := CheckLabel(v, TitleLabelError);
      if c.Failure? {
        return Some(c.error);
      }
      titleLabel := c.value;
      return None;
    }

    /** `add_procedure`: a callable replaces whatever procedure was stored; anything else raises. */
    method AddProcedure(p: Value) returns (err: Option<Error>)
      requires Valid()
      modifies this`procedure
      ensures Valid()
      ensures p.Fn? ==> err.None? && procedure == p
      ensures !p.Fn? ==> err == Some(ProcedureError) && procedure == old(procedure)
    {
      if !p.Fn? {
        return Some(ProcedureError);
      }
      procedure := p;
      return None;
    }

    /** `validate_child`: True for a Node, ValueError for anything else. */
    static function ValidateChild(node: Node?): (r: Result<bool, Error>)
      ensures r.Success? <==> node != null
      ensures r.Success? ==> r.value
      ensures r.Failure? ==> r.error == ChildError
    {
      if node != null then Success(true) else Failure(ChildError)
    }

    /**
     * `add_child`: the child's parent becomes this node and its tree this
     * node's tree (overwriting any earlier attachment), and it is appended.
     */
    method AddChild(node: Node?) returns (err: Option<Error>)
      modifies this`children, {node}`parent, {node}`menuTree
      ensures node == null ==> err == Some(ChildError) && children == old(children)
      ensures node != null ==>
        && err.None?
        && node.parent == this && node.menuTree == old(menuTree)
        && children == old(children) + [node]
    {
      var v := ValidateChild(node);
      if v.Failure? {
        return Some(v.error);
      }
      node.parent := this;
      node.menuTree := menuTree;
      children := children + [node];
      return None;
    }

    /**
     * `add_children`: the nodes are attached in list order; the first
     * non-Node raises, leaving the nodes before it attached.
     */
    method AddChildren(nodes: seq<Node?>) returns (err: Option<Error>)
      modifies this`children, nodes`parent, nodes`menuTree
      ensures var k := FirstNonNode(nodes);
        && (err.Some? <==> k < |nodes|)
        && (err.Some? ==> err.value == ChildError)
        && |children| == |old(children)| + k
        && children[..|old(children)|] == old(children)
        && (forall i :: 0 <= i < k ==> children[|old(children)| + i] == nodes[i])
        && (forall i :: 0 <= i < k ==> nodes[i].parent == this && nodes[i].menuTree == old(menuTree))
        && (forall n :: n in nodes[k..] && n !in nodes[..k] && n != null ==>
              n.parent == old(n.parent) && n.menuTree == old(n.menuTree))
    {
      var tree := menuTree;
      var i := 0;
      while i < |nodes|
        invariant 0 <= i <= |nodes| && i <= FirstNonNode(nodes)
        invariant menuTree == tree
        invariant |children| == |old(children)| + i
        invariant children[..|old(children)|] == old(children)
        invariant forall j :: 0 <= j < i ==> children[|old(children)| + j] == nodes[j]
        invariant forall j :: 0 <= j < i ==> nodes[j].parent == this && nodes[j].menuTree == tree
        invariant forall n :: n in nodes[i..] && n !in nodes[..i] && n != null ==>
          n.parent == old(n.parent) && n.menuTree == old(n.menuTree)
      {
        var e := AddChild(nodes[i]);
        if e.Some? {
          FirstNonNodeAt(nodes, i);
          return e;
        }
        assert nodes[..i + 1] == nodes[..i] + [nodes[i]];
        i := i + 1;
      }
      return None;
    }

    /**
     * `show_menu`: records this node as `Node.last_node`, then returns the
     * child the user picked (`index` is the position `pick` reports).
     */
    method ShowMenu(index: int, cls: NodeClass) returns (r: Result<Node, Error>)
      requires 0 <= index && (|children| > 0 ==> index < |children|)
      modifies cls
      ensures cls.lastNode == this
      ensures |children| == 0 ==> r == Failure(NoOptionsError)
      ensures |children| > 0 ==> r.Success? && r.value == children[index] && r.value in children
    {
      cls.lastNode := this;
      if |children| == 0 {
        return Failure(NoOptionsError);
      }
      return Success(children[index]);
    }

    /**
     * `run_procedure`, given what the stored procedure returned: that result
     * when truthy (a node); otherwise this node if it has children, else its
     * parent. Calling an empty procedure slot raises TypeError.
     */
    function RunProcedure(result: Node?): (r: Result<Node?, Error>)
      reads this
      ensures r.Success? <==> procedure.Fn?
      ensures r.Success? && result != null ==> r.value == result
      ensures r.Success? && result == null && |children| > 0 ==> r.value == this
      ensures r.Success? && result == null && |children| == 0 ==> r.value == parent
    {
      if !procedure.Fn? then Failure(TypeError("'NoneType' object is not callable"))
      else
        var defaultNext: Node? := if |children| > 0 then this else parent;
        Success(if result != null then result else defaultNext)
    }
  }

  /** The index of the first entry that is not a Node, or the length when all are. */
  function FirstNonNode(nodes: seq<Node?>): (k: nat)
    ensures k <= |nodes|
    ensures forall i :: 0 <= i < k ==> nodes[i] != null
    ensures k < |nodes| ==> nodes[k] == null
  {
    if nodes == [] then 0
    else if nodes[0] == null then 0
    else 1 + FirstNonNode(nodes[1..])
  }

  lemma FirstNonNodeAt(nodes: seq<Node?>, i: int)
    requires 0 <= i <= FirstNonNode(nodes) && i < |nodes| && nodes[i] == null
    ensures FirstNonNode(nodes) == i
  {
  }

  /**
   * A node attached under two parents, as the shared "Exit App" and "Go
   * Back" nodes are: its parent and tree are those of the last attachment,
   * and both parents list it.
   */
  method AttachUnderBoth(first: Node, second: Node, shared: Node)
    requires shared != first && shared != second
    modifies first`children, second`children, shared`parent, shared`menuTree
    ensures shared.parent == second && shared.menuTree == second.menuTree
    ensures shared in first.children && shared in second.children
    ensures first != second ==> first.children == old(first.children) + [shared]
  {
    var e1 := first.AddChild(shared);
    var e2 := second.AddChild(shared);
  }
}
