/**
 * The terminal loop of lib/_3_cli.py. Starting from the tree's root, each
 * pass first replaces a node that has a procedure by what `run_procedure`
 * returns, then, if the node it now holds has children, replaces it by what
 * `show_menu` returns. The loop has no exit condition: only a procedure that
 * exits the program, or an exception, ends it. Each pass consumes the answers
 * the user gives in it; the model runs one pass per `Answers` value.
 */
module Cli {
  import opened Wrappers
  import opened PyValues
  import opened LegacyMenu

  /** The answers one pass consumes: the procedure's typed integer, what its callable did, the menu entry. */
  datatype Answers = Answers(procEntry: Option<int>, outcome: FuncOutcome, menuEntry: Option<int>)

  /** Where the loop is: at a node, ended by a procedure that exited, or ended by an exception. */
  datatype State = At(node: Node) | Exited | Crashed(error: Error)

  /** What `node.children` raises when `run_procedure` has fallen back to a missing parent. */
  const NoNode := AttributeError("children")

  /** A set of nodes closed under parent and child links, every one of them valid. */
  ghost predicate Closed(nodes: set<Node>)
    reads nodes
  {
    forall n :: n in nodes ==>
      n.Valid() && (n.parent == null || n.parent in nodes) && (forall c :: c in n.children ==> c in nodes)
  }

  /** A callable can only return nodes of the graph. */
  ghost predicate AnswersIn(inputs: seq<Answers>, nodes: set<Node>) {
    forall i :: 0 <= i < |inputs| && inputs[i].outcome.Returned? && inputs[i].outcome.value != null ==>
      inputs[i].outcome.value in nodes
  }

  /** The menu half of a pass: only a node with children shows a menu. */
  ghost function MenuHalf(nodes: set<Node>, n: Node, entry: Option<int>): (s: State)
    requires n in nodes && Closed(nodes)
    reads nodes
    ensures s.At? ==> s.node in nodes
    ensures |n.children| == 0 ==> s == At(n)
  {
    if |n.children| > 0 then
      match n.ShowMenu(entry)
      case Failure(e) => Crashed(e)
      case Success(m) => At(m)
    else At(n)
  }

  /** One pass of the loop body: procedure first, then menu. */
  ghost function Step(nodes: set<Node>, node: Node, a: Answers): (s: State)
    requires node in nodes && Closed(nodes) && AnswersIn([a], nodes)
    reads nodes
    ensures s.At? ==> s.node in nodes
  {
    if node.procedure.Some? then
      match node.RunProcedure(a.procEntry, a.outcome)
      case Failure(e) => Crashed(e)
      case Success(AppExited(_)) => Exited
      case Success(Next(_, n)) =>
        if n == null then Crashed(NoNode)
        else
          assert [a][0] == a;
          MenuHalf(nodes, n, a.menuEntry)
    else MenuHalf(nodes, node, a.menuEntry)
  }

  /** The state after running the loop on `inputs` from `start`; an ended loop stays ended. */
  ghost function Walk(nodes: set<Node>, start: Node, inputs: seq<Answers>): (s: State)
    requires start in nodes && Closed(nodes) && AnswersIn(inputs, nodes)
    reads nodes
    ensures s.At? ==> s.node in nodes
    decreases |inputs|
  {
    if inputs == [] then At(start)
    else
      var last := |inputs| - 1;
      assert AnswersIn(inputs[..last], nodes) && AnswersIn([inputs[last]], nodes);
      var prev := Walk(nodes, start, inputs[..last]);
      if prev.At? then Step(nodes, prev.node, inputs[last]) else prev
  }

  /**
   * The loop of lib/_3_cli.py from `menu.root`, run for as many passes as
   * there are answers or until it ends.
   */
  method Navigate(tree: MenuTree, inputs: seq<Answers>, ghost nodes: set<Node>) returns (s: State)
    requires tree.root in nodes && Closed(nodes) && AnswersIn(inputs, nodes)
    ensures s == Walk(nodes, tree.root, inputs)
  {
    var node := tree.root;
    s := At(node);
    var i := 0;
    while i < |inputs| && s.At?
      invariant 0 <= i <= |inputs|
      invariant s == Walk(nodes, tree.root, inputs[..i])
      invariant s.At? ==> node == s.node
    {
      assert inputs[..i + 1][..i] == inputs[..i];
      var a := inputs[i];
      assert AnswersIn([a], nodes);
      if node.procedure.Some? {
        var run := node.RunProcedure(a.procEntry, a.outcome);
        if run.Failure? {
          s := Crashed(run.error);
        } else if run.value.AppExited? {
          s := Exited;
        } else if run.value.node == null {
          s := Crashed(NoNode);
        } else {
          node := run.value.node;
          s := At(node);
        }
      }
      if s.At? && |node.children| > 0 {
        var m := node.ShowMenu(a.menuEntry);
        if m.Failure? {
          s := Crashed(m.error);
        } else {
          node := m.value;
          s := At(node);
        }
      }
      i := i + 1;
    }
    if i < |inputs| {
      WalkStaysEnded(nodes, tree.root, inputs, i);
    } else {
      assert inputs[..i] == inputs;
    }
  }

  /** Once the loop has ended, further answers change nothing. */
  lemma {:induction false} WalkStaysEnded(nodes: set<Node>, start: Node, inputs: seq<Answers>, i: nat)
    requires start in nodes && Closed(nodes) && AnswersIn(inputs, nodes)
    requires i <= |inputs|
    requires !Walk(nodes, start, inputs[..i]).At?
    ensures Walk(nodes, start, inputs) == Walk(nodes, start, inputs[..i])
    decreases |inputs| - i
  {
    if i < |inputs| {
      assert inputs[..i + 1][..i] == inputs[..i];
      WalkStaysEnded(nodes, start, inputs, i + 1);
    } else {
      assert inputs[..i] == inputs;
    }
  }

  /** A node with neither procedure nor children is a fixed point of the loop. */
  lemma {:induction false} FixedPoint(nodes: set<Node>, n: Node, inputs: seq<Answers>)
    requires n in nodes && Closed(nodes) && AnswersIn(inputs, nodes)
    requires n.procedure.None? && |n.children| == 0
    ensures Walk(nodes, n, inputs) == At(n)
    decreases |inputs|
  {
    if inputs != [] {
      FixedPoint(nodes, n, inputs[..|inputs| - 1]);
    }
  }

  /** The loop ends by exiting only through a procedure whose callable exits the program. */
  lemma {:induction false} ExitOnlyByProcedure(nodes: set<Node>, start: Node, inputs: seq<Answers>)
    requires start in nodes && Closed(nodes) && AnswersIn(inputs, nodes)
    requires Walk(nodes, start, inputs) == Exited
    ensures exists i :: 0 <= i < |inputs| && inputs[i].outcome.ExitsApp?
    decreases |inputs|
  {
    var last := |inputs| - 1;
    var prev := Walk(nodes, start, inputs[..last]);
    if prev.At? {
      var a := inputs[last];
      assert a.outcome.ExitsApp?;
    } else {
      ExitOnlyByProcedure(nodes, start, inputs[..last]);
      var i :| 0 <= i < last && inputs[..last][i].outcome.ExitsApp?;
      assert inputs[i] == inputs[..last][i];
    }
  }

  /**
   * A pass at a node without a procedure: a valid entry moves to the selected
   * child; an invalid one stays put, or raises when the node has no tree.
   */
  lemma MenuOnlyPass(nodes: set<Node>, n: Node, a: Answers)
    requires n in nodes && Closed(nodes) && AnswersIn([a], nodes)
    requires n.procedure.None? && |n.children| > 0
    ensures var idx := if a.menuEntry.Some? then PyListIndex(|n.children|, a.menuEntry.value - 1) else None;
      && (idx.Some? ==> Step(nodes, n, a) == At(n.children[idx.value]))
      && (idx.None? && n.menuTree != null ==> Step(nodes, n, a) == At(n))
      && (idx.None? && n.menuTree == null ==> Step(nodes, n, a).Crashed?)
  {
  }

  /**
   * A pass at a node with a procedure whose callable returns nothing falls
   * back to the parent, and then shows the parent's menu in the same pass.
   */
  lemma ProcedureThenParentMenu(nodes: set<Node>, n: Node, a: Answers)
    requires n in nodes && Closed(nodes) && AnswersIn([a], nodes)
    requires n.procedure.Some? && !n.procedure.value.inputReq && a.outcome == Returned(null)
    ensures n.parent == null ==> Step(nodes, n, a) == Crashed(NoNode)
    ensures n.parent != null ==> Step(nodes, n, a) == MenuHalf(nodes, n.parent, a.menuEntry)
  {
  }
}
