/** The list of steps of a trigger, built in the heap with an append that takes constant time. */
module TriggerSteps {

  class TriggerStep {
    const cmd: nat         // the command, by its position in the text
    var pNext: TriggerStep?
    var pLast: TriggerStep? // kept up to date in the first step only

    /** sqlite3TriggerSelectStep and its siblings: zeroed memory. */
    constructor (cmd: nat)
      ensures this.cmd == cmd && pNext == null && pLast == null
    {
      this.cmd, pNext, pLast := cmd, null, null;
    }
  }

  /** `nodes` are the steps that `pNext` leads through from the first one. */
  ghost predicate Linked(nodes: seq<TriggerStep>)
    reads nodes`pNext
  {
    && (forall a, b :: 0 <= a < b < |nodes| ==> nodes[a] != nodes[b])
    && (forall k :: 0 <= k < |nodes| ==> nodes[k].pNext == if k + 1 < |nodes| then nodes[k + 1] else null)
  }

  ghost predicate StepList(head: TriggerStep, nodes: seq<TriggerStep>)
    reads head`pLast, nodes`pNext
  {
    nodes != [] && nodes[0] == head && Linked(nodes) && head.pLast == nodes[|nodes| - 1]
  }

  function Commands(nodes: seq<TriggerStep>): seq<nat> {
    seq(|nodes|, k requires 0 <= k < |nodes| => nodes[k].cmd)
  }

  lemma LinkedAt(nodes: seq<TriggerStep>, at: nat)
    requires Linked(nodes) && at < |nodes|
    ensures forall k :: 0 <= k < |nodes| && k != at ==> nodes[k] != nodes[at]
    ensures nodes[at].pNext == if at + 1 < |nodes| then nodes[at + 1] else null
  {
  }

  /** `pLast` of the first step is the one step without a successor. */
  lemma LastHasNoSuccessor(head: TriggerStep, nodes: seq<TriggerStep>)
    requires StepList(head, nodes)
    ensures forall p :: p in nodes ==> (p.pNext == null <==> p == head.pLast)
  {
    forall p | p in nodes
      ensures p.pNext == null <==> p == head.pLast
    {
      var k :| 0 <= k < |nodes| && nodes[k] == p;
      LinkedAt(nodes, k);
    }
  }

  /** The heap determines the list: there is one way to read it through `pNext`. */
  lemma OneReading(a: seq<TriggerStep>, b: seq<TriggerStep>)
    requires Linked(a) && Linked(b) && a != [] && b != [] && a[0] == b[0]
    ensures a == b
  {
    hide Linked;
    SamePrefix(a, b, |a| - 1);
    SamePrefix(b, a, |b| - 1);
    forall k | 0 <= k < |a|
      ensures a[k] == b[k]
    {
      SamePrefix(a, b, k);
    }
  }

  lemma {:induction false} SamePrefix(a: seq<TriggerStep>, b: seq<TriggerStep>, k: nat)
    requires Linked(a) && Linked(b) && k < |a| && b != [] && a[0] == b[0]
    ensures k < |b| && a[k] == b[k]
    decreases k
  {
    hide Linked;
    if k > 0 {
      SamePrefix(a, b, k - 1);
      LinkedAt(a, k - 1);
      LinkedAt(b, k - 1);
    }
  }

  /** trigger_cmd_list ::= trigger_cmd SEMI */
  method FirstStep(y1: TriggerStep) returns (head: TriggerStep)
    requires y1.pNext == null
    modifies y1`pLast
    ensures head == y1 && StepList(head, [y1])
  {
    y1.pLast := y1;
    head := y1;
  }

  /** trigger_cmd_list ::= trigger_cmd_list trigger_cmd SEMI */
  method AppendStep(y2: TriggerStep, y1: TriggerStep, ghost nodes: seq<TriggerStep>)
    requires StepList(y2, nodes) && y1 !in nodes && y1.pNext == null
    modifies y2`pLast, nodes`pNext
    ensures StepList(y2, nodes + [y1])
    ensures forall k :: 0 <= k < |nodes| - 1 ==> nodes[k].pNext == old(nodes[k].pNext)
  {
    assert forall k :: 0 <= k < |nodes| - 1 ==> nodes[k] != nodes[|nodes| - 1];
    y2.pLast.pNext := y1;
    y2.pLast := y1;
    ghost var all := nodes + [y1];
    assert forall k :: 0 <= k < |nodes| ==> all[k] == nodes[k];
  }

  lemma CommandsSnoc(nodes: seq<TriggerStep>, p: TriggerStep)
    ensures Commands([]) == [] && Commands(nodes + [p]) == Commands(nodes) + [p.cmd]
  {
  }

  /** All reductions of a trigger body: the steps appear in the order in which they were written. */
  method TriggerBody(cmds: seq<nat>) returns (head: TriggerStep, ghost nodes: seq<TriggerStep>)
    requires cmds != []
    ensures StepList(head, nodes) && Commands(nodes) == cmds
  {
    hide Linked, Commands;
    var p := new TriggerStep(cmds[0]);
    CommandsSnoc([], p);
    assert [] + [p] == [p];
    head := FirstStep(p);
    nodes := [p];
    var k := 1;
    while k < |cmds|
      invariant 1 <= k <= |cmds| && StepList(head, nodes) && Commands(nodes) == cmds[..k]
      invariant fresh(nodes)
    {
      p := new TriggerStep(cmds[k]);
      AppendStep(head, p, nodes);
      CommandsSnoc(nodes, p);
      nodes := nodes + [p];
      k := k + 1;
    }
    assert cmds[..k] == cmds;
  }

  /** Following `pNext` from the first step visits the commands in order and stops after the last. */
  method Walk(head: TriggerStep, ghost nodes: seq<TriggerStep>) returns (cmds: seq<nat>)
    requires StepList(head, nodes)
    ensures cmds == Commands(nodes)
  {
    cmds := [];
    var pStep: TriggerStep? := head;
    while pStep != null
      invariant |cmds| <= |nodes| && pStep == if |cmds| < |nodes| then nodes[|cmds|] else null
      invariant cmds == Commands(nodes)[..|cmds|]
      decreases |nodes| - |cmds|
    {
      cmds := cmds + [pStep.cmd];
      pStep := pStep.pNext;
    }
  }
}
