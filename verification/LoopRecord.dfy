/** The loop state object, which the walker changes in place although its states are copied otherwise. */
module LoopRecord {
  import opened Wrappers
  import opened Playbook

  class Record {
    var iteration: nat
    var results: seq<Pass>
    var currentItem: Option<Item>
    const body: set<string>
    const starts: seq<string>
    const items: seq<Item>
    var resolvedMax: Option<nat>

    constructor (it: LoopIter)
      ensures View() == it
    {
      iteration, results, currentItem := it.iteration, it.results, it.currentItem;
      body, starts, items, resolvedMax := it.body, it.starts, it.items, it.resolvedMax;
    }

    function View(): LoopIter
      reads this
    {
      LoopIter(iteration, results, body, starts, items, currentItem, resolvedMax)
    }

    /** The answered number of passes is kept in the record too. */
    method Resolve(s: State, id: string, count: nat) returns (change: Change)
      requires id in s.loops && s.loops[id] == View()
      modifies this`resolvedMax
      ensures change == ResolveCount(s, id, count)
      ensures View() == if count == 0 then old(View()) else old(View()).(resolvedMax := Some(count))
    {
      if count == 0 {
        return EndLoop(id, View(), OrchestratorZero);
      }
      resolvedMax := Some(count);
      return BeginPass(id, View());
    }

    /** What the body produced in the pass that ended. */
    method Snapshot(outputs: Outputs) returns (bodyOutputs: Outputs)
      ensures bodyOutputs == map id | id in outputs && id in body :: outputs[id]
    {
      bodyOutputs := map[];
      var left := body;
      while left != {}
        invariant left <= body
        invariant bodyOutputs == map id | id in outputs && id in body - left :: outputs[id]
        decreases |left|
      {
        var id :| id in left;
        left := left - {id};
        if id in outputs {
          bodyOutputs := bodyOutputs[id := outputs[id]];
        }
      }
    }

    /** Re-entry of the loop node. The record is changed whatever comes of the step. */
    method Reenter(s: State, node: Node, stop: bool) returns (change: Change)
      requires node.id in s.loops && s.loops[node.id] == View()
      modifies this
      ensures change == ReenterLoop(s, node, stop)
      ensures View() == FinishPass(old(View()), s.outputs)
    {
      var bodyOutputs := Snapshot(s.outputs);
      results := results + [Pass(iteration, bodyOutputs)];
      iteration := iteration + 1;
      if node.config.loopMode.ForEach? && iteration >= |items| {
        return EndLoop(node.id, View(), ForEachComplete);
      }
      if iteration < |items| {
        currentItem := Some(items[iteration]);
      }
      if !node.config.loopMode.ForEach? {
        var effectiveMax: int := if resolvedMax.Some? then resolvedMax.value else node.config.maxIterations;
        if iteration >= effectiveMax {
          return EndLoop(node.id, View(), LimitReason(node.config.loopMode));
        }
      }
      if node.config.hasCondition {
        if node.config.askModel {
          return AskLoop(Decision(node.id, StopDecision, [], 0), View());
        }
        if stop {
          return EndLoop(node.id, View(), ConditionMet);
        }
      }
      return BeginPass(node.id, View());
    }
  }

  /**
   * A step asked for twice on the same state, the first answer thrown away: the state still refers
   * to the changed record, so the second step counts a pass that never ran and starts the one after it.
   */
  method RetriedStep(record: Record, s: State, node: Node, stop: bool) returns (first: Change, second: Change)
    requires node.id in s.loops && s.loops[node.id] == record.View()
    modifies record
    ensures record.View().iteration == old(record.View()).iteration + 2
    ensures first.BeginPass? ==> first.it.iteration == old(record.View()).iteration + 1
    ensures second.BeginPass? ==> second.it.iteration == old(record.View()).iteration + 2
    ensures first != second
  {
    first := record.Reenter(s, node, stop);
    second := record.Reenter(s.(loops := s.loops[node.id := record.View()]), node, stop);
  }
}
