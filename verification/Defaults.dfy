/**
  What a step gets when the workflow file leaves something out: its cell and so its bridge,
  its replay class, and with them whether it needs an approval
  (packages/runtime/src/compiler/normalize-workflow.ts).
*/
module Defaults {
  import opened Base
  import opened Json
  import opened Hashing
  import opened Records
  import opened Invariant
  import opened Reachability
  import opened SingleUse
  import opened Audit
  import opened Normalize
  import opened Resolve
  import opened Compile
  import CycleDetection

  // ----- what is accepted -----

  predicate Letter(c: char) {
    'A' <= c <= 'Z' || 'a' <= c <= 'z'
  }

  /** `/^[A-Za-z0-9][A-Za-z0-9_-]{0,63}$/` */
  predicate IdText(id: string) {
    && 1 <= |id| <= 64 && (Letter(id[0]) || '0' <= id[0] <= '9')
    && forall i | 1 <= i < |id| :: Letter(id[i]) || '0' <= id[i] <= '9' || id[i] == '_' || id[i] == '-'
  }

  predicate Reads(action: string) {
    action == "read_file" || action == "list_files"
  }

  /** Commands and patches. */
  predicate Acts(action: string) {
    action == "exec_command" || action == "apply_patch"
  }

  lemma StepAcceptedExactly(step: StepSource)
    ensures StepAccepted(step) <==>
              && IdText(step.id)
              && (Reads(step.action) || step.action == "research_note" || step.action == "session_note"
                  || Acts(step.action))
              && (step.cell.None? || step.cell.value == "read" || step.cell.value == "research"
                  || step.cell.value == "session" || step.cell.value == "elevated")
  {
    assert ValidId(step.id) <==> IdText(step.id);
  }

  /** A workflow of one bare step compiles exactly when its header, id, action and cell are in order. */
  lemma OneStepCompiles(version: string, name: string, id: string, action: string, cell: Option<string>)
    ensures var step := StepSource(id, action, cell, None, None, None);
            Acceptable(Workflow(version, name, map[], [step])) <==>
              version == "toolflow.workflow/v1" && name != "" && StepAccepted(step)
  {
    var step := StepSource(id, action, cell, None, None, None);
    var steps := [step];
    assert DepsMap(steps) == map[id := []] by {
      assert steps[..0] == [];
      assert DepsMap(steps) == DepsMap(steps[..0])[id := Deps(step)];
    }
    assert CycleDetection.Topological(DepsMap(steps), [id]);
    CycleDetection.OrderedIsAcyclic(DepsMap(steps), [id]);
    assert ValueBound(Args(step), map[]);
    var source := Workflow(version, name, map[], steps);
    assert source.steps[0] == step;
    if StepAccepted(step) {
      assert forall i {:trigger source.steps[i]} | 0 <= i < |source.steps| :: StepAccepted(source.steps[i]);
    }
  }

  // ----- cells and replay classes -----

  /** The node the compiler makes of an accepted step. */
  ghost predicate NodeFor(step: StepSource, inputs: map<string, Input>, n: Node) {
    StepAccepted(step) && Compile.Compiled(step, inputs, n)
  }

  /** Without a cell the action decides; only commands and patches become elevated. */
  lemma DefaultCell(step: StepSource, inputs: map<string, Input>, n: Node)
    requires NodeFor(step, inputs, n) && step.cell.None?
    ensures n.cell == Read <==> Reads(step.action)
    ensures n.cell == Research <==> step.action == "research_note"
    ensures n.cell == Session <==> step.action == "session_note"
    ensures n.cell == Elevated <==> Acts(step.action)
  {
    StepAcceptedExactly(step);
  }

  /** A cell that is named is the node's. */
  lemma NamedCell(step: StepSource, inputs: map<string, Input>, n: Node)
    requires NodeFor(step, inputs, n) && step.cell.Some?
    ensures n.cell == Read <==> step.cell == Some("read")
    ensures n.cell == Research <==> step.cell == Some("research")
    ensures n.cell == Session <==> step.cell == Some("session")
    ensures n.cell == Elevated <==> step.cell == Some("elevated")
  {
    StepAcceptedExactly(step);
  }

  /** Each cell has its own bridge. */
  lemma CellBridge(step: StepSource, inputs: map<string, Input>, n: Node)
    requires NodeFor(step, inputs, n)
    ensures n.bridgeId == match n.cell
                          case Read => "read-bridge-v1"
                          case Research => "research-bridge-v1"
                          case Session => "session-bridge-v1"
                          case Elevated => "elevated-bridge-v1"
  {
    StepAcceptedExactly(step);
    BridgeNames();
    match n.cell
    case Read => assert CellOf(step) == "read";
    case Research => assert CellOf(step) == "research";
    case Session => assert CellOf(step) == "session";
    case Elevated => assert CellOf(step) == "elevated";
  }

  lemma BridgeNames()
    ensures "read" + "-bridge-v1" == "read-bridge-v1"
    ensures "research" + "-bridge-v1" == "research-bridge-v1"
    ensures "session" + "-bridge-v1" == "session-bridge-v1"
    ensures "elevated" + "-bridge-v1" == "elevated-bridge-v1"
  {
  }

  /** Without a replay class the cell decides. */
  lemma DefaultReplayClass(step: StepSource, inputs: map<string, Input>, n: Node)
    requires NodeFor(step, inputs, n) && step.replayClass.None?
    ensures n.replayClass == match n.cell
                             case Read => ReadOnly
                             case Research => Idempotent
                             case Session => Idempotent
                             case Elevated => ReviewBeforeReplay
  {
    StepAcceptedExactly(step);
  }

  /** A replay class that is named is the node's, whatever the text. */
  lemma NamedReplayClass(step: StepSource, inputs: map<string, Input>, n: Node)
    requires NodeFor(step, inputs, n) && step.replayClass.Some?
    ensures n.replayClass == ReadOnly <==> step.replayClass == Some("read_only")
    ensures n.replayClass == Idempotent <==> step.replayClass == Some("idempotent")
    ensures n.replayClass == ReviewBeforeReplay <==> step.replayClass == Some("review_before_replay")
    ensures n.replayClass.Unchecked? ==> n.replayClass.text == step.replayClass.value
  {
  }

  /** The rest of the node is the step's own, with nothing for what is left out. */
  lemma NodeKeepsStep(step: StepSource, inputs: map<string, Input>, n: Node)
    requires NodeFor(step, inputs, n)
    ensures n.id == step.id && n.action == step.action && n.payloadHash == HashJson(n.payload)
    ensures n.dependsOn == if step.dependsOn.Some? then step.dependsOn.value else []
    ensures step.args.None? ==> n.payload == Obj([])
  {
  }

  // ----- no command without an approval -----

  /** Some approval on file is for exactly this payload, under the run's policy. */
  ghost predicate ApprovedFor(l: Ledger, n: Node) {
    && n.id in l.approvals
    && l.approvals[n.id].approvedPayloadHash == HashJson(n.payload) && l.approvals[n.id].policyHash == l.policyHash
  }

  /**
    In every run of a compiled workflow, a command or patch step written without a cell only
    ever ran while an approval for its exact payload was on file.
  */
  lemma CommandsAreApproved(env: Env, source: Workflow, graph: seq<Node>, w: World, i: nat, j: nat)
    requires Clocked(env) && WellFormed(graph) && Reached(env, graph, w) && |graph| == |source.steps|
    requires i < |w.execs| && j < |graph| && w.execs[i].node.id == graph[j].id
    requires NodeFor(source.steps[j], source.inputs, graph[j])
    requires source.steps[j].cell.None? && Acts(source.steps[j].action)
    ensures w.execs[i].node == graph[j] && ApprovedFor(w.execs[i].at, graph[j])
  {
    ReachedInv(env, graph, w);
    ReachedSound(env, graph, w);
    assert ExecutionOk(w.execs[i]);
    SameNode(graph, w.execs[i].node, graph[j]);
    DefaultCell(source.steps[j], source.inputs, graph[j]);
    assert Authorised(w.execs[i], w.ledger.policyHash);
  }
}
