/**
  The run protocol of packages/runtime/src/control-plane/run-service.ts as functions on
  worlds.  `RunService` proves that the stateful code computes exactly these.
*/
module Protocol {
  import opened Base
  import opened Json
  import opened Hashing
  import opened Records
  import opened Bridge
  import opened Recovery

  /** A resume in progress: the world, the manifest in memory, and whether the call returned. */
  datatype Frame = Frame(w: World, m: Manifest, returned: bool) {
    predicate Stopped() {
      !w.alive || returned
    }
  }

  // ----- scheduler.ts -----

  predicate Runnable(m: Manifest, node: Node) {
    && node.id in m.steps && m.steps[node.id].state == StepState.Pending
    && forall d | d in node.dependsOn :: d in m.steps && m.steps[d].state == StepState.Succeeded
  }

  /** `nextRunnableSteps`, a filter that keeps the graph's order. */
  function NextRunnable(graph: seq<Node>, m: Manifest): (batch: seq<Node>)
    ensures forall n | n in batch :: n in graph && Runnable(m, n)
    ensures forall n | n in graph && Runnable(m, n) :: n in batch
  {
    if graph == [] then []
    else (if Runnable(m, graph[0]) then [graph[0]] else []) + NextRunnable(graph[1..], m)
  }

  /** From place `from` on, the batch holds the graph's runnable places, each once and in the graph's order. */
  ghost predicate Filters(graph: seq<Node>, m: Manifest, from: nat, places: seq<nat>, batch: seq<Node>) {
    && |places| == |batch|
    && (forall j {:trigger places[j]} | 0 <= j < |places| ::
          from <= places[j] < |graph| && batch[j] == graph[places[j]])
    && (forall j, k {:trigger places[j], places[k]} | 0 <= j < k < |places| :: places[j] < places[k])
    && (forall i: nat {:trigger i in places} | from <= i < |graph| :: i in places <==> Runnable(m, graph[i]))
  }

  lemma {:induction false} NextFrom(graph: seq<Node>, m: Manifest, from: nat) returns (places: seq<nat>)
    requires from <= |graph|
    ensures Filters(graph, m, from, places, NextRunnable(graph[from..], m))
    decreases |graph| - from
  {
    places := [];
    if from < |graph| {
      places := NextFrom(graph, m, from + 1);
      assert graph[from..][1..] == graph[from + 1..];
      if Runnable(m, graph[from]) {
        FiltersOneMore(graph, m, from, places, NextRunnable(graph[from + 1..], m));
        places := [from] + places;
      }
    }
  }

  lemma FiltersOneMore(graph: seq<Node>, m: Manifest, from: nat, places: seq<nat>, batch: seq<Node>)
    requires from < |graph| && Runnable(m, graph[from]) && Filters(graph, m, from + 1, places, batch)
    ensures Filters(graph, m, from, [from] + places, [graph[from]] + batch)
  {
    var all := [from] + places;
    forall j | 0 <= j < |all|
      ensures from <= all[j] < |graph| && ([graph[from]] + batch)[j] == graph[all[j]] && (j > 0 ==> from < all[j]) {
      if j > 0 { assert all[j] == places[j - 1]; }
    }
  }

  /** The scheduler's filter: the runnable nodes of the graph and no others, in the graph's order. */
  lemma NextInOrder(graph: seq<Node>, m: Manifest) returns (places: seq<nat>)
    ensures Filters(graph, m, 0, places, NextRunnable(graph, m))
  {
    places := NextFrom(graph, m, 0);
    assert graph[0..] == graph;
  }

  /** The filter reads `manifest.steps[node.id].state`, which throws when the step is missing. */
  predicate Tracked(graph: seq<Node>, m: Manifest) {
    forall n | n in graph :: n.id in m.steps
  }

  // ----- one dispatch -----

  function Persist(env: Env, w: World, m: Manifest, returned: bool): Frame {
    Frame(WriteManifest(env, w, m), Stamp(env, w, m), returned)
  }

  function Paused(m: Manifest, id: StepId): Manifest
    requires id in m.steps
  {
    m.(state := RunState.AwaitingApproval,
       steps := m.steps[id := m.steps[id].(state := StepState.AwaitingApproval)])
  }

  function Started(m: Manifest, id: StepId, grantId: GrantId, at: Time): Manifest
    requires id in m.steps
  {
    m.(steps := m.steps[id := m.steps[id].(
                        state := StepState.Running, grantId := Some(grantId), startedAt := Some(at))])
  }

  /** `reconcileReceipt`, and the run's verdict when the receipt reports failure. */
  function Finished(m: Manifest, receipt: Receipt): Manifest
    requires receipt.stepId in m.steps
  {
    m.(state := if receipt.ok then m.state else RunState.Failed,
       steps := m.steps[receipt.stepId := Reconciled(m.steps[receipt.stepId], receipt)])
  }

  /** What `resumeWorkflow` does with the receipt; without one the process is dead. */
  function Settle(env: Env, running: Frame, executed: World, receipt: Option<Receipt>): Frame {
    if receipt.None? || receipt.value.stepId !in running.m.steps then Frame(executed, running.m, false)
    else Persist(env, executed, Finished(running.m, receipt.value), !receipt.value.ok)
  }

  /** The dispatch of a step once its grant is written. */
  function Granted(env: Env, issued: World, m: Manifest, node: Node, grant: StepGrant, at: Time): Frame
    requires node.id in m.steps
  {
    var running := Persist(env, issued, Started(m, node.id, grant.body.grantId, at), false);
    var (executed, receipt) := Execute(env, running.w, node, grant);
    Settle(env, running, executed, receipt)
  }

  function Dispatch(env: Env, f: Frame, node: Node): Frame {
    if f.Stopped() then f
    else if node.id !in f.m.steps then Frame(Crash(f.w), f.m, false)
    else
      var approval := Get(f.w.ledger.approvals, node.id);
      if node.cell == Elevated && approval.None? then
        Persist(env, f.w, Paused(f.m, node.id), true)
      else
        var grant := Mint(env, f.w, node, if approval.Some? then Some(approval.value.approvalHash) else None);
        var issued := WriteGrant(env, f.w, GrantRecord(grant, Issued, None, None));
        Granted(env, issued, f.m, node, grant, env.now(issued.tick))
  }

  // ----- the driving loop -----

  function RunBatch(env: Env, f: Frame, batch: seq<Node>): Frame
    decreases |batch|
  {
    if batch == [] || f.Stopped() then f
    else RunBatch(env, Dispatch(env, f, batch[0]), batch[1..])
  }

  lemma DispatchLeavesPending(env: Env, f: Frame, node: Node)
    ensures var g := Dispatch(env, f, node);
            && PendingIds(g.m) <= PendingIds(f.m)
            && (!f.Stopped() && !g.Stopped() ==> node.id !in PendingIds(g.m))
  {
  }

  lemma RunBatchLeavesPending(env: Env, f: Frame, batch: seq<Node>)
    ensures PendingIds(RunBatch(env, f, batch).m) <= PendingIds(f.m)
    decreases |batch|
  {
    if batch != [] && !f.Stopped() {
      DispatchLeavesPending(env, f, batch[0]);
      RunBatchLeavesPending(env, Dispatch(env, f, batch[0]), batch[1..]);
    }
  }

  /** Each round that does not stop leaves strictly fewer pending steps: the loop ends. */
  lemma RoundDropsPending(env: Env, f: Frame)
    requires !f.Stopped()
    ensures var batch := NextRunnable(f.w.ledger.graph, f.m);
            var g := RunBatch(env, f, batch);
            batch != [] && !g.Stopped() ==> PendingIds(g.m) < PendingIds(f.m)
  {
    var batch := NextRunnable(f.w.ledger.graph, f.m);
    if batch != [] {
      var h := Dispatch(env, f, batch[0]);
      DispatchLeavesPending(env, f, batch[0]);
      RunBatchLeavesPending(env, h, batch[1..]);
      assert batch[0] in batch;
      assert batch[0].id in PendingIds(f.m);
    }
  }

  function Verdict(m: Manifest): Manifest {
    m.(state := if SomeStep(m, StepState.AwaitingApproval) then RunState.AwaitingApproval
                else if AllSucceeded(m) then RunState.Succeeded
                else RunState.Failed)
  }

  function RunLoop(env: Env, f: Frame): Frame
    decreases if f.Stopped() then 0 else 1, |PendingIds(f.m)|
  {
    if f.Stopped() then f
    else if !Tracked(f.w.ledger.graph, f.m) then Frame(Crash(f.w), f.m, false)
    else
      var batch := NextRunnable(f.w.ledger.graph, f.m);
      if batch == [] then Persist(env, f.w, Verdict(f.m), true)
      else
        var g := RunBatch(env, f, batch);
        if g.Stopped() then g
        else
          assert |PendingIds(g.m)| < |PendingIds(f.m)| by {
            RoundDropsPending(env, f);
            StrictSubsetSmaller(PendingIds(g.m), PendingIds(f.m));
          }
          RunLoop(env, g)
  }

  lemma StrictSubsetSmaller<T>(a: set<T>, b: set<T>)
    requires a < b
    ensures |a| < |b|
  {
    assert |b| == |a| + |b - a| by { assert b == a + (b - a); }
    assert b - a != {};
  }

  // ----- the operations -----

  function Begin(w: World): World {
    w.(alive := true)
  }

  /** The part of `resumeWorkflow` before the run is marked as running. */
  function Repaired(env: Env, w: World): World {
    if w.ledger.manifest.state == RunState.Running then RecoverRun(env, Begin(w)) else Begin(w)
  }

  predicate Refuses(state: RunState) {
    state in {RunState.Quarantined, RunState.Cancelled, RunState.Rejected}
  }

  /** `resumeWorkflow`.  A quarantined run throws; cancelled and rejected runs are returned as they are. */
  function Resume(env: Env, w: World): Frame {
    var repaired := Repaired(env, w);
    var m := repaired.ledger.manifest;
    if !repaired.alive then Frame(repaired, m, false)
    else if Refuses(m.state) then Frame(repaired, m, m.state != RunState.Quarantined)
    else RunLoop(env, Persist(env, repaired, m.(state := RunState.Running), false))
  }

  function FindNode(graph: seq<Node>, id: StepId): Option<Node> {
    if graph == [] then None
    else if graph[0].id == id then Some(graph[0])
    else FindNode(graph[1..], id)
  }

  function IsoText(t: Time): string {
    (if t < 10 then "" else IsoText(t / 10)) + ["0123456789"[t % 10]]
  }

  /** The binding `approveStep` records; its hash covers every other field. */
  function NewApproval(node: Node, policyHash: Hash, at: Time, approver: string): Approval {
    Approval(node.id, node.payloadHash, policyHash, at, approver,
             HashJson(Obj([("stepId", Str(node.id)), ("approvedPayloadHash", Str(node.payloadHash.text)),
                           ("policyHash", Str(policyHash.text)), ("approvedAt", Str(IsoText(at))),
                           ("approvedBy", Str(approver)), ("approvalMode", Str("step-time"))])))
  }

  function Reopened(m: Manifest, id: StepId): Manifest
    requires id in m.steps
  {
    m.(state := if m.state == RunState.AwaitingApproval then RunState.Ready else m.state,
       steps := m.steps[id := m.steps[id].(state := StepState.Pending)])
  }

  /** `approveRunStep`: the approval first, then the manifest.  Unknown or ordinary steps throw. */
  function Approve(env: Env, w: World, id: StepId, approver: string): World {
    var node := FindNode(w.ledger.graph, id);
    if node.None? || node.value.cell != Elevated then Begin(w)
    else
      var begun := Begin(w);
      var approval := NewApproval(node.value, w.ledger.policyHash, env.now(w.tick), approver);
      var approved := WriteApproval(env, begun, approval);
      if !approved.alive then approved
      else if id !in w.ledger.manifest.steps then Crash(approved)
      else WriteManifest(env, approved, Reopened(w.ledger.manifest, id))
  }

  predicate Cancellable(state: StepState) {
    state in {StepState.Pending, StepState.AwaitingApproval, StepState.GrantIssued, StepState.Running}
  }

  function CancelledManifest(m: Manifest): Manifest {
    m.(state := RunState.Cancelled,
       steps := map id | id in m.steps ::
         if Cancellable(m.steps[id].state) then m.steps[id].(state := StepState.Cancelled) else m.steps[id])
  }

  function Cancel(env: Env, w: World): World {
    if w.ledger.manifest.state in {RunState.Succeeded, RunState.Failed, RunState.Rejected, RunState.Cancelled}
    then Begin(w)
    else WriteManifest(env, Begin(w), CancelledManifest(w.ledger.manifest))
  }

  /** `prepareRun` after its last write. */
  function Prepared(graph: seq<Node>, policyHash: Hash, rejected: bool, at: Time): World {
    World(Ledger(graph, policyHash,
                 Manifest(if rejected then RunState.Rejected else RunState.Ready, at,
                          FreshSteps(graph)),
                 map[], map[], map[]),
          true, 0, 0, [])
  }

  // ----- whole runs -----

  /** The operator's commands, and two things that may happen to the files between them. */
  datatype Op =
    | ResumeOp
    | RecoverOp
    | CancelOp
    | ApproveOp(id: StepId, approver: string)
    | EditGraph(graph: seq<Node>)
    | LoseReceipt(receiptId: ReceiptId)

  function Apply(env: Env, w: World, op: Op): World {
    match op
    case ResumeOp => Resume(env, w).w
    case RecoverOp => RecoverRun(env, Begin(w))
    case CancelOp => Cancel(env, w)
    case ApproveOp(id, approver) => Approve(env, w, id, approver)
    case EditGraph(graph) => w.(ledger := w.ledger.(graph := graph))
    case LoseReceipt(id) => w.(ledger := w.ledger.(receipts := w.ledger.receipts - {id}))
  }

  function Run(env: Env, w: World, ops: seq<Op>): World
    decreases |ops|
  {
    if ops == [] then w else Run(env, Apply(env, w, ops[0]), ops[1..])
  }
}
