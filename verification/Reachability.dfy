/** The invariant holds after every operation of every disciplined run, wherever it crashes. */
module Reachability {
  import opened Base
  import opened Hashing
  import opened Records
  import opened Recovery
  import opened Protocol
  import opened Invariant

  // ----- batches and rounds -----

  /** A dispatch changes one step; when the resume goes on, that step succeeded. */
  lemma DispatchTouches(env: Env, f: Frame, node: Node)
    ensures var g := Dispatch(env, f, node);
            && g.m.steps.Keys == f.m.steps.Keys
            && (forall id {:trigger g.m.steps[id]} | id in f.m.steps && id != node.id :: g.m.steps[id] == f.m.steps[id])
            && (!f.Stopped() && !g.Stopped() ==>
                  && node.id in g.m.steps && g.m.steps[node.id].state == StepState.Succeeded
                  && g.m.state == f.m.state)
  {
  }

  ghost predicate Distinct(batch: seq<Node>) {
    forall i, j {:trigger batch[i], batch[j]} | 0 <= i < j < |batch| :: batch[i].id != batch[j].id
  }

  ghost predicate AllRunnable(graph: seq<Node>, m: Manifest, batch: seq<Node>) {
    forall i {:trigger batch[i]} | 0 <= i < |batch| :: batch[i] in graph && Runnable(m, batch[i])
  }

  /** Dispatching one step of a batch leaves the rest of the batch runnable. */
  lemma StillRunnable(env: Env, f: Frame, batch: seq<Node>)
    requires batch != [] && !f.Stopped()
    requires Distinct(batch) && AllRunnable(f.w.ledger.graph, f.m, batch)
    ensures var g := Dispatch(env, f, batch[0]);
            !g.Stopped() ==> Distinct(batch[1..]) && AllRunnable(f.w.ledger.graph, g.m, batch[1..])
  {
    var g := Dispatch(env, f, batch[0]);
    DispatchTouches(env, f, batch[0]);
    if !g.Stopped() {
      forall i | 0 <= i < |batch[1..]| ensures batch[1..][i] in f.w.ledger.graph && Runnable(g.m, batch[1..][i]) {
        assert batch[1..][i] == batch[i + 1];
      }
    }
  }

  lemma BatchKeeps(env: Env, f: Frame, batch: seq<Node>)
    requires Clocked(env) && FrameOk(env, f)
    requires !f.Stopped() ==> Distinct(batch) && AllRunnable(f.w.ledger.graph, f.m, batch)
    ensures FrameOk(env, RunBatch(env, f, batch))
    ensures RunBatch(env, f, batch).w.ledger.graph == f.w.ledger.graph
    decreases |batch|
  {
    if batch != [] && !f.Stopped() {
      DispatchKeeps(env, f, batch[0]);
      StillRunnable(env, f, batch);
      BatchKeeps(env, Dispatch(env, f, batch[0]), batch[1..]);
    }
  }

  lemma {:induction false} NextIsDistinct(graph: seq<Node>, m: Manifest)
    requires UniqueIds(graph)
    ensures Distinct(NextRunnable(graph, m))
  {
    if graph != [] {
      forall i: nat, j: nat | SameId(graph[1..], i, j) ensures i == j {
        assert SameId(graph, i + 1, j + 1);
      }
      NextIsDistinct(graph[1..], m);
      var rest := NextRunnable(graph[1..], m);
      forall j | 0 <= j < |rest| ensures rest[j].id != graph[0].id {
        assert rest[j] in graph[1..];
        var k :| 0 <= k < |graph[1..]| && graph[1..][k] == rest[j];
        assert !SameId(graph, 0, k + 1);
      }
    }
  }

  /** At quiescence a step that is neither succeeded nor awaiting approval means some step failed. */
  lemma {:induction false} QuiescentBlame(graph: seq<Node>, rank: map<StepId, nat>, m: Manifest, id: StepId)
    requires Ranked(graph, rank) && m.steps.Keys == Ids(graph) && Calm(m)
    requires NextRunnable(graph, m) == []
    requires !SomeStep(m, StepState.AwaitingApproval)
    requires id in m.steps && m.steps[id].state != StepState.Succeeded
    ensures SomeStep(m, StepState.Failed)
    decreases rank[id]
  {
    if m.steps[id].state == StepState.Pending {
      var n :| n in graph && n.id == id;
      assert !Runnable(m, n);
      var d :| d in n.dependsOn && !(d in m.steps && m.steps[d].state == StepState.Succeeded);
      assert Edge(graph, n, d);
      QuiescentBlame(graph, rank, m, d);
    }
  }

  lemma VerdictAgrees(graph: seq<Node>, m: Manifest)
    requires (exists rank :: Ranked(graph, rank)) && m.steps.Keys == Ids(graph) && Calm(m)
    requires NextRunnable(graph, m) == []
    ensures Agreement(Verdict(m))
  {
    if !SomeStep(m, StepState.AwaitingApproval) && !AllSucceeded(m) {
      var rank :| Ranked(graph, rank);
      var id :| id in m.steps && m.steps[id].state != StepState.Succeeded;
      QuiescentBlame(graph, rank, m, id);
    }
    CalmVerdict(m);
  }

  lemma CalmVerdict(m: Manifest)
    requires Calm(m)
    requires SomeStep(m, StepState.AwaitingApproval) || AllSucceeded(m) || SomeStep(m, StepState.Failed)
    ensures Agreement(Verdict(m))
  {
    assert forall st :: SomeStep(m, st) == SomeStep(Verdict(m), st);
  }

  lemma FinishRunKeeps(env: Env, f: Frame)
    requires Clocked(env) && FrameOk(env, f) && !f.Stopped()
    requires NextRunnable(f.w.ledger.graph, f.m) == []
    ensures FrameOk(env, Persist(env, f.w, Verdict(f.m), true))
    ensures Persist(env, f.w, Verdict(f.m), true).w.ledger.graph == f.w.ledger.graph
  {
    VerdictAgrees(f.w.ledger.graph, f.m);
    PersistKeeps(env, f.w, Verdict(f.m), 0);
  }

  lemma LoopKeeps(env: Env, f: Frame)
    requires Clocked(env) && FrameOk(env, f)
    ensures FrameOk(env, RunLoop(env, f))
    ensures RunLoop(env, f).w.ledger.graph == f.w.ledger.graph
    decreases if f.Stopped() then 0 else 1, |PendingIds(f.m)|
  {
    if !f.Stopped() {
      var graph := f.w.ledger.graph;
      assert Tracked(graph, f.m) by {
        forall n | n in graph ensures n.id in f.m.steps {
          assert n.id in Ids(graph);
        }
      }
      var batch := NextRunnable(graph, f.m);
      if batch == [] {
        FinishRunKeeps(env, f);
      } else {
        NextIsDistinct(graph, f.m);
        BatchKeeps(env, f, batch);
        var g := RunBatch(env, f, batch);
        if !g.Stopped() {
          RoundDropsPending(env, f);
          StrictSubsetSmaller(PendingIds(g.m), PendingIds(f.m));
          LoopKeeps(env, g);
        }
      }
    }
  }

  // ----- recovery -----

  /** While recovery works, the manifest in memory fits the ledger as well as the stored one does. */
  ghost predicate Repairing(env: Env, w: World, m: Manifest) {
    && Inv(env, w)
    && m.state == w.ledger.manifest.state
    && m.steps.Keys == w.ledger.manifest.steps.Keys
    && RecordsOk(w.ledger, m.steps)
    && Accounted(w.ledger, m.steps) == Accounted(w.ledger, w.ledger.manifest.steps)
  }

  lemma RetireKeeps(env: Env, w: World, m: Manifest, id: StepId, state: GrantState)
    requires Clocked(env) && Repairing(env, w, m) && w.alive
    requires state == Expired || state == Void
    requires id in m.steps && m.steps[id].grantId.Some?
    requires var g := m.steps[id].grantId.value; g in w.ledger.grants && w.ledger.grants[g].state == Issued
    ensures var g := m.steps[id].grantId.value;
            var w' := RetireGrant(env, w, w.ledger.grants[g].grant.body.grantId, state);
            && Inv(env, w')
            && w'.ledger.graph == w.ledger.graph
            && (w'.alive ==> Repairing(env, w', m) && !Spent(w'.ledger, m.steps[id]))
  {
    var g := m.steps[id].grantId.value;
    assert GrantOk(w.ledger, g);
    var w' := RetireGrant(env, w, g, state);
    if !w'.alive {
      CrashKeeps(env, w, 0);
    } else {
      var record := w'.ledger.grants[g];
      var stored := w.ledger.manifest.steps;
      ChangeGrant(w.ledger, stored, record);
      ChangeAccounted(w.ledger, stored, record);
      RecordsKeep(env, w, w', 0, 0);
      ChangeGrant(w.ledger, m.steps, record);
      ChangeAccounted(w.ledger, m.steps, record);
    }
  }

  /** Changing one unsettled step of the manifest in memory. */
  lemma RepairOne(env: Env, w: World, m: Manifest, id: StepId, step: StepManifest)
    requires Repairing(env, w, m) && id in m.steps && m.steps[id].state != StepState.Succeeded
    requires StepOk(w.ledger, id, step) && Spent(w.ledger, step) == Spent(w.ledger, m.steps[id])
    ensures Repairing(env, w, m.(steps := m.steps[id := step]))
  {
    SetStep(w.ledger, m.steps, id, step);
  }

  /** Under the invariant recovery never throws, and its decision fits the ledger. */
  lemma DecisionFits(l: Ledger, steps: map<StepId, StepManifest>, id: StepId, node: Node)
    requires RecordsOk(l, steps) && id in steps
    ensures var d := Decide(l, steps[id], node);
            && !d.Throws?
            && Settled(d.step.state)
            && (Settled(steps[id].state) ==> d == Becomes(steps[id]))
            && (d.Becomes? ==> StepOk(l, id, d.step) && Spent(l, d.step) == Spent(l, steps[id]))
            && (d.Requeued? ==>
                  && d.step == Cleared(steps[id]) && d.step.receiptId.None?
                  && steps[id].grantId == Some(d.unused)
                  && d.unused in l.grants && l.grants[d.unused].state == Issued
                  && l.grants[d.unused].grant.body.grantId == d.unused)
  {
    var step := steps[id];
    assert StepOk(l, id, step);
    if !Settled(step.state) && step.grantId.Some? {
      assert GrantOk(l, step.grantId.value);
      var receiptId := l.grants[step.grantId.value].receiptId;
      if receiptId.Some? { assert ReceiptOk(l, steps, receiptId.value); }
    }
  }

  lemma RecoverStepKeeps(env: Env, w: World, m: Manifest, node: Node)
    requires Clocked(env) && Repairing(env, w, m) && w.alive && node in w.ledger.graph
    ensures var (w', m') := RecoverStep(env, w, m, node);
            && Inv(env, w') && w'.ledger.graph == w.ledger.graph
            && (w'.alive ==>
                  && Repairing(env, w', m')
                  && node.id in m'.steps && Settled(m'.steps[node.id].state)
                  && (forall id | id in m.steps && Settled(m.steps[id].state) :: m'.steps[id] == m.steps[id]))
  {
    assert node.id in Ids(w.ledger.graph);
    var step := m.steps[node.id];
    DecisionFits(w.ledger, m.steps, node.id, node);
    var d := Decide(w.ledger, step, node);
    if Settled(step.state) {
      assert m.(steps := m.steps[node.id := step]) == m;
    } else if d.Becomes? {
      RepairOne(env, w, m, node.id, d.step);
    } else {
      RetireKeeps(env, w, m, node.id, RetiredState(env, w, d.unused));
      var w' := RetireGrant(env, w, d.unused, RetiredState(env, w, d.unused));
      if w'.alive {
        RepairOne(env, w', m, node.id, d.step);
      }
    }
  }

  lemma {:induction false} RecoverStepsKeep(env: Env, w: World, m: Manifest, nodes: seq<Node>)
    requires Clocked(env) && Inv(env, w)
    requires w.alive ==> Repairing(env, w, m)
    requires forall n | n in nodes :: n in w.ledger.graph
    ensures var (w', m') := RecoverSteps(env, w, m, nodes);
            && Inv(env, w') && w'.ledger.graph == w.ledger.graph
            && (w'.alive ==>
                  && w.alive && Repairing(env, w', m')
                  && (forall n | n in nodes :: n.id in m'.steps && Settled(m'.steps[n.id].state))
                  && (forall id | id in m.steps && Settled(m.steps[id].state) :: m'.steps[id] == m.steps[id]))
    decreases |nodes|
  {
    if nodes != [] {
      if w.alive {
        RecoverStepKeeps(env, w, m, nodes[0]);
      }
      var (w1, m1) := RecoverStep(env, w, m, nodes[0]);
      RecoverStepsKeep(env, w1, m1, nodes[1..]);
    }
  }

  lemma DerivedAgrees(m: Manifest)
    requires forall id | id in m.steps :: Settled(m.steps[id].state) && m.steps[id].state != StepState.Skipped
    ensures Agreement(m.(state := DeriveRunState(m)))
    ensures Derivable(DeriveRunState(m))
  {
    var d := m.(state := DeriveRunState(m));
    assert forall st :: SomeStep(m, st) == SomeStep(d, st);
    if DeriveRunState(m) == m.state && !AllSucceeded(m) {
      var id :| id in m.steps && m.steps[id].state != StepState.Succeeded;
    }
  }

  /** The run states recovery can leave: not running, cancelled or rejected. */
  predicate Derivable(state: RunState) {
    state in {RunState.Quarantined, RunState.AwaitingApproval, RunState.Succeeded, RunState.Failed, RunState.Ready}
  }

  /** After recovery no step is running or cancelled, and the run is none of running, cancelled and rejected. */
  ghost predicate Recovered(m: Manifest) {
    && Derivable(m.state)
    && forall id | id in m.steps :: Settled(m.steps[id].state)
  }

  lemma RecoverKeeps(env: Env, w: World)
    requires Clocked(env) && Inv(env, w)
    ensures Inv(env, RecoverRun(env, w)) && RecoverRun(env, w).ledger.graph == w.ledger.graph
    ensures RecoverRun(env, w).alive ==> Recovered(RecoverRun(env, w).ledger.manifest)
  {
    RecoverStepsKeep(env, w, w.ledger.manifest, w.ledger.graph);
    var (w', m) := RecoverSteps(env, w, w.ledger.manifest, w.ledger.graph);
    if w'.alive {
      forall id | id in m.steps ensures Settled(m.steps[id].state) {
        assert id in Ids(w.ledger.graph);
      }
      RepairedKeeps(env, w', m);
    }
  }

  /** The one manifest write at the end of a recovery. */
  lemma RepairedKeeps(env: Env, w: World, m: Manifest)
    requires Clocked(env) && Repairing(env, w, m) && w.alive
    requires forall id | id in m.steps :: Settled(m.steps[id].state)
    ensures var w' := WriteManifest(env, w, m.(state := DeriveRunState(m)));
            && Inv(env, w') && w'.ledger.graph == w.ledger.graph
            && (w'.alive ==> Recovered(w'.ledger.manifest))
  {
    forall id | id in m.steps ensures m.steps[id].state != StepState.Skipped {
      assert StepOk(w.ledger, id, m.steps[id]);
    }
    DerivedAgrees(m);
    PersistKeeps(env, w, m.(state := DeriveRunState(m)), 0);
  }

  // ----- the operations -----

  lemma BeginKeeps(env: Env, w: World)
    requires Inv(env, w)
    ensures Inv(env, Begin(w))
  {
  }

  lemma RunningKeeps(env: Env, w: World)
    requires Clocked(env) && Inv(env, w) && w.alive
    requires !Refuses(w.ledger.manifest.state) && w.ledger.manifest.state != RunState.Running
    ensures FrameOk(env, Persist(env, w, w.ledger.manifest.(state := RunState.Running), false))
    ensures Persist(env, w, w.ledger.manifest.(state := RunState.Running), false).w.ledger.graph == w.ledger.graph
  {
    var m := w.ledger.manifest;
    forall id | id in m.steps
      ensures m.steps[id].state in {StepState.Pending, StepState.AwaitingApproval, StepState.Succeeded,
                StepState.Failed} {
      assert StepOk(w.ledger, id, m.steps[id]);
    }
    PersistKeeps(env, w, m.(state := RunState.Running), 0);
  }

  lemma ResumeKeeps(env: Env, w: World)
    requires Clocked(env) && Inv(env, w)
    ensures Inv(env, Resume(env, w).w) && Resume(env, w).w.ledger.graph == w.ledger.graph
  {
    BeginKeeps(env, w);
    if w.ledger.manifest.state == RunState.Running {
      RecoverKeeps(env, Begin(w));
    }
    var repaired := Repaired(env, w);
    if repaired.alive && !Refuses(repaired.ledger.manifest.state) {
      RunningKeeps(env, repaired);
      LoopKeeps(env, Persist(env, repaired, repaired.ledger.manifest.(state := RunState.Running), false));
    }
  }

  /** A step may be approved while it awaits approval or has not started. */
  ghost predicate Disciplined(w: World, id: StepId) {
    var steps := w.ledger.manifest.steps;
    id in steps ==> steps[id].state == StepState.Pending || steps[id].state == StepState.AwaitingApproval
  }

  lemma ReopenedAgrees(m: Manifest, id: StepId)
    requires Agreement(m) && id in m.steps
    requires m.steps[id].state == StepState.Pending || m.steps[id].state == StepState.AwaitingApproval
    ensures Agreement(Reopened(m, id))
  {
    var m' := Reopened(m, id);
    assert forall k | k in m.steps && k != id :: m'.steps[k] == m.steps[k];
  }

  lemma ApprovalKeeps(env: Env, w: World, approval: Approval)
    requires Clocked(env) && Inv(env, w) && w.alive
    ensures Inv(env, WriteApproval(env, w, approval))
  {
    var w' := WriteApproval(env, w, approval);
    if !w'.alive {
      CrashKeeps(env, w, 0);
    } else {
      SameRecords(w.ledger, w'.ledger, w.ledger.manifest.steps);
      RecordsKeep(env, w, w', 0, 0);
    }
  }

  lemma ReopenKeeps(env: Env, w: World, id: StepId)
    requires Clocked(env) && Inv(env, w) && w.alive && Disciplined(w, id) && id in w.ledger.manifest.steps
    ensures var w' := WriteManifest(env, w, Reopened(w.ledger.manifest, id));
            Inv(env, w') && w'.ledger.graph == w.ledger.graph
  {
    ReopenedAgrees(w.ledger.manifest, id);
    assert StepOk(w.ledger, id, w.ledger.manifest.steps[id]);
    PersistStep(env, w, Reopened(w.ledger.manifest, id), id);
  }

  lemma ApproveKeeps(env: Env, w: World, id: StepId, approver: string)
    requires Clocked(env) && Inv(env, w) && Disciplined(w, id)
    ensures Inv(env, Approve(env, w, id, approver)) && Approve(env, w, id, approver).ledger.graph == w.ledger.graph
  {
    BeginKeeps(env, w);
    var node := FindNode(w.ledger.graph, id);
    if node.Some? && node.value.cell == Elevated {
      var approval := NewApproval(node.value, w.ledger.policyHash, env.now(w.tick), approver);
      ApprovalKeeps(env, Begin(w), approval);
      var approved := WriteApproval(env, Begin(w), approval);
      if approved.alive {
        if id !in w.ledger.manifest.steps {
          CrashKeeps(env, approved, 0);
        } else {
          ReopenKeeps(env, approved, id);
        }
      }
    }
  }

  lemma CancelRecords(l: Ledger)
    requires RecordsOk(l, l.manifest.steps)
    ensures var m := CancelledManifest(l.manifest);
            && RecordsOk(l, m.steps) && Agreement(m)
            && Accounted(l, m.steps) == Accounted(l, l.manifest.steps)
  {
    var m := CancelledManifest(l.manifest);
    forall id | id in m.steps
      ensures StepOk(l, id, m.steps[id]) && Spent(l, m.steps[id]) == Spent(l, l.manifest.steps[id]) {
      assert StepOk(l, id, l.manifest.steps[id]);
    }
    SetSteps(l, l.manifest.steps, m.steps);
  }

  lemma CancelKeeps(env: Env, w: World)
    requires Clocked(env) && Inv(env, w)
    ensures Inv(env, Cancel(env, w)) && Cancel(env, w).ledger.graph == w.ledger.graph
  {
    BeginKeeps(env, w);
    if w.ledger.manifest.state !in {RunState.Succeeded, RunState.Failed, RunState.Rejected, RunState.Cancelled} {
      CancelRecords(w.ledger);
      PersistKeeps(env, Begin(w), CancelledManifest(w.ledger.manifest), 0);
    }
  }

  lemma PreparedKeeps(env: Env, graph: seq<Node>, policyHash: Hash, rejected: bool, at: Time)
    requires WellFormed(graph)
    ensures Inv(env, Prepared(graph, policyHash, rejected, at))
  {
    var w := Prepared(graph, policyHash, rejected, at);
    assert w.ledger.manifest.steps.Keys == Ids(graph);
    assert Accounted(w.ledger, w.ledger.manifest.steps) == {};
  }

  // ----- whole runs -----

  /** The files stay as the runtime wrote them, and approval is disciplined. */
  ghost predicate Legal(w: World, op: Op) {
    match op
    case ApproveOp(id, _) => Disciplined(w, id)
    case EditGraph(_) => false
    case LoseReceipt(_) => false
    case _ => true
  }

  ghost predicate LegalRun(env: Env, w: World, ops: seq<Op>)
    decreases |ops|
  {
    ops == [] || (Legal(w, ops[0]) && LegalRun(env, Apply(env, w, ops[0]), ops[1..]))
  }

  lemma ApplyKeeps(env: Env, w: World, op: Op)
    requires Clocked(env) && Inv(env, w) && Legal(w, op)
    ensures Inv(env, Apply(env, w, op)) && Apply(env, w, op).ledger.graph == w.ledger.graph
  {
    match op
    case ResumeOp => ResumeKeeps(env, w);
    case RecoverOp => BeginKeeps(env, w); RecoverKeeps(env, Begin(w));
    case CancelOp => CancelKeeps(env, w);
    case ApproveOp(id, approver) => ApproveKeeps(env, w, id, approver);
  }

  lemma {:induction false} RunKeeps(env: Env, w: World, ops: seq<Op>)
    requires Clocked(env) && Inv(env, w) && LegalRun(env, w, ops)
    ensures Inv(env, Run(env, w, ops)) && Run(env, w, ops).ledger.graph == w.ledger.graph
    decreases |ops|
  {
    if ops != [] {
      ApplyKeeps(env, w, ops[0]);
      RunKeeps(env, Apply(env, w, ops[0]), ops[1..]);
    }
  }

  /** Any disciplined run of a compiled graph, from its preparation on. */
  ghost predicate Reached(env: Env, graph: seq<Node>, w: World) {
    exists policyHash, rejected, at, ops ::
      && LegalRun(env, Prepared(graph, policyHash, rejected, at), ops)
      && w == Run(env, Prepared(graph, policyHash, rejected, at), ops)
  }

  lemma ReachedInv(env: Env, graph: seq<Node>, w: World)
    requires Clocked(env) && WellFormed(graph) && Reached(env, graph, w)
    ensures Inv(env, w) && w.ledger.graph == graph
  {
    var policyHash, rejected, at, ops :|
      && LegalRun(env, Prepared(graph, policyHash, rejected, at), ops)
      && w == Run(env, Prepared(graph, policyHash, rejected, at), ops);
    PreparedKeeps(env, graph, policyHash, rejected, at);
    RunKeeps(env, Prepared(graph, policyHash, rejected, at), ops);
  }

  /** Reached under some environment. */
  ghost predicate Reachable(graph: seq<Node>, w: World) {
    exists env {:trigger Reached(env, graph, w)} :: Clocked(env) && Reached(env, graph, w)
  }
}
