/**
  When a receipt file is lost, an interrupted step that must be reviewed before replay is
  quarantined, and stays out of every dispatch until an operator approves it again.
*/
module Quarantine {
  import opened Base
  import opened Records
  import opened Bridge
  import opened Recovery
  import opened Protocol
  import opened SingleUse
  import opened RecoveryLaws

  /** The step's own grant is unrecoverable: never recorded, or consumed with no readable receipt. */
  predicate Unaccountable(l: Ledger, step: StepManifest) {
    step.grantId.Some? ==>
      && step.grantId.value in l.grants
      && l.grants[step.grantId.value].state == Consumed
      && TryReadReceipt(l, l.grants[step.grantId.value].receiptId).None?
  }

  /** Recovery quarantines an unsettled step exactly in this case. */
  lemma QuarantineExact(l: Ledger, step: StepManifest, node: Node)
    requires !Settled(step.state) && !Decide(l, step, node).Throws?
    ensures Decide(l, step, node).step.state == StepState.Quarantined
            <==> && node.replayClass == ReviewBeforeReplay
                 && TryReadReceipt(l, step.receiptId).None?
                 && Unaccountable(l, step)
  {
  }

  ghost predicate Rests(m: Manifest, id: StepId, state: StepState) {
    id in m.steps && m.steps[id].state == state
  }

  ghost predicate Held(m: Manifest, id: StepId) {
    Rests(m, id, StepState.Quarantined)
  }

  /** From w to w' the history grew, and never by this step. */
  ghost predicate NotDispatched(w: World, w': World, id: StepId) {
    && w.execs <= w'.execs
    && forall i {:trigger w'.execs[i]} | |w.execs| <= i < |w'.execs| :: w'.execs[i].node.id != id
  }

  /** The repair of a whole graph decides each step by the first node that carries its id. */
  lemma {:induction false} RepairDecides(l: Ledger, m: Manifest, nodes: seq<Node>, node: Node)
    requires node in nodes && node.id in m.steps
    requires forall n | n in nodes && n.id == node.id :: n == node
    requires !Decide(l, m.steps[node.id], node).Throws?
    ensures node.id in RepairAll(l, m, nodes).steps
    ensures RepairAll(l, m, nodes).steps[node.id] == Decide(l, m.steps[node.id], node).step
    decreases |nodes|
  {
    var id := nodes[0].id;
    var d := if id in m.steps then Decide(l, m.steps[id], nodes[0]) else Throws;
    var m' := if !d.Throws? then m.(steps := m.steps[id := d.step]) else m;
    if id == node.id {
      DecideSettles(l, m.steps[id], node);
      RepairKeepsSettled(l, m', nodes[1..], id);
    } else {
      RepairDecides(l, m', nodes[1..], node);
    }
  }

  lemma {:induction false} RepairKeepsSettled(l: Ledger, m: Manifest, nodes: seq<Node>, id: StepId)
    requires id in m.steps && Settled(m.steps[id].state)
    ensures id in RepairAll(l, m, nodes).steps && RepairAll(l, m, nodes).steps[id] == m.steps[id]
    decreases |nodes|
  {
    if nodes != [] {
      var k := nodes[0].id;
      var m' := if k in m.steps && !Decide(l, m.steps[k], nodes[0]).Throws?
                then m.(steps := m.steps[k := Decide(l, m.steps[k], nodes[0]).step])
                else m;
      RepairKeepsSettled(l, m', nodes[1..], id);
    }
  }

  /** A lost receipt: the completed recovery quarantines the step and the run. */
  lemma LostReceiptQuarantines(env: Env, w: World, node: Node)
    requires Filed(w.ledger) && RecoverRun(env, w).alive
    requires node in w.ledger.graph && forall n | n in w.ledger.graph && n.id == node.id :: n == node
    requires node.replayClass == ReviewBeforeReplay
    requires node.id in w.ledger.manifest.steps
    requires var step := w.ledger.manifest.steps[node.id];
             && step.state == StepState.Running
             && TryReadReceipt(w.ledger, step.receiptId).None?
             && Unaccountable(w.ledger, step)
    ensures Held(RecoverRun(env, w).ledger.manifest, node.id)
    ensures RecoverRun(env, w).ledger.manifest.state == RunState.Quarantined
  {
    RecoverIsRepair(env, w);
    var step := w.ledger.manifest.steps[node.id];
    QuarantineExact(w.ledger, step, node);
    RepairDecides(w.ledger, w.ledger.manifest, w.ledger.graph, node);
    var m := RepairAll(w.ledger, w.ledger.manifest, w.ledger.graph);
    assert m.steps[node.id].state == StepState.Quarantined;
  }

  // ----- containment -----

  // A step in any state but pending stays as it is, and is not dispatched, while others are.

  lemma DispatchContained(env: Env, f: Frame, node: Node, id: StepId, state: StepState)
    requires state != StepState.Pending && Rests(f.m, id, state) && Rests(f.w.ledger.manifest, id, state)
    requires node.id != id
    ensures var g := Dispatch(env, f, node);
            Rests(g.m, id, state) && Rests(g.w.ledger.manifest, id, state) && NotDispatched(f.w, g.w, id)
  {
    if !f.Stopped() && node.id in f.m.steps {
      var approval := Get(f.w.ledger.approvals, node.id);
      if node.cell == Elevated && approval.None? {
      } else {
        var grant := Mint(env, f.w, node, if approval.Some? then Some(approval.value.approvalHash) else None);
        var issued := WriteGrant(env, f.w, GrantRecord(grant, Issued, None, None));
        GrantedContained(env, issued, f.m, node, grant, env.now(issued.tick), id, state);
      }
    }
  }

  lemma GrantedContained(env: Env, issued: World, m: Manifest, node: Node, grant: StepGrant, at: Time,
                         id: StepId, state: StepState)
    requires Rests(m, id, state) && Rests(issued.ledger.manifest, id, state) && node.id != id
    requires node.id in m.steps && grant.body.stepId == node.id
    ensures var g := Granted(env, issued, m, node, grant, at);
            Rests(g.m, id, state) && Rests(g.w.ledger.manifest, id, state) && NotDispatched(issued, g.w, id)
  {
    var running := Persist(env, issued, Started(m, node.id, grant.body.grantId, at), false);
    ExecuteContained(env, running.w, node, grant, id);
  }

  lemma ExecuteContained(env: Env, w: World, node: Node, grant: StepGrant, id: StepId)
    requires node.id != id && grant.body.stepId == node.id
    ensures var (w', receipt) := Execute(env, w, node, grant);
            && w'.ledger.manifest == w.ledger.manifest && NotDispatched(w, w', id)
            && (receipt.Some? ==> receipt.value.stepId == node.id)
  {
  }

  lemma {:induction false} BatchContained(env: Env, f: Frame, batch: seq<Node>, id: StepId, state: StepState)
    requires state != StepState.Pending && Rests(f.m, id, state) && Rests(f.w.ledger.manifest, id, state)
    requires forall n | n in batch :: n.id != id
    ensures var g := RunBatch(env, f, batch);
            Rests(g.m, id, state) && Rests(g.w.ledger.manifest, id, state) && NotDispatched(f.w, g.w, id)
    decreases |batch|
  {
    if batch != [] && !f.Stopped() {
      DispatchContained(env, f, batch[0], id, state);
      BatchContained(env, Dispatch(env, f, batch[0]), batch[1..], id, state);
    }
  }

  lemma {:induction false} LoopContained(env: Env, f: Frame, id: StepId, state: StepState)
    requires state != StepState.Pending && Rests(f.m, id, state) && Rests(f.w.ledger.manifest, id, state)
    ensures var g := RunLoop(env, f);
            Rests(g.w.ledger.manifest, id, state) && NotDispatched(f.w, g.w, id)
    decreases if f.Stopped() then 0 else 1, |PendingIds(f.m)|
  {
    if !f.Stopped() && Tracked(f.w.ledger.graph, f.m) {
      var batch := NextRunnable(f.w.ledger.graph, f.m);
      if batch != [] {
        BatchContained(env, f, batch, id, state);
        var g := RunBatch(env, f, batch);
        if !g.Stopped() {
          RoundDropsPending(env, f);
          StrictSubsetSmaller(PendingIds(g.m), PendingIds(f.m));
          LoopContained(env, g, id, state);
        }
      }
    }
  }

  lemma RecoverContained(env: Env, w: World, id: StepId)
    requires Held(w.ledger.manifest, id)
    ensures var w' := RecoverRun(env, w);
            Held(w'.ledger.manifest, id) && w'.execs == w.execs
  {
    RecoverSettles(env, w, w.ledger.manifest, w.ledger.graph);
    RecoverStepsSilent(env, w, w.ledger.manifest, w.ledger.graph);
  }

  lemma {:induction false} RecoverStepsSilent(env: Env, w: World, m: Manifest, nodes: seq<Node>)
    ensures var (w', m') := RecoverSteps(env, w, m, nodes);
            w'.execs == w.execs && w'.ledger.manifest == w.ledger.manifest
    decreases |nodes|
  {
    if nodes != [] {
      var (w1, m1) := RecoverStep(env, w, m, nodes[0]);
      RecoverStepsSilent(env, w1, m1, nodes[1..]);
    }
  }

  lemma ResumeContained(env: Env, w: World, id: StepId)
    requires Held(w.ledger.manifest, id)
    ensures Held(Resume(env, w).w.ledger.manifest, id) && NotDispatched(w, Resume(env, w).w, id)
  {
    RecoverContained(env, Begin(w), id);
    var repaired := Repaired(env, w);
    var m := repaired.ledger.manifest;
    if repaired.alive && !Refuses(m.state) {
      LoopContained(env, Persist(env, repaired, m.(state := RunState.Running), false), id, StepState.Quarantined);
    }
  }

  lemma ApplyContained(env: Env, w: World, op: Op, id: StepId)
    requires Held(w.ledger.manifest, id)
    requires op.ApproveOp? ==> op.id != id
    ensures Held(Apply(env, w, op).ledger.manifest, id) && NotDispatched(w, Apply(env, w, op), id)
  {
    match op
    case ResumeOp => ResumeContained(env, w, id);
    case RecoverOp => RecoverContained(env, Begin(w), id);
    case _ =>
  }

  /**
    Containment over any operations whatever, more lost files and edited graphs included:
    a quarantined step is not dispatched until someone approves it.
  */
  lemma {:induction false} QuarantineContains(env: Env, w: World, ops: seq<Op>, id: StepId)
    requires Held(w.ledger.manifest, id)
    requires forall i | 0 <= i < |ops| && ops[i].ApproveOp? :: ops[i].id != id
    ensures Held(Run(env, w, ops).ledger.manifest, id) && NotDispatched(w, Run(env, w, ops), id)
    decreases |ops|
  {
    if ops != [] {
      ApplyContained(env, w, ops[0], id);
      QuarantineContains(env, Apply(env, w, ops[0]), ops[1..], id);
    }
  }
}
