/**
  How often handlers run when steps may be approved at any time.  Approving a finished step
  reopens it; every reopening, and nothing else besides a crash, may cost one more execution.
*/
module Accounting {
  import opened Base
  import opened Hashing
  import opened Records
  import opened Bridge
  import opened Recovery
  import opened Protocol
  import opened Invariant
  import opened Reachability
  import opened Audit

  predicate Open(state: StepState) {
    state == StepState.Pending || state == StepState.AwaitingApproval
  }

  /** Steps that are not to be dispatched and whose grant is consumed. */
  function Closed(l: Ledger, steps: map<StepId, StepManifest>): set<StepId> {
    set id | id in steps && !Open(steps[id].state) && Spent(l, steps[id])
  }

  ghost predicate GrantFiled(w: World, g: GrantId)
    requires g in w.ledger.grants
  {
    var record := w.ledger.grants[g];
    && g < w.tick && record.grant.body.grantId == g
    && (record.state == Consumed ==> TryReadReceipt(w.ledger, record.receiptId).Some?)
  }

  /** What discipline is not needed for: grants are filed by id, and a consumed one has its receipt. */
  ghost predicate Kept(w: World) {
    && UniqueIds(w.ledger.graph)
    && w.ledger.manifest.steps.Keys == Ids(w.ledger.graph)
    && forall g {:trigger GrantFiled(w, g)} | g in w.ledger.grants :: GrantFiled(w, g)
  }

  /** Executions are accounted for by closed steps, crashes, `extra` reopenings, and the one in flight. */
  ghost predicate CountedAt(w: World, extra: nat, inFlight: nat) {
    Kept(w) && |w.execs| <= |Closed(w.ledger, w.ledger.manifest.steps)| + w.crashes + extra + inFlight
  }

  ghost predicate FrameCounted(f: Frame, extra: nat) {
    CountedAt(f.w, extra, 0) && (!f.Stopped() ==> f.m == f.w.ledger.manifest)
  }

  // ----- one write -----

  lemma CrashCounted(w: World, extra: nat, inFlight: nat)
    requires CountedAt(w, extra, inFlight) && inFlight <= 1
    ensures CountedAt(Crash(w), extra, 0)
  {
    forall g | g in w.ledger.grants ensures GrantFiled(Crash(w), g) {
      assert GrantFiled(w, g);
    }
  }

  /** A manifest that closes no fewer steps. */
  lemma ManifestCounted(env: Env, w: World, m: Manifest, extra: nat)
    requires CountedAt(w, extra, 0) && m.steps.Keys == w.ledger.manifest.steps.Keys
    requires Closed(w.ledger, w.ledger.manifest.steps) <= Closed(w.ledger, m.steps)
    ensures var w' := WriteManifest(env, w, m);
            && CountedAt(w', extra, 0) && w'.ledger.graph == w.ledger.graph
            && (w'.alive ==> w'.ledger == w.ledger.(manifest := Stamp(env, w, m)))
  {
    var w' := WriteManifest(env, w, m);
    if w.alive && !w'.alive {
      CrashCounted(w, extra, 0);
    } else if w'.alive {
      SubsetSize(Closed(w.ledger, w.ledger.manifest.steps), Closed(w.ledger, m.steps));
      assert Closed(w'.ledger, m.steps) == Closed(w.ledger, m.steps);
      forall g | g in w'.ledger.grants ensures GrantFiled(w', g) {
        assert GrantFiled(w, g);
      }
    }
  }

  /** A grant that no one has used, or an unused one retired, closes and opens nothing. */
  lemma GrantCounted(env: Env, w: World, record: GrantRecord, extra: nat)
    requires CountedAt(w, extra, 0) && record.state != Consumed && record.grant.body.grantId <= w.tick
    requires var g := record.grant.body.grantId; g in w.ledger.grants ==> w.ledger.grants[g].state != Consumed
    ensures var w' := WriteGrant(env, w, record);
            && CountedAt(w', extra, 0) && w'.ledger.graph == w.ledger.graph
            && w'.ledger.manifest == w.ledger.manifest
            && (w'.alive ==> forall steps :: Closed(w'.ledger, steps) == Closed(w.ledger, steps))
  {
    var w' := WriteGrant(env, w, record);
    if w.alive && !w'.alive {
      CrashCounted(w, extra, 0);
    } else if w'.alive {
      forall steps ensures Closed(w'.ledger, steps) == Closed(w.ledger, steps) {
      }
      forall g | g in w'.ledger.grants ensures GrantFiled(w', g) {
        if g in w.ledger.grants { assert GrantFiled(w, g); }
      }
    }
  }

  // ----- the bridge -----

  /** The step runs under this grant, which nothing has used. */
  ghost predicate InHand(w: World, node: Node, grant: StepGrant) {
    && grant.body.stepId == node.id && node.id in w.ledger.manifest.steps
    && w.ledger.manifest.steps[node.id].state == StepState.Running
    && w.ledger.manifest.steps[node.id].grantId == Some(grant.body.grantId)
    && grant.body.grantId in w.ledger.grants
    && w.ledger.grants[grant.body.grantId] == GrantRecord(grant, Issued, None, None)
  }

  lemma HandleCounted(env: Env, w: World, node: Node, grant: StepGrant, extra: nat)
    requires CountedAt(w, extra, 0) && w.alive
    ensures var w' := Handle(env, w, node, grant.body);
            w'.ledger == w.ledger && CountedAt(w', extra, if w'.alive then 1 else 0)
  {
    var w' := Handle(env, w, node, grant.body);
    forall g | g in w.ledger.grants ensures GrantFiled(w', g) {
      assert GrantFiled(w, g);
    }
  }

  lemma ReceiptCounted(env: Env, w: World, receipt: Receipt, extra: nat)
    requires CountedAt(w, extra, 1) && w.alive
    ensures var w' := WriteReceipt(env, w, receipt);
            && CountedAt(w', extra, if w'.alive then 1 else 0)
            && w'.ledger == w.ledger.(receipts := w'.ledger.receipts)
            && (w'.alive ==> receipt.receiptId in w'.ledger.receipts)
  {
    var w' := WriteReceipt(env, w, receipt);
    if !w'.alive {
      CrashCounted(w, extra, 1);
    } else {
      assert Closed(w'.ledger, w.ledger.manifest.steps) == Closed(w.ledger, w.ledger.manifest.steps);
      forall g | g in w'.ledger.grants ensures GrantFiled(w', g) {
        assert GrantFiled(w, g);
      }
    }
  }

  lemma ConsumeCounted(env: Env, w: World, node: Node, grant: StepGrant, r: ReceiptId, extra: nat)
    requires CountedAt(w, extra, 1) && w.alive && InHand(w, node, grant) && r in w.ledger.receipts
    ensures var w' := ConsumeGrant(env, w, grant.body.grantId, r);
            && CountedAt(w', extra, 0)
            && w'.ledger == w.ledger.(grants := w'.ledger.grants)
  {
    var g := grant.body.grantId;
    var w' := ConsumeGrant(env, w, g, r);
    if !w'.alive {
      CrashCounted(w, extra, 1);
    } else {
      ConsumeCloses(w.ledger, w.ledger.manifest.steps, w'.ledger.grants[g], node.id);
      forall k | k in w'.ledger.grants ensures GrantFiled(w', k) {
        assert GrantFiled(w, k);
      }
    }
  }

  /** Consuming the grant of a running step closes it. */
  lemma ConsumeCloses(l: Ledger, steps: map<StepId, StepManifest>, record: GrantRecord, id: StepId)
    requires var g := record.grant.body.grantId;
             && g in l.grants && l.grants[g].state == Issued && record.state == Consumed
             && id in steps && !Open(steps[id].state) && steps[id].grantId == Some(g)
    ensures var l' := l.(grants := l.grants[record.grant.body.grantId := record]);
            |Closed(l, steps)| + 1 <= |Closed(l', steps)|
  {
    var l' := l.(grants := l.grants[record.grant.body.grantId := record]);
    assert id !in Closed(l, steps);
    SubsetSize(Closed(l, steps) + {id}, Closed(l', steps));
  }

  lemma ExecuteCounted(env: Env, w: World, node: Node, grant: StepGrant, extra: nat)
    requires CountedAt(w, extra, 0) && w.alive && InHand(w, node, grant)
    ensures var (w', receipt) := Execute(env, w, node, grant);
            && CountedAt(w', extra, 0) && w'.ledger.manifest == w.ledger.manifest
            && w'.ledger.graph == w.ledger.graph
            && (receipt.None? ==> !w'.alive)
            && (receipt.Some? ==> receipt.value.stepId == node.id)
  {
    if !Admitted(w.ledger, env.now(w.tick), node, grant) {
      CrashCounted(w, extra, 0);
    } else {
      HandleCounted(env, w, node, grant, extra);
      var handled := Handle(env, w, node, grant.body);
      if handled.alive {
        var receipt := Emit(env, handled, node, grant.body, env.ok(w.tick, node.id), env.now(w.tick));
        ReceiptCounted(env, handled, receipt, extra);
        var written := WriteReceipt(env, handled, receipt);
        if written.alive {
          ConsumeCounted(env, written, node, grant, receipt.receiptId, extra);
        }
      }
    }
  }

  // ----- a dispatch and the driving loop -----

  lemma GrantedCounted(env: Env, issued: World, node: Node, grant: StepGrant, at: Time, extra: nat)
    requires CountedAt(issued, extra, 0) && issued.alive && grant.body.stepId == node.id
    requires node.id in issued.ledger.manifest.steps
    requires issued.ledger.manifest.steps[node.id].state == StepState.Pending
    requires grant.body.grantId in issued.ledger.grants
    requires issued.ledger.grants[grant.body.grantId] == GrantRecord(grant, Issued, None, None)
    ensures var g := Granted(env, issued, issued.ledger.manifest, node, grant, at);
            FrameCounted(g, extra) && g.w.ledger.graph == issued.ledger.graph
  {
    var m := Started(issued.ledger.manifest, node.id, grant.body.grantId, at);
    ManifestCounted(env, issued, m, extra);
    var running := Persist(env, issued, m, false);
    if running.w.alive {
      ExecuteCounted(env, running.w, node, grant, extra);
      var (executed, receipt) := Execute(env, running.w, node, grant);
      SettleCounted(env, running, node, executed, receipt, extra);
    }
  }

  lemma SettleCounted(env: Env, running: Frame, node: Node, executed: World, receipt: Option<Receipt>, extra: nat)
    requires CountedAt(executed, extra, 0) && running.m == executed.ledger.manifest && !running.returned
    requires node.id in running.m.steps && running.m.steps[node.id].state == StepState.Running
    requires receipt.None? ==> !executed.alive
    requires receipt.Some? ==> receipt.value.stepId == node.id
    ensures var g := Settle(env, running, executed, receipt);
            FrameCounted(g, extra) && g.w.ledger.graph == executed.ledger.graph
  {
    if receipt.Some? {
      ManifestCounted(env, executed, Finished(running.m, receipt.value), extra);
    }
  }

  lemma DispatchCounted(env: Env, f: Frame, node: Node, extra: nat)
    requires FrameCounted(f, extra)
    requires !f.Stopped() ==> Runnable(f.m, node)
    ensures var g := Dispatch(env, f, node);
            FrameCounted(g, extra) && g.w.ledger.graph == f.w.ledger.graph
  {
    if !f.Stopped() {
      var approval := Get(f.w.ledger.approvals, node.id);
      if node.cell == Elevated && approval.None? {
        ManifestCounted(env, f.w, Paused(f.m, node.id), extra);
      } else {
        var grant := Mint(env, f.w, node, if approval.Some? then Some(approval.value.approvalHash) else None);
        var record := GrantRecord(grant, Issued, None, None);
        forall g | g in f.w.ledger.grants ensures g != f.w.tick { assert GrantFiled(f.w, g); }
        GrantCounted(env, f.w, record, extra);
        var issued := WriteGrant(env, f.w, record);
        if issued.alive {
          GrantedCounted(env, issued, node, grant, env.now(issued.tick), extra);
        }
      }
    }
  }

  lemma {:induction false} BatchCounted(env: Env, f: Frame, batch: seq<Node>, extra: nat)
    requires FrameCounted(f, extra)
    requires !f.Stopped() ==> Distinct(batch) && AllRunnable(f.w.ledger.graph, f.m, batch)
    ensures var g := RunBatch(env, f, batch);
            FrameCounted(g, extra) && g.w.ledger.graph == f.w.ledger.graph
    decreases |batch|
  {
    if batch != [] && !f.Stopped() {
      DispatchCounted(env, f, batch[0], extra);
      StillRunnable(env, f, batch);
      BatchCounted(env, Dispatch(env, f, batch[0]), batch[1..], extra);
    }
  }

  lemma {:induction false} LoopCounted(env: Env, f: Frame, extra: nat)
    requires FrameCounted(f, extra)
    ensures var g := RunLoop(env, f);
            CountedAt(g.w, extra, 0) && g.w.ledger.graph == f.w.ledger.graph
    decreases if f.Stopped() then 0 else 1, |PendingIds(f.m)|
  {
    if !f.Stopped() {
      var graph := f.w.ledger.graph;
      var batch := NextRunnable(graph, f.m);
      forall n | n in graph ensures n.id in f.m.steps { assert n.id in Ids(graph); }
      if batch == [] {
        ManifestCounted(env, f.w, Verdict(f.m), extra);
      } else {
        NextIsDistinct(graph, f.m);
        BatchCounted(env, f, batch, extra);
        var g := RunBatch(env, f, batch);
        if !g.Stopped() {
          RoundDropsPending(env, f);
          StrictSubsetSmaller(PendingIds(g.m), PendingIds(f.m));
          LoopCounted(env, g, extra);
        }
      }
    }
  }

  // ----- recovery -----

  /** The manifest in memory closes no fewer steps than the stored one. */
  ghost predicate RepairCounted(w: World, m: Manifest, extra: nat) {
    && CountedAt(w, extra, 0)
    && m.steps.Keys == w.ledger.manifest.steps.Keys
    && Closed(w.ledger, w.ledger.manifest.steps) <= Closed(w.ledger, m.steps)
  }

  /** A requeued step held no consumed grant, and every other decision keeps its grant. */
  lemma DecideCloses(w: World, step: StepManifest, node: Node)
    requires Kept(w)
    ensures var d := Decide(w.ledger, step, node);
            && (!d.Throws? && !Open(step.state) && Spent(w.ledger, step) ==>
                  d.Becomes? && !Open(d.step.state) && Spent(w.ledger, d.step))
            && (d.Requeued? ==> d.unused in w.ledger.grants && w.ledger.grants[d.unused].state == Issued)
  {
    if step.grantId.Some? && step.grantId.value in w.ledger.grants {
      assert GrantFiled(w, step.grantId.value);
    }
  }

  lemma StepClosed(l: Ledger, steps: map<StepId, StepManifest>, id: StepId, step: StepManifest)
    requires id in steps
    requires !Open(steps[id].state) && Spent(l, steps[id]) ==> !Open(step.state) && Spent(l, step)
    ensures Closed(l, steps) <= Closed(l, steps[id := step])
  {
  }

  lemma RecoverStepCounted(env: Env, w: World, m: Manifest, node: Node, extra: nat)
    requires RepairCounted(w, m, extra) && w.alive
    ensures var (w', m') := RecoverStep(env, w, m, node);
            && CountedAt(w', extra, 0) && w'.ledger.graph == w.ledger.graph
            && (w'.alive ==> RepairCounted(w', m', extra))
  {
    if node.id !in m.steps {
      CrashCounted(w, extra, 0);
    } else {
      var step := m.steps[node.id];
      var d := Decide(w.ledger, step, node);
      DecideCloses(w, step, node);
      match d
      case Throws => CrashCounted(w, extra, 0);
      case Becomes(next) => StepClosed(w.ledger, m.steps, node.id, next);
      case Requeued(next, unused) =>
        assert GrantFiled(w, unused);
        StepClosed(w.ledger, m.steps, node.id, next);
        GrantCounted(env, w, w.ledger.grants[unused].(state := RetiredState(env, w, unused)), extra);
    }
  }

  lemma {:induction false} RecoverStepsCounted(env: Env, w: World, m: Manifest, nodes: seq<Node>, extra: nat)
    requires CountedAt(w, extra, 0) && (w.alive ==> RepairCounted(w, m, extra))
    ensures var (w', m') := RecoverSteps(env, w, m, nodes);
            && CountedAt(w', extra, 0) && w'.ledger.graph == w.ledger.graph
            && (w'.alive ==> RepairCounted(w', m', extra))
    decreases |nodes|
  {
    if nodes != [] {
      if w.alive { RecoverStepCounted(env, w, m, nodes[0], extra); }
      var (w1, m1) := RecoverStep(env, w, m, nodes[0]);
      RecoverStepsCounted(env, w1, m1, nodes[1..], extra);
    }
  }

  lemma RecoverCounted(env: Env, w: World, extra: nat)
    requires CountedAt(w, extra, 0)
    ensures CountedAt(RecoverRun(env, w), extra, 0) && RecoverRun(env, w).ledger.graph == w.ledger.graph
  {
    RecoverStepsCounted(env, w, w.ledger.manifest, w.ledger.graph, extra);
    var (w', m) := RecoverSteps(env, w, w.ledger.manifest, w.ledger.graph);
    if w'.alive {
      ManifestCounted(env, w', m.(state := DeriveRunState(m)), extra);
    }
  }

  // ----- the operations -----

  lemma BeginCounted(w: World, extra: nat)
    requires CountedAt(w, extra, 0)
    ensures CountedAt(Begin(w), extra, 0)
  {
    forall g | g in w.ledger.grants ensures GrantFiled(Begin(w), g) {
      assert GrantFiled(w, g);
    }
  }

  lemma ResumeCounted(env: Env, w: World, extra: nat)
    requires CountedAt(w, extra, 0)
    ensures CountedAt(Resume(env, w).w, extra, 0) && Resume(env, w).w.ledger.graph == w.ledger.graph
  {
    BeginCounted(w, extra);
    RecoverCounted(env, Begin(w), extra);
    var repaired := Repaired(env, w);
    if repaired.alive && !Refuses(repaired.ledger.manifest.state) {
      var m := repaired.ledger.manifest.(state := RunState.Running);
      ManifestCounted(env, repaired, m, extra);
      LoopCounted(env, Persist(env, repaired, m, false), extra);
    }
  }

  /** An approval that turns a closed step back to pending. */
  predicate Reopens(w: World, op: Op) {
    && op.ApproveOp? && op.id in Closed(w.ledger, w.ledger.manifest.steps)
    && var node := FindNode(w.ledger.graph, op.id); node.Some? && node.value.cell == Elevated
  }

  function Count(b: bool): nat {
    if b then 1 else 0
  }

  lemma ReopenCounted(env: Env, w: World, id: StepId, extra: nat)
    requires CountedAt(w, extra, 0) && w.alive && id in w.ledger.manifest.steps
    ensures var w' := WriteManifest(env, w, Reopened(w.ledger.manifest, id));
            && CountedAt(w', extra + Count(id in Closed(w.ledger, w.ledger.manifest.steps)), 0)
            && w'.ledger.graph == w.ledger.graph
  {
    var m := Reopened(w.ledger.manifest, id);
    var before, after := Closed(w.ledger, w.ledger.manifest.steps), Closed(w.ledger, m.steps);
    var w' := WriteManifest(env, w, m);
    if !w'.alive {
      CrashCounted(w, extra, 0);
    } else {
      assert after == before - {id};
      assert Closed(w'.ledger, m.steps) == after;
      forall g | g in w'.ledger.grants ensures GrantFiled(w', g) {
        assert GrantFiled(w, g);
      }
    }
  }

  lemma ApprovalCounted(env: Env, w: World, approval: Approval, extra: nat)
    requires CountedAt(w, extra, 0) && w.alive
    ensures var w' := WriteApproval(env, w, approval);
            && CountedAt(w', extra, 0) && w'.ledger.graph == w.ledger.graph
            && w'.ledger.manifest == w.ledger.manifest
            && Closed(w'.ledger, w.ledger.manifest.steps) == Closed(w.ledger, w.ledger.manifest.steps)
  {
    var w' := WriteApproval(env, w, approval);
    if !w'.alive {
      CrashCounted(w, extra, 0);
    } else {
      assert Closed(w'.ledger, w.ledger.manifest.steps) == Closed(w.ledger, w.ledger.manifest.steps);
      forall g | g in w'.ledger.grants ensures GrantFiled(w', g) {
        assert GrantFiled(w, g);
      }
    }
  }

  lemma ApproveCounted(env: Env, w: World, id: StepId, approver: string, extra: nat)
    requires CountedAt(w, extra, 0)
    ensures var w' := Approve(env, w, id, approver);
            && CountedAt(w', extra + Count(Reopens(w, ApproveOp(id, approver))), 0)
            && w'.ledger.graph == w.ledger.graph
  {
    BeginCounted(w, extra);
    var node := FindNode(w.ledger.graph, id);
    if node.Some? && node.value.cell == Elevated {
      var approval := NewApproval(node.value, w.ledger.policyHash, env.now(w.tick), approver);
      ApprovalCounted(env, Begin(w), approval, extra);
      var approved := WriteApproval(env, Begin(w), approval);
      if approved.alive && id in w.ledger.manifest.steps {
        ReopenCounted(env, approved, id, extra);
      } else if approved.alive {
        CrashCounted(approved, extra, 0);
      }
    }
  }

  lemma CancelCounted(env: Env, w: World, extra: nat)
    requires CountedAt(w, extra, 0)
    ensures CountedAt(Cancel(env, w), extra, 0) && Cancel(env, w).ledger.graph == w.ledger.graph
  {
    BeginCounted(w, extra);
    ManifestCounted(env, Begin(w), CancelledManifest(w.ledger.manifest), extra);
  }

  // ----- whole runs -----

  /** No file is lost or edited; steps may be approved at any time. */
  ghost predicate FilesKept(ops: seq<Op>) {
    forall i {:trigger ops[i]} | 0 <= i < |ops| :: !ops[i].EditGraph? && !ops[i].LoseReceipt?
  }

  /** The reopenings among the operations of a run. */
  function Reopenings(env: Env, w: World, ops: seq<Op>): nat
    decreases |ops|
  {
    if ops == [] then 0
    else Count(Reopens(w, ops[0])) + Reopenings(env, Apply(env, w, ops[0]), ops[1..])
  }

  /** The approvals of steps that neither are pending nor await approval. */
  ghost function Undisciplined(env: Env, w: World, ops: seq<Op>): nat
    decreases |ops|
  {
    if ops == [] then 0
    else Count(!Legal(w, ops[0])) + Undisciplined(env, Apply(env, w, ops[0]), ops[1..])
  }

  lemma ApplyCounted(env: Env, w: World, op: Op, extra: nat)
    requires CountedAt(w, extra, 0) && !op.EditGraph? && !op.LoseReceipt?
    ensures CountedAt(Apply(env, w, op), extra + Count(Reopens(w, op)), 0)
    ensures Apply(env, w, op).ledger.graph == w.ledger.graph
  {
    match op
    case ResumeOp => ResumeCounted(env, w, extra);
    case RecoverOp => BeginCounted(w, extra); RecoverCounted(env, Begin(w), extra);
    case CancelOp => CancelCounted(env, w, extra);
    case ApproveOp(id, approver) => ApproveCounted(env, w, id, approver, extra);
  }

  lemma {:induction false} RunCounted(env: Env, w: World, ops: seq<Op>, extra: nat)
    requires CountedAt(w, extra, 0) && FilesKept(ops)
    ensures CountedAt(Run(env, w, ops), extra + Reopenings(env, w, ops), 0)
    ensures Run(env, w, ops).ledger.graph == w.ledger.graph
    decreases |ops|
  {
    if ops != [] {
      ApplyCounted(env, w, ops[0], extra);
      RunCounted(env, Apply(env, w, ops[0]), ops[1..], extra + Count(Reopens(w, ops[0])));
    }
  }

  /** Only an undisciplined approval reopens a step. */
  lemma {:induction false} ReopeningsAreUndisciplined(env: Env, w: World, ops: seq<Op>)
    ensures Reopenings(env, w, ops) <= Undisciplined(env, w, ops)
    decreases |ops|
  {
    if ops != [] {
      ReopeningsAreUndisciplined(env, Apply(env, w, ops[0]), ops[1..]);
    }
  }

  /**
    Over every run without lost or edited files, however steps are approved: handlers run at
    most once per step, once more per crash, and once more per reopening.
  */
  lemma ReopeningBound(env: Env, graph: seq<Node>, policyHash: Hash, rejected: bool, at: Time, ops: seq<Op>)
    requires UniqueIds(graph) && FilesKept(ops)
    ensures var start := Prepared(graph, policyHash, rejected, at);
            var w := Run(env, start, ops);
            && |w.execs| <= |graph| + w.crashes + Reopenings(env, start, ops)
            && |w.execs| <= |graph| + w.crashes + Undisciplined(env, start, ops)
  {
    var start := Prepared(graph, policyHash, rejected, at);
    assert start.ledger.manifest.steps.Keys == Ids(graph);
    RunCounted(env, start, ops, 0);
    ReopeningsAreUndisciplined(env, start, ops);
    var w := Run(env, start, ops);
    FewIds(graph);
    SubsetSize(Closed(w.ledger, w.ledger.manifest.steps), Ids(graph));
  }
}
