/**
  Guarantees that need no discipline: they hold for every sequence of operations, even with
  files lost, the graph edited and steps approved at any time.
*/
module SingleUse {
  import opened Base
  import opened Hashing
  import opened Records
  import opened Bridge
  import opened Recovery
  import opened Protocol

  /**
    What a handler call proves: the grant is for this step and for exactly the payload that
    was executed, under the run's policy; an elevated payload was approved by the binding
    then on file, whose hash is the one signed into the grant.
  */
  ghost predicate Authorised(e: Execution, policyHash: Hash) {
    && e.at.policyHash == policyHash
    && e.grant.stepId == e.node.id
    && e.grant.payloadHash == HashJson(e.node.payload)
    && e.grant.policyHash == policyHash
    && (e.node.cell == Elevated ==>
          && e.node.id in e.at.approvals
          && var a := e.at.approvals[e.node.id];
             && a.approvedPayloadHash == HashJson(e.node.payload)
             && a.policyHash == policyHash
             && e.grant.approvalHash == Some(a.approvalHash))
  }

  ghost predicate SameGrant(l: Ledger, r: ReceiptId, q: ReceiptId) {
    r in l.receipts && q in l.receipts && l.receipts[r].grantId == l.receipts[q].grantId
  }

  /** Grant files are named after the grant they hold. */
  ghost predicate Filed(l: Ledger) {
    forall g {:trigger l.grants[g]} | g in l.grants :: l.grants[g].grant.body.grantId == g
  }

  /** A handler ran for the receipt's step and payload, under the receipt's grant. */
  ghost predicate Backed(execs: seq<Execution>, receipt: Receipt) {
    exists i {:trigger execs[i]} :: 0 <= i < |execs| && Reports(receipt, execs[i])
  }

  ghost predicate Reports(receipt: Receipt, e: Execution) {
    && e.grant.grantId == receipt.grantId && e.node.id == receipt.stepId
    && receipt.payloadHash == HashJson(e.node.payload)
  }

  ghost predicate AllBacked(execs: seq<Execution>, l: Ledger) {
    forall r {:trigger l.receipts[r]} | r in l.receipts :: Backed(execs, l.receipts[r])
  }

  /** Every receipt on file when a handler was called reports an earlier call. */
  ghost predicate PastBacked(execs: seq<Execution>) {
    forall i {:trigger execs[i]} | 0 <= i < |execs| :: AllBacked(execs[..i], execs[i].at)
  }

  /** Handlers are called under ever newer grants, a grant has at most one receipt, and a receipt reports a call. */
  ghost predicate Sound(w: World, policyHash: Hash) {
    && w.ledger.policyHash == policyHash
    && (forall i {:trigger w.execs[i]} | 0 <= i < |w.execs| ::
          Authorised(w.execs[i], policyHash) && w.execs[i].grant.grantId < w.tick)
    && (forall i, j {:trigger w.execs[i], w.execs[j]} | 0 <= i < j < |w.execs| ::
          w.execs[i].grant.grantId < w.execs[j].grant.grantId)
    && (forall r {:trigger w.ledger.receipts[r]} | r in w.ledger.receipts ::
          r < w.tick && w.ledger.receipts[r].grantId < w.tick)
    && (forall r, q {:trigger SameGrant(w.ledger, r, q)} | SameGrant(w.ledger, r, q) :: r == q)
    && Filed(w.ledger)
    && AllBacked(w.execs, w.ledger) && PastBacked(w.execs)
  }

  /** Later worlds of the same process: history only grows. */
  ghost predicate Later(w: World, w': World) {
    w.tick <= w'.tick && w.execs <= w'.execs && w.crashes <= w'.crashes
  }

  /** Steps that touch neither receipts nor history. */
  lemma QuietStep(w: World, w': World, policyHash: Hash)
    requires Sound(w, policyHash)
    requires w.tick <= w'.tick && w'.execs == w.execs
    requires w'.ledger.policyHash == w.ledger.policyHash && w'.ledger.receipts == w.ledger.receipts
    requires Filed(w'.ledger)
    ensures Sound(w', policyHash)
  {
    forall r, q | SameGrant(w'.ledger, r, q) ensures r == q {
      assert SameGrant(w.ledger, r, q);
    }
  }

  /** No handler was called and no receipt written under grant g or a newer one. */
  ghost predicate Untouched(w: World, g: GrantId) {
    && (forall i {:trigger w.execs[i]} | 0 <= i < |w.execs| :: w.execs[i].grant.grantId < g)
    && (forall r {:trigger w.ledger.receipts[r]} | r in w.ledger.receipts :: w.ledger.receipts[r].grantId < g)
  }

  lemma HandleSound(env: Env, w: World, node: Node, grant: GrantBody, policyHash: Hash)
    requires Sound(w, policyHash) && Untouched(w, grant.grantId) && grant.grantId < w.tick
    requires Authorised(Execution(node, grant, w.ledger), policyHash)
    ensures Sound(Handle(env, w, node, grant), policyHash)
    ensures Later(w, Handle(env, w, node, grant)) && Handle(env, w, node, grant).ledger == w.ledger
  {
    if w.alive && !env.dies(w.tick) {
      ExecutionSound(w, Handle(env, w, node, grant), Execution(node, grant, w.ledger), policyHash);
    } else {
      QuietStep(w, Handle(env, w, node, grant), policyHash);
    }
  }

  /** One more handler call, under a grant newer than every one used before. */
  lemma ExecutionSound(w: World, w': World, e: Execution, policyHash: Hash)
    requires Sound(w, policyHash) && Untouched(w, e.grant.grantId) && e.grant.grantId < w.tick
    requires Authorised(e, policyHash) && e.at == w.ledger
    requires w'.ledger == w.ledger && w'.execs == w.execs + [e] && w'.tick == w.tick + 1
    ensures Sound(w', policyHash)
  {
    forall r, q | SameGrant(w'.ledger, r, q) ensures r == q {
      assert SameGrant(w.ledger, r, q);
    }
    MoreBacked(w.execs, e, w.ledger);
    PastGrows(w.execs, e);
  }

  lemma MoreBacked(execs: seq<Execution>, e: Execution, l: Ledger)
    requires AllBacked(execs, l)
    ensures AllBacked(execs + [e], l)
  {
    forall r | r in l.receipts ensures Backed(execs + [e], l.receipts[r]) {
      assert Backed(execs, l.receipts[r]);
      var i :| 0 <= i < |execs| && Reports(l.receipts[r], execs[i]);
      assert (execs + [e])[i] == execs[i];
    }
  }

  lemma PastGrows(execs: seq<Execution>, e: Execution)
    requires PastBacked(execs) && AllBacked(execs, e.at)
    ensures PastBacked(execs + [e])
  {
    var all := execs + [e];
    forall i | 0 <= i < |all| ensures AllBacked(all[..i], all[i].at) {
      if i < |execs| {
        assert all[i] == execs[i] && all[..i] == execs[..i];
      } else {
        assert all[..i] == execs;
      }
    }
  }

  lemma ReceiptSound(env: Env, w: World, receipt: Receipt, policyHash: Hash)
    requires Sound(w, policyHash) && Backed(w.execs, receipt)
    requires forall r | r in w.ledger.receipts :: w.ledger.receipts[r].grantId < receipt.grantId
    requires receipt.receiptId == w.tick && receipt.grantId < w.tick
    ensures Sound(WriteReceipt(env, w, receipt), policyHash) && Later(w, WriteReceipt(env, w, receipt))
  {
    var w' := WriteReceipt(env, w, receipt);
    if w'.alive {
      forall r, q | SameGrant(w'.ledger, r, q) ensures r == q {
        if r != w.tick && q != w.tick { assert SameGrant(w.ledger, r, q); }
      }
    } else {
      QuietStep(w, w', policyHash);
    }
  }

  lemma ExecuteSound(env: Env, w: World, node: Node, grant: StepGrant, policyHash: Hash)
    requires Sound(w, policyHash) && Untouched(w, grant.body.grantId) && grant.body.grantId < w.tick
    requires grant.body.stepId == node.id
    ensures var (w', receipt) := Execute(env, w, node, grant);
            Sound(w', policyHash) && Later(w, w')
  {
    if w.alive {
      if !Admitted(w.ledger, env.now(w.tick), node, grant) {
        QuietStep(w, Crash(w), policyHash);
      } else {
        HandleSound(env, w, node, grant.body, policyHash);
        var handled := Handle(env, w, node, grant.body);
        if handled.alive {
          var receipt := Emit(env, handled, node, grant.body, env.ok(w.tick, node.id), env.now(w.tick));
          assert Reports(receipt, handled.execs[|w.execs|]);
          RecordSound(env, handled, receipt, policyHash);
        }
      }
    }
  }

  /** The receipt of a handler call, and the consumption of its grant. */
  lemma RecordSound(env: Env, w: World, receipt: Receipt, policyHash: Hash)
    requires Sound(w, policyHash) && Backed(w.execs, receipt)
    requires forall r | r in w.ledger.receipts :: w.ledger.receipts[r].grantId < receipt.grantId
    requires receipt.receiptId == w.tick && receipt.grantId < w.tick
    ensures var w' := ConsumeGrant(env, WriteReceipt(env, w, receipt), receipt.grantId, receipt.receiptId);
            Sound(w', policyHash) && Later(w, w')
  {
    ReceiptSound(env, w, receipt, policyHash);
    var written := WriteReceipt(env, w, receipt);
    QuietStep(written, ConsumeGrant(env, written, receipt.grantId, receipt.receiptId), policyHash);
  }

  lemma GrantedSound(env: Env, issued: World, m: Manifest, node: Node, grant: StepGrant, at: Time, policyHash: Hash)
    requires Sound(issued, policyHash) && Untouched(issued, grant.body.grantId) && grant.body.grantId < issued.tick
    requires grant.body.stepId == node.id && node.id in m.steps
    ensures var g := Granted(env, issued, m, node, grant, at);
            Sound(g.w, policyHash) && Later(issued, g.w)
  {
    var running := Persist(env, issued, Started(m, node.id, grant.body.grantId, at), false);
    QuietStep(issued, running.w, policyHash);
    ExecuteSound(env, running.w, node, grant, policyHash);
    var (executed, receipt) := Execute(env, running.w, node, grant);
    SettleSound(env, running, executed, receipt, policyHash);
  }

  lemma SettleSound(env: Env, running: Frame, executed: World, receipt: Option<Receipt>, policyHash: Hash)
    requires Sound(executed, policyHash)
    ensures var w' := Settle(env, running, executed, receipt).w; Sound(w', policyHash) && Later(executed, w')
  {
    QuietStep(executed, Settle(env, running, executed, receipt).w, policyHash);
  }

  lemma IssueSound(env: Env, w: World, grant: StepGrant, policyHash: Hash)
    requires Sound(w, policyHash) && w.alive && grant.body.grantId == w.tick
    ensures var issued := WriteGrant(env, w, GrantRecord(grant, Issued, None, None));
            && Sound(issued, policyHash) && Later(w, issued)
            && Untouched(issued, w.tick) && w.tick < issued.tick
  {
    QuietStep(w, WriteGrant(env, w, GrantRecord(grant, Issued, None, None)), policyHash);
  }

  lemma ManifestSound(env: Env, w: World, m: Manifest, policyHash: Hash)
    requires Sound(w, policyHash)
    ensures Sound(WriteManifest(env, w, m), policyHash) && Later(w, WriteManifest(env, w, m))
  {
    QuietCommit(env, w, w.ledger.(manifest := Stamp(env, w, m)), policyHash);
  }

  lemma DispatchSound(env: Env, f: Frame, node: Node, policyHash: Hash)
    requires Sound(f.w, policyHash)
    ensures Sound(Dispatch(env, f, node).w, policyHash) && Later(f.w, Dispatch(env, f, node).w)
  {
    if f.Stopped() {
    } else if node.id !in f.m.steps {
      QuietStep(f.w, Crash(f.w), policyHash);
    } else {
      var approval := Get(f.w.ledger.approvals, node.id);
      if node.cell == Elevated && approval.None? {
        ManifestSound(env, f.w, Paused(f.m, node.id), policyHash);
      } else {
        var grant := Mint(env, f.w, node, if approval.Some? then Some(approval.value.approvalHash) else None);
        var issued := WriteGrant(env, f.w, GrantRecord(grant, Issued, None, None));
        IssueSound(env, f.w, grant, policyHash);
        GrantedSound(env, issued, f.m, node, grant, env.now(issued.tick), policyHash);
      }
    }
  }

  lemma {:induction false} BatchSound(env: Env, f: Frame, batch: seq<Node>, policyHash: Hash)
    requires Sound(f.w, policyHash)
    ensures Sound(RunBatch(env, f, batch).w, policyHash) && Later(f.w, RunBatch(env, f, batch).w)
    decreases |batch|
  {
    if batch != [] && !f.Stopped() {
      DispatchSound(env, f, batch[0], policyHash);
      BatchSound(env, Dispatch(env, f, batch[0]), batch[1..], policyHash);
    }
  }

  lemma {:induction false} LoopSound(env: Env, f: Frame, policyHash: Hash)
    requires Sound(f.w, policyHash)
    ensures Sound(RunLoop(env, f).w, policyHash) && Later(f.w, RunLoop(env, f).w)
    decreases if f.Stopped() then 0 else 1, |PendingIds(f.m)|
  {
    if !f.Stopped() {
      var batch := NextRunnable(f.w.ledger.graph, f.m);
      if !Tracked(f.w.ledger.graph, f.m) || batch == [] {
        QuietStep(f.w, RunLoop(env, f).w, policyHash);
      } else {
        BatchSound(env, f, batch, policyHash);
        var g := RunBatch(env, f, batch);
        if !g.Stopped() {
          RoundDropsPending(env, f);
          StrictSubsetSmaller(PendingIds(g.m), PendingIds(f.m));
          LoopSound(env, g, policyHash);
        }
      }
    }
  }

  lemma {:induction false} RecoverStepsQuiet(env: Env, w: World, m: Manifest, nodes: seq<Node>)
    requires Filed(w.ledger)
    ensures var (w', m') := RecoverSteps(env, w, m, nodes);
            && Filed(w'.ledger)
            && w'.ledger == w.ledger.(grants := w'.ledger.grants)
            && w'.execs == w.execs && w.tick <= w'.tick && w.crashes <= w'.crashes
    decreases |nodes|
  {
    if nodes != [] {
      var (w1, m1) := RecoverStep(env, w, m, nodes[0]);
      RecoverStepsQuiet(env, w1, m1, nodes[1..]);
    }
  }

  lemma RecoverQuiet(env: Env, w: World)
    requires Filed(w.ledger)
    ensures var w' := RecoverRun(env, w);
            && Filed(w'.ledger)
            && w'.ledger == w.ledger.(grants := w'.ledger.grants, manifest := w'.ledger.manifest)
            && w'.execs == w.execs && w.tick <= w'.tick && w.crashes <= w'.crashes
  {
    RecoverStepsQuiet(env, w, w.ledger.manifest, w.ledger.graph);
  }

  lemma ResumeSound(env: Env, w: World, policyHash: Hash)
    requires Sound(w, policyHash)
    ensures Sound(Resume(env, w).w, policyHash) && Later(w, Resume(env, w).w)
  {
    RecoverQuiet(env, Begin(w));
    var repaired := Repaired(env, w);
    QuietStep(w, repaired, policyHash);
    if repaired.alive && !Refuses(repaired.ledger.manifest.state) {
      var f := Persist(env, repaired, repaired.ledger.manifest.(state := RunState.Running), false);
      QuietStep(repaired, f.w, policyHash);
      LoopSound(env, f, policyHash);
    }
  }

  lemma RecoverSound(env: Env, w: World, policyHash: Hash)
    requires Sound(w, policyHash)
    ensures Sound(RecoverRun(env, w), policyHash) && Later(w, RecoverRun(env, w))
  {
    RecoverQuiet(env, w);
    QuietStep(w, RecoverRun(env, w), policyHash);
  }

  lemma ApproveSound(env: Env, w: World, id: StepId, approver: string, policyHash: Hash)
    requires Sound(w, policyHash)
    ensures Sound(Approve(env, w, id, approver), policyHash) && Later(w, Approve(env, w, id, approver))
  {
    QuietStep(w, Begin(w), policyHash);
    var node := FindNode(w.ledger.graph, id);
    if node.Some? && node.value.cell == Elevated {
      var approval := NewApproval(node.value, w.ledger.policyHash, env.now(w.tick), approver);
      var approved := WriteApproval(env, Begin(w), approval);
      ApprovalSound(env, Begin(w), approval, policyHash);
      if approved.alive && id in w.ledger.manifest.steps {
        ManifestSound(env, approved, Reopened(w.ledger.manifest, id), policyHash);
      } else if approved.alive {
        QuietStep(approved, Crash(approved), policyHash);
      }
    }
  }

  lemma ApprovalSound(env: Env, w: World, approval: Approval, policyHash: Hash)
    requires Sound(w, policyHash)
    ensures Sound(WriteApproval(env, w, approval), policyHash) && Later(w, WriteApproval(env, w, approval))
  {
    QuietCommit(env, w, w.ledger.(approvals := w.ledger.approvals[approval.stepId := approval]), policyHash);
  }

  /** Writing a manifest or an approval. */
  lemma QuietCommit(env: Env, w: World, ledger: Ledger, policyHash: Hash)
    requires Sound(w, policyHash)
    requires ledger == w.ledger.(manifest := ledger.manifest, approvals := ledger.approvals)
    ensures Sound(Commit(env, w, ledger), policyHash) && Later(w, Commit(env, w, ledger))
  {
    QuietStep(w, Commit(env, w, ledger), policyHash);
  }

  lemma ApplySound(env: Env, w: World, op: Op, policyHash: Hash)
    requires Sound(w, policyHash)
    ensures Sound(Apply(env, w, op), policyHash) && Later(w, Apply(env, w, op))
  {
    match op
    case ResumeOp => ResumeSound(env, w, policyHash);
    case RecoverOp => RecoverSound(env, Begin(w), policyHash);
    case CancelOp => QuietStep(w, Apply(env, w, op), policyHash);
    case ApproveOp(id, approver) => ApproveSound(env, w, id, approver, policyHash);
    case EditGraph(_) => QuietStep(w, Apply(env, w, op), policyHash);
    case LoseReceipt(id) => LossSound(env, w, id, policyHash);
  }

  lemma LossSound(env: Env, w: World, id: ReceiptId, policyHash: Hash)
    requires Sound(w, policyHash)
    ensures Sound(Apply(env, w, LoseReceipt(id)), policyHash) && Later(w, Apply(env, w, LoseReceipt(id)))
  {
    var w' := Apply(env, w, LoseReceipt(id));
    forall r, q | SameGrant(w'.ledger, r, q) ensures r == q {
      assert SameGrant(w.ledger, r, q);
    }
  }

  /**
    Over every run whatever: each execution was authorised for its exact payload, no grant
    reached a handler twice, and no grant has two receipts.
  */
  lemma {:induction false} RunSound(env: Env, w: World, ops: seq<Op>, policyHash: Hash)
    requires Sound(w, policyHash)
    ensures Sound(Run(env, w, ops), policyHash) && Later(w, Run(env, w, ops))
    decreases |ops|
  {
    if ops != [] {
      ApplySound(env, w, ops[0], policyHash);
      RunSound(env, Apply(env, w, ops[0]), ops[1..], policyHash);
    }
  }

  lemma PreparedSound(graph: seq<Node>, policyHash: Hash, rejected: bool, at: Time)
    ensures Sound(Prepared(graph, policyHash, rejected, at), policyHash)
  {
  }
}
