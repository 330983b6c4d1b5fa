/**
  The stateful services over a ledger store: the bridge, recovery, and the run service with
  its nested loops.  Each method does to the store's world exactly what the function of the
  protocol does, so every theorem about the protocol is a theorem about these methods.
*/
module RunService {
  import opened Base
  import opened Hashing
  import opened Records
  import opened Bridge
  import opened Recovery
  import opened Protocol
  import opened Invariant
  import Normalize
  import Compile
  import opened Store

  // ----- grant-service.ts and the bridges -----

  method MintStepGrant(store: LedgerStore, node: Node, approvalHash: Option<Hash>) returns (grant: StepGrant)
    modifies store
    ensures grant == Mint(store.env, old(store.Current()), node, approvalHash)
    ensures store.Current() == WriteGrant(store.env, old(store.Current()), GrantRecord(grant, Issued, None, None))
  {
    var at := store.env.now(store.tick);
    var body := GrantBody(
                  store.tick, node.id, node.cell, node.bridgeId, node.action, node.payloadHash,
                  store.policyHash, approvalHash, node.replayClass, at, at + store.env.ttl, KeyFor(node.cell));
    grant := StepGrant(body, Tag(KeyFor(node.cell), body));
    store.WriteGrant(GrantRecord(grant, Issued, None, None));
  }

  /** The handler runs; its effect counts even if it then throws. */
  method RunHandler(store: LedgerStore, node: Node, grant: GrantBody)
    modifies store
    ensures store.Current() == Handle(store.env, old(store.Current()), node, grant)
  {
    if !store.alive { return; }
    if store.env.dies(store.tick) { store.Die(); return; }
    store.execs := store.execs + [Execution(node, grant, store.Files())];
    if store.env.throws(store.tick) { store.Die(); } else { store.tick := store.tick + 1; }
  }

  /** Both bridges: check, run the handler, write the receipt, consume the grant. */
  method ExecuteStep(store: LedgerStore, node: Node, grant: StepGrant) returns (receipt: Option<Receipt>)
    modifies store
    ensures (store.Current(), receipt) == Execute(store.env, old(store.Current()), node, grant)
  {
    receipt := None;
    if !store.alive { return; }
    var startedAt := store.env.now(store.tick);
    var ok := store.env.ok(store.tick, node.id);
    var files := Ledger.Ledger(store.graph, store.policyHash, store.manifest, store.grants, store.receipts,
        store.approvals);
    if !Admitted(files, startedAt, node, grant) { store.Die(); return; }
    RunHandler(store, node, grant.body);
    var emitted := Receipt(store.tick, grant.body.grantId, grant.body.stepId, node.bridgeId,
                           grant.body.payloadHash, grant.body.policyHash, ok, startedAt, store.env.now(store.tick));
    store.WriteReceipt(emitted);
    store.ConsumeGrant(grant.body.grantId, emitted.receiptId);
    if store.alive { receipt := Some(emitted); }
  }

  // ----- recovery-service.ts -----

  /** `recoverStep` */
  method RecoverOne(store: LedgerStore, m: Manifest, node: Node) returns (m': Manifest)
    modifies store
    ensures (store.Current(), m') == RecoverStep(store.env, old(store.Current()), m, node)
  {
    m' := m;
    if !store.alive { return; }
    if node.id !in m.steps { store.Die(); return; }
    var step := m.steps[node.id];
    if !Settled(step.state) {
      var receipt := store.TryReadReceipt(step.receiptId);
      if receipt.Some? {
        step := Reconciled(step, receipt.value);
      } else if step.grantId.None? {
        step := step.(state := if ReviewRequired(node.replayClass) then StepState.Quarantined else StepState.Pending);
      } else if step.grantId.value !in store.grants {
        store.Die();
        return;
      } else {
        var record := store.grants[step.grantId.value];
        var grantReceipt := store.TryReadReceipt(record.receiptId);
        if grantReceipt.Some? {
          step := Reconciled(step, grantReceipt.value);
        } else if record.state == Issued {
          var id := record.grant.body.grantId;
          var expired := id in store.grants && store.grants[id].grant.body.expiresAt <= store.env.now(store.tick);
          store.RetireGrant(id, if expired then Expired else Void);
          step := Cleared(step);
        } else if record.state == Consumed && ReviewRequired(node.replayClass) {
          step := step.(state := StepState.Quarantined);
        } else {
          step := Cleared(step);
        }
      }
    }
    m' := m.(steps := m.steps[node.id := step]);
  }

  /** `recoverRun` */
  method RecoverWorkflow(store: LedgerStore)
    modifies store
    ensures store.Current() == RecoverRun(store.env, old(store.Current()))
  {
    var m := store.manifest;
    var nodes := store.graph;
    var i := 0;
    while i < |nodes|
      invariant 0 <= i <= |nodes|
      invariant RecoverSteps(store.env, store.Current(), m, nodes[i..])
             == RecoverSteps(store.env, old(store.Current()), old(store.manifest), old(store.graph))
    {
      m := RecoverOne(store, m, nodes[i]);
      i := i + 1;
    }
    if store.alive {
      m := m.(state := DeriveRunState(m));
      var _ := store.WriteManifest(m);
    }
  }

  // ----- run-service.ts -----

  /**
    `prepareRun`: compile, then write every step as pending.  The policy's hash and the
    classifier's decision are whatever those services say about the compiled graph.
  */
  method PrepareRun(env: Env, source: Normalize.Workflow, policyHash: seq<Node> -> Hash, rejects: seq<Node> -> bool)
    returns (r: Result<LedgerStore>)
    ensures r.Success? <==> Compile.Acceptable(source)
    ensures r.Success? ==>
              && fresh(r.value) && r.value.env == env
              && WellFormed(r.value.graph) && |r.value.graph| == |source.steps|
              && r.value.Current()
                  == Prepared(r.value.graph, policyHash(r.value.graph), rejects(r.value.graph), env.now(0))
  {
    var compiled := Compile.CompileWorkflow(source);
    if compiled.Failure? { return Failure(compiled.error); }
    var graph := compiled.value;
    var store := new LedgerStore(env, graph, policyHash(graph), rejects(graph));
    r := Success(store);
  }

  /** The body of the driving loop: one step, from its approval to its receipt. */
  method RunStep(store: LedgerStore, m: Manifest, node: Node) returns (m': Manifest, returned: bool)
    requires store.alive
    modifies store
    ensures Frame(store.Current(), m', returned) == Dispatch(store.env, Frame(old(store.Current()), m, false), node)
  {
    m', returned := m, false;
    if node.id !in m.steps { store.Die(); return; }
    var approval := Get(store.approvals, node.id);
    if node.cell == Elevated && approval.None? {
      m' := m'.(state := RunState.AwaitingApproval);
      m' := m'.(steps := m'.steps[node.id := m'.steps[node.id].(state := StepState.AwaitingApproval)]);
      m' := store.WriteManifest(m');
      return m', true;
    }
    var grant := MintStepGrant(store, node, if approval.Some? then Some(approval.value.approvalHash) else None);
    var startedAt := store.env.now(store.tick);
    m' := m'.(steps := m'.steps[node.id := m'.steps[node.id].(
                                  state := StepState.Running,
                                  grantId := Some(grant.body.grantId),
                                  startedAt := Some(startedAt))]);
    m' := store.WriteManifest(m');
    var receipt := ExecuteStep(store, node, grant);
    if receipt.None? || receipt.value.stepId !in m'.steps { return; }
    var id := receipt.value.stepId;
    m' := m'.(steps := m'.steps[id := Reconciled(m'.steps[id], receipt.value)]);
    if !receipt.value.ok {
      m' := m'.(state := RunState.Failed);
    }
    m' := store.WriteManifest(m');
    returned := !receipt.value.ok;
  }

  /** `resumeWorkflow`: repair an interrupted run, then dispatch waves until nothing is runnable. */
  method ResumeWorkflow(store: LedgerStore) returns (m: Manifest, returned: bool)
    modifies store
    ensures Frame(store.Current(), m, returned) == Resume(store.env, old(store.Current()))
  {
    returned := false;
    store.Open();
    if store.manifest.state == RunState.Running {
      RecoverWorkflow(store);
    }
    m := store.manifest;
    if !store.alive { return; }
    if m.state == RunState.Quarantined { return; }
    if m.state == RunState.Cancelled || m.state == RunState.Rejected { return m, true; }
    m := m.(state := RunState.Running);
    m := store.WriteManifest(m);
    ghost var entered := Frame(store.Current(), m, false);
    var stopped := !store.alive;
    while !stopped
      invariant stopped <==> !store.alive || returned
      invariant RunLoop(store.env, Frame(store.Current(), m, returned)) == RunLoop(store.env, entered)
      decreases !stopped, |PendingIds(m)|
    {
      if !Tracked(store.graph, m) {
        ghost var f := Frame(store.Current(), m, returned);
        store.Die();
        assert RunLoop(store.env, f) == Frame(store.Current(), m, returned);
        return;
      }
      var batch := NextRunnable(store.graph, m);
      ghost var f := Frame(store.Current(), m, returned);
      if batch == [] {
        if SomeStep(m, StepState.AwaitingApproval) {
          m := m.(state := RunState.AwaitingApproval);
        } else {
          m := m.(state := if AllSucceeded(m) then RunState.Succeeded else RunState.Failed);
        }
        m := store.WriteManifest(m);
        returned := true;
      } else {
        var i := 0;
        while i < |batch| && store.alive && !returned
          invariant 0 <= i <= |batch|
          invariant RunBatch(store.env, Frame(store.Current(), m, returned), batch[i..])
                 == RunBatch(store.env, f, batch)
        {
          m, returned := RunStep(store, m, batch[i]);
          i := i + 1;
        }
        RoundDropsPending(store.env, f);
        if store.alive && !returned {
          StrictSubsetSmaller(PendingIds(m), PendingIds(f.m));
        }
      }
      stopped := !store.alive || returned;
    }
  }

  /** `approveRunStep` */
  method ApproveRunStep(store: LedgerStore, id: StepId, approver: string)
    modifies store
    ensures store.Current() == Approve(store.env, old(store.Current()), id, approver)
  {
    store.Open();
    var node := FindNode(store.graph, id);
    if node.None? || node.value.cell != Elevated { return; }
    var m := store.manifest;
    store.WriteApproval(NewApproval(node.value, store.policyHash, store.env.now(store.tick), approver));
    if !store.alive { return; }
    if id !in m.steps { store.Die(); return; }
    m := m.(steps := m.steps[id := m.steps[id].(state := StepState.Pending)]);
    if m.state == RunState.AwaitingApproval {
      m := m.(state := RunState.Ready);
    }
    var _ := store.WriteManifest(m);
  }

  /** `cancelRun` */
  method CancelRun(store: LedgerStore)
    modifies store
    ensures store.Current() == Cancel(store.env, old(store.Current()))
  {
    store.Open();
    var m := store.manifest;
    if m.state in {RunState.Succeeded, RunState.Failed, RunState.Rejected, RunState.Cancelled} { return; }
    var ids := m.steps.Keys;
    while ids != {}
      invariant ids <= m.steps.Keys && m.steps.Keys == old(store.manifest).steps.Keys
      invariant m == old(store.manifest).(steps := m.steps)
      invariant forall id | id in m.steps ::
                  m.steps[id] == if id in ids then old(store.manifest).steps[id]
                                 else CancelledManifest(old(store.manifest)).steps[id]
      decreases ids
    {
      var id :| id in ids;
      if Cancellable(m.steps[id].state) {
        m := m.(steps := m.steps[id := m.steps[id].(state := StepState.Cancelled)]);
      }
      ids := ids - {id};
    }
    m := m.(state := RunState.Cancelled);
    assert m.steps == CancelledManifest(old(store.manifest)).steps;
    var _ := store.WriteManifest(m);
  }
}
