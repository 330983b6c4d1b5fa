/**
  What one dispatch asks of a grant and what it writes, field by field: the checks of both
  bridges, and the grant, receipt and step that an undisturbed dispatch leaves.
*/
module Dispatches {
  import opened Base
  import opened Json
  import opened Hashing
  import opened Records
  import opened Bridge
  import opened Protocol
  import opened Approvals
  import opened Completion

  // ----- what a bridge asks -----

  function SigningKey(node: Node): Key {
    if node.cell == Elevated then ElevatedKey else OrdinaryKey
  }

  /** The grant is unaltered, unexpired, made for this request, and unused on file. */
  ghost predicate GoodGrant(l: Ledger, at: Time, node: Node, grant: StepGrant) {
    var body := grant.body;
    && grant.signature.key == SigningKey(node) && grant.signature.body == body
    && at < body.expiresAt
    && body.bridgeId == node.bridgeId && body.cell == node.cell && body.action == node.action
    && body.payloadHash == HashJson(node.payload) && body.policyHash == l.policyHash
    && body.grantId in l.grants && l.grants[body.grantId].state == Issued
  }

  /** The approval on file for the grant's step is the one the grant was signed for, for this payload and policy. */
  ghost predicate GoodApproval(l: Ledger, node: Node, body: GrantBody) {
    && FieldOf(node.payload, "localOnly") != Some(Bool(false))
    && body.stepId in l.approvals
    && body.approvalHash == Some(l.approvals[body.stepId].approvalHash)
    && l.approvals[body.stepId].approvedPayloadHash == body.payloadHash
    && l.approvals[body.stepId].policyHash == body.policyHash
  }

  /** A bridge calls its handler exactly when the grant is good, and for an elevated step the approval too. */
  lemma BridgeCallsExactly(env: Env, w: World, node: Node, grant: StepGrant)
    requires w.alive && !env.dies(w.tick)
    ensures var w' := Execute(env, w, node, grant).0;
            if GoodGrant(w.ledger, env.now(w.tick), node, grant)
               && (node.cell == Elevated ==> GoodApproval(w.ledger, node, grant.body))
            then w'.execs == w.execs + [Execution(node, grant.body, w.ledger)]
            else w'.execs == w.execs && w'.ledger == w.ledger && !w'.alive
  {
    if !Admitted(w.ledger, env.now(w.tick), node, grant) {
      RefusedStops(env, w, node, grant);
    } else {
      AdmittedCalls(env, w, node, grant);
    }
  }

  lemma RefusedStops(env: Env, w: World, node: Node, grant: StepGrant)
    requires w.alive && !Admitted(w.ledger, env.now(w.tick), node, grant)
    ensures var w' := Execute(env, w, node, grant).0;
            w'.execs == w.execs && w'.ledger == w.ledger && !w'.alive
  {
  }

  lemma AdmittedCalls(env: Env, w: World, node: Node, grant: StepGrant)
    requires w.alive && !env.dies(w.tick) && Admitted(w.ledger, env.now(w.tick), node, grant)
    ensures Execute(env, w, node, grant).0.execs == w.execs + [Execution(node, grant.body, w.ledger)]
  {
  }

  /** So a grant that was used, retired or lost calls no handler and writes no file, in any world. */
  lemma SpentGrantRefused(env: Env, w: World, node: Node, grant: StepGrant)
    requires var g := grant.body.grantId; g in w.ledger.grants ==> w.ledger.grants[g].state != Issued
    ensures var (w', receipt) := Execute(env, w, node, grant);
            w'.execs == w.execs && w'.ledger == w.ledger && receipt.None?
  {
  }

  /** And so does a grant changed after signing, or signed with the other cells' key. */
  lemma AlteredGrantRefused(env: Env, w: World, node: Node, grant: StepGrant)
    requires grant.signature.body != grant.body || grant.signature.key != SigningKey(node)
    ensures var (w', receipt) := Execute(env, w, node, grant);
            w'.execs == w.execs && w'.ledger == w.ledger && receipt.None?
  {
  }

  // ----- what a dispatch writes -----

  /** The grant minted at tick t for this node. */
  ghost predicate MintedAt(env: Env, l: Ledger, node: Node, t: nat, grant: StepGrant) {
    && grant.body == GrantBody(
         t, node.id, node.cell, node.bridgeId, node.action, node.payloadHash, l.policyHash,
         if node.id in l.approvals then Some(l.approvals[node.id].approvalHash) else None,
         node.replayClass, env.now(t), env.now(t) + env.ttl, SigningKey(node))
    && grant.signature == Tag(SigningKey(node), grant.body)
  }

  /** The files after an undisturbed dispatch that began at tick t: the grant, its receipt, and the step. */
  ghost predicate Wrote(env: Env, l: Ledger, m: Manifest, node: Node, t: nat, l': Ledger)
    requires node.id in m.steps
  {
    var ok := env.ok(t + 2, node.id);
    && t in l'.grants && t + 3 in l'.receipts
    && l' == l.(manifest := l'.manifest, grants := l.grants[t := l'.grants[t]],
                receipts := l.receipts[t + 3 := l'.receipts[t + 3]])
    && MintedAt(env, l, node, t, l'.grants[t].grant)
    && l'.grants[t].state == Consumed && l'.grants[t].consumedAt == Some(env.now(t + 4))
    && l'.grants[t].receiptId == Some(t + 3)
    && l'.receipts[t + 3] == Receipt(t + 3, t, node.id, node.bridgeId, node.payloadHash, l.policyHash,
                                     ok, env.now(t + 2), env.now(t + 3))
    && l'.manifest.state == (if ok then m.state else RunState.Failed) && l'.manifest.updatedAt == env.now(t + 5)
    && l'.manifest.steps == m.steps[node.id := StepManifest(
         if ok then StepState.Succeeded else StepState.Failed, Some(t), Some(t + 3),
         Some(env.now(t + 1)), Some(env.now(t + 3)))]
  }

  /** The files after a dispatch that stopped for an approval. */
  ghost predicate Waits(env: Env, l: Ledger, m: Manifest, node: Node, t: nat, l': Ledger)
    requires node.id in m.steps
  {
    && l' == l.(manifest := l'.manifest)
    && l'.manifest.state == RunState.AwaitingApproval && l'.manifest.updatedAt == env.now(t)
    && l'.manifest.steps == m.steps[node.id := m.steps[node.id].(state := StepState.AwaitingApproval)]
  }

  lemma DispatchWrites(env: Env, f: Frame, node: Node)
    requires BenignFrom(env, f.w.tick) && !f.Stopped()
    requires node.id in f.m.steps && NodeFits(f.w.ledger, node)
    ensures var g := Dispatch(env, f, node);
            && g.w.alive && g.m == g.w.ledger.manifest
            && if node.cell == Elevated && node.id !in f.w.ledger.approvals
               then g.returned && Waits(env, f.w.ledger, f.m, node, f.w.tick, g.w.ledger)
               else g.returned == !env.ok(f.w.tick + 2, node.id)
                    && Wrote(env, f.w.ledger, f.m, node, f.w.tick, g.w.ledger)
  {
    if node.cell == Elevated && node.id !in f.w.ledger.approvals {
      assert Dispatch(env, f, node) == Persist(env, f.w, Paused(f.m, node.id), true);
    } else {
      var grant := Mint(env, f.w, node, GrantApproval(f.w.ledger, node));
      var issued := WriteGrant(env, f.w, GrantRecord(grant, Issued, None, None));
      var running := Persist(env, issued, Started(f.m, node.id, grant.body.grantId, env.now(issued.tick)), false);
      assert running.w.tick == f.w.tick + 2 && Prompt(env, f.w.tick);
      FittingIsAdmitted(env, f.w, node, running.w.ledger, env.now(running.w.tick));
      ExecuteWrites(env, running.w, node, grant);
      var (executed, receipt) := Execute(env, running.w, node, grant);
      assert Dispatch(env, f, node) == Settle(env, running, executed, receipt);
      SettleWrites(env, f, running, node, grant, executed, receipt);
    }
  }

  /** The bridge's two writes. */
  ghost predicate Executed(env: Env, w: World, node: Node, grant: StepGrant, w': World, receipt: Option<Receipt>) {
    && w'.alive && w'.tick == w.tick + 3
    && receipt == Some(Receipt(w.tick + 1, grant.body.grantId, grant.body.stepId, node.bridgeId,
                               grant.body.payloadHash, grant.body.policyHash,
                               env.ok(w.tick, node.id), env.now(w.tick), env.now(w.tick + 1)))
    && w'.ledger == w.ledger.(
         receipts := w.ledger.receipts[w.tick + 1 := receipt.value],
         grants := w.ledger.grants[grant.body.grantId := GrantRecord(grant, Consumed, Some(env.now(w.tick + 2)),
                                                                     Some(w.tick + 1))])
  }

  lemma ExecuteWrites(env: Env, w: World, node: Node, grant: StepGrant)
    requires BenignFrom(env, w.tick) && w.alive && Admitted(w.ledger, env.now(w.tick), node, grant)
    requires w.ledger.grants[grant.body.grantId] == GrantRecord(grant, Issued, None, None)
    ensures var (w', receipt) := Execute(env, w, node, grant); Executed(env, w, node, grant, w', receipt)
  {
  }

  lemma SettleWrites(env: Env, f: Frame, running: Frame, node: Node, grant: StepGrant, executed: World,
                     receipt: Option<Receipt>)
    requires node.id in f.m.steps && !env.dies(f.w.tick + 5)
    requires MintedAt(env, f.w.ledger, node, f.w.tick, grant)
    requires running.w.tick == f.w.tick + 2
    requires running.m.state == f.m.state
    requires running.m.steps == f.m.steps[node.id := f.m.steps[node.id].(
                                            state := StepState.Running, grantId := Some(f.w.tick),
                                            startedAt := Some(env.now(f.w.tick + 1)))]
    requires running.w.ledger == f.w.ledger.(manifest := running.w.ledger.manifest,
               grants := f.w.ledger.grants[f.w.tick := GrantRecord(grant, Issued, None, None)])
    requires Executed(env, running.w, node, grant, executed, receipt)
    ensures var g := Settle(env, running, executed, receipt);
            && g.w.alive && g.m == g.w.ledger.manifest && g.returned == !env.ok(f.w.tick + 2, node.id)
            && Wrote(env, f.w.ledger, f.m, node, f.w.tick, g.w.ledger)
  {
    SettleCompletes(env, running, executed, receipt);
  }
}
