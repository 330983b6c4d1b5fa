/**
  Grants and bridges: packages/runtime/src/control-plane/grant-service.ts,
  packages/runtime/src/bridges/base and packages/elevated/src/bridge.
*/
module Bridge {
  import opened Base
  import opened Json
  import opened Hashing
  import opened Records

  function KeyFor(cell: Cell): Key {
    if cell == Elevated then ElevatedKey else OrdinaryKey
  }

  /** The grant `mintStepGrant` signs, with the tick as its fresh id. */
  function Mint(env: Env, w: World, node: Node, approvalHash: Option<Hash>): StepGrant {
    var body := GrantBody(
                  w.tick, node.id, node.cell, node.bridgeId, node.action, node.payloadHash,
                  w.ledger.policyHash, approvalHash, node.replayClass,
                  env.now(w.tick), env.now(w.tick) + env.ttl, KeyFor(node.cell));
    StepGrant(body, Tag(KeyFor(node.cell), body))
  }

  /** `verifyGrantForRequest`; the request carries the node's own fields. */
  predicate Verified(ledger: Ledger, at: Time, node: Node, grant: StepGrant) {
    && grant.signature == Tag(KeyFor(node.cell), grant.body)
    && !(grant.body.expiresAt <= at)
    && grant.body.bridgeId == node.bridgeId && grant.body.cell == node.cell
    && grant.body.action == node.action
    && grant.body.payloadHash == HashJson(node.payload)
    && grant.body.policyHash == ledger.policyHash
    && grant.body.grantId in ledger.grants
    && ledger.grants[grant.body.grantId].state == Issued
  }

  /** `ensureLocalTransport`: only an explicit `localOnly: false` is refused. */
  predicate LocalTransport(node: Node) {
    FieldOf(node.payload, "localOnly") != Some(Bool(false))
  }

  /** `ensureApprovalForElevatedRequest` on the approval file of the grant's step. */
  predicate ApprovalMatches(ledger: Ledger, grant: GrantBody) {
    && grant.approvalHash.Some?
    && grant.stepId in ledger.approvals
    && var a := ledger.approvals[grant.stepId];
       && a.approvalHash == grant.approvalHash.value
       && a.approvedPayloadHash == grant.payloadHash
       && a.policyHash == grant.policyHash
  }

  /** Every check a bridge makes before it calls the handler. */
  predicate Admitted(ledger: Ledger, at: Time, node: Node, grant: StepGrant) {
    && Verified(ledger, at, node, grant)
    && (node.cell == Elevated ==> LocalTransport(node) && ApprovalMatches(ledger, grant.body))
  }

  /** The handler's effect.  It is recorded even when the handler then throws. */
  function Handle(env: Env, w: World, node: Node, grant: GrantBody): World {
    if !w.alive then w
    else if env.dies(w.tick) then Crash(w)
    else
      var done := w.(execs := w.execs + [Execution(node, grant, w.ledger)]);
      if env.throws(w.tick) then Crash(done) else done.(tick := w.tick + 1)
  }

  function Emit(env: Env, w: World, node: Node, grant: GrantBody, ok: bool, startedAt: Time): Receipt {
    Receipt(w.tick, grant.grantId, grant.stepId, node.bridgeId, grant.payloadHash, grant.policyHash,
            ok, startedAt, env.now(w.tick))
  }

  /**
    `SameProcessBridge.execute` and `ElevatedBridge.execute`: verify, run the handler, write
    the receipt, consume the grant, in that order.  A refused grant throws.
  */
  function Execute(env: Env, w: World, node: Node, grant: StepGrant): (result: (World, Option<Receipt>)) {
    if !w.alive then (w, None)
    else if !Admitted(w.ledger, env.now(w.tick), node, grant) then (Crash(w), None)
    else
      var handled := Handle(env, w, node, grant.body);
      var receipt := Emit(env, handled, node, grant.body, env.ok(w.tick, node.id), env.now(w.tick));
      var written := WriteReceipt(env, handled, receipt);
      var consumed := ConsumeGrant(env, written, grant.body.grantId, receipt.receiptId);
      (consumed, if consumed.alive then Some(receipt) else None)
  }
}
