/**
  The approval hash that is signed into a grant identifies one approval: no two different
  bindings share it, in one run or in two (packages/runtime/src/control-plane/approval-service.ts).
*/
module ApprovalBinding {
  import opened Base
  import opened Json
  import opened Hashing
  import opened Records
  import opened Protocol
  import opened Approvals
  import opened SingleUse

  /** What the hash covers. */
  function Covered(a: Approval): Json {
    Obj([("stepId", Str(a.stepId)), ("approvedPayloadHash", Str(a.approvedPayloadHash.text)),
         ("policyHash", Str(a.policyHash.text)), ("approvedAt", Str(IsoText(a.approvedAt))),
         ("approvedBy", Str(a.approvedBy)), ("approvalMode", Str("step-time"))])
  }

  ghost predicate SelfHashed(a: Approval) {
    a.approvalHash == HashJson(Covered(a))
  }

  lemma {:induction false} TimesDiffer(t: Time, u: Time)
    requires IsoText(t) == IsoText(u)
    ensures t == u
    decreases t
  {
    var a, b := IsoText(t), IsoText(u);
    assert a[|a| - 1] == "0123456789"[t % 10] && b[|b| - 1] == "0123456789"[u % 10];
    SameDigit(t % 10, u % 10);
    assert a[..|a| - 1] == if t < 10 then "" else IsoText(t / 10);
    assert b[..|b| - 1] == if u < 10 then "" else IsoText(u / 10);
    if t >= 10 && u >= 10 { TimesDiffer(t / 10, u / 10); }
  }

  lemma SameDigit(d: nat, e: nat)
    requires d < 10 && e < 10 && "0123456789"[d] == "0123456789"[e]
    ensures d == e
  {
  }

  lemma CoveredIsJson(a: Approval)
    ensures Wf(Covered(a))
  {
  }

  /** The covered value determines the approval, up to its hash. */
  lemma CoveredDetermines(a: Approval, b: Approval)
    requires Equivalent(Covered(a), Covered(b))
    ensures a.stepId == b.stepId && a.approvedPayloadHash == b.approvedPayloadHash && a.policyHash == b.policyHash
    ensures a.approvedAt == b.approvedAt && a.approvedBy == b.approvedBy
  {
    var f, g := Covered(a).fields, Covered(b).fields;
    forall i | 0 <= i < 6 ensures Equivalent(f[i].1, g[i].1) {
      assert f[i].0 == g[i].0;
    }
    assert f[0].1 == g[0].1 && f[1].1 == g[1].1 && f[2].1 == g[2].1 && f[3].1 == g[3].1 && f[4].1 == g[4].1;
    TimesDiffer(a.approvedAt, b.approvedAt);
  }

  /** Two approvals that carry their own hash and share it are one and the same. */
  lemma HashIdentifies(a: Approval, b: Approval)
    requires SelfHashed(a) && SelfHashed(b) && a.approvalHash == b.approvalHash
    ensures a == b
  {
    CoveredIsJson(a);
    CoveredIsJson(b);
    CanonicalTextIffEquivalent(Covered(a), Covered(b));
    CoveredDetermines(a, b);
  }

  // ----- over every run -----

  ghost predicate AllSelfHashed(l: Ledger) {
    forall id {:trigger l.approvals[id]} | id in l.approvals ::
      l.approvals[id].stepId == id && SelfHashed(l.approvals[id])
  }

  lemma ApplyHashes(env: Env, w: World, op: Op)
    requires AllSelfHashed(w.ledger)
    ensures AllSelfHashed(Apply(env, w, op).ledger)
  {
    match op
    case ResumeOp => ResumeBasis(env, w);
    case RecoverOp => RecoverBasis(env, Begin(w));
    case CancelOp =>
    case ApproveOp(id, approver) => ApproveHashes(env, w, id, approver);
    case EditGraph(_) =>
    case LoseReceipt(_) =>
  }

  lemma ApproveHashes(env: Env, w: World, id: StepId, approver: string)
    requires AllSelfHashed(w.ledger)
    ensures AllSelfHashed(Approve(env, w, id, approver).ledger)
  {
    ApproveChanges(env, w, id, approver);
    var found := FindNode(w.ledger.graph, id);
    if found.Some? {
      assert SelfHashed(NewApproval(found.value, w.ledger.policyHash, env.now(w.tick), approver));
    }
  }

  lemma {:induction false} RunHashes(env: Env, w: World, ops: seq<Op>)
    requires AllSelfHashed(w.ledger)
    ensures AllSelfHashed(Run(env, w, ops).ledger)
    decreases |ops|
  {
    if ops != [] {
      ApplyHashes(env, w, ops[0]);
      RunHashes(env, Apply(env, w, ops[0]), ops[1..]);
    }
  }

  /** The ledger of any run of any graph, with edits, losses and approvals at any time. */
  ghost predicate LedgerOfRun(l: Ledger) {
    exists env, graph, policyHash, rejected, at, ops
      {:trigger Run(env, Prepared(graph, policyHash, rejected, at), ops)} ::
      l == Run(env, Prepared(graph, policyHash, rejected, at), ops).ledger
  }

  /**
    In any two runs, two approvals on file with the same hash agree in step, approved payload,
    policy, time and approver.
  */
  lemma ApprovalHashBinds(l: Ledger, l': Ledger, id: StepId, id': StepId)
    requires LedgerOfRun(l) && LedgerOfRun(l') && id in l.approvals && id' in l'.approvals
    requires l.approvals[id].approvalHash == l'.approvals[id'].approvalHash
    ensures l.approvals[id] == l'.approvals[id']
  {
    LedgerHashes(l);
    LedgerHashes(l');
    HashIdentifies(l.approvals[id], l'.approvals[id']);
  }

  lemma LedgerHashes(l: Ledger)
    requires LedgerOfRun(l)
    ensures AllSelfHashed(l)
  {
    var env, graph, policyHash, rejected, at, ops :|
      l == Run(env, Prepared(graph, policyHash, rejected, at), ops).ledger;
    RunHashes(env, Prepared(graph, policyHash, rejected, at), ops);
  }

  /**
    So the hash in the grant of an elevated handler call names the one approval that was then
    on file: any self-hashed approval that carries it is for this step, payload and policy.
  */
  lemma GrantNamesOneApproval(e: Execution, policyHash: Hash, a: Approval)
    requires Authorised(e, policyHash) && e.node.cell == Elevated && AllSelfHashed(e.at)
    requires SelfHashed(a) && e.grant.approvalHash == Some(a.approvalHash)
    ensures a == e.at.approvals[e.node.id] && a.stepId == e.node.id
    ensures a.approvedPayloadHash == HashJson(e.node.payload) && a.policyHash == policyHash
  {
    HashIdentifies(a, e.at.approvals[e.node.id]);
  }
}
