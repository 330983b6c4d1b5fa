/**
  Approvals on file: a ledger reached by disciplined operations only holds approvals for the
  payloads of its graph and for the run's policy.
*/
module Approvals {
  import opened Base
  import opened Hashing
  import opened Records
  import opened Bridge
  import opened Recovery
  import opened Protocol
  import opened Invariant
  import opened Reachability

  /** The approval on file, if any, is for the node's payload under the run's policy. */
  ghost predicate ApprovalFits(l: Ledger, node: Node) {
    node.id in l.approvals ==>
      && l.approvals[node.id].approvedPayloadHash == node.payloadHash
      && l.approvals[node.id].policyHash == l.policyHash
  }

  /** A compiled node that has not been edited and does not ask for remote transport. */
  ghost predicate NodeFits(l: Ledger, node: Node) {
    && node.payloadHash == HashJson(node.payload)
    && (node.cell == Elevated ==> LocalTransport(node))
    && ApprovalFits(l, node)
  }

  ghost predicate SameBasis(l: Ledger, l': Ledger) {
    l'.graph == l.graph && l'.policyHash == l.policyHash && l'.approvals == l.approvals
  }

  ghost predicate AllFit(l: Ledger) {
    forall n {:trigger NodeFits(l, n)} | n in l.graph :: NodeFits(l, n)
  }

  ghost predicate ApprovalsFit(l: Ledger) {
    forall n {:trigger ApprovalFits(l, n)} | n in l.graph :: ApprovalFits(l, n)
  }

  /** No elevated payload asks for remote transport. */
  ghost predicate AllLocal(graph: seq<Node>) {
    forall n {:trigger LocalTransport(n)} | n in graph && n.cell == Elevated :: LocalTransport(n)
  }

  // ----- only an approval changes the approvals -----

  /** The same graph, policy and approvals, a history that only grew, and no crash survived. */
  ghost predicate Onward(w: World, w': World) {
    && SameBasis(w.ledger, w'.ledger) && w.execs <= w'.execs && w.tick <= w'.tick
    && (w'.alive ==> w.alive && w'.crashes == w.crashes)
  }

  lemma GrantedBasis(env: Env, issued: World, m: Manifest, node: Node, grant: StepGrant, at: Time)
    requires node.id in m.steps
    ensures Onward(issued, Granted(env, issued, m, node, grant, at).w)
  {
    var running := Persist(env, issued, Started(m, node.id, grant.body.grantId, at), false);
    ExecuteBasis(env, running.w, node, grant);
  }

  lemma ExecuteBasis(env: Env, w: World, node: Node, grant: StepGrant)
    ensures Onward(w, Execute(env, w, node, grant).0)
  {
  }

  lemma DispatchBasis(env: Env, f: Frame, node: Node)
    ensures Onward(f.w, Dispatch(env, f, node).w)
  {
    if !f.Stopped() && node.id in f.m.steps {
      var approval := Get(f.w.ledger.approvals, node.id);
      var grant := Mint(env, f.w, node, if approval.Some? then Some(approval.value.approvalHash) else None);
      var issued := WriteGrant(env, f.w, GrantRecord(grant, Issued, None, None));
      GrantedBasis(env, issued, f.m, node, grant, env.now(issued.tick));
    }
  }

  lemma {:induction false} BatchBasis(env: Env, f: Frame, batch: seq<Node>)
    ensures Onward(f.w, RunBatch(env, f, batch).w)
    decreases |batch|
  {
    if batch != [] && !f.Stopped() {
      DispatchBasis(env, f, batch[0]);
      BatchBasis(env, Dispatch(env, f, batch[0]), batch[1..]);
    }
  }

  lemma {:induction false} LoopBasis(env: Env, f: Frame)
    ensures Onward(f.w, RunLoop(env, f).w)
    decreases if f.Stopped() then 0 else 1, |PendingIds(f.m)|
  {
    if !f.Stopped() && Tracked(f.w.ledger.graph, f.m) {
      var batch := NextRunnable(f.w.ledger.graph, f.m);
      if batch != [] {
        BatchBasis(env, f, batch);
        var g := RunBatch(env, f, batch);
        if !g.Stopped() {
          RoundDropsPending(env, f);
          StrictSubsetSmaller(PendingIds(g.m), PendingIds(f.m));
          LoopBasis(env, g);
        }
      }
    }
  }

  lemma {:induction false} RecoverStepsBasis(env: Env, w: World, m: Manifest, nodes: seq<Node>)
    ensures var w' := RecoverSteps(env, w, m, nodes).0;
            w'.ledger == w.ledger.(grants := w'.ledger.grants) && w'.execs == w.execs && Onward(w, w')
    decreases |nodes|
  {
    if nodes != [] {
      var (w1, m1) := RecoverStep(env, w, m, nodes[0]);
      RecoverStepsBasis(env, w1, m1, nodes[1..]);
    }
  }

  lemma RecoverBasis(env: Env, w: World)
    ensures Onward(w, RecoverRun(env, w)) && RecoverRun(env, w).execs == w.execs
  {
    RecoverStepsBasis(env, w, w.ledger.manifest, w.ledger.graph);
  }

  lemma ResumeBasis(env: Env, w: World)
    ensures Onward(Begin(w), Resume(env, w).w)
  {
    RecoverBasis(env, Begin(w));
    var repaired := Repaired(env, w);
    if repaired.alive && !Refuses(repaired.ledger.manifest.state) {
      var m := repaired.ledger.manifest.(state := RunState.Running);
      LoopBasis(env, Persist(env, repaired, m, false));
    }
  }

  // ----- approvals are made for the graph's own payloads -----

  lemma {:induction false} FindNodeFinds(graph: seq<Node>, id: StepId)
    ensures FindNode(graph, id).Some? <==> id in Ids(graph)
    ensures FindNode(graph, id).Some? ==> FindNode(graph, id).value in graph && FindNode(graph, id).value.id == id
  {
    if graph != [] && graph[0].id != id {
      FindNodeFinds(graph[1..], id);
      assert graph == [graph[0]] + graph[1..];
    }
  }

  lemma FoundIs(graph: seq<Node>, n: Node)
    requires UniqueIds(graph) && n in graph
    ensures FindNode(graph, n.id) == Some(n)
  {
    FindNodeFinds(graph, n.id);
    assert n.id in Ids(graph);
    SameNode(graph, FindNode(graph, n.id).value, n);
  }

  lemma ApproveFits(env: Env, w: World, id: StepId, approver: string)
    requires UniqueIds(w.ledger.graph) && ApprovalsFit(w.ledger)
    ensures ApprovalsFit(Approve(env, w, id, approver).ledger)
  {
    FindNodeFinds(w.ledger.graph, id);
    var found := FindNode(w.ledger.graph, id);
    var l := Approve(env, w, id, approver).ledger;
    ApproveChanges(env, w, id, approver);
    if SameBasis(w.ledger, l) {
      FitsCarries(w.ledger, l);
    } else {
      RecordedFits(w.ledger, l, found.value, NewApproval(found.value, l.policyHash, env.now(w.tick), approver));
    }
  }

  /** An approval leaves the approvals alone, or files one new binding for the step. */
  lemma ApproveChanges(env: Env, w: World, id: StepId, approver: string)
    ensures var l, l' := w.ledger, Approve(env, w, id, approver).ledger;
            var found := FindNode(l.graph, id);
            && l'.graph == l.graph && l'.policyHash == l.policyHash
            && (|| l'.approvals == l.approvals
                || (&& found.Some?
                    && var approval := NewApproval(found.value, l.policyHash, env.now(w.tick), approver);
                       l'.approvals == l.approvals[found.value.id := approval]))
  {
  }

  lemma RecordedFits(l: Ledger, l': Ledger, node: Node, approval: Approval)
    requires UniqueIds(l.graph) && ApprovalsFit(l) && node in l.graph
    requires l'.graph == l.graph && l'.policyHash == l.policyHash
    requires l'.approvals == l.approvals[node.id := approval]
    requires approval.approvedPayloadHash == node.payloadHash && approval.policyHash == l.policyHash
    ensures ApprovalsFit(l')
  {
    forall n | n in l'.graph ensures ApprovalFits(l', n) {
      assert ApprovalFits(l, n);
      if n.id == node.id { SameNode(l.graph, n, node); }
    }
  }

  lemma FitsCarries(l: Ledger, l': Ledger)
    requires ApprovalsFit(l) && SameBasis(l, l')
    ensures ApprovalsFit(l')
  {
    forall n | n in l'.graph ensures ApprovalFits(l', n) {
      assert ApprovalFits(l, n);
    }
  }

  lemma ApplyFits(env: Env, w: World, op: Op)
    requires UniqueIds(w.ledger.graph) && ApprovalsFit(w.ledger) && Legal(w, op)
    ensures ApprovalsFit(Apply(env, w, op).ledger)
  {
    match op
    case ResumeOp => ResumeBasis(env, w); FitsCarries(w.ledger, Apply(env, w, op).ledger);
    case RecoverOp => RecoverBasis(env, Begin(w)); FitsCarries(w.ledger, Apply(env, w, op).ledger);
    case CancelOp => FitsCarries(w.ledger, Apply(env, w, op).ledger);
    case ApproveOp(id, approver) => ApproveFits(env, w, id, approver);
  }

  lemma {:induction false} RunFits(env: Env, w: World, ops: seq<Op>)
    requires Clocked(env) && Inv(env, w) && ApprovalsFit(w.ledger) && LegalRun(env, w, ops)
    ensures ApprovalsFit(Run(env, w, ops).ledger)
    decreases |ops|
  {
    if ops != [] {
      ApplyKeeps(env, w, ops[0]);
      ApplyFits(env, w, ops[0]);
      RunFits(env, Apply(env, w, ops[0]), ops[1..]);
    }
  }

  /** Every approval a disciplined run has on file is for the step's payload and the run's policy. */
  lemma ReachedFits(env: Env, graph: seq<Node>, w: World)
    requires Clocked(env) && WellFormed(graph) && Reached(env, graph, w)
    ensures w.ledger.graph == graph && ApprovalsFit(w.ledger)
    ensures AllLocal(graph) ==> AllFit(w.ledger)
  {
    ReachedInv(env, graph, w);
    var policyHash, rejected, at, ops :|
      && LegalRun(env, Prepared(graph, policyHash, rejected, at), ops)
      && w == Run(env, Prepared(graph, policyHash, rejected, at), ops);
    PreparedKeeps(env, graph, policyHash, rejected, at);
    RunFits(env, Prepared(graph, policyHash, rejected, at), ops);
    forall n | n in graph && AllLocal(graph) ensures NodeFits(w.ledger, n) {
      assert ApprovalFits(w.ledger, n);
    }
  }

  lemma ReachableFits(graph: seq<Node>, w: World)
    requires WellFormed(graph) && Reachable(graph, w) && AllLocal(graph)
    ensures w.ledger.graph == graph && AllFit(w.ledger)
  {
    var env :| Clocked(env) && Reached(env, graph, w);
    ReachedFits(env, graph, w);
  }
}
