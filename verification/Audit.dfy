/** What the ledger of a disciplined run proves to someone who reads it, at any moment. */
module Audit {
  import opened Base
  import opened Hashing
  import opened Records
  import opened Protocol
  import opened Invariant
  import opened Reachability
  import opened SingleUse
  import opened WaveOrder

  // ----- write order -----

  ghost predicate GrantHonest(l: Ledger, g: GrantId)
    requires g in l.grants
  {
    l.grants[g].state == Consumed ==>
      && l.grants[g].receiptId.Some? && l.grants[g].receiptId.value in l.receipts
      && var receipt := l.receipts[l.grants[g].receiptId.value];
         receipt.grantId == g && receipt.stepId == l.grants[g].grant.body.stepId
  }

  ghost predicate StepHonest(l: Ledger, id: StepId)
    requires id in l.manifest.steps
  {
    var step := l.manifest.steps[id];
    && step.state != StepState.GrantIssued
    && (step.state == StepState.Running ==>
          && l.manifest.state == RunState.Running
          && step.grantId.Some? && step.grantId.value in l.grants
          && l.grants[step.grantId.value].grant.body.stepId == id)
    && (Terminal(step.state) ==>
          && step.receiptId.Some? && step.receiptId.value in l.receipts
          && l.receipts[step.receiptId.value].stepId == id
          && ReceiptState(l.receipts[step.receiptId.value]) == step.state)
  }

  /** The order of durable writes shows in every state a crash can leave. */
  lemma WriteOrder(env: Env, graph: seq<Node>, w: World)
    requires Clocked(env) && WellFormed(graph) && Reached(env, graph, w)
    ensures forall g | g in w.ledger.grants :: GrantHonest(w.ledger, g)
    ensures forall id | id in w.ledger.manifest.steps :: StepHonest(w.ledger, id)
  {
    ReachedInv(env, graph, w);
    var l := w.ledger;
    forall g | g in l.grants ensures GrantHonest(l, g) {
      assert GrantOk(l, g);
      if l.grants[g].state == Consumed {
        assert ReceiptOk(l, l.manifest.steps, l.grants[g].receiptId.value);
      }
    }
    forall id | id in l.manifest.steps ensures StepHonest(l, id) {
      assert StepOk(l, id, l.manifest.steps[id]);
      if Terminal(l.manifest.steps[id].state) {
        assert ReceiptOk(l, l.manifest.steps, l.manifest.steps[id].receiptId.value);
        assert GrantOk(l, l.manifest.steps[id].grantId.value);
      }
    }
  }

  /** Crashes alone never leave a consumed grant without its receipt, so recovery never needs that branch. */
  lemma NoConsumedWithoutReceipt(env: Env, graph: seq<Node>, w: World, id: StepId)
    requires Clocked(env) && WellFormed(graph) && Reached(env, graph, w)
    requires id in w.ledger.manifest.steps && w.ledger.manifest.steps[id].grantId.Some?
    ensures var l := w.ledger;
            var g := l.manifest.steps[id].grantId.value;
            && g in l.grants
            && (l.grants[g].state == Consumed <==> TryReadReceipt(l, l.grants[g].receiptId).Some?)
  {
    ReachedInv(env, graph, w);
    assert StepOk(w.ledger, id, w.ledger.manifest.steps[id]);
    assert GrantOk(w.ledger, w.ledger.manifest.steps[id].grantId.value);
  }

  // ----- agreement -----

  /** Run state and step states agree in every reachable stored state. */
  lemma StatesAgree(env: Env, graph: seq<Node>, w: World)
    requires Clocked(env) && WellFormed(graph) && Reached(env, graph, w)
    ensures Agreement(w.ledger.manifest)
  {
    ReachedInv(env, graph, w);
  }

  // ----- accounting -----

  lemma {:induction false} FewIds(graph: seq<Node>)
    ensures |Ids(graph)| <= |graph|
  {
    if graph != [] {
      FewIds(graph[1..]);
      assert graph == [graph[0]] + graph[1..];
      assert Ids(graph) == {graph[0].id} + Ids(graph[1..]);
    }
  }

  /** Handlers run at most once per step and once more per crash. */
  lemma ExecutionBound(env: Env, graph: seq<Node>, w: World)
    requires Clocked(env) && WellFormed(graph) && Reached(env, graph, w)
    ensures |w.execs| <= |graph| + w.crashes
  {
    ReachedInv(env, graph, w);
    FewIds(graph);
    SubsetSize(Accounted(w.ledger, w.ledger.manifest.steps), Ids(graph));
  }

  /** Every handler ran for a step stored as running, under its issued grant, after its dependencies succeeded. */
  lemma ExecutionsInOrder(env: Env, graph: seq<Node>, w: World)
    requires Clocked(env) && WellFormed(graph) && Reached(env, graph, w)
    ensures forall i | 0 <= i < |w.execs| :: ExecutionOk(w.execs[i])
  {
    ReachedInv(env, graph, w);
  }

  // ----- the audit theorem -----

  /** A succeeded receipt for exactly this node, under a consumed grant of this run. */
  ghost predicate Vouched(l: Ledger, n: Node) {
    && n.id in l.manifest.steps && l.manifest.steps[n.id].receiptId.Some?
    && var r := l.manifest.steps[n.id].receiptId.value;
       && r in l.receipts
       && var receipt := l.receipts[r];
          && receipt.ok && receipt.stepId == n.id
          && receipt.payloadHash == HashJson(n.payload) && receipt.policyHash == l.policyHash
          && receipt.grantId in l.grants
          && l.grants[receipt.grantId].state == Consumed
          && l.grants[receipt.grantId].receiptId == Some(r)
  }

  ghost predicate EndedBefore(l: Ledger, n: Node, d: StepId)
    requires Vouched(l, n)
  {
    && d in l.manifest.steps && l.manifest.steps[d].receiptId.Some?
    && l.manifest.steps[d].receiptId.value in l.receipts
    && l.receipts[l.manifest.steps[d].receiptId.value].endedAt
       <= l.receipts[l.manifest.steps[n.id].receiptId.value].startedAt
  }

  lemma VouchedFor(env: Env, w: World, n: Node)
    requires Inv(env, w) && n in w.ledger.graph
    requires n.id in w.ledger.manifest.steps && w.ledger.manifest.steps[n.id].state == StepState.Succeeded
    ensures Vouched(w.ledger, n)
    ensures forall d | d in n.dependsOn :: EndedBefore(w.ledger, n, d)
  {
    var l := w.ledger;
    var step := l.manifest.steps[n.id];
    assert StepOk(l, n.id, step);
    assert GrantOk(l, step.grantId.value);
    var r := step.receiptId.value;
    assert ReceiptOk(l, l.manifest.steps, r);
    assert n.payloadHash == HashJson(n.payload);
    assert DepsEnded(l, l.manifest.steps, n, l.receipts[r].startedAt);
    forall d | d in n.dependsOn ensures EndedBefore(l, n, d) {
      assert DepEnded(l, l.manifest.steps, d, l.receipts[r].startedAt);
    }
  }

  /**
    A run stored as succeeded is vouched for: every node has a succeeded receipt for exactly
    its payload and the run's policy, under a consumed grant, and the receipts respect the
    dependencies in time.
  */
  lemma AuditTheorem(env: Env, graph: seq<Node>, w: World)
    requires Clocked(env) && WellFormed(graph) && Reached(env, graph, w)
    requires w.ledger.manifest.state == RunState.Succeeded
    ensures forall n | n in graph :: Vouched(w.ledger, n) && forall d | d in n.dependsOn :: EndedBefore(w.ledger, n, d)
  {
    ReachedInv(env, graph, w);
    forall n | n in graph
      ensures Vouched(w.ledger, n) && forall d | d in n.dependsOn :: EndedBefore(w.ledger, n, d) {
      assert n.id in Ids(graph);
      VouchedFor(env, w, n);
    }
  }

  // ----- receipts and handler calls -----

  lemma ReachedSound(env: Env, graph: seq<Node>, w: World)
    requires Reached(env, graph, w)
    ensures Sound(w, w.ledger.policyHash)
  {
    var policyHash, rejected, at, ops :|
      && LegalRun(env, Prepared(graph, policyHash, rejected, at), ops)
      && w == Run(env, Prepared(graph, policyHash, rejected, at), ops);
    PreparedSound(graph, policyHash, rejected, at);
    RunSound(env, Prepared(graph, policyHash, rejected, at), ops, policyHash);
  }

  /** A succeeded step of a sound ledger has a receipt of its own. */
  lemma SucceededHasReceipt(l: Ledger, id: StepId) returns (r: ReceiptId)
    requires RecordsOk(l, l.manifest.steps) && id in l.manifest.steps
    requires l.manifest.steps[id].state == StepState.Succeeded
    ensures r in l.receipts && l.receipts[r].stepId == id
  {
    var step := l.manifest.steps[id];
    assert StepOk(l, id, step);
    assert GrantOk(l, step.grantId.value);
    r := step.receiptId.value;
    assert ReceiptOk(l, l.manifest.steps, r);
  }

  /** The i-th handler call came after a call for each of its dependencies. */
  ghost predicate AfterDependencies(execs: seq<Execution>, i: nat)
    requires i < |execs|
  {
    forall d {:trigger d in execs[i].node.dependsOn} | d in execs[i].node.dependsOn ::
      exists j {:trigger execs[j]} :: 0 <= j < i && execs[j].node.id == d
  }

  lemma CallsAreOrdered(env: Env, graph: seq<Node>, w: World, i: nat)
    requires Clocked(env) && WellFormed(graph) && Reached(env, graph, w) && i < |w.execs|
    ensures AfterDependencies(w.execs, i)
  {
    ReachedInv(env, graph, w);
    ReachedSound(env, graph, w);
    CallAfterDependencies(w, i);
  }

  lemma CallAfterDependencies(w: World, i: nat)
    requires HistoryOk(w) && PastBacked(w.execs) && i < |w.execs|
    ensures AfterDependencies(w.execs, i)
  {
    var e := w.execs[i];
    assert ExecutionOk(e) && AllBacked(w.execs[..i], e.at);
    forall d | d in e.node.dependsOn ensures exists j {:trigger w.execs[j]} :: 0 <= j < i && w.execs[j].node.id == d {
      var r := SucceededHasReceipt(e.at, d);
      assert Backed(w.execs[..i], e.at.receipts[r]);
      var j :| 0 <= j < i && Reports(e.at.receipts[r], w.execs[..i][j]);
      assert w.execs[j] == w.execs[..i][j];
    }
  }

  /** The i-th handler call was for this node. */
  ghost predicate CalledAt(execs: seq<Execution>, n: Node, i: nat) {
    i < |execs| && execs[i].node == n && AfterDependencies(execs, i)
  }

  lemma SucceededWasCalled(w: World, n: Node)
    requires WellFormed(w.ledger.graph) && RecordsOk(w.ledger, w.ledger.manifest.steps) && HistoryOk(w)
    requires AllBacked(w.execs, w.ledger) && PastBacked(w.execs) && n in w.ledger.graph
    requires n.id in w.ledger.manifest.steps && w.ledger.manifest.steps[n.id].state == StepState.Succeeded
    ensures exists i: nat {:trigger CalledAt(w.execs, n, i)} :: CalledAt(w.execs, n, i)
  {
    var r := SucceededHasReceipt(w.ledger, n.id);
    assert Backed(w.execs, w.ledger.receipts[r]);
    var i :| 0 <= i < |w.execs| && Reports(w.ledger.receipts[r], w.execs[i]);
    assert ExecutionOk(w.execs[i]);
    SameNode(w.ledger.graph, w.execs[i].node, n);
    CallAfterDependencies(w, i);
    assert CalledAt(w.execs, n, i);
  }

  /**
    A run stored as succeeded really ran: a handler was called for every node, after calls
    for all its dependencies, and in all no more often than nodes and crashes account for.
  */
  lemma SucceededRunRan(env: Env, graph: seq<Node>, w: World)
    requires Clocked(env) && WellFormed(graph) && Reached(env, graph, w)
    requires w.ledger.manifest.state == RunState.Succeeded
    ensures forall n | n in graph :: exists i: nat {:trigger CalledAt(w.execs, n, i)} :: CalledAt(w.execs, n, i)
    ensures |graph| <= |w.execs| <= |graph| + w.crashes
  {
    ReachedInv(env, graph, w);
    ReachedSound(env, graph, w);
    forall n | n in graph ensures exists i: nat {:trigger CalledAt(w.execs, n, i)} :: CalledAt(w.execs, n, i) {
      assert n.id in Ids(graph);
      SucceededWasCalled(w, n);
    }
    EachCalled(graph, w.execs);
    ExecutionBound(env, graph, w);
  }

  lemma {:induction false} ManyIds(graph: seq<Node>)
    requires UniqueIds(graph)
    ensures |Ids(graph)| == |graph|
  {
    if graph != [] {
      forall i: nat, j: nat | SameId(graph[1..], i, j) ensures i == j {
        assert SameId(graph, i + 1, j + 1);
      }
      ManyIds(graph[1..]);
      forall n | n in graph[1..] ensures n.id != graph[0].id {
        var k :| 0 <= k < |graph[1..]| && graph[1..][k] == n;
        assert !SameId(graph, 0, k + 1);
      }
      assert graph == [graph[0]] + graph[1..];
      assert Ids(graph) == {graph[0].id} + Ids(graph[1..]);
    }
  }

  function CalledIds(execs: seq<Execution>): set<StepId> {
    set i | 0 <= i < |execs| :: execs[i].node.id
  }

  lemma {:induction false} FewCalledIds(execs: seq<Execution>)
    ensures |CalledIds(execs)| <= |execs|
    decreases |execs|
  {
    if execs != [] {
      var before := execs[..|execs| - 1];
      FewCalledIds(before);
      SubsetSize(CalledIds(execs), CalledIds(before) + {execs[|execs| - 1].node.id});
    }
  }

  lemma EachCalled(graph: seq<Node>, execs: seq<Execution>)
    requires UniqueIds(graph)
    requires forall n | n in graph :: exists i: nat {:trigger CalledAt(execs, n, i)} :: CalledAt(execs, n, i)
    ensures |graph| <= |execs|
  {
    forall id | id in Ids(graph) ensures id in CalledIds(execs) {
      var n :| n in graph && n.id == id;
      var i: nat :| CalledAt(execs, n, i);
    }
    ManyIds(graph);
    FewCalledIds(execs);
    SubsetSize(Ids(graph), CalledIds(execs));
  }

  // ----- no false deadlock -----

  /** Every step of the chain but the last is pending; the last is neither pending nor succeeded. */
  ghost predicate BlockedAlong(m: Manifest, chain: seq<Node>) {
    && chain != []
    && chain[0].id in m.steps
    && if |chain| == 1
       then m.steps[chain[0].id].state !in {StepState.Pending, StepState.Succeeded}
       else m.steps[chain[0].id].state == StepState.Pending && BlockedAlong(m, chain[1..])
  }

  /** When nothing is runnable, a pending step waits on something that really is stuck. */
  lemma {:induction false} BlockingChain(graph: seq<Node>, rank: map<StepId, nat>, m: Manifest, node: Node)
    returns (chain: seq<Node>)
    requires Ranked(graph, rank) && m.steps.Keys == Ids(graph) && node in graph
    requires NextRunnable(graph, m) == []
    requires node.id in m.steps && m.steps[node.id].state != StepState.Succeeded
    ensures Chain(graph, chain) && chain != [] && chain[0] == node && BlockedAlong(m, chain)
    decreases if node.id in rank then rank[node.id] else 0
  {
    if m.steps[node.id].state == StepState.Pending {
      assert !Runnable(m, node);
      var d :| d in node.dependsOn && !(d in m.steps && m.steps[d].state == StepState.Succeeded);
      assert Edge(graph, node, d);
      assert d in Ids(graph);
      var next :| next in graph && next.id == d;
      var rest := BlockingChain(graph, rank, m, next);
      chain := [node] + rest;
      assert chain[1..] == rest;
    } else {
      chain := [node];
    }
  }

  /** So when no step is stuck by itself, quiescence means success. */
  lemma NoFalseDeadlock(graph: seq<Node>, m: Manifest)
    requires WellFormed(graph) && m.steps.Keys == Ids(graph)
    requires NextRunnable(graph, m) == []
    requires forall id | id in m.steps ::
               m.steps[id].state == StepState.Pending || m.steps[id].state == StepState.Succeeded
    ensures AllSucceeded(m)
  {
    var rank :| Ranked(graph, rank);
    forall id | id in m.steps ensures m.steps[id].state == StepState.Succeeded {
      assert id in Ids(graph);
      var node :| node in graph && node.id == id;
      if m.steps[id].state != StepState.Succeeded {
        var chain := BlockingChain(graph, rank, m, node);
        NobodyStuck(m, chain);
      }
    }
  }

  lemma {:induction false} NobodyStuck(m: Manifest, chain: seq<Node>)
    requires forall id | id in m.steps ::
               m.steps[id].state == StepState.Pending || m.steps[id].state == StepState.Succeeded
    ensures !BlockedAlong(m, chain)
    decreases |chain|
  {
    if chain != [] {
      NobodyStuck(m, chain[1..]);
    }
  }
}
