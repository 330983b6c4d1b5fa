/**
  What goes wrong without disciplined approval, and exactly when: `approveRunStep` makes any
  elevated step pending, whatever its state.
*/
module Discipline {
  import opened Hashing
  import opened Records
  import opened Protocol
  import opened Invariant
  import opened Reachability
  import opened Approvals
  import opened Completion
  import opened WaveOrder
  import opened Interrupted
  import opened Accounting

  ghost predicate AnotherStep(m: Manifest, id: StepId, state: StepState) {
    exists k {:trigger m.steps[k]} :: k in m.steps && k != id && m.steps[k].state == state
  }

  /** The approval does not make the stored run state a lie. */
  ghost predicate SafeToApprove(m: Manifest, id: StepId) {
    && m.state != RunState.Succeeded
    && (m.state == RunState.Failed ==> AnotherStep(m, id, StepState.Failed))
    && (m.state == RunState.Quarantined ==> AnotherStep(m, id, StepState.Quarantined))
  }

  /**
    Approving a step keeps run state and step states in agreement exactly when the run has
    not succeeded and its verdict does not rest on that step alone.
  */
  lemma ApproveAgreesExactly(m: Manifest, id: StepId)
    requires Agreement(m) && id in m.steps
    ensures Agreement(Reopened(m, id)) <==> SafeToApprove(m, id)
  {
    var m' := Reopened(m, id);
    assert m'.steps[id].state == StepState.Pending;
    assert forall k {:trigger m'.steps[k]} | k in m.steps && k != id :: m'.steps[k] == m.steps[k];
    forall st | st != StepState.Pending ensures SomeStep(m', st) <==> AnotherStep(m, id, st) {
      if SomeStep(m', st) {
        var k :| k in m'.steps && m'.steps[k].state == st;
        assert m.steps[k].state == st;
      }
      if AnotherStep(m, id, st) {
        var k :| k in m.steps && k != id && m.steps[k].state == st;
        assert m'.steps[k].state == st;
      }
    }
    assert !AllSucceeded(m');
  }

  // ----- approving a finished step makes it run again -----

  /** A succeeded run that nothing disturbs. */
  ghost predicate Done(env: Env, w: World) {
    && Favourable(env, w) && WellFormed(w.ledger.graph)
    && w.ledger.manifest.steps.Keys == Ids(w.ledger.graph)
    && w.ledger.manifest.state == RunState.Succeeded && AllSucceeded(w.ledger.manifest)
  }

  ghost predicate OnlyPending(graph: seq<Node>, m: Manifest, n: Node) {
    && m.steps.Keys == Ids(graph) && n in graph
    && forall id {:trigger m.steps[id]} | id in m.steps ::
         m.steps[id].state == if id == n.id then StepState.Pending else StepState.Succeeded
  }

  lemma ApproveReopens(env: Env, w: World, n: Node, approver: string)
    requires Done(env, w) && n in w.ledger.graph && n.cell == Elevated
    ensures var w' := Approve(env, w, n.id, approver);
            && Favourable(env, w') && w'.execs == w.execs && w'.crashes == w.crashes
            && w'.ledger.graph == w.ledger.graph
            && OnlyPending(w'.ledger.graph, w'.ledger.manifest, n)
            && w'.ledger.manifest.state == RunState.Succeeded
  {
    FoundIs(w.ledger.graph, n);
    assert n.id in Ids(w.ledger.graph);
    var approval := NewApproval(n, w.ledger.policyHash, env.now(w.tick), approver);
    ApprovalStays(env, w, n, Approve(env, w, n.id, approver), approval);
  }

  lemma ApprovalStays(env: Env, w: World, n: Node, w': World, approval: Approval)
    requires Favourable(env, w) && UniqueIds(w.ledger.graph) && n in w.ledger.graph
    requires w'.ledger.graph == w.ledger.graph && w'.ledger.policyHash == w.ledger.policyHash
    requires w'.ledger.approvals == w.ledger.approvals[n.id := approval]
    requires approval.approvedPayloadHash == n.payloadHash && approval.policyHash == w.ledger.policyHash
    requires w'.alive && w.tick <= w'.tick
    ensures Favourable(env, w')
  {
    forall k | k in w'.ledger.graph ensures NodeFits(w'.ledger, k) {
      assert NodeFits(w.ledger, k);
      if k.id == n.id { SameNode(w.ledger.graph, k, n); }
    }
    forall k | k in w'.ledger.graph && k.cell == Elevated ensures k.id in w'.ledger.approvals {
      assert k.id in w.ledger.approvals;
    }
  }

  /** With one step pending and the rest succeeded, the next batch is that step. */
  lemma OnlyRunnable(graph: seq<Node>, m: Manifest, n: Node)
    requires WellFormed(graph) && m.steps.Keys == Ids(graph) && n in graph
    requires forall id | id in m.steps ::
               m.steps[id].state == if id == n.id then StepState.Pending else StepState.Succeeded
    ensures NextRunnable(graph, m) == [n] && Tracked(graph, m)
  {
    forall k | k in graph ensures k.id in m.steps {
      assert k.id in Ids(graph);
    }
    var rank :| Ranked(graph, rank);
    assert Runnable(m, n) by {
      forall d | d in n.dependsOn ensures d in m.steps && m.steps[d].state == StepState.Succeeded {
        assert Edge(graph, n, d);
      }
    }
    var batch := NextRunnable(graph, m);
    NextIsDistinct(graph, m);
    forall i | 0 <= i < |batch| ensures batch[i] == n {
      assert batch[i] in batch;
      SameNode(graph, batch[i], n);
    }
    assert n in batch;
    assert !(|batch| > 1 && batch[0].id == batch[1].id);
  }

  lemma OneStepLoop(env: Env, f: Frame, n: Node)
    requires Favourable(env, f.w) && !f.returned && WellFormed(f.w.ledger.graph)
    requires OnlyPending(f.w.ledger.graph, f.m, n)
    ensures var w := RunLoop(env, f).w;
            Done(env, w) && Nodes(w.execs) == Nodes(f.w.execs) + [n] && w.ledger.graph == f.w.ledger.graph
  {
    OnlyRunnable(f.w.ledger.graph, f.m, n);
    BatchRuns(env, f, [n]);
    OneRound(env, f);
    var g := RunBatch(env, f, [n]);
    AllDone(f.m, g.m, n);
    LoopDone(env, g);
  }

  /** With every step succeeded the loop writes the verdict and stops. */
  lemma LoopDone(env: Env, f: Frame)
    requires Favourable(env, f.w) && !f.returned && AllSucceeded(f.m)
    requires WellFormed(f.w.ledger.graph) && f.m.steps.Keys == Ids(f.w.ledger.graph)
    ensures var w := RunLoop(env, f).w;
            Done(env, w) && w.execs == f.w.execs && w.ledger.graph == f.w.ledger.graph
  {
    EmptyNext(f.w.ledger.graph, f.m);
    forall k | k in f.w.ledger.graph ensures k.id in f.m.steps {
      assert k.id in Ids(f.w.ledger.graph);
    }
    LastRound(env, f);
    LoopBasis(env, f);
    StaysFavourable(env, f.w, RunLoop(env, f).w);
  }

  lemma ReopenedReexecutes(env: Env, w: World, n: Node)
    requires Favourable(env, w) && WellFormed(w.ledger.graph)
    requires w.ledger.manifest.state == RunState.Succeeded && OnlyPending(w.ledger.graph, w.ledger.manifest, n)
    ensures var w' := Resume(env, w).w;
            && Done(env, w') && Nodes(w'.execs) == Nodes(w.execs) + [n]
            && w'.ledger.graph == w.ledger.graph && w'.crashes == w.crashes
  {
    StaysFavourable(env, w, Entered(env, w).w);
    OneStepLoop(env, Entered(env, w), n);
    ResumeBasis(env, w);
  }

  /** Approving an elevated step of a succeeded run executes it once more, with no crash at all. */
  lemma ReapprovalReexecutes(env: Env, w: World, n: Node, approver: string)
    requires Done(env, w) && n in w.ledger.graph && n.cell == Elevated
    ensures var again := Resume(env, Approve(env, w, n.id, approver)).w;
            && Done(env, again) && Nodes(again.execs) == Nodes(w.execs) + [n]
            && again.ledger.graph == w.ledger.graph && again.crashes == w.crashes
  {
    ApproveReopens(env, w, n, approver);
    ReopenedReexecutes(env, Approve(env, w, n.id, approver), n);
  }

  lemma AllDone(m: Manifest, m': Manifest, n: Node)
    requires BatchDone(m, m', [n])
    requires forall id | id in m.steps && id != n.id :: m.steps[id].state == StepState.Succeeded
    ensures AllSucceeded(m')
  {
  }

  lemma {:induction false} EmptyNext(graph: seq<Node>, m: Manifest)
    requires AllSucceeded(m)
    ensures NextRunnable(graph, m) == []
  {
    if graph != [] { EmptyNext(graph[1..], m); }
  }

  // ----- the bound with reopenings is reached -----

  const OPERATOR := "operator"

  function ApproveEach(nodes: seq<Node>): seq<Op> {
    if nodes == [] then [] else [ApproveOp(nodes[0].id, OPERATOR)] + ApproveEach(nodes[1..])
  }

  function Again(id: StepId): seq<Op> {
    [ApproveOp(id, OPERATOR), ResumeOp]
  }

  /** k times: approve the step again and resume. */
  function ApproveAgain(id: StepId, k: nat): seq<Op> {
    if k == 0 then [] else Again(id) + ApproveAgain(id, k - 1)
  }

  /** A run that nothing disturbed, in which nothing was dispatched yet. */
  ghost predicate Unstarted(w: World, graph: seq<Node>) {
    && w.alive && w.crashes == 0 && w.execs == [] && w.ledger.graph == graph
    && w.ledger.manifest.state == RunState.Ready && w.ledger.manifest.steps == FreshSteps(graph)
  }

  lemma ApproveOne(env: Env, w: World, graph: seq<Node>, n: Node)
    requires Unstarted(w, graph) && UniqueIds(graph) && n in graph && BenignFrom(env, 0)
    ensures var w' := Approve(env, w, n.id, OPERATOR);
            && Unstarted(w', graph)
            && w.ledger.approvals.Keys <= w'.ledger.approvals.Keys
            && (n.cell == Elevated ==> n.id in w'.ledger.approvals)
  {
    FoundIs(graph, n);
    assert w.ledger.manifest.steps[n.id] == FreshStep();
    var m := w.ledger.manifest;
    assert m.steps[n.id := m.steps[n.id].(state := StepState.Pending)] == m.steps;
  }

  lemma {:induction false} ApproveEachRuns(env: Env, w: World, graph: seq<Node>, nodes: seq<Node>)
    requires Unstarted(w, graph) && UniqueIds(graph) && BenignFrom(env, 0)
    requires forall n | n in nodes :: n in graph
    ensures var w' := Run(env, w, ApproveEach(nodes));
            && Unstarted(w', graph) && LegalRun(env, w, ApproveEach(nodes))
            && w.ledger.approvals.Keys <= w'.ledger.approvals.Keys
            && forall n | n in nodes && n.cell == Elevated :: n.id in w'.ledger.approvals
    decreases |nodes|
  {
    if nodes != [] {
      ApproveOne(env, w, graph, nodes[0]);
      assert Legal(w, ApproveOp(nodes[0].id, OPERATOR));
      ApproveEachRuns(env, Approve(env, w, nodes[0].id, OPERATOR), graph, nodes[1..]);
      assert nodes == [nodes[0]] + nodes[1..];
    }
  }

  lemma {:induction false} LegalIsDisciplined(env: Env, w: World, ops: seq<Op>)
    requires LegalRun(env, w, ops)
    ensures Undisciplined(env, w, ops) == 0
    decreases |ops|
  {
    if ops != [] { LegalIsDisciplined(env, Apply(env, w, ops[0]), ops[1..]); }
  }

  lemma {:induction false} RunsOneAfterOther(env: Env, w: World, a: seq<Op>, b: seq<Op>)
    ensures Run(env, w, a + b) == Run(env, Run(env, w, a), b)
    ensures Undisciplined(env, w, a + b) == Undisciplined(env, w, a) + Undisciplined(env, Run(env, w, a), b)
    decreases |a|
  {
    if a == [] {
      assert a + b == b;
    } else {
      assert (a + b)[1..] == a[1..] + b;
      RunsOneAfterOther(env, Apply(env, w, a[0]), a[1..], b);
    }
  }

  lemma AgainOnce(env: Env, w: World, n: Node)
    requires Done(env, w) && n in w.ledger.graph && n.cell == Elevated
    ensures var w' := Run(env, w, Again(n.id));
            && Done(env, w') && w'.ledger.graph == w.ledger.graph
            && Costs(env, w, Again(n.id), 1)
  {
    assert n.id in Ids(w.ledger.graph);
    var ops := Again(n.id);
    assert !Legal(w, ops[0]);
    assert ops[1..] == [ResumeOp];
    var a := Approve(env, w, n.id, OPERATOR);
    assert Run(env, a, [ResumeOp]) == Resume(env, a).w;
    assert Undisciplined(env, a, [ResumeOp]) == 0;
    assert Run(env, w, ops) == Resume(env, a).w;
    ReapprovalReexecutes(env, w, n, OPERATOR);
    NodesAt(w.execs);
    NodesAt(Resume(env, a).w.execs);
  }

  lemma {:induction false} AgainKeepsFiles(id: StepId, k: nat)
    ensures FilesKept(ApproveAgain(id, k))
  {
    if k > 0 { AgainKeepsFiles(id, k - 1); }
  }

  /** From w the operations cost k more executions and k undisciplined approvals, and no crash. */
  ghost predicate Costs(env: Env, w: World, ops: seq<Op>, k: nat) {
    && |Run(env, w, ops).execs| == |w.execs| + k && Run(env, w, ops).crashes == w.crashes
    && Undisciplined(env, w, ops) == k
  }

  lemma CostsAdd(env: Env, w: World, a: seq<Op>, b: seq<Op>, j: nat, k: nat)
    requires Costs(env, w, a, j) && Costs(env, Run(env, w, a), b, k)
    ensures Costs(env, w, a + b, j + k)
  {
    RunsOneAfterOther(env, w, a, b);
  }

  lemma {:induction false} AgainRuns(env: Env, w: World, n: Node, k: nat)
    requires Done(env, w) && n in w.ledger.graph && n.cell == Elevated
    ensures Costs(env, w, ApproveAgain(n.id, k), k)
    decreases k
  {
    if k > 0 {
      var j: nat := k - 1;
      AgainOnce(env, w, n);
      AgainRuns(env, Run(env, w, Again(n.id)), n, j);
      CostsAgain(env, w, n.id, j);
    }
  }

  lemma CostsAgain(env: Env, w: World, id: StepId, j: nat)
    requires Costs(env, w, Again(id), 1) && Costs(env, Run(env, w, Again(id)), ApproveAgain(id, j), j)
    ensures Costs(env, w, ApproveAgain(id, j + 1), j + 1)
  {
    CostsAdd(env, w, Again(id), ApproveAgain(id, j), 1, j);
    assert ApproveAgain(id, j + 1) == Again(id) + ApproveAgain(id, j);
  }

  /** Every graph of local steps has a run in which each elevated step is approved once and all succeed. */
  lemma EachOnce(graph: seq<Node>) returns (env: Env, ops: seq<Op>)
    requires WellFormed(graph) && AllLocal(graph)
    ensures Clocked(env) && FilesKept(ops)
    ensures var start := Prepared(graph, Digest(""), false, 0);
            var w := Run(env, start, ops);
            && Done(env, w) && w.ledger.graph == graph && |w.execs| == |graph| && w.crashes == 0
            && Undisciplined(env, start, ops) == 0 && Reached(env, graph, w)
  {
    env := Counting(-1, -1);
    var start := Prepared(graph, Digest(""), false, 0);
    CountingIsBenign();
    ApproveEachRuns(env, start, graph, graph);
    var approve := ApproveEach(graph);
    ReadyAfterApprovals(env, graph, start, approve);
    ApprovedThenResumed(env, graph, start, approve);
    ops := approve + [ResumeOp];
    ApprovalsKeepFiles(graph);
  }

  /** The resume that follows the approvals. */
  lemma ApprovedThenResumed(env: Env, graph: seq<Node>, start: World, approve: seq<Op>)
    requires Clocked(env) && WellFormed(graph) && start == Prepared(graph, Digest(""), false, 0)
    requires LegalRun(env, start, approve) && ReadyToRun(env, graph, Run(env, start, approve))
    requires Run(env, start, approve).crashes == 0
    ensures var ops := approve + [ResumeOp];
            var w := Run(env, start, ops);
            && Done(env, w) && w.ledger.graph == graph && |w.execs| == |graph| && w.crashes == 0
            && Undisciplined(env, start, ops) == 0 && Reached(env, graph, w)
  {
    var w := Run(env, start, approve);
    LegalIsDisciplined(env, start, approve);
    UndisturbedRun(env, graph, w);
    RunsOneAfterOther(env, start, approve, [ResumeOp]);
    assert Run(env, w, [ResumeOp]) == Resume(env, w).w;
    assert Undisciplined(env, w, [ResumeOp]) == 0;
    assert LegalRun(env, w, [ResumeOp]);
    LegalOneAfterOther(env, start, approve, [ResumeOp]);
  }

  lemma {:induction false} LegalOneAfterOther(env: Env, w: World, a: seq<Op>, b: seq<Op>)
    requires LegalRun(env, w, a) && LegalRun(env, Run(env, w, a), b)
    ensures LegalRun(env, w, a + b)
    decreases |a|
  {
    if a == [] {
      assert a + b == b;
    } else {
      assert (a + b)[1..] == a[1..] + b;
      LegalOneAfterOther(env, Apply(env, w, a[0]), a[1..], b);
    }
  }

  lemma {:induction false} ApprovalsKeepFiles(nodes: seq<Node>)
    ensures FilesKept(ApproveEach(nodes))
  {
    if nodes != [] { ApprovalsKeepFiles(nodes[1..]); }
  }

  lemma CountingIsBenign()
    ensures var env := Counting(-1, -1);
            Clocked(env) && BenignFrom(env, 0) && forall t: nat, id {:trigger env.ok(t, id)} :: env.ok(t, id)
  {
    assert forall t: nat {:trigger Prompt(Counting(-1, -1), t)} :: Prompt(Counting(-1, -1), t);
  }

  lemma ReadyAfterApprovals(env: Env, graph: seq<Node>, start: World, ops: seq<Op>)
    requires WellFormed(graph) && AllLocal(graph) && BenignFrom(env, 0)
    requires forall t: nat, id {:trigger env.ok(t, id)} :: env.ok(t, id)
    requires start == Prepared(graph, Digest(""), false, 0) && LegalRun(env, start, ops)
    requires var w := Run(env, start, ops);
             Unstarted(w, graph) && forall n | n in graph && n.cell == Elevated :: n.id in w.ledger.approvals
    ensures ReadyToRun(env, graph, Run(env, start, ops))
  {
    assert Reached(env, graph, Run(env, start, ops));
  }

  /** A fresh run that nothing disturbs ends done, with one execution per node. */
  lemma UndisturbedRun(env: Env, graph: seq<Node>, w: World)
    requires Clocked(env) && WellFormed(graph) && ReadyToRun(env, graph, w)
    ensures var w' := Resume(env, w).w;
            && Done(env, w') && w'.ledger.graph == graph && |w'.execs| == |graph| && w'.crashes == w.crashes
  {
    var depth, height, longest := FreshRunsInWaves(env, graph, w);
    ReadyIsFavourable(env, graph, w, depth);
    ResumeCompletes(env, graph, w);
    ResumeBasis(env, w);
    ReachedInv(env, graph, w);
    ResumeKeeps(env, w);
    var w' := Resume(env, w).w;
    StaysFavourable(env, Begin(w), w');
    NodesAt(w'.execs);
    SameSize(Waves(graph, depth, height), graph);
  }

  lemma SameSize<T>(a: seq<T>, b: seq<T>)
    requires multiset(a) == multiset(b)
    ensures |a| == |b|
  {
    assert |multiset(a)| == |a| && |multiset(b)| == |b|;
  }

  /**
    The bound of `ReopeningBound` is reached for every graph with an elevated step and every
    number of reopenings, without any crash: so it fails without counting them.
  */
  lemma BoundIsReached(graph: seq<Node>, n: Node, k: nat) returns (env: Env, ops: seq<Op>)
    requires WellFormed(graph) && AllLocal(graph) && n in graph && n.cell == Elevated
    ensures FilesKept(ops)
    ensures var start := Prepared(graph, Digest(""), false, 0);
            var w := Run(env, start, ops);
            && w.crashes == 0 && |w.execs| == |graph| + k
            && Undisciplined(env, start, ops) == k && Reopenings(env, start, ops) == k
  {
    var once;
    env, once := EachOnce(graph);
    var start := Prepared(graph, Digest(""), false, 0);
    var w := Run(env, start, once);
    var again := ApproveAgain(n.id, k);
    AgainRuns(env, w, n, k);
    AgainKeepsFiles(n.id, k);
    RunsOneAfterOther(env, start, once, again);
    ops := once + again;
    ReopeningBound(env, graph, Digest(""), false, 0, ops);
    ReopeningsAreUndisciplined(env, start, ops);
  }
}
