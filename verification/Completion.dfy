/**
  Completeness: once the process stops dying and handlers stop throwing, a resume from any
  reachable state returns.  In particular no bridge refuses a grant the runtime minted for
  an unedited graph, up to the grant's expiry.
*/
module Completion {
  import opened Base
  import opened Json
  import opened Hashing
  import opened Records
  import opened Bridge
  import opened Recovery
  import opened Protocol
  import opened Invariant
  import opened Reachability
  import opened Approvals

  /** From tick `from` on nothing dies or throws, and a grant outlives the two writes after its minting. */
  ghost predicate BenignFrom(env: Env, from: nat) {
    && (forall t: nat {:trigger env.dies(t)} | from <= t :: !env.dies(t))
    && (forall t: nat {:trigger env.throws(t)} | from <= t :: !env.throws(t))
    && (forall t: nat {:trigger Prompt(env, t)} | from <= t :: Prompt(env, t))
  }

  ghost predicate Prompt(env: Env, t: nat) {
    env.now(t + 2) < env.now(t) + env.ttl
  }

  /** A grant minted under a fitting approval is admitted exactly until it expires, unless transport is refused. */
  lemma FittingIsAdmitted(env: Env, w: World, node: Node, later: Ledger, at: Time)
    requires node.payloadHash == HashJson(node.payload) && ApprovalFits(w.ledger, node)
    requires node.cell == Elevated ==> node.id in w.ledger.approvals
    requires later.policyHash == w.ledger.policyHash && later.approvals == w.ledger.approvals
    requires w.tick in later.grants && later.grants[w.tick].state == Issued
    ensures Admitted(later, at, node, Mint(env, w, node, GrantApproval(w.ledger, node)))
            <==> at < env.now(w.tick) + env.ttl && (node.cell == Elevated ==> LocalTransport(node))
  {
  }

  /**
    In every reachable state, a grant minted for a step of the graph is admitted by its bridge
    exactly until it expires; an elevated step only needs its approval on record, and a
    payload that does not refuse local transport.
  */
  lemma MintedIsAdmitted(env: Env, graph: seq<Node>, w: World, node: Node, later: Ledger, at: Time)
    requires Clocked(env) && WellFormed(graph) && Reached(env, graph, w) && node in graph
    requires node.cell == Elevated ==> node.id in w.ledger.approvals
    requires later.policyHash == w.ledger.policyHash && later.approvals == w.ledger.approvals
    requires w.tick in later.grants && later.grants[w.tick].state == Issued
    ensures Admitted(later, at, node, Mint(env, w, node, GrantApproval(w.ledger, node)))
            <==> at < env.now(w.tick) + env.ttl && (node.cell == Elevated ==> LocalTransport(node))
  {
    ReachedFits(env, graph, w);
    assert ApprovalFits(w.ledger, node);
    assert node.payloadHash == HashJson(node.payload);
    FittingIsAdmitted(env, w, node, later, at);
  }

  function GrantApproval(l: Ledger, node: Node): Option<Hash> {
    if node.id in l.approvals then Some(l.approvals[node.id].approvalHash) else None
  }

  lemma ExecuteCompletes(env: Env, w: World, node: Node, grant: StepGrant)
    requires BenignFrom(env, w.tick) && w.alive
    requires Admitted(w.ledger, env.now(w.tick), node, grant)
    ensures var (w', receipt) := Execute(env, w, node, grant);
            && w'.alive && receipt.Some?
            && receipt.value.stepId == grant.body.stepId && receipt.value.ok == env.ok(w.tick, node.id)
            && w'.tick == w.tick + 3 && w'.crashes == w.crashes
            && w'.execs == w.execs + [Execution(node, grant.body, w.ledger)]
            && w'.ledger == w.ledger.(grants := w'.ledger.grants, receipts := w'.ledger.receipts)
  {
  }

  /** One dispatch, seen from outside: it ran the handler once, or paused for approval. */
  ghost predicate RanOnce(env: Env, f: Frame, node: Node, g: Frame) {
    && g.w.alive && f.w.tick <= g.w.tick && g.w.crashes == f.w.crashes
    && SameBasis(f.w.ledger, g.w.ledger)
    && g.w.ledger.manifest == g.m
    && (if node.cell == Elevated && node.id !in f.w.ledger.approvals
        then g.returned && g.w.execs == f.w.execs && g.m.state == RunState.AwaitingApproval
        else && |g.w.execs| == |f.w.execs| + 1 && g.w.execs[..|f.w.execs|] == f.w.execs
             && g.w.execs[|f.w.execs|].node == node
             && node.id in g.m.steps
             && g.m.steps == f.m.steps[node.id := g.m.steps[node.id]]
             && if env.ok(f.w.tick + 2, node.id)
                then !g.returned && g.m.state == f.m.state && g.m.steps[node.id].state == StepState.Succeeded
                else g.returned && g.m.state == RunState.Failed && g.m.steps[node.id].state == StepState.Failed)
  }

  lemma DispatchCompletes(env: Env, f: Frame, node: Node)
    requires BenignFrom(env, f.w.tick) && !f.Stopped()
    requires node.id in f.m.steps && NodeFits(f.w.ledger, node)
    ensures RanOnce(env, f, node, Dispatch(env, f, node))
  {
    if node.cell == Elevated && node.id !in f.w.ledger.approvals {
      assert Dispatch(env, f, node) == Persist(env, f.w, Paused(f.m, node.id), true);
    } else {
      var grant := Mint(env, f.w, node, GrantApproval(f.w.ledger, node));
      var issued := WriteGrant(env, f.w, GrantRecord(grant, Issued, None, None));
      var running := Persist(env, issued, Started(f.m, node.id, grant.body.grantId, env.now(issued.tick)), false);
      assert running.w.tick == f.w.tick + 2 && Prompt(env, f.w.tick);
      FittingIsAdmitted(env, f.w, node, running.w.ledger, env.now(running.w.tick));
      ExecuteCompletes(env, running.w, node, grant);
      var (executed, receipt) := Execute(env, running.w, node, grant);
      assert Dispatch(env, f, node) == Settle(env, running, executed, receipt);
      SettledOnce(env, f, running, node, grant, executed, receipt);
    }
  }

  /** A settled dispatch, put together from its parts. */
  lemma SettledOnce(env: Env, f: Frame, running: Frame, node: Node, grant: StepGrant, executed: World,
                    receipt: Option<Receipt>)
    requires f.w.alive && node.id in f.m.steps
    requires node.cell == Elevated ==> node.id in f.w.ledger.approvals
    requires node.id in running.m.steps && running.m.steps == f.m.steps[node.id := running.m.steps[node.id]]
    requires running.m.state == f.m.state
    requires SameBasis(f.w.ledger, executed.ledger) && executed.crashes == f.w.crashes
    requires executed.alive && !env.dies(executed.tick) && f.w.tick <= executed.tick
    requires exists l :: executed.execs == f.w.execs + [Execution(node, grant.body, l)]
    requires receipt.Some? && receipt.value.stepId == node.id && receipt.value.ok == env.ok(f.w.tick + 2, node.id)
    ensures RanOnce(env, f, node, Settle(env, running, executed, receipt))
  {
    SettleCompletes(env, running, executed, receipt);
  }

  lemma SettleCompletes(env: Env, running: Frame, executed: World, receipt: Option<Receipt>)
    requires executed.alive && !env.dies(executed.tick)
    requires receipt.Some? && receipt.value.stepId in running.m.steps
    ensures var g := Settle(env, running, executed, receipt);
            && g.w.alive && g.w.ledger.manifest == g.m && g.returned == !receipt.value.ok
            && g.m == Stamp(env, executed, Finished(running.m, receipt.value))
            && g.w == executed.(ledger := executed.ledger.(manifest := g.m), tick := executed.tick + 1)
  {
  }

  lemma {:induction false} BatchCompletes(env: Env, f: Frame, batch: seq<Node>)
    requires BenignFrom(env, f.w.tick) && f.w.alive
    requires forall n {:trigger NodeFits(f.w.ledger, n)} | n in batch :: n.id in f.m.steps && NodeFits(f.w.ledger, n)
    ensures var g := RunBatch(env, f, batch);
            && g.w.alive && f.w.tick <= g.w.tick && SameBasis(f.w.ledger, g.w.ledger)
            && g.m.steps.Keys == f.m.steps.Keys
    decreases |batch|
  {
    if batch != [] && !f.Stopped() {
      assert NodeFits(f.w.ledger, batch[0]);
      DispatchCompletes(env, f, batch[0]);
      DispatchTouches(env, f, batch[0]);
      var g := Dispatch(env, f, batch[0]);
      forall n | n in batch[1..] ensures n.id in g.m.steps && NodeFits(g.w.ledger, n) {
        assert NodeFits(f.w.ledger, n);
      }
      BatchCompletes(env, g, batch[1..]);
    }
  }

  lemma {:induction false} LoopCompletes(env: Env, f: Frame)
    requires BenignFrom(env, f.w.tick) && f.w.alive
    requires AllFit(f.w.ledger) && Tracked(f.w.ledger.graph, f.m)
    ensures var g := RunLoop(env, f); g.w.alive && g.returned
    decreases if f.Stopped() then 0 else 1, |PendingIds(f.m)|
  {
    if !f.Stopped() {
      var batch := NextRunnable(f.w.ledger.graph, f.m);
      if batch != [] {
        forall n | n in batch ensures n.id in f.m.steps && NodeFits(f.w.ledger, n) {
          assert n in f.w.ledger.graph;
        }
        BatchCompletes(env, f, batch);
        var g := RunBatch(env, f, batch);
        if !g.Stopped() {
          RoundDropsPending(env, f);
          StrictSubsetSmaller(PendingIds(g.m), PendingIds(f.m));
          forall n | n in g.w.ledger.graph ensures NodeFits(g.w.ledger, n) {
            assert NodeFits(f.w.ledger, n);
          }
          LoopCompletes(env, g);
        }
      }
    }
  }

  lemma {:induction false} RecoverStepsComplete(env: Env, w: World, m: Manifest, nodes: seq<Node>)
    requires Clocked(env) && Repairing(env, w, m) && w.alive && BenignFrom(env, w.tick)
    requires forall n | n in nodes :: n in w.ledger.graph
    ensures var (w', m') := RecoverSteps(env, w, m, nodes);
            w'.alive && w.tick <= w'.tick && SameBasis(w.ledger, w'.ledger)
    decreases |nodes|
  {
    if nodes != [] {
      assert nodes[0].id in Ids(w.ledger.graph);
      DecisionFits(w.ledger, m.steps, nodes[0].id, nodes[0]);
      RecoverStepKeeps(env, w, m, nodes[0]);
      var (w1, m1) := RecoverStep(env, w, m, nodes[0]);
      RecoverStepsComplete(env, w1, m1, nodes[1..]);
    }
  }

  lemma RecoverCompletes(env: Env, w: World)
    requires Clocked(env) && Inv(env, w) && w.alive && BenignFrom(env, w.tick)
    ensures var w' := RecoverRun(env, w);
            w'.alive && w.tick <= w'.tick && SameBasis(w.ledger, w'.ledger)
  {
    RecoverStepsComplete(env, w, w.ledger.manifest, w.ledger.graph);
  }

  lemma FittingResumes(env: Env, w: World)
    requires Clocked(env) && Inv(env, w) && AllFit(w.ledger) && BenignFrom(env, w.tick)
    ensures var f := Resume(env, w);
            f.w.alive && (f.returned || f.w.ledger.manifest.state == RunState.Quarantined)
  {
    BeginKeeps(env, w);
    if w.ledger.manifest.state == RunState.Running {
      RecoverKeeps(env, Begin(w));
      RecoverCompletes(env, Begin(w));
    }
    var repaired := Repaired(env, w);
    StillFit(w.ledger, repaired.ledger);
    if !Refuses(repaired.ledger.manifest.state) {
      EnteredCompletes(env, repaired);
    }
  }

  lemma StillFit(l: Ledger, l': Ledger)
    requires AllFit(l) && SameBasis(l, l')
    ensures AllFit(l')
  {
    forall n | n in l'.graph ensures NodeFits(l', n) {
      assert NodeFits(l, n);
    }
  }

  /** The driving loop, entered from a run that is open and at rest. */
  lemma EnteredCompletes(env: Env, w: World)
    requires Clocked(env) && Inv(env, w) && AllFit(w.ledger) && w.alive && BenignFrom(env, w.tick)
    requires !Refuses(w.ledger.manifest.state) && w.ledger.manifest.state != RunState.Running
    ensures var g := RunLoop(env, Persist(env, w, w.ledger.manifest.(state := RunState.Running), false));
            g.w.alive && g.returned
  {
    RunningKeeps(env, w);
    var f := Persist(env, w, w.ledger.manifest.(state := RunState.Running), false);
    forall n | n in f.w.ledger.graph ensures n.id in f.m.steps {
      assert n.id in Ids(f.w.ledger.graph);
    }
    StillFit(w.ledger, f.w.ledger);
    LoopCompletes(env, f);
  }

  /**
    From every reachable state a resume that nothing interrupts returns, or finds the run
    quarantined.
  */
  lemma ResumeCompletes(env: Env, graph: seq<Node>, w: World)
    requires Clocked(env) && WellFormed(graph) && Reached(env, graph, w)
    requires AllLocal(graph) && BenignFrom(env, w.tick)
    ensures var f := Resume(env, w);
            f.w.alive && (f.returned || f.w.ledger.manifest.state == RunState.Quarantined)
  {
    ReachedInv(env, graph, w);
    ReachedFits(env, graph, w);
    FittingResumes(env, w);
  }
}
