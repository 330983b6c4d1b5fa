/**
  Crashes do not change the outcome: a fresh run with every elevated step approved, resumed
  after any number of crashes at any write, ends as the run that was never interrupted.
*/
module CrashRefinement {
  import opened Base
  import opened Records
  import opened Bridge
  import opened Recovery
  import opened Protocol
  import opened Invariant
  import opened Reachability
  import opened Approvals
  import opened Completion

  /** Handlers answer as a function of the step. */
  ghost predicate Answers(env: Env, f: StepId -> bool) {
    forall t: nat, id {:trigger env.ok(t, id)} :: env.ok(t, id) == f(id)
  }

  ghost predicate ReceiptsAnswer(l: Ledger, f: StepId -> bool) {
    forall r {:trigger l.receipts[r]} | r in l.receipts :: l.receipts[r].ok == f(l.receipts[r].stepId)
  }

  /** No step awaits approval, was cancelled or is quarantined, and the run is open or finished. */
  ghost predicate Smooth(m: Manifest) {
    && Open(m.state)
    && forall id {:trigger m.steps[id]} | id in m.steps ::
         m.steps[id].state in {StepState.Pending, StepState.Running, StepState.Succeeded, StepState.Failed}
  }

  predicate Open(state: RunState) {
    state in {RunState.Ready, RunState.Running, RunState.Succeeded, RunState.Failed}
  }

  ghost predicate ApprovedAll(l: Ledger) {
    forall n {:trigger n.id in l.approvals} | n in l.graph && n.cell == Elevated :: n.id in l.approvals
  }

  /** What resumes alone keep, on top of the invariant. */
  ghost predicate Steady(w: World, f: StepId -> bool) {
    Smooth(w.ledger.manifest) && ApprovedAll(w.ledger) && ReceiptsAnswer(w.ledger, f)
  }

  // ----- resumes stay steady -----

  lemma ExecuteSteady(env: Env, w: World, node: Node, grant: StepGrant, f: StepId -> bool)
    requires Answers(env, f) && ReceiptsAnswer(w.ledger, f) && grant.body.stepId == node.id
    ensures var (w', receipt) := Execute(env, w, node, grant);
            && ReceiptsAnswer(w'.ledger, f) && SameBasis(w.ledger, w'.ledger) && w'.ledger.manifest == w.ledger.manifest
            && (receipt.Some? ==> receipt.value.stepId == node.id)
  {
  }

  lemma WriteSteady(env: Env, w: World, m: Manifest, f: StepId -> bool)
    requires Steady(w, f) && Smooth(m)
    ensures Steady(WriteManifest(env, w, m), f) && SameBasis(w.ledger, WriteManifest(env, w, m).ledger)
  {
  }

  lemma GrantedSteady(env: Env, issued: World, m: Manifest, node: Node, grant: StepGrant, at: Time, f: StepId -> bool)
    requires Answers(env, f) && Steady(issued, f) && Smooth(m)
    requires node.id in m.steps && grant.body.stepId == node.id
    ensures var g := Granted(env, issued, m, node, grant, at);
            && Steady(g.w, f) && Smooth(g.m) && SameBasis(issued.ledger, g.w.ledger)
            && (g.w.alive && g.returned ==> g.w.ledger.manifest.state == RunState.Failed)
  {
    var started := Started(m, node.id, grant.body.grantId, at);
    var running := Persist(env, issued, started, false);
    WriteSteady(env, issued, started, f);
    ExecuteSteady(env, running.w, node, grant, f);
    var (executed, receipt) := Execute(env, running.w, node, grant);
    if receipt.Some? {
      WriteSteady(env, executed, Finished(running.m, receipt.value), f);
    }
  }

  lemma DispatchSteady(env: Env, fr: Frame, node: Node, f: StepId -> bool)
    requires Answers(env, f) && Steady(fr.w, f) && Smooth(fr.m) && !fr.returned
    requires node in fr.w.ledger.graph
    ensures var g := Dispatch(env, fr, node);
            && Steady(g.w, f) && Smooth(g.m) && SameBasis(fr.w.ledger, g.w.ledger)
            && (g.w.alive && g.returned ==> g.w.ledger.manifest.state == RunState.Failed)
  {
    if !fr.Stopped() && node.id in fr.m.steps {
      var approval := Get(fr.w.ledger.approvals, node.id);
      var grant := Mint(env, fr.w, node, if approval.Some? then Some(approval.value.approvalHash) else None);
      var issued := WriteGrant(env, fr.w, GrantRecord(grant, Issued, None, None));
      GrantedSteady(env, issued, fr.m, node, grant, env.now(issued.tick), f);
    }
  }

  lemma {:induction false} BatchSteady(env: Env, fr: Frame, batch: seq<Node>, f: StepId -> bool)
    requires Answers(env, f) && Steady(fr.w, f) && Smooth(fr.m) && !fr.returned
    requires forall n | n in batch :: n in fr.w.ledger.graph
    ensures var g := RunBatch(env, fr, batch);
            && Steady(g.w, f) && Smooth(g.m) && SameBasis(fr.w.ledger, g.w.ledger)
            && (g.w.alive && g.returned ==> g.w.ledger.manifest.state == RunState.Failed)
    decreases |batch|
  {
    if batch != [] && !fr.Stopped() {
      DispatchSteady(env, fr, batch[0], f);
      var g := Dispatch(env, fr, batch[0]);
      if !g.Stopped() {
        BatchSteady(env, g, batch[1..], f);
      }
    }
  }

  /** A resume that is not cut short ends in `succeeded` or `failed`. */
  lemma {:induction false} LoopSteady(env: Env, fr: Frame, f: StepId -> bool)
    requires Answers(env, f) && Steady(fr.w, f) && Smooth(fr.m) && !fr.returned
    ensures var g := RunLoop(env, fr);
            && Steady(g.w, f) && SameBasis(fr.w.ledger, g.w.ledger)
            && (g.w.alive ==> g.w.ledger.manifest.state in {RunState.Succeeded, RunState.Failed})
    decreases if fr.Stopped() then 0 else 1, |PendingIds(fr.m)|
  {
    if !fr.Stopped() && Tracked(fr.w.ledger.graph, fr.m) {
      var batch := NextRunnable(fr.w.ledger.graph, fr.m);
      if batch == [] {
        assert !SomeStep(fr.m, StepState.AwaitingApproval);
        WriteSteady(env, fr.w, Verdict(fr.m), f);
      } else {
        BatchSteady(env, fr, batch, f);
        var g := RunBatch(env, fr, batch);
        if !g.Stopped() {
          RoundDropsPending(env, fr);
          StrictSubsetSmaller(PendingIds(g.m), PendingIds(fr.m));
          LoopSteady(env, g, f);
        }
      }
    }
  }

  lemma {:induction false} RecoverStepsSmooth(env: Env, w: World, m: Manifest, nodes: seq<Node>)
    requires Clocked(env) && Inv(env, w) && Smooth(m)
    requires w.alive ==> Repairing(env, w, m)
    requires forall n | n in nodes :: n in w.ledger.graph
    ensures Smooth(RecoverSteps(env, w, m, nodes).1)
    decreases |nodes|
  {
    if nodes != [] {
      if w.alive {
        RecoverStepSmooth(env, w, m, nodes[0]);
        RecoverStepKeeps(env, w, m, nodes[0]);
      }
      var (w1, m1) := RecoverStep(env, w, m, nodes[0]);
      RecoverStepsSmooth(env, w1, m1, nodes[1..]);
    }
  }

  lemma RecoverStepSmooth(env: Env, w: World, m: Manifest, node: Node)
    requires RecordsOk(w.ledger, m.steps) && Smooth(m)
    ensures Smooth(RecoverStep(env, w, m, node).1)
  {
    if node.id in m.steps && m.steps[node.id].state == StepState.Running {
      RunningNotQuarantined(w.ledger, m.steps, node.id, node);
    }
  }

  /** Crashes alone never leave a consumed grant without its receipt. */
  lemma RunningNotQuarantined(l: Ledger, steps: map<StepId, StepManifest>, id: StepId, node: Node)
    requires RecordsOk(l, steps) && id in steps
    requires steps[id].state == StepState.Running
    ensures !Decide(l, steps[id], node).Throws?
    ensures Decide(l, steps[id], node).step.state in {StepState.Pending, StepState.Succeeded, StepState.Failed}
  {
    assert StepOk(l, id, steps[id]);
    assert GrantOk(l, steps[id].grantId.value);
  }

  lemma DerivedOpen(m: Manifest)
    requires Smooth(m)
    ensures Open(DeriveRunState(m))
  {
  }

  lemma RecoverSteady(env: Env, w: World, f: StepId -> bool)
    requires Clocked(env) && Inv(env, w) && w.alive && Steady(w, f)
    ensures Steady(RecoverRun(env, w), f) && SameBasis(w.ledger, RecoverRun(env, w).ledger)
  {
    RecoverStepsSmooth(env, w, w.ledger.manifest, w.ledger.graph);
    RecoverStepsBasis(env, w, w.ledger.manifest, w.ledger.graph);
    var (w', m) := RecoverSteps(env, w, w.ledger.manifest, w.ledger.graph);
    DerivedOpen(m);
    WriteSteady(env, w', m.(state := DeriveRunState(m)), f);
  }

  /** Only resumes: the ledger stays steady, and a resume that is not cut short finishes the run. */
  lemma ResumeSteady(env: Env, w: World, f: StepId -> bool)
    requires Clocked(env) && Inv(env, w) && Answers(env, f) && Steady(w, f)
    ensures var w' := Resume(env, w).w;
            && Steady(w', f) && SameBasis(w.ledger, w'.ledger)
            && (w'.alive ==> w'.ledger.manifest.state in {RunState.Succeeded, RunState.Failed})
  {
    BeginKeeps(env, w);
    RecoverSteady(env, Begin(w), f);
    var repaired := Repaired(env, w);
    if repaired.alive {
      var m := repaired.ledger.manifest.(state := RunState.Running);
      WriteSteady(env, repaired, m, f);
      LoopSteady(env, Persist(env, repaired, m, false), f);
    }
  }

  ghost predicate OnlyResumes(ops: seq<Op>) {
    forall i {:trigger ops[i]} | 0 <= i < |ops| :: ops[i] == ResumeOp
  }

  lemma {:induction false} ResumesSteady(env: Env, w: World, ops: seq<Op>, f: StepId -> bool)
    requires Clocked(env) && Inv(env, w) && Answers(env, f) && Steady(w, f)
    requires OnlyResumes(ops) && ops != []
    ensures var w' := Run(env, w, ops);
            && Inv(env, w') && Steady(w', f) && SameBasis(w.ledger, w'.ledger)
            && (w'.alive ==> w'.ledger.manifest.state in {RunState.Succeeded, RunState.Failed})
    decreases |ops|
  {
    assert ops[0] == ResumeOp;
    ResumeSteady(env, w, f);
    ResumeKeeps(env, w);
    var w1 := Apply(env, w, ops[0]);
    if |ops| == 1 {
      assert Run(env, w, ops) == w1;
    } else {
      ResumesSteady(env, w1, ops[1..], f);
    }
  }

  // ----- the outcome -----

  /** The verdict of a run whose handlers answer f: it succeeds when all of them do. */
  ghost function Outcome(graph: seq<Node>, f: StepId -> bool): RunState {
    if forall n | n in graph :: f(n.id) then RunState.Succeeded else RunState.Failed
  }

  /** In a finished steady state the verdict is forced by the handlers. */
  lemma VerdictIsOutcome(env: Env, w: World, f: StepId -> bool)
    requires Inv(env, w) && Steady(w, f)
    requires w.ledger.manifest.state in {RunState.Succeeded, RunState.Failed}
    ensures w.ledger.manifest.state == Outcome(w.ledger.graph, f)
    ensures w.ledger.manifest.state == RunState.Succeeded ==> AllSucceeded(w.ledger.manifest)
  {
    var l := w.ledger;
    forall id | id in l.manifest.steps && Terminal(l.manifest.steps[id].state)
      ensures (l.manifest.steps[id].state == StepState.Succeeded) == f(id) {
      assert StepOk(l, id, l.manifest.steps[id]);
      var r := l.manifest.steps[id].receiptId.value;
      assert ReceiptOk(l, l.manifest.steps, r);
      assert GrantOk(l, l.manifest.steps[id].grantId.value);
    }
    if l.manifest.state == RunState.Succeeded {
      forall n | n in l.graph ensures f(n.id) {
        assert n.id in Ids(l.graph);
      }
    } else {
      var id :| id in l.manifest.steps && l.manifest.steps[id].state == StepState.Failed;
      assert id in Ids(l.graph);
      var n :| n in l.graph && n.id == id;
      assert !f(n.id);
    }
  }

  /** A prepared run that has not started, with approvals on file for its elevated steps. */
  ghost predicate FreshRun(w: World) {
    && WellFormed(w.ledger.graph)
    && w.ledger.manifest.state == RunState.Ready
    && w.ledger.manifest.steps.Keys == Ids(w.ledger.graph)
    && (forall id | id in w.ledger.manifest.steps :: w.ledger.manifest.steps[id] == FreshStep())
    && ApprovedAll(w.ledger)
    && w.ledger.grants == map[] && w.ledger.receipts == map[] && w.execs == []
  }

  lemma FreshKeeps(env: Env, w: World, f: StepId -> bool)
    requires FreshRun(w)
    ensures Inv(env, w) && Steady(w, f)
  {
    assert Accounted(w.ledger, w.ledger.manifest.steps) == {};
  }

  /**
    Any number of resumes, each cut short at any write or not at all: if the last one
    returns, the run's state is decided by the handlers alone.
  */
  lemma CrashesDoNotMatter(env: Env, w: World, ops: seq<Op>, f: StepId -> bool)
    requires Clocked(env) && FreshRun(w) && Answers(env, f)
    requires OnlyResumes(ops) && ops != []
    requires Run(env, w, ops).alive
    ensures Run(env, w, ops).ledger.manifest.state == Outcome(w.ledger.graph, f)
    ensures (forall n | n in w.ledger.graph :: f(n.id)) ==> AllSucceeded(Run(env, w, ops).ledger.manifest)
  {
    FreshKeeps(env, w, f);
    ResumesSteady(env, w, ops, f);
    VerdictIsOutcome(env, Run(env, w, ops), f);
  }

  /** After any crashes, one more resume that nothing interrupts returns the verdict. */
  lemma LastResumeReturns(env: Env, w: World, ops: seq<Op>, f: StepId -> bool)
    requires Clocked(env) && FreshRun(w) && Answers(env, f)
    requires Reachable(w.ledger.graph, w) && AllLocal(w.ledger.graph)
    requires OnlyResumes(ops) && BenignFrom(env, Run(env, w, ops).tick)
    ensures var last := Resume(env, Run(env, w, ops));
            last.returned && last.w.ledger.manifest.state == Outcome(w.ledger.graph, f)
  {
    FreshKeeps(env, w, f);
    ReachableFits(w.ledger.graph, w);
    if ops != [] {
      ResumesSteady(env, w, ops, f);
    }
    var crashed := Run(env, w, ops);
    forall n | n in crashed.ledger.graph ensures NodeFits(crashed.ledger, n) {
      assert NodeFits(w.ledger, n);
    }
    FittingResumes(env, crashed);
    ResumeSteady(env, crashed, f);
    ResumeKeeps(env, crashed);
    VerdictIsOutcome(env, Resume(env, crashed).w, f);
  }

  /**
    The uninterrupted run returns, and every crashed and resumed run whose last resume
    returns has the same verdict; if every handler succeeds, the same step states too.
  */
  lemma CrashRefinement(calm: Env, stormy: Env, w: World, ops: seq<Op>, f: StepId -> bool)
    requires Clocked(calm) && Clocked(stormy) && Answers(calm, f) && Answers(stormy, f)
    requires FreshRun(w) && Reachable(w.ledger.graph, w) && AllLocal(w.ledger.graph)
    requires BenignFrom(calm, w.tick)
    requires OnlyResumes(ops) && ops != [] && Run(stormy, w, ops).alive
    ensures var uninterrupted := Resume(calm, w);
            var resumed := Run(stormy, w, ops).ledger.manifest;
            && uninterrupted.returned
            && resumed.state == uninterrupted.w.ledger.manifest.state
            && resumed.steps.Keys == uninterrupted.w.ledger.manifest.steps.Keys
            && (resumed.state == RunState.Succeeded ==>
                  AllSucceeded(resumed) && AllSucceeded(uninterrupted.w.ledger.manifest))
  {
    LastResumeReturns(calm, w, [], f);
    FreshKeeps(calm, w, f);
    ResumesSteady(calm, w, [ResumeOp], f);
    assert Run(calm, w, [ResumeOp]) == Resume(calm, w).w;
    VerdictIsOutcome(calm, Resume(calm, w).w, f);
    FreshKeeps(stormy, w, f);
    ResumesSteady(stormy, w, ops, f);
    VerdictIsOutcome(stormy, Run(stormy, w, ops), f);
  }
}
