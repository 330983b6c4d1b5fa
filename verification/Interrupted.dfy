/**
  What becomes of a step that a crash interrupts: exactly which crash points repeat its
  effect, and what recovery makes of cancelled and rejected runs.
*/
module Interrupted {
  import opened Base
  import opened Json
  import opened Hashing
  import opened Records
  import opened Bridge
  import opened Recovery
  import opened Protocol
  import opened Invariant
  import opened Reachability
  import opened Approvals
  import opened Completion
  import opened SingleUse
  import opened RecoveryLaws
  import opened Quarantine
  import opened WaveOrder
  import opened Resumption

  lemma InvFiled(env: Env, w: World)
    requires Inv(env, w)
    ensures Filed(w.ledger)
  {
    forall g | g in w.ledger.grants ensures w.ledger.grants[g].grant.body.grantId == g {
      assert GrantOk(w.ledger, g);
    }
  }

  /** What a completed recovery makes of one step of a sound ledger is what it decides on the ledger it found. */
  lemma RecoverDecides(env: Env, env': Env, w: World, node: Node)
    requires Inv(env, w) && node in w.ledger.graph && RecoverRun(env', w).alive
    ensures node.id in w.ledger.manifest.steps && node.id in RecoverRun(env', w).ledger.manifest.steps
    ensures var d := Decide(w.ledger, w.ledger.manifest.steps[node.id], node);
            !d.Throws? && RecoverRun(env', w).ledger.manifest.steps[node.id] == d.step
  {
    InvFiled(env, w);
    assert node.id in Ids(w.ledger.graph);
    DecisionFits(w.ledger, w.ledger.manifest.steps, node.id, node);
    forall n | n in w.ledger.graph && n.id == node.id ensures n == node {
      SameNode(w.ledger.graph, n, node);
    }
    RecoverIsRepair(env', w);
    RepairDecides(w.ledger, w.ledger.manifest, w.ledger.graph, node);
  }

  /** The outcome of an interrupted step: its receipt's if its grant was consumed, else pending again. */
  ghost predicate Resolved(l: Ledger, step: StepManifest, after: StepManifest) {
    if Spent(l, step)
    then && TryReadReceipt(l, l.grants[step.grantId.value].receiptId).Some?
         && var receipt := TryReadReceipt(l, l.grants[step.grantId.value].receiptId).value;
            after.state == ReceiptState(receipt) && after.receiptId == Some(receipt.receiptId)
    else after.state == StepState.Pending && after.grantId.None?
  }

  lemma RunningDecides(l: Ledger, node: Node)
    requires RecordsOk(l, l.manifest.steps) && node.id in l.manifest.steps
    requires l.manifest.steps[node.id].state == StepState.Running
    ensures var d := Decide(l, l.manifest.steps[node.id], node);
            !d.Throws? && Resolved(l, l.manifest.steps[node.id], d.step)
  {
    assert StepOk(l, node.id, l.manifest.steps[node.id]);
    assert GrantOk(l, l.manifest.steps[node.id].grantId.value);
  }

  /**
    An interrupted step is settled by its receipt when its grant was consumed, and otherwise
    goes back to pending without a grant, whatever its replay class.
  */
  lemma InterruptedStep(env: Env, env': Env, graph: seq<Node>, w: World, node: Node)
    requires Clocked(env) && WellFormed(graph) && Reached(env, graph, w) && node in graph
    requires node.id in w.ledger.manifest.steps && w.ledger.manifest.steps[node.id].state == StepState.Running
    requires RecoverRun(env', w).alive
    ensures node.id in RecoverRun(env', w).ledger.manifest.steps
    ensures Resolved(w.ledger, w.ledger.manifest.steps[node.id], RecoverRun(env', w).ledger.manifest.steps[node.id])
  {
    ReachedInv(env, graph, w);
    RunningDecides(w.ledger, node);
    RecoverDecides(env, env', w, node);
  }

  /** Recovery never leaves a run cancelled, rejected or running: it reopens even what an operator closed. */
  lemma RecoveryReopens(env: Env, graph: seq<Node>, w: World)
    requires Clocked(env) && WellFormed(graph) && Reached(env, graph, w)
    ensures RecoverRun(env, Begin(w)).alive ==> Recovered(RecoverRun(env, Begin(w)).ledger.manifest)
  {
    ReachedInv(env, graph, w);
    BeginKeeps(env, w);
    RecoverKeeps(env, Begin(w));
  }

  // ----- one dispatch, cut at each of its writes -----

  ghost predicate Lives(env: Env, from: nat, to: nat) {
    forall t: nat {:trigger env.dies(t)} | from <= t < to :: !env.dies(t)
  }

  /** The process dies just before the k-th of the dispatch's six atomic steps, or its handler throws. */
  ghost predicate CutAt(env: Env, t: nat, k: nat, thrown: bool) {
    && Lives(env, t, t + k)
    && env.throws(t + 2) == thrown
    && if thrown then k == 3 else env.dies(t + k)
  }

  /** Whether the dispatch's grant is on file, and whether it is consumed by receipt r. */
  ghost predicate GrantLeft(l: Ledger, l': Ledger, g: GrantId, written: bool, consumed: bool, r: ReceiptId) {
    if !written then l'.grants == l.grants
    else
      && g in l'.grants && l'.grants == l.grants[g := l'.grants[g]]
      && l'.grants[g].state == (if consumed then Consumed else Issued)
      && l'.grants[g].receiptId == (if consumed then Some(r) else None)
      && l'.grants[g].grant.body.grantId == g
  }

  /** Whether the dispatch's receipt is on file. */
  ghost predicate ReceiptLeft(l: Ledger, l': Ledger, r: ReceiptId, g: GrantId, id: StepId, ok: bool, written: bool) {
    if !written then l'.receipts == l.receipts
    else
      && r in l'.receipts && l'.receipts == l.receipts[r := l'.receipts[r]]
      && l'.receipts[r].receiptId == r && l'.receipts[r].grantId == g
      && l'.receipts[r].stepId == id && l'.receipts[r].ok == ok
  }

  /** Whether the handler was called. */
  ghost predicate CalledOnce(w: World, w': World, node: Node, called: bool) {
    if !called then w'.execs == w.execs
    else |w'.execs| == |w.execs| + 1 && w'.execs[..|w.execs|] == w.execs && w'.execs[|w.execs|].node == node
  }

  /** The state of the files at the cut: which writes of the dispatch were made. */
  ghost predicate LeftBy(env: Env, f: Frame, node: Node, w: World, k: nat)
    requires node.id in f.m.steps
  {
    var t := f.w.tick;
    && !w.alive && SameBasis(f.w.ledger, w.ledger)
    && CalledOnce(f.w, w, node, 3 <= k)
    && w.ledger.manifest.state == f.m.state
    && w.ledger.manifest.steps == (if k < 2 then f.m else Started(f.m, node.id, t, env.now(t + 1))).steps
    && GrantLeft(f.w.ledger, w.ledger, t, 1 <= k, 5 <= k, t + 3)
    && ReceiptLeft(f.w.ledger, w.ledger, t + 3, t, node.id, env.ok(t + 2, node.id), 4 <= k)
  }

  /** Cut before the step is stored as running, the dispatch leaves at most an unused grant. */
  lemma DispatchCutEarly(env: Env, f: Frame, node: Node, k: nat)
    requires !f.Stopped() && f.m == f.w.ledger.manifest && node.id in f.m.steps
    requires node.cell == Elevated ==> node.id in f.w.ledger.approvals
    requires k <= 1 && CutAt(env, f.w.tick, k, false)
    ensures LeftBy(env, f, node, Dispatch(env, f, node).w, k)
  {
    var grant := Mint(env, f.w, node, GrantApproval(f.w.ledger, node));
    var issued := WriteGrant(env, f.w, GrantRecord(grant, Issued, None, None));
    NeverStarted(env, issued, f.m, node, grant, env.now(issued.tick));
    assert Dispatch(env, f, node) == Granted(env, issued, f.m, node, grant, env.now(issued.tick));
  }

  lemma NeverStarted(env: Env, issued: World, m: Manifest, node: Node, grant: StepGrant, at: Time)
    requires node.id in m.steps && (issued.alive ==> env.dies(issued.tick))
    ensures var g := Granted(env, issued, m, node, grant, at);
            !g.w.alive && g.w.ledger == issued.ledger && g.w.execs == issued.execs
  {
  }

  lemma DispatchCut(env: Env, f: Frame, node: Node, k: nat, thrown: bool)
    requires !f.Stopped() && f.m == f.w.ledger.manifest && node.id in f.m.steps
    requires NodeFits(f.w.ledger, node) && Prompt(env, f.w.tick)
    requires node.cell == Elevated ==> node.id in f.w.ledger.approvals
    requires k <= 5 && CutAt(env, f.w.tick, k, thrown)
    ensures LeftBy(env, f, node, Dispatch(env, f, node).w, k)
  {
    if k < 2 {
      DispatchCutEarly(env, f, node, k);
    } else {
      var grant := Mint(env, f.w, node, GrantApproval(f.w.ledger, node));
      var issued := WriteGrant(env, f.w, GrantRecord(grant, Issued, None, None));
      assert issued.alive && issued.tick == f.w.tick + 1;
      FittingIsAdmitted(env, f.w, node, issued.ledger, env.now(f.w.tick + 2));
      DispatchCutLate(env, f, node, grant, issued, k, thrown);
      assert Dispatch(env, f, node) == Granted(env, issued, f.m, node, grant, env.now(issued.tick));
    }
  }

  lemma DispatchCutLate(env: Env, f: Frame, node: Node, grant: StepGrant, issued: World, k: nat, thrown: bool)
    requires node.id in f.m.steps && 2 <= k <= 5 && CutAt(env, f.w.tick, k, thrown)
    requires grant.body.grantId == f.w.tick && grant.body.stepId == node.id
    requires issued.alive && issued.tick == f.w.tick + 1 && issued.execs == f.w.execs
    requires issued.ledger
               == f.w.ledger.(grants := f.w.ledger.grants[f.w.tick := GrantRecord(grant, Issued, None, None)])
    requires Admitted(issued.ledger, env.now(issued.tick + 1), node, grant)
    ensures LeftBy(env, f, node, Granted(env, issued, f.m, node, grant, env.now(issued.tick)).w, k)
  {
    GrantedCut(env, issued, f.m, node, grant, k - 1, thrown);
    CutComposes(env, f, node, issued, Granted(env, issued, f.m, node, grant, env.now(issued.tick)).w, k);
  }

  /** The cut after the grant was written, seen from before it was. */
  lemma CutComposes(env: Env, f: Frame, node: Node, issued: World, w: World, k: nat)
    requires node.id in f.m.steps && 2 <= k <= 5
    requires issued.tick == f.w.tick + 1 && issued.execs == f.w.execs
    requires f.w.tick in issued.ledger.grants
    requires issued.ledger == f.w.ledger.(grants := f.w.ledger.grants[f.w.tick := issued.ledger.grants[f.w.tick]])
    requires GrantedLeft(env, issued, f.m, node, f.w.tick, w, k - 1)
    ensures LeftBy(env, f, node, w, k)
  {
  }

  /** The state of the files when a dispatch is cut after its grant was written. */
  ghost predicate GrantedLeft(env: Env, issued: World, m: Manifest, node: Node, g: GrantId, w: World, k: nat)
    requires node.id in m.steps
  {
    && !w.alive && SameBasis(issued.ledger, w.ledger)
    && CalledOnce(issued, w, node, 2 <= k)
    && w.ledger.manifest.state == m.state
    && w.ledger.manifest.steps == Started(m, node.id, g, env.now(issued.tick)).steps
    && GrantLeft(issued.ledger, w.ledger, g, true, 4 <= k, issued.tick + 2)
    && ReceiptLeft(issued.ledger, w.ledger, issued.tick + 2, g, node.id, env.ok(issued.tick + 1, node.id), 3 <= k)
  }

  lemma GrantedCut(env: Env, issued: World, m: Manifest, node: Node, grant: StepGrant, k: nat, thrown: bool)
    requires issued.alive && 1 <= k <= 4 && Lives(env, issued.tick, issued.tick + k)
    requires env.throws(issued.tick + 1) == thrown && if thrown then k == 2 else env.dies(issued.tick + k)
    requires node.id in m.steps && node.id == grant.body.stepId
    requires Admitted(issued.ledger, env.now(issued.tick + 1), node, grant)
    requires issued.ledger.grants[grant.body.grantId] == GrantRecord(grant, Issued, None, None)
    ensures GrantedLeft(env, issued, m, node, grant.body.grantId,
                        Granted(env, issued, m, node, grant, env.now(issued.tick)).w, k)
  {
    var running := Persist(env, issued, Started(m, node.id, grant.body.grantId, env.now(issued.tick)), false);
    assert running.w.alive && running.w.tick == issued.tick + 1 && running.w.execs == issued.execs;
    RunningCut(env, issued, m, running, node, grant, k, thrown);
  }

  lemma RunningCut(env: Env, issued: World, m: Manifest, running: Frame, node: Node, grant: StepGrant,
                   k: nat, thrown: bool)
    requires running.w.alive && running.w.tick == issued.tick + 1 && running.w.execs == issued.execs
    requires 1 <= k <= 4 && Lives(env, issued.tick, issued.tick + k)
    requires env.throws(issued.tick + 1) == thrown && if thrown then k == 2 else env.dies(issued.tick + k)
    requires node.id in m.steps && node.id == grant.body.stepId
    requires grant.body.grantId in issued.ledger.grants
    requires issued.ledger.grants[grant.body.grantId] == GrantRecord(grant, Issued, None, None)
    requires Admitted(issued.ledger, env.now(issued.tick + 1), node, grant)
    requires running.w.ledger == issued.ledger.(manifest := running.m)
    requires running.m.state == m.state
    requires running.m.steps == Started(m, node.id, grant.body.grantId, env.now(issued.tick)).steps
    ensures var (executed, receipt) := Execute(env, running.w, node, grant);
            GrantedLeft(env, issued, m, node, grant.body.grantId, Settle(env, running, executed, receipt).w, k)
  {
    AdmittedCarries(issued.ledger, running.w.ledger, env.now(running.w.tick), node, grant);
    var (executed, receipt) := Execute(env, running.w, node, grant);
    ExecuteCut(env, running.w, node, grant, k - 1, thrown);
    SettleCut(env, running, executed, receipt);
    RunningLeft(env, issued, m, running.w, node, grant.body.grantId, executed,
                Settle(env, running, executed, receipt).w, k);
  }

  /** A bridge does not look at the manifest. */
  lemma AdmittedCarries(l: Ledger, l': Ledger, at: Time, node: Node, grant: StepGrant)
    requires l == l'.(manifest := l.manifest) && Admitted(l, at, node, grant)
    ensures Admitted(l', at, node, grant)
  {
  }

  lemma RunningLeft(env: Env, issued: World, m: Manifest, running: World, node: Node, g: GrantId,
                    executed: World, w: World, k: nat)
    requires node.id in m.steps && 1 <= k && ExecuteLeft(env, running, node, g, executed, k - 1)
    requires running.tick == issued.tick + 1 && running.execs == issued.execs
    requires running.ledger == issued.ledger.(manifest := running.ledger.manifest)
    requires running.ledger.manifest.state == m.state
    requires running.ledger.manifest.steps == Started(m, node.id, g, env.now(issued.tick)).steps
    requires !w.alive && w.ledger == executed.ledger && w.execs == executed.execs
    ensures GrantedLeft(env, issued, m, node, g, w, k)
  {
  }

  /** The last write of the dispatch changes only the manifest, and dies if it is the one cut. */
  lemma SettleCut(env: Env, running: Frame, executed: World, receipt: Option<Receipt>)
    requires executed.alive ==> env.dies(executed.tick) && receipt.Some? && receipt.value.stepId in running.m.steps
    requires !executed.alive ==> receipt.None?
    ensures var g := Settle(env, running, executed, receipt);
            !g.w.alive && g.w.ledger == executed.ledger && g.w.execs == executed.execs
  {
  }

  /** The state of the files when the bridge's part is cut, or done. */
  ghost predicate ExecuteLeft(env: Env, w: World, node: Node, g: GrantId, w': World, k: nat) {
    && SameBasis(w.ledger, w'.ledger) && w'.ledger.manifest == w.ledger.manifest
    && CalledOnce(w, w', node, 1 <= k)
    && GrantLeft(w.ledger, w'.ledger, g, true, 3 <= k, w.tick + 1)
    && ReceiptLeft(w.ledger, w'.ledger, w.tick + 1, g, node.id, env.ok(w.tick, node.id), 2 <= k)
  }

  /** The bridge's part: its three atomic steps are the handler, the receipt and the consumption. */
  lemma ExecuteCut(env: Env, w: World, node: Node, grant: StepGrant, k: nat, thrown: bool)
    requires w.alive && Admitted(w.ledger, env.now(w.tick), node, grant)
    requires w.ledger.grants[grant.body.grantId] == GrantRecord(grant, Issued, None, None)
    requires grant.body.stepId == node.id && k <= 3
    requires Lives(env, w.tick, w.tick + k)
    requires env.throws(w.tick) == thrown && if thrown then k == 1 else env.dies(w.tick + k)
    ensures var (w', receipt) := Execute(env, w, node, grant);
            && ExecuteLeft(env, w, node, grant.body.grantId, w', k)
            && (w'.alive <==> k == 3) && (receipt.Some? <==> k == 3)
            && (k == 3 ==> w'.tick == w.tick + 3 && receipt.value.stepId == grant.body.stepId)
  {
  }

  // ----- what the next resume does -----

  /** An undisturbed dispatch of a step, and the point at which it is cut. */
  ghost predicate Cuttable(env: Env, f: Frame, node: Node, k: nat, thrown: bool) {
    && Clocked(env) && FrameOk(env, f) && !f.Stopped()
    && node in f.w.ledger.graph && Runnable(f.m, node)
    && NodeFits(f.w.ledger, node) && Prompt(env, f.w.tick)
    && (node.cell == Elevated ==> node.id in f.w.ledger.approvals)
    && k <= 5 && CutAt(env, f.w.tick, k, thrown)
  }

  /** A completed recovery requeues the cut step unless its grant was consumed, whatever its replay class. */
  lemma CutRequeues(env: Env, env': Env, f: Frame, node: Node, k: nat, thrown: bool)
    requires Cuttable(env, f, node, k, thrown)
    requires RecoverRun(env', Begin(Dispatch(env, f, node).w)).alive
    ensures var after := RecoverRun(env', Begin(Dispatch(env, f, node).w)).ledger.manifest;
            && node.id in after.steps
            && if k <= 4 then after.steps[node.id].state == StepState.Pending
               else Terminal(after.steps[node.id].state)
  {
    DispatchCut(env, f, node, k, thrown);
    DispatchKeeps(env, f, node);
    var cut := Dispatch(env, f, node).w;
    BeginKeeps(env, cut);
    RecoverDecides(env, env', Begin(cut), node);
    if k >= 2 { RunningDecides(cut.ledger, node); }
  }

  /** The next process's clock is not behind. */
  ghost predicate ClockGoesOn(env: Env, env': Env) {
    forall t: nat {:trigger env'.now(t)} :: env.now(t) <= env'.now(t)
  }

  lemma InvCarries(env: Env, env': Env, w: World)
    requires Inv(env, w) && ClockGoesOn(env, env')
    ensures Inv(env', w)
  {
    assert env.now(w.tick) <= env'.now(w.tick);
  }

  /** Every other step of a cut dispatch is left by recovery as it was. */
  lemma OthersRest(env: Env, env': Env, f: Frame, node: Node, cut: World, k: nat, id: StepId)
    requires FrameOk(env, f) && !f.Stopped() && node.id in f.m.steps && LeftBy(env, f, node, cut, k)
    requires Inv(env, cut) && RecoverRun(env', Begin(cut)).alive && id in f.m.steps && id != node.id
    ensures var after := RecoverRun(env', Begin(cut)).ledger.manifest;
            id in after.steps && after.steps[id] == f.m.steps[id]
  {
    assert id in Ids(cut.ledger.graph);
    var n :| n in cut.ledger.graph && n.id == id;
    BeginKeeps(env, cut);
    RecoverDecides(env, env', Begin(cut), n);
    DecideSettles(cut.ledger, f.m.steps[id], n);
  }

  /** After the cut and the recovery the run can go on, and the step is runnable again unless it finished. */
  lemma CutRecovers(env: Env, env': Env, f: Frame, node: Node, k: nat, thrown: bool)
    requires Cuttable(env, f, node, k, thrown) && Clocked(env') && ClockGoesOn(env, env')
    requires BenignFrom(env', Dispatch(env, f, node).w.tick)
    ensures var r := RecoverRun(env', Begin(Dispatch(env, f, node).w));
            && r.alive && !Refuses(r.ledger.manifest.state) && Inv(env', r)
            && if k <= 4 then Runnable(r.ledger.manifest, node)
               else node.id in r.ledger.manifest.steps && Terminal(r.ledger.manifest.steps[node.id].state)
  {
    var cut := Dispatch(env, f, node).w;
    DispatchKeeps(env, f, node);
    DispatchCut(env, f, node, k, thrown);
    BeginKeeps(env, cut);
    InvCarries(env, env', Begin(cut));
    RecoverCompletes(env', Begin(cut));
    RecoverKeeps(env', Begin(cut));
    CutRequeues(env, env', f, node, k, thrown);
    var m := RecoverRun(env', Begin(cut)).ledger.manifest;
    forall id | id in f.m.steps && id != node.id ensures id in m.steps && m.steps[id] == f.m.steps[id] {
      OthersRest(env, env', f, node, cut, k, id);
    }
    RestGoesOn(f.m, m, node);
  }

  /** When only one step of a calm manifest changed, and recovery did not quarantine it, the run is not refused. */
  lemma RestGoesOn(m: Manifest, m': Manifest, node: Node)
    requires Calm(m) && Runnable(m, node) && m'.steps.Keys == m.steps.Keys
    requires forall id | id in m.steps && id != node.id :: id in m'.steps && m'.steps[id] == m.steps[id]
    requires Recovered(m') && Agreement(m')
    requires node.id in m'.steps && m'.steps[node.id].state != StepState.Quarantined
    ensures !Refuses(m'.state)
    ensures m'.steps[node.id].state == StepState.Pending ==> Runnable(m', node)
  {
  }

  /** From w to w' some handler call was for this node. */
  ghost predicate CalledSince(w: World, w': World, node: Node) {
    exists i {:trigger w'.execs[i]} :: |w.execs| <= i < |w'.execs| && w'.execs[i].node == node
  }

  lemma {:induction false} NodesAt(execs: seq<Execution>)
    ensures |Nodes(execs)| == |execs|
    ensures forall i | 0 <= i < |execs| :: Nodes(execs)[i] == execs[i].node
    decreases |execs|
  {
    if execs != [] { NodesAt(execs[..|execs| - 1]); }
  }

  /** A favourable resume of a repaired run calls a handler for every runnable step. */
  lemma RunnableIsCalled(env: Env, w: World, node: Node)
    requires Favourable(env, w) && w.ledger.manifest.steps.Keys == Ids(w.ledger.graph)
    requires node in w.ledger.graph && Runnable(w.ledger.manifest, node)
    ensures CalledSince(w, RunLoop(env, Persist(env, w, w.ledger.manifest.(state := RunState.Running), false)).w, node)
  {
    var f := Persist(env, w, w.ledger.manifest.(state := RunState.Running), false);
    var batch := NextRunnable(f.w.ledger.graph, f.m);
    assert Runnable(f.m, node) && node in batch;
    StaysFavourable(env, w, f.w);
    forall n | n in f.w.ledger.graph ensures n.id in f.m.steps {
      assert n.id in Ids(f.w.ledger.graph);
    }
    forall i | 0 <= i < |batch| ensures batch[i] in f.w.ledger.graph && batch[i].id in f.m.steps {
      assert batch[i] in batch;
    }
    BatchRuns(env, f, batch);
    LoopGoesOn(env, f);
    CallInBatch(w, RunBatch(env, f, batch).w, RunLoop(env, f).w, batch, node);
  }

  lemma CallInBatch(w: World, g: World, w': World, batch: seq<Node>, node: Node)
    requires Nodes(g.execs) == Nodes(w.execs) + batch && g.execs <= w'.execs && node in batch
    ensures CalledSince(w, w', node)
  {
    NodesAt(w.execs);
    NodesAt(g.execs);
    var j :| 0 <= j < |batch| && batch[j] == node;
    var i := |w.execs| + j;
    assert Nodes(g.execs)[i] == node;
    assert w'.execs[i].node == node;
  }

  /** A resume of a repaired run never calls a handler for a finished step. */
  lemma FinishedIsNotCalled(env: Env, w: World, node: Node)
    requires node.id in w.ledger.manifest.steps && Terminal(w.ledger.manifest.steps[node.id].state)
    ensures !CalledSince(w, RunLoop(env, Persist(env, w, w.ledger.manifest.(state := RunState.Running), false)).w, node)
  {
    var f := Persist(env, w, w.ledger.manifest.(state := RunState.Running), false);
    LoopContained(env, f, node.id, w.ledger.manifest.steps[node.id].state);
  }

  /**
    A process dies, or a handler throws, somewhere in a dispatch, and a later resume runs
    undisturbed.  It calls the step's handler again unless the grant had been consumed; so the
    effect happens twice exactly when the cut falls between the effect and the consumption of
    the grant.  The replay class plays no part.
  */
  lemma RepeatedExactly(env: Env, env': Env, f: Frame, node: Node, k: nat, thrown: bool)
    requires Cuttable(env, f, node, k, thrown) && Clocked(env') && ClockGoesOn(env, env')
    requires Favourable(env', Begin(Dispatch(env, f, node).w))
    ensures var cut := Dispatch(env, f, node).w;
            var again := Resume(env', cut).w;
            && (CalledSince(cut, again, node) <==> k <= 4)
            && (CalledSince(f.w, cut, node) && CalledSince(cut, again, node) <==> 3 <= k <= 4)
  {
    var cut := Dispatch(env, f, node).w;
    DispatchCut(env, f, node, k, thrown);
    CutRecovers(env, env', f, node, k, thrown);
    var repaired := RecoverRun(env', Begin(cut));
    RecoverBasis(env', Begin(cut));
    RecoverCompletes(env', Begin(cut)) by {
      DispatchKeeps(env, f, node);
      BeginKeeps(env, cut);
      InvCarries(env, env', Begin(cut));
    }
    StaysFavourable(env', Begin(cut), repaired);
    assert Repaired(env', cut) == repaired;
    ResumesByLoop(env', cut, repaired);
    if k <= 4 {
      RunnableIsCalled(env', repaired, node);
    } else {
      FinishedIsNotCalled(env', repaired, node);
    }
  }

  // ----- every cut happens, for every replay class -----

  /** The environment of the witness: a clock that counts steps, handlers that succeed, one death or one exception. */
  function Counting(dies: int, throws: int): Env {
    Env(t => t == dies, t => t == throws, (t, id) => true, t => t, 3)
  }

  function LoneNode(replayClass: ReplayClass): Node {
    Node("note", Session, "session-bridge-v1", "session_note", [], Obj([]), HashJson(Obj([])), replayClass)
  }

  lemma LoneIsWellFormed(n: Node)
    requires n.dependsOn == [] && n.payloadHash == HashJson(n.payload)
    ensures WellFormed([n])
  {
    assert Ranked([n], map[n.id := 0]);
  }

  lemma LoneIsRunnable(env: Env, n: Node)
    requires Clocked(env) && !env.dies(0) && n.dependsOn == [] && n.payloadHash == HashJson(n.payload)
    ensures var f := Entered(env, Prepared([n], Digest(""), false, 0));
            && FrameOk(env, f) && !f.Stopped() && f.w.tick == 1
            && f.w.ledger.graph == [n] && f.w.ledger.approvals == map[] && Runnable(f.m, n)
  {
    LoneIsWellFormed(n);
    var w := Prepared([n], Digest(""), false, 0);
    PreparedKeeps(env, [n], Digest(""), false, 0);
    RunningKeeps(env, w);
    assert w.ledger.manifest.steps[n.id] == FreshStep();
    var f := Entered(env, w);
    assert f == Persist(env, w, w.ledger.manifest.(state := RunState.Running), false);
  }

  /** What `RepeatedExactly` assumes holds of a one-step run, for each cut and each replay class. */
  lemma CutHappens(k: nat, thrown: bool, replayClass: ReplayClass)
    returns (env: Env, env': Env, f: Frame, node: Node)
    requires k <= 5 && (thrown ==> k == 3)
    ensures node.replayClass == replayClass
    ensures Cuttable(env, f, node, k, thrown) && Clocked(env') && ClockGoesOn(env, env')
    ensures Favourable(env', Begin(Dispatch(env, f, node).w))
  {
    node := LoneNode(replayClass);
    env := if thrown then Counting(-1, 3) else Counting(1 + k, -1);
    env' := Counting(-1, -1);
    CountingCuts(k, thrown);
    f := LoneIsCuttable(env, node, k, thrown);
    CutIsFavourable(env, f, node, k, thrown);
  }

  lemma CutIsFavourable(env: Env, f: Frame, n: Node, k: nat, thrown: bool)
    requires Cuttable(env, f, n, k, thrown)
    requires f.w.ledger.graph == [n] && f.w.ledger.approvals == map[] && n.cell != Elevated
    ensures Favourable(Counting(-1, -1), Begin(Dispatch(env, f, n).w))
  {
    DispatchCut(env, f, n, k, thrown);
    var cut := Begin(Dispatch(env, f, n).w);
    LoneFits(cut, n);
    CountingIsFavourable(cut);
  }

  lemma CountingCuts(k: nat, thrown: bool)
    requires k <= 5 && (thrown ==> k == 3)
    ensures var env := if thrown then Counting(-1, 3) else Counting(1 + k, -1);
            && Clocked(env) && ClockGoesOn(env, Counting(-1, -1)) && Clocked(Counting(-1, -1))
            && !env.dies(0) && CutAt(env, 1, k, thrown) && Prompt(env, 1)
  {
  }

  lemma LoneIsCuttable(env: Env, n: Node, k: nat, thrown: bool) returns (f: Frame)
    requires Clocked(env) && !env.dies(0) && CutAt(env, 1, k, thrown) && Prompt(env, 1) && k <= 5
    requires n.cell != Elevated && n.dependsOn == [] && n.payloadHash == HashJson(n.payload)
    ensures Cuttable(env, f, n, k, thrown) && f.w.ledger.graph == [n] && f.w.ledger.approvals == map[]
  {
    f := Entered(env, Prepared([n], Digest(""), false, 0));
    LoneIsRunnable(env, n);
    LoneFits(f.w, n);
  }

  lemma LoneFits(w: World, n: Node)
    requires w.ledger.graph == [n] && w.ledger.approvals == map[]
    requires n.cell != Elevated && n.payloadHash == HashJson(n.payload)
    ensures NodeFits(w.ledger, n) && AllFit(w.ledger)
    ensures forall k | k in w.ledger.graph :: k.cell != Elevated
  {
  }

  lemma CountingIsFavourable(w: World)
    requires AllFit(w.ledger) && w.alive && forall n | n in w.ledger.graph :: n.cell != Elevated
    ensures Favourable(Counting(-1, -1), w)
  {
    assert forall t: nat {:trigger Prompt(Counting(-1, -1), t)} :: Prompt(Counting(-1, -1), t);
  }

  /** A step that must be reviewed before replay has its effect twice, without review. */
  lemma ReviewStepRepeats() returns (env: Env, env': Env, f: Frame, node: Node)
    ensures node.replayClass == ReviewBeforeReplay
    ensures var cut := Dispatch(env, f, node).w;
            CalledSince(f.w, cut, node) && CalledSince(cut, Resume(env', cut).w, node)
  {
    env, env', f, node := CutHappens(4, false, ReviewBeforeReplay);
    RepeatedExactly(env, env', f, node, 4, false);
  }
}
