/**
  Approving a finished step keeps its receipt id.  A crash in the next dispatch of the step
  then lets recovery take the old receipt for the new one.
*/
module OldReceipt {
  import opened Base
  import opened Hashing
  import opened Records
  import opened Bridge
  import opened Recovery
  import opened Protocol
  import opened Invariant
  import opened Reachability
  import opened Approvals
  import opened Completion
  import opened SingleUse
  import opened RecoveryLaws
  import opened Quarantine
  import opened WaveOrder
  import opened Resumption
  import opened Interrupted
  import opened Discipline

  /** The step has a receipt of its own on file. */
  ghost predicate Receipted(l: Ledger, m: Manifest, id: StepId, r: ReceiptId) {
    && id in m.steps && m.steps[id].receiptId == Some(r)
    && r in l.receipts && l.receipts[r].receiptId == r
  }

  /** A dispatch of a step that still names an old receipt, cut after the step was stored as running. */
  ghost predicate CutWithReceipt(env: Env, f: Frame, n: Node, k: nat, thrown: bool, r: ReceiptId) {
    && !f.Stopped() && f.m == f.w.ledger.manifest && Receipted(f.w.ledger, f.m, n.id, r)
    && UniqueIds(f.w.ledger.graph) && n in f.w.ledger.graph && Filed(f.w.ledger) && r < f.w.tick
    && NodeFits(f.w.ledger, n) && Prompt(env, f.w.tick)
    && (n.cell == Elevated ==> n.id in f.w.ledger.approvals)
    && 2 <= k <= 5 && CutAt(env, f.w.tick, k, thrown)
  }

  /** From m to m' the running step took the result of receipt r, and no settled step moved. */
  ghost predicate TookReceipt(l: Ledger, m: Manifest, m': Manifest, id: StepId, r: ReceiptId)
    requires r in l.receipts
  {
    && m'.steps.Keys == m.steps.Keys
    && id in m'.steps && m'.steps[id].state == ReceiptState(l.receipts[r]) && m'.steps[id].receiptId == Some(r)
    && forall k {:trigger m.steps[k]} | k in m.steps && k != id && Settled(m.steps[k].state) ::
         k in m'.steps && m'.steps[k] == m.steps[k]
  }

  /** A completed recovery settles a running step that names a receipt on file, whatever its grant. */
  lemma RunningTakesReceipt(env: Env, w: World, n: Node, r: ReceiptId)
    requires Filed(w.ledger) && UniqueIds(w.ledger.graph) && n in w.ledger.graph
    requires Receipted(w.ledger, w.ledger.manifest, n.id, r)
    requires w.ledger.manifest.steps[n.id].state == StepState.Running && RecoverRun(env, w).alive
    ensures TookReceipt(w.ledger, w.ledger.manifest, RecoverRun(env, w).ledger.manifest, n.id, r)
  {
    var l := w.ledger;
    forall m | m in l.graph && m.id == n.id ensures m == n {
      SameNode(l.graph, m, n);
    }
    RecoverIsRepair(env, w);
    RecoverStepsKeys(env, w, l.manifest, l.graph);
    RepairDecides(l, l.manifest, l.graph, n);
    forall id | id in l.manifest.steps && Settled(l.manifest.steps[id].state)
      ensures var m := RepairAll(l, l.manifest, l.graph); id in m.steps && m.steps[id] == l.manifest.steps[id] {
      RepairKeepsSettled(l, l.manifest, l.graph, id);
    }
  }

  /** The cut leaves the old receipt in place. */
  lemma CutKeepsReceipt(env: Env, f: Frame, n: Node, cut: World, k: nat, r: ReceiptId)
    requires Receipted(f.w.ledger, f.m, n.id, r) && Filed(f.w.ledger) && r < f.w.tick && 2 <= k
    requires LeftBy(env, f, n, cut, k)
    ensures Filed(cut.ledger) && Receipted(cut.ledger, cut.ledger.manifest, n.id, r)
    ensures cut.ledger.receipts[r] == f.w.ledger.receipts[r]
    ensures cut.ledger.manifest.steps[n.id].state == StepState.Running
    ensures cut.ledger.manifest.steps.Keys == f.m.steps.Keys
    ensures forall id | id in f.m.steps && id != n.id ::
              id in cut.ledger.manifest.steps && cut.ledger.manifest.steps[id] == f.m.steps[id]
  {
    forall g | g in cut.ledger.grants ensures cut.ledger.grants[g].grant.body.grantId == g {
      if g in f.w.ledger.grants { assert f.w.ledger.grants[g].grant.body.grantId == g; }
    }
  }

  /** Recovery settles the step from the old receipt, whether or not its handler was called again. */
  lemma OldReceiptSettles(env: Env, env': Env, f: Frame, n: Node, k: nat, thrown: bool, r: ReceiptId)
    requires CutWithReceipt(env, f, n, k, thrown, r)
    requires RecoverRun(env', Begin(Dispatch(env, f, n).w)).alive
    ensures var cut := Dispatch(env, f, n).w;
            var after := RecoverRun(env', Begin(cut)).ledger.manifest;
            && !cut.alive && Filed(cut.ledger) && (cut.execs == f.w.execs <==> k == 2)
            && TookReceipt(f.w.ledger, f.m, after, n.id, r)
  {
    DispatchCut(env, f, n, k, thrown);
    var cut := Dispatch(env, f, n).w;
    CutKeepsReceipt(env, f, n, cut, k, r);
    RunningTakesReceipt(env', Begin(cut), n, r);
    TookFromCut(f.w.ledger, f.m, cut.ledger, RecoverRun(env', Begin(cut)).ledger.manifest, n.id, r);
  }

  lemma TookFromCut(l: Ledger, m: Manifest, l': Ledger, m': Manifest, id: StepId, r: ReceiptId)
    requires r in l.receipts && r in l'.receipts && l'.receipts[r] == l.receipts[r]
    requires forall k | k in m.steps && k != id :: k in l'.manifest.steps && l'.manifest.steps[k] == m.steps[k]
    requires l'.manifest.steps.Keys == m.steps.Keys && TookReceipt(l', l'.manifest, m', id, r)
    ensures TookReceipt(l, m, m', id, r)
  {
    forall k | k in m.steps && k != id && Settled(m.steps[k].state) ensures k in m'.steps && m'.steps[k] == m.steps[k] {
      assert l'.manifest.steps[k] == m.steps[k];
    }
  }

  /** What an approval of an elevated step leaves when its two writes are made. */
  lemma ApproveWrites(env: Env, w: World, n: Node, approver: string) returns (a: World)
    requires UniqueIds(w.ledger.graph) && n in w.ledger.graph && n.cell == Elevated && n.id in w.ledger.manifest.steps
    requires Lives(env, w.tick, w.tick + 2) && n.payloadHash == HashJson(n.payload) && LocalTransport(n)
    ensures a == Approve(env, w, n.id, approver)
    ensures a.alive && a.tick == w.tick + 2 && a.execs == w.execs
    ensures a.ledger == w.ledger.(approvals := a.ledger.approvals, manifest := a.ledger.manifest)
    ensures n.id in a.ledger.approvals && NodeFits(a.ledger, n)
    ensures a.ledger.manifest.state == Reopened(w.ledger.manifest, n.id).state
    ensures a.ledger.manifest.steps == Reopened(w.ledger.manifest, n.id).steps
  {
    FoundIs(w.ledger.graph, n);
    a := Approve(env, w, n.id, approver);
  }

  /** A resume whose first and only runnable step is cut stops with that dispatch. */
  lemma ResumeIsCut(env: Env, w: World, n: Node) returns (f: Frame)
    requires w.alive && w.ledger.manifest.state != RunState.Running && !Refuses(w.ledger.manifest.state)
    requires !env.dies(w.tick)
    requires NextRunnable(w.ledger.graph, w.ledger.manifest) == [n] && Tracked(w.ledger.graph, w.ledger.manifest)
    ensures !f.Stopped() && f.m == f.w.ledger.manifest && f.m.steps == w.ledger.manifest.steps
    ensures f.w.tick == w.tick + 1 && f.w.execs == w.execs && f.w.ledger == w.ledger.(manifest := f.m)
    ensures !Dispatch(env, f, n).w.alive ==> Resume(env, w).w == Dispatch(env, f, n).w
  {
    f := Entered(env, w);
    NextSameSteps(w.ledger.graph, w.ledger.manifest, f.m);
    ResumesByLoop(env, w, w);
    var g := Dispatch(env, f, n);
    if !g.w.alive {
      assert RunBatch(env, f, [n]) == g;
    }
  }

  /**
    A finished step is approved again, for example to repeat it, and the next resume dies with
    the step stored as running.  Recovery then takes the receipt that the approval left in
    place for the new run's: the run is stored as succeeded, although at the first of these
    cuts the handler was not called again.
  */
  lemma OldReceiptWins(env: Env, env': Env, graph: seq<Node>, w: World, n: Node, approver: string, k: nat, thrown: bool)
    requires WellFormed(graph) && Reachable(graph, w)
    requires w.ledger.manifest.state == RunState.Succeeded
    requires n in graph && n.cell == Elevated && LocalTransport(n)
    requires Lives(env, w.tick, w.tick + 3) && Prompt(env, w.tick + 3)
    requires 2 <= k <= 5 && CutAt(env, w.tick + 3, k, thrown)
    requires !env'.dies(Resume(env, Approve(env, w, n.id, approver)).w.tick)
    ensures var cut := Resume(env, Approve(env, w, n.id, approver)).w;
            var after := RecoverRun(env', Begin(cut)).ledger.manifest;
            && !cut.alive && (cut.execs == w.execs <==> k == 2)
            && RecoverRun(env', Begin(cut)).alive
            && after.state == RunState.Succeeded && AllSucceeded(after)
            && n.id in after.steps && n.id in w.ledger.manifest.steps
            && after.steps[n.id].receiptId == w.ledger.manifest.steps[n.id].receiptId
  {
    var env0 :| Clocked(env0) && Reached(env0, graph, w);
    ReachedInv(env0, graph, w);
    InvFiled(env0, w);
    assert n.id in Ids(graph);
    var r := SucceededReceipt(w.ledger, n.id);
    var f := ReapprovedReenters(env, w, n, approver, r);
    ReenteredIsCut(env, env', w, f, n, k, thrown, r);
  }

  /** The frame in which a re-approved step of a succeeded run is dispatched. */
  ghost predicate Reentered(env: Env, w: World, f: Frame, n: Node, r: ReceiptId) {
    && !f.Stopped() && f.m == f.w.ledger.manifest && Receipted(f.w.ledger, f.m, n.id, r)
    && UniqueIds(f.w.ledger.graph) && n in f.w.ledger.graph && Filed(f.w.ledger) && r < f.w.tick
    && NodeFits(f.w.ledger, n) && n.id in f.w.ledger.approvals
    && f.w.tick == w.tick + 3 && f.w.execs == w.execs && f.w.ledger.receipts[r].ok
    && OnlyPending(f.w.ledger.graph, f.m, n)
  }

  lemma ReapprovedReenters(env: Env, w: World, n: Node, approver: string, r: ReceiptId) returns (f: Frame)
    requires WellFormed(w.ledger.graph) && n in w.ledger.graph && n.cell == Elevated && LocalTransport(n)
    requires w.ledger.manifest.steps.Keys == Ids(w.ledger.graph) && AllSucceeded(w.ledger.manifest)
    requires w.ledger.manifest.state == RunState.Succeeded && Filed(w.ledger) && r < w.tick
    requires Receipted(w.ledger, w.ledger.manifest, n.id, r) && w.ledger.receipts[r].ok
    requires Lives(env, w.tick, w.tick + 3)
    ensures Reentered(env, w, f, n, r)
    ensures !Dispatch(env, f, n).w.alive ==> Resume(env, Approve(env, w, n.id, approver)).w == Dispatch(env, f, n).w
  {
    assert n.payloadHash == HashJson(n.payload);
    var a := ApproveWrites(env, w, n, approver);
    f := ReentersFrom(env, w, a, n, r);
  }

  /** A succeeded run in which one step was approved again. */
  ghost predicate Reapproved(w: World, a: World, n: Node, r: ReceiptId) {
    && WellFormed(w.ledger.graph) && n in w.ledger.graph && Filed(w.ledger) && r < w.tick
    && w.ledger.manifest.steps.Keys == Ids(w.ledger.graph) && AllSucceeded(w.ledger.manifest)
    && w.ledger.manifest.state == RunState.Succeeded
    && Receipted(w.ledger, w.ledger.manifest, n.id, r) && w.ledger.receipts[r].ok
    && a.alive && a.tick == w.tick + 2 && a.execs == w.execs
    && a.ledger == w.ledger.(approvals := a.ledger.approvals, manifest := a.ledger.manifest)
    && n.id in a.ledger.approvals && NodeFits(a.ledger, n)
    && a.ledger.manifest.state == RunState.Succeeded
    && a.ledger.manifest.steps == Reopened(w.ledger.manifest, n.id).steps
  }

  lemma ReentersFrom(env: Env, w: World, a: World, n: Node, r: ReceiptId) returns (f: Frame)
    requires Reapproved(w, a, n, r) && !env.dies(a.tick)
    ensures Reentered(env, w, f, n, r)
    ensures !Dispatch(env, f, n).w.alive ==> Resume(env, a).w == Dispatch(env, f, n).w
  {
    ReapprovedOnly(w.ledger, a.ledger.manifest, n);
    f := ResumeIsCut(env, a, n);
    ReentersBy(env, w, a, f, n, r);
  }

  lemma ReapprovedOnly(l: Ledger, m: Manifest, n: Node)
    requires WellFormed(l.graph) && n in l.graph && l.manifest.steps.Keys == Ids(l.graph) && AllSucceeded(l.manifest)
    requires n.id in l.manifest.steps && m.steps == Reopened(l.manifest, n.id).steps
    ensures OnlyPending(l.graph, m, n)
    ensures NextRunnable(l.graph, m) == [n] && Tracked(l.graph, m)
  {
    OnlyRunnable(l.graph, m, n);
  }

  lemma ReentersBy(env: Env, w: World, a: World, f: Frame, n: Node, r: ReceiptId)
    requires Reapproved(w, a, n, r)
    requires OnlyPending(w.ledger.graph, a.ledger.manifest, n)
    requires !f.Stopped() && f.m == f.w.ledger.manifest && f.m.steps == a.ledger.manifest.steps
    requires f.w.tick == a.tick + 1 && f.w.execs == a.execs && f.w.ledger == a.ledger.(manifest := f.m)
    ensures Reentered(env, w, f, n, r)
  {
    FilesCarry(w.ledger, f.w.ledger);
  }

  lemma ReenteredCuts(env: Env, w: World, f: Frame, n: Node, k: nat, thrown: bool, r: ReceiptId)
    requires Reentered(env, w, f, n, r)
    requires Prompt(env, w.tick + 3) && 2 <= k <= 5 && CutAt(env, w.tick + 3, k, thrown)
    ensures CutWithReceipt(env, f, n, k, thrown, r) && LeftBy(env, f, n, Dispatch(env, f, n).w, k)
  {
    DispatchCut(env, f, n, k, thrown);
  }

  lemma ReenteredIsCut(env: Env, env': Env, w: World, f: Frame, n: Node, k: nat, thrown: bool, r: ReceiptId)
    requires Reentered(env, w, f, n, r)
    requires Prompt(env, w.tick + 3) && 2 <= k <= 5 && CutAt(env, w.tick + 3, k, thrown)
    ensures !Dispatch(env, f, n).w.alive
    ensures !env'.dies(Dispatch(env, f, n).w.tick) ==>
              var cut := Dispatch(env, f, n).w;
              var after := RecoverRun(env', Begin(cut)).ledger.manifest;
              && RecoverRun(env', Begin(cut)).alive && (cut.execs == w.execs <==> k == 2)
              && after.state == RunState.Succeeded && AllSucceeded(after)
              && n.id in after.steps && after.steps[n.id].receiptId == Some(r)
  {
    ReenteredCuts(env, w, f, n, k, thrown, r);
    if !env'.dies(Dispatch(env, f, n).w.tick) {
      CutRecoversQuietly(env, env', f, n, Dispatch(env, f, n).w, k, r);
      CutThenSucceeds(env, env', f, n, k, thrown, r);
    }
  }

  lemma FilesCarry(l: Ledger, l': Ledger)
    requires l' == l.(approvals := l'.approvals, manifest := l'.manifest) && Filed(l)
    ensures Filed(l')
  {
  }

  /** A recovery that finds no unused grant writes nothing before the manifest. */
  lemma {:induction false} QuietRecovery(env: Env, w: World, m: Manifest, nodes: seq<Node>)
    requires w.alive
    requires forall n | n in nodes :: n.id in m.steps && Decide(w.ledger, m.steps[n.id], n).Becomes?
    ensures RecoverSteps(env, w, m, nodes).0 == w
    decreases |nodes|
  {
    if nodes != [] {
      var d := Decide(w.ledger, m.steps[nodes[0].id], nodes[0]);
      var m' := m.(steps := m.steps[nodes[0].id := d.step]);
      DecideSettles(w.ledger, m.steps[nodes[0].id], nodes[0]);
      forall n | n in nodes[1..] ensures n.id in m'.steps && Decide(w.ledger, m'.steps[n.id], n).Becomes? {
        if n.id == nodes[0].id { DecideSettles(w.ledger, d.step, n); }
      }
      QuietRecovery(env, w, m', nodes[1..]);
    }
  }

  lemma CutRecoversQuietly(env: Env, env': Env, f: Frame, n: Node, cut: World, k: nat, r: ReceiptId)
    requires Receipted(f.w.ledger, f.m, n.id, r) && Filed(f.w.ledger) && r < f.w.tick && 2 <= k
    requires LeftBy(env, f, n, cut, k) && OnlyPending(f.w.ledger.graph, f.m, n)
    requires UniqueIds(f.w.ledger.graph) && !env'.dies(cut.tick)
    ensures RecoverRun(env', Begin(cut)).alive
  {
    CutKeepsReceipt(env, f, n, cut, k, r);
    var l := cut.ledger;
    forall m | m in l.graph ensures m.id in l.manifest.steps && Decide(l, l.manifest.steps[m.id], m).Becomes? {
      assert m.id in Ids(l.graph);
      if m.id != n.id {
        assert l.manifest.steps[m.id] == f.m.steps[m.id];
        DecideSettles(l, l.manifest.steps[m.id], m);
      }
    }
    QuietRecovery(env', Begin(cut), l.manifest, l.graph);
  }

  lemma CutThenSucceeds(env: Env, env': Env, f: Frame, n: Node, k: nat, thrown: bool, r: ReceiptId)
    requires CutWithReceipt(env, f, n, k, thrown, r) && f.w.ledger.receipts[r].ok
    requires OnlyPending(f.w.ledger.graph, f.m, n)
    requires RecoverRun(env', Begin(Dispatch(env, f, n).w)).alive
    ensures var cut := Dispatch(env, f, n).w;
            var after := RecoverRun(env', Begin(cut)).ledger.manifest;
            && !cut.alive && (cut.execs == f.w.execs <==> k == 2)
            && after.state == RunState.Succeeded && AllSucceeded(after)
            && n.id in after.steps && after.steps[n.id].receiptId == Some(r)
  {
    OldReceiptSettles(env, env', f, n, k, thrown, r);
    var cut := Dispatch(env, f, n).w;
    TookSucceeds(f.w.ledger, f.m, RecoverRun(env', Begin(cut)).ledger.manifest, n.id, r);
    RecoveredSucceeds(env', Begin(cut));
  }

  lemma TookSucceeds(l: Ledger, m: Manifest, m': Manifest, id: StepId, r: ReceiptId)
    requires r in l.receipts && l.receipts[r].ok && TookReceipt(l, m, m', id, r)
    requires forall k | k in m.steps && k != id :: m.steps[k].state == StepState.Succeeded
    ensures AllSucceeded(m')
  {
  }

  lemma SucceededReceipt(l: Ledger, id: StepId) returns (r: ReceiptId)
    requires RecordsOk(l, l.manifest.steps) && id in l.manifest.steps
    requires l.manifest.steps[id].state == StepState.Succeeded
    ensures Receipted(l, l.manifest, id, r) && l.receipts[r].ok
  {
    var step := l.manifest.steps[id];
    assert StepOk(l, id, step);
    r := step.receiptId.value;
    assert ReceiptOk(l, l.manifest.steps, r);
  }

  /** A completed recovery after which every step succeeded stores the run as succeeded. */
  lemma RecoveredSucceeds(env: Env, w: World)
    requires Filed(w.ledger) && RecoverRun(env, w).alive && AllSucceeded(RecoverRun(env, w).ledger.manifest)
    ensures RecoverRun(env, w).ledger.manifest.state == RunState.Succeeded
  {
    RecoverIsRepair(env, w);
    var m := RepairAll(w.ledger, w.ledger.manifest, w.ledger.graph);
    assert AllSucceeded(m);
  }

  /** It happens in some run of every graph with a local elevated step, at each of these cuts. */
  lemma OldReceiptHappens(graph: seq<Node>, n: Node, k: nat, thrown: bool) returns (env: Env, env': Env, w: World)
    requires WellFormed(graph) && AllLocal(graph) && n in graph && n.cell == Elevated
    requires 2 <= k <= 5 && (thrown ==> k == 3)
    ensures Reachable(graph, w)
    ensures var cut := Resume(env, Approve(env, w, n.id, OPERATOR)).w;
            var after := RecoverRun(env', Begin(cut)).ledger.manifest;
            && !cut.alive && (cut.execs == w.execs <==> k == 2)
            && after.state == RunState.Succeeded && AllSucceeded(after)
  {
    var env0, ops := EachOnce(graph);
    w := Run(env0, Prepared(graph, Digest(""), false, 0), ops);
    env := if thrown then Counting(-1, w.tick + 5) else Counting(w.tick + 3 + k, -1);
    env' := Counting(-1, -1);
    CountingCutsAt(w.tick, k, thrown);
    OldReceiptWins(env, env', graph, w, n, OPERATOR, k, thrown);
  }

  lemma CountingCutsAt(t: nat, k: nat, thrown: bool)
    requires 2 <= k <= 5 && (thrown ==> k == 3)
    ensures var env := if thrown then Counting(-1, t + 5) else Counting(t + 3 + k, -1);
            Lives(env, t, t + 3) && Prompt(env, t + 3) && CutAt(env, t + 3, k, thrown)
  {
  }
}
