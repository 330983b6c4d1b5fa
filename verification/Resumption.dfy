/** What one more resume does, from any reachable state: whether it calls a handler, and which one first. */
module Resumption {
  import opened Records
  import opened Protocol
  import opened Invariant
  import opened Reachability
  import opened Approvals
  import opened Completion

  /** The first runnable step may be dispatched: it needs no approval, or has one. */
  predicate MayDispatch(l: Ledger, batch: seq<Node>) {
    batch != [] && (batch[0].cell == Elevated ==> batch[0].id in l.approvals)
  }

  /** History grew from w to w', starting with a call for this node. */
  ghost predicate CallsFirst(w: World, w': World, node: Node) {
    |w.execs| < |w'.execs| && w.execs <= w'.execs && w'.execs[|w.execs|].node == node
  }

  lemma {:induction false} NextSameSteps(graph: seq<Node>, m: Manifest, m': Manifest)
    requires m.steps == m'.steps
    ensures NextRunnable(graph, m) == NextRunnable(graph, m')
  {
    if graph != [] { NextSameSteps(graph[1..], m, m'); }
  }

  lemma RanOnceCalls(env: Env, f: Frame, node: Node, g: Frame, w': World)
    requires RanOnce(env, f, node, g) && g.w.execs <= w'.execs
    requires node.cell == Elevated ==> node.id in f.w.ledger.approvals
    ensures CallsFirst(f.w, w', node)
  {
  }

  /** The driving loop calls a handler exactly when the first runnable step may be dispatched. */
  lemma LoopCalls(env: Env, f: Frame)
    requires BenignFrom(env, f.w.tick) && !f.Stopped()
    requires AllFit(f.w.ledger) && Tracked(f.w.ledger.graph, f.m)
    ensures var batch := NextRunnable(f.w.ledger.graph, f.m);
            var g := RunLoop(env, f);
            if MayDispatch(f.w.ledger, batch) then CallsFirst(f.w, g.w, batch[0]) else g.w.execs == f.w.execs
  {
    var batch := NextRunnable(f.w.ledger.graph, f.m);
    if batch != [] {
      assert batch[0] in batch && NodeFits(f.w.ledger, batch[0]);
      DispatchCompletes(env, f, batch[0]);
      var g := Dispatch(env, f, batch[0]);
      if MayDispatch(f.w.ledger, batch) {
        BatchBasis(env, g, batch[1..]);
        LoopGoesOn(env, f);
        RanOnceCalls(env, f, batch[0], g, RunLoop(env, f).w);
      } else {
        assert RunBatch(env, f, batch) == g;
      }
    }
  }

  /** After its first batch the loop only adds to history. */
  lemma LoopGoesOn(env: Env, f: Frame)
    requires !f.Stopped() && Tracked(f.w.ledger.graph, f.m)
    requires NextRunnable(f.w.ledger.graph, f.m) != []
    ensures Onward(RunBatch(env, f, NextRunnable(f.w.ledger.graph, f.m)).w, RunLoop(env, f).w)
  {
    var h := RunBatch(env, f, NextRunnable(f.w.ledger.graph, f.m));
    if !h.Stopped() {
      RoundDropsPending(env, f);
      StrictSubsetSmaller(PendingIds(h.m), PendingIds(f.m));
      LoopBasis(env, h);
    }
  }

  /**
    From every reachable state, a resume that nothing interrupts calls a handler exactly when
    the repaired run is not refused, some step is runnable, and the first one has its approval
    if it needs one; it then starts with that step.
  */
  lemma ResumeCallsExactly(env: Env, graph: seq<Node>, w: World)
    requires Clocked(env) && WellFormed(graph) && Reached(env, graph, w)
    requires AllLocal(graph) && BenignFrom(env, w.tick)
    ensures var m := Repaired(env, w).ledger.manifest;
            var batch := NextRunnable(graph, m);
            if && m.state != RunState.Quarantined && m.state != RunState.Cancelled && m.state != RunState.Rejected
               && MayDispatch(w.ledger, batch)
            then CallsFirst(w, Resume(env, w).w, batch[0]) else Resume(env, w).w.execs == w.execs
  {
    ReachedInv(env, graph, w);
    ReachedFits(env, graph, w);
    RepairedReady(env, w);
    var repaired := Repaired(env, w);
    StillFit(w.ledger, repaired.ledger);
    if !Refuses(repaired.ledger.manifest.state) {
      RepairedCalls(env, repaired);
      ResumesByLoop(env, w, repaired);
    } else {
      assert Resume(env, w).w == repaired;
    }
  }

  lemma ResumesByLoop(env: Env, w: World, repaired: World)
    requires repaired == Repaired(env, w) && repaired.alive && !Refuses(repaired.ledger.manifest.state)
    ensures Resume(env, w)
            == RunLoop(env, Persist(env, repaired, repaired.ledger.manifest.(state := RunState.Running), false))
  {
  }

  /** The repair before the loop completes, calls nothing, and keeps what a resume relies on. */
  lemma RepairedReady(env: Env, w: World)
    requires Clocked(env) && Inv(env, w) && BenignFrom(env, w.tick)
    ensures var r := Repaired(env, w);
            && r.alive && w.tick <= r.tick && Inv(env, r) && r.execs == w.execs
            && SameBasis(w.ledger, r.ledger)
            && r.ledger.manifest.state != RunState.Running
  {
    BeginKeeps(env, w);
    if w.ledger.manifest.state == RunState.Running {
      RecoverKeeps(env, Begin(w));
      RecoverCompletes(env, Begin(w));
      RecoverBasis(env, Begin(w));
    }
  }

  lemma RepairedCalls(env: Env, w: World)
    requires Clocked(env) && Inv(env, w) && w.alive && BenignFrom(env, w.tick)
    requires AllFit(w.ledger) && w.ledger.manifest.state != RunState.Running && !Refuses(w.ledger.manifest.state)
    ensures var batch := NextRunnable(w.ledger.graph, w.ledger.manifest);
            var w' := RunLoop(env, Persist(env, w, w.ledger.manifest.(state := RunState.Running), false)).w;
            if MayDispatch(w.ledger, batch) then CallsFirst(w, w', batch[0]) else w'.execs == w.execs
  {
    var m := w.ledger.manifest.(state := RunState.Running);
    var f := Persist(env, w, m, false);
    NextSameSteps(w.ledger.graph, w.ledger.manifest, f.m);
    StillFit(w.ledger, f.w.ledger);
    forall n | n in f.w.ledger.graph ensures n.id in f.m.steps {
      assert n.id in Ids(f.w.ledger.graph);
    }
    LoopCalls(env, f);
  }

  /** In particular a failed run goes on exactly when a step that depends on no failure is still to be run. */
  lemma FailedRunContinues(env: Env, graph: seq<Node>, w: World)
    requires Clocked(env) && WellFormed(graph) && Reached(env, graph, w)
    requires AllLocal(graph) && BenignFrom(env, w.tick)
    requires w.ledger.manifest.state == RunState.Failed
    requires forall n {:trigger n.id in w.ledger.approvals} | n in graph && n.cell == Elevated ::
               n.id in w.ledger.approvals
    ensures |Resume(env, w).w.execs| > |w.execs| <==> NextRunnable(graph, w.ledger.manifest) != []
  {
    ResumeCallsExactly(env, graph, w);
    var batch := NextRunnable(graph, w.ledger.manifest);
    if batch != [] {
      assert batch[0] in batch;
      assert batch[0] in graph;
    }
  }
}
