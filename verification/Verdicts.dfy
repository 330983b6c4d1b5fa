/** Which run state a completed recovery and a returned resume store, read off the steps they store. */
module Verdicts {
  import opened Records
  import opened Recovery
  import opened Protocol
  import opened Invariant
  import opened Reachability
  import opened Approvals
  import opened Completion
  import opened RecoveryLaws
  import opened Interrupted
  import opened Resumption
  import opened Dispatches

  // ----- recovery -----

  /** The run state follows from the steps, the most pressing first. */
  ghost predicate StateFollows(m: Manifest) {
    var quarantined := SomeStep(m, StepState.Quarantined);
    var awaiting := SomeStep(m, StepState.AwaitingApproval);
    var failed := SomeStep(m, StepState.Failed);
    && (m.state == RunState.Quarantined <==> quarantined)
    && (m.state == RunState.AwaitingApproval <==> awaiting && !quarantined)
    && (m.state == RunState.Failed <==> failed && !quarantined && !awaiting)
    && (m.state == RunState.Ready <==> SomeStep(m, StepState.Pending) && !quarantined && !awaiting && !failed)
    && (m.state == RunState.Succeeded <==>
          forall id | id in m.steps :: m.steps[id].state == StepState.Succeeded)
  }

  lemma DerivedFollows(m: Manifest, m': Manifest)
    requires m'.steps == m.steps && m'.state == DeriveRunState(m)
    requires forall id | id in m.steps :: Settled(m.steps[id].state) && m.steps[id].state != StepState.Skipped
    ensures StateFollows(m')
  {
    assert forall st :: SomeStep(m, st) == SomeStep(m', st);
    if !AllSucceeded(m) {
      var id :| id in m.steps && m.steps[id].state != StepState.Succeeded;
      assert SomeStep(m, m.steps[id].state);
    }
  }

  /** What a completed recovery of a reachable run stores as the run's state. */
  lemma RecoveredStateFollows(env: Env, graph: seq<Node>, w: World)
    requires Clocked(env) && WellFormed(graph) && Reached(env, graph, w) && RecoverRun(env, Begin(w)).alive
    ensures StateFollows(RecoverRun(env, Begin(w)).ledger.manifest)
  {
    ReachedInv(env, graph, w);
    BeginKeeps(env, w);
    InvFiled(env, Begin(w));
    RecoverKeeps(env, Begin(w));
    RecoverIsRepair(env, Begin(w));
    InvNotSkipped(env, RecoverRun(env, Begin(w)));
    DerivedFollows(RepairAll(w.ledger, w.ledger.manifest, w.ledger.graph), RecoverRun(env, Begin(w)).ledger.manifest);
  }

  lemma InvNotSkipped(env: Env, w: World)
    requires Inv(env, w)
    ensures forall id | id in w.ledger.manifest.steps :: w.ledger.manifest.steps[id].state != StepState.Skipped
  {
    forall id | id in w.ledger.manifest.steps ensures w.ledger.manifest.steps[id].state != StepState.Skipped {
      assert StepOk(w.ledger, id, w.ledger.manifest.steps[id]);
    }
  }

  lemma PausedIsSettled(env: Env, w: World)
    requires Inv(env, w) && w.ledger.manifest.state == RunState.AwaitingApproval
    ensures AllSettled(w.ledger.manifest, w.ledger.graph)
    ensures SomeStep(w.ledger.manifest, StepState.AwaitingApproval)
    ensures !SomeStep(w.ledger.manifest, StepState.Quarantined)
  {
    var m := w.ledger.manifest;
    forall n | n in w.ledger.graph ensures n.id in m.steps && Settled(m.steps[n.id].state) {
      assert n.id in Ids(w.ledger.graph);
      assert StepOk(w.ledger, n.id, m.steps[n.id]);
    }
  }

  /** A run paused for approval stays paused, with every step as it was. */
  lemma PausedStaysPaused(env: Env, graph: seq<Node>, w: World)
    requires Clocked(env) && WellFormed(graph) && Reached(env, graph, w) && RecoverRun(env, Begin(w)).alive
    requires w.ledger.manifest.state == RunState.AwaitingApproval
    ensures var m := RecoverRun(env, Begin(w)).ledger.manifest;
            m.state == RunState.AwaitingApproval && m.steps == w.ledger.manifest.steps
  {
    ReachedInv(env, graph, w);
    PausedIsSettled(env, w);
    SettledUntouched(env, Begin(w), w.ledger.manifest, graph);
    RecoveredStateFollows(env, graph, w);
    var m' := RecoverRun(env, Begin(w)).ledger.manifest;
    SameSome(w.ledger.manifest, m');
  }

  lemma SameSome(m: Manifest, m': Manifest)
    requires m.steps == m'.steps
    ensures forall st :: SomeStep(m, st) == SomeStep(m', st)
  {
  }

  // ----- resume -----

  /** The resume that led from w to w' ended with a handler that reported failure. */
  ghost predicate LastCallFailed(w: World, w': World) {
    && |w.execs| < |w'.execs| && w'.ledger.manifest.state == RunState.Failed
    && var id := w'.execs[|w'.execs| - 1].node.id;
       id in w'.ledger.manifest.steps && w'.ledger.manifest.steps[id].state == StepState.Failed
  }

  /** The resume that led from w to w' ended, and the run waits exactly when a step does. */
  ghost predicate Ended(w: World, w': World) {
    var m := w'.ledger.manifest;
    && (m.state == RunState.AwaitingApproval || m.state == RunState.Succeeded || m.state == RunState.Failed)
    && (!LastCallFailed(w, w') ==>
          (m.state == RunState.AwaitingApproval <==> SomeStep(m, StepState.AwaitingApproval)))
  }

  lemma DispatchEnds(env: Env, f: Frame, node: Node)
    requires BenignFrom(env, f.w.tick) && !f.Stopped()
    requires node.id in f.m.steps && NodeFits(f.w.ledger, node)
    ensures var g := Dispatch(env, f, node);
            g.w.alive && (g.returned ==> Ended(f.w, g.w))
  {
    DispatchWrites(env, f, node);
    DispatchCompletes(env, f, node);
    var m := Dispatch(env, f, node).w.ledger.manifest;
    if node.cell == Elevated && node.id !in f.w.ledger.approvals {
      assert m.steps[node.id].state == StepState.AwaitingApproval;
    }
  }

  lemma EndedEarlier(w: World, v: World, w': World)
    requires Ended(v, w') && w.execs <= v.execs
    ensures Ended(w, w')
  {
  }

  lemma {:induction false} BatchEnds(env: Env, f: Frame, batch: seq<Node>)
    requires BenignFrom(env, f.w.tick) && f.w.alive && !f.returned
    requires forall n {:trigger NodeFits(f.w.ledger, n)} | n in batch :: n.id in f.m.steps && NodeFits(f.w.ledger, n)
    ensures var g := RunBatch(env, f, batch);
            g.returned ==> Ended(f.w, g.w)
    decreases |batch|
  {
    if batch != [] {
      assert NodeFits(f.w.ledger, batch[0]);
      DispatchEnds(env, f, batch[0]);
      DispatchBasis(env, f, batch[0]);
      DispatchTouches(env, f, batch[0]);
      var g := Dispatch(env, f, batch[0]);
      if !g.returned {
        forall n | n in batch[1..] ensures n.id in g.m.steps && NodeFits(g.w.ledger, n) {
          assert NodeFits(f.w.ledger, n);
        }
        BatchEnds(env, g, batch[1..]);
        if RunBatch(env, g, batch[1..]).returned {
          EndedEarlier(f.w, g.w, RunBatch(env, g, batch[1..]).w);
        }
      }
    }
  }

  lemma QuiescentEnds(env: Env, f: Frame)
    requires !f.Stopped() && !env.dies(f.w.tick)
    requires NextRunnable(f.w.ledger.graph, f.m) == [] && Tracked(f.w.ledger.graph, f.m)
    ensures Ended(f.w, RunLoop(env, f).w)
  {
    var m' := RunLoop(env, f).w.ledger.manifest;
    assert m'.steps == f.m.steps;
    assert SomeStep(m', StepState.AwaitingApproval) == SomeStep(f.m, StepState.AwaitingApproval);
  }

  lemma {:induction false} LoopEnds(env: Env, f: Frame)
    requires BenignFrom(env, f.w.tick) && f.w.alive && !f.returned
    requires AllFit(f.w.ledger) && Tracked(f.w.ledger.graph, f.m)
    ensures Ended(f.w, RunLoop(env, f).w)
    decreases |PendingIds(f.m)|
  {
    var batch := NextRunnable(f.w.ledger.graph, f.m);
    if batch == [] {
      QuiescentEnds(env, f);
    } else {
      forall n | n in batch ensures n.id in f.m.steps && NodeFits(f.w.ledger, n) {
        assert n in f.w.ledger.graph;
      }
      BatchCompletes(env, f, batch);
      BatchEnds(env, f, batch);
      BatchBasis(env, f, batch);
      var g := RunBatch(env, f, batch);
      if !g.returned {
        RoundDropsPending(env, f);
        StrictSubsetSmaller(PendingIds(g.m), PendingIds(f.m));
        StillFit(f.w.ledger, g.w.ledger);
        LoopEnds(env, g);
        EndedEarlier(f.w, g.w, RunLoop(env, g).w);
      }
    }
  }

  /**
    What an undisturbed resume of a reachable run stores, unless the repaired run is refused:
    it succeeded exactly when all steps did; and, unless its last handler call failed, it waits
    exactly when a step awaits approval, and failed exactly when one failed and none waits.
  */
  lemma ResumedStateFollows(env: Env, graph: seq<Node>, w: World)
    requires Clocked(env) && WellFormed(graph) && Reached(env, graph, w)
    requires AllLocal(graph) && BenignFrom(env, w.tick)
    requires var state := Repaired(env, w).ledger.manifest.state;
             state != RunState.Quarantined && state != RunState.Cancelled && state != RunState.Rejected
    ensures var w' := Resume(env, w).w;
            var m := w'.ledger.manifest;
            && (m.state == RunState.AwaitingApproval || m.state == RunState.Succeeded || m.state == RunState.Failed)
            && (m.state == RunState.Succeeded <==>
                  forall id | id in m.steps :: m.steps[id].state == StepState.Succeeded)
            && (!LastCallFailed(w, w') ==>
                  && (m.state == RunState.AwaitingApproval <==> SomeStep(m, StepState.AwaitingApproval))
                  && (m.state == RunState.Failed <==>
                        SomeStep(m, StepState.Failed) && !SomeStep(m, StepState.AwaitingApproval)))
  {
    ReachedInv(env, graph, w);
    ReachedFits(env, graph, w);
    RepairedReady(env, w);
    var repaired := Repaired(env, w);
    StillFit(w.ledger, repaired.ledger);
    EnteredEnds(env, repaired);
    ResumesByLoop(env, w, repaired);
    ResumeKeeps(env, w);
    EndedAgrees(w, Resume(env, w).w);
  }

  lemma EnteredEnds(env: Env, w: World)
    requires Clocked(env) && Inv(env, w) && w.alive && BenignFrom(env, w.tick) && AllFit(w.ledger)
    ensures Ended(w, RunLoop(env, Persist(env, w, w.ledger.manifest.(state := RunState.Running), false)).w)
  {
    var f := Persist(env, w, w.ledger.manifest.(state := RunState.Running), false);
    StillFit(w.ledger, f.w.ledger);
    forall n | n in f.w.ledger.graph ensures n.id in f.m.steps {
      assert n.id in Ids(f.w.ledger.graph);
    }
    LoopEnds(env, f);
    EndedEarlier(w, f.w, RunLoop(env, f).w);
  }

  lemma EndedAgrees(w: World, w': World)
    requires Ended(w, w') && Agreement(w'.ledger.manifest)
    ensures var m := w'.ledger.manifest;
            && (m.state == RunState.Succeeded <==>
                  forall id | id in m.steps :: m.steps[id].state == StepState.Succeeded)
            && (!LastCallFailed(w, w') ==>
                  (m.state == RunState.Failed <==>
                     SomeStep(m, StepState.Failed) && !SomeStep(m, StepState.AwaitingApproval)))
  {
  }
}
