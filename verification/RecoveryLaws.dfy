/**
  Laws of recovery on any ledger: it is idempotent, it can be restarted after a crash at any
  of its writes, and what it quarantines stays out of every later dispatch.
*/
module RecoveryLaws {
  import opened Records
  import opened Recovery
  import opened Protocol
  import opened SingleUse

  /** Some unused grants of l were retired in l'; nothing else changed. */
  ghost predicate Retired(l: Ledger, l': Ledger) {
    && l' == l.(grants := l'.grants)
    && l'.grants.Keys == l.grants.Keys
    && forall g {:trigger l'.grants[g]} | g in l.grants ::
         || l'.grants[g] == l.grants[g]
         || (&& l.grants[g].state == Issued
             && (l'.grants[g] == l.grants[g].(state := Expired) || l'.grants[g] == l.grants[g].(state := Void)))
  }

  /** What recovery makes of the manifest, read off a fixed ledger: no clock, no order of writes. */
  function RepairAll(l: Ledger, m: Manifest, nodes: seq<Node>): Manifest
    decreases |nodes|
  {
    if nodes == [] then m
    else
      var id := nodes[0].id;
      var m' := if id in m.steps && !Decide(l, m.steps[id], nodes[0]).Throws?
                then m.(steps := m.steps[id := Decide(l, m.steps[id], nodes[0]).step])
                else m;
      RepairAll(l, m', nodes[1..])
  }

  /** Retiring unused grants changes no decision about a step, only who retires the grant. */
  lemma RetiredDecides(l: Ledger, l': Ledger, step: StepManifest, node: Node)
    requires Filed(l) && Retired(l, l')
    ensures var d, d' := Decide(l, step, node), Decide(l', step, node);
            && d.Throws? == d'.Throws?
            && (!d.Throws? ==> d.step == d'.step)
            && (d'.Requeued? ==> d == d' && l'.grants[d.unused] == l.grants[d.unused] && d.unused in l.grants
                                 && l.grants[d.unused].state == Issued)
  {
    if step.grantId.Some? && step.grantId.value in l.grants {
      assert l'.grants[step.grantId.value] == l'.grants[step.grantId.value];
    }
  }

  lemma {:induction false} RetiredRepairs(l: Ledger, l': Ledger, m: Manifest, nodes: seq<Node>)
    requires Filed(l) && Retired(l, l')
    ensures RepairAll(l, m, nodes) == RepairAll(l', m, nodes)
    decreases |nodes|
  {
    if nodes != [] {
      var id := nodes[0].id;
      if id in m.steps {
        RetiredDecides(l, l', m.steps[id], nodes[0]);
      }
      var m' := if id in m.steps && !Decide(l, m.steps[id], nodes[0]).Throws?
                then m.(steps := m.steps[id := Decide(l, m.steps[id], nodes[0]).step])
                else m;
      RetiredRepairs(l, l', m', nodes[1..]);
    }
  }

  /** A recovery in progress over the original ledger l only retires grants. */
  lemma {:induction false} RecoverStepsRepair(env: Env, l: Ledger, w: World, m: Manifest, nodes: seq<Node>)
    requires Filed(l) && Retired(l, w.ledger)
    ensures var (w', m') := RecoverSteps(env, w, m, nodes);
            Retired(l, w'.ledger) && (w'.alive ==> m' == RepairAll(l, m, nodes))
    decreases |nodes|
  {
    if nodes != [] {
      var id := nodes[0].id;
      if w.alive && id in m.steps {
        RetiredDecides(l, w.ledger, m.steps[id], nodes[0]);
      }
      var (w1, m1) := RecoverStep(env, w, m, nodes[0]);
      RecoverStepsRepair(env, l, w1, m1, nodes[1..]);
      if w1.alive {
      } else {
        DeadStays(env, w1, m1, nodes[1..]);
      }
    }
  }

  lemma {:induction false} DeadStays(env: Env, w: World, m: Manifest, nodes: seq<Node>)
    requires !w.alive
    ensures RecoverSteps(env, w, m, nodes) == (w, m)
    decreases |nodes|
  {
    if nodes != [] {
      DeadStays(env, w, m, nodes[1..]);
    }
  }

  /**
    What one recovery does to the files: when it completes, the manifest is the pure repair
    of the ledger it found; when it is cut short, only unused grants were retired.
  */
  lemma RecoverIsRepair(env: Env, w: World)
    requires Filed(w.ledger)
    ensures var w' := RecoverRun(env, w);
            var m := RepairAll(w.ledger, w.ledger.manifest, w.ledger.graph);
            if w'.alive
            then && Retired(w.ledger.(manifest := w'.ledger.manifest), w'.ledger)
                 && w'.ledger.manifest.steps == m.steps && w'.ledger.manifest.state == DeriveRunState(m)
            else Retired(w.ledger, w'.ledger)
  {
    RecoverStepsRepair(env, w.ledger, w, w.ledger.manifest, w.ledger.graph);
  }

  /** The ledger after recoveries that were all cut short, each in a new process. */
  function CutRecoveries(envs: seq<Env>, w: World): World
    decreases |envs|
  {
    if envs == [] then w else CutRecoveries(envs[1..], RecoverRun(envs[0], Begin(w)))
  }

  ghost predicate AllCut(envs: seq<Env>, w: World)
    decreases |envs|
  {
    envs == [] || (var w' := RecoverRun(envs[0], Begin(w)); !w'.alive && AllCut(envs[1..], w'))
  }

  lemma RetiredTwice(l: Ledger, l': Ledger, l'': Ledger)
    requires Retired(l, l') && Retired(l', l'')
    ensures Retired(l, l'')
  {
    forall g | g in l.grants
      ensures || l''.grants[g] == l.grants[g]
              || (&& l.grants[g].state == Issued
                  && (|| l''.grants[g] == l.grants[g].(state := Expired)
                      || l''.grants[g] == l.grants[g].(state := Void))) {
      assert l'.grants[g] == l'.grants[g];
    }
  }

  lemma RetiredFiled(l: Ledger, l': Ledger)
    requires Retired(l, l') && Filed(l)
    ensures Filed(l')
  {
    forall g | g in l'.grants ensures l'.grants[g].grant.body.grantId == g {
      assert l.grants[g].grant.body.grantId == g;
    }
  }

  /** Cut recoveries together only retire unused grants. */
  lemma {:induction false} CutRecoveriesRetire(envs: seq<Env>, w: World)
    requires Filed(w.ledger) && AllCut(envs, w)
    ensures Retired(w.ledger, CutRecoveries(envs, w).ledger) && Filed(CutRecoveries(envs, w).ledger)
    decreases |envs|
  {
    if envs != [] {
      RecoverIsRepair(envs[0], Begin(w));
      var w' := RecoverRun(envs[0], Begin(w));
      RetiredFiled(w.ledger, w'.ledger);
      CutRecoveriesRetire(envs[1..], w');
      RetiredTwice(w.ledger, w'.ledger, CutRecoveries(envs, w).ledger);
    }
  }

  /**
    Restart: however often recovery is cut short, the recovery that completes gives the
    steps and the run state that an undisturbed one would have given.
  */
  lemma RecoverRestarts(cuts: seq<Env>, env: Env, undisturbed: Env, w: World)
    requires Filed(w.ledger) && AllCut(cuts, w)
    requires RecoverRun(env, Begin(CutRecoveries(cuts, w))).alive && RecoverRun(undisturbed, w).alive
    ensures var again := RecoverRun(env, Begin(CutRecoveries(cuts, w))).ledger.manifest;
            var once := RecoverRun(undisturbed, w).ledger.manifest;
            again.steps == once.steps && again.state == once.state
  {
    CutRecoveriesRetire(cuts, w);
    var cut := CutRecoveries(cuts, w);
    RecoverIsRepair(env, Begin(cut));
    RecoverIsRepair(undisturbed, w);
    RetiredRepairs(w.ledger, cut.ledger, w.ledger.manifest, w.ledger.graph);
  }

  // ----- idempotence -----

  lemma DecideSettles(l: Ledger, step: StepManifest, node: Node)
    ensures var d := Decide(l, step, node); !d.Throws? ==> Settled(d.step.state)
    ensures Settled(step.state) ==> Decide(l, step, node) == Becomes(step)
  {
  }

  ghost predicate AllSettled(m: Manifest, nodes: seq<Node>) {
    forall n {:trigger n in nodes} | n in nodes :: n.id in m.steps && Settled(m.steps[n.id].state)
  }

  /** A completed recovery settles every step of the graph. */
  lemma {:induction false} RecoverSettles(env: Env, w: World, m: Manifest, nodes: seq<Node>)
    ensures var (w', m') := RecoverSteps(env, w, m, nodes);
            && (w'.alive ==> w.alive && AllSettled(m', nodes))
            && (forall id | id in m.steps && Settled(m.steps[id].state) ::
                id in m'.steps && m'.steps[id] == m.steps[id])
    decreases |nodes|
  {
    if nodes != [] {
      if nodes[0].id in m.steps {
        DecideSettles(w.ledger, m.steps[nodes[0].id], nodes[0]);
      }
      var (w1, m1) := RecoverStep(env, w, m, nodes[0]);
      RecoverSettles(env, w1, m1, nodes[1..]);
      assert nodes == [nodes[0]] + nodes[1..];
      if !w.alive {
        DeadStays(env, w, m, nodes);
      }
    }
  }

  /** After a completed recovery the stored manifest has every node's step settled. */
  lemma RecoveredIsSettled(env: Env, w: World)
    requires RecoverRun(env, w).alive
    ensures AllSettled(RecoverRun(env, w).ledger.manifest, w.ledger.graph)
  {
    RecoverSettles(env, w, w.ledger.manifest, w.ledger.graph);
  }

  lemma {:induction false} SettledUntouched(env: Env, w: World, m: Manifest, nodes: seq<Node>)
    requires AllSettled(m, nodes)
    ensures RecoverSteps(env, w, m, nodes) == (w, m)
    decreases |nodes|
  {
    if nodes != [] {
      assert nodes[0] in nodes;
      DecideSettles(w.ledger, m.steps[nodes[0].id], nodes[0]);
      assert m.(steps := m.steps[nodes[0].id := m.steps[nodes[0].id]]) == m;
      forall n | n in nodes[1..] ensures n.id in m.steps && Settled(m.steps[n.id].state) {
        assert n in nodes;
      }
      SettledUntouched(env, w, m, nodes[1..]);
    }
  }

  /** A second recovery changes no step, no grant and not the run state, even if it is cut short. */
  lemma RecoverIdempotent(env: Env, env': Env, w: World)
    requires RecoverRun(env, w).alive
    ensures var once := RecoverRun(env, w);
            var twice := RecoverRun(env', once);
            && twice.ledger
                == once.ledger.(manifest := once.ledger.manifest.(updatedAt := twice.ledger.manifest.updatedAt))
  {
    RecoverSettles(env, w, w.ledger.manifest, w.ledger.graph);
    RecoverStepsGraph(env, w, w.ledger.manifest, w.ledger.graph);
    var (w', m) := RecoverSteps(env, w, w.ledger.manifest, w.ledger.graph);
    var once := RecoverRun(env, w);
    assert once.ledger.manifest.steps == m.steps;
    SettledUntouched(env', once, once.ledger.manifest, once.ledger.graph);
    DeriveTwice(m, once.ledger.manifest);
  }

  lemma {:induction false} RecoverStepsGraph(env: Env, w: World, m: Manifest, nodes: seq<Node>)
    ensures RecoverSteps(env, w, m, nodes).0.ledger.graph == w.ledger.graph
    ensures RecoverSteps(env, w, m, nodes).1.state == m.state
    decreases |nodes|
  {
    if nodes != [] {
      var (w1, m1) := RecoverStep(env, w, m, nodes[0]);
      RecoverStepsGraph(env, w1, m1, nodes[1..]);
    }
  }

  lemma DeriveTwice(m: Manifest, m': Manifest)
    requires m'.steps == m.steps && m'.state == DeriveRunState(m)
    ensures DeriveRunState(m') == m'.state
  {
    assert forall st :: SomeStep(m, st) == SomeStep(m', st);
    assert AllSucceeded(m) == AllSucceeded(m');
  }

  /**
    Recovery leaves a run `running` only in one way: it was running and some steps are
    `skipped`, a state no code sets, while all others succeeded.
  */
  lemma RecoveredRunning(env: Env, w: World)
    requires RecoverRun(env, w).alive
    requires forall id | id in w.ledger.manifest.steps :: exists n :: n in w.ledger.graph && n.id == id
    ensures var m := RecoverRun(env, w).ledger.manifest;
            m.state == RunState.Running <==>
              && w.ledger.manifest.state == RunState.Running
              && SomeStep(m, StepState.Skipped)
              && forall id | id in m.steps :: m.steps[id].state in {StepState.Skipped, StepState.Succeeded}
  {
    RecoverSettles(env, w, w.ledger.manifest, w.ledger.graph);
    RecoverStepsGraph(env, w, w.ledger.manifest, w.ledger.graph);
    RecoverStepsKeys(env, w, w.ledger.manifest, w.ledger.graph);
    var (w', m) := RecoverSteps(env, w, w.ledger.manifest, w.ledger.graph);
    var r := RecoverRun(env, w).ledger.manifest;
    assert r.steps == m.steps && r.state == DeriveRunState(m);
    forall id | id in m.steps ensures Settled(m.steps[id].state) {
      var n :| n in w.ledger.graph && n.id == id;
    }
    assert forall st :: SomeStep(m, st) == SomeStep(r, st);
    SettledDerives(m);
  }

  lemma SettledDerives(m: Manifest)
    requires forall id | id in m.steps :: Settled(m.steps[id].state)
    ensures DeriveRunState(m) == RunState.Running <==>
              && m.state == RunState.Running
              && SomeStep(m, StepState.Skipped)
              && forall id | id in m.steps :: m.steps[id].state in {StepState.Skipped, StepState.Succeeded}
  {
    if m.state == RunState.Running && DeriveRunState(m) != RunState.Running && SomeStep(m, StepState.Skipped) {
      assert !AllSucceeded(m);
    }
  }

  lemma {:induction false} RecoverStepsKeys(env: Env, w: World, m: Manifest, nodes: seq<Node>)
    ensures RecoverSteps(env, w, m, nodes).1.steps.Keys == m.steps.Keys
    decreases |nodes|
  {
    if nodes != [] {
      var (w1, m1) := RecoverStep(env, w, m, nodes[0]);
      RecoverStepsKeys(env, w1, m1, nodes[1..]);
    }
  }
}
