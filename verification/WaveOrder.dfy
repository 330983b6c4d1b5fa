/**
  The order of an uninterrupted successful run: steps run in waves by depth, where a step's
  depth is the length of the longest dependency chain below it.
*/
module WaveOrder {
  import opened Records
  import opened Protocol
  import opened Invariant
  import opened Reachability
  import opened Approvals
  import opened Completion

  /** Every dependency is shallower, and some dependency is exactly one level up. */
  ghost predicate IsDepth(graph: seq<Node>, depth: map<StepId, nat>) {
    && depth.Keys == Ids(graph)
    && (forall n, d {:trigger Edge(graph, n, d)} | Edge(graph, n, d) ::
          n.id in depth && d in depth && depth[d] < depth[n.id])
    && (forall n {:trigger depth[n.id]} | n in graph && depth[n.id] > 0 ::
          exists d :: Edge(graph, n, d) && d in depth && depth[d] + 1 == depth[n.id])
  }

  /** A dependency chain: each step depends on the next. */
  ghost predicate Chain(graph: seq<Node>, chain: seq<Node>) {
    chain == [] ||
    (&& chain[0] in graph
     && (|chain| > 1 ==> chain[1].id in chain[0].dependsOn)
     && Chain(graph, chain[1..]))
  }

  /** The depth of a step bounds every chain that starts there. */
  lemma {:induction false} ChainsAreShallow(graph: seq<Node>, depth: map<StepId, nat>, chain: seq<Node>)
    requires IsDepth(graph, depth) && Chain(graph, chain) && chain != []
    ensures chain[0].id in depth && |chain| <= depth[chain[0].id] + 1
    decreases |chain|
  {
    assert chain[0].id in Ids(graph);
    if |chain| > 1 {
      ChainsAreShallow(graph, depth, chain[1..]);
      assert Edge(graph, chain[0], chain[1].id);
    }
  }

  /** And some chain from the step is as long as its depth says. */
  lemma {:induction false} DeepestChain(graph: seq<Node>, depth: map<StepId, nat>, node: Node)
    returns (chain: seq<Node>)
    requires IsDepth(graph, depth) && node in graph
    ensures node.id in depth && Chain(graph, chain) && |chain| == depth[node.id] + 1 && chain[0] == node
    decreases if node.id in depth then depth[node.id] else 0
  {
    assert node.id in Ids(graph);
    if depth[node.id] == 0 {
      chain := [node];
    } else {
      var d :| Edge(graph, node, d) && d in depth && depth[d] + 1 == depth[node.id];
      assert d in Ids(graph);
      var next :| next in graph && next.id == d;
      var rest := DeepestChain(graph, depth, next);
      chain := [node] + rest;
      assert chain[1..] == rest;
    }
  }

  // ----- waves -----

  /** The nodes of one depth, in graph order. */
  ghost function Wave(graph: seq<Node>, depth: map<StepId, nat>, k: nat): seq<Node> {
    if graph == [] then []
    else (if graph[0].id in depth && depth[graph[0].id] == k then [graph[0]] else []) + Wave(graph[1..], depth, k)
  }

  /** All nodes of depth below k: a stable sort of the graph by depth, cut at k. */
  ghost function Waves(graph: seq<Node>, depth: map<StepId, nat>, k: nat): seq<Node> {
    if k == 0 then [] else Waves(graph, depth, k - 1) + Wave(graph, depth, k - 1)
  }

  /** The steps of depth below k succeeded and the others are pending. */
  ghost predicate WaveState(m: Manifest, depth: map<StepId, nat>, k: nat) {
    && m.steps.Keys == depth.Keys
    && forall id {:trigger m.steps[id]} | id in depth ::
         m.steps[id].state == (if depth[id] < k then StepState.Succeeded else StepState.Pending)
  }

  /** A step is runnable after k waves exactly when its depth is k. */
  lemma RunnableAtDepth(graph: seq<Node>, depth: map<StepId, nat>, m: Manifest, k: nat, n: Node)
    requires IsDepth(graph, depth) && WaveState(m, depth, k) && n in graph
    ensures Runnable(m, n) <==> n.id in depth && depth[n.id] == k
  {
    assert n.id in Ids(graph);
    if depth[n.id] == k {
      forall d | d in n.dependsOn ensures d in m.steps && m.steps[d].state == StepState.Succeeded {
        assert Edge(graph, n, d);
      }
    } else if depth[n.id] > k {
      var d :| Edge(graph, n, d) && d in depth && depth[d] + 1 == depth[n.id];
      assert m.steps[d].state == StepState.Pending;
    }
  }

  lemma {:induction false} NextIsWave(graph: seq<Node>, part: seq<Node>, depth: map<StepId, nat>, m: Manifest, k: nat)
    requires IsDepth(graph, depth) && WaveState(m, depth, k)
    requires forall n | n in part :: n in graph
    ensures NextRunnable(part, m) == Wave(part, depth, k)
    decreases |part|
  {
    if part != [] {
      RunnableAtDepth(graph, depth, m, k, part[0]);
      NextIsWave(graph, part[1..], depth, m, k);
    }
  }

  lemma {:induction false} WaveMembers(graph: seq<Node>, depth: map<StepId, nat>, k: nat, n: Node)
    ensures n in Wave(graph, depth, k) <==> n in graph && n.id in depth && depth[n.id] == k
  {
    if graph != [] {
      WaveMembers(graph[1..], depth, k, n);
    }
  }

  /** The nodes executed, in order. */
  ghost function Nodes(execs: seq<Execution>): seq<Node> {
    if execs == [] then [] else Nodes(execs[..|execs| - 1]) + [execs[|execs| - 1].node]
  }

  /** Nothing dies or throws, every handler succeeds, every elevated step is approved. */
  ghost predicate Favourable(env: Env, w: World) {
    && BenignFrom(env, w.tick) && w.alive
    && (forall t: nat, id {:trigger env.ok(t, id)} :: env.ok(t, id))
    && AllFit(w.ledger)
    && (forall n {:trigger n.id in w.ledger.approvals} | n in w.ledger.graph && n.cell == Elevated ::
        n.id in w.ledger.approvals)
  }

  lemma StaysFavourable(env: Env, w: World, w': World)
    requires Favourable(env, w) && SameBasis(w.ledger, w'.ledger) && w'.alive && w.tick <= w'.tick
    ensures Favourable(env, w')
  {
    forall n | n in w'.ledger.graph ensures NodeFits(w'.ledger, n) {
      assert NodeFits(w.ledger, n);
    }
  }

  ghost predicate HasId(batch: seq<Node>, id: StepId) {
    exists n :: n in batch && n.id == id
  }

  /** From m to m', the steps of the batch succeeded and no other step moved. */
  ghost predicate BatchDone(m: Manifest, m': Manifest, batch: seq<Node>) {
    && m'.state == m.state && m'.steps.Keys == m.steps.Keys
    && forall id {:trigger m'.steps[id]} | id in m.steps ::
         m'.steps[id].state == if HasId(batch, id) then StepState.Succeeded else m.steps[id].state
  }

  /** What one dispatch does in a favourable world: the step is executed once and succeeds. */
  ghost predicate StepRan(env: Env, f: Frame, g: Frame, node: Node) {
    && Favourable(env, g.w) && !g.returned && SameBasis(f.w.ledger, g.w.ledger)
    && BatchDone(f.m, g.m, [node])
    && Nodes(g.w.execs) == Nodes(f.w.execs) + [node]
  }

  lemma RanOnceSucceeds(env: Env, f: Frame, node: Node, g: Frame)
    requires RanOnce(env, f, node, g) && env.ok(f.w.tick + 2, node.id)
    requires Favourable(env, f.w) && node in f.w.ledger.graph && node.id in f.m.steps
    ensures StepRan(env, f, g, node)
  {
    StaysFavourable(env, f.w, g.w);
    assert g.w.execs[..|g.w.execs| - 1] == f.w.execs;
    forall id | id in f.m.steps ensures HasId([node], id) <==> id == node.id {
      assert node in [node];
    }
  }

  lemma DispatchRuns(env: Env, f: Frame, node: Node)
    requires Favourable(env, f.w) && !f.returned && node in f.w.ledger.graph && node.id in f.m.steps
    ensures StepRan(env, f, Dispatch(env, f, node), node)
  {
    assert NodeFits(f.w.ledger, node);
    DispatchCompletes(env, f, node);
    assert env.ok(f.w.tick + 2, node.id);
    RanOnceSucceeds(env, f, node, Dispatch(env, f, node));
  }

  ghost predicate Known(f: Frame, batch: seq<Node>) {
    forall i {:trigger batch[i]} | 0 <= i < |batch| :: batch[i] in f.w.ledger.graph && batch[i].id in f.m.steps
  }

  /** What running a batch does in a favourable world: each step is executed once, in order, and succeeds. */
  ghost predicate BatchRan(env: Env, f: Frame, g: Frame, batch: seq<Node>) {
    && Favourable(env, g.w) && !g.returned && SameBasis(f.w.ledger, g.w.ledger)
    && BatchDone(f.m, g.m, batch)
    && Nodes(g.w.execs) == Nodes(f.w.execs) + batch
  }

  lemma RanThenRan(env: Env, f: Frame, g: Frame, h: Frame, batch: seq<Node>)
    requires batch != [] && StepRan(env, f, g, batch[0]) && BatchRan(env, g, h, batch[1..])
    ensures BatchRan(env, f, h, batch)
  {
    assert batch == [batch[0]] + batch[1..];
    forall id | id in f.m.steps
      ensures h.m.steps[id].state == if HasId(batch, id) then StepState.Succeeded else f.m.steps[id].state {
      assert g.m.steps[id].state == if HasId([batch[0]], id) then StepState.Succeeded else f.m.steps[id].state;
      assert HasId(batch, id) <==> HasId([batch[0]], id) || HasId(batch[1..], id);
    }
  }

  lemma KnownRest(env: Env, f: Frame, g: Frame, batch: seq<Node>)
    requires batch != [] && Known(f, batch) && StepRan(env, f, g, batch[0])
    ensures Known(g, batch[1..])
  {
  }

  lemma {:induction false} BatchRuns(env: Env, f: Frame, batch: seq<Node>)
    requires Favourable(env, f.w) && !f.returned && Known(f, batch)
    ensures BatchRan(env, f, RunBatch(env, f, batch), batch)
    decreases |batch|
  {
    if batch == [] {
      assert BatchDone(f.m, f.m, []);
    } else {
      DispatchRuns(env, f, batch[0]);
      var g := Dispatch(env, f, batch[0]);
      KnownRest(env, f, g, batch);
      BatchRuns(env, g, batch[1..]);
      RanThenRan(env, f, g, RunBatch(env, g, batch[1..]), batch);
    }
  }

  lemma RoundIsWave(env: Env, f: Frame, depth: map<StepId, nat>, k: nat)
    requires Favourable(env, f.w) && !f.returned
    requires IsDepth(f.w.ledger.graph, depth) && WaveState(f.m, depth, k)
    ensures var g := RunBatch(env, f, NextRunnable(f.w.ledger.graph, f.m));
            && Favourable(env, g.w) && !g.returned && SameBasis(f.w.ledger, g.w.ledger)
            && WaveState(g.m, depth, k + 1)
            && Nodes(g.w.execs) == Nodes(f.w.execs) + Wave(f.w.ledger.graph, depth, k)
  {
    var graph := f.w.ledger.graph;
    NextIsWave(graph, graph, depth, f.m, k);
    var batch := NextRunnable(graph, f.m);
    assert Known(f, batch) by {
      forall i | 0 <= i < |batch| ensures batch[i] in graph && batch[i].id in f.m.steps {
        assert batch[i] in batch;
      }
    }
    BatchRuns(env, f, batch);
    WaveAdvances(graph, depth, f.m, RunBatch(env, f, batch).m, k);
  }

  lemma WaveAdvances(graph: seq<Node>, depth: map<StepId, nat>, m: Manifest, m': Manifest, k: nat)
    requires IsDepth(graph, depth) && WaveState(m, depth, k)
    requires BatchDone(m, m', Wave(graph, depth, k))
    ensures WaveState(m', depth, k + 1)
  {
    forall id | id in depth
      ensures m'.steps[id].state == (if depth[id] < k + 1 then StepState.Succeeded else StepState.Pending) {
      assert id in Ids(graph);
      var n :| n in graph && n.id == id;
      WaveMembers(graph, depth, k, n);
      if HasId(Wave(graph, depth, k), id) {
        var b :| b in Wave(graph, depth, k) && b.id == id;
        WaveMembers(graph, depth, k, b);
      }
      assert m.steps[id].state == if depth[id] < k then StepState.Succeeded else StepState.Pending;
    }
  }

  // ----- the whole run -----

  /** The frame after k rounds of the driving loop. */
  ghost function AfterRounds(env: Env, f: Frame, k: nat): Frame {
    if k == 0 then f
    else
      var g := AfterRounds(env, f, k - 1);
      RunBatch(env, g, NextRunnable(g.w.ledger.graph, g.m))
  }

  /** The number of rounds in which the driving loop finds a runnable step. */
  ghost function Rounds(env: Env, f: Frame): nat
    decreases if f.Stopped() then 0 else 1, |PendingIds(f.m)|
  {
    if f.Stopped() || !Tracked(f.w.ledger.graph, f.m) then 0
    else
      var batch := NextRunnable(f.w.ledger.graph, f.m);
      if batch == [] then 0
      else
        var g := RunBatch(env, f, batch);
        if g.Stopped() then 1
        else
          assert |PendingIds(g.m)| < |PendingIds(f.m)| by {
            RoundDropsPending(env, f);
            StrictSubsetSmaller(PendingIds(g.m), PendingIds(f.m));
          }
          1 + Rounds(env, g)
  }

  /** `height` is one more than the greatest depth: the length of the longest chain of the graph. */
  ghost predicate IsHeight(graph: seq<Node>, depth: map<StepId, nat>, height: nat) {
    && (forall n {:trigger depth[n.id]} | n in graph :: n.id in depth && depth[n.id] < height)
    && (forall k: nat {:trigger Wave(graph, depth, k)} | k < height :: Wave(graph, depth, k) != [])
  }

  /** In a wave state every node is tracked, and the next batch is the next wave. */
  lemma WaveStep(graph: seq<Node>, depth: map<StepId, nat>, m: Manifest, height: nat, k: nat)
    requires IsDepth(graph, depth) && IsHeight(graph, depth, height) && WaveState(m, depth, k) && k <= height
    ensures Tracked(graph, m) && NextRunnable(graph, m) == Wave(graph, depth, k)
    ensures k < height <==> Wave(graph, depth, k) != []
    ensures k == height ==> AllSucceeded(m)
  {
    forall n | n in graph ensures n.id in m.steps {
      assert n.id in Ids(graph);
    }
    NextIsWave(graph, graph, depth, m, k);
    if k == height {
      if Wave(graph, depth, k) != [] {
        WaveMembers(graph, depth, k, Wave(graph, depth, k)[0]);
      }
      forall id | id in m.steps ensures m.steps[id].state == StepState.Succeeded {
        assert id in Ids(graph);
        var n :| n in graph && n.id == id;
        assert depth[n.id] < height;
      }
    }
  }

  /** Between rounds: the first k waves have run and nothing else. */
  ghost predicate AtWave(env: Env, f: Frame, graph: seq<Node>, depth: map<StepId, nat>, k: nat) {
    && Favourable(env, f.w) && !f.returned && f.w.ledger.graph == graph
    && WaveState(f.m, depth, k)
    && Nodes(f.w.execs) == Waves(graph, depth, k)
  }

  /** After k rounds exactly the steps of depth below k succeeded, and they were run in waves. */
  lemma {:induction false} WavesAfterRounds(env: Env, f: Frame, graph: seq<Node>, depth: map<StepId, nat>, k: nat)
    requires AtWave(env, f, graph, depth, 0) && IsDepth(graph, depth)
    ensures AtWave(env, AfterRounds(env, f, k), graph, depth, k)
    decreases k
  {
    if k == 0 {
      assert Waves(graph, depth, 0) == [];
    } else {
      var j: nat := k - 1;
      WavesAfterRounds(env, f, graph, depth, j);
      RoundKeepsWave(env, AfterRounds(env, f, j), graph, depth, j);
    }
  }

  lemma RoundKeepsWave(env: Env, f: Frame, graph: seq<Node>, depth: map<StepId, nat>, k: nat)
    requires AtWave(env, f, graph, depth, k) && IsDepth(graph, depth)
    ensures AtWave(env, RunBatch(env, f, NextRunnable(f.w.ledger.graph, f.m)), graph, depth, k + 1)
  {
    RoundIsWave(env, f, depth, k);
  }

  /** While waves remain, the loop goes on from one round to the next. */
  lemma {:induction false} LoopAfterRounds(env: Env, f: Frame, graph: seq<Node>, depth: map<StepId, nat>,
                                            height: nat, k: nat)
    requires AtWave(env, f, graph, depth, 0) && IsDepth(graph, depth) && IsHeight(graph, depth, height)
    requires k <= height
    ensures GoesOn(env, f, AfterRounds(env, f, k), k)
    decreases k
  {
    if k == 0 {
      NoRounds(env, f);
    } else {
      var j: nat := k - 1;
      LoopAfterRounds(env, f, graph, depth, height, j);
      OneMoreRound(env, f, graph, depth, height, j);
    }
  }

  lemma NoRounds(env: Env, f: Frame)
    ensures GoesOn(env, f, AfterRounds(env, f, 0), 0)
  {
  }

  lemma OneMoreRound(env: Env, f: Frame, graph: seq<Node>, depth: map<StepId, nat>, height: nat, j: nat)
    requires AtWave(env, f, graph, depth, 0) && IsDepth(graph, depth) && IsHeight(graph, depth, height)
    requires j < height && GoesOn(env, f, AfterRounds(env, f, j), j)
    ensures GoesOn(env, f, AfterRounds(env, f, j + 1), j + 1)
  {
    WavesAfterRounds(env, f, graph, depth, j);
    var g := AfterRounds(env, f, j);
    NextRound(env, g, graph, depth, height, j);
    GoesOnFurther(env, f, g, RunBatch(env, g, NextRunnable(g.w.ledger.graph, g.m)), j, 1);
  }

  /** After k rounds the loop that started at f goes on from g. */
  ghost predicate GoesOn(env: Env, f: Frame, g: Frame, k: nat) {
    RunLoop(env, f) == RunLoop(env, g) && Rounds(env, f) == k + Rounds(env, g)
  }

  lemma GoesOnFurther(env: Env, f: Frame, g: Frame, h: Frame, j: nat, k: nat)
    requires GoesOn(env, f, g, j) && GoesOn(env, g, h, k)
    ensures GoesOn(env, f, h, j + k)
  {
  }

  /** While a wave remains, the loop runs it and goes on. */
  lemma NextRound(env: Env, f: Frame, graph: seq<Node>, depth: map<StepId, nat>, height: nat, k: nat)
    requires AtWave(env, f, graph, depth, k) && IsDepth(graph, depth) && IsHeight(graph, depth, height)
    requires k < height
    ensures GoesOn(env, f, RunBatch(env, f, NextRunnable(f.w.ledger.graph, f.m)), 1)
  {
    WaveStep(graph, depth, f.m, height, k);
    RoundIsWave(env, f, depth, k);
    OneRound(env, f);
  }

  lemma AfterLastWave(env: Env, f: Frame, graph: seq<Node>, depth: map<StepId, nat>, height: nat)
    requires AtWave(env, f, graph, depth, height)
    requires IsDepth(graph, depth) && IsHeight(graph, depth, height)
    ensures Ran(RunLoop(env, f), Waves(graph, depth, height)) && Rounds(env, f) == 0
  {
    WaveStep(graph, depth, f.m, height, height);
    LastRound(env, f);
  }

  /** The run returned as succeeded after executing exactly `nodes`, in this order. */
  ghost predicate Ran(g: Frame, nodes: seq<Node>) {
    && g.returned && g.w.ledger.manifest.state == RunState.Succeeded && AllSucceeded(g.w.ledger.manifest)
    && Nodes(g.w.execs) == nodes
  }

  lemma OneRound(env: Env, f: Frame)
    requires !f.Stopped() && Tracked(f.w.ledger.graph, f.m)
    requires var batch := NextRunnable(f.w.ledger.graph, f.m);
             batch != [] && !RunBatch(env, f, batch).Stopped()
    ensures var g := RunBatch(env, f, NextRunnable(f.w.ledger.graph, f.m));
            RunLoop(env, f) == RunLoop(env, g) && Rounds(env, f) == 1 + Rounds(env, g)
  {
  }

  lemma LastRound(env: Env, f: Frame)
    requires BenignFrom(env, f.w.tick) && !f.Stopped()
    requires Tracked(f.w.ledger.graph, f.m) && NextRunnable(f.w.ledger.graph, f.m) == []
    requires AllSucceeded(f.m)
    ensures Ran(RunLoop(env, f), Nodes(f.w.execs)) && Rounds(env, f) == 0
  {
  }

  /**
    A fresh favourable run executes every node exactly once, in the order of the graph
    stably sorted by depth, in as many rounds as the longest dependency chain has steps.
  */
  lemma WaveOrder(env: Env, w: World, depth: map<StepId, nat>, height: nat)
    requires Favourable(env, w) && w.execs == []
    requires w.ledger.manifest.state == RunState.Ready && WaveState(w.ledger.manifest, depth, 0)
    requires IsDepth(w.ledger.graph, depth) && IsHeight(w.ledger.graph, depth, height)
    ensures Ran(Resume(env, w), Waves(w.ledger.graph, depth, height))
    ensures Rounds(env, Entered(env, w)) == height
  {
    EntersAtWave(env, w, depth);
    var f := Entered(env, w);
    WavesAfterRounds(env, f, w.ledger.graph, depth, height);
    LoopAfterRounds(env, f, w.ledger.graph, depth, height, height);
    AfterLastWave(env, AfterRounds(env, f, height), w.ledger.graph, depth, height);
  }

  lemma EntersAtWave(env: Env, w: World, depth: map<StepId, nat>)
    requires Favourable(env, w) && w.execs == []
    requires WaveState(w.ledger.manifest, depth, 0)
    ensures AtWave(env, Entered(env, w), w.ledger.graph, depth, 0)
  {
    StaysFavourable(env, w, Entered(env, w).w);
  }

  /** After k rounds of such a run exactly the steps of depth below k succeeded. */
  lemma SucceededAfterRounds(env: Env, w: World, depth: map<StepId, nat>, k: nat)
    requires Favourable(env, w) && w.execs == []
    requires WaveState(w.ledger.manifest, depth, 0) && IsDepth(w.ledger.graph, depth)
    ensures WaveState(AfterRounds(env, Entered(env, w), k).m, depth, k)
  {
    EntersAtWave(env, w, depth);
    WavesAfterRounds(env, Entered(env, w), w.ledger.graph, depth, k);
  }

  /** The frame in which a resume of an idle run enters the driving loop. */
  ghost function Entered(env: Env, w: World): Frame {
    Persist(env, Begin(w), w.ledger.manifest.(state := RunState.Running), false)
  }

  // ----- the waves are a stable sort of the graph by depth -----

  lemma {:induction false} WaveLevels(graph: seq<Node>, depth: map<StepId, nat>, k: nat)
    ensures forall i | 0 <= i < |Wave(graph, depth, k)| ::
              Wave(graph, depth, k)[i].id in depth && depth[Wave(graph, depth, k)[i].id] == k
  {
    if graph != [] {
      WaveLevels(graph[1..], depth, k);
    }
  }

  /** Depths never decrease along the waves. */
  lemma {:induction false} WavesSorted(graph: seq<Node>, depth: map<StepId, nat>, k: nat)
    ensures SortedBelow(Waves(graph, depth, k), depth, k)
  {
    if k > 0 {
      WavesSorted(graph, depth, k - 1);
      WaveLevels(graph, depth, k - 1);
      var a, b, s := Waves(graph, depth, k - 1), Wave(graph, depth, k - 1), Waves(graph, depth, k);
      assert s == a + b;
      forall i | 0 <= i < |s| ensures s[i].id in depth && depth[s[i].id] < k && (i >= |a| ==> depth[s[i].id] == k - 1) {
        if i < |a| { assert s[i] == a[i]; } else { assert s[i] == b[i - |a|]; }
      }
      forall i, j | 0 <= i < j < |s| ensures depth[s[i].id] <= depth[s[j].id] {
        if j < |a| { assert s[i] == a[i] && s[j] == a[j]; }
      }
    }
  }

  ghost predicate SortedBelow(s: seq<Node>, depth: map<StepId, nat>, k: nat) {
    && (forall i {:trigger s[i]} | 0 <= i < |s| :: s[i].id in depth && depth[s[i].id] < k)
    && (forall i, j {:trigger s[i], s[j]} | 0 <= i < j < |s| :: depth[s[i].id] <= depth[s[j].id])
  }

  /** Within one depth the waves keep the graph's order: filtering either by depth gives the same nodes. */
  lemma {:induction false} WavesStable(graph: seq<Node>, depth: map<StepId, nat>, k: nat, j: nat)
    ensures Wave(Waves(graph, depth, k), depth, j) == if j < k then Wave(graph, depth, j) else []
  {
    if k > 0 {
      WavesStable(graph, depth, k - 1, j);
      WaveAppend(Waves(graph, depth, k - 1), Wave(graph, depth, k - 1), depth, j);
      WaveOfWave(graph, depth, k - 1, j);
    } else {
      assert Waves(graph, depth, k) == [];
    }
  }

  lemma {:induction false} WaveAppend(a: seq<Node>, b: seq<Node>, depth: map<StepId, nat>, j: nat)
    ensures Wave(a + b, depth, j) == Wave(a, depth, j) + Wave(b, depth, j)
    decreases |a|
  {
    if a == [] {
      assert a + b == b;
    } else {
      assert (a + b)[1..] == a[1..] + b;
      WaveAppend(a[1..], b, depth, j);
    }
  }

  lemma {:induction false} WaveOfWave(graph: seq<Node>, depth: map<StepId, nat>, k: nat, j: nat)
    ensures Wave(Wave(graph, depth, k), depth, j) == if j == k then Wave(graph, depth, k) else []
  {
    if graph != [] {
      WaveOfWave(graph[1..], depth, k, j);
      var head := if graph[0].id in depth && depth[graph[0].id] == k then [graph[0]] else [];
      WaveAppend(head, Wave(graph[1..], depth, k), depth, j);
    }
  }

  /** No node is lost or repeated: with every depth below k the waves are a permutation of the graph. */
  lemma {:induction false} WavesPermute(graph: seq<Node>, depth: map<StepId, nat>, k: nat)
    requires forall n | n in graph :: n.id in depth && depth[n.id] < k
    ensures multiset(Waves(graph, depth, k)) == multiset(graph)
  {
    forall n ensures multiset(Waves(graph, depth, k))[n] == multiset(graph)[n] {
      CountInWaves(graph, depth, k, n);
      if n !in graph { assert n !in multiset(graph); }
    }
  }

  lemma {:induction false} CountInWave(graph: seq<Node>, depth: map<StepId, nat>, k: nat, n: Node)
    ensures multiset(Wave(graph, depth, k))[n]
            == if n.id in depth && depth[n.id] == k then multiset(graph)[n] else 0
  {
    if graph != [] {
      assert graph == [graph[0]] + graph[1..];
      CountInWave(graph[1..], depth, k, n);
    }
  }

  lemma {:induction false} CountInWaves(graph: seq<Node>, depth: map<StepId, nat>, k: nat, n: Node)
    ensures multiset(Waves(graph, depth, k))[n]
            == if n.id in depth && depth[n.id] < k then multiset(graph)[n] else 0
    decreases k
  {
    if k == 0 {
      NoWaves(graph, depth, n);
    } else {
      var j := k - 1;
      CountInWaves(graph, depth, j, n);
      CountNext(graph, depth, j, n);
    }
  }

  /** One more wave counts the nodes of one more depth. */
  lemma CountNext(graph: seq<Node>, depth: map<StepId, nat>, k: nat, n: Node)
    requires multiset(Waves(graph, depth, k))[n] == if n.id in depth && depth[n.id] < k then multiset(graph)[n] else 0
    ensures multiset(Waves(graph, depth, k + 1))[n]
            == if n.id in depth && depth[n.id] < k + 1 then multiset(graph)[n] else 0
  {
    CountInWave(graph, depth, k, n);
    CountGrows(graph, depth, k, n);
  }

  lemma NoWaves(graph: seq<Node>, depth: map<StepId, nat>, n: Node)
    ensures multiset(Waves(graph, depth, 0))[n] == 0
  {
    assert Waves(graph, depth, 0) == [];
  }

  lemma CountGrows(graph: seq<Node>, depth: map<StepId, nat>, k: nat, n: Node)
    ensures multiset(Waves(graph, depth, k + 1))[n]
            == multiset(Waves(graph, depth, k))[n] + multiset(Wave(graph, depth, k))[n]
  {
    CountAppend(Waves(graph, depth, k), Wave(graph, depth, k), n);
    assert Waves(graph, depth, k + 1) == Waves(graph, depth, k) + Wave(graph, depth, k);
  }

  lemma CountAppend<T>(a: seq<T>, b: seq<T>, x: T)
    ensures multiset(a + b)[x] == multiset(a)[x] + multiset(b)[x]
  {
    assert multiset(a + b) == multiset(a) + multiset(b);
  }

  // ----- every compiled graph has depths and a height -----

  ghost function DepthOf(graph: seq<Node>, rank: map<StepId, nat>, id: StepId): nat
    requires Ranked(graph, rank) && UniqueIds(graph) && id in rank
    decreases rank[id], 1, 0
  {
    NodeOfId(graph, id);
    DepthAbove(graph, rank, rank[id], FindNode(graph, id).value.dependsOn)
  }

  /** One more than the greatest depth of `deps`, and 0 when there are none. */
  ghost function DepthAbove(graph: seq<Node>, rank: map<StepId, nat>, bound: nat, deps: seq<StepId>): (h: nat)
    requires Ranked(graph, rank) && UniqueIds(graph)
    requires forall d | d in deps :: d in rank && rank[d] < bound
    ensures forall d {:trigger d in deps} | d in deps :: DepthOf(graph, rank, d) < h
    ensures h > 0 ==> exists d :: d in deps && DepthOf(graph, rank, d) + 1 == h
    decreases bound, 0, |deps|
  {
    if deps == [] then 0
    else
      var first := DepthOf(graph, rank, deps[0]) + 1;
      var rest := DepthAbove(graph, rank, bound, deps[1..]);
      assert forall d | d in deps :: d == deps[0] || d in deps[1..];
      assert deps[0] in deps && forall d | d in deps[1..] :: d in deps;
      if first > rest then first else rest
  }

  lemma {:induction false} NodeOfId(graph: seq<Node>, id: StepId)
    ensures FindNode(graph, id).Some? <==> id in Ids(graph)
    ensures FindNode(graph, id).Some? ==> FindNode(graph, id).value in graph && FindNode(graph, id).value.id == id
    ensures forall rank, d | Ranked(graph, rank) && FindNode(graph, id).Some?
              && d in FindNode(graph, id).value.dependsOn ::
              d in rank && id in rank && rank[d] < rank[id]
  {
    FindNodeFinds(graph, id);
    forall rank, d | Ranked(graph, rank) && FindNode(graph, id).Some? && d in FindNode(graph, id).value.dependsOn
      ensures d in rank && id in rank && rank[d] < rank[id] {
      assert Edge(graph, FindNode(graph, id).value, d);
    }
  }

  lemma DepthOfNode(graph: seq<Node>, rank: map<StepId, nat>, n: Node)
    requires Ranked(graph, rank) && UniqueIds(graph) && n in graph
    ensures n.id in rank
    ensures forall d | d in n.dependsOn :: d in rank && DepthOf(graph, rank, d) < DepthOf(graph, rank, n.id)
    ensures DepthOf(graph, rank, n.id) > 0 ==>
              exists d :: d in n.dependsOn && DepthOf(graph, rank, d) + 1 == DepthOf(graph, rank, n.id)
  {
    FoundIs(graph, n);
    assert n.id in Ids(graph);
    NodeOfId(graph, n.id);
  }

  lemma DepthExists(graph: seq<Node>) returns (depth: map<StepId, nat>)
    requires WellFormed(graph)
    ensures IsDepth(graph, depth)
  {
    var rank :| Ranked(graph, rank);
    depth := map id | id in rank :: DepthOf(graph, rank, id);
    forall n, d | Edge(graph, n, d) ensures n.id in depth && d in depth && depth[d] < depth[n.id] {
      DepthOfNode(graph, rank, n);
    }
    forall n | n in graph && depth[n.id] > 0
      ensures exists d :: Edge(graph, n, d) && d in depth && depth[d] + 1 == depth[n.id] {
      DepthOfNode(graph, rank, n);
      var d :| d in n.dependsOn && DepthOf(graph, rank, d) + 1 == DepthOf(graph, rank, n.id);
      assert Edge(graph, n, d);
    }
  }

  /** Below a node of depth k there is a node of every smaller depth. */
  lemma {:induction false} WaveInhabited(graph: seq<Node>, depth: map<StepId, nat>, node: Node, k: nat)
    requires IsDepth(graph, depth) && node in graph && node.id in depth && k <= depth[node.id]
    ensures Wave(graph, depth, k) != []
    decreases depth[node.id]
  {
    if k == depth[node.id] {
      WaveMembers(graph, depth, k, node);
    } else {
      var d :| Edge(graph, node, d) && d in depth && depth[d] + 1 == depth[node.id];
      assert d in Ids(graph);
      var next :| next in graph && next.id == d;
      WaveInhabited(graph, depth, next, k);
    }
  }

  lemma {:induction false} Deepest(part: seq<Node>, depth: map<StepId, nat>) returns (node: Node)
    requires part != [] && forall n | n in part :: n.id in depth
    ensures node in part && forall n | n in part :: depth[n.id] <= depth[node.id]
    decreases |part|
  {
    node := part[0];
    if |part| > 1 {
      var rest := Deepest(part[1..], depth);
      if depth[rest.id] > depth[node.id] { node := rest; }
      assert part == [part[0]] + part[1..];
    }
  }

  lemma HeightExists(graph: seq<Node>, depth: map<StepId, nat>) returns (height: nat)
    requires IsDepth(graph, depth)
    ensures IsHeight(graph, depth, height)
  {
    if graph == [] {
      height := 0;
    } else {
      forall n | n in graph ensures n.id in depth { assert n.id in Ids(graph); }
      var node := Deepest(graph, depth);
      height := depth[node.id] + 1;
      forall k: nat | k < height ensures Wave(graph, depth, k) != [] {
        WaveInhabited(graph, depth, node, k);
      }
    }
  }

  // ----- every fresh run -----

  /** A run of the graph that has not started, with every elevated step approved and nothing to disturb it. */
  ghost predicate ReadyToRun(env: Env, graph: seq<Node>, w: World) {
    && Reached(env, graph, w) && AllLocal(graph)
    && w.execs == [] && w.ledger.manifest.state == RunState.Ready
    && (forall id {:trigger w.ledger.manifest.steps[id]} | id in w.ledger.manifest.steps ::
          w.ledger.manifest.steps[id].state == StepState.Pending)
    && (forall n {:trigger n.id in w.ledger.approvals} | n in graph && n.cell == Elevated :: n.id in w.ledger.approvals)
    && BenignFrom(env, w.tick)
    && (forall t: nat, id {:trigger env.ok(t, id)} :: env.ok(t, id))
  }

  lemma ReadyIsFavourable(env: Env, graph: seq<Node>, w: World, depth: map<StepId, nat>)
    requires Clocked(env) && WellFormed(graph) && ReadyToRun(env, graph, w) && IsDepth(graph, depth)
    ensures Favourable(env, Begin(w)) && w.ledger.graph == graph
    ensures WaveState(w.ledger.manifest, depth, 0)
  {
    ReachedInv(env, graph, w);
    ReachedFits(env, graph, w);
    forall n | n in graph ensures NodeFits(Begin(w).ledger, n) {
      assert NodeFits(w.ledger, n);
    }
  }

  /** The height of a graph is the length of a longest dependency chain. */
  lemma LongestChain(graph: seq<Node>, depth: map<StepId, nat>, height: nat) returns (longest: seq<Node>)
    requires IsDepth(graph, depth) && IsHeight(graph, depth, height)
    ensures Chain(graph, longest) && |longest| == height
    ensures forall c: seq<Node> {:trigger Chain(graph, c)} | Chain(graph, c) :: |c| <= height
  {
    forall c: seq<Node> | Chain(graph, c) ensures |c| <= height {
      if c != [] {
        ChainsAreShallow(graph, depth, c);
        assert depth[c[0].id] < height;
      }
    }
    longest := [];
    if height > 0 {
      var k := height - 1;
      assert Wave(graph, depth, k) != [];
      var node := Wave(graph, depth, k)[0];
      WaveMembers(graph, depth, k, node);
      longest := DeepestChain(graph, depth, node);
    }
  }

  /**
    Every fresh run of every compiled graph executes the graph stably sorted by depth, in as
    many rounds as its longest dependency chain has steps, and succeeds.
  */
  lemma FreshRunsInWaves(env: Env, graph: seq<Node>, w: World)
    returns (depth: map<StepId, nat>, height: nat, longest: seq<Node>)
    requires Clocked(env) && WellFormed(graph) && ReadyToRun(env, graph, w)
    ensures IsDepth(graph, depth) && IsHeight(graph, depth, height)
    ensures Ran(Resume(env, w), Waves(graph, depth, height)) && Rounds(env, Entered(env, w)) == height
    ensures multiset(Waves(graph, depth, height)) == multiset(graph)
    ensures Chain(graph, longest) && |longest| == height
    ensures forall c: seq<Node> {:trigger Chain(graph, c)} | Chain(graph, c) :: |c| <= height
  {
    depth := DepthExists(graph);
    height := HeightExists(graph, depth);
    longest := LongestChain(graph, depth, height);
    ReadyIsFavourable(env, graph, w, depth);
    WaveOrder(env, Begin(w), depth, height);
    WavesPermute(graph, depth, height);
    SameFromBegin(env, w);
  }

  lemma SameFromBegin(env: Env, w: World)
    requires w.ledger.manifest.state == RunState.Ready
    ensures Resume(env, Begin(w)) == Resume(env, w) && Entered(env, Begin(w)) == Entered(env, w)
  {
  }
}
