/**
  `compileWorkflow` of packages/runtime/src/compiler: normalise, resolve references, build
  the graph.  It accepts exactly the workflows whose header, steps, references and
  dependencies are in order, and what it builds is a graph the run protocol can rely on.
*/
module Compile {
  import opened Base
  import opened Json
  import opened Hashing
  import opened Records
  import opened Normalize
  import opened Resolve
  import opened CycleDetection
  import opened Invariant

  function Args(step: StepSource): Json {
    if step.args.Some? then step.args.value else Obj([])
  }

  function Deps(step: StepSource): seq<string> {
    if step.dependsOn.Some? then step.dependsOn.value else []
  }

  // ----- resolve-variables.ts over a whole workflow -----

  function ResolvedStep(step: StepSource, inputs: map<string, Input>): Result<StepSource> {
    var args :- ResolveValue(Args(step), inputs);
    Success(step.(args := Some(args)))
  }

  /** `resolveVariables` */
  method ResolveVariables(source: Workflow) returns (r: Result<Workflow>)
    ensures r.Success? <==> forall i {:trigger source.steps[i]} | 0 <= i < |source.steps| ::
              ValueBound(Args(source.steps[i]), source.inputs)
    ensures r.Success? ==>
              && r.value == source.(steps := r.value.steps) && |r.value.steps| == |source.steps|
              && forall i {:trigger source.steps[i]} | 0 <= i < |source.steps| ::
                   ResolvedStep(source.steps[i], source.inputs) == Success(r.value.steps[i])
  {
    var steps: seq<StepSource> := [];
    for i := 0 to |source.steps|
      invariant |steps| == i
      invariant forall k {:trigger source.steps[k]} | 0 <= k < i ::
                  && ValueBound(Args(source.steps[k]), source.inputs)
                  && ResolvedStep(source.steps[k], source.inputs) == Success(steps[k])
    {
      ValueResolves(Args(source.steps[i]), source.inputs);
      var step := ResolvedStep(source.steps[i], source.inputs);
      if step.Failure? { return Failure(step.error); }
      steps := steps + [step.value];
    }
    r := Success(source.(steps := steps));
  }

  // ----- build-graph.ts -----

  function StepIds(steps: seq<StepSource>): set<string> {
    set s | s in steps :: s.id
  }

  /** Every dependency names a step of the workflow. */
  ghost predicate DepsKnown(steps: seq<StepSource>) {
    forall i {:trigger steps[i]} | 0 <= i < |steps| :: forall d | d in Deps(steps[i]) :: d in StepIds(steps)
  }

  /** `new Map(...)`: for a repeated id the last step counts. */
  function DepsMap(steps: seq<StepSource>): map<string, seq<string>> {
    if steps == [] then map[]
    else DepsMap(steps[..|steps| - 1])[steps[|steps| - 1].id := Deps(steps[|steps| - 1])]
  }

  lemma {:induction false} DepsMapKeys(steps: seq<StepSource>)
    ensures DepsMap(steps).Keys == StepIds(steps)
  {
    if steps != [] {
      DepsMapKeys(steps[..|steps| - 1]);
      assert steps == steps[..|steps| - 1] + [steps[|steps| - 1]];
    }
  }

  lemma {:induction false} DepsMapLooksUp(steps: seq<StepSource>, i: nat)
    requires DistinctIds(steps) && i < |steps|
    ensures steps[i].id in DepsMap(steps) && DepsMap(steps)[steps[i].id] == Deps(steps[i])
    decreases |steps|
  {
    var n := |steps| - 1;
    if i < n {
      var rest := steps[..n];
      assert DistinctIds(rest) by {
        forall j, k | 0 <= j < k < |rest| ensures rest[j].id != rest[k].id {
          assert rest[j] == steps[j] && rest[k] == steps[k];
        }
      }
      DepsMapLooksUp(rest, i);
      assert rest[i] == steps[i];
    }
  }

  function ParseCell(cell: string): Cell {
    if cell == "read" then Read
    else if cell == "research" then Research
    else if cell == "session" then Session
    else Elevated
  }

  function ParseReplay(text: string): ReplayClass {
    if text == "read_only" then ReadOnly
    else if text == "idempotent" then Idempotent
    else if text == "review_before_replay" then ReviewBeforeReplay
    else Unchecked(text)
  }

  function BuildNode(step: StepSource): Node
    requires step.cell.Some?
  {
    var payload := Args(step);
    Node(step.id, ParseCell(step.cell.value), step.cell.value + "-bridge-v1", step.action, Deps(step), payload,
         HashJson(payload), ParseReplay(if step.replayClass.Some? then step.replayClass.value else "idempotent"))
  }

  /** `buildGraph` on a normalised workflow */
  method BuildGraph(steps: seq<StepSource>) returns (r: Result<seq<Node>>, ghost order: seq<string>)
    requires forall i | 0 <= i < |steps| :: steps[i].cell.Some?
    ensures r.Success? <==> DepsKnown(steps) && !Cyclic(DepsMap(steps))
    ensures r.Success? ==>
              && |r.value| == |steps| && (forall i {:trigger r.value[i]} | 0 <= i < |steps| ::
                  r.value[i] == BuildNode(steps[i]))
              && Topological(DepsMap(steps), order) && forall id | id in DepsMap(steps) :: id in order
  {
    order := [];
    for i := 0 to |steps|
      invariant forall k {:trigger steps[k]} | 0 <= k < i :: forall d | d in Deps(steps[k]) :: d in StepIds(steps)
    {
      if d :| d in Deps(steps[i]) && d !in StepIds(steps) {
        return Failure("Step depends on unknown step."), [];
      }
    }
    var ids := seq(|steps|, i requires 0 <= i < |steps| => steps[i].id);
    DepsMapKeys(steps);
    SameIds(steps, ids);
    var ok;
    ok, order := DetectCycles(ids, DepsMap(steps));
    if !ok { return Failure("Dependency cycle detected."), []; }
    r := Success(seq(|steps|, i requires 0 <= i < |steps| => BuildNode(steps[i])));
  }

  lemma SameIds(steps: seq<StepSource>, ids: seq<string>)
    requires |ids| == |steps| && forall i | 0 <= i < |steps| :: ids[i] == steps[i].id
    ensures forall id :: id in StepIds(steps) <==> id in ids
  {
  }

  // ----- the whole compiler -----

  ghost predicate Acceptable(source: Workflow) {
    && Normalizable(source)
    && (forall i {:trigger source.steps[i]} | 0 <= i < |source.steps| ::
        ValueBound(Args(source.steps[i]), source.inputs))
    && DepsKnown(source.steps)
    && !Cyclic(DepsMap(source.steps))
  }

  /** The node is the step, with defaults filled in and references resolved. */
  ghost predicate Compiled(step: StepSource, inputs: map<string, Input>, n: Node) {
    && n.id == step.id && n.action == step.action && n.dependsOn == Deps(step)
    && n.cell == ParseCell(CellOf(step)) && n.bridgeId == CellOf(step) + "-bridge-v1"
    && SameShape(Args(step), n.payload, inputs) && n.payloadHash == HashJson(n.payload)
    && n.replayClass == ParseReplay(NormalizedStep(step).replayClass.value)
  }

  /** Normalising changes neither arguments nor dependencies, so both checks see the source. */
  lemma NormalizedSame(source: Workflow, i: nat)
    requires i < |source.steps|
    ensures var s := Normalized(source).steps[i];
            Args(s) == Args(source.steps[i]) && Deps(s) == Deps(source.steps[i]) && s.id == source.steps[i].id
  {
  }

  lemma {:induction false} SameDeps(a: seq<StepSource>, b: seq<StepSource>)
    requires |a| == |b| && forall i {:trigger a[i]} {:trigger b[i]} | 0 <= i < |a| ::
               a[i].id == b[i].id && Deps(a[i]) == Deps(b[i])
    ensures DepsMap(a) == DepsMap(b)
    decreases |a|
  {
    if a != [] {
      SameDeps(a[..|a| - 1], b[..|b| - 1]);
    }
  }

  lemma SameKnown(a: seq<StepSource>, b: seq<StepSource>)
    requires |a| == |b| && forall i {:trigger a[i]} {:trigger b[i]} | 0 <= i < |a| ::
               a[i].id == b[i].id && Deps(a[i]) == Deps(b[i])
    ensures DepsKnown(a) <==> DepsKnown(b)
  {
  }

  ghost predicate SameSkeleton(steps: seq<StepSource>, graph: seq<Node>) {
    |graph| == |steps| &&
    forall i {:trigger graph[i]} {:trigger steps[i]} | 0 <= i < |steps| ::
      graph[i].id == steps[i].id && graph[i].dependsOn == Deps(steps[i])
  }

  lemma CompiledIsUnique(steps: seq<StepSource>, graph: seq<Node>)
    requires DistinctIds(steps) && SameSkeleton(steps, graph)
    ensures UniqueIds(graph)
  {
  }

  lemma CompiledIsRanked(steps: seq<StepSource>, graph: seq<Node>, order: seq<string>)
    requires DistinctIds(steps) && DepsKnown(steps) && SameSkeleton(steps, graph)
    requires Topological(DepsMap(steps), order) && forall id | id in DepsMap(steps) :: id in order
    ensures exists rank :: Ranked(graph, rank)
  {
    GraphIds(steps, graph);
    DepsMapKeys(steps);
    var rank := map id | id in Ids(graph) :: IndexOf(order, id);
    forall n, d | Edge(graph, n, d) ensures n.id in rank && d in rank && rank[d] < rank[n.id] {
      var i :| 0 <= i < |graph| && graph[i] == n;
      DepsMapLooksUp(steps, i);
      assert d in Deps(steps[i]);
      EdgeDescends(DepsMap(steps), order, n.id, d);
    }
    assert Ranked(graph, rank);
  }

  /** The compiled graph satisfies what every theorem about runs assumes. */
  lemma CompiledIsWellFormed(steps: seq<StepSource>, graph: seq<Node>, order: seq<string>)
    requires DistinctIds(steps) && DepsKnown(steps) && SameSkeleton(steps, graph)
    requires forall i {:trigger graph[i]} | 0 <= i < |graph| :: graph[i].payloadHash == HashJson(graph[i].payload)
    requires Topological(DepsMap(steps), order) && forall id | id in DepsMap(steps) :: id in order
    ensures WellFormed(graph)
  {
    CompiledIsUnique(steps, graph);
    CompiledIsRanked(steps, graph, order);
    forall n | n in graph ensures n.payloadHash == HashJson(n.payload) {
      var i :| 0 <= i < |graph| && graph[i] == n;
    }
  }

  lemma GraphIds(steps: seq<StepSource>, graph: seq<Node>)
    requires |graph| == |steps| && forall i | 0 <= i < |steps| :: steps[i].id == graph[i].id
    ensures Ids(graph) == StepIds(steps)
  {
  }

  /** The steps after both passes, as `buildGraph` gets them. */
  ghost predicate Prepared(source: Workflow, steps: seq<StepSource>) {
    |steps| == |source.steps| &&
    forall i {:trigger steps[i]} {:trigger source.steps[i]} | 0 <= i < |steps| ::
      ResolvedStep(NormalizedStep(source.steps[i]), source.inputs) == Success(steps[i])
  }

  lemma PreparedDeps(source: Workflow, steps: seq<StepSource>)
    requires Prepared(source, steps)
    ensures DepsMap(steps) == DepsMap(source.steps) && (DepsKnown(steps) <==> DepsKnown(source.steps))
    ensures forall i | 0 <= i < |steps| :: steps[i].cell.Some?
    ensures DistinctIds(source.steps) ==> DistinctIds(steps)
  {
    forall i | 0 <= i < |steps|
      ensures steps[i].id == source.steps[i].id && Deps(steps[i]) == Deps(source.steps[i]) && steps[i].cell.Some? {
      assert ResolvedStep(NormalizedStep(source.steps[i]), source.inputs) == Success(steps[i]);
    }
    SameDeps(steps, source.steps);
    SameKnown(steps, source.steps);
  }

  lemma PreparedCompiles(source: Workflow, steps: seq<StepSource>, i: nat)
    requires Prepared(source, steps) && i < |steps|
    ensures steps[i].cell.Some? && Compiled(source.steps[i], source.inputs, BuildNode(steps[i]))
  {
    ValueResolves(Args(source.steps[i]), source.inputs);
    assert ResolvedStep(NormalizedStep(source.steps[i]), source.inputs) == Success(steps[i]);
  }

  lemma BuiltSkeleton(steps: seq<StepSource>, graph: seq<Node>)
    requires |graph| == |steps| && forall i {:trigger graph[i]} | 0 <= i < |steps| ::
               steps[i].cell.Some? && graph[i] == BuildNode(steps[i])
    ensures SameSkeleton(steps, graph)
    ensures forall i {:trigger graph[i]} | 0 <= i < |graph| :: graph[i].payloadHash == HashJson(graph[i].payload)
  {
    forall i | 0 <= i < |steps| ensures graph[i].id == steps[i].id && graph[i].dependsOn == Deps(steps[i]) {
      assert graph[i].id == steps[i].id;
    }
  }

  lemma GraphCompiles(source: Workflow, steps: seq<StepSource>, graph: seq<Node>, order: seq<string>)
    requires Prepared(source, steps) && DistinctIds(source.steps) && DepsKnown(steps)
    requires |graph| == |steps| && forall i {:trigger graph[i]} | 0 <= i < |steps| ::
               steps[i].cell.Some? && graph[i] == BuildNode(steps[i])
    requires Topological(DepsMap(steps), order) && forall id | id in DepsMap(steps) :: id in order
    ensures WellFormed(graph)
    ensures forall i {:trigger graph[i]} | 0 <= i < |graph| :: Compiled(source.steps[i], source.inputs, graph[i])
  {
    PreparedDeps(source, steps);
    BuiltSkeleton(steps, graph);
    CompiledIsWellFormed(steps, graph, order);
    forall i | 0 <= i < |graph| ensures Compiled(source.steps[i], source.inputs, graph[i]) {
      PreparedCompiles(source, steps, i);
    }
  }

  lemma NormalizedBound(source: Workflow)
    ensures (forall i {:trigger source.steps[i]} | 0 <= i < |source.steps| ::
              ValueBound(Args(source.steps[i]), source.inputs))
            <==> var n := Normalized(source);
                 forall i {:trigger n.steps[i]} | 0 <= i < |n.steps| :: ValueBound(Args(n.steps[i]), n.inputs)
  {
    var n := Normalized(source);
    forall i | 0 <= i < |source.steps| ensures Args(n.steps[i]) == Args(source.steps[i]) {
      NormalizedSame(source, i);
    }
  }

  /** `compileWorkflow`: acceptance is exact, order and count of steps are kept. */
  method CompileWorkflow(source: Workflow) returns (r: Result<seq<Node>>)
    ensures r.Success? <==> Acceptable(source)
    ensures r.Success? ==>
              && WellFormed(r.value)
              && |r.value| == |source.steps|
              && forall i {:trigger r.value[i]} | 0 <= i < |r.value| ::
                  Compiled(source.steps[i], source.inputs, r.value[i])
  {
    var normalized := NormalizeWorkflow(source);
    if normalized.Failure? { return Failure(normalized.error); }
    var n := normalized.value;
    NormalizedBound(source);
    var resolved := ResolveVariables(n);
    if resolved.Failure? { return Failure(resolved.error); }
    var steps := resolved.value.steps;
    ResolvedIsPrepared(source, n, steps);
    PreparedDeps(source, steps);
    ghost var order;
    r, order := BuildGraph(steps);
    if r.Success? {
      GraphCompiles(source, steps, r.value, order);
    }
  }

  lemma ResolvedIsPrepared(source: Workflow, n: Workflow, steps: seq<StepSource>)
    requires n == Normalized(source) && |steps| == |n.steps|
    requires forall i {:trigger n.steps[i]} | 0 <= i < |n.steps| ::
               ResolvedStep(n.steps[i], n.inputs) == Success(steps[i])
    ensures Prepared(source, steps)
  {
    forall i | 0 <= i < |steps|
      ensures ResolvedStep(NormalizedStep(source.steps[i]), source.inputs) == Success(steps[i]) {
      assert n.steps[i] == NormalizedStep(source.steps[i]);
    }
  }
}
