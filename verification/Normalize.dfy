/** packages/runtime/src/compiler/normalize-workflow.ts and `normalizeStepId` of packages/shared/src/ids.ts */
module Normalize {
  import opened Base
  import opened Json

  /** A workflow as it comes out of a JSON file: nothing about its strings is checked yet. */
  datatype StepSource = StepSource(
    id: string,
    action: string,
    cell: Option<string>,
    dependsOn: Option<seq<string>>,
    args: Option<Json>,
    replayClass: Option<string>)

  datatype Input = TextInput(s: string) | NumberInput(text: string) | FlagInput(b: bool)

  datatype Workflow = Workflow(
    schemaVersion: string,
    name: string,
    inputs: map<string, Input>,
    steps: seq<StepSource>)

  const CELLS: set<string> := {"read", "research", "session", "elevated"}
  const ACTIONS: set<string> :=
    {"read_file", "list_files", "research_note", "session_note", "exec_command", "apply_patch"}

  predicate IsAlphanumeric(c: char) {
    'A' <= c <= 'Z' || 'a' <= c <= 'z' || '0' <= c <= '9'
  }

  predicate IsKeyChar(c: char) {
    IsAlphanumeric(c) || c == '_' || c == '-'
  }

  /** 1 to 64 alphanumeric, dash or underscore characters, the first alphanumeric. */
  predicate ValidId(id: string) {
    1 <= |id| <= 64 && IsAlphanumeric(id[0]) && forall i | 0 <= i < |id| :: IsKeyChar(id[i])
  }

  function InferCell(action: string): string {
    if action == "read_file" || action == "list_files" then "read"
    else if action == "research_note" then "research"
    else if action == "session_note" then "session"
    else "elevated"
  }

  function CellOf(step: StepSource): string {
    if step.cell.Some? then step.cell.value else InferCell(step.action)
  }

  function DefaultReplay(cell: string): string {
    if cell == "read" then "read_only" else if cell == "elevated" then "review_before_replay" else "idempotent"
  }

  /** A step with every default filled in. */
  function NormalizedStep(step: StepSource): StepSource {
    StepSource(step.id, step.action, Some(CellOf(step)),
               Some(if step.dependsOn.Some? then step.dependsOn.value else []),
               Some(if step.args.Some? then step.args.value else Obj([])),
               Some(if step.replayClass.Some? then step.replayClass.value else DefaultReplay(CellOf(step))))
  }

  function Normalized(source: Workflow): Workflow {
    source.(steps := seq(|source.steps|, i requires 0 <= i < |source.steps| => NormalizedStep(source.steps[i])))
  }

  ghost predicate HeaderValid(source: Workflow) {
    source.schemaVersion == "toolflow.workflow/v1" && source.name != "" && source.steps != []
  }

  predicate StepAccepted(step: StepSource) {
    ValidId(step.id) && step.action in ACTIONS && CellOf(step) in CELLS
  }

  ghost predicate DistinctIds(steps: seq<StepSource>) {
    forall i, j {:trigger steps[i], steps[j]} | 0 <= i < j < |steps| :: steps[i].id != steps[j].id
  }

  ghost predicate Normalizable(source: Workflow) {
    && HeaderValid(source)
    && (forall i {:trigger source.steps[i]} | 0 <= i < |source.steps| :: StepAccepted(source.steps[i]))
    && DistinctIds(source.steps)
  }

  /** What `normalizeStep` returns, besides the check for duplicates. */
  function CheckedStep(step: StepSource): (r: Result<StepSource>)
    ensures r.Success? <==> StepAccepted(step)
    ensures r.Success? ==> r.value == NormalizedStep(step)
  {
    if !ValidId(step.id) then Failure("Invalid step id.")
    else if step.action !in ACTIONS then Failure("Action is not supported by ToolFlow.")
    else if CellOf(step) !in CELLS then Failure("Cell is not supported by ToolFlow.")
    else Success(NormalizedStep(step))
  }

  /** The ids of the first i steps, which are distinct, are those in `seen`. */
  ghost predicate Seen(source: seq<StepSource>, i: nat, seen: set<string>)
    requires i <= |source|
  {
    && (forall k {:trigger source[k]} | 0 <= k < i :: source[k].id in seen)
    && (forall x {:trigger x in seen} | x in seen :: exists k {:trigger source[k]} :: 0 <= k < i && source[k].id == x)
    && DistinctIds(source[..i])
  }

  lemma SeenStep(source: seq<StepSource>, i: nat, seen: set<string>)
    requires i < |source| && Seen(source, i, seen) && source[i].id !in seen
    ensures Seen(source, i + 1, seen + {source[i].id})
  {
  }

  lemma AllChecked(source: Workflow, steps: seq<StepSource>)
    requires |steps| == |source.steps|
    requires forall k {:trigger steps[k]} | 0 <= k < |steps| :: CheckedStep(source.steps[k]) == Success(steps[k])
    ensures forall k {:trigger source.steps[k]} | 0 <= k < |steps| :: StepAccepted(source.steps[k])
    ensures source.(steps := steps) == Normalized(source)
  {
    forall k | 0 <= k < |steps| ensures StepAccepted(source.steps[k]) && steps[k] == Normalized(source).steps[k] {
      assert CheckedStep(source.steps[k]) == Success(steps[k]);
    }
    assert steps == Normalized(source).steps;
  }

  /** `normalizeWorkflow`: the steps in order, with the set of ids seen so far. */
  method NormalizeWorkflow(source: Workflow) returns (r: Result<Workflow>)
    ensures r.Success? <==> Normalizable(source)
    ensures r.Success? ==> r.value == Normalized(source)
  {
    if source.schemaVersion != "toolflow.workflow/v1" { return Failure("Unsupported workflow schemaVersion."); }
    if source.name == "" { return Failure("Workflow name is required."); }
    if source.steps == [] { return Failure("Workflow must include at least one step."); }
    var seen: set<string> := {};
    var steps: seq<StepSource> := [];
    for i := 0 to |source.steps|
      invariant |steps| == i && Seen(source.steps, i, seen)
      invariant forall k {:trigger steps[k]} | 0 <= k < i :: CheckedStep(source.steps[k]) == Success(steps[k])
    {
      var id := source.steps[i].id;
      if ValidId(id) && id in seen {
        assert !DistinctIds(source.steps);
        return Failure("Duplicate step id.");
      }
      var checked := CheckedStep(source.steps[i]);
      if checked.Failure? { return Failure(checked.error); }
      SeenStep(source.steps, i, seen);
      seen := seen + {source.steps[i].id};
      steps := steps + [checked.value];
    }
    assert source.steps[..|source.steps|] == source.steps;
    AllChecked(source, steps);
    r := Success(source.(steps := steps));
  }

  /** Normalising again accepts and changes nothing. */
  lemma NormalizeIdempotent(source: Workflow)
    requires Normalizable(source)
    ensures Normalizable(Normalized(source)) && Normalized(Normalized(source)) == Normalized(source)
  {
  }
}
