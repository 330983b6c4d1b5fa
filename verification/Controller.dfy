/** packages/runtime/src/control-plane/taskflow-controller.ts: one flow over several linked runs. */
module Controller {
  import opened Base
  import opened Records
  import opened Index
  import opened Mirror

  datatype FlowStatus = FlowRunning | FlowWaiting | FlowBlocked | FlowDone | FlowFailed | FlowCancelled

  datatype LinkedRun = LinkedRun(runId: string, runState: RunState, mirroredState: MirroredState, updatedAt: Time)

  /** Why the flow does what it does next, in place of the message texts. */
  datatype NextAction = Other(text: string) | AwaitStep(stepId: StepId) | AwaitRun(runId: string)
                      | ReviewRun(runId: string) | EvaluateRun(runId: string)

  datatype FlowBlock = FromMirror(blocked: Blocked) | LinkedBlocked(runId: string)

  datatype Flow = Flow(
    flowId: string,
    status: FlowStatus,
    currentStep: string,
    nextAction: NextAction,
    waitJson: Option<WaitingOn>,
    blockedSummary: Option<FlowBlock>,
    cancelledBy: Option<string>,
    linkedRuns: seq<LinkedRun>,
    updatedAt: Time)

  type MirrorFiles = map<string, MirrorRecord>

  /** What one mirror record does to the flow's own fields. */
  function Absorb(flow: Flow, r: MirrorRecord): Flow {
    match r.mirroredState
    case MirrorWaiting =>
      flow.(status := FlowWaiting,
            currentStep := if r.currentStep.Some? then r.currentStep.value else flow.currentStep,
            nextAction := if r.waitingOn.Some? then AwaitStep(r.waitingOn.value.stepId) else AwaitRun(r.runId),
            waitJson := r.waitingOn)
    case MirrorBlocked =>
      flow.(status := FlowBlocked,
            currentStep := if r.currentStep.Some? then r.currentStep.value else flow.currentStep,
            nextAction := ReviewRun(r.runId),
            blockedSummary := Some(if r.blocked.Some? then FromMirror(r.blocked.value) else LinkedBlocked(r.runId)))
    case MirrorDone => flow.(status := FlowRunning, nextAction := EvaluateRun(r.runId), waitJson := None)
    case MirrorCancelled => flow.(status := FlowCancelled, cancelledBy := Some(r.runId))
    case MirrorRunning => flow
  }

  /** The link to this run repeats the record's states and time. */
  ghost predicate UpToDate(linked: LinkedRun, runId: string, r: MirrorRecord) {
    linked == LinkedRun(runId, r.runState, r.mirroredState, r.updatedAt)
  }

  ghost predicate AllMirrored(linked: seq<LinkedRun>, records: MirrorFiles) {
    forall i {:trigger linked[i]} | 0 <= i < |linked| ::
        linked[i].runId in records && records[linked[i].runId].runId == linked[i].runId
  }

  /** The flow after its first n linked runs were looked at. */
  ghost function Absorbed(flow: Flow, records: MirrorFiles, n: nat): Flow
    requires n <= |flow.linkedRuns| && AllMirrored(flow.linkedRuns[..n], records)
  {
    if n == 0 then flow
    else
      assert forall i | 0 <= i < n :: flow.linkedRuns[..n][i] == flow.linkedRuns[i];
      Absorb(Absorbed(flow, records, n - 1), records[flow.linkedRuns[n - 1].runId])
  }

  lemma MirroredPrefix(linked: seq<LinkedRun>, records: MirrorFiles, n: nat)
    requires n <= |linked| && AllMirrored(linked, records)
    ensures AllMirrored(linked[..n], records)
  {
  }

  /** The flow after all its linked runs were looked at. */
  ghost function AbsorbedAll(flow: Flow, records: MirrorFiles): Flow
    requires AllMirrored(flow.linkedRuns, records)
  {
    MirroredPrefix(flow.linkedRuns, records, |flow.linkedRuns|);
    Absorbed(flow, records, |flow.linkedRuns|)
  }

  function RecordOf(flow: Flow, records: MirrorFiles, i: nat): MirrorRecord
    requires i < |flow.linkedRuns| && flow.linkedRuns[i].runId in records
  {
    records[flow.linkedRuns[i].runId]
  }

  /** k is the last of the first n linked runs whose mirror is not `running`. */
  ghost predicate LastSettled(flow: Flow, records: MirrorFiles, n: nat, k: nat)
    requires n <= |flow.linkedRuns| && AllMirrored(flow.linkedRuns[..n], records)
  {
    && k < n && RecordOf(flow, records, k).mirroredState != MirrorRunning
    && forall i | k < i < n :: RecordOf(flow, records, i).mirroredState == MirrorRunning
  }

  /** The flow shows the state of this record. */
  ghost predicate Shows(f: Flow, r: MirrorRecord) {
    && (r.mirroredState == MirrorWaiting ==>
          && f.status == FlowWaiting && f.waitJson == r.waitingOn
          && f.nextAction == if r.waitingOn.Some? then AwaitStep(r.waitingOn.value.stepId) else AwaitRun(r.runId))
    && (r.mirroredState == MirrorBlocked ==>
          && f.status == FlowBlocked && f.nextAction == ReviewRun(r.runId)
          && f.blockedSummary == Some(if r.blocked.Some? then FromMirror(r.blocked.value) else LinkedBlocked(r.runId)))
    && (r.mirroredState == MirrorDone ==>
          f.status == FlowRunning && f.nextAction == EvaluateRun(r.runId) && f.waitJson == None)
    && (r.mirroredState == MirrorCancelled ==> f.status == FlowCancelled && f.cancelledBy == Some(r.runId))
    && (r.mirroredState == MirrorWaiting || r.mirroredState == MirrorBlocked ==>
          r.currentStep.Some? ==> f.currentStep == r.currentStep.value)
  }

  /** The last linked run that is not running decides what the flow shows: status, step, wait and next action. */
  lemma {:induction false} StatusIsLastSettled(flow: Flow, records: MirrorFiles, n: nat, k: nat)
    requires n <= |flow.linkedRuns| && AllMirrored(flow.linkedRuns[..n], records) && LastSettled(flow, records, n, k)
    ensures var r := RecordOf(flow, records, k);
            var f := Absorbed(flow, records, n);
            Shows(f, r)
  {
    if n - 1 > k {
      StatusIsLastSettled(flow, records, n - 1, k);
      assert RecordOf(flow, records, n - 1).mirroredState == MirrorRunning;
    }
  }

  /**
    When the mirrors are those of reachable runs and the last one that is not running waits,
    the flow waits, and carries the wait of a step that awaits approval in that run.
  */
  lemma WaitingFlowNamesStep(flow: Flow, records: MirrorFiles, k: nat)
    requires AllMirrored(flow.linkedRuns, records) && AllMirrored(flow.linkedRuns[..|flow.linkedRuns|], records)
    requires LastSettled(flow, records, |flow.linkedRuns|, k)
    requires RecordOf(flow, records, k).mirroredState == MirrorWaiting && MirrorOfRun(RecordOf(flow, records, k))
    ensures var f := AbsorbedAll(flow, records);
            var r := RecordOf(flow, records, k);
            && f.status == FlowWaiting && f.waitJson.Some?
            && f.waitJson.value.stepId in r.stepStates
            && r.stepStates[f.waitJson.value.stepId] == StepState.AwaitingApproval
  {
    StatusIsLastSettled(flow, records, |flow.linkedRuns|, k);
    MirrorOfRunWaits(RecordOf(flow, records, k));
  }

  /** When every linked run is running, the flow keeps its status and its wait. */
  lemma {:induction false} AllRunningKeeps(flow: Flow, records: MirrorFiles, n: nat)
    requires n <= |flow.linkedRuns| && AllMirrored(flow.linkedRuns[..n], records)
    requires forall i | 0 <= i < n :: RecordOf(flow, records, i).mirroredState == MirrorRunning
    ensures Absorbed(flow, records, n) == flow
  {
    if n > 0 {
      AllRunningKeeps(flow, records, n - 1);
      assert RecordOf(flow, records, n - 1).mirroredState == MirrorRunning;
    }
  }

  /** What the index repeats of a flow. */
  datatype FlowSummary = FlowSummary(status: FlowStatus, currentStep: string)

  function SummariseFlow(f: Flow): Entry<FlowSummary> {
    Entry(f.flowId, f.updatedAt, FlowSummary(f.status, f.currentStep))
  }

  function FlowSummaries(flows: map<string, Flow>): map<string, Entry<FlowSummary>> {
    map id | id in flows :: SummariseFlow(flows[id])
  }

  /** Each index entry repeats the status, the step and the time of its flow. */
  lemma ListedFlow(flows: map<string, Flow>, index: seq<Entry<FlowSummary>>, e: Entry<FlowSummary>)
    requires Lists(index, FlowSummaries(flows)) && e in index
    requires forall id | id in flows :: flows[id].flowId == id
    ensures e.key in flows
    ensures e == Entry(flows[e.key].flowId, flows[e.key].updatedAt,
                       FlowSummary(flows[e.key].status, flows[e.key].currentStep))
  {
  }

  lemma SummariesOfFlow(flows: map<string, Flow>, f: Flow)
    ensures FlowSummaries(flows[f.flowId := f]) == FlowSummaries(flows)[f.flowId := SummariseFlow(f)]
  {
  }

  /** The controller directory: flow files and their index. */
  class ControllerStore {
    var flows: map<string, Flow>
    var index: seq<Entry<FlowSummary>>

    constructor ()
      ensures flows == map[] && index == [] && Valid()
    {
      flows, index := map[], [];
    }

    ghost predicate Valid()
      reads this
    {
      && (forall id {:trigger flows[id]} | id in flows :: flows[id].flowId == id)
      && Lists(index, FlowSummaries(flows))
    }

    /** `saveFlow` with `upsertIndex` */
    method SaveFlow(flow: Flow)
      requires Valid()
      modifies this
      ensures Valid() && flows == old(flows)[flow.flowId := flow]
      ensures index == Upsert(old(index), SummariseFlow(flow))
    {
      SummariesOfFlow(flows, flow);
      UpsertLists(index, FlowSummaries(flows), SummariseFlow(flow));
      flows := flows[flow.flowId := flow];
      var items := Without(index, flow.flowId);
      items := items + [SummariseFlow(flow)];
      index := SortByTime(items);
    }

    /** `reconcileControllerFlow`: false when a linked run has no mirror file, which throws. */
    method Reconcile(flowId: string, records: MirrorFiles, now: Time) returns (ok: bool)
      requires Valid()
      requires forall id | id in records :: records[id].runId == id
      modifies this
      ensures Valid()
      ensures ok <==> flowId in old(flows) && AllMirrored(old(flows)[flowId].linkedRuns, records)
      ensures !ok ==> flows == old(flows) && index == old(index)
      ensures ok ==>
                var before := old(flows)[flowId];
                var after := AbsorbedAll(before, records);
                && flowId in flows && |before.linkedRuns| == |flows[flowId].linkedRuns|
                && flows == old(flows)[flowId := after.(linkedRuns := flows[flowId].linkedRuns, updatedAt := now)]
                && forall i | 0 <= i < |before.linkedRuns| ::
                     UpToDate(flows[flowId].linkedRuns[i], before.linkedRuns[i].runId,
                              records[before.linkedRuns[i].runId])
    {
      if flowId !in flows { return false; }
      var flow: Flow;
      ok, flow := AbsorbLinkedRuns(flows[flowId], records);
      if !ok { return; }
      SaveFlow(flow.(updatedAt := now));
    }
  }

  /** The loop of `reconcileControllerFlow` over the linked runs. */
  method AbsorbLinkedRuns(before: Flow, records: MirrorFiles) returns (ok: bool, flow: Flow)
    requires forall id | id in records :: records[id].runId == id
    ensures ok <==> AllMirrored(before.linkedRuns, records)
    ensures ok ==>
              && flow == AbsorbedAll(before, records).(linkedRuns := flow.linkedRuns)
              && flow.flowId == before.flowId && |flow.linkedRuns| == |before.linkedRuns|
              && forall i | 0 <= i < |before.linkedRuns| ::
                   UpToDate(flow.linkedRuns[i], before.linkedRuns[i].runId, records[before.linkedRuns[i].runId])
  {
    flow := before;
    var runs := before.linkedRuns;
    var i := 0;
    while i < |runs|
      invariant 0 <= i <= |runs| && |flow.linkedRuns| == |runs| && flow.flowId == before.flowId
      invariant AllMirrored(runs[..i], records)
      invariant flow == Absorbed(before, records, i).(linkedRuns := flow.linkedRuns)
      invariant forall k | 0 <= k < |runs| ::
                  if k < i then UpToDate(flow.linkedRuns[k], runs[k].runId, records[runs[k].runId])
                  else flow.linkedRuns[k] == runs[k]
    {
      if runs[i].runId !in records {
        return false, before;
      }
      var r := records[runs[i].runId];
      assert runs[..i + 1] == runs[..i] + [runs[i]];
      flow := flow.(linkedRuns := flow.linkedRuns[i := flow.linkedRuns[i].(
                                          runState := r.runState, mirroredState := r.mirroredState,
                                          updatedAt := r.updatedAt)]);
      flow := Absorb(flow, r);
      i := i + 1;
    }
    assert runs[..i] == runs;
    ok := true;
  }
}
