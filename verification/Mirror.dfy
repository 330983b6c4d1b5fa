/** packages/runtime/src/control-plane/taskflow-mirror.ts: run summaries and their index. */
module Mirror {
  import opened Base
  import opened Records
  import opened Index
  import opened Invariant
  import opened Reachability
  import opened Audit

  datatype MirroredState = MirrorRunning | MirrorWaiting | MirrorBlocked | MirrorDone | MirrorCancelled

  datatype WaitingOn = WaitingOn(stepId: StepId)

  datatype Blocked = StepFailed(stepId: StepId) | RunQuarantined

  datatype MirrorRecord = MirrorRecord(
    runId: string,
    runState: RunState,
    mirroredState: MirroredState,
    currentStep: Option<StepId>,
    waitingOn: Option<WaitingOn>,
    blocked: Option<Blocked>,
    done: bool,
    updatedAt: Time,
    stepStates: map<StepId, StepState>)

  /** What the index repeats of a record. */
  datatype Summary = Summary(runState: RunState, mirroredState: MirroredState)

  function MapRunState(state: RunState): MirroredState {
    match state
    case AwaitingApproval => MirrorWaiting
    case Running => MirrorRunning
    case Ready => MirrorRunning
    case Failed => MirrorBlocked
    case Rejected => MirrorBlocked
    case Quarantined => MirrorBlocked
    case Cancelled => MirrorCancelled
    case Succeeded => MirrorDone
    case _ => MirrorBlocked
  }

  /** `Object.entries(manifest.steps).find(...)`, with the keys in their enumeration order. */
  function FindStep(m: Manifest, keys: seq<StepId>, state: StepState): (id: Option<StepId>)
    ensures id.Some? ==> id.value in m.steps && m.steps[id.value].state == state && id.value in keys
    ensures id.None? ==> forall k | k in keys && k in m.steps :: m.steps[k].state != state
  {
    if keys == [] then None
    else if keys[0] in m.steps && m.steps[keys[0]].state == state then Some(keys[0])
    else FindStep(m, keys[1..], state)
  }

  function FirstOf(a: Option<StepId>, b: Option<StepId>): Option<StepId> {
    if a.Some? then a else b
  }

  function BuildRecord(runId: string, m: Manifest, keys: seq<StepId>): MirrorRecord {
    var awaiting := FindStep(m, keys, StepState.AwaitingApproval);
    var running := FindStep(m, keys, StepState.Running);
    var failed := FindStep(m, keys, StepState.Failed);
    MirrorRecord(runId, m.state, MapRunState(m.state), FirstOf(awaiting, FirstOf(running, failed)),
                 if awaiting.Some? then Some(WaitingOn(awaiting.value)) else None,
                 if failed.Some? then Some(StepFailed(failed.value))
                 else if m.state == RunState.Quarantined then Some(RunQuarantined) else None,
                 m.state == RunState.Succeeded, m.updatedAt, map id | id in m.steps :: m.steps[id].state)
  }

  /** The keys enumerate every step of the manifest. */
  ghost predicate Enumerates(keys: seq<StepId>, m: Manifest) {
    forall id {:trigger m.steps[id]} | id in m.steps :: id in keys
  }

  /** Which mirrored state stands for which run state, and what the record repeats of the run. */
  lemma RecordRepeatsRun(runId: string, m: Manifest, keys: seq<StepId>)
    ensures var r := BuildRecord(runId, m, keys);
            && r.runId == runId && r.runState == m.state && r.updatedAt == m.updatedAt
            && (r.mirroredState == MirrorWaiting <==> m.state == RunState.AwaitingApproval)
            && (r.mirroredState == MirrorRunning <==> m.state == RunState.Running || m.state == RunState.Ready)
            && (r.mirroredState == MirrorDone <==> m.state == RunState.Succeeded)
            && (r.mirroredState == MirrorCancelled <==> m.state == RunState.Cancelled)
            && (r.done <==> m.state == RunState.Succeeded)
            && r.stepStates.Keys == m.steps.Keys
            && forall id | id in m.steps :: r.stepStates[id] == m.steps[id].state
  {
  }

  /** The first key in enumeration order whose step is in this state. */
  ghost predicate IsFirst(m: Manifest, keys: seq<StepId>, state: StepState, id: StepId) {
    exists i {:trigger keys[i]} :: 0 <= i < |keys| && keys[i] == id && id in m.steps && m.steps[id].state == state
                                   && forall j | 0 <= j < i && keys[j] in m.steps :: m.steps[keys[j]].state != state
  }

  lemma {:induction false} FindsFirst(m: Manifest, keys: seq<StepId>, state: StepState)
    ensures FindStep(m, keys, state).Some? ==> IsFirst(m, keys, state, FindStep(m, keys, state).value)
  {
    if keys != [] && !(keys[0] in m.steps && m.steps[keys[0]].state == state) {
      FindsFirst(m, keys[1..], state);
      if FindStep(m, keys, state).Some? {
        var id := FindStep(m, keys, state).value;
        var i :| 0 <= i < |keys[1..]| && keys[1..][i] == id
                 && forall j | 0 <= j < i && keys[1..][j] in m.steps :: m.steps[keys[1..][j]].state != state;
        assert keys[i + 1] == id;
        forall j | 0 <= j < i + 1 && keys[j] in m.steps ensures m.steps[keys[j]].state != state {
          if j > 0 { assert keys[j] == keys[1..][j - 1]; }
        }
      }
    } else if keys != [] {
      assert keys[0] == FindStep(m, keys, state).value;
    }
  }

  /** The optional id is the first step in this state, and none exactly when there is no such step. */
  ghost predicate Picks(m: Manifest, keys: seq<StepId>, state: StepState, id: Option<StepId>) {
    (id.Some? <==> SomeStep(m, state)) && (id.Some? ==> IsFirst(m, keys, state, id.value))
  }

  /** Which steps the record names: the first awaiting one, else the first running, else the first failed. */
  lemma RecordNamesSteps(runId: string, m: Manifest, keys: seq<StepId>)
    requires Enumerates(keys, m)
    ensures var r := BuildRecord(runId, m, keys);
            && Picks(m, keys, if SomeStep(m, StepState.AwaitingApproval) then StepState.AwaitingApproval
                              else if SomeStep(m, StepState.Running) then StepState.Running
                              else StepState.Failed, r.currentStep)
            && (r.waitingOn.Some? <==> SomeStep(m, StepState.AwaitingApproval))
            && (r.waitingOn.Some? ==> r.currentStep == Some(r.waitingOn.value.stepId))
            && (SomeStep(m, StepState.Failed) ==>
                  && r.blocked.Some? && r.blocked.value.StepFailed?
                  && IsFirst(m, keys, StepState.Failed, r.blocked.value.stepId))
            && (!SomeStep(m, StepState.Failed) ==>
                  r.blocked == if m.state == RunState.Quarantined then Some(RunQuarantined) else None)
  {
    FindsPicks(m, keys, StepState.AwaitingApproval);
    FindsPicks(m, keys, StepState.Running);
    FindsPicks(m, keys, StepState.Failed);
  }

  lemma FindsPicks(m: Manifest, keys: seq<StepId>, state: StepState)
    requires Enumerates(keys, m)
    ensures Picks(m, keys, state, FindStep(m, keys, state))
  {
    FindsFirst(m, keys, state);
    if SomeStep(m, state) {
      var id :| id in m.steps && m.steps[id].state == state;
      assert id in keys;
    }
  }

  /** A waiting mirror names a step that awaits approval. */
  ghost predicate NamesWaitingStep(r: MirrorRecord, m: Manifest) {
    && r.waitingOn.Some? && r.currentStep == Some(r.waitingOn.value.stepId)
    && r.waitingOn.value.stepId in m.steps
    && m.steps[r.waitingOn.value.stepId].state == StepState.AwaitingApproval
  }

  /** A mirror blocked by a failed run names a step that failed. */
  ghost predicate NamesFailedStep(r: MirrorRecord, m: Manifest) {
    && r.blocked.Some? && r.blocked.value.StepFailed?
    && r.blocked.value.stepId in m.steps
    && m.steps[r.blocked.value.stepId].state == StepState.Failed
  }

  /** What a mirror says is true of the steps, whenever run state and step states agree. */
  lemma MirrorTellsTruth(runId: string, m: Manifest, keys: seq<StepId>)
    requires Agreement(m) && Enumerates(keys, m)
    ensures var r := BuildRecord(runId, m, keys);
            && (r.mirroredState == MirrorWaiting ==> NamesWaitingStep(r, m))
            && (r.mirroredState == MirrorDone ==> r.done && forall id | id in r.stepStates ::
                r.stepStates[id] == StepState.Succeeded)
            && (r.mirroredState == MirrorBlocked && r.runState == RunState.Failed ==> NamesFailedStep(r, m))
  {
  }

  /** So the mirror of every reachable stored run tells the truth. */
  lemma ReachedMirror(env: Env, graph: seq<Node>, w: World, runId: string, keys: seq<StepId>)
    requires Clocked(env) && WellFormed(graph) && Reached(env, graph, w) && Enumerates(keys, w.ledger.manifest)
    ensures var m := w.ledger.manifest;
            var r := BuildRecord(runId, m, keys);
            && (r.mirroredState == MirrorWaiting ==> NamesWaitingStep(r, m))
            && (r.mirroredState == MirrorDone ==> AllSucceeded(m))
            && (r.mirroredState == MirrorBlocked && r.runState == RunState.Failed ==> NamesFailedStep(r, m))
  {
    StatesAgree(env, graph, w);
    MirrorTellsTruth(runId, w.ledger.manifest, keys);
  }

  /** The record is the mirror of some reachable stored run. */
  ghost predicate MirrorOfRun(r: MirrorRecord) {
    exists env, graph, w, keys {:trigger Reached(env, graph, w), Enumerates(keys, w.ledger.manifest)} ::
      && Clocked(env) && WellFormed(graph) && Reached(env, graph, w) && Enumerates(keys, w.ledger.manifest)
      && r == BuildRecord(r.runId, w.ledger.manifest, keys)
  }

  /** Such a record that waits names a step which it itself lists as awaiting approval. */
  lemma MirrorOfRunWaits(r: MirrorRecord)
    requires MirrorOfRun(r) && r.mirroredState == MirrorWaiting
    ensures r.waitingOn.Some? && r.waitingOn.value.stepId in r.stepStates
    ensures r.stepStates[r.waitingOn.value.stepId] == StepState.AwaitingApproval
  {
    var env, graph, w, keys :|
      && Clocked(env) && WellFormed(graph) && Reached(env, graph, w) && Enumerates(keys, w.ledger.manifest)
      && r == BuildRecord(r.runId, w.ledger.manifest, keys);
    ReachedMirror(env, graph, w, r.runId, keys);
  }

  function Summarise(r: MirrorRecord): Entry<Summary> {
    Entry(r.runId, r.updatedAt, Summary(r.runState, r.mirroredState))
  }

  function Summaries(records: map<string, MirrorRecord>): map<string, Entry<Summary>> {
    map id | id in records :: Summarise(records[id])
  }

  /** Each index entry repeats the states and the time of its run's record. */
  lemma ListedRun(records: map<string, MirrorRecord>, index: seq<Entry<Summary>>, e: Entry<Summary>)
    requires Lists(index, Summaries(records)) && e in index
    requires forall id | id in records :: records[id].runId == id
    ensures e.key in records
    ensures e == Entry(records[e.key].runId, records[e.key].updatedAt,
                       Summary(records[e.key].runState, records[e.key].mirroredState))
  {
  }

  lemma SameKeys(records: map<string, MirrorRecord>)
    ensures Summaries(records) == map[] <==> records == map[]
  {
  }

  lemma SummariesOfUpdate(records: map<string, MirrorRecord>, r: MirrorRecord)
    ensures Summaries(records[r.runId := r]) == Summaries(records)[r.runId := Summarise(r)]
  {
  }

  /** The mirror directory: one record per run, and the index. */
  class MirrorStore {
    var records: map<string, MirrorRecord>
    var index: seq<Entry<Summary>>

    constructor ()
      ensures records == map[] && index == [] && Valid()
    {
      records, index := map[], [];
    }

    /** Records are filed under their run, and the index lists exactly them, by time. */
    ghost predicate Valid()
      reads this
    {
      && (forall id {:trigger records[id]} | id in records :: records[id].runId == id)
      && Lists(index, Summaries(records))
    }

    /** `syncTaskflowMirror` */
    method Sync(runId: string, m: Manifest, keys: seq<StepId>) returns (r: MirrorRecord)
      requires Valid() && Enumerates(keys, m)
      modifies this
      ensures Valid() && r == BuildRecord(runId, m, keys)
      ensures Agreement(m) && r.mirroredState == MirrorWaiting ==> NamesWaitingStep(r, m)
      ensures records == old(records)[runId := r]
      ensures index == Upsert(old(index), Summarise(r))
    {
      r := BuildRecord(runId, m, keys);
      SummariesOfUpdate(records, r);
      UpsertLists(index, Summaries(records), Summarise(r));
      records := records[runId := r];
      var runs := Without(index, runId);
      runs := runs + [Summarise(r)];
      index := SortByTime(runs);
    }

    /** `taskflowMirrorStatus().latestRun`: the last entry of the index, the most recently updated run. */
    method LatestRun() returns (latest: Option<Entry<Summary>>)
      requires Valid()
      ensures latest.None? <==> records == map[]
      ensures latest.Some? ==>
                && latest.value.key in records
                && latest.value == Summarise(records[latest.value.key])
                && forall id | id in records :: records[id].updatedAt <= latest.value.updatedAt
    {
      LastIsLatest(index, Summaries(records));
      if index == [] {
        SameKeys(records);
        return None;
      }
      latest := Some(index[|index| - 1]);
      forall id | id in records ensures records[id].updatedAt <= latest.value.updatedAt {
        assert Summaries(records)[id].updatedAt == records[id].updatedAt;
      }
    }
  }
}
