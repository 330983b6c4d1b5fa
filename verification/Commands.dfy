/**
  What each command does to the files, in the ledger's own terms: which states a cancel, an
  approval, a refused resume and a recovery leave, field by field.
*/
module Commands {
  import opened Base
  import opened Hashing
  import opened Records
  import opened Recovery
  import opened Protocol
  import opened Invariant
  import opened SingleUse
  import opened RecoveryLaws
  import opened Quarantine
  import opened Approvals

  // ----- prepare -----

  /** A prepared run: every step pending and nothing else recorded, ready unless it was rejected. */
  lemma PreparedExact(graph: seq<Node>, policyHash: Hash, rejected: bool, at: Time)
    ensures var w := Prepared(graph, policyHash, rejected, at);
            && w.alive && w.tick == 0 && w.crashes == 0 && w.execs == []
            && w.ledger.graph == graph && w.ledger.policyHash == policyHash
            && w.ledger.grants == map[] && w.ledger.receipts == map[] && w.ledger.approvals == map[]
            && w.ledger.manifest.state == (if rejected then RunState.Rejected else RunState.Ready)
            && w.ledger.manifest.updatedAt == at && w.ledger.manifest.steps.Keys == Ids(graph)
            && forall id | id in Ids(graph) ::
                 w.ledger.manifest.steps[id] == StepManifest(StepState.Pending, None, None, None, None)
  {
  }

  // ----- cancel -----

  /** A run that a cancel leaves alone. */
  predicate Over(state: RunState) {
    || state == RunState.Succeeded || state == RunState.Failed
    || state == RunState.Rejected || state == RunState.Cancelled
  }

  predicate Unfinished(state: StepState) {
    || state == StepState.Pending || state == StepState.AwaitingApproval
    || state == StepState.GrantIssued || state == StepState.Running
  }

  /** A cancel whose write is made cancels the run and exactly its unfinished steps, and changes no other file. */
  lemma CancelExact(env: Env, w: World)
    requires !Over(w.ledger.manifest.state) && !env.dies(w.tick)
    ensures var w' := Cancel(env, w);
            var m, m' := w.ledger.manifest, w'.ledger.manifest;
            && w' == w.(alive := true, tick := w.tick + 1, ledger := w.ledger.(manifest := m'))
            && m'.state == RunState.Cancelled && m'.updatedAt == env.now(w.tick)
            && m'.steps.Keys == m.steps.Keys
            && forall id | id in m.steps ::
                 m'.steps[id] == if Unfinished(m.steps[id].state) then m.steps[id].(state := StepState.Cancelled)
                                 else m.steps[id]
  {
  }

  /** A finished run is not cancelled, and a cancel cut short changes no file. */
  lemma CancelChangesNothing(env: Env, w: World)
    requires Over(w.ledger.manifest.state) || env.dies(w.tick)
    ensures Cancel(env, w).ledger == w.ledger && Cancel(env, w).execs == w.execs
    ensures Over(w.ledger.manifest.state) ==> Cancel(env, w) == w.(alive := true)
  {
  }

  // ----- closed runs -----

  /** A run that was rejected or cancelled. */
  predicate Shut(state: RunState) {
    state == RunState.Rejected || state == RunState.Cancelled
  }

  /** A resume returns such a run as it is: no file changes, no handler is called. */
  lemma ResumeReturnsShut(env: Env, w: World)
    requires Shut(w.ledger.manifest.state)
    ensures Resume(env, w) == Frame(w.(alive := true), w.ledger.manifest, true)
  {
  }

  /** A quarantined run makes it throw, with every file as it was. */
  lemma ResumeThrowsQuarantined(env: Env, w: World)
    requires w.ledger.manifest.state == RunState.Quarantined
    ensures Resume(env, w) == Frame(w.(alive := true), w.ledger.manifest, false)
  {
  }

  /** The commands of an operator who neither recovers a run nor edits its files. */
  ghost predicate Everyday(ops: seq<Op>) {
    forall i {:trigger ops[i]} | 0 <= i < |ops| :: ops[i].ResumeOp? || ops[i].CancelOp? || ops[i].ApproveOp?
  }

  /** Nothing ran, and the run is in the same state under the same grants and receipts. */
  ghost predicate StaysShut(w: World, w': World) {
    && w'.ledger.manifest.state == w.ledger.manifest.state && w'.execs == w.execs
    && w'.ledger.grants == w.ledger.grants && w'.ledger.receipts == w.ledger.receipts
  }

  lemma ApplyStaysShut(env: Env, w: World, op: Op)
    requires Shut(w.ledger.manifest.state) && (op.ResumeOp? || op.CancelOp? || op.ApproveOp?)
    ensures StaysShut(w, Apply(env, w, op))
  {
    match op
    case ResumeOp => ResumeReturnsShut(env, w);
    case CancelOp => CancelChangesNothing(env, w);
    case ApproveOp(id, approver) => ApproveKeepsRunState(env, w, id, approver);
  }

  /** An approval only makes a paused run ready; it touches neither grants nor receipts. */
  lemma ApproveKeepsRunState(env: Env, w: World, id: StepId, approver: string)
    ensures var w' := Approve(env, w, id, approver);
            && w'.execs == w.execs
            && w'.ledger == w.ledger.(approvals := w'.ledger.approvals, manifest := w'.ledger.manifest)
            && (w.ledger.manifest.state != RunState.AwaitingApproval ==>
                  w'.ledger.manifest.state == w.ledger.manifest.state)
  {
  }

  /** However a shut run is resumed, cancelled and approved, and wherever that crashes, it stays shut. */
  lemma {:induction false} RunStaysShut(env: Env, w: World, ops: seq<Op>)
    requires Shut(w.ledger.manifest.state) && Everyday(ops)
    ensures StaysShut(w, Run(env, w, ops))
    decreases |ops|
  {
    if ops != [] {
      ApplyStaysShut(env, w, ops[0]);
      RunStaysShut(env, Apply(env, w, ops[0]), ops[1..]);
    }
  }

  /** A workflow that was rejected never runs. */
  lemma RejectedNeverRuns(env: Env, graph: seq<Node>, policyHash: Hash, at: Time, ops: seq<Op>)
    requires Everyday(ops)
    ensures var w := Run(env, Prepared(graph, policyHash, true, at), ops);
            && w.ledger.manifest.state == RunState.Rejected && w.execs == []
            && w.ledger.grants == map[] && w.ledger.receipts == map[]
  {
    RunStaysShut(env, Prepared(graph, policyHash, true, at), ops);
  }

  /** After a cancel that was written no handler is called. */
  lemma CancelledNeverRuns(env: Env, w: World, ops: seq<Op>)
    requires !Over(w.ledger.manifest.state) && !env.dies(w.tick) && Everyday(ops)
    ensures var w' := Run(env, Cancel(env, w), ops);
            w'.ledger.manifest.state == RunState.Cancelled && w'.execs == w.execs
  {
    CancelExact(env, w);
    RunStaysShut(env, Cancel(env, w), ops);
  }

  // ----- approve -----

  /** An approval of an elevated step, with both writes made. */
  lemma ApproveExact(env: Env, w: World, n: Node, approver: string)
    requires UniqueIds(w.ledger.graph) && n in w.ledger.graph && n.cell == Elevated
    requires n.id in w.ledger.manifest.steps && !env.dies(w.tick) && !env.dies(w.tick + 1)
    ensures var w' := Approve(env, w, n.id, approver);
            var m, m' := w.ledger.manifest, w'.ledger.manifest;
            && w'.alive && w'.tick == w.tick + 2 && w'.execs == w.execs && w'.crashes == w.crashes
            && w'.ledger == w.ledger.(approvals := w'.ledger.approvals, manifest := m')
            && n.id in w'.ledger.approvals
            && w'.ledger.approvals == w.ledger.approvals[n.id := w'.ledger.approvals[n.id]]
            && var a := w'.ledger.approvals[n.id];
               && a.stepId == n.id && a.approvedPayloadHash == n.payloadHash && a.policyHash == w.ledger.policyHash
               && a.approvedAt == env.now(w.tick) && a.approvedBy == approver
               && m'.state == (if m.state == RunState.AwaitingApproval then RunState.Ready else m.state)
               && m'.steps == m.steps[n.id := m.steps[n.id].(state := StepState.Pending)]
               && m'.updatedAt == env.now(w.tick + 1)
  {
    FoundIs(w.ledger.graph, n);
  }

  /** Cut between its writes, an approval leaves the binding and the old manifest. */
  lemma ApproveCut(env: Env, w: World, n: Node, approver: string)
    requires UniqueIds(w.ledger.graph) && n in w.ledger.graph && n.cell == Elevated
    requires n.id in w.ledger.manifest.steps && (env.dies(w.tick) || env.dies(w.tick + 1))
    ensures var w' := Approve(env, w, n.id, approver);
            && !w'.alive && w'.ledger == w.ledger.(approvals := w'.ledger.approvals)
            && (if env.dies(w.tick) then w'.ledger.approvals == w.ledger.approvals
                else n.id in w'.ledger.approvals
                     && w'.ledger.approvals == w.ledger.approvals[n.id := w'.ledger.approvals[n.id]])
  {
    FoundIs(w.ledger.graph, n);
  }

  /** Unknown steps and steps of other cells cannot be approved. */
  lemma ApproveRefuses(env: Env, w: World, id: StepId, approver: string)
    requires UniqueIds(w.ledger.graph) && forall n | n in w.ledger.graph && n.id == id :: n.cell != Elevated
    ensures Approve(env, w, id, approver) == w.(alive := true)
  {
    FindNodeFinds(w.ledger.graph, id);
  }

  // ----- recover -----

  /** A step that was under way when the process stopped, or was cancelled. */
  predicate UnderWay(state: StepState) {
    state == StepState.GrantIssued || state == StepState.Running || state == StepState.Cancelled
  }

  /** The step with the result that a receipt reports. */
  function WithResult(step: StepManifest, r: Receipt): StepManifest {
    step.(state := if r.ok then StepState.Succeeded else StepState.Failed,
          receiptId := Some(r.receiptId), endedAt := Some(r.endedAt))
  }

  /** What a completed recovery has made of one step, on any ledger: lost receipts and retired grants included. */
  ghost predicate RecoveredAs(l: Ledger, n: Node, s: StepManifest, s': StepManifest) {
    if !UnderWay(s.state) then s' == s
    else if s.receiptId.Some? && s.receiptId.value in l.receipts then
      s' == WithResult(s, l.receipts[s.receiptId.value])
    else if s.grantId.None? then
      s' == s.(state := if n.replayClass == ReviewBeforeReplay then StepState.Quarantined else StepState.Pending)
    else
      && s.grantId.value in l.grants
      && var g := l.grants[s.grantId.value];
         if g.receiptId.Some? && g.receiptId.value in l.receipts then s' == WithResult(s, l.receipts[g.receiptId.value])
         else if g.state == Consumed && n.replayClass == ReviewBeforeReplay then
           s' == s.(state := StepState.Quarantined)
         else s' == s.(state := StepState.Pending, grantId := None, startedAt := None)
  }

  lemma RecoverExact(env: Env, w: World, n: Node)
    requires Filed(w.ledger) && n in w.ledger.graph && forall k | k in w.ledger.graph && k.id == n.id :: k == n
    requires n.id in w.ledger.manifest.steps && RecoverRun(env, w).alive
    ensures n.id in RecoverRun(env, w).ledger.manifest.steps
    ensures RecoveredAs(w.ledger, n, w.ledger.manifest.steps[n.id], RecoverRun(env, w).ledger.manifest.steps[n.id])
  {
    RecoverIsRepair(env, w);
    var step := w.ledger.manifest.steps[n.id];
    if Decide(w.ledger, step, n).Throws? {
      ThrowingStops(env, w, w.ledger.manifest, w.ledger.graph, n);
    } else {
      RepairDecides(w.ledger, w.ledger.manifest, w.ledger.graph, n);
      DecidesAs(w.ledger, step, n);
    }
  }

  lemma DecidesAs(l: Ledger, step: StepManifest, n: Node)
    requires !Decide(l, step, n).Throws?
    ensures RecoveredAs(l, n, step, Decide(l, step, n).step)
  {
  }

  /** A step whose grant cannot be read stops the recovery. */
  lemma {:induction false} ThrowingStops(env: Env, w: World, m: Manifest, nodes: seq<Node>, n: Node)
    requires Filed(w.ledger) && n in nodes && n.id in m.steps && forall k | k in nodes && k.id == n.id :: k == n
    requires !Settled(m.steps[n.id].state) && TryReadReceipt(w.ledger, m.steps[n.id].receiptId).None?
    requires m.steps[n.id].grantId.Some? && m.steps[n.id].grantId.value !in w.ledger.grants
    ensures !RecoverSteps(env, w, m, nodes).0.alive
    decreases |nodes|
  {
    var (w1, m1) := RecoverStep(env, w, m, nodes[0]);
    if !w1.alive {
      DeadStays(env, w1, m1, nodes[1..]);
    } else {
      ThrowingStops(env, w1, m1, nodes[1..], n);
    }
  }

  /** The unused grant of a step under way is marked expired if its time is up by the clock, and void otherwise. */
  lemma UnusedGrantRetires(env: Env, w: World, m: Manifest, n: Node)
    requires w.alive && !env.dies(w.tick) && n.id in m.steps && UnderWay(m.steps[n.id].state)
    requires TryReadReceipt(w.ledger, m.steps[n.id].receiptId).None?
    requires m.steps[n.id].grantId.Some? && m.steps[n.id].grantId.value in w.ledger.grants
    requires var g := m.steps[n.id].grantId.value;
             && w.ledger.grants[g].state == Issued && w.ledger.grants[g].receiptId.None?
             && w.ledger.grants[g].grant.body.grantId == g
    ensures var g := m.steps[n.id].grantId.value;
            var due := w.ledger.grants[g].grant.body.expiresAt <= env.now(w.tick);
            RecoverStep(env, w, m, n).0.ledger
            == w.ledger.(grants := w.ledger.grants[g := w.ledger.grants[g].(state := if due then Expired else Void)])
  {
  }
}
