/** packages/runtime/src/control-plane/recovery-service.ts */
module Recovery {
  import opened Base
  import opened Records

  /** The states `recoverStep` leaves alone.  `cancelled` is not among them. */
  predicate Settled(state: StepState) {
    state in {StepState.Pending, StepState.AwaitingApproval, StepState.Quarantined,
              StepState.Succeeded, StepState.Failed, StepState.Skipped}
  }

  predicate ReviewRequired(class_: ReplayClass) {
    class_ == ReviewBeforeReplay
  }

  function Reconciled(step: StepManifest, receipt: Receipt): StepManifest {
    step.(state := ReceiptState(receipt), receiptId := Some(receipt.receiptId), endedAt := Some(receipt.endedAt))
  }

  /** `clearStepForReplay` drops the grant and start time but keeps any receipt id. */
  function Cleared(step: StepManifest): StepManifest {
    step.(state := StepState.Pending, grantId := None, startedAt := None)
  }

  /** What recovery decides about one step. */
  datatype Repair =
    | Throws                                       // its grant file cannot be read
    | Becomes(step: StepManifest)                  // settled, reconciled, quarantined or requeued
    | Requeued(step: StepManifest, unused: GrantId) // requeued, and its unused grant is retired

  /** The decision of `recoverStep`, which reads the ledger but not the clock. */
  function Decide(ledger: Ledger, step: StepManifest, node: Node): Repair {
    if Settled(step.state) then Becomes(step)
    else
      var receipt := TryReadReceipt(ledger, step.receiptId);
      if receipt.Some? then Becomes(Reconciled(step, receipt.value))
      else if step.grantId.None? then
        Becomes(step.(state := if ReviewRequired(node.replayClass) then StepState.Quarantined else StepState.Pending))
      else if step.grantId.value !in ledger.grants then Throws
      else
        var record := ledger.grants[step.grantId.value];
        var grantReceipt := TryReadReceipt(ledger, record.receiptId);
        if grantReceipt.Some? then Becomes(Reconciled(step, grantReceipt.value))
        else
          match record.state
          case Issued => Requeued(Cleared(step), record.grant.body.grantId)
          case Consumed =>
            if ReviewRequired(node.replayClass)
            then Becomes(step.(state := StepState.Quarantined))
            else Becomes(Cleared(step))
          case Expired => Becomes(Cleared(step))
          case Void => Becomes(Cleared(step))
  }

  function RetiredState(env: Env, w: World, id: GrantId): GrantState {
    if id in w.ledger.grants && w.ledger.grants[id].grant.body.expiresAt <= env.now(w.tick) then Expired else Void
  }

  /** `recoverStep`: the changed manifest is returned, an unused grant is retired on the way. */
  function RecoverStep(env: Env, w: World, m: Manifest, node: Node): (World, Manifest) {
    if !w.alive then (w, m)
    else if node.id !in m.steps then (Crash(w), m)
    else
      match Decide(w.ledger, m.steps[node.id], node)
      case Throws => (Crash(w), m)
      case Becomes(step) => (w, m.(steps := m.steps[node.id := step]))
      case Requeued(step, unused) =>
        (RetireGrant(env, w, unused, RetiredState(env, w, unused)), m.(steps := m.steps[node.id := step]))
  }

  function RecoverSteps(env: Env, w: World, m: Manifest, nodes: seq<Node>): (World, Manifest)
    decreases |nodes|
  {
    if nodes == [] then (w, m)
    else
      var (w', m') := RecoverStep(env, w, m, nodes[0]);
      RecoverSteps(env, w', m', nodes[1..])
  }

  function DeriveRunState(m: Manifest): RunState {
    if SomeStep(m, StepState.Quarantined) then RunState.Quarantined
    else if SomeStep(m, StepState.AwaitingApproval) then RunState.AwaitingApproval
    else if AllSucceeded(m) then RunState.Succeeded
    else if SomeStep(m, StepState.Failed) then RunState.Failed
    else if SomeStep(m, StepState.Pending) || SomeStep(m, StepState.GrantIssued) || SomeStep(m, StepState.Running)
    then RunState.Ready
    else m.state
  }

  /** `recoverRun`: the manifest is written once, after every step was looked at. */
  function RecoverRun(env: Env, w: World): World {
    var (w', m) := RecoverSteps(env, w, w.ledger.manifest, w.ledger.graph);
    if !w'.alive then w'
    else WriteManifest(env, w', m.(state := DeriveRunState(m)))
  }
}
