/**
  The durable ledger of one run (packages/runtime/src/ledger, packages/shared/src/types)
  and the atomic steps by which a process changes it.

  Files become maps.  A `World` is the ledger together with the process that works on it:
  whether the process is alive, how many atomic steps were attempted (`tick`, which also
  supplies fresh ids), how many times a process died, and every handler execution so far.
  Everything the code cannot control is a function of the tick, held in an `Env`: a
  theorem about all environments is a theorem about all crash points, all clocks and all
  handler answers.
*/
module Records {
  import opened Base
  import opened Json
  import opened Hashing

  type StepId = string
  type GrantId = nat
  type ReceiptId = nat
  type Time = nat

  datatype Cell = Read | Research | Session | Elevated

  /** Any other text in a workflow file passes unchecked, and counts as replayable. */
  datatype ReplayClass = ReadOnly | Idempotent | ReviewBeforeReplay | Unchecked(text: string)

  datatype RunState =
    | Created | Compiled | Ready | Running | AwaitingApproval
    | Quarantined | Cancelled | Succeeded | Failed | Rejected

  datatype StepState =
    | Pending | AwaitingApproval | GrantIssued | Running
    | Quarantined | Cancelled | Succeeded | Failed | Skipped

  datatype GrantState = Issued | Consumed | Expired | Void

  /** Ordinary and elevated steps are signed with different keys. */
  datatype Key = OrdinaryKey | ElevatedKey

  /** A compiled step, one node of the stored graph. */
  datatype Node = Node(
    id: StepId,
    cell: Cell,
    bridgeId: string,
    action: string,
    dependsOn: seq<StepId>,
    payload: Json,
    payloadHash: Hash,
    replayClass: ReplayClass)

  datatype StepManifest = StepManifest(
    state: StepState,
    grantId: Option<GrantId>,
    receiptId: Option<ReceiptId>,
    startedAt: Option<Time>,
    endedAt: Option<Time>)

  datatype Manifest = Manifest(state: RunState, updatedAt: Time, steps: map<StepId, StepManifest>)

  datatype GrantBody = GrantBody(
    grantId: GrantId,
    stepId: StepId,
    cell: Cell,
    bridgeId: string,
    action: string,
    payloadHash: Hash,
    policyHash: Hash,
    approvalHash: Option<Hash>,
    replayClass: ReplayClass,
    issuedAt: Time,
    expiresAt: Time,
    key: Key)

  /** An ideal signature: only the holder of the key can make the tag of a body. */
  datatype Tag = Tag(key: Key, body: GrantBody)

  datatype StepGrant = StepGrant(body: GrantBody, signature: Tag)

  datatype GrantRecord = GrantRecord(
    grant: StepGrant,
    state: GrantState,
    consumedAt: Option<Time>,
    receiptId: Option<ReceiptId>)

  datatype Receipt = Receipt(
    receiptId: ReceiptId,
    grantId: GrantId,
    stepId: StepId,
    bridgeId: string,
    payloadHash: Hash,
    policyHash: Hash,
    ok: bool,
    startedAt: Time,
    endedAt: Time)

  datatype Approval = Approval(
    stepId: StepId,
    approvedPayloadHash: Hash,
    policyHash: Hash,
    approvedAt: Time,
    approvedBy: string,
    approvalHash: Hash)

  datatype Ledger = Ledger(
    graph: seq<Node>,
    policyHash: Hash,
    manifest: Manifest,
    grants: map<GrantId, GrantRecord>,
    receipts: map<ReceiptId, Receipt>,
    approvals: map<StepId, Approval>)

  /** One handler call: the node it ran, the grant it ran under, and the ledger at that moment. */
  datatype Execution = Execution(node: Node, grant: GrantBody, at: Ledger)

  datatype World = World(
    ledger: Ledger,
    alive: bool,
    tick: nat,
    crashes: nat,
    execs: seq<Execution>)

  /**
    `dies(t)`: the process stops just before atomic step t.  `throws(t)`: the handler called
    as step t throws.  `ok(t, id)`: what it answers otherwise.  `now(t)`: the clock then.
  */
  datatype Env = Env(
    dies: nat -> bool,
    throws: nat -> bool,
    ok: (nat, StepId) -> bool,
    now: nat -> Time,
    ttl: nat)

  ghost predicate Clocked(env: Env) {
    forall t: nat, u: nat | t <= u :: env.now(t) <= env.now(u)
  }

  function ReceiptState(r: Receipt): StepState {
    if r.ok then StepState.Succeeded else StepState.Failed
  }

  function FreshStep(): StepManifest {
    StepManifest(StepState.Pending, None, None, None, None)
  }

  /** Every step of the graph, pending. */
  function FreshSteps(graph: seq<Node>): (steps: map<StepId, StepManifest>)
    ensures forall id | id in steps :: steps[id] == FreshStep()
    ensures forall id :: id in steps <==> exists n :: n in graph && n.id == id
  {
    map n | n in graph :: n.id := FreshStep()
  }

  // ----- atomic steps -----

  /** The process stops; nothing more is written. */
  function Crash(w: World): World {
    w.(alive := false, tick := w.tick + 1, crashes := w.crashes + 1)
  }

  /** One durable write: it happens whole or, if the process dies first, not at all. */
  function Commit(env: Env, w: World, ledger: Ledger): World {
    if !w.alive then w
    else if env.dies(w.tick) then Crash(w)
    else w.(ledger := ledger, tick := w.tick + 1)
  }

  /** `writeManifest` stamps the manifest in memory before writing it. */
  function Stamp(env: Env, w: World, m: Manifest): Manifest {
    m.(updatedAt := env.now(w.tick))
  }

  function WriteManifest(env: Env, w: World, m: Manifest): World {
    Commit(env, w, w.ledger.(manifest := Stamp(env, w, m)))
  }

  function WriteGrant(env: Env, w: World, record: GrantRecord): World {
    Commit(env, w, w.ledger.(grants := w.ledger.grants[record.grant.body.grantId := record]))
  }

  function WriteReceipt(env: Env, w: World, receipt: Receipt): World {
    Commit(env, w, w.ledger.(receipts := w.ledger.receipts[receipt.receiptId := receipt]))
  }

  function WriteApproval(env: Env, w: World, approval: Approval): World {
    Commit(env, w, w.ledger.(approvals := w.ledger.approvals[approval.stepId := approval]))
  }

  /** Reads a grant file and writes it back changed; a missing file throws. */
  function ConsumeGrant(env: Env, w: World, id: GrantId, receiptId: ReceiptId): World {
    if !w.alive then w
    else if id !in w.ledger.grants then Crash(w)
    else
      WriteGrant(env, w, w.ledger.grants[id].(
                 state := Consumed, consumedAt := Some(env.now(w.tick)), receiptId := Some(receiptId)))
  }

  /** `expireGrant` and `voidGrant`. */
  function RetireGrant(env: Env, w: World, id: GrantId, state: GrantState): World {
    if !w.alive then w
    else if id !in w.ledger.grants then Crash(w)
    else WriteGrant(env, w, w.ledger.grants[id].(state := state))
  }

  function TryReadReceipt(ledger: Ledger, id: Option<ReceiptId>): Option<Receipt> {
    if id.Some? then Get(ledger.receipts, id.value) else None
  }

  // ----- what the manifest says as a whole -----

  predicate SomeStep(m: Manifest, state: StepState) {
    exists id | id in m.steps :: m.steps[id].state == state
  }

  predicate AllSucceeded(m: Manifest) {
    forall id | id in m.steps :: m.steps[id].state == StepState.Succeeded
  }

  function PendingIds(m: Manifest): set<StepId> {
    set id | id in m.steps && m.steps[id].state == StepState.Pending
  }
}
