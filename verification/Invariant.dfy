/**
  What every durable state of a run satisfies, whatever the crashes, the clock and the
  handlers do, as long as no file is lost or edited and approval is disciplined.
*/
module Invariant {
  import opened Base
  import opened Hashing
  import opened Records
  import opened Bridge
  import opened Recovery
  import opened Protocol

  // ----- the graph -----

  ghost predicate SameId(graph: seq<Node>, i: nat, j: nat) {
    i < |graph| && j < |graph| && graph[i].id == graph[j].id
  }

  ghost predicate UniqueIds(graph: seq<Node>) {
    forall i: nat, j: nat {:trigger SameId(graph, i, j)} | SameId(graph, i, j) :: i == j
  }

  function Ids(graph: seq<Node>): set<StepId> {
    set n | n in graph :: n.id
  }

  ghost predicate Edge(graph: seq<Node>, n: Node, d: StepId) {
    n in graph && d in n.dependsOn
  }

  /** Every dependency is a step of lower rank; such a ranking exists when there is no cycle. */
  ghost predicate Ranked(graph: seq<Node>, rank: map<StepId, nat>) {
    && rank.Keys == Ids(graph)
    && forall n, d {:trigger Edge(graph, n, d)} | Edge(graph, n, d) ::
         n.id in rank && d in rank && rank[d] < rank[n.id]
  }

  ghost predicate WellFormed(graph: seq<Node>) {
    && UniqueIds(graph)
    && (exists rank :: Ranked(graph, rank))
    && forall n {:trigger HashJson(n.payload)} | n in graph :: n.payloadHash == HashJson(n.payload)
  }

  // ----- grants, receipts and steps -----

  predicate Terminal(state: StepState) {
    state == StepState.Succeeded || state == StepState.Failed
  }

  ghost predicate GrantOk(l: Ledger, g: GrantId)
    requires g in l.grants
  {
    var record := l.grants[g];
    var body := record.grant.body;
    && body.grantId == g
    && body.policyHash == l.policyHash
    && (forall n {:trigger n in l.graph} | n in l.graph && n.id == body.stepId :: body.payloadHash == n.payloadHash)
    && (record.state == Consumed <==> record.receiptId.Some?)
    && (record.state == Consumed ==>
          && record.receiptId.value in l.receipts
          && l.receipts[record.receiptId.value].grantId == g)
  }

  /** Every dependency succeeded and its receipt ended by time t. */
  ghost predicate DepsEnded(l: Ledger, steps: map<StepId, StepManifest>, node: Node, t: Time) {
    forall d {:trigger DepEnded(l, steps, d, t)} | d in node.dependsOn :: DepEnded(l, steps, d, t)
  }

  ghost predicate DepEnded(l: Ledger, steps: map<StepId, StepManifest>, d: StepId, t: Time) {
    && d in steps && steps[d].state == StepState.Succeeded
    && steps[d].receiptId.Some? && steps[d].receiptId.value in l.receipts
    && l.receipts[steps[d].receiptId.value].endedAt <= t
  }

  ghost predicate ReceiptOk(l: Ledger, steps: map<StepId, StepManifest>, r: ReceiptId)
    requires r in l.receipts
  {
    var receipt := l.receipts[r];
    && receipt.receiptId == r
    && receipt.grantId in l.grants
    && var body := l.grants[receipt.grantId].grant.body;
       && receipt.stepId == body.stepId
       && receipt.payloadHash == body.payloadHash
       && receipt.policyHash == body.policyHash
       && receipt.startedAt <= receipt.endedAt
       && forall n {:trigger DepsEnded(l, steps, n, receipt.startedAt)} |
            n in l.graph && n.id == receipt.stepId :: DepsEnded(l, steps, n, receipt.startedAt)
  }

  ghost predicate Holds(l: Ledger, id: StepId, step: StepManifest) {
    && step.grantId.Some? && step.grantId.value in l.grants
    && l.grants[step.grantId.value].grant.body.stepId == id
  }

  ghost predicate StepOk(l: Ledger, id: StepId, step: StepManifest) {
    match step.state
    case Pending => step.grantId.None? && step.receiptId.None?
    case AwaitingApproval => step.grantId.None? && step.receiptId.None?
    case Quarantined => step.grantId.None? && step.receiptId.None?
    case Running => step.receiptId.None? && Holds(l, id, step)
    case Cancelled => step.receiptId.None? && (step.grantId.Some? ==> Holds(l, id, step))
    case Succeeded => Proven(l, id, step)
    case Failed => Proven(l, id, step)
    case GrantIssued => false
    case Skipped => false
  }

  /** A finished step: its grant is consumed by its receipt, which reports the step's state. */
  ghost predicate Proven(l: Ledger, id: StepId, step: StepManifest) {
    && Holds(l, id, step)
    && l.grants[step.grantId.value].state == Consumed
    && l.grants[step.grantId.value].receiptId == step.receiptId
    && step.receiptId.Some? && step.receiptId.value in l.receipts
    && ReceiptState(l.receipts[step.receiptId.value]) == step.state
  }

  ghost predicate GrantsOk(l: Ledger) {
    forall g {:trigger GrantOk(l, g)} | g in l.grants :: GrantOk(l, g)
  }

  ghost predicate ReceiptsOk(l: Ledger, steps: map<StepId, StepManifest>) {
    forall r {:trigger ReceiptOk(l, steps, r)} | r in l.receipts :: ReceiptOk(l, steps, r)
  }

  ghost predicate StepsOk(l: Ledger, steps: map<StepId, StepManifest>) {
    forall id {:trigger StepOk(l, id, steps[id])} | id in steps :: StepOk(l, id, steps[id])
  }

  ghost predicate RecordsOk(l: Ledger, steps: map<StepId, StepManifest>) {
    GrantsOk(l) && ReceiptsOk(l, steps) && StepsOk(l, steps)
  }

  // ----- run state against step states -----

  ghost predicate Agreement(m: Manifest) {
    && (m.state == RunState.Succeeded ==> AllSucceeded(m))
    && (m.state == RunState.Failed ==> SomeStep(m, StepState.Failed))
    && (m.state == RunState.AwaitingApproval ==> SomeStep(m, StepState.AwaitingApproval))
    && (m.state == RunState.Quarantined ==> SomeStep(m, StepState.Quarantined))
    && (SomeStep(m, StepState.Cancelled) ==> m.state == RunState.Cancelled)
    && (SomeStep(m, StepState.Quarantined) ==> m.state in {RunState.Quarantined, RunState.Cancelled})
    && (SomeStep(m, StepState.Running) ==> m.state == RunState.Running)
  }

  // ----- history -----

  /** What held in the ledger at the moment a handler ran. */
  ghost predicate ExecutionOk(e: Execution) {
    && e.node in e.at.graph
    && e.node.id in e.at.manifest.steps
    && e.at.manifest.state == RunState.Running
    && e.at.manifest.steps[e.node.id].state == StepState.Running
    && e.at.manifest.steps[e.node.id].grantId == Some(e.grant.grantId)
    && e.grant.grantId in e.at.grants && e.at.grants[e.grant.grantId].state == Issued
    && DepsSucceeded(e.at.manifest, e.node)
    && RecordsOk(e.at, e.at.manifest.steps)
  }

  ghost predicate DepsSucceeded(m: Manifest, node: Node) {
    forall d | d in node.dependsOn :: d in m.steps && m.steps[d].state == StepState.Succeeded
  }

  ghost predicate HistoryOk(w: World) {
    forall i {:trigger w.execs[i]} | 0 <= i < |w.execs| ::
      ExecutionOk(w.execs[i]) && w.execs[i].at.graph == w.ledger.graph
  }

  ghost predicate FreshOk(env: Env, w: World) {
    && (forall g {:trigger g in w.ledger.grants} | g in w.ledger.grants :: g < w.tick)
    && (forall r {:trigger r in w.ledger.receipts} | r in w.ledger.receipts ::
          r < w.tick && w.ledger.receipts[r].endedAt <= env.now(w.tick))
  }

  predicate Spent(l: Ledger, step: StepManifest) {
    step.grantId.Some? && step.grantId.value in l.grants && l.grants[step.grantId.value].state == Consumed
  }

  /** Steps whose current grant is consumed: their execution is accounted for. */
  function Accounted(l: Ledger, steps: map<StepId, StepManifest>): set<StepId> {
    set id | id in steps && Spent(l, steps[id])
  }

  ghost predicate Counted(w: World, inFlight: nat) {
    |w.execs| <= |Accounted(w.ledger, w.ledger.manifest.steps)| + w.crashes + inFlight
  }

  /** `inFlight` is 1 between a handler's effect and the consumption of its grant. */
  ghost predicate InvAt(env: Env, w: World, inFlight: nat) {
    && WellFormed(w.ledger.graph)
    && w.ledger.manifest.steps.Keys == Ids(w.ledger.graph)
    && RecordsOk(w.ledger, w.ledger.manifest.steps)
    && Agreement(w.ledger.manifest)
    && FreshOk(env, w)
    && HistoryOk(w)
    && Counted(w, inFlight)
  }

  ghost predicate Inv(env: Env, w: World) {
    InvAt(env, w, 0)
  }

  /** No step of the manifest in memory is interrupted, cancelled or quarantined. */
  ghost predicate Calm(m: Manifest) {
    forall id | id in m.steps ::
      m.steps[id].state in {StepState.Pending, StepState.AwaitingApproval, StepState.Succeeded, StepState.Failed}
  }

  /** While a resume is between dispatches, memory and ledger agree. */
  ghost predicate FrameOk(env: Env, f: Frame) {
    && Inv(env, f.w)
    && (!f.Stopped() ==>
          && f.m == f.w.ledger.manifest
          && f.m.state == RunState.Running
          && Calm(f.m))
  }

  // ----- a crash at any point -----

  lemma CrashKeeps(env: Env, w: World, inFlight: nat)
    requires Clocked(env)
    requires InvAt(env, w, inFlight) && inFlight <= 1
    ensures Inv(env, Crash(w))
  {
    TimePasses(env, w, Crash(w));
  }

  lemma TimePasses(env: Env, w: World, w': World)
    requires Clocked(env) && FreshOk(env, w)
    requires w'.ledger == w.ledger && w.tick <= w'.tick
    ensures FreshOk(env, w')
  {
    assert env.now(w.tick) <= env.now(w'.tick);
  }

  // ----- dispatch, write by write -----

  /** A freshly minted grant. */
  ghost predicate Unused(w: World, node: Node, grant: StepGrant) {
    var g := grant.body.grantId;
    && g in w.ledger.grants
    && w.ledger.grants[g] == GrantRecord(grant, Issued, None, None)
    && grant.body.stepId == node.id
  }

  // ----- the records of a ledger under each kind of change -----

  /** Grants may be added or change state, receipts may be added. */
  ghost predicate Grows(l: Ledger, l': Ledger) {
    && l'.graph == l.graph && l'.policyHash == l.policyHash
    && (forall g {:trigger g in l'.grants} | g in l.grants :: g in l'.grants && l'.grants[g].grant == l.grants[g].grant)
    && (forall r {:trigger r in l'.receipts} | r in l.receipts :: r in l'.receipts && l'.receipts[r] == l.receipts[r])
  }

  lemma OldReceipt(l: Ledger, l': Ledger, steps: map<StepId, StepManifest>, r: ReceiptId)
    requires Grows(l, l') && r in l.receipts && ReceiptOk(l, steps, r)
    ensures ReceiptOk(l', steps, r)
  {
    assert r in l'.receipts && l.receipts[r].grantId in l'.grants;
    forall n | n in l'.graph && n.id == l'.receipts[r].stepId
      ensures DepsEnded(l', steps, n, l'.receipts[r].startedAt) {
      assert DepsEnded(l, steps, n, l.receipts[r].startedAt);
      forall d | d in n.dependsOn ensures DepEnded(l', steps, d, l.receipts[r].startedAt) {
        assert DepEnded(l, steps, d, l.receipts[r].startedAt);
      }
    }
  }

  lemma OldReceipts(l: Ledger, l': Ledger, steps: map<StepId, StepManifest>)
    requires Grows(l, l') && ReceiptsOk(l, steps) && l'.receipts == l.receipts
    ensures ReceiptsOk(l', steps)
  {
    forall r | r in l'.receipts ensures ReceiptOk(l', steps, r) {
      OldReceipt(l, l', steps, r);
    }
  }

  lemma AddGrant(l: Ledger, steps: map<StepId, StepManifest>, record: GrantRecord)
    requires RecordsOk(l, steps)
    requires record.grant.body.grantId !in l.grants
    requires record.grant.body.policyHash == l.policyHash
    requires forall n | n in l.graph && n.id == record.grant.body.stepId ::
               record.grant.body.payloadHash == n.payloadHash
    requires record.state == Issued && record.receiptId.None?
    ensures var l' := l.(grants := l.grants[record.grant.body.grantId := record]);
            RecordsOk(l', steps) && Accounted(l', steps) == Accounted(l, steps)
  {
    var l' := l.(grants := l.grants[record.grant.body.grantId := record]);
    forall g | g in l'.grants ensures GrantOk(l', g) {
      if g in l.grants { assert GrantOk(l, g); }
    }
    OldReceipts(l, l', steps);
    forall id | id in steps ensures StepOk(l', id, steps[id]) && Spent(l', steps[id]) == Spent(l, steps[id]) {
      assert StepOk(l, id, steps[id]);
    }
  }

  lemma AddReceipt(l: Ledger, steps: map<StepId, StepManifest>, receipt: Receipt)
    requires RecordsOk(l, steps)
    requires receipt.receiptId !in l.receipts
    requires receipt.grantId in l.grants
    requires var body := l.grants[receipt.grantId].grant.body;
             receipt.stepId == body.stepId && receipt.payloadHash == body.payloadHash
                 && receipt.policyHash == body.policyHash
    requires receipt.startedAt <= receipt.endedAt
    requires forall n | n in l.graph && n.id == receipt.stepId :: DepsEnded(l, steps, n, receipt.startedAt)
    ensures var l' := l.(receipts := l.receipts[receipt.receiptId := receipt]);
            RecordsOk(l', steps) && Accounted(l', steps) == Accounted(l, steps)
  {
    var l' := l.(receipts := l.receipts[receipt.receiptId := receipt]);
    forall g | g in l'.grants ensures GrantOk(l', g) {
      assert GrantOk(l, g);
    }
    NewReceipt(l, steps, receipt);
    forall id | id in steps ensures StepOk(l', id, steps[id]) {
      assert StepOk(l, id, steps[id]);
    }
  }

  lemma NewReceipt(l: Ledger, steps: map<StepId, StepManifest>, receipt: Receipt)
    requires ReceiptsOk(l, steps)
    requires receipt.receiptId !in l.receipts && receipt.grantId in l.grants
    requires var body := l.grants[receipt.grantId].grant.body;
             receipt.stepId == body.stepId && receipt.payloadHash == body.payloadHash
                 && receipt.policyHash == body.policyHash
    requires receipt.startedAt <= receipt.endedAt
    requires forall n | n in l.graph && n.id == receipt.stepId :: DepsEnded(l, steps, n, receipt.startedAt)
    ensures ReceiptsOk(l.(receipts := l.receipts[receipt.receiptId := receipt]), steps)
  {
    var l' := l.(receipts := l.receipts[receipt.receiptId := receipt]);
    forall r | r in l'.receipts ensures ReceiptOk(l', steps, r) {
      if r in l.receipts {
        OldReceipt(l, l', steps, r);
      } else {
        forall n | n in l'.graph && n.id == receipt.stepId ensures DepsEnded(l', steps, n, receipt.startedAt) {
          assert DepsEnded(l, steps, n, receipt.startedAt);
          forall d | d in n.dependsOn ensures DepEnded(l', steps, d, receipt.startedAt) {
            assert DepEnded(l, steps, d, receipt.startedAt);
          }
        }
      }
    }
  }

  /** An issued grant is consumed by its receipt, or retired. */
  lemma ChangeGrant(l: Ledger, steps: map<StepId, StepManifest>, record: GrantRecord)
    requires RecordsOk(l, steps)
    requires var g := record.grant.body.grantId;
             g in l.grants && l.grants[g].grant == record.grant && l.grants[g].state == Issued
    requires record.state == Consumed <==> record.receiptId.Some?
    requires record.state == Consumed ==>
               && record.receiptId.value in l.receipts
               && l.receipts[record.receiptId.value].grantId == record.grant.body.grantId
    ensures RecordsOk(l.(grants := l.grants[record.grant.body.grantId := record]), steps)
  {
    var l' := l.(grants := l.grants[record.grant.body.grantId := record]);
    forall g | g in l'.grants ensures GrantOk(l', g) {
      assert GrantOk(l, g);
    }
    OldReceipts(l, l', steps);
    forall id | id in steps ensures StepOk(l', id, steps[id]) {
      assert StepOk(l, id, steps[id]);
    }
  }

  /** Retiring a grant accounts for no step; consuming one accounts for the step that holds it. */
  lemma ChangeAccounted(l: Ledger, steps: map<StepId, StepManifest>, record: GrantRecord)
    requires record.grant.body.grantId in l.grants && l.grants[record.grant.body.grantId].state == Issued
    ensures var l' := l.(grants := l.grants[record.grant.body.grantId := record]);
            var holders := set id | id in steps && steps[id].grantId == Some(record.grant.body.grantId);
            && Accounted(l, steps) !! holders
            && Accounted(l', steps) == Accounted(l, steps) + (if record.state == Consumed then holders else {})
  {
  }

  lemma SetSteps(l: Ledger, steps: map<StepId, StepManifest>, steps': map<StepId, StepManifest>)
    requires RecordsOk(l, steps) && StepsOk(l, steps')
    requires forall id | id in steps && steps[id].state == StepState.Succeeded ::
               id in steps' && steps'[id] == steps[id]
    ensures RecordsOk(l, steps')
  {
    forall r | r in l.receipts ensures ReceiptOk(l, steps', r) {
      assert ReceiptOk(l, steps, r);
      forall n | n in l.graph && n.id == l.receipts[r].stepId
        ensures DepsEnded(l, steps', n, l.receipts[r].startedAt) {
        assert DepsEnded(l, steps, n, l.receipts[r].startedAt);
        forall d | d in n.dependsOn ensures DepEnded(l, steps', d, l.receipts[r].startedAt) {
          assert DepEnded(l, steps, d, l.receipts[r].startedAt);
        }
      }
    }
  }

  lemma SetStep(l: Ledger, steps: map<StepId, StepManifest>, id: StepId, step: StepManifest)
    requires RecordsOk(l, steps) && id in steps && steps[id].state != StepState.Succeeded
    requires StepOk(l, id, step) && Spent(l, step) == Spent(l, steps[id])
    ensures RecordsOk(l, steps[id := step]) && Accounted(l, steps[id := step]) == Accounted(l, steps)
  {
    var steps' := steps[id := step];
    forall k | k in steps' ensures StepOk(l, k, steps'[k]) {
      assert StepOk(l, k, steps[k]);
    }
    SetSteps(l, steps, steps');
  }

  /** Records do not depend on the stored manifest or the approvals. */
  lemma SameRecords(l: Ledger, l': Ledger, steps: map<StepId, StepManifest>)
    requires RecordsOk(l, steps)
    requires l'.graph == l.graph && l'.policyHash == l.policyHash && l'.grants == l.grants && l'.receipts == l.receipts
    ensures RecordsOk(l', steps) && Accounted(l', steps) == Accounted(l, steps)
  {
    forall g | g in l'.grants ensures GrantOk(l', g) {
      assert GrantOk(l, g);
    }
    OldReceipts(l, l', steps);
    forall id | id in steps ensures StepOk(l', id, steps[id]) {
      assert StepOk(l, id, steps[id]);
    }
  }

  lemma SubsetSize<T>(a: set<T>, b: set<T>)
    requires a <= b
    ensures |a| <= |b|
  {
    assert b == a + (b - a);
  }

  lemma SameNode(graph: seq<Node>, a: Node, b: Node)
    requires UniqueIds(graph) && a in graph && b in graph && a.id == b.id
    ensures a == b
  {
    var i :| 0 <= i < |graph| && graph[i] == a;
    var j :| 0 <= j < |graph| && graph[j] == b;
    assert SameId(graph, i, j);
  }

  // ----- persisting a manifest -----

  lemma PersistKeeps(env: Env, w: World, m: Manifest, inFlight: nat)
    requires Clocked(env) && InvAt(env, w, inFlight) && inFlight <= 1 && w.alive
    requires m.steps.Keys == w.ledger.manifest.steps.Keys
    requires RecordsOk(w.ledger, m.steps) && Agreement(m)
    requires Accounted(w.ledger, m.steps) == Accounted(w.ledger, w.ledger.manifest.steps)
    ensures var w' := WriteManifest(env, w, m);
            && (if w'.alive then InvAt(env, w', inFlight) else Inv(env, w'))
            && (w'.alive ==> w'.ledger == w.ledger.(manifest := Stamp(env, w, m)) && w'.execs == w.execs)
  {
    var w' := WriteManifest(env, w, m);
    if !w'.alive {
      CrashKeeps(env, w, inFlight);
    } else {
      SameRecords(w.ledger, w'.ledger, m.steps);
      SameAgreement(m, w'.ledger.manifest);
      assert env.now(w.tick) <= env.now(w'.tick);
    }
  }

  lemma SameAgreement(m: Manifest, m': Manifest)
    requires Agreement(m) && m'.state == m.state && m'.steps == m.steps
    ensures Agreement(m')
  {
    assert forall st :: SomeStep(m, st) == SomeStep(m', st);
  }

  /** The manifest changes at one step, which had not succeeded. */
  lemma PersistStep(env: Env, w: World, m: Manifest, id: StepId)
    requires Clocked(env) && Inv(env, w) && w.alive
    requires id in w.ledger.manifest.steps && w.ledger.manifest.steps[id].state != StepState.Succeeded
    requires id in m.steps && m.steps == w.ledger.manifest.steps[id := m.steps[id]]
    requires StepOk(w.ledger, id, m.steps[id]) && Agreement(m)
    requires Spent(w.ledger, m.steps[id]) == Spent(w.ledger, w.ledger.manifest.steps[id])
    ensures var w' := WriteManifest(env, w, m);
            && Inv(env, w')
            && (w'.alive ==> w'.ledger == w.ledger.(manifest := Stamp(env, w, m)) && w'.execs == w.execs)
  {
    SetStep(w.ledger, w.ledger.manifest.steps, id, m.steps[id]);
    PersistKeeps(env, w, m, 0);
  }

  lemma IssueKeeps(env: Env, w: World, node: Node, approvalHash: Option<Hash>)
    requires Clocked(env) && Inv(env, w) && w.alive
    requires node in w.ledger.graph
    ensures var grant := Mint(env, w, node, approvalHash);
            var w' := WriteGrant(env, w, GrantRecord(grant, Issued, None, None));
            && Inv(env, w')
            && (w'.alive ==> && Unused(w', node, grant)
                             && w'.ledger.manifest == w.ledger.manifest
                             && w'.ledger.graph == w.ledger.graph)
  {
    var grant := Mint(env, w, node, approvalHash);
    var record := GrantRecord(grant, Issued, None, None);
    var w' := WriteGrant(env, w, record);
    if !w'.alive {
      CrashKeeps(env, w, 0);
    } else {
      var l := w.ledger;
      assert env.now(w.tick) <= env.now(w'.tick);
      forall n | n in l.graph && n.id == node.id ensures n.payloadHash == node.payloadHash {
        SameNode(l.graph, n, node);
      }
      AddGrant(l, l.manifest.steps, record);
    }
  }

  /** Step `node` is stored as running under a grant nothing has used. */
  ghost predicate Dispatched(w: World, node: Node, grant: StepGrant) {
    && Unused(w, node, grant)
    && node in w.ledger.graph && node.id in w.ledger.manifest.steps
    && w.ledger.manifest.state == RunState.Running
    && w.ledger.manifest.steps[node.id].state == StepState.Running
    && w.ledger.manifest.steps[node.id].grantId == Some(grant.body.grantId)
    && DepsSucceeded(w.ledger.manifest, node)
  }

  lemma HandleKeeps(env: Env, w: World, node: Node, grant: StepGrant)
    requires Clocked(env) && Inv(env, w) && w.alive
    requires Dispatched(w, node, grant)
    ensures var w' := Handle(env, w, node, grant.body);
            && w'.ledger == w.ledger
            && (if w'.alive then InvAt(env, w', 1) && w'.tick == w.tick + 1 else Inv(env, w'))
  {
    var w' := Handle(env, w, node, grant.body);
    TimePasses(env, w, w');
    if !env.dies(w.tick) {
      var e := Execution(node, grant.body, w.ledger);
      assert w'.execs == w.execs + [e];
      assert ExecutionOk(e);
      assert HistoryOk(w');
    }
  }

  /** At time t every dependency of a dispatched step has a receipt that ended. */
  lemma DepsHaveEnded(env: Env, w: World, node: Node, grant: StepGrant)
    requires Inv(env, w) && Dispatched(w, node, grant)
    ensures forall n | n in w.ledger.graph && n.id == node.id ::
              DepsEnded(w.ledger, w.ledger.manifest.steps, n, env.now(w.tick))
  {
    forall n | n in w.ledger.graph && n.id == node.id
      ensures DepsEnded(w.ledger, w.ledger.manifest.steps, n, env.now(w.tick)) {
      SameNode(w.ledger.graph, n, node);
      forall d | d in node.dependsOn
        ensures StepOk(w.ledger, d, w.ledger.manifest.steps[d]) {
      }
    }
  }

  /** Nothing but grants and receipts changed. */
  lemma RecordsKeep(env: Env, w: World, w': World, inFlight: nat, inFlight': nat)
    requires Clocked(env) && InvAt(env, w, inFlight)
    requires w'.tick == w.tick + 1 && w'.crashes == w.crashes && w'.execs == w.execs
    requires w'.ledger.manifest == w.ledger.manifest && w'.ledger.graph == w.ledger.graph
    requires RecordsOk(w'.ledger, w.ledger.manifest.steps)
    requires forall g | g in w'.ledger.grants :: g <= w.tick
    requires forall r | r in w'.ledger.receipts :: r <= w.tick && w'.ledger.receipts[r].endedAt <= env.now(w.tick)
    requires |Accounted(w.ledger, w.ledger.manifest.steps)| + inFlight
             <= |Accounted(w'.ledger, w.ledger.manifest.steps)| + inFlight'
    ensures InvAt(env, w', inFlight')
  {
    assert env.now(w.tick) <= env.now(w'.tick);
  }

  lemma ReceiptKeeps(env: Env, w: World, node: Node, grant: StepGrant, receipt: Receipt)
    requires Clocked(env) && InvAt(env, w, 1) && w.alive && Unused(w, node, grant)
    requires receipt.receiptId == w.tick && receipt.grantId == grant.body.grantId && receipt.stepId == node.id
    requires receipt.payloadHash == grant.body.payloadHash && receipt.policyHash == grant.body.policyHash
    requires receipt.startedAt <= receipt.endedAt == env.now(w.tick)
    requires forall n | n in w.ledger.graph && n.id == node.id ::
               DepsEnded(w.ledger, w.ledger.manifest.steps, n, receipt.startedAt)
    ensures var w' := WriteReceipt(env, w, receipt);
            && (if w'.alive then InvAt(env, w', 1) else Inv(env, w'))
            && (w'.alive ==> w'.ledger == w.ledger.(receipts := w.ledger.receipts[receipt.receiptId := receipt]))
  {
    var w' := WriteReceipt(env, w, receipt);
    if !w'.alive {
      CrashKeeps(env, w, 1);
    } else {
      AddReceipt(w.ledger, w.ledger.manifest.steps, receipt);
      RecordsKeep(env, w, w', 1, 1);
    }
  }

  /** The grant is issued, its receipt is written, and the running step holds it. */
  ghost predicate Receipted(w: World, node: Node, grant: StepGrant, receipt: Receipt) {
    var g := grant.body.grantId;
    && g in w.ledger.grants && w.ledger.grants[g] == GrantRecord(grant, Issued, None, None)
    && grant.body.stepId == node.id
    && receipt.receiptId in w.ledger.receipts && w.ledger.receipts[receipt.receiptId] == receipt
    && receipt.grantId == g && receipt.stepId == node.id
    && node.id in w.ledger.manifest.steps
    && w.ledger.manifest.steps[node.id].grantId == Some(g)
  }

  lemma ConsumeKeeps(env: Env, w: World, node: Node, grant: StepGrant, receipt: Receipt)
    requires Clocked(env) && InvAt(env, w, 1) && w.alive && Receipted(w, node, grant, receipt)
    ensures var w' := ConsumeGrant(env, w, grant.body.grantId, receipt.receiptId);
            && Inv(env, w')
            && (w'.alive ==>
                  && w'.ledger.manifest == w.ledger.manifest && w'.ledger.graph == w.ledger.graph
                  && Proven(w'.ledger, node.id, Reconciled(w'.ledger.manifest.steps[node.id], receipt)))
  {
    var g := grant.body.grantId;
    var w' := ConsumeGrant(env, w, g, receipt.receiptId);
    if !w'.alive {
      CrashKeeps(env, w, 1);
    } else {
      var steps := w.ledger.manifest.steps;
      var record := w'.ledger.grants[g];
      ChangeGrant(w.ledger, steps, record);
      ConsumeCounts(w.ledger, steps, record, node.id);
      RecordsKeep(env, w, w', 1, 0);
    }
  }

  lemma ConsumeCounts(l: Ledger, steps: map<StepId, StepManifest>, record: GrantRecord, id: StepId)
    requires record.grant.body.grantId in l.grants && l.grants[record.grant.body.grantId].state == Issued
    requires record.state == Consumed
    requires id in steps && steps[id].grantId == Some(record.grant.body.grantId)
    ensures var l' := l.(grants := l.grants[record.grant.body.grantId := record]);
            |Accounted(l, steps)| + 1 <= |Accounted(l', steps)|
  {
    var l' := l.(grants := l.grants[record.grant.body.grantId := record]);
    ChangeAccounted(l, steps, record);
    SubsetSize(Accounted(l, steps) + {id}, Accounted(l', steps));
  }

  /** What a bridge call leaves behind: a dead process, or a receipt that proves the step. */
  ghost predicate BridgeDone(env: Env, w: World, node: Node, w': World, receipt: Option<Receipt>) {
    && Inv(env, w')
    && w'.ledger.graph == w.ledger.graph
    && w'.ledger.manifest == w.ledger.manifest
    && (receipt.None? ==> !w'.alive)
    && (receipt.Some? ==>
          && w'.alive && receipt.value.stepId == node.id && node.id in w.ledger.manifest.steps
          && Proven(w'.ledger, node.id, Reconciled(w.ledger.manifest.steps[node.id], receipt.value)))
  }

  lemma ExecuteKeeps(env: Env, w: World, node: Node, grant: StepGrant)
    requires Clocked(env) && Inv(env, w) && w.alive
    requires Dispatched(w, node, grant)
    ensures var (w', receipt) := Execute(env, w, node, grant); BridgeDone(env, w, node, w', receipt)
  {
    if !Admitted(w.ledger, env.now(w.tick), node, grant) {
      CrashKeeps(env, w, 0);
    } else {
      HandleKeeps(env, w, node, grant);
      var handled := Handle(env, w, node, grant.body);
      if handled.alive {
        var receipt := Emit(env, handled, node, grant.body, env.ok(w.tick, node.id), env.now(w.tick));
        DepsHaveEnded(env, w, node, grant);
        assert env.now(w.tick) <= env.now(handled.tick);
        ReceiptKeeps(env, handled, node, grant, receipt);
        var written := WriteReceipt(env, handled, receipt);
        if written.alive {
          ConsumeKeeps(env, written, node, grant, receipt);
        }
      }
    }
  }

  // ----- a whole dispatch -----

  lemma CalmAgrees(m: Manifest)
    requires m.state == RunState.Running
    requires !SomeStep(m, StepState.Cancelled) && !SomeStep(m, StepState.Quarantined)
    ensures Agreement(m)
  {
  }

  lemma StartKeeps(env: Env, w: World, node: Node, grant: StepGrant, at: Time)
    requires Clocked(env) && Inv(env, w) && w.alive
    requires node in w.ledger.graph && Unused(w, node, grant)
    requires w.ledger.manifest.state == RunState.Running && Calm(w.ledger.manifest)
    requires Runnable(w.ledger.manifest, node)
    ensures var m := Started(w.ledger.manifest, node.id, grant.body.grantId, at);
            var w' := WriteManifest(env, w, m);
            && Inv(env, w')
            && (w'.alive ==> Dispatched(w', node, grant) && w'.ledger.manifest == Stamp(env, w, m)
                             && w'.execs == w.execs && w'.ledger.graph == w.ledger.graph)
  {
    var m := Started(w.ledger.manifest, node.id, grant.body.grantId, at);
    assert StepOk(w.ledger, node.id, w.ledger.manifest.steps[node.id]);
    CalmAgrees(m);
    PersistStep(env, w, m, node.id);
  }

  lemma FinishAgrees(m: Manifest, receipt: Receipt)
    requires receipt.stepId in m.steps
    requires m.state == RunState.Running && CalmBut(m, receipt.stepId)
    ensures Agreement(Finished(m, receipt))
    ensures receipt.ok ==> Calm(Finished(m, receipt))
  {
    assert Finished(m, receipt).steps[receipt.stepId].state == ReceiptState(receipt);
  }

  lemma SettleKeeps(env: Env, running: Frame, node: Node, executed: World, receipt: Option<Receipt>)
    requires Clocked(env) && BridgeDone(env, running.w, node, executed, receipt)
    requires running.m == running.w.ledger.manifest && !running.returned
    requires node.id in running.m.steps
    requires running.m.state == RunState.Running && running.m.steps[node.id].state == StepState.Running
    requires CalmBut(running.m, node.id)
    ensures FrameOk(env, Settle(env, running, executed, receipt))
    ensures Settle(env, running, executed, receipt).w.ledger.graph == running.w.ledger.graph
  {
    if receipt.Some? {
      var m := Finished(running.m, receipt.value);
      FinishAgrees(running.m, receipt.value);
      assert StepOk(executed.ledger, node.id, executed.ledger.manifest.steps[node.id]);
      PersistStep(env, executed, m, node.id);
    }
  }

  ghost predicate CalmBut(m: Manifest, but: StepId) {
    forall id {:trigger m.steps[id]} | id in m.steps && id != but ::
      m.steps[id].state in {StepState.Pending, StepState.AwaitingApproval, StepState.Succeeded, StepState.Failed}
  }

  lemma PauseKeeps(env: Env, f: Frame, node: Node)
    requires Clocked(env) && FrameOk(env, f) && !f.Stopped() && Runnable(f.m, node)
    ensures FrameOk(env, Persist(env, f.w, Paused(f.m, node.id), true))
  {
    var m := Paused(f.m, node.id);
    assert m.steps[node.id].state == StepState.AwaitingApproval;
    assert StepOk(f.w.ledger, node.id, f.w.ledger.manifest.steps[node.id]);
    PersistStep(env, f.w, m, node.id);
  }

  /** From the issued grant to the end of the dispatch. */
  lemma GrantedKeeps(env: Env, issued: World, node: Node, grant: StepGrant, at: Time)
    requires Clocked(env) && Inv(env, issued) && issued.alive
    requires node in issued.ledger.graph && Unused(issued, node, grant)
    requires issued.ledger.manifest.state == RunState.Running && Calm(issued.ledger.manifest)
    requires Runnable(issued.ledger.manifest, node)
    ensures FrameOk(env, Granted(env, issued, issued.ledger.manifest, node, grant, at))
    ensures Granted(env, issued, issued.ledger.manifest, node, grant, at).w.ledger.graph == issued.ledger.graph
  {
    var m := Started(issued.ledger.manifest, node.id, grant.body.grantId, at);
    StartKeeps(env, issued, node, grant, at);
    var running := Persist(env, issued, m, false);
    if running.w.alive {
      RunningStepKeeps(env, running, node, grant);
    }
  }

  /** From the running step to the end of the dispatch. */
  lemma RunningStepKeeps(env: Env, running: Frame, node: Node, grant: StepGrant)
    requires Clocked(env) && Inv(env, running.w) && !running.Stopped()
    requires Dispatched(running.w, node, grant)
    requires running.m == running.w.ledger.manifest && CalmBut(running.m, node.id)
    ensures var (executed, receipt) := Execute(env, running.w, node, grant);
            var g := Settle(env, running, executed, receipt);
            FrameOk(env, g) && g.w.ledger.graph == running.w.ledger.graph
  {
    ExecuteKeeps(env, running.w, node, grant);
    var (executed, receipt) := Execute(env, running.w, node, grant);
    SettleKeeps(env, running, node, executed, receipt);
  }

  lemma DispatchKeeps(env: Env, f: Frame, node: Node)
    requires Clocked(env) && FrameOk(env, f)
    requires !f.Stopped() ==> node in f.w.ledger.graph && Runnable(f.m, node)
    ensures var g := Dispatch(env, f, node);
            FrameOk(env, g) && g.w.ledger.graph == f.w.ledger.graph
  {
    if !f.Stopped() {
      var approval := Get(f.w.ledger.approvals, node.id);
      if node.cell == Elevated && approval.None? {
        PauseKeeps(env, f, node);
      } else {
        var approvalHash := if approval.Some? then Some(approval.value.approvalHash) else None;
        IssueKeeps(env, f.w, node, approvalHash);
        var grant := Mint(env, f.w, node, approvalHash);
        var issued := WriteGrant(env, f.w, GrantRecord(grant, Issued, None, None));
        if issued.alive {
          GrantedKeeps(env, issued, node, grant, env.now(issued.tick));
        }
      }
    }
  }
}
