/**
  The ledger as the runtime sees it: an object whose files are written in place
  (packages/runtime/src/ledger).  `Current` is the world it stands for; every write does
  exactly what the atomic step of the same name does to that world.
*/
module Store {
  import opened Base
  import opened Hashing
  import opened Records

  class LedgerStore {
    const env: Env

    // the files of the run
    var graph: seq<Node>
    var policyHash: Hash
    var manifest: Manifest
    var grants: map<GrantId, GrantRecord>
    var receipts: map<ReceiptId, Receipt>
    var approvals: map<StepId, Approval>

    // the process working on them
    var alive: bool
    var tick: nat
    ghost var crashes: nat
    ghost var execs: seq<Execution>

    ghost function Files(): (l: Ledger)
      reads this
    {
      Ledger.Ledger(graph, policyHash, manifest, grants, receipts, approvals)
    }

    ghost function Current(): (w: World)
      reads this
    {
      World.World(Files(), alive, tick, crashes, execs)
    }

    /** A run as `prepareRun` leaves it: every step pending. */
    constructor (env: Env, graph: seq<Node>, policyHash: Hash, rejected: bool)
      ensures this.env == env
      ensures Files() == Ledger.Ledger(
                           graph, policyHash,
                           Manifest.Manifest(if rejected then RunState.Rejected else RunState.Ready, env.now(0),
                                             FreshSteps(graph)),
                           map[], map[], map[])
      ensures Current() == World.World(Files(), true, 0, 0, [])
    {
      this.env := env;
      this.graph := graph;
      this.policyHash := policyHash;
      manifest := Manifest.Manifest(if rejected then RunState.Rejected else RunState.Ready, env.now(0),
                                    FreshSteps(graph));
      grants, receipts, approvals := map[], map[], map[];
      alive, tick := true, 0;
      crashes, execs := 0, [];
    }

    /** A new process starts. */
    method Open()
      modifies this`alive
      ensures Current() == old(Current()).(alive := true)
    {
      alive := true;
    }

    method Die()
      modifies this`alive, this`tick, this`crashes
      ensures Current() == Records.Crash(old(Current()))
    {
      alive := false;
      tick := tick + 1;
      crashes := crashes + 1;
    }

    /** Every write first gives the process a chance to die. */
    method Survives() returns (ok: bool)
      modifies this`alive, this`tick, this`crashes
      ensures ok == (old(alive) && !env.dies(old(tick)))
      ensures Current() == if !old(alive) then old(Current())
                           else if ok then old(Current()).(tick := old(tick) + 1)
                           else Records.Crash(old(Current()))
    {
      ok := alive && !env.dies(tick);
      if ok {
        tick := tick + 1;
      } else if alive {
        Die();
      }
    }

    method WriteManifest(m: Manifest) returns (stamped: Manifest)
      modifies this
      ensures Current() == Records.WriteManifest(env, old(Current()), m)
      ensures stamped == Records.Stamp(env, old(Current()), m)
    {
      stamped := m.(updatedAt := env.now(tick));
      var ok := Survives();
      if ok { manifest := stamped; }
    }

    method WriteGrant(record: GrantRecord)
      modifies this
      ensures Current() == Records.WriteGrant(env, old(Current()), record)
    {
      var ok := Survives();
      if ok { grants := grants[record.grant.body.grantId := record]; }
    }

    method WriteReceipt(receipt: Receipt)
      modifies this
      ensures Current() == Records.WriteReceipt(env, old(Current()), receipt)
    {
      var ok := Survives();
      if ok { receipts := receipts[receipt.receiptId := receipt]; }
    }

    method WriteApproval(approval: Approval)
      modifies this
      ensures Current() == Records.WriteApproval(env, old(Current()), approval)
    {
      var ok := Survives();
      if ok { approvals := approvals[approval.stepId := approval]; }
    }

    method ConsumeGrant(id: GrantId, receiptId: ReceiptId)
      modifies this
      ensures Current() == Records.ConsumeGrant(env, old(Current()), id, receiptId)
    {
      if !alive { return; }
      if id !in grants { Die(); return; }
      var record := grants[id];
      record := record.(state := Consumed, consumedAt := Some(env.now(tick)), receiptId := Some(receiptId));
      WriteGrant(record);
    }

    /** `expireGrant` and `voidGrant`. */
    method RetireGrant(id: GrantId, state: GrantState)
      modifies this
      ensures Current() == Records.RetireGrant(env, old(Current()), id, state)
    {
      if !alive { return; }
      if id !in grants { Die(); return; }
      var record := grants[id];
      record := record.(state := state);
      WriteGrant(record);
    }

    method TryReadReceipt(id: Option<ReceiptId>) returns (receipt: Option<Receipt>)
      ensures receipt == Records.TryReadReceipt(Files(), id)
    {
      receipt := if id.Some? && id.value in receipts then Some(receipts[id.value]) else None;
    }
  }
}
