/**
  The file compiled-graph.json, which `prepareRun` writes (packages/runtime/src/control-plane/
  run-service.ts) and every later operation reads: nothing a bridge checks is lost on the way.
*/
module GraphFile {
  import opened Base
  import opened Json
  import opened JsonSort
  import opened Hashing
  import opened Records
  import opened Bridge
  import opened Invariant
  import Normalize
  import Resolve
  import Compile

  // ----- what is written -----

  function CellText(cell: Cell): string {
    match cell
    case Read => "read"
    case Research => "research"
    case Session => "session"
    case Elevated => "elevated"
  }

  function ReplayText(class_: ReplayClass): string {
    match class_
    case ReadOnly => "read_only"
    case Idempotent => "idempotent"
    case ReviewBeforeReplay => "review_before_replay"
    case Unchecked(text) => text
  }

  function Texts(ss: seq<string>): seq<Json> {
    seq(|ss|, i requires 0 <= i < |ss| => Str(ss[i]))
  }

  function NodeJson(n: Node): Json {
    Obj([("id", Str(n.id)), ("cell", Str(CellText(n.cell))), ("bridgeId", Str(n.bridgeId)),
         ("action", Str(n.action)), ("dependsOn", Arr(Texts(n.dependsOn))), ("payload", n.payload),
         ("payloadHash", Str(n.payloadHash.text)), ("replayClass", Str(ReplayText(n.replayClass)))])
  }

  /** The other texts of the file, which no operation reads back. */
  datatype Header = Header(workflowName: string, sourceHash: Hash, graphHash: Hash)

  function GraphJson(h: Header, graph: seq<Node>): Json {
    Obj([("schemaVersion", Str("toolflow.compiled-graph/v1")), ("workflowName", Str(h.workflowName)),
         ("sourceHash", Str(h.sourceHash.text)),
         ("nodes", Arr(seq(|graph|, i requires 0 <= i < |graph| => NodeJson(graph[i])))),
         ("graphHash", Str(h.graphHash.text))])
  }

  // ----- what is read -----

  function TextAt(v: Json, key: string): Option<string> {
    var field := FieldOf(v, key);
    if field.Some? && field.value.Str? then Some(field.value.s) else None
  }

  function TextsAt(v: Json, key: string): Option<seq<string>> {
    var field := FieldOf(v, key);
    if field.Some? && field.value.Arr? && forall i | 0 <= i < |field.value.items| :: field.value.items[i].Str?
    then Some(seq(|field.value.items|, i requires 0 <= i < |field.value.items| => field.value.items[i].s))
    else None
  }

  function ReadNode(v: Json): Option<Node> {
    var id, cell, bridgeId, action := TextAt(v, "id"), TextAt(v, "cell"), TextAt(v, "bridgeId"), TextAt(v, "action");
    var dependsOn, payload := TextsAt(v, "dependsOn"), FieldOf(v, "payload");
    var payloadHash, replayClass := TextAt(v, "payloadHash"), TextAt(v, "replayClass");
    if id.None? || cell.None? || bridgeId.None? || action.None? || dependsOn.None? || payload.None?
       || payloadHash.None? || replayClass.None? then None
    else
      Some(Node(id.value, Compile.ParseCell(cell.value), bridgeId.value, action.value, dependsOn.value,
                payload.value, Digest(payloadHash.value), Compile.ParseReplay(replayClass.value)))
  }

  /** All values, if none is missing. */
  function Collect<T>(xs: seq<Option<T>>): Option<seq<T>> {
    if xs == [] then Some([])
    else
      var rest := Collect(xs[1..]);
      if xs[0].None? || rest.None? then None else Some([xs[0].value] + rest.value)
  }

  function ReadGraph(v: Json): Option<seq<Node>> {
    var nodes := FieldOf(v, "nodes");
    if nodes.Some? && nodes.value.Arr?
    then Collect(seq(|nodes.value.items|, i requires 0 <= i < |nodes.value.items| => ReadNode(nodes.value.items[i])))
    else None
  }

  // ----- the round trip -----

  /** The node as the compiler makes it, with a payload that JSON can hold. */
  ghost predicate Storable(n: Node) {
    Wf(n.payload) && Compile.ParseReplay(ReplayText(n.replayClass)) == n.replayClass
  }

  ghost predicate AllStorable(graph: seq<Node>) {
    forall i {:trigger graph[i]} | 0 <= i < |graph| :: Storable(graph[i])
  }

  /** Resolving references keeps keys and numbers, so a compiled payload is still JSON. */
  lemma {:induction false} ResolvedIsJson(v: Json, r: Json, inputs: map<string, Normalize.Input>)
    requires Wf(v) && Resolve.SameShape(v, r, inputs)
    ensures Wf(r)
    decreases v
  {
    if v.Arr? {
      forall i | 0 <= i < |r.items| ensures Wf(r.items[i]) {
        ResolvedIsJson(v.items[i], r.items[i], inputs);
      }
    } else if v.Obj? {
      forall i | 0 <= i < |r.fields| ensures FieldName(r.fields[i].0) && Wf(r.fields[i].1) {
        ResolvedIsJson(v.fields[i].1, r.fields[i].1, inputs);
      }
      forall i, j | 0 <= i < j < |r.fields| ensures r.fields[i].0 != r.fields[j].0 {
        assert v.fields[i].0 != v.fields[j].0;
      }
    }
  }

  /** Every compiled node can be stored and read back. */
  lemma CompiledIsStorable(step: Normalize.StepSource, inputs: map<string, Normalize.Input>, n: Node)
    requires Compile.Compiled(step, inputs, n) && Wf(Compile.Args(step))
    ensures Storable(n)
  {
    ResolvedIsJson(Compile.Args(step), n.payload, inputs);
  }

  function Reread(n: Node): Node {
    n.(payload := Sorted(n.payload))
  }

  function RereadAll(graph: seq<Node>): seq<Node> {
    seq(|graph|, i requires 0 <= i < |graph| => Reread(graph[i]))
  }

  lemma FieldAt(v: Json, i: nat)
    requires Wf(v) && v.Obj? && i < |v.fields|
    ensures FieldOf(v, v.fields[i].0) == Some(v.fields[i].1)
    ensures FieldOf(Sorted(v), v.fields[i].0) == Some(Sorted(v.fields[i].1))
  {
    assert v.fields[i] in v.fields;
    SameKey(v.fields, i, Place(v.fields, v.fields[i].0));
    SortedField(v, v.fields[i].0);
  }

  /** The text under the i-th key survives sorting. */
  lemma TextStays(v: Json, i: nat)
    requires Wf(v) && v.Obj? && i < |v.fields| && v.fields[i].1.Str?
    ensures TextAt(Sorted(v), v.fields[i].0) == Some(v.fields[i].1.s)
  {
    FieldAt(v, i);
  }

  lemma TextsStay(v: Json, i: nat, ss: seq<string>)
    requires Wf(v) && v.Obj? && i < |v.fields| && v.fields[i].1 == Arr(Texts(ss))
    ensures TextsAt(Sorted(v), v.fields[i].0) == Some(ss)
  {
    FieldAt(v, i);
    var items := Sorted(Arr(Texts(ss))).items;
    assert items == Texts(ss);
    assert seq(|items|, k requires 0 <= k < |items| => items[k].s) == ss;
  }

  lemma NodeIsJson(n: Node)
    requires Wf(n.payload)
    ensures Wf(NodeJson(n))
  {
    forall i | 0 <= i < |n.dependsOn| ensures Wf(Texts(n.dependsOn)[i]) {
    }
    assert Wf(Arr(Texts(n.dependsOn)));
  }

  /** The names under which the file holds a node's fields. */
  lemma WrittenNode(n: Node)
    requires Wf(NodeJson(n))
    ensures var v := NodeJson(n);
            && FieldOf(v, "id") == Some(Str(n.id)) && FieldOf(v, "bridgeId") == Some(Str(n.bridgeId))
            && FieldOf(v, "action") == Some(Str(n.action)) && FieldOf(v, "payload") == Some(n.payload)
            && FieldOf(v, "payloadHash") == Some(Str(n.payloadHash.text))
  {
    var v := NodeJson(n);
    FieldAt(v, 0);
    FieldAt(v, 2);
    FieldAt(v, 3);
    FieldAt(v, 5);
    FieldAt(v, 6);
  }

  lemma WrittenClasses(n: Node)
    requires Wf(NodeJson(n))
    ensures FieldOf(NodeJson(n), "cell") == Some(Str(CellText(n.cell)))
    ensures FieldOf(NodeJson(n), "replayClass") == Some(Str(ReplayText(n.replayClass)))
    ensures FieldOf(NodeJson(n), "dependsOn") == Some(Arr(Texts(n.dependsOn)))
  {
    var v := NodeJson(n);
    FieldAt(v, 1);
    FieldAt(v, 4);
    FieldAt(v, 7);
  }

  /** The words of the file for cells and replay classes. */
  lemma ClassTexts()
    ensures CellText(Read) == "read" && CellText(Research) == "research"
    ensures CellText(Session) == "session" && CellText(Elevated) == "elevated"
    ensures ReplayText(ReadOnly) == "read_only" && ReplayText(Idempotent) == "idempotent"
    ensures ReplayText(ReviewBeforeReplay) == "review_before_replay"
  {
  }

  /** The names under which the file holds the graph. */
  lemma WrittenGraph(h: Header, graph: seq<Node>)
    requires Wf(GraphJson(h, graph))
    ensures var v := GraphJson(h, graph);
            && FieldOf(v, "schemaVersion") == Some(Str("toolflow.compiled-graph/v1"))
            && FieldOf(v, "nodes").Some? && FieldOf(v, "nodes").value.Arr?
            && |FieldOf(v, "nodes").value.items| == |graph|
            && forall i | 0 <= i < |graph| :: FieldOf(v, "nodes").value.items[i] == NodeJson(graph[i])
  {
    FieldAt(GraphJson(h, graph), 0);
    FieldAt(GraphJson(h, graph), 3);
  }

  lemma NodeNames(n: Node)
    requires Wf(NodeJson(n))
    ensures var v := Sorted(NodeJson(n));
            && TextAt(v, "id") == Some(n.id) && TextAt(v, "bridgeId") == Some(n.bridgeId)
            && TextAt(v, "action") == Some(n.action)
  {
    var v := NodeJson(n);
    TextStays(v, 0);
    TextStays(v, 2);
    TextStays(v, 3);
  }

  lemma NodeCell(n: Node)
    requires Wf(NodeJson(n))
    ensures TextAt(Sorted(NodeJson(n)), "cell") == Some(CellText(n.cell))
  {
    TextStays(NodeJson(n), 1);
  }

  lemma NodeContents(n: Node)
    requires Wf(NodeJson(n))
    ensures var v := Sorted(NodeJson(n));
            && TextsAt(v, "dependsOn") == Some(n.dependsOn) && FieldOf(v, "payload") == Some(Sorted(n.payload))
            && TextAt(v, "payloadHash") == Some(n.payloadHash.text)
            && TextAt(v, "replayClass") == Some(ReplayText(n.replayClass))
  {
    var v := NodeJson(n);
    TextsStay(v, 4, n.dependsOn);
    FieldAt(v, 5);
    TextStays(v, 6);
    TextStays(v, 7);
  }

  lemma CellsRead(cell: Cell)
    ensures Compile.ParseCell(CellText(cell)) == cell
  {
  }

  lemma NodeSurvives(n: Node)
    requires Storable(n)
    ensures ReadNode(Sorted(NodeJson(n))) == Some(Reread(n))
  {
    NodeIsJson(n);
    NodeNames(n);
    NodeCell(n);
    NodeContents(n);
    CellsRead(n.cell);
    NodeReads(Sorted(NodeJson(n)), n);
  }

  lemma NodeReads(v: Json, n: Node)
    requires Compile.ParseCell(CellText(n.cell)) == n.cell
    requires Compile.ParseReplay(ReplayText(n.replayClass)) == n.replayClass
    requires TextAt(v, "id") == Some(n.id) && TextAt(v, "cell") == Some(CellText(n.cell))
    requires TextAt(v, "bridgeId") == Some(n.bridgeId) && TextAt(v, "action") == Some(n.action)
    requires TextsAt(v, "dependsOn") == Some(n.dependsOn) && FieldOf(v, "payload") == Some(Sorted(n.payload))
    requires TextAt(v, "payloadHash") == Some(n.payloadHash.text)
    requires TextAt(v, "replayClass") == Some(ReplayText(n.replayClass))
    ensures ReadNode(v) == Some(Reread(n))
  {
  }

  lemma {:induction false} CollectAll<T>(xs: seq<Option<T>>, values: seq<T>)
    requires |xs| == |values| && forall k | 0 <= k < |xs| :: xs[k] == Some(values[k])
    ensures Collect(xs) == Some(values)
  {
    if xs != [] {
      CollectAll(xs[1..], values[1..]);
      assert values == [values[0]] + values[1..];
    }
  }

  /** The graph read back from its file is the graph written, with the keys of its payloads sorted. */
  lemma GraphSurvives(h: Header, graph: seq<Node>)
    requires AllStorable(graph)
    ensures var v := GraphJson(h, graph);
            ReadBack(v).Some? && ReadGraph(ReadBack(v).value) == Some(RereadAll(graph))
  {
    var v := GraphJson(h, graph);
    var nodes := v.fields[3].1;
    forall i | 0 <= i < |nodes.items| ensures Wf(nodes.items[i]) {
      NodeIsJson(graph[i]);
    }
    assert Wf(nodes);
    assert Wf(v);
    LedgerRoundTrip(v);
    FieldAt(v, 3);
    NodesRead(graph, Sorted(nodes).items);
  }

  lemma NodesRead(graph: seq<Node>, items: seq<Json>)
    requires AllStorable(graph) && |items| == |graph|
    requires forall i | 0 <= i < |graph| :: items[i] == Sorted(NodeJson(graph[i]))
    ensures Collect(seq(|items|, i requires 0 <= i < |items| => ReadNode(items[i]))) == Some(RereadAll(graph))
  {
    var read := seq(|items|, i requires 0 <= i < |items| => ReadNode(items[i]));
    var back := RereadAll(graph);
    forall i | 0 <= i < |read| ensures read[i] == Some(back[i]) {
      NodeSurvives(graph[i]);
    }
    CollectAll(read, back);
  }

  /** So a bridge admits the same grants for every node of the graph read back, which is as well-formed. */
  lemma AdmittedAfterReadBack(h: Header, graph: seq<Node>, l: Ledger, at: Time, i: nat, grant: StepGrant)
    requires AllStorable(graph) && i < |graph|
    ensures var v := GraphJson(h, graph);
            && ReadBack(v).Some? && ReadGraph(ReadBack(v).value).Some?
            && var back := ReadGraph(ReadBack(v).value).value;
               && |back| == |graph| && (WellFormed(graph) ==> WellFormed(back))
               && (Admitted(l, at, back[i], grant) <==> Admitted(l, at, graph[i], grant))
  {
    GraphSurvives(h, graph);
    RereadAdmits(l, at, graph[i], grant);
    if WellFormed(graph) { RereadWellFormed(graph); }
  }

  lemma RereadAdmits(l: Ledger, at: Time, n: Node, grant: StepGrant)
    requires Wf(n.payload)
    ensures Admitted(l, at, Reread(n), grant) <==> Admitted(l, at, n, grant)
  {
    SortedIdempotent(n.payload);
    SortedField(n.payload, "localOnly");
  }

  lemma RereadWellFormed(graph: seq<Node>)
    requires WellFormed(graph) && AllStorable(graph)
    ensures WellFormed(RereadAll(graph))
  {
    var back := RereadAll(graph);
    forall i: nat, j: nat | SameId(back, i, j) ensures i == j {
      assert SameId(graph, i, j);
    }
    RereadRanked(graph);
    forall n | n in back ensures n.payloadHash == HashJson(n.payload) {
      var i :| 0 <= i < |back| && back[i] == n;
      SortedIdempotent(graph[i].payload);
      assert graph[i].payloadHash == HashJson(graph[i].payload);
    }
  }

  lemma RereadRanked(graph: seq<Node>)
    requires exists rank :: Ranked(graph, rank)
    ensures exists rank :: Ranked(RereadAll(graph), rank)
  {
    var rank :| Ranked(graph, rank);
    var back := RereadAll(graph);
    assert Ids(back) == Ids(graph) by {
      forall n | n in graph ensures n.id in Ids(back) {
        var i :| 0 <= i < |graph| && graph[i] == n;
        assert back[i] in back;
      }
    }
    forall n, d | Edge(back, n, d) ensures n.id in rank && d in rank && rank[d] < rank[n.id] {
      var i :| 0 <= i < |back| && back[i] == n;
      assert Edge(graph, graph[i], d);
    }
    assert Ranked(back, rank);
  }
}
