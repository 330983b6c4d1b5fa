/**
  `detectCycles` of packages/runtime/src/compiler/build-graph.ts: a depth-first search with
  two mutable sets.
*/
module CycleDetection {

  type Id = string

  /** `deps.get(id) ?? []` */
  function Edges(deps: map<Id, seq<Id>>, id: Id): seq<Id> {
    if id in deps then deps[id] else []
  }

  /** A walk along dependencies. */
  ghost predicate Path(deps: map<Id, seq<Id>>, p: seq<Id>) {
    forall i, j {:trigger p[i], p[j]} | 0 <= i && j == i + 1 && j < |p| :: p[j] in Edges(deps, p[i])
  }

  /** Some step depends on itself, directly or through others. */
  ghost predicate Cyclic(deps: map<Id, seq<Id>>) {
    exists p {:trigger Path(deps, p)} :: Path(deps, p) && |p| >= 2 && p[0] == p[|p| - 1]
  }

  /** No id twice, and every id after all its dependencies. */
  ghost predicate Topological(deps: map<Id, seq<Id>>, order: seq<Id>) {
    forall i {:trigger order[i]} | 0 <= i < |order| ::
      && order[i] !in order[..i]
      && forall d | d in Edges(deps, order[i]) :: d in order[..i]
  }

  ghost predicate Distinct(s: seq<Id>) {
    forall i, j {:trigger s[i], s[j]} | 0 <= i < j < |s| :: s[i] != s[j]
  }

  function Members(s: seq<Id>): set<Id> {
    set x | x in s
  }

  /** The search in progress, with the ghost call stack and the order in which visits completed. */
  class Detector {
    const deps: map<Id, seq<Id>>
    ghost const universe: set<Id>
    var visiting: set<Id>
    var visited: set<Id>
    ghost var order: seq<Id>

    constructor (deps: map<Id, seq<Id>>, ghost universe: set<Id>)
      requires forall id | id in deps :: id in universe && forall d | d in deps[id] :: d in universe
      ensures this.deps == deps && this.universe == universe
      ensures Valid([]) && order == []
    {
      this.deps := deps;
      this.universe := universe;
      visiting, visited, order := {}, {}, [];
    }

    ghost predicate Valid(stack: seq<Id>)
      reads this
    {
      && (forall id | id in deps :: id in universe && forall d | d in deps[id] :: d in universe)
      && Distinct(stack) && Path(deps, stack)
      && visiting == Members(stack)
      && visited == Members(order)
      && visiting <= universe && visited <= universe
      && visiting !! visited
      && Topological(deps, order)
    }

    /** `visit`: false stands for the thrown validation error. */
    method Visit(id: Id, ghost stack: seq<Id>) returns (ok: bool)
      requires Valid(stack) && id in universe
      requires stack == [] || id in Edges(deps, stack[|stack| - 1])
      modifies this
      ensures ok ==> Valid(stack) && id in visited && old(order) <= order && old(visited) <= visited
      ensures !ok ==> Cyclic(deps)
      decreases universe - visiting - visited, 1
    {
      if id in visited { return true; }
      if id in visiting {
        StackCloses(deps, stack, id);
        return false;
      }
      ghost var inner := stack + [id];
      visiting := visiting + {id};
      PushValid(stack, id);
      assert visiting == Members(inner);
      var next := Edges(deps, id);
      var i := 0;
      while i < |next|
        invariant 0 <= i <= |next|
        invariant Valid(inner) && old(order) <= order
        invariant visiting == old(visiting) + {id} && old(visited) <= visited
        invariant forall k | 0 <= k < i :: next[k] in visited
        decreases |next| - i
      {
        assert universe - visiting - visited < universe - old(visiting) - old(visited) by {
          assert id !in universe - visiting - visited;
        }
        ok := Visit(next[i], inner);
        if !ok { return false; }
        i := i + 1;
      }
      visiting := visiting - {id};
      visited := visited + {id};
      PopMembers(stack, id);
      OrderGrows(deps, order, id);
      order := order + [id];
      ok := true;
    }

    lemma PushValid(stack: seq<Id>, id: Id)
      requires Distinct(stack) && Path(deps, stack) && id !in stack
      requires stack == [] || id in Edges(deps, stack[|stack| - 1])
      ensures Distinct(stack + [id]) && Path(deps, stack + [id])
      ensures Members(stack + [id]) == Members(stack) + {id}
    {
    }
  }

  lemma StackCloses(deps: map<Id, seq<Id>>, stack: seq<Id>, id: Id)
    requires Path(deps, stack) && id in stack && id in Edges(deps, stack[|stack| - 1])
    ensures Cyclic(deps)
  {
    var k :| 0 <= k < |stack| && stack[k] == id;
    var p := stack[k..] + [id];
    forall i, j | 0 <= i && j == i + 1 && j < |p| ensures p[j] in Edges(deps, p[i]) {
      assert p[i] == stack[k + i];
      if j < |p| - 1 { assert p[j] == stack[k + j]; }
    }
    assert Path(deps, p);
  }

  lemma PopMembers(stack: seq<Id>, id: Id)
    requires Distinct(stack + [id])
    ensures Members(stack + [id]) - {id} == Members(stack) && Distinct(stack)
  {
    var s := stack + [id];
    forall i, j | 0 <= i < j < |stack| ensures stack[i] != stack[j] {
      assert s[i] == stack[i] && s[j] == stack[j];
    }
    forall x | x in stack ensures x != id {
      var i :| 0 <= i < |stack| && stack[i] == x;
      assert s[i] == x && s[|stack|] == id;
    }
  }

  lemma OrderGrows(deps: map<Id, seq<Id>>, order: seq<Id>, id: Id)
    requires Topological(deps, order) && id !in order
    requires forall d | d in Edges(deps, id) :: d in order
    ensures Topological(deps, order + [id])
    ensures Members(order + [id]) == Members(order) + {id}
  {
    var s := order + [id];
    forall i | 0 <= i < |s| ensures s[i] !in s[..i] && forall d | d in Edges(deps, s[i]) :: d in s[..i] {
      if i < |order| {
        assert s[i] == order[i] && s[..i] == order[..i];
      } else {
        assert s[..i] == order;
      }
    }
  }

  // ----- what the order means -----

  function IndexOf(order: seq<Id>, id: Id): (i: nat)
    requires id in order
    ensures i < |order| && order[i] == id && id !in order[..i]
  {
    if order[0] == id then 0 else 1 + IndexOf(order[1..], id)
  }

  /** In a topological order every dependency comes strictly earlier. */
  lemma EdgeDescends(deps: map<Id, seq<Id>>, order: seq<Id>, id: Id, d: Id)
    requires Topological(deps, order) && id in order && d in Edges(deps, id)
    ensures d in order && IndexOf(order, d) < IndexOf(order, id)
  {
  }

  /** So a walk inside the order goes down, and cannot return to its start. */
  lemma {:induction false} PathDescends(deps: map<Id, seq<Id>>, order: seq<Id>, p: seq<Id>, n: nat)
    requires Topological(deps, order) && Path(deps, p) && n < |p| && p != [] && p[0] in order
    ensures p[n] in order && IndexOf(order, p[n]) + n <= IndexOf(order, p[0])
  {
    if n > 0 {
      PathDescends(deps, order, p, n - 1);
      EdgeDescends(deps, order, p[n - 1], p[n]);
    }
  }

  lemma OrderedIsAcyclic(deps: map<Id, seq<Id>>, order: seq<Id>)
    requires Topological(deps, order) && forall id | id in deps :: id in order
    ensures !Cyclic(deps)
  {
    forall p | Path(deps, p) && |p| >= 2 ensures p[0] != p[|p| - 1] {
      assert p[1] in Edges(deps, p[0]);
      PathDescends(deps, order, p, |p| - 1);
    }
  }

  // ----- detectCycles -----

  function Universe(deps: map<Id, seq<Id>>): set<Id> {
    deps.Keys + set id, d | id in deps && d in deps[id] :: d
  }

  /**
    The search accepts exactly the acyclic dependency relations, and then the order in which
    visits complete lists every step after its dependencies.
  */
  method DetectCycles(ids: seq<Id>, deps: map<Id, seq<Id>>) returns (ok: bool, ghost order: seq<Id>)
    requires forall id :: id in deps <==> id in ids
    ensures ok <==> !Cyclic(deps)
    ensures ok ==> Topological(deps, order) && forall id | id in ids :: id in order
  {
    var detector := new Detector(deps, Universe(deps));
    ok := true;
    var i := 0;
    while i < |ids|
      invariant 0 <= i <= |ids|
      invariant fresh(detector) && detector.deps == deps && detector.universe == Universe(deps)
      invariant detector.Valid([])
      invariant forall k | 0 <= k < i :: ids[k] in detector.visited
    {
      assert ids[i] in deps;
      ok := detector.Visit(ids[i], []);
      if !ok { return false, []; }
      i := i + 1;
    }
    order := detector.order;
    OrderedIsAcyclic(deps, order);
  }
}
