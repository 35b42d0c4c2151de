// Accepting an expert-team plan: the depth-first search that rejects dependency cycles, and why an accepted
// plan can always be finished.
module ExpertPlan {
  import opened Common
  import opened Text
  import opened ExpertTeam
  import opened ExpertLatest
  import opened ExpertProgress

  /** Folded keys and the folded keys they depend on. */
  type Graph = map<string, seq<string>>

  ghost predicate Closed(graph: Graph) {
    forall k :: k in graph ==> forall d :: d in graph[k] ==> d in graph
  }

  /** Each key depends on the next, and the last on the first. */
  ghost predicate IsCycle(graph: Graph, cycle: seq<string>) {
    && cycle != [] && (forall k :: k in cycle ==> k in graph)
    && (forall i :: 0 <= i < |cycle| - 1 ==> cycle[i + 1] in graph[cycle[i]])
    && cycle[0] in graph[cycle[|cycle| - 1]]
  }

  ghost predicate HasCycle(graph: Graph) {
    exists cycle :: IsCycle(graph, cycle)
  }

  /** Every key comes after the keys it depends on. */
  ghost predicate Ordered(graph: Graph, order: seq<string>) {
    forall i :: 0 <= i < |order| ==> order[i] in graph && forall d :: d in graph[order[i]] ==> d in order[..i]
  }

  ghost predicate Orders(graph: Graph, order: seq<string>) {
    Ordered(graph, order) && forall k :: k in graph ==> k in order
  }

  function FirstAt(order: seq<string>, key: string): (i: nat)
    requires key in order
    ensures i < |order| && order[i] == key && forall j :: 0 <= j < i ==> order[j] != key
  {
    if order[0] == key then 0
    else
      assert order == [order[0]] + order[1..];
      var rest := FirstAt(order[1..], key);
      assert forall j :: 0 < j <= rest ==> order[j] == order[1..][j - 1];
      rest + 1
  }

  lemma OrderGrows(graph: Graph, order: seq<string>, key: string)
    requires Ordered(graph, order) && key in graph && forall d :: d in graph[key] ==> d in order
    ensures Ordered(graph, order + [key])
  {
    var longer := order + [key];
    forall i | 0 <= i < |longer|
      ensures longer[i] in graph && forall d :: d in graph[longer[i]] ==> d in longer[..i]
    {
      if i < |order| {
        assert longer[..i] == order[..i] && longer[i] == order[i];
      } else {
        assert longer[..i] == order;
      }
    }
  }

  lemma CycleFound(graph: Graph, path: seq<string>, key: string) returns (cycle: seq<string>)
    requires (forall k :: k in path ==> k in graph) && key in path
    requires forall i :: 0 <= i < |path| - 1 ==> path[i + 1] in graph[path[i]]
    requires key in graph[path[|path| - 1]]
    ensures IsCycle(graph, cycle)
  {
    var i :| 0 <= i < |path| && path[i] == key;
    cycle := path[i..];
    assert cycle[0] == key && cycle[|cycle| - 1] == path[|path| - 1];
  }

  lemma DependencyIsEarlier(graph: Graph, order: seq<string>, key: string, d: string)
    requires Ordered(graph, order) && key in order && key in graph && d in graph[key]
    ensures d in order && FirstAt(order, d) < FirstAt(order, key)
  {
    var i := FirstAt(order, key);
    assert d in order[..i];
    var j :| 0 <= j < i && order[..i][j] == d;
    assert order[j] == d;
  }

  lemma {:induction false} CycleDescends(graph: Graph, order: seq<string>, cycle: seq<string>, i: nat)
    requires Orders(graph, order) && IsCycle(graph, cycle) && i < |cycle|
    ensures cycle[i] in order && cycle[0] in order && FirstAt(order, cycle[i]) + i <= FirstAt(order, cycle[0])
  {
    assert cycle[i] in cycle && cycle[0] in cycle;
    if i > 0 {
      CycleDescends(graph, order, cycle, i - 1);
      assert cycle[i - 1] in cycle && cycle[i - 1 + 1] in graph[cycle[i - 1]];
      DependencyIsEarlier(graph, order, cycle[i - 1], cycle[i]);
    }
  }

  lemma NotACycle(graph: Graph, order: seq<string>, cycle: seq<string>)
    requires Orders(graph, order)
    ensures !IsCycle(graph, cycle)
  {
    if IsCycle(graph, cycle) {
      var last := |cycle| - 1;
      assert cycle[last] in cycle;
      DependencyIsEarlier(graph, order, cycle[last], cycle[0]);
      CycleDescends(graph, order, cycle, last);
    }
  }

  /** An order and a cycle exclude each other. */
  lemma OrderedHasNoCycle(graph: Graph, order: seq<string>)
    requires Orders(graph, order)
    ensures !HasCycle(graph)
  {
    forall cycle
      ensures !IsCycle(graph, cycle)
    {
      NotACycle(graph, order, cycle);
    }
  }

  // ----- The search -----

  class CycleWalk {
    var visiting: set<string>
    var visited: set<string>
    ghost var path: seq<string>
    ghost var order: seq<string>

    constructor ()
      ensures visiting == {} && visited == {} && path == [] && order == []
    {
      visiting, visited, path, order := {}, {}, [], [];
    }

    ghost predicate Valid(graph: Graph)
      reads this
    {
      && (forall k :: k in visiting <==> k in path)
      && (forall k :: k in path ==> k in graph)
      && (forall i :: 0 <= i < |path| - 1 ==> path[i + 1] in graph[path[i]])
      && (forall k :: k in visited <==> k in order)
      && Ordered(graph, order)
    }

    method Enter(graph: Graph, key: string)
      requires Valid(graph) && key in graph && key !in visiting
      requires path != [] ==> key in graph[path[|path| - 1]]
      modifies this`visiting, this`path
      ensures Valid(graph) && path == old(path) + [key] && visiting == old(visiting) + {key}
    {
      visiting := visiting + {key};
      path := path + [key];
    }

    method Leave(graph: Graph, key: string)
      requires Valid(graph) && key in graph && path != [] && path[|path| - 1] == key && key !in path[..|path| - 1]
      requires forall d :: d in graph[key] ==> d in visited
      modifies this
      ensures Valid(graph) && path == old(path)[..|old(path)| - 1] && visiting == old(visiting) - {key}
      ensures visited == old(visited) + {key}
    {
      OrderGrows(graph, order, key);
      assert path == path[..|path| - 1] + [key];
      visiting := visiting - {key};
      visited := visited + {key};
      path := path[..|path| - 1];
      order := order + [key];
    }

    method Visit(graph: Graph, key: string) returns (ok: bool)
      requires Closed(graph) && Valid(graph) && key in graph
      requires path != [] ==> key in graph[path[|path| - 1]]
      modifies this
      ensures ok ==> Valid(graph) && path == old(path) && visiting == old(visiting)
      ensures ok ==> key in visited && old(visited) <= visited
      ensures !ok ==> HasCycle(graph)
      decreases |graph.Keys - visiting|, 0
    {
      if key in visited {
        return true;
      }
      if key in visiting {
        ghost var cycle := CycleFound(graph, path, key);
        return false;
      }
      Enter(graph, key);
      LessLeft(graph, old(visiting), key);
      ok := VisitDependencies(graph, key);
      if ok {
        Leave(graph, key);
        assert path == old(path) && visiting == old(visiting);
      }
    }

    method VisitDependencies(graph: Graph, key: string) returns (ok: bool)
      requires Closed(graph) && Valid(graph) && key in graph && path != [] && path[|path| - 1] == key
      modifies this
      ensures ok ==> Valid(graph) && path == old(path) && visiting == old(visiting) && old(visited) <= visited
      ensures ok ==> forall d :: d in graph[key] ==> d in visited
      ensures !ok ==> HasCycle(graph)
      decreases |graph.Keys - visiting|, 1
    {
      var i := 0;
      while i < |graph[key]|
        invariant 0 <= i <= |graph[key]|
        invariant Valid(graph) && path == old(path) && visiting == old(visiting) && old(visited) <= visited
        invariant forall j :: 0 <= j < i ==> graph[key][j] in visited
      {
        ok := Visit(graph, graph[key][i]);
        if !ok {
          return;
        }
        i := i + 1;
      }
      ok := true;
    }
  }

  lemma LessLeft(graph: Graph, visiting: set<string>, key: string)
    requires key in graph && key !in visiting
    ensures |graph.Keys - (visiting + {key})| < |graph.Keys - visiting|
  {
    var left := graph.Keys - visiting;
    assert key in left && graph.Keys - (visiting + {key}) == left - {key};
  }

  /** `reject_dependency_cycles`: the keys may be visited in any order. */
  method RejectDependencyCycles(graph: Graph) returns (ok: bool)
    requires Closed(graph)
    ensures ok <==> exists order :: Orders(graph, order)
    ensures ok <==> !HasCycle(graph)
  {
    var walk := new CycleWalk();
    var todo := graph.Keys;
    while todo != {}
      invariant walk.Valid(graph) && walk.path == [] && todo <= graph.Keys && fresh(walk)
      invariant forall k :: k in graph && k !in todo ==> k in walk.visited
      decreases |todo|
    {
      var key :| key in todo;
      todo := todo - {key};
      ok := walk.Visit(graph, key);
      if !ok {
        forall order
          ensures !Orders(graph, order)
        {
          if Orders(graph, order) {
            OrderedHasNoCycle(graph, order);
          }
        }
        return;
      }
    }
    assert Orders(graph, walk.order);
    OrderedHasNoCycle(graph, walk.order);
    ok := true;
  }

  // ----- Accepted plans -----

  datatype Item = Item(key: string, dependsOn: seq<string>, resources: seq<Resource>)

  const MAX_MEMBERS := 4
  const MAX_DEPENDENCIES := 3
  const MAX_KEY_LENGTH := 64

  function Folded(key: string): string {
    Lower(Trim(key, IsRustSpace))
  }

  predicate ValidKey(key: string) {
    var trimmed := Trim(key, IsRustSpace);
    0 < |trimmed| <= MAX_KEY_LENGTH
    && forall c :: c in trimmed ==> '0' <= c <= '9' || 'a' <= c <= 'z' || 'A' <= c <= 'Z' || c == '-' || c == '_'
  }

  predicate HasKey(items: seq<Item>, key: string) {
    exists i :: 0 <= i < |items| && Folded(items[i].key) == key
  }

  predicate ValidDependencies(items: seq<Item>, item: Item) {
    && |item.dependsOn| <= MAX_DEPENDENCIES
    && (forall d :: d in item.dependsOn ==> ValidKey(d) && Folded(d) != Folded(item.key) && HasKey(items, Folded(d)))
    && forall i, j :: 0 <= i < j < |item.dependsOn| ==> Folded(item.dependsOn[i]) != Folded(item.dependsOn[j])
  }

  function FoldedAll(keys: seq<string>): (folded: seq<string>)
    ensures |folded| == |keys|
  {
    seq(|keys|, i requires 0 <= i < |keys| => Folded(keys[i]))
  }

  function GraphOf(items: seq<Item>): Graph {
    if items == [] then map[]
    else
      var last := items[|items| - 1];
      GraphOf(items[..|items| - 1])[Folded(last.key) := FoldedAll(last.dependsOn)]
  }

  predicate DistinctItems(items: seq<Item>) {
    forall i, j :: 0 <= i < j < |items| ==> Folded(items[i].key) != Folded(items[j].key)
  }

  /** The key and dependency checks of `validate_team_plan`, and no cycle. */
  ghost predicate Accepted(items: seq<Item>) {
    && 2 <= |items| <= MAX_MEMBERS
    && (forall item :: item in items ==> ValidKey(item.key) && ValidDependencies(items, item))
    && DistinctItems(items)
    && exists order :: Orders(GraphOf(items), order)
  }

  lemma {:induction false} GraphHolds(items: seq<Item>)
    requires DistinctItems(items)
    ensures forall k :: k in GraphOf(items) <==> HasKey(items, k)
    ensures forall i :: 0 <= i < |items| ==>
      Folded(items[i].key) in GraphOf(items) && GraphOf(items)[Folded(items[i].key)] == FoldedAll(items[i].dependsOn)
  {
    if items != [] {
      var front, last := items[..|items| - 1], items[|items| - 1];
      GraphHolds(front);
      forall k
        ensures k in GraphOf(items) <==> HasKey(items, k)
      {
        assert HasKey(items, k) <==> HasKey(front, k) || Folded(last.key) == k by {
          if i :| 0 <= i < |front| && Folded(front[i].key) == k {
            assert Folded(items[i].key) == k;
          }
          if i :| 0 <= i < |items| && Folded(items[i].key) == k {
            assert i < |front| ==> Folded(front[i].key) == k;
          }
        }
      }
      forall i | 0 <= i < |items|
        ensures Folded(items[i].key) in GraphOf(items)
                && GraphOf(items)[Folded(items[i].key)] == FoldedAll(items[i].dependsOn)
      {
        if i < |front| {
          assert front[i] == items[i];
        }
      }
    }
  }

  function TrimAll(keys: seq<string>): seq<string> {
    seq(|keys|, i requires 0 <= i < |keys| => Trim(keys[i], IsRustSpace))
  }

  function ContractOf(item: Item, parent: nat, team: nat, input: nat): Contract {
    Contract(team, parent, input, Trim(item.key, IsRustSpace), 1, TrimAll(item.dependsOn), item.resources)
  }

  /** The queued runs an accepted plan becomes. */
  function TeamRecords(items: seq<Item>, parent: nat, team: nat, input: nat, firstId: nat, at: int): seq<Record> {
    seq(|items|, i requires 0 <= i < |items| =>
      Record(firstId + i, Subagent, Some(parent), Queued, at, 0, Some(ContractOf(items[i], parent, team, input)), None, false))
  }

  /** The contracted children of the parent are the plan's records. */
  lemma PlanRecord(before: seq<Record>, items: seq<Item>, parent: nat, team: nat, input: nat, firstId: nat, at: int, j: nat)
    requires forall r :: r in before ==> !ChildOf(r, parent) && !InTeam(r, team)
    requires j < |before| + |items|
    ensures var r := (before + TeamRecords(items, parent, team, input, firstId, at))[j];
      && (Mine(r, parent) <==> j >= |before|) && (InTeam(r, team) <==> j >= |before|)
      && (j >= |before| ==> r.contract == Some(ContractOf(items[j - |before|], parent, team, input))
                            && r.status == Queued && r.role == Subagent)
  {
    if j < |before| {
      assert before[j] in before;
    }
  }

  function RankOf(order: seq<string>): map<string, nat> {
    map k | k in order :: FirstAt(order, k)
  }

  lemma PlanDependency(before: seq<Record>, items: seq<Item>, parent: nat, team: nat, input: nat, firstId: nat, at: int,
                       order: seq<string>, j: nat, d: string)
    requires Accepted(items) && Orders(GraphOf(items), order)
    requires forall r :: r in before ==> !ChildOf(r, parent) && !InTeam(r, team)
    requires j < |before| + |items|
    requires var r := (before + TeamRecords(items, parent, team, input, firstId, at))[j];
      Mine(r, parent) && d in r.contract.value.dependsOn
    ensures var records := before + TeamRecords(items, parent, team, input, firstId, at);
      && (exists m: nat :: m < |records| && Mine(records[m], parent) && KeyOf(records[m]) == Lower(d))
      && Lower(d) in order && KeyOf(records[j]) in order && FirstAt(order, Lower(d)) < FirstAt(order, KeyOf(records[j]))
  {
    PlanRecord(before, items, parent, team, input, firstId, at, j);
    DependencyRanked(items, j - |before|, d, order);
    var m: nat :| m < |items| && Folded(items[m].key) == Lower(d);
    PlanRecord(before, items, parent, team, input, firstId, at, |before| + m);
  }

  lemma PlanIsRanked(before: seq<Record>, items: seq<Item>, parent: nat, team: nat, input: nat, firstId: nat, at: int, order: seq<string>)
    requires Accepted(items) && Orders(GraphOf(items), order)
    requires forall r :: r in before ==> !ChildOf(r, parent) && !InTeam(r, team)
    ensures Ranked(before + TeamRecords(items, parent, team, input, firstId, at), parent, RankOf(order))
  {
    var records := before + TeamRecords(items, parent, team, input, firstId, at);
    forall j: nat, d | FirstMax(records, parent, j) && d in records[j].contract.value.dependsOn
      ensures DependsBelow(records, parent, RankOf(order), records[j], d)
    {
      PlanDependency(before, items, parent, team, input, firstId, at, order, j, d);
      var m: nat :| m < |records| && Mine(records[m], parent) && KeyOf(records[m]) == Lower(d);
      assert records[m] in records;
    }
  }

  lemma DependencyRanked(items: seq<Item>, i: nat, d: string, order: seq<string>)
    requires Accepted(items) && Orders(GraphOf(items), order) && i < |items| && d in TrimAll(items[i].dependsOn)
    ensures HasKey(items, Lower(d)) && Lower(d) in order && Folded(items[i].key) in order
    ensures FirstAt(order, Lower(d)) < FirstAt(order, Folded(items[i].key))
  {
    GraphHolds(items);
    var k :| 0 <= k < |items[i].dependsOn| && Trim(items[i].dependsOn[k], IsRustSpace) == d;
    assert items[i] in items && ValidDependencies(items, items[i]);
    assert items[i].dependsOn[k] in items[i].dependsOn;
    assert FoldedAll(items[i].dependsOn)[k] == Lower(d);
    DependencyIsEarlier(GraphOf(items), order, Folded(items[i].key), Lower(d));
  }

  /** An accepted plan becomes a team that always has something running or ready until it can be synthesized. */
  lemma AcceptedPlanIsGood(before: seq<Record>, items: seq<Item>, parent: nat, team: nat, input: nat, firstId: nat, at: int)
    requires Accepted(items)
    requires forall r :: r in before ==> !ChildOf(r, parent) && !InTeam(r, team)
    ensures exists rank :: GoodTeam(before + TeamRecords(items, parent, team, input, firstId, at), parent, team, rank)
  {
    var records := before + TeamRecords(items, parent, team, input, firstId, at);
    var order :| Orders(GraphOf(items), order);
    PlanIsRanked(before, items, parent, team, input, firstId, at, order);
    PlanRecord(before, items, parent, team, input, firstId, at, |before|);
    assert records[|before|] in records && Mine(records[|before|], parent);
    forall j: nat | j < |records|
      ensures (Mine(records[j], parent) <==> InTeam(records[j], team))
              && (Mine(records[j], parent) ==>
                    records[j].contract.value.parent == parent && records[j].role == Subagent && records[j].status == Queued)
    {
      PlanRecord(before, items, parent, team, input, firstId, at, j);
    }
    assert TeamOf(records, parent, team) && Healthy(records, parent);
    assert GoodTeam(records, parent, team, RankOf(order));
  }
}
