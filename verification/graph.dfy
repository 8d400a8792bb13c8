/** The compiled workflow (`build_agent_graph` in main.py) as an explicit
    walk over node labels. The walk is defined for any six node functions;
    the agent module plugs in the nodes of main.py. */
module Graph {
  import opened Wrappers
  import opened AgentState
  import opened Nodes

  /** The registered nodes, and the terminal `END`. */
  datatype Node =
    | ExtractCity
    | CheckDatabase
    | GetFromDatabase
    | WebSearch
    | ParallelFetch
    | CombineResults
    | End

  /** How many steps are left before `END` at most; every edge lowers it. */
  function Rank(n: Node): nat
  {
    match n
    case ExtractCity => 5
    case CheckDatabase => 4
    case GetFromDatabase => 3
    case WebSearch => 3
    case ParallelFetch => 2
    case CombineResults => 1
    case End => 0
  }

  /** The function registered under each node label. */
  datatype Workflow = Workflow(
    extractCity: State -> Update,
    checkDatabase: State -> Update,
    getFromDatabase: State -> Update,
    webSearch: State -> Update,
    parallelFetch: State -> Update,
    combineResults: State -> Update)

  /** The update node `n` returns for state `s`; `END` returns nothing. */
  function Apply(w: Workflow, n: Node, s: State): Update
  {
    match n
    case ExtractCity => w.extractCity(s)
    case CheckDatabase => w.checkDatabase(s)
    case GetFromDatabase => w.getFromDatabase(s)
    case WebSearch => w.webSearch(s)
    case ParallelFetch => w.parallelFetch(s)
    case CombineResults => w.combineResults(s)
    case End => NoUpdate
  }

  /** The path map of the conditional edge: "database" and "web". */
  function Target(r: Route): Node
  {
    match r
    case Database => GetFromDatabase
    case Web => WebSearch
  }

  /** The edges of the graph, read after the node's update has been merged.
      The conditional edge out of `check_database` follows the router's
      answer; an answer the path map does not name (a stored `None`) is no
      edge, and the run fails there. */
  function Next(n: Node, t: State): (next: Option<Node>)
    ensures next.Some? ==> Rank(next.value) < Rank(n)
    ensures n != CheckDatabase && n != End ==> next.Some?
  {
    match n
    case ExtractCity => Some(CheckDatabase)
    case CheckDatabase =>
      (match RouteBasedOnCheck(t)
       case Some(r) => Some(Target(r))
       case None => None)
    case GetFromDatabase => Some(ParallelFetch)
    case WebSearch => Some(ParallelFetch)
    case ParallelFetch => Some(CombineResults)
    case CombineResults => Some(End)
    case End => None
  }

  /** The nodes a run executed, the state it ended in, and whether it
      reached `END`. */
  datatype RunResult = RunResult(visited: seq<Node>, final: State, completed: bool)

  /** The walk from node `n` with state `s`: run the node, merge its update,
      follow the edge. The history of messages only grows, the walk never
      runs more nodes than the rank of its start, and it starts where it is
      told to. */
  function RunFrom(w: Workflow, n: Node, s: State): (r: RunResult)
    ensures s.messages <= r.final.messages
    ensures |r.visited| <= Rank(n)
    ensures End !in r.visited
    ensures n != End ==> |r.visited| > 0 && r.visited[0] == n
    decreases Rank(n)
  {
    if n == End then RunResult([], s, true)
    else
      var t := Merge(s, Apply(w, n, s));
      match Next(n, t)
      case None => RunResult([n], t, false)
      case Some(m) =>
        var rest := RunFrom(w, m, t);
        RunResult([n] + rest.visited, rest.final, rest.completed)
  }

  /** `graph.ainvoke(state)`: the walk from the entry point. */
  function Invoke(w: Workflow, s: State): RunResult
  {
    RunFrom(w, ExtractCity, s)
  }

  /** The decision node always names a route. */
  ghost predicate Decisive(w: Workflow)
  {
    forall s :: w.checkDatabase(s).route.Some?
  }

  /** The states a run passes through, one per node, from the entry state. */
  function AfterExtract(w: Workflow, s: State): State
  {
    Merge(s, w.extractCity(s))
  }

  function AfterCheck(w: Workflow, s: State): State
  {
    var s1 := AfterExtract(w, s);
    Merge(s1, w.checkDatabase(s1))
  }

  /** The branch the decision node selects for the entry state `s`. */
  function BranchOf(w: Workflow, s: State): Node
    requires Decisive(w)
  {
    var s1 := AfterExtract(w, s);
    Target(w.checkDatabase(s1).route.value)
  }

  function AfterBranch(w: Workflow, s: State): State
    requires Decisive(w)
  {
    var s2 := AfterCheck(w, s);
    Merge(s2, Apply(w, BranchOf(w, s), s2))
  }

  function AfterFetch(w: Workflow, s: State): State
    requires Decisive(w)
  {
    var s3 := AfterBranch(w, s);
    Merge(s3, w.parallelFetch(s3))
  }

  function AfterCombine(w: Workflow, s: State): State
    requires Decisive(w)
  {
    var s4 := AfterFetch(w, s);
    Merge(s4, w.combineResults(s4))
  }

  /** The last two nodes always reach `END`. */
  lemma RunFromParallelFetch(w: Workflow, s: State)
    ensures RunFrom(w, ParallelFetch, s)
              == RunResult([ParallelFetch, CombineResults],
                           Merge(Merge(s, w.parallelFetch(s)), w.combineResults(Merge(s, w.parallelFetch(s)))),
                           true)
  {
    var t := Merge(s, w.parallelFetch(s));
    var u := Merge(t, w.combineResults(t));
    assert RunFrom(w, End, u) == RunResult([], u, true);
    assert RunFrom(w, CombineResults, t) == RunResult([CombineResults], u, true);
  }

  /** From the selected branch on, a run visits the branch, the fan-out and
      the combine node. */
  lemma RunFromBranch(w: Workflow, s: State)
    requires Decisive(w)
    ensures RunFrom(w, BranchOf(w, s), AfterCheck(w, s))
              == RunResult([BranchOf(w, s), ParallelFetch, CombineResults], AfterCombine(w, s), true)
  {
    var b := BranchOf(w, s);
    var s3 := AfterBranch(w, s);
    assert Merge(AfterCheck(w, s), Apply(w, b, AfterCheck(w, s))) == s3;
    assert Next(b, s3) == Some(ParallelFetch);
    RunFromParallelFetch(w, s3);
  }

  /** From the decision node on, a run visits it and then the selected
      branch onwards. */
  lemma RunFromCheck(w: Workflow, s: State)
    requires Decisive(w)
    ensures RunFrom(w, CheckDatabase, AfterExtract(w, s))
              == RunResult([CheckDatabase, BranchOf(w, s), ParallelFetch, CombineResults], AfterCombine(w, s), true)
  {
    var s2 := AfterCheck(w, s);
    assert Merge(AfterExtract(w, s), Apply(w, CheckDatabase, AfterExtract(w, s))) == s2;
    assert Next(CheckDatabase, s2) == Some(BranchOf(w, s));
    RunFromBranch(w, s);
  }

  /** Every run of a decisive workflow reaches `END`, whatever the entry
      state holds, after visiting extract, check, exactly one branch, the
      fan-out and the combine node, in that order, and ends in the state the
      five merges produce. Nothing on the way stops it, not even an error
      reported by a node. */
  lemma RunShape(w: Workflow, s: State)
    requires Decisive(w)
    ensures Invoke(w, s).completed
    ensures Invoke(w, s).visited
              == [ExtractCity, CheckDatabase, BranchOf(w, s), ParallelFetch, CombineResults]
    ensures Invoke(w, s).final == AfterCombine(w, s)
  {
    assert Merge(s, Apply(w, ExtractCity, s)) == AfterExtract(w, s);
    RunFromCheck(w, s);
  }

  /** Each run executes exactly one of the two branch nodes. */
  lemma ExactlyOneBranch(w: Workflow, s: State)
    requires Decisive(w)
    ensures (GetFromDatabase in Invoke(w, s).visited) != (WebSearch in Invoke(w, s).visited)
  {
    RunShape(w, s);
  }

  /** One step of the walk: run the node, merge, and either stop at a
      missing edge or continue from the next node. */
  lemma RunFromStep(w: Workflow, n: Node, s: State)
    requires n != End
    ensures var t := Merge(s, Apply(w, n, s));
      && (Next(n, t).None? ==> RunFrom(w, n, s) == RunResult([n], t, false))
      && (Next(n, t).Some? ==>
            var rest := RunFrom(w, Next(n, t).value, t);
            RunFrom(w, n, s) == RunResult([n] + rest.visited, rest.final, rest.completed))
  {
  }

  /** The walk as a loop: step until `END` or a missing edge. It visits the
      same nodes and ends in the same state as `Invoke`. */
  method Execute(w: Workflow, s0: State) returns (visited: seq<Node>, s: State, completed: bool)
    ensures RunResult(visited, s, completed) == Invoke(w, s0)
    ensures s0.messages <= s.messages
  {
    var n := ExtractCity;
    s := s0;
    visited := [];
    completed := false;
    var running := true;
    while running
      invariant s0.messages <= s.messages
      invariant running ==> !completed
      invariant running ==>
        var r := RunFrom(w, n, s);
        Invoke(w, s0) == RunResult(visited + r.visited, r.final, r.completed)
      invariant !running ==> Invoke(w, s0) == RunResult(visited, s, completed)
      decreases running, Rank(n)
    {
      if n == End {
        assert visited + [] == visited;
        completed := true;
        running := false;
      } else {
        var t := Merge(s, Apply(w, n, s));
        var next := Next(n, t);
        RunFromStep(w, n, s);
        if next.None? {
          visited := visited + [n];
          s := t;
          running := false;
        } else {
          ghost var rest := RunFrom(w, next.value, t);
          assert visited + ([n] + rest.visited) == (visited + [n]) + rest.visited;
          visited := visited + [n];
          s := t;
          n := next.value;
        }
      }
    }
  }
}
