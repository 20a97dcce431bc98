// detect/tasklist.go: tasks that depend on one another, sorted once and then run as a tree.
module TaskLists {

  datatype Task = Task(id: string, taskType: string, depends: string)

  // Each task has no dependency or is preceded by a task that supplies it.
  predicate Ordered(tasks: seq<Task>) {
    forall i :: 0 <= i < |tasks| ==> Supplied(tasks[..i], tasks[i])
  }

  predicate Supplied(before: seq<Task>, task: Task) {
    task.depends == "" || exists j :: 0 <= j < |before| && before[j].id == task.depends
  }

  predicate Arranges(order: seq<Task>, tasks: multiset<Task>) {
    multiset(order) == tasks && Ordered(order)
  }

  predicate IdsUnique(tasks: seq<Task>) {
    && (forall i :: 0 <= i < |tasks| ==> tasks[i].id != "")
    && (forall i, j :: 0 <= i < j < |tasks| ==> tasks[i].id != tasks[j].id)
  }

  lemma OrderedAppend(tasks: seq<Task>, task: Task)
    requires Ordered(tasks) && Supplied(tasks, task)
    ensures Ordered(tasks + [task])
  {
    var all := tasks + [task];
    forall i | 0 <= i < |all| ensures Supplied(all[..i], all[i]) {
      assert all[..i] == tasks[..i];
      if i == |tasks| { assert tasks[..i] == tasks; }
    }
  }

  // If the tasks can be arranged at all, then however some of them have been placed, one of the
  // rest is supplied: the first of the rest in that arrangement.
  lemma OneIsReady(placed: seq<Task>, rest: seq<Task>, order: seq<Task>)
    requires rest != [] && Arranges(order, multiset(placed) + multiset(rest))
    ensures exists k :: 0 <= k < |rest| && Supplied(placed, rest[k])
  {
    assert rest[0] in multiset(placed) + multiset(rest);
    assert rest[0] in multiset(order);
    var i := FirstOf(order, rest);
    var k :| 0 <= k < |rest| && rest[k] == order[i];
    assert Supplied(order[..i], order[i]);
    if order[i].depends != "" {
      var j :| 0 <= j < i && order[..i][j].id == order[i].depends;
      assert order[j] in multiset(order);
      assert order[j] in placed;
      var m :| 0 <= m < |placed| && placed[m] == order[j];
    }
    assert Supplied(placed, rest[k]);
  }

  lemma Unarrangeable(placed: seq<Task>, rest: seq<Task>, all: multiset<Task>)
    requires rest != [] && multiset(placed) + multiset(rest) == all
    requires forall k :: 0 <= k < |rest| ==> !Supplied(placed, rest[k])
    ensures forall order :: !Arranges(order, all)
  {
    forall order ensures !Arranges(order, all) {
      if Arranges(order, all) {
        OneIsReady(placed, rest, order);
        assert false;
      }
    }
  }

  // Placing a task neither loses nor doubles one.
  lemma MoveOne(placed: seq<Task>, rest: seq<Task>, i: nat)
    requires i < |rest|
    ensures multiset(placed + [rest[i]]) + multiset(rest[..i] + rest[i + 1..]) == multiset(placed) + multiset(rest)
  {
    assert rest == rest[..i] + [rest[i]] + rest[i + 1..];
  }

  // The first position of `order` that holds one of `rest`
  lemma FirstOf(order: seq<Task>, rest: seq<Task>) returns (i: nat)
    requires rest != [] && rest[0] in order
    ensures i < |order| && order[i] in rest && forall j :: 0 <= j < i ==> order[j] !in rest
  {
    i := 0;
    while order[i] !in rest
      invariant i < |order| && forall j :: 0 <= j < i ==> order[j] !in rest
      decreases |order| - i
    {
      i := i + 1;
      assert exists k :: 0 <= k < |order| && order[k] == rest[0];
    }
  }

  // ---------------------------------------------------------------- how deep the recursion goes

  // Position of the first task with this id, or past the end
  function Find(tasks: seq<Task>, id: string): (i: nat)
    ensures i <= |tasks|
    ensures i < |tasks| ==> tasks[i].id == id
    ensures forall j :: 0 <= j < i ==> tasks[j].id != id
  {
    if tasks == [] then 0
    else if tasks[0].id == id then 0
    else 1 + Find(tasks[1..], id)
  }

  predicate Known(tasks: seq<Task>, id: string) {
    id == "" || Find(tasks, id) < |tasks|
  }

  // Test of one id calls Test of another if every handler succeeds.
  predicate Calls(tasks: seq<Task>, id: string, next: string) {
    exists k :: 0 <= k < |tasks| && tasks[k].depends == id && tasks[k].id == next
  }

  // Test of this id is no more than `n` calls deep.
  predicate Ends(tasks: seq<Task>, id: string, n: nat)
    decreases n
  {
    n > 0 && forall k :: 0 <= k < |tasks| && tasks[k].depends == id ==> Ends(tasks, tasks[k].id, n - 1)
  }

  predicate Terminates(tasks: seq<Task>, id: string) { Ends(tasks, id, |tasks| + 1) }

  lemma {:induction false} EndsMore(tasks: seq<Task>, id: string, m: nat, n: nat)
    requires Ends(tasks, id, m) && m <= n
    ensures Ends(tasks, id, n)
    decreases m
  {
    forall k | 0 <= k < |tasks| && tasks[k].depends == id ensures Ends(tasks, tasks[k].id, n - 1) {
      EndsMore(tasks, tasks[k].id, m - 1, n - 1);
    }
  }

  function Least(tasks: seq<Task>, id: string, n: nat): (d: nat)
    requires Ends(tasks, id, n)
    ensures d <= n && Ends(tasks, id, d)
  {
    if Ends(tasks, id, n - 1) then Least(tasks, id, n - 1) else n
  }

  lemma {:induction false} LeastIsLeast(tasks: seq<Task>, id: string, m: nat, n: nat)
    requires Ends(tasks, id, m) && Ends(tasks, id, n)
    ensures Least(tasks, id, n) <= m
  {
    if m < n {
      EndsMore(tasks, id, m, n - 1);
      LeastIsLeast(tasks, id, m, n - 1);
    }
  }

  // How deep Test of this id goes
  function Depth(tasks: seq<Task>, id: string): nat
    requires Terminates(tasks, id)
  {
    Least(tasks, id, |tasks| + 1)
  }

  lemma DepthDescends(tasks: seq<Task>, id: string, k: nat)
    requires Terminates(tasks, id) && k < |tasks| && tasks[k].depends == id
    ensures Terminates(tasks, tasks[k].id) && Known(tasks, tasks[k].id)
    ensures Depth(tasks, tasks[k].id) < Depth(tasks, id)
  {
    var d := Depth(tasks, id);
    assert Ends(tasks, tasks[k].id, d - 1);
    EndsMore(tasks, tasks[k].id, d - 1, |tasks| + 1);
    LeastIsLeast(tasks, tasks[k].id, d - 1, |tasks| + 1);
  }

  predicate IsWalk(tasks: seq<Task>, walk: seq<string>) {
    walk != [] && forall p :: 0 <= p < |walk| - 1 ==> Calls(tasks, walk[p], walk[p + 1])
  }

  lemma {:induction false} LongWalk(tasks: seq<Task>, id: string, n: nat) returns (walk: seq<string>)
    requires !Ends(tasks, id, n)
    ensures IsWalk(tasks, walk) && |walk| == n + 1 && walk[0] == id
    decreases n
  {
    if n == 0 {
      walk := [id];
    } else {
      var k :| 0 <= k < |tasks| && tasks[k].depends == id && !Ends(tasks, tasks[k].id, n - 1);
      var rest := LongWalk(tasks, tasks[k].id, n - 1);
      walk := [id] + rest;
      forall p | 0 <= p < |walk| - 1 ensures Calls(tasks, walk[p], walk[p + 1]) {
        assert p > 0 ==> walk[p] == rest[p - 1] && walk[p + 1] == rest[p];
      }
    }
  }

  // A walk that comes back to an id goes on forever.
  lemma {:induction false} RoundsNeverEnd(tasks: seq<Task>, walk: seq<string>, i: nat, j: nat, p: nat, n: nat)
    requires IsWalk(tasks, walk) && i < j < |walk| && walk[i] == walk[j] && p <= j
    ensures !Ends(tasks, walk[p], n)
    decreases n, if p == j then 1 else 0
  {
    if p == j {
      RoundsNeverEnd(tasks, walk, i, j, i, n);
    } else if n > 0 {
      RoundsNeverEnd(tasks, walk, i, j, p + 1, n - 1);
      var k :| 0 <= k < |tasks| && tasks[k].depends == walk[p] && tasks[k].id == walk[p + 1];
    }
  }

  function Ids(tasks: seq<Task>): set<string> {
    if tasks == [] then {} else Ids(tasks[..|tasks| - 1]) + {tasks[|tasks| - 1].id}
  }

  lemma {:induction false} FewIds(tasks: seq<Task>)
    ensures |Ids(tasks)| <= |tasks| && forall k :: 0 <= k < |tasks| ==> tasks[k].id in Ids(tasks)
  {
    if tasks != [] {
      var before := tasks[..|tasks| - 1];
      FewIds(before);
      forall k | 0 <= k < |tasks| ensures tasks[k].id in Ids(tasks) {
        if k < |tasks| - 1 { assert before[k] == tasks[k]; }
      }
    }
  }

  lemma {:induction false} SomeRepeats(s: seq<string>, ids: set<string>) returns (i: nat, j: nat)
    requires |s| > |ids| && forall p :: 0 <= p < |s| ==> s[p] in ids
    ensures i < j < |s| && s[i] == s[j]
    decreases |s|
  {
    var n := |s| - 1;
    if p :| 0 <= p < n && s[p] == s[n] {
      i, j := p, n;
    } else {
      i, j := SomeRepeats(s[..n], ids - {s[n]});
    }
  }

  // The recursion is either no deeper than the list is long, counting the start, or of no bounded
  // depth at all.
  lemma TerminatesExactly(tasks: seq<Task>, id: string)
    ensures Terminates(tasks, id) <==> exists n: nat :: Ends(tasks, id, n)
  {
    if Terminates(tasks, id) {
      assert Ends(tasks, id, |tasks| + 1);
    } else {
      var walk := LongWalk(tasks, id, |tasks| + 1);
      FewIds(tasks);
      forall p | 0 <= p < |walk| - 1 ensures walk[1..][p] in Ids(tasks) {
        assert Calls(tasks, walk[p], walk[p + 1]);
      }
      var i, j := SomeRepeats(walk[1..], Ids(tasks));
      forall n: nat ensures !Ends(tasks, id, n) {
        RoundsNeverEnd(tasks, walk, i + 1, j + 1, 0, n);
      }
    }
  }

  // In an ordered list with unique ids dependants come later, so every recursion terminates.
  lemma {:induction false} UniqueIdsEnd(tasks: seq<Task>, id: string, n: nat)
    requires Ordered(tasks) && IdsUnique(tasks) && n > 0 && n >= if id == "" then |tasks| + 1 else |tasks| - Find(tasks, id)
    ensures Ends(tasks, id, n)
    decreases n
  {
    forall k | 0 <= k < |tasks| && tasks[k].depends == id ensures Ends(tasks, tasks[k].id, n - 1) {
      assert Supplied(tasks[..k], tasks[k]);
      if id != "" {
        var j :| 0 <= j < k && tasks[..k][j].id == id;
        assert Find(tasks, id) <= j;
      }
      assert Find(tasks, tasks[k].id) == k;
      UniqueIdsEnd(tasks, tasks[k].id, n - 1);
    }
  }

  lemma UniqueIdsTerminate(tasks: seq<Task>, id: string)
    requires Ordered(tasks) && IdsUnique(tasks)
    ensures Terminates(tasks, id)
  {
    UniqueIdsEnd(tasks, id, |tasks| + 1);
  }

  // Shared ids may do no harm, and may make even an ordered list recur without end.
  const PAIR := [Task("a", "ping", ""), Task("a", "tcp", "")]
  const ROUND := [Task("a", "ping", ""), Task("b", "tcp", "a"), Task("a", "http", "b")]

  lemma SharedIds()
    ensures Ordered(PAIR) && Terminates(PAIR, "")
    ensures Ordered(ROUND) && !Terminates(ROUND, "")
  {
    assert Ends(PAIR, "a", 2);
    assert Supplied(ROUND[..1], ROUND[1]) by { assert ROUND[..1][0].id == "a"; }
    assert Supplied(ROUND[..2], ROUND[2]) by { assert ROUND[..2][1].id == "b"; }
    var walk := ["", "a", "b", "a"];
    assert Calls(ROUND, walk[0], walk[1]) by { assert ROUND[0].depends == "" && ROUND[0].id == "a"; }
    assert Calls(ROUND, walk[1], walk[2]) by { assert ROUND[1].depends == "a" && ROUND[1].id == "b"; }
    assert Calls(ROUND, walk[2], walk[3]) by { assert ROUND[2].depends == "b" && ROUND[2].id == "a"; }
    RoundsNeverEnd(ROUND, walk, 1, 3, 0, |ROUND| + 1);
  }

  // ---------------------------------------------------------------- running the tasks

  // What the handler of a task makes of an input: nothing, or details to pass on.
  type Handler<!D> = (Task, D) -> seq<D>

  function Pair<D>(task: Task, details: seq<D>): seq<(Task, D)> {
    if details == [] then [] else Pair(task, details[..|details| - 1]) + [(task, details[|details| - 1])]
  }

  // What Test returns: the task's own results, then those of its dependants for each of them.
  function Results<D>(tasks: seq<Task>, handle: Handler<D>, id: string, input: D): seq<(Task, D)>
    requires Terminates(tasks, id) && Known(tasks, id)
    decreases Depth(tasks, id), 2, 0
  {
    if id == "" then Below(tasks, handle, id, [input], |tasks|)
    else
      var task := tasks[Find(tasks, id)];
      var details := handle(task, input);
      Pair(task, details) + Below(tasks, handle, id, details, |tasks|)
  }

  // The results of the dependants of `id` among the first `k` tasks
  function Below<D>(tasks: seq<Task>, handle: Handler<D>, id: string, inputs: seq<D>, k: nat): seq<(Task, D)>
    requires Terminates(tasks, id) && k <= |tasks|
    decreases Depth(tasks, id), 1, k
  {
    if k == 0 then []
    else
      Below(tasks, handle, id, inputs, k - 1) +
      if tasks[k - 1].depends != id then []
      else
        DepthDescends(tasks, id, k - 1);
        ForEach(tasks, handle, tasks[k - 1].id, inputs)
  }

  // The results of one task for each of the inputs
  function ForEach<D>(tasks: seq<Task>, handle: Handler<D>, id: string, inputs: seq<D>): seq<(Task, D)>
    requires Terminates(tasks, id) && Known(tasks, id)
    decreases Depth(tasks, id), 3, |inputs|
  {
    if inputs == [] then []
    else
      ForEach(tasks, handle, id, inputs[..|inputs| - 1]) + Results(tasks, handle, id, inputs[|inputs| - 1])
  }

  // What Test of this id makes of an input and passes on
  function InputsOf<D>(tasks: seq<Task>, handle: Handler<D>, id: string, input: D): seq<D>
    requires Known(tasks, id)
  {
    if id == "" then [input] else handle(tasks[Find(tasks, id)], input)
  }

  // A chain of calls from `id`, each with what it made of the output of the one before
  predicate Chain<D(==)>(tasks: seq<Task>, handle: Handler<D>, id: string, input: D, chain: seq<(string, D)>)
    decreases |chain|
  {
    && chain != []
    && chain[0].0 == id
    && Known(tasks, id)
    && chain[0].1 in InputsOf(tasks, handle, id, input)
    && (|chain| > 1 ==>
          Calls(tasks, id, chain[1].0) && Chain(tasks, handle, chain[1].0, chain[0].1, chain[1..]))
  }

  // The last call of a chain is of a task and has this result.
  predicate Yields<D(==)>(tasks: seq<Task>, chain: seq<(string, D)>, result: (Task, D)) {
    && chain != []
    && var (id, detail) := chain[|chain| - 1];
       id != "" && Find(tasks, id) < |tasks| && result == (tasks[Find(tasks, id)], detail)
  }

  ghost predicate Derivable<D(!new)>(tasks: seq<Task>, handle: Handler<D>, id: string, input: D, result: (Task, D)) {
    exists chain :: Chain(tasks, handle, id, input, chain) && Yields(tasks, chain, result)
  }

  lemma {:induction false} InPair<D>(task: Task, details: seq<D>, r: (Task, D))
    ensures r in Pair(task, details) <==> r.0 == task && r.1 in details
  {
    if details != [] {
      InPair(task, details[..|details| - 1], r);
    }
  }

  lemma {:induction false} InForEach<D>(tasks: seq<Task>, handle: Handler<D>, id: string, inputs: seq<D>, r: (Task, D))
    requires Terminates(tasks, id) && Known(tasks, id)
    ensures r in ForEach(tasks, handle, id, inputs) <==>
      exists input <- inputs :: r in Results(tasks, handle, id, input)
    decreases |inputs|
  {
    if inputs != [] {
      var before, last := inputs[..|inputs| - 1], inputs[|inputs| - 1];
      InForEach(tasks, handle, id, before, r);
      assert ForEach(tasks, handle, id, inputs) == ForEach(tasks, handle, id, before) + Results(tasks, handle, id, last);
      if input :| input in inputs && r in Results(tasks, handle, id, input) {
        assert inputs == before + [last];
        assert input in before || input == last;
      }
    }
  }

  // The result comes from the dependant of `id` at position `i`.
  ghost predicate From<D>(tasks: seq<Task>, handle: Handler<D>, id: string, inputs: seq<D>, i: int, r: (Task, D))
    requires 0 <= i < |tasks|
  {
    && tasks[i].depends == id
    && Terminates(tasks, tasks[i].id) && Known(tasks, tasks[i].id)
    && r in ForEach(tasks, handle, tasks[i].id, inputs)
  }

  ghost predicate FromFirst<D>(tasks: seq<Task>, handle: Handler<D>, id: string, inputs: seq<D>, k: nat, r: (Task, D))
    requires k <= |tasks|
  {
    exists i :: 0 <= i < k && From(tasks, handle, id, inputs, i, r)
  }

  lemma FromNext<D>(tasks: seq<Task>, handle: Handler<D>, id: string, inputs: seq<D>, k: nat, r: (Task, D))
    requires k < |tasks|
    ensures FromFirst(tasks, handle, id, inputs, k + 1, r) <==>
      FromFirst(tasks, handle, id, inputs, k, r) || From(tasks, handle, id, inputs, k, r)
  {
  }

  lemma BelowSplit<D>(tasks: seq<Task>, handle: Handler<D>, id: string, inputs: seq<D>, k: nat)
    requires Terminates(tasks, id) && k < |tasks|
    ensures tasks[k].depends != id ==>
      Below(tasks, handle, id, inputs, k + 1) == Below(tasks, handle, id, inputs, k)
    ensures tasks[k].depends == id ==>
      && Terminates(tasks, tasks[k].id) && Known(tasks, tasks[k].id)
      && Depth(tasks, tasks[k].id) < Depth(tasks, id)
      && Below(tasks, handle, id, inputs, k + 1) ==
           Below(tasks, handle, id, inputs, k) + ForEach(tasks, handle, tasks[k].id, inputs)
  {
    if tasks[k].depends == id { DepthDescends(tasks, id, k); }
  }

  lemma {:induction false} InBelow<D>(tasks: seq<Task>, handle: Handler<D>, id: string, inputs: seq<D>, k: nat, r: (Task, D))
    requires Terminates(tasks, id) && k <= |tasks|
    ensures r in Below(tasks, handle, id, inputs, k) <==> FromFirst(tasks, handle, id, inputs, k, r)
    decreases k
  {
    if k > 0 {
      InBelow(tasks, handle, id, inputs, k - 1, r);
      BelowSplit(tasks, handle, id, inputs, k - 1);
      FromNext(tasks, handle, id, inputs, k - 1, r);
    }
  }

  // The result comes from the dependant at position `i`, fed with `detail`.
  ghost predicate Via<D>(tasks: seq<Task>, handle: Handler<D>, id: string, input: D, i: nat, detail: D, r: (Task, D))
    requires Known(tasks, id)
  {
    && i < |tasks|
    && tasks[i].depends == id
    && Terminates(tasks, tasks[i].id) && Known(tasks, tasks[i].id)
    && detail in InputsOf(tasks, handle, id, input)
    && r in Results(tasks, handle, tasks[i].id, detail)
  }

  // A result is the task's own or comes from a dependant.
  lemma ResultOrigin<D>(tasks: seq<Task>, handle: Handler<D>, id: string, input: D, r: (Task, D))
    returns (own: bool, i: nat, detail: D)
    requires Terminates(tasks, id) && Known(tasks, id) && r in Results(tasks, handle, id, input)
    ensures if own then id != "" && r.0 == tasks[Find(tasks, id)] && r.1 in InputsOf(tasks, handle, id, input)
      else Via(tasks, handle, id, input, i, detail, r)
  {
    var inputs := InputsOf(tasks, handle, id, input);
    own, i, detail := false, 0, input;
    if id != "" {
      InPair(tasks[Find(tasks, id)], inputs, r);
      own := r in Pair(tasks[Find(tasks, id)], inputs);
    }
    if !own {
      InBelow(tasks, handle, id, inputs, |tasks|, r);
      i :| 0 <= i < |tasks| && From(tasks, handle, id, inputs, i, r);
      InForEach(tasks, handle, tasks[i].id, inputs, r);
      detail :| detail in inputs && r in Results(tasks, handle, tasks[i].id, detail);
    }
  }

  // A result that Test returns ends a chain.
  lemma {:induction false} ResultHasChain<D>(tasks: seq<Task>, handle: Handler<D>, id: string, input: D, r: (Task, D))
    returns (chain: seq<(string, D)>)
    requires Terminates(tasks, id) && Known(tasks, id) && r in Results(tasks, handle, id, input)
    ensures Chain(tasks, handle, id, input, chain) && Yields(tasks, chain, r)
    decreases Depth(tasks, id)
  {
    var own, i, detail := ResultOrigin(tasks, handle, id, input, r);
    if own {
      chain := [(id, r.1)];
    } else {
      DepthDescends(tasks, id, i);
      var rest := ResultHasChain(tasks, handle, tasks[i].id, detail, r);
      chain := [(id, detail)] + rest;
      assert chain[1..] == rest;
    }
  }

  // The end of every chain is among the results.
  lemma {:induction false} ChainIsReturned<D>(tasks: seq<Task>, handle: Handler<D>, id: string, input: D,
                                                  chain: seq<(string, D)>, r: (Task, D))
    requires Terminates(tasks, id) && Chain(tasks, handle, id, input, chain) && Yields(tasks, chain, r)
    ensures r in Results(tasks, handle, id, input)
    decreases |chain|
  {
    var inputs := InputsOf(tasks, handle, id, input);
    if |chain| == 1 {
      InPair(tasks[Find(tasks, id)], inputs, r);
    } else {
      var (next, detail) := (chain[1].0, chain[0].1);
      var k :| 0 <= k < |tasks| && tasks[k].depends == id && tasks[k].id == next;
      DepthDescends(tasks, id, k);
      assert chain[1..][|chain| - 2] == chain[|chain| - 1];
      ChainIsReturned(tasks, handle, next, detail, chain[1..], r);
      InForEach(tasks, handle, next, inputs, r);
      assert From(tasks, handle, id, inputs, k, r);
      InBelow(tasks, handle, id, inputs, |tasks|, r);
    }
  }

  // Test returns exactly the results that a chain of dependent tasks derives.
  lemma ResultsAreDerivable<D(!new)>(tasks: seq<Task>, handle: Handler<D>, id: string, input: D, r: (Task, D))
    requires Terminates(tasks, id) && Known(tasks, id)
    ensures r in Results(tasks, handle, id, input) <==> Derivable(tasks, handle, id, input, r)
  {
    if r in Results(tasks, handle, id, input) {
      var chain := ResultHasChain(tasks, handle, id, input, r);
    }
    if Derivable(tasks, handle, id, input, r) {
      var chain :| Chain(tasks, handle, id, input, chain) && Yields(tasks, chain, r);
      ChainIsReturned(tasks, handle, id, input, chain, r);
    }
  }

  // A task's own results come first, in the order in which its handler gives them.
  lemma {:induction false} PairAt<D>(task: Task, details: seq<D>)
    ensures |Pair(task, details)| == |details|
    ensures forall i :: 0 <= i < |details| ==> Pair(task, details)[i] == (task, details[i])
  {
    if details != [] { PairAt(task, details[..|details| - 1]); }
  }

  lemma OwnResultsFirst<D>(tasks: seq<Task>, handle: Handler<D>, id: string, input: D, i: nat)
    requires Terminates(tasks, id) && Known(tasks, id) && id != ""
    requires i < |handle(tasks[Find(tasks, id)], input)|
    ensures |Results(tasks, handle, id, input)| > i
    ensures Results(tasks, handle, id, input)[i] == (tasks[Find(tasks, id)], handle(tasks[Find(tasks, id)], input)[i])
  {
    PairAt(tasks[Find(tasks, id)], handle(tasks[Find(tasks, id)], input));
  }

  // Then come, task by task in the order of the list and input by input, the results of the
  // dependants: those of a later task or input follow all those of an earlier one.
  lemma {:induction false} ForEachOrder<D>(tasks: seq<Task>, handle: Handler<D>, id: string, inputs: seq<D>, j: nat)
    requires Terminates(tasks, id) && Known(tasks, id) && j < |inputs|
    ensures var before := |ForEach(tasks, handle, id, inputs[..j])|;
      var own := Results(tasks, handle, id, inputs[j]);
      && before + |own| <= |ForEach(tasks, handle, id, inputs)|
      && ForEach(tasks, handle, id, inputs)[before..before + |own|] == own
    decreases |inputs|
  {
    var n := |inputs| - 1;
    if j < n {
      ForEachOrder(tasks, handle, id, inputs[..n], j);
      assert inputs[..n][..j] == inputs[..j];
    }
  }

  lemma {:induction false} BelowOrder<D>(tasks: seq<Task>, handle: Handler<D>, id: string, inputs: seq<D>, k: nat, n: nat)
    requires Terminates(tasks, id) && k < n <= |tasks| && tasks[k].depends == id
    ensures Terminates(tasks, tasks[k].id) && Known(tasks, tasks[k].id)
    ensures var before := |Below(tasks, handle, id, inputs, k)|;
      var own := ForEach(tasks, handle, tasks[k].id, inputs);
      && before + |own| <= |Below(tasks, handle, id, inputs, n)|
      && Below(tasks, handle, id, inputs, n)[before..before + |own|] == own
    decreases n
  {
    BelowSplit(tasks, handle, id, inputs, n - 1);
    if k < n - 1 {
      BelowOrder(tasks, handle, id, inputs, k, n - 1);
    }
  }

  // ---------------------------------------------------------------- when it must terminate

  // A handler that always succeeds
  function Echo<D>(task: Task, input: D): seq<D> { [input] }

  lemma {:induction false} ChainsAreShort<D>(tasks: seq<Task>, handle: Handler<D>, id: string, input: D,
                                                 chain: seq<(string, D)>, n: nat)
    requires Ends(tasks, id, n) && Chain(tasks, handle, id, input, chain)
    ensures |chain| <= n
    decreases n
  {
    if |chain| > 1 {
      var k :| 0 <= k < |tasks| && tasks[k].depends == id && tasks[k].id == chain[1].0;
      ChainsAreShort(tasks, handle, chain[1].0, chain[0].1, chain[1..], n - 1);
    }
  }

  lemma {:induction false} EchoGoesOn<D>(tasks: seq<Task>, id: string, input: D, n: nat) returns (chain: seq<(string, D)>)
    requires !Ends(tasks, id, n) && Known(tasks, id)
    ensures Chain(tasks, Echo, id, input, chain) && |chain| == n + 1
    decreases n
  {
    if n == 0 {
      chain := [(id, input)];
    } else {
      var k :| 0 <= k < |tasks| && tasks[k].depends == id && !Ends(tasks, tasks[k].id, n - 1);
      var rest := EchoGoesOn(tasks, tasks[k].id, input, n - 1);
      chain := [(id, input)] + rest;
      assert chain[1..] == rest;
    }
  }

  ghost predicate NoLonger<D(!new)>(tasks: seq<Task>, handle: Handler<D>, id: string, input: D, n: nat) {
    forall chain :: Chain(tasks, handle, id, input, chain) ==> |chain| <= n
  }

  // The condition is exact: where it fails, a handler that always succeeds makes chains of calls
  // without bound; where it holds, no handler makes one longer than the list and its start.
  lemma RecursionBoundedExactly<D(!new)>(tasks: seq<Task>, id: string, input: D)
    requires Known(tasks, id)
    ensures Terminates(tasks, id) <==> exists n: nat :: NoLonger(tasks, Echo, id, input, n)
  {
    if Terminates(tasks, id) {
      forall chain | Chain(tasks, Echo, id, input, chain) ensures |chain| <= |tasks| + 1 {
        ChainsAreShort(tasks, Echo, id, input, chain, |tasks| + 1);
      }
      assert NoLonger(tasks, Echo, id, input, |tasks| + 1);
    } else {
      TerminatesExactly(tasks, id);
      forall n: nat ensures !NoLonger(tasks, Echo, id, input, n) {
        var chain := EchoGoesOn(tasks, id, input, n);
      }
    }
  }

  class TaskList<D(!new)> {
    const handle: Handler<D>
    var tasks: seq<Task>
    var sorted: bool     // the list is sorted once, on first use

    constructor (handle: Handler<D>)
      ensures this.handle == handle && tasks == [] && !sorted
    {
      this.handle := handle;
      tasks, sorted := [], false;
    }

    method Add(task: Task)
      modifies this
      ensures tasks == old(tasks) + [task] && sorted == old(sorted)
    {
      tasks := tasks + [task];
    }

    method Delete(i: nat)
      requires i < |tasks|
      modifies this
      ensures tasks == old(tasks[..i]) + old(tasks[i + 1..]) && sorted == old(sorted)
    {
      var res := tasks[..i];
      if i < |tasks| - 1 {
        res := res + tasks[i + 1..];
      }
      tasks := res;
    }

    static method IsReady(task: Task, res: seq<Task>) returns (ready: bool)
      ensures ready <==> Supplied(res, task)
    {
      if task.depends == "" {
        return true;
      }
      for j := 0 to |res|
        invariant forall k :: 0 <= k < j ==> res[k].id != task.depends
      {
        if task.depends == res[j].id {
          return true;
        }
      }
      return false;
    }

    // Not ok is the panic of tasks with unmatched dependencies. It happens exactly when the tasks
    // cannot be arranged at all.
    method Sort() returns (ok: bool)
      modifies this
      ensures ok ==> Arranges(tasks, multiset(old(tasks)))
      ensures ok <==> exists order :: Arranges(order, multiset(old(tasks)))
    {
      var res: seq<Task> := [];
      while |tasks| > 0
        invariant multiset(res) + multiset(tasks) == multiset(old(tasks))
        invariant Ordered(res)
        decreases |tasks|
      {
        var last := |tasks|;
        ghost var rest, placed := tasks, res;
        var i := 0;
        while i < last
          invariant i <= last && tasks == rest && res == placed
          invariant forall k :: 0 <= k < i ==> !Supplied(placed, rest[k])
        {
          var task := tasks[i];
          var ready := IsReady(task, res);
          if ready {
            OrderedAppend(res, task);
            MoveOne(placed, rest, i);
            res := res + [task];
            Delete(i);
            break;
          }
          i := i + 1;
        }
        if last == |tasks| {
          Unarrangeable(placed, rest, multiset(old(tasks)));
          return false;
        }
      }
      tasks := res;
      assert Arranges(tasks, multiset(old(tasks)));
      return true;
    }

    // The part of Test that follows sorting
    method Run(id: string, input: D) returns (all: seq<(Task, D)>)
      requires Terminates(tasks, id) && Known(tasks, id)
      ensures all == Results(tasks, handle, id, input)
      decreases Depth(tasks, id), 1
    {
      all := [];
      var inputs := [input];
      if id != "" {
        var task := tasks[Find(tasks, id)];
        inputs := handle(task, input);
        for k := 0 to |inputs|
          invariant all == Pair(task, inputs[..k])
        {
          assert inputs[..k + 1][..k] == inputs[..k];
          all := all + [(task, inputs[k])];
        }
        assert inputs[..|inputs|] == inputs;
      }
      var more := RunDependants(id, inputs);
      all := all + more;
      assert id == "" ==> all == more;
    }

    method RunDependants(id: string, inputs: seq<D>) returns (all: seq<(Task, D)>)
      requires Terminates(tasks, id)
      ensures all == Below(tasks, handle, id, inputs, |tasks|)
      decreases Depth(tasks, id), 0
    {
      all := [];
      for k := 0 to |tasks|
        invariant all == Below(tasks, handle, id, inputs, k)
      {
        BelowSplit(tasks, handle, id, inputs, k);
        if tasks[k].depends == id {
          var more := RunEach(tasks[k].id, inputs);
          all := all + more;
        }
      }
    }

    method RunEach(id: string, inputs: seq<D>) returns (all: seq<(Task, D)>)
      requires Terminates(tasks, id) && Known(tasks, id)
      ensures all == ForEach(tasks, handle, id, inputs)
      decreases Depth(tasks, id), 2
    {
      all := [];
      for j := 0 to |inputs|
        invariant all == ForEach(tasks, handle, id, inputs[..j])
      {
        assert inputs[..j + 1][..j] == inputs[..j];
        var more := Run(id, inputs[j]);
        all := all + more;
      }
      assert inputs[..|inputs|] == inputs;
    }

    // Sorts on first use, then runs the task or, without one, those that depend on nothing. Not ok
    // is a panic: of tasks that cannot be arranged, or of a task that is not in the list. Otherwise
    // the recursion must terminate.
    method Test(id: string, input: D) returns (ok: bool, all: seq<(Task, D)>)
      requires Runnable(tasks, sorted, id) ==> Terminates(tasks, id)
      modifies this
      ensures ok <==> Runnable(old(tasks), old(sorted), id)
      ensures ok ==> sorted && multiset(tasks) == multiset(old(tasks))
      ensures ok ==> if old(sorted) then tasks == old(tasks) else Ordered(tasks)
      ensures ok ==> Terminates(tasks, id) && Known(tasks, id) && all == Results(tasks, handle, id, input)
    {
      all := [];
      if !sorted {
        ok := Sort();
        if !ok {
          return;
        }
        sorted := true;
      }
      Permuted(old(tasks), tasks, id);
      ok := id == "" || Find(tasks, id) < |tasks|;
      if ok {
        all := Run(id, input);
      }
    }
  }

  // The list has been arranged or can be, and the task is in it.
  ghost predicate Runnable(tasks: seq<Task>, sorted: bool, id: string) {
    (sorted || exists order :: Arranges(order, multiset(tasks))) && Known(tasks, id)
  }

  lemma PermutedKnown(a: seq<Task>, b: seq<Task>, id: string)
    requires multiset(a) == multiset(b)
    ensures Known(a, id) <==> Known(b, id)
  {
    if Find(a, id) < |a| {
      assert a[Find(a, id)] in multiset(b);
    }
    if Find(b, id) < |b| {
      assert b[Find(b, id)] in multiset(a);
    }
  }

  // How deep the recursion goes does not depend on the order of the list.
  lemma {:induction false} PermutedEnds(a: seq<Task>, b: seq<Task>, id: string, n: nat)
    requires multiset(a) == multiset(b)
    ensures |a| == |b|
    ensures Ends(a, id, n) ==> Ends(b, id, n)
    decreases n
  {
    assert |a| == |multiset(a)| == |multiset(b)| == |b|;
    if Ends(a, id, n) {
      forall k | 0 <= k < |b| && b[k].depends == id ensures Ends(b, b[k].id, n - 1) {
        assert b[k] in multiset(a);
        var m :| 0 <= m < |a| && a[m] == b[k];
        PermutedEnds(a, b, b[k].id, n - 1);
      }
    }
  }

  lemma Permuted(a: seq<Task>, b: seq<Task>, id: string)
    requires multiset(a) == multiset(b)
    ensures Known(a, id) <==> Known(b, id)
    ensures Terminates(a, id) ==> Terminates(b, id)
  {
    PermutedKnown(a, b, id);
    PermutedEnds(a, b, id, |a| + 1);
  }

  lemma PermutedIds(a: seq<Task>, b: seq<Task>)
    requires IdsUnique(a) && multiset(a) == multiset(b)
    ensures IdsUnique(b)
  {
    forall i | 0 <= i < |b| ensures b[i].id != "" {
      assert b[i] in multiset(b);
      assert b[i] in multiset(a);
    }
    forall i, j | 0 <= i < j < |b| ensures b[i].id != b[j].id {
      assert b[i] in multiset(b) && b[j] in multiset(b);
      assert b[i] in multiset(a) && b[j] in multiset(a);
      if b[i] == b[j] {
        TwiceInMultiset(b, i, j);
        OnceInMultiset(a, b[i]);
      }
    }
  }

  lemma TwiceInMultiset(s: seq<Task>, i: nat, j: nat)
    requires i < j < |s| && s[i] == s[j]
    ensures multiset(s)[s[i]] >= 2
  {
    assert s == s[..j] + [s[j]] + s[j + 1..];
    assert s[i] == s[..j][i];
    assert s[i] in multiset(s[..j]);
  }

  lemma {:induction false} OnceInMultiset(s: seq<Task>, task: Task)
    requires IdsUnique(s)
    ensures multiset(s)[task] <= 1
  {
    if s != [] {
      var before := s[..|s| - 1];
      assert s == before + [s[|s| - 1]];
      OnceInMultiset(before, task);
      if task == s[|s| - 1] {
        assert task !in before;
      }
    }
  }

  // With unique ids Test always terminates.
  lemma UniqueIdsSuffice(tasks: seq<Task>, id: string)
    requires IdsUnique(tasks) && exists order :: Arranges(order, multiset(tasks))
    ensures Terminates(tasks, id)
  {
    var order :| Arranges(order, multiset(tasks));
    PermutedIds(tasks, order);
    UniqueIdsTerminate(order, id);
    Permuted(order, tasks, id);
  }
}
