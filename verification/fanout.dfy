/**
 * The bulk calls' fan-out: a loop starts one goroutine for each job, or fills the slot of a
 * job that already failed, while earlier goroutines finish in any order; a wait group then
 * waits for all of them. A goroutine may also create a task, which the task queue refuses
 * if the name is taken.
 */
module Fanout {
  import opened Wrappers
  import opened Jobs

  const TASK_EXISTS := "task already exists"
  const REPLY_LOST := "task created but reply lost"

  type Tasks = map<string, seq<byte>>

  /** What is to happen for one job. */
  datatype Slot =
    | Inline(result: EnqueueResult)      // the loop itself fills the slot
    | Await(result: EnqueueResult)       // a goroutine waits for an outcome that is already settled
    | Create(jobId: string, name: string, body: seq<byte>, replyLost: bool)  // a goroutine creates a task

  datatype Fan = Fan(tasks: Tasks, results: seq<EnqueueResult>, spawned: nat, running: set<nat>)

  datatype Move = Spawn | Finish(i: nat)

  const UNSET := EnqueueResult("", None)

  function Start(n: nat, tasks: Tasks): Fan {
    Fan(tasks, seq(n, _ => UNSET), 0, {})
  }

  /** What a job's slot receives when the tasks are as given. */
  function Outcome(slot: Slot, tasks: Tasks): EnqueueResult {
    match slot
    case Inline(r) => r
    case Await(r) => r
    case Create(jobId, name, _, replyLost) =>
      if name in tasks then EnqueueResult("", Some(TASK_EXISTS))
      else if replyLost then EnqueueResult("", Some(REPLY_LOST))
      else EnqueueResult(jobId, None)
  }

  function Effect(slot: Slot, tasks: Tasks): Tasks {
    if slot.Create? && slot.name !in tasks then tasks[slot.name := slot.body] else tasks
  }

  predicate Sound(slots: seq<Slot>, s: Fan) {
    && |s.results| == |slots|
    && s.spawned <= |slots|
    && forall i :: i in s.running ==> i < s.spawned && !slots[i].Inline?
  }

  predicate Enabled(slots: seq<Slot>, s: Fan, m: Move)
    requires Sound(slots, s)
  {
    match m
    case Spawn => s.spawned < |slots|
    case Finish(i) => i in s.running
  }

  function Do(slots: seq<Slot>, s: Fan, m: Move): (s': Fan)
    requires Sound(slots, s) && Enabled(slots, s, m)
    ensures Sound(slots, s')
  {
    match m
    case Spawn =>
      if slots[s.spawned].Inline? then
        s.(results := s.results[s.spawned := slots[s.spawned].result], spawned := s.spawned + 1)
      else
        s.(spawned := s.spawned + 1, running := s.running + {s.spawned})
    case Finish(i) =>
      Fan(Effect(slots[i], s.tasks), s.results[i := Outcome(slots[i], s.tasks)], s.spawned, s.running - {i})
  }

  /** The state after a sequence of moves, None if one of them was not possible. */
  function Exec(slots: seq<Slot>, s: Fan, moves: seq<Move>): (r: Option<Fan>)
    requires Sound(slots, s)
    ensures r.Some? ==> Sound(slots, r.value)
    decreases |moves|
  {
    if moves == [] then Some(s)
    else if Enabled(slots, s, moves[0]) then Exec(slots, Do(slots, s, moves[0]), moves[1..])
    else None
  }

  /** The wait group is done: every job was started and no goroutine is left. */
  predicate Finished(slots: seq<Slot>, s: Fan) {
    s.spawned == |slots| && s.running == {}
  }

  predicate Done(s: Fan, i: nat) {
    i < s.spawned && i !in s.running
  }

  lemma {:induction false} ExecConcat(slots: seq<Slot>, s: Fan, a: seq<Move>, b: seq<Move>)
    requires Sound(slots, s) && Exec(slots, s, a).Some?
    ensures Exec(slots, s, a + b) == Exec(slots, Exec(slots, s, a).value, b)
    decreases |a|
  {
    if a == [] {
      assert a + b == b;
    } else {
      assert (a + b)[0] == a[0] && (a + b)[1..] == a[1..] + b;
      ExecConcat(slots, Do(slots, s, a[0]), a[1..], b);
    }
  }

  lemma ExecSnoc(slots: seq<Slot>, s: Fan, a: seq<Move>, m: Move)
    requires Sound(slots, s) && Exec(slots, s, a).Some? && Enabled(slots, Exec(slots, s, a).value, m)
    ensures Exec(slots, s, a + [m]) == Some(Do(slots, Exec(slots, s, a).value, m))
  {
    ExecConcat(slots, s, a, [m]);
    var t := Exec(slots, s, a).value;
    assert [m][1..] == [];
    assert Exec(slots, Do(slots, t, m), []) == Some(Do(slots, t, m));
  }

  // ---------- the fan-out always comes to an end ----------

  function Remaining(slots: seq<Slot>, s: Fan): nat
    requires Sound(slots, s)
  {
    2 * (|slots| - s.spawned) + |s.running|
  }

  /** No deadlock and no livelock: until all is done some move is possible, and each move counts. */
  lemma FanoutTerminates(slots: seq<Slot>, s: Fan)
    requires Sound(slots, s)
    ensures Finished(slots, s) <==> !exists m :: Enabled(slots, s, m)
    ensures forall m :: Enabled(slots, s, m) ==> Remaining(slots, Do(slots, s, m)) < Remaining(slots, s)
  {
    if s.spawned < |slots| {
      assert Enabled(slots, s, Spawn);
    } else if i :| i in s.running {
      assert Enabled(slots, s, Finish(i));
    }
  }

  // ---------- every order of completion gives the same result ----------

  predicate SameName(a: Slot, b: Slot) {
    a.Create? && b.Create? && a.name == b.name
  }

  /** No two jobs compete for a task name that is still free. */
  ghost predicate NoClash(slots: seq<Slot>, tasks: Tasks) {
    forall i, j :: 0 <= i < |slots| && 0 <= j < |slots| && i != j && SameName(slots[i], slots[j]) ==>
      slots[i].name in tasks
  }

  /** tasks holds what there was before and the tasks of the finished jobs, and nothing else. */
  ghost predicate TasksOf(slots: seq<Slot>, before: Tasks, tasks: Tasks, s: Fan) {
    && (forall k :: k in before ==> k in tasks && tasks[k] == before[k])
    && (forall i :: 0 <= i < |slots| && slots[i].Create? && Done(s, i) ==>
          slots[i].name in tasks && (slots[i].name !in before ==> tasks[slots[i].name] == slots[i].body))
    && (forall k :: k in tasks && k !in before ==> MadeBy(slots, s, k))
  }

  /** Some finished job created the task k. */
  ghost predicate MadeBy(slots: seq<Slot>, s: Fan, k: string) {
    exists i :: 0 <= i < |slots| && slots[i].Create? && Done(s, i) && slots[i].name == k
  }

  ghost predicate Inv(slots: seq<Slot>, before: Tasks, s: Fan) {
    && Sound(slots, s)
    && (forall i :: 0 <= i < |slots| && Done(s, i) ==> s.results[i] == Outcome(slots[i], before))
    && TasksOf(slots, before, s.tasks, s)
  }

  /** A name that a running job wants is taken only if it was taken from the start. */
  lemma NoRival(slots: seq<Slot>, before: Tasks, s: Fan, i: nat)
    requires NoClash(slots, before) && Inv(slots, before, s) && i in s.running && slots[i].Create?
    ensures slots[i].name in s.tasks ==> slots[i].name in before
  {
  }

  lemma MoveKeepsInv(slots: seq<Slot>, before: Tasks, s: Fan, m: Move)
    requires NoClash(slots, before) && Inv(slots, before, s) && Enabled(slots, s, m)
    ensures Inv(slots, before, Do(slots, s, m))
  {
    var s' := Do(slots, s, m);
    var i := if m.Spawn? then s.spawned else m.i;
    assert forall k :: 0 <= k < |slots| && k != i ==> (Done(s', k) <==> Done(s, k));
    if m.Finish? && slots[i].Create? {
      NoRival(slots, before, s, i);
      assert Done(s', i);
    }
    forall k | k in s'.tasks && k !in before
      ensures MadeBy(slots, s', k)
    {
      if k in s.tasks {
        assert MadeBy(slots, s, k);
        var j :| 0 <= j < |slots| && slots[j].Create? && Done(s, j) && slots[j].name == k;
        assert Done(s', j);
      }
    }
  }

  lemma {:induction false} ExecKeepsInv(slots: seq<Slot>, before: Tasks, s: Fan, moves: seq<Move>)
    requires NoClash(slots, before) && Inv(slots, before, s) && Exec(slots, s, moves).Some?
    ensures Inv(slots, before, Exec(slots, s, moves).value)
    decreases |moves|
  {
    if moves != [] {
      MoveKeepsInv(slots, before, s, moves[0]);
      ExecKeepsInv(slots, before, Do(slots, s, moves[0]), moves[1..]);
    }
  }

  /** A finished fan-out has put into each slot what that job alone decides. */
  lemma FanoutIsPointwise(slots: seq<Slot>, before: Tasks, moves: seq<Move>)
    requires NoClash(slots, before)
    requires Exec(slots, Start(|slots|, before), moves).Some?
    requires Finished(slots, Exec(slots, Start(|slots|, before), moves).value)
    ensures var f := Exec(slots, Start(|slots|, before), moves).value;
            && f.results == seq(|slots|, i requires 0 <= i < |slots| => Outcome(slots[i], before))
            && TasksOf(slots, before, f.tasks, f)
  {
    ExecKeepsInv(slots, before, Start(|slots|, before), moves);
  }

  lemma SameTasks(slots: seq<Slot>, before: Tasks, f: Fan, g: Fan)
    requires Inv(slots, before, f) && Inv(slots, before, g) && Finished(slots, f) && Finished(slots, g)
    ensures f.tasks == g.tasks
  {
  }

  /** Two complete executions end in different states. */
  ghost predicate OrderMatters(slots: seq<Slot>, before: Tasks) {
    exists a, b ::
      && Exec(slots, Start(|slots|, before), a).Some? && Exec(slots, Start(|slots|, before), b).Some?
      && Finished(slots, Exec(slots, Start(|slots|, before), a).value)
      && Finished(slots, Exec(slots, Start(|slots|, before), b).value)
      && Exec(slots, Start(|slots|, before), a) != Exec(slots, Start(|slots|, before), b)
  }

  /** t has at least the finished jobs of s with the same results, and refuses what s refuses. */
  ghost predicate Continues(slots: seq<Slot>, s: Fan, t: Fan)
    requires Sound(slots, s) && Sound(slots, t)
  {
    forall k :: 0 <= k < |slots| ==>
      && (Done(s, k) ==> Done(t, k) && t.results[k] == s.results[k])
      && (!Done(s, k) && Done(t, k) && Refused(slots[k], s) ==> t.results[k] == EnqueueResult("", Some(TASK_EXISTS)))
      && (Refused(slots[k], s) ==> Refused(slots[k], t))
  }

  predicate Refused(slot: Slot, s: Fan) {
    slot.Create? && slot.name in s.tasks
  }

  lemma MoveContinues(slots: seq<Slot>, s: Fan, m: Move)
    requires Sound(slots, s) && Enabled(slots, s, m)
    ensures Continues(slots, s, Do(slots, s, m))
  {
  }

  lemma ContinuesTransitive(slots: seq<Slot>, s: Fan, t: Fan, u: Fan)
    requires Sound(slots, s) && Sound(slots, t) && Sound(slots, u)
    requires Continues(slots, s, t) && Continues(slots, t, u)
    ensures Continues(slots, s, u)
  {
  }

  /** From any state the fan-out can be completed. */
  lemma Complete(slots: seq<Slot>, s: Fan) returns (moves: seq<Move>, f: Fan)
    requires Sound(slots, s)
    ensures Exec(slots, s, moves) == Some(f) && Finished(slots, f) && Continues(slots, s, f)
    decreases Remaining(slots, s)
  {
    if Finished(slots, s) {
      return [], s;
    }
    FanoutTerminates(slots, s);
    var m :| Enabled(slots, s, m);
    var t := Do(slots, s, m);
    var rest;
    rest, f := Complete(slots, t);
    moves := [m] + rest;
    assert moves[1..] == rest;
    MoveContinues(slots, s, m);
    ContinuesTransitive(slots, s, t, f);
  }

  /** All goroutines can be started before any of them does anything. */
  lemma {:induction false} SpawnFirst(slots: seq<Slot>, before: Tasks, n: nat) returns (moves: seq<Move>, s: Fan)
    requires n <= |slots|
    ensures Exec(slots, Start(|slots|, before), moves) == Some(s)
    ensures s.spawned == n && s.tasks == before
    ensures forall i :: 0 <= i < n && !slots[i].Inline? ==> i in s.running
  {
    if n == 0 {
      return [], Start(|slots|, before);
    }
    moves, s := SpawnFirst(slots, before, n - 1);
    ExecSnoc(slots, Start(|slots|, before), moves, Spawn);
    moves, s := moves + [Spawn], Do(slots, s, Spawn);
  }

  /** Start everything, let job i finish first, then the rest in some order. */
  lemma FinishFirst(slots: seq<Slot>, before: Tasks, i: nat) returns (moves: seq<Move>, s: Fan, f: Fan)
    requires i < |slots| && !slots[i].Inline?
    ensures Exec(slots, Start(|slots|, before), moves) == Some(f) && Finished(slots, f)
    ensures Sound(slots, s) && Continues(slots, s, f)
    ensures s.tasks == Effect(slots[i], before) && s.results[i] == Outcome(slots[i], before)
    ensures forall k :: 0 <= k < |slots| && !slots[k].Inline? ==> (Done(s, k) <==> k == i)
  {
    var spawns, all := SpawnFirst(slots, before, |slots|);
    ExecSnoc(slots, Start(|slots|, before), spawns, Finish(i));
    s := Do(slots, all, Finish(i));
    var rest;
    rest, f := Complete(slots, s);
    ExecConcat(slots, Start(|slots|, before), spawns + [Finish(i)], rest);
    moves := spawns + [Finish(i)] + rest;
  }

  /** Two jobs that compete for a free name: whichever finishes first gets it. */
  lemma ClashMatters(slots: seq<Slot>, before: Tasks, i: nat, j: nat)
    requires i < |slots| && j < |slots| && i != j && SameName(slots[i], slots[j]) && slots[i].name !in before
    ensures OrderMatters(slots, before)
  {
    var a, s, f := FinishFirst(slots, before, i);
    var b, t, g := FinishFirst(slots, before, j);
    assert f.results[i] == Outcome(slots[i], before);
    assert Refused(slots[i], t) && !Done(t, i) && Done(g, i);
    assert g.results[i] == EnqueueResult("", Some(TASK_EXISTS));
    assert TASK_EXISTS[5] != REPLY_LOST[5];
  }

  /** The order of completion matters exactly if two jobs compete for a free task name. */
  lemma OrderMattersIff(slots: seq<Slot>, before: Tasks)
    ensures OrderMatters(slots, before) <==> !NoClash(slots, before)
  {
    var start := Start(|slots|, before);
    if NoClash(slots, before) {
      forall a, b | Exec(slots, start, a).Some? && Exec(slots, start, b).Some?
                    && Finished(slots, Exec(slots, start, a).value) && Finished(slots, Exec(slots, start, b).value)
        ensures Exec(slots, start, a) == Exec(slots, start, b)
      {
        FanoutIsPointwise(slots, before, a);
        FanoutIsPointwise(slots, before, b);
        ExecKeepsInv(slots, before, start, a);
        ExecKeepsInv(slots, before, start, b);
        SameTasks(slots, before, Exec(slots, start, a).value, Exec(slots, start, b).value);
      }
    } else {
      var i, j :| 0 <= i < |slots| && 0 <= j < |slots| && i != j && SameName(slots[i], slots[j])
                  && slots[i].name !in before;
      ClashMatters(slots, before, i, j);
    }
  }

  // ---------- each goroutine finishes once ----------

  /** The jobs whose goroutines finish, in that order. */
  function Finishes(moves: seq<Move>): seq<nat> {
    if moves == [] then [] else (if moves[0].Finish? then [moves[0].i] else []) + Finishes(moves[1..])
  }

  predicate Distinct(xs: seq<nat>) {
    forall i, j :: 0 <= i < j < |xs| ==> xs[i] != xs[j]
  }

  /** A slot is written once: what a finished job has there stays to the end. */
  lemma {:induction false} ResultsStay(slots: seq<Slot>, s: Fan, moves: seq<Move>, i: nat)
    requires Sound(slots, s) && Exec(slots, s, moves).Some? && i < |slots| && Done(s, i)
    ensures Done(Exec(slots, s, moves).value, i) && Exec(slots, s, moves).value.results[i] == s.results[i]
    decreases |moves|
  {
    if moves != [] {
      ResultsStay(slots, Do(slots, s, moves[0]), moves[1..], i);
    }
  }

  /** A goroutine finishes exactly once in an execution in which its job comes to be done. */
  lemma {:induction false} FinishesOnce(slots: seq<Slot>, s: Fan, moves: seq<Move>)
    requires Sound(slots, s) && Exec(slots, s, moves).Some?
    ensures Distinct(Finishes(moves))
    ensures forall i: nat :: i in Finishes(moves) <==>
              i < |slots| && !slots[i].Inline? && !Done(s, i) && Done(Exec(slots, s, moves).value, i)
    decreases |moves|
  {
    if moves != [] {
      var s' := Do(slots, s, moves[0]);
      FinishesOnce(slots, s', moves[1..]);
      if moves[0].Finish? {
        var i := moves[0].i;
        assert Done(s', i);
        ResultsStay(slots, s', moves[1..], i);
        assert i !in Finishes(moves[1..]);
      }
    }
  }

  // ---------- the loop and its goroutines ----------

  /** Runs the loop and the goroutines in some order; what this promises holds for each order. */
  method FanOut(slots: seq<Slot>, before: Tasks)
    returns (results: seq<EnqueueResult>, tasks: Tasks, ghost moves: seq<Move>)
    ensures |results| == |slots|
    ensures Exec(slots, Start(|slots|, before), moves) == Some(Fan(tasks, results, |slots|, {}))
    ensures NoClash(slots, before) ==> results == seq(|slots|, i requires 0 <= i < |slots| => Outcome(slots[i], before))
  {
    ghost var start := Start(|slots|, before);
    var buffer := new EnqueueResult[|slots|](_ => UNSET);
    tasks := before;
    moves := [];
    var spawned: nat, running: set<nat> := 0, {};
    ghost var s := start;
    while spawned < |slots| || running != {}
      invariant Exec(slots, start, moves) == Some(s)
      invariant s == Fan(tasks, buffer[..], spawned, running) && Sound(slots, s)
      decreases Remaining(slots, s)
    {
      FanoutTerminates(slots, s);
      ghost var was := buffer[..];
      var spawnNext: bool := *;
      if spawned < |slots| && (spawnNext || running == {}) {
        ExecSnoc(slots, start, moves, Spawn);
        moves, s := moves + [Spawn], Do(slots, s, Spawn);
        if slots[spawned].Inline? {
          buffer[spawned] := slots[spawned].result;
          assert buffer[..] == was[spawned := slots[spawned].result];
        } else {
          running := running + {spawned};
        }
        spawned := spawned + 1;
      } else {
        var i :| i in running;
        ExecSnoc(slots, start, moves, Finish(i));
        moves, s := moves + [Finish(i)], Do(slots, s, Finish(i));
        buffer[i] := Outcome(slots[i], tasks);
        assert buffer[..] == was[i := Outcome(slots[i], tasks)];
        tasks := Effect(slots[i], tasks);
        running := running - {i};
      }
    }
    results := buffer[..];
    if NoClash(slots, before) {
      FanoutIsPointwise(slots, before, moves);
    }
  }
}
