/**
 Publishing as a transition system: workers that claim, call the remote side and write back, operators
 that draft, enqueue and cancel, accounts that come and go. An unhandled error is a worker that stops.
 */
module PinProtocol {
  import opened Prelude
  import opened Pins

  datatype Phase = Waiting | InFlight(go: Begun)

  /** A worker's hold on one claimed item. */
  datatype Task = Task(item: Id, pin: Id, scope: Scope, phase: Phase)

  datatype World = World(db: Db, tasks: map<Id, Task>, maxAttempts: int)

  datatype Event =
    | Create(newPin: Id, scope: Scope, content: Content, checksum: string)
    | Enqueue(newItem: Id, pin: Id, scope: Scope, at: int)
    | Cancel(pin: Id, scope: Scope, at: int)
    | Claim(newTask: Id, item: Id, at: int)
    | Begin(task: Id)
    | Settle(task: Id, reply: Reply, at: int)
    | Stop(task: Id)
    | SetAccount(account: Id, row: Account)
    | SetBoard(board: Id, scope: Scope)

  function Step(w: World, e: Event): World {
    match e
    case Create(p, s, content, checksum) =>
      if p in w.db.pins then w else w.(db := CreateDb(w.db, p, s, content, checksum).0)
    case Enqueue(q, p, s, at) =>
      if q in w.db.queue then w else w.(db := EnqueueDb(w.db, q, p, s, at).0)
    case Cancel(p, s, at) => w.(db := CancelDb(w.db, p, s, at).0)
    case Claim(t, q, at) =>
      if t in w.tasks || q !in DueItems(w.db, at, None) then w
      else
        var row := w.db.queue[q];
        w.(db := ClaimDb(w.db, [q]), tasks := w.tasks[t := Task(q, row.pin, row.scope, Waiting)])
    case Begin(t) =>
      if t !in w.tasks || !w.tasks[t].phase.Waiting? then w
      else
        var task := w.tasks[t];
        var (db, begun) := BeginDb(w.db, task.pin, task.scope, task.item);
        w.(db := db, tasks := if begun.Go? then w.tasks[t := task.(phase := InFlight(begun))] else w.tasks - {t})
    case Settle(t, reply, at) =>
      if t !in w.tasks || !w.tasks[t].phase.InFlight? || !w.tasks[t].phase.go.Go? then w
      else
        var task := w.tasks[t];
        w.(db := SettleDb(w.db, task.pin, task.scope, task.phase.go, reply, w.maxAttempts, at), tasks := w.tasks - {t})
    case Stop(t) => w.(tasks := w.tasks - {t})
    case SetAccount(a, row) => w.(db := w.db.(accounts := w.db.accounts[a := row]))
    case SetBoard(b, s) => w.(db := w.db.(boards := w.db.boards[b := s]))
  }

  function Run(w: World, es: seq<Event>): World
    decreases |es|
  {
    if es == [] then w else Run(Step(w, es[0]), es[1..])
  }

  function Start(maxAttempts: int): World {
    World(Db(map[], map[], map[], map[], []), map[], maxAttempts)
  }

  /** A batch claim is a row of single claims, so the interleavings of single claims include it. */
  lemma BatchIsSingles(db: Db, picked: seq<Id>, n: nat)
    requires n < |picked|
    ensures ClaimDb(db, picked[..n + 1]) == ClaimDb(ClaimDb(db, picked[..n]), [picked[n]])
  {
    assert picked[..n + 1] == picked[..n] + [picked[n]];
    assert ClaimDb(db, picked[..n + 1]).queue == ClaimDb(ClaimDb(db, picked[..n]), [picked[n]]).queue;
  }

  /** The claims of a batch, one after another. */
  function Claims(picked: seq<Id>, firstTask: Id, at: int): seq<Event> {
    if picked == [] then []
    else
      var n := |picked| - 1;
      Claims(picked[..n], firstTask, at) + [Claim(firstTask + n, picked[n], at)]
  }

  lemma {:induction false} RunAppends(w: World, es: seq<Event>, e: Event)
    ensures Run(w, es + [e]) == Step(Run(w, es), e)
    decreases |es|
  {
    if es == [] {
      assert [] + [e] == [e] && [e][1..] == [];
    } else {
      assert (es + [e])[1..] == es[1..] + [e];
      RunAppends(Step(w, es[0]), es[1..], e);
    }
  }

  /** A worker's batch claim leaves the ledger as a run of single claims does, so the runs cover batches. */
  lemma {:induction false} BatchIsRun(w: World, picked: seq<Id>, firstTask: Id, at: int)
    requires Distinct(picked)
    requires forall q :: q in picked ==> q in DueItems(w.db, at, None)
    requires forall t :: t in w.tasks ==> t < firstTask
    ensures
      var w' := Run(w, Claims(picked, firstTask, at));
      w'.db == ClaimDb(w.db, picked) && w'.maxAttempts == w.maxAttempts
      && forall t :: t in w'.tasks ==> t < firstTask + |picked|
    decreases |picked|
  {
    if picked == [] {
      assert ClaimDb(w.db, picked).queue == w.db.queue;
    } else {
      var n := |picked| - 1;
      BatchIsRun(w, picked[..n], firstTask, at);
      var w1 := Run(w, Claims(picked[..n], firstTask, at));
      assert picked[n] in DueItems(w1.db, at, None) by {
        assert picked[n] in DueItems(w.db, at, None) && picked[n] !in picked[..n];
        assert w1.db.queue[picked[n]] == w.db.queue[picked[n]];
      }
      RunAppends(w, Claims(picked[..n], firstTask, at), Claim(firstTask + n, picked[n], at));
      BatchIsSingles(w.db, picked, n);
      assert picked[..n + 1] == picked;
    }
  }

  // ---------------------------------------------------------------- the attempts of one pin

  /** The places of a pin's attempt records, oldest first. */
  function Mine(attempts: seq<Attempt>, pin: Id): (places: seq<nat>)
    ensures forall k :: 0 <= k < |places| ==> places[k] < |attempts| && attempts[places[k]].pin == pin
  {
    if attempts == [] then []
    else
      var n := |attempts| - 1;
      Mine(attempts[..n], pin) + if attempts[n].pin == pin then [n] else []
  }

  /** All of them, in order. */
  lemma {:induction false} MineIsComplete(attempts: seq<Attempt>, pin: Id)
    ensures forall i :: 0 <= i < |attempts| && attempts[i].pin == pin ==> i in Mine(attempts, pin)
    ensures forall a, b :: 0 <= a < b < |Mine(attempts, pin)| ==> Mine(attempts, pin)[a] < Mine(attempts, pin)[b]
    decreases |attempts|
  {
    if attempts != [] {
      var n := |attempts| - 1;
      MineIsComplete(attempts[..n], pin);
      forall i | 0 <= i < |attempts| && attempts[i].pin == pin ensures i in Mine(attempts, pin) {
        if i < n { assert attempts[..n][i] == attempts[i]; }
      }
    }
  }

  lemma MineAppend(attempts: seq<Attempt>, a: Attempt, pin: Id)
    ensures Mine(attempts + [a], pin) == Mine(attempts, pin) + if a.pin == pin then [|attempts|] else []
  {
    assert (attempts + [a])[..|attempts|] == attempts;
  }

  lemma {:induction false} MineUpdate(attempts: seq<Attempt>, i: nat, a: Attempt, pin: Id)
    requires i < |attempts| && a.pin == attempts[i].pin
    ensures Mine(attempts[i := a], pin) == Mine(attempts, pin)
    decreases |attempts|
  {
    var n := |attempts| - 1;
    if i == n {
      assert attempts[i := a][..n] == attempts[..n];
    } else {
      MineUpdate(attempts[..n], i, a, pin);
      assert attempts[i := a][..n] == attempts[..n][i := a];
    }
  }

  /** What the attempt records of a pin say: how many, and where the last one is and how it stands. */
  datatype Story = Story(count: nat, place: nat, last: AttemptStatus)

  const UNTOLD := Story(0, 0, Retryable)

  function StoryOf(attempts: seq<Attempt>, pin: Id): Story {
    var places := Mine(attempts, pin);
    if places == [] then UNTOLD
    else Story(|places|, places[|places| - 1], attempts[places[|places| - 1]].status)
  }

  /** Numbers run 1, 2, 3, ... in the pin's own scope, and every record but the last is a retryable failure. */
  ghost predicate InOrder(attempts: seq<Attempt>, pin: Id, s: Scope) {
    var places := Mine(attempts, pin);
    && (forall k :: 0 <= k < |places| ==> attempts[places[k]].number == k + 1 && attempts[places[k]].scope == s)
    && (forall k :: 0 <= k < |places| - 1 ==> attempts[places[k]].status == Retryable)
  }

  /** Without its latest record the ledger was in order too, and a pin's earlier attempts may all be repeated. */
  lemma OrderBefore(before: seq<Attempt>, a: Attempt, s: Scope)
    requires InOrder(before + [a], a.pin, s)
    ensures InOrder(before, a.pin, s) && StoryOf(before, a.pin).last == Retryable
    ensures StoryOf(before + [a], a.pin) == Story(StoryOf(before, a.pin).count + 1, |before|, a.status)
  {
    MineAppend(before, a, a.pin);
    var places, earlier := Mine(before + [a], a.pin), Mine(before, a.pin);
    forall k | 0 <= k < |earlier|
      ensures before[earlier[k]].number == k + 1 && before[earlier[k]].scope == s && before[earlier[k]].status == Retryable
    {
      assert places[k] == earlier[k] && (before + [a])[places[k]] == before[earlier[k]];
    }
  }

  lemma OtherOrderBefore(before: seq<Attempt>, a: Attempt, p: Id, s: Scope)
    requires a.pin != p && InOrder(before + [a], p, s)
    ensures InOrder(before, p, s) && StoryOf(before + [a], p) == StoryOf(before, p)
  {
    MineAppend(before, a, p);
    var places := Mine(before, p);
    assert Mine(before + [a], p) == places;
    forall k | 0 <= k < |places| ensures (before + [a])[places[k]] == before[places[k]] {
    }
  }

  lemma LastIsNumbered(before: seq<Attempt>, a: Attempt, s: Scope)
    requires InOrder(before + [a], a.pin, s)
    ensures a.number == |Mine(before, a.pin)| + 1 && a.scope == s
  {
    MineAppend(before, a, a.pin);
    var places := Mine(before + [a], a.pin);
    assert places[|places| - 1] == |before| && (before + [a])[|before|] == a;
  }

  lemma {:induction false} LastNumberIsCount(attempts: seq<Attempt>, pin: Id, s: Scope)
    requires InOrder(attempts, pin, s)
    ensures LastNumber(attempts, pin, s) == |Mine(attempts, pin)|
    decreases |attempts|
  {
    if attempts != [] {
      var before, a := attempts[..|attempts| - 1], attempts[|attempts| - 1];
      assert attempts == before + [a];
      MineAppend(before, a, pin);
      if a.pin == pin {
        OrderBefore(before, a, s);
        LastIsNumbered(before, a, s);
      } else {
        OtherOrderBefore(before, a, pin, s);
      }
      LastNumberIsCount(before, pin, s);
    }
  }

  lemma MineGrows(attempts: seq<Attempt>, a: Attempt)
    ensures Mine(attempts + [a], a.pin) == Mine(attempts, a.pin) + [|attempts|]
  {
    MineAppend(attempts, a, a.pin);
  }

  /** A new attempt, numbered after the last, on a pin whose last attempt may be repeated. */
  lemma StoryGrows(attempts: seq<Attempt>, a: Attempt)
    requires InOrder(attempts, a.pin, a.scope) && StoryOf(attempts, a.pin).last == Retryable
    requires a.number == |Mine(attempts, a.pin)| + 1
    ensures InOrder(attempts + [a], a.pin, a.scope)
    ensures StoryOf(attempts + [a], a.pin) == Story(|Mine(attempts, a.pin)| + 1, |attempts|, a.status)
  {
    MineGrows(attempts, a);
    GrownInOrder(attempts, a);
  }

  lemma GrownInOrder(attempts: seq<Attempt>, a: Attempt)
    requires InOrder(attempts, a.pin, a.scope) && StoryOf(attempts, a.pin).last == Retryable
    requires a.number == |Mine(attempts, a.pin)| + 1
    requires Mine(attempts + [a], a.pin) == Mine(attempts, a.pin) + [|attempts|]
    ensures InOrder(attempts + [a], a.pin, a.scope)
  {
    var more, places := attempts + [a], Mine(attempts, a.pin);
    forall k | 0 <= k < |places|
      ensures more[places[k]].number == k + 1 && more[places[k]].scope == a.scope && more[places[k]].status == Retryable
    {
      assert more[places[k]] == attempts[places[k]];
    }
  }

  /** The last attempt gets its final status. */
  lemma StoryEnds(attempts: seq<Attempt>, i: nat, a: Attempt)
    requires i < |attempts| && a == attempts[i].(status := a.status)
    requires InOrder(attempts, a.pin, a.scope)
    requires StoryOf(attempts, a.pin).count > 0 && i == StoryOf(attempts, a.pin).place
    ensures InOrder(attempts[i := a], a.pin, a.scope)
    ensures StoryOf(attempts[i := a], a.pin) == StoryOf(attempts, a.pin).(last := a.status)
  {
    MineUpdate(attempts, i, a, a.pin);
    MineIsComplete(attempts, a.pin);
    var places := Mine(attempts, a.pin);
    var after := attempts[i := a];
    forall k | 0 <= k < |places|
      ensures after[places[k]].number == attempts[places[k]].number && after[places[k]].scope == attempts[places[k]].scope
      ensures k < |places| - 1 ==> after[places[k]] == attempts[places[k]]
    {
    }
  }

  lemma OtherStoryGrows(attempts: seq<Attempt>, a: Attempt, pin: Id, s: Scope)
    requires a.pin != pin
    ensures InOrder(attempts, pin, s) ==> InOrder(attempts + [a], pin, s)
    ensures StoryOf(attempts + [a], pin) == StoryOf(attempts, pin)
  {
    MineAppend(attempts, a, pin);
    assert Mine(attempts + [a], pin) == Mine(attempts, pin);
  }

  lemma OtherStoryEnds(attempts: seq<Attempt>, i: nat, a: Attempt, pin: Id, s: Scope)
    requires i < |attempts| && a.pin == attempts[i].pin && a.pin != pin
    ensures InOrder(attempts, pin, s) ==> InOrder(attempts[i := a], pin, s)
    ensures StoryOf(attempts[i := a], pin) == StoryOf(attempts, pin)
  {
    MineUpdate(attempts, i, a, pin);
  }
}
