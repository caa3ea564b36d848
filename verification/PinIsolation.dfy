/**
 Accounts do not interfere: what an account-scoped operation answers and writes depends on the rows of its own
 (niche, account) alone, over whole runs in which every account acts.
 */
module PinIsolation {
  import opened Prelude
  import opened Pins

  // ---------------------------------------------------------------- the rows of one scope

  function Owned(attempts: seq<Attempt>, s: Scope): seq<Attempt> {
    if attempts == [] then []
    else
      var n := |attempts| - 1;
      Owned(attempts[..n], s) + if attempts[n].scope == s then [attempts[n]] else []
  }

  function OwnPins(pins: map<Id, Pin>, s: Scope): map<Id, Pin> {
    map p | p in pins && pins[p].scope == s :: pins[p]
  }

  function OwnItems(queue: map<Id, PinItem>, s: Scope): map<Id, PinItem> {
    map q | q in queue && queue[q].scope == s :: queue[q]
  }

  function OwnAccount(accounts: map<Id, Account>, s: Scope): map<Id, Account> {
    map a | a in accounts && a == s.account && accounts[a].niche == s.niche :: accounts[a]
  }

  function OwnBoards(boards: map<Id, Scope>, s: Scope): map<Id, Scope> {
    map b | b in boards && boards[b] == s :: boards[b]
  }

  /** The ledger as its scope sees it: everyone else's rows are gone. */
  function Only(db: Db, s: Scope): Db {
    Db(OwnAccount(db.accounts, s), OwnBoards(db.boards, s), OwnPins(db.pins, s), OwnItems(db.queue, s),
       Owned(db.attempts, s))
  }

  lemma OwnPinsPut(pins: map<Id, Pin>, p: Id, row: Pin, s: Scope)
    requires p in pins ==> pins[p].scope == row.scope
    ensures OwnPins(pins[p := row], s) == if row.scope == s then OwnPins(pins, s)[p := row] else OwnPins(pins, s)
  {
  }

  lemma OwnItemsPut(queue: map<Id, PinItem>, q: Id, row: PinItem, s: Scope)
    requires q in queue ==> queue[q].scope == row.scope
    ensures OwnItems(queue[q := row], s) == if row.scope == s then OwnItems(queue, s)[q := row] else OwnItems(queue, s)
  {
  }

  function Cancelled(queue: map<Id, PinItem>, pin: Id, s: Scope, now: int): map<Id, PinItem> {
    map q | q in queue :: CancelRow(queue[q], pin, s, now)
  }

  lemma OwnItemsCancelled(queue: map<Id, PinItem>, pin: Id, owner: Scope, now: int, s: Scope)
    ensures OwnItems(Cancelled(queue, pin, owner, now), s) ==
            if owner == s then Cancelled(OwnItems(queue, s), pin, owner, now) else OwnItems(queue, s)
  {
  }

  lemma OwnedAppend(attempts: seq<Attempt>, a: Attempt, s: Scope)
    ensures Owned(attempts + [a], s) == Owned(attempts, s) + if a.scope == s then [a] else []
  {
    assert (attempts + [a])[..|attempts|] == attempts;
  }

  lemma {:induction false} OwnedUpdate(attempts: seq<Attempt>, i: nat, a: Attempt, s: Scope)
    requires i < |attempts| && a.scope == attempts[i].scope && a.scope != s
    ensures Owned(attempts[i := a], s) == Owned(attempts, s)
    decreases |attempts|
  {
    var n := |attempts| - 1;
    if i == n {
      assert attempts[i := a][..n] == attempts[..n];
    } else {
      OwnedUpdate(attempts[..n], i, a, s);
      assert attempts[i := a][..n] == attempts[..n][i := a];
    }
  }

  /** The place of the account's record of a given rank, or the end of the table. */
  function PlaceOf(attempts: seq<Attempt>, s: Scope, rank: nat): nat {
    if attempts == [] then 0
    else
      var n := |attempts| - 1;
      if rank < |Owned(attempts[..n], s)| then PlaceOf(attempts[..n], s, rank)
      else if attempts[n].scope == s && rank == |Owned(attempts[..n], s)| then n
      else n + 1
  }

  lemma {:induction false} PlaceIsOfRank(attempts: seq<Attempt>, s: Scope, rank: nat)
    ensures PlaceOf(attempts, s, rank) <= |attempts|
    ensures PlaceOf(attempts, s, rank) < |attempts| <==> rank < |Owned(attempts, s)|
    ensures rank < |Owned(attempts, s)| ==>
              var k := PlaceOf(attempts, s, rank); attempts[k] == Owned(attempts, s)[rank] && attempts[k].scope == s
    decreases |attempts|
  {
    if attempts != [] { PlaceIsOfRank(attempts[..|attempts| - 1], s, rank); }
  }

  /** Writing the record of a rank is, for its account, writing its own record of that rank. */
  lemma {:induction false} OwnedWritten(attempts: seq<Attempt>, s: Scope, rank: nat, a: Attempt)
    requires rank < |Owned(attempts, s)| && a.scope == s
    ensures PlaceOf(attempts, s, rank) < |attempts|
    ensures Owned(attempts[PlaceOf(attempts, s, rank) := a], s) == Owned(attempts, s)[rank := a]
    decreases |attempts|
  {
    PlaceIsOfRank(attempts, s, rank);
    var n, k := |attempts| - 1, PlaceOf(attempts, s, rank);
    PlaceIsOfRank(attempts[..n], s, rank);
    var before := Owned(attempts[..n], s);
    if k == n {
      assert attempts[k := a][..n] == attempts[..n];
      assert (before + [attempts[n]])[rank := a] == before + [a];
    } else {
      OwnedWritten(attempts[..n], s, rank, a);
      assert attempts[k := a][..n] == attempts[..n][k := a];
    }
  }

  /** An account alone in the table sees ranks and places coincide. */
  lemma {:induction false} AloneInTable(attempts: seq<Attempt>, s: Scope, rank: nat)
    requires forall k :: 0 <= k < |attempts| ==> attempts[k].scope == s
    ensures Owned(attempts, s) == attempts
    ensures PlaceOf(attempts, s, rank) == Min(rank, |attempts|)
    decreases |attempts|
  {
    if attempts != [] { AloneInTable(attempts[..|attempts| - 1], s, rank); }
  }

  lemma {:induction false} OwnedAreOwn(attempts: seq<Attempt>, s: Scope)
    ensures forall k :: 0 <= k < |Owned(attempts, s)| ==> Owned(attempts, s)[k].scope == s
    decreases |attempts|
  {
    if attempts != [] { OwnedAreOwn(attempts[..|attempts| - 1], s); }
  }

  lemma OwnedTwice(attempts: seq<Attempt>, s: Scope)
    ensures Owned(Owned(attempts, s), s) == Owned(attempts, s)
  {
    OwnedAreOwn(attempts, s);
    AloneInTable(Owned(attempts, s), s, 0);
  }

  lemma {:induction false} LastNumberOfOwned(attempts: seq<Attempt>, pin: Id, s: Scope)
    ensures LastNumber(Owned(attempts, s), pin, s) == LastNumber(attempts, pin, s)
    decreases |attempts|
  {
    if attempts != [] {
      var n := |attempts| - 1;
      LastNumberOfOwned(attempts[..n], pin, s);
      if attempts[n].scope == s {
        LastNumberAppend(Owned(attempts[..n], s), attempts[n], pin, s);
      } else {
        assert Owned(attempts, s) == Owned(attempts[..n], s);
      }
    }
  }

  lemma LastNumberAppend(attempts: seq<Attempt>, a: Attempt, pin: Id, s: Scope)
    ensures LastNumber(attempts + [a], pin, s) ==
            if a.pin == pin && a.scope == s then Max(LastNumber(attempts, pin, s), a.number)
            else LastNumber(attempts, pin, s)
  {
    assert (attempts + [a])[..|attempts|] == attempts;
  }

  // ---------------------------------------------------------------- operations of an account

  /** A publish is two operations; the second names the attempt record by its rank among the account's own. */
  datatype Op =
    | Create(newPin: Id, content: Content, checksum: string)
    | Enqueue(newItem: Id, pin: Id, runAt: int)
    | Cancel(pin: Id, now: int)
    | Begin(pin: Id, item: Id)
    | Settle(pin: Id, rank: nat, number: nat, held: Option<Id>, reply: Reply, maxAttempts: int, now: int)

  datatype Answer = Said(outcome: Outcome) | Skipped | Started(rank: nat, number: nat, item: Option<Id>) | Settled

  function Apply(db: Db, s: Scope, op: Op): (Db, Answer) {
    match op
    case Create(p, content, checksum) => var (db', o) := CreateDb(db, p, s, content, checksum); (db', Said(o))
    case Enqueue(q, p, runAt) => var (db', o) := EnqueueDb(db, q, p, s, runAt); (db', Said(o))
    case Cancel(p, now) => var (db', o) := CancelDb(db, p, s, now); (db', Said(o))
    case Begin(p, q) =>
      var (db', go) := BeginDb(db, p, s, q);
      (db', if go.Go? then Started(|Owned(db.attempts, s)|, go.number, go.item) else Skipped)
    case Settle(p, rank, number, held, reply, max, now) =>
      (SettleDb(db, p, s, Go(PlaceOf(db.attempts, s, rank), number, held), reply, max, now), Settled)
  }

  /** The rank a starting publish is given is that of the record it added. */
  lemma StartedNamesItsRecord(db: Db, s: Scope, op: Op)
    requires op.Begin? && Apply(db, s, op).1.Started?
    ensures
      var (db', answer) := Apply(db, s, op);
      PlaceOf(db'.attempts, s, answer.rank) == |db.attempts| < |db'.attempts|
  {
    var db' := Apply(db, s, op).0;
    assert db'.attempts[..|db.attempts|] == db.attempts;
  }

  /** New rows come with ids that no row has. */
  predicate IdIsNew(db: Db, op: Op) {
    (op.Create? ==> op.newPin !in db.pins) && (op.Enqueue? ==> op.newItem !in db.queue)
  }

  // ---------------------------------------------------------------- one operation

  lemma CreateSeesOwn(db: Db, s: Scope, op: Op)
    requires op.Create? && IdIsNew(db, op)
    ensures Apply(Only(db, s), s, op) == (Only(Apply(db, s, op).0, s), Apply(db, s, op).1)
  {
    if ChecksumTaken(db, op.checksum, s) {
      var p :| p in db.pins && db.pins[p].checksum == op.checksum && db.pins[p].scope == s;
      assert p in OwnPins(db.pins, s);
    }
    assert ChecksumTaken(db, op.checksum, s) <==> ChecksumTaken(Only(db, s), op.checksum, s);
    OwnPinsPut(db.pins, op.newPin, Pin(s, op.content, op.checksum, Draft, None, None), s);
  }

  lemma InQueueSeesOwn(db: Db, pin: Id, s: Scope)
    ensures InQueue(Only(db, s), pin, s) <==> InQueue(db, pin, s)
  {
    if InQueue(db, pin, s) {
      var q :| q in db.queue && ItemFor(db, q, pin, s);
      assert q in OwnItems(db.queue, s) && ItemFor(Only(db, s), q, pin, s);
    }
    if InQueue(Only(db, s), pin, s) {
      var q :| q in OwnItems(db.queue, s) && ItemFor(Only(db, s), q, pin, s);
      assert q in db.queue && ItemFor(db, q, pin, s);
    }
  }

  lemma EnqueueSeesOwn(db: Db, s: Scope, op: Op)
    requires op.Enqueue? && IdIsNew(db, op)
    ensures Apply(Only(db, s), s, op) == (Only(Apply(db, s, op).0, s), Apply(db, s, op).1)
  {
    InQueueSeesOwn(db, op.pin, s);
    if HasPin(db, op.pin, s) {
      OwnPinsPut(db.pins, op.pin, db.pins[op.pin].(status := PinQueued), s);
      OwnItemsPut(db.queue, op.newItem, PinItem(s, op.pin, Queued, 0, op.runAt, None), s);
    }
  }

  lemma CancelSeesOwn(db: Db, s: Scope, op: Op)
    requires op.Cancel?
    ensures Apply(Only(db, s), s, op) == (Only(Apply(db, s, op).0, s), Apply(db, s, op).1)
  {
    if HasPin(db, op.pin, s) {
      OwnPinsPut(db.pins, op.pin, db.pins[op.pin].(status := PinCancelled), s);
      OwnItemsCancelled(db.queue, op.pin, s, op.now, s);
    }
  }

  lemma BeginSkipsAlike(db: Db, s: Scope, op: Op)
    requires op.Begin? && Apply(db, s, op).1.Skipped?
    ensures Apply(Only(db, s), s, op) == (Only(Apply(db, s, op).0, s), Skipped)
  {
    if HasPin(db, op.pin, s) { OwnPinsPut(db.pins, op.pin, db.pins[op.pin].(status := PinFailed), s); }
  }

  /** What a starting publish writes, spelled out. */
  function AfterStart(db: Db, s: Scope, pin: Id, item: Option<Id>, number: nat): Db
    requires pin in db.pins
  {
    db.(pins := db.pins[pin := db.pins[pin].(status := Publishing)],
        attempts := db.attempts + [Attempt(s, pin, item, number, Pending)])
  }

  predicate MayBegin(db: Db, s: Scope, pin: Id) {
    && HasPin(db, pin, s) && (db.pins[pin].status == PinQueued || db.pins[pin].status == Publishing)
    && s.account in db.accounts && db.accounts[s.account].niche == s.niche && db.accounts[s.account].status != Disconnected
  }

  lemma StartSpelledOut(db: Db, s: Scope, op: Op)
    requires op.Begin?
    ensures Apply(db, s, op).1.Started? <==> MayBegin(db, s, op.pin)
    ensures Apply(db, s, op).1.Started? ==>
              var item := if HasItem(db, op.item, s) then Some(op.item) else None;
              var number := LastNumber(db.attempts, op.pin, s) + 1;
              Apply(db, s, op) ==
              (AfterStart(db, s, op.pin, item, number), Started(|Owned(db.attempts, s)|, number, item))
  {
  }

  lemma OnlyStarted(db: Db, s: Scope, pin: Id, item: Option<Id>, number: nat)
    requires HasPin(db, pin, s)
    ensures AfterStart(Only(db, s), s, pin, item, number) == Only(AfterStart(db, s, pin, item, number), s)
  {
    OwnPinsPut(db.pins, pin, db.pins[pin].(status := Publishing), s);
    OwnedAppend(db.attempts, Attempt(s, pin, item, number, Pending), s);
  }

  lemma MayBeginAlike(db: Db, s: Scope, op: Op)
    requires op.Begin? && MayBegin(db, s, op.pin)
    ensures MayBegin(Only(db, s), s, op.pin)
    ensures HasItem(Only(db, s), op.item, s) == HasItem(db, op.item, s)
  {
  }

  lemma BeginStartsAlike(db: Db, s: Scope, op: Op)
    requires op.Begin? && Apply(db, s, op).1.Started?
    ensures Apply(Only(db, s), s, op) == (Only(Apply(db, s, op).0, s), Apply(db, s, op).1)
  {
    var own := Only(db, s);
    var item := if HasItem(db, op.item, s) then Some(op.item) else None;
    var number := LastNumber(db.attempts, op.pin, s) + 1;
    StartSpelledOut(db, s, op);
    var rank := |Owned(db.attempts, s)|;
    assert Apply(own, s, op) == (AfterStart(own, s, op.pin, item, number), Started(rank, number, item)) by {
      MayBeginAlike(db, s, op);
      StartSpelledOut(own, s, op);
      LastNumberOfOwned(db.attempts, op.pin, s);
      OwnedTwice(db.attempts, s);
    }
    OnlyStarted(db, s, op.pin, item, number);
  }

  lemma BeginSeesOwn(db: Db, s: Scope, op: Op)
    requires op.Begin?
    ensures Apply(Only(db, s), s, op) == (Only(Apply(db, s, op).0, s), Apply(db, s, op).1)
  {
    if Apply(db, s, op).1.Started? { BeginStartsAlike(db, s, op); } else { BeginSkipsAlike(db, s, op); }
  }

  lemma SettledAttempts(db: Db, s: Scope, op: Op)
    requires op.Settle?
    ensures Owned(Apply(db, s, op).0.attempts, s) == Apply(Only(db, s), s, op).0.attempts
  {
    var own, k := Owned(db.attempts, s), PlaceOf(db.attempts, s, op.rank);
    PlaceIsOfRank(db.attempts, s, op.rank);
    OwnedAreOwn(db.attempts, s);
    AloneInTable(own, s, op.rank);
    if k < |db.attempts| {
      OwnedWritten(db.attempts, s, op.rank, SettleAttempt(db.attempts[k], op.reply, op.number, op.maxAttempts));
    }
  }

  lemma SettledPins(db: Db, s: Scope, op: Op)
    requires op.Settle?
    ensures OwnPins(Apply(db, s, op).0.pins, s) == Apply(Only(db, s), s, op).0.pins
  {
    if HasPin(db, op.pin, s) { OwnPinsPut(db.pins, op.pin, Apply(db, s, op).0.pins[op.pin], s); }
  }

  lemma SettledItems(db: Db, s: Scope, op: Op)
    requires op.Settle?
    ensures OwnItems(Apply(db, s, op).0.queue, s) == Apply(Only(db, s), s, op).0.queue
  {
    if op.held.Some? && HasItem(db, op.held.value, s) {
      OwnItemsPut(db.queue, op.held.value, Apply(db, s, op).0.queue[op.held.value], s);
    }
  }

  /** The write after the remote call is the write an account alone would make. */
  lemma SettleSeesOwn(db: Db, s: Scope, op: Op)
    requires op.Settle?
    ensures Apply(Only(db, s), s, op) == (Only(Apply(db, s, op).0, s), Settled)
  {
    SettledAttempts(db, s, op);
    SettledPins(db, s, op);
    SettledItems(db, s, op);
  }

  /** An operation answers and writes as if the other accounts' rows did not exist. */
  lemma SeesOwn(db: Db, s: Scope, op: Op)
    requires IdIsNew(db, op)
    ensures Apply(Only(db, s), s, op) == (Only(Apply(db, s, op).0, s), Apply(db, s, op).1)
  {
    match op
    case Create(_, _, _) => CreateSeesOwn(db, s, op);
    case Enqueue(_, _, _) => EnqueueSeesOwn(db, s, op);
    case Cancel(_, _) => CancelSeesOwn(db, s, op);
    case Begin(_, _) => BeginSeesOwn(db, s, op);
    case Settle(_, _, _, _, _, _, _) => SettleSeesOwn(db, s, op);
  }

  lemma PinsOfOthers(db: Db, s: Scope, op: Op, other: Scope)
    requires !op.Settle? && IdIsNew(db, op) && other != s
    ensures OwnPins(Apply(db, s, op).0.pins, other) == OwnPins(db.pins, other)
  {
    var pins' := Apply(db, s, op).0.pins;
    if pins' != db.pins {
      var p := if op.Create? then op.newPin else op.pin;
      OwnPinsPut(db.pins, p, pins'[p], other);
    }
  }

  lemma ItemsOfOthers(db: Db, s: Scope, op: Op, other: Scope)
    requires !op.Settle? && IdIsNew(db, op) && other != s
    ensures OwnItems(Apply(db, s, op).0.queue, other) == OwnItems(db.queue, other)
  {
    match op
    case Enqueue(q, p, runAt) => OwnItemsPut(db.queue, q, PinItem(s, p, Queued, 0, runAt, None), other);
    case Cancel(p, now) => OwnItemsCancelled(db.queue, p, s, now, other);
    case _ =>
  }

  /** Every operation leaves every other account's rows as they were. */
  lemma LeavesOthers(db: Db, s: Scope, op: Op, other: Scope)
    requires IdIsNew(db, op) && other != s
    ensures Only(Apply(db, s, op).0, other) == Only(db, other)
  {
    if op.Settle? {
      PlaceIsOfRank(db.attempts, s, op.rank);
      var go := Go(PlaceOf(db.attempts, s, op.rank), op.number, op.held);
      SettleLeavesOthers(db, op.pin, s, go, op.reply, op.maxAttempts, op.now, other);
    } else {
      PinsOfOthers(db, s, op, other);
      ItemsOfOthers(db, s, op, other);
      AttemptsOfOthers(db, s, op, other);
    }
  }

  lemma AttemptsOfOthers(db: Db, s: Scope, op: Op, other: Scope)
    requires !op.Settle? && other != s
    ensures Owned(Apply(db, s, op).0.attempts, other) == Owned(db.attempts, other)
  {
    var (db', answer) := Apply(db, s, op);
    if answer.Started? {
      OwnedAppend(db.attempts, Attempt(s, op.pin, answer.item, answer.number, Pending), other);
    }
  }

  /** The write after the remote call. */
  lemma SettleLeavesOthers(db: Db, pin: Id, s: Scope, go: Begun, reply: Reply, max: int, now: int, other: Scope)
    requires go.Go? && other != s && (go.attempt < |db.attempts| ==> db.attempts[go.attempt].scope == s)
    ensures Only(SettleDb(db, pin, s, go, reply, max, now), other) == Only(db, other)
  {
    var db' := SettleDb(db, pin, s, go, reply, max, now);
    if go.attempt < |db.attempts| { OwnedUpdate(db.attempts, go.attempt, db'.attempts[go.attempt], other); }
    if HasPin(db, pin, s) { OwnPinsPut(db.pins, pin, db'.pins[pin], other); }
    if go.item.Some? && HasItem(db, go.item.value, s) {
      OwnItemsPut(db.queue, go.item.value, db'.queue[go.item.value], other);
    }
  }

  // ---------------------------------------------------------------- whole runs

  datatype Call = Call(scope: Scope, op: Op)

  function Run(db: Db, calls: seq<Call>): Db
    decreases |calls|
  {
    if calls == [] then db else Run(Apply(db, calls[0].scope, calls[0].op).0, calls[1..])
  }

  /** What one account is told over a run. */
  function Answers(db: Db, calls: seq<Call>, s: Scope): seq<Answer>
    decreases |calls|
  {
    if calls == [] then []
    else
      var (db', answer) := Apply(db, calls[0].scope, calls[0].op);
      (if calls[0].scope == s then [answer] else []) + Answers(db', calls[1..], s)
  }

  predicate IdsAreNew(db: Db, calls: seq<Call>)
    decreases |calls|
  {
    calls == [] ||
    (IdIsNew(db, calls[0].op) && IdsAreNew(Apply(db, calls[0].scope, calls[0].op).0, calls[1..]))
  }

  function OwnCalls(calls: seq<Call>, s: Scope): seq<Call> {
    if calls == [] then []
    else (if calls[0].scope == s then [calls[0]] else []) + OwnCalls(calls[1..], s)
  }

  lemma PlaceStays(attempts: seq<Attempt>, a: Attempt, s: Scope, rank: nat)
    requires rank < |Owned(attempts, s)|
    ensures PlaceOf(attempts + [a], s, rank) == PlaceOf(attempts, s, rank) && rank < |Owned(attempts + [a], s)|
  {
    assert (attempts + [a])[..|attempts|] == attempts;
  }

  lemma {:induction false} PlaceKept(attempts: seq<Attempt>, i: nat, a: Attempt, s: Scope, rank: nat)
    requires i < |attempts| && a.scope == attempts[i].scope
    ensures |Owned(attempts[i := a], s)| == |Owned(attempts, s)|
    ensures PlaceOf(attempts[i := a], s, rank) == PlaceOf(attempts, s, rank)
    decreases |attempts|
  {
    var n := |attempts| - 1;
    if i == n {
      assert attempts[i := a][..n] == attempts[..n];
    } else {
      assert attempts[i := a][..n] == attempts[..n][i := a];
      PlaceKept(attempts[..n], i, a, s, rank);
    }
  }

  lemma RankKept(db: Db, c: Call, s: Scope, rank: nat)
    requires rank < |Owned(db.attempts, s)|
    ensures
      var after := Apply(db, c.scope, c.op).0.attempts;
      PlaceOf(after, s, rank) == PlaceOf(db.attempts, s, rank) && rank < |Owned(after, s)|
  {
    var after := Apply(db, c.scope, c.op).0.attempts;
    if c.op.Settle? {
      var k := PlaceOf(db.attempts, c.scope, c.op.rank);
      if k < |db.attempts| { PlaceKept(db.attempts, k, after[k], s, rank); }
    } else if after != db.attempts {
      PlaceStays(db.attempts, after[|db.attempts|], s, rank);
    }
  }

  lemma {:induction false} RankLasts(db: Db, calls: seq<Call>, s: Scope, rank: nat)
    requires rank < |Owned(db.attempts, s)|
    ensures PlaceOf(Run(db, calls).attempts, s, rank) == PlaceOf(db.attempts, s, rank)
    decreases |calls|
  {
    if calls != [] {
      RankKept(db, calls[0], s, rank);
      RankLasts(Apply(db, calls[0].scope, calls[0].op).0, calls[1..], s, rank);
    }
  }

  /**
   The rank names the record for good: whatever all accounts do between the two halves of a publish, the second half
   finds the record that the first one added.
   */
  lemma RankNamesItsRecord(db: Db, s: Scope, op: Op, calls: seq<Call>)
    requires op.Begin? && Apply(db, s, op).1.Started?
    ensures
      var (db', answer) := Apply(db, s, op);
      PlaceOf(Run(db', calls).attempts, s, answer.rank) == |db.attempts|
  {
    var (db', answer) := Apply(db, s, op);
    StartedNamesItsRecord(db, s, op);
    PlaceIsOfRank(db'.attempts, s, answer.rank);
    RankLasts(db', calls, s, answer.rank);
  }

  /** An account's rows and answers are those of a run in which it is alone. */
  lemma {:induction false} AsIfAlone(db: Db, calls: seq<Call>, s: Scope)
    requires IdsAreNew(db, calls)
    ensures Only(Run(db, calls), s) == Run(Only(db, s), OwnCalls(calls, s))
    ensures Answers(db, calls, s) == Answers(Only(db, s), OwnCalls(calls, s), s)
    decreases |calls|
  {
    if calls != [] {
      var c := calls[0];
      var db' := Apply(db, c.scope, c.op).0;
      AsIfAlone(db', calls[1..], s);
      if c.scope == s {
        SeesOwn(db, s, c.op);
        assert OwnCalls(calls, s)[1..] == OwnCalls(calls[1..], s);
      } else {
        LeavesOthers(db, c.scope, c.op, s);
        assert OwnCalls(calls, s) == OwnCalls(calls[1..], s);
      }
    }
  }

  /** Two ledgers and two histories that agree on one account's rows and calls are the same for that account. */
  lemma Noninterference(db1: Db, calls1: seq<Call>, db2: Db, calls2: seq<Call>, s: Scope)
    requires Only(db1, s) == Only(db2, s) && OwnCalls(calls1, s) == OwnCalls(calls2, s)
    requires IdsAreNew(db1, calls1) && IdsAreNew(db2, calls2)
    ensures Answers(db1, calls1, s) == Answers(db2, calls2, s)
    ensures Only(Run(db1, calls1), s) == Only(Run(db2, calls2), s)
  {
    AsIfAlone(db1, calls1, s);
    AsIfAlone(db2, calls2, s);
  }
}
