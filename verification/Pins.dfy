/**
 Pin publishing: the pin ledger, its queue and its attempt records, the transactions that write them,
 and the account scope every row carries.
 */
module Pins {
  import opened Prelude

  type Id = nat

  /** The (niche, account) pair that owns a row. */
  datatype Scope = Scope(niche: Id, account: Id)

  datatype PinStatus = Draft | PinQueued | Publishing | Published | PinFailed | PinCancelled

  datatype Content = Content(board: Id, title: string, destination: string, media: string)

  datatype Pin = Pin(
    scope: Scope,
    content: Content,
    checksum: string,
    status: PinStatus,
    remoteId: Option<string>,
    publishedAt: Option<int>)

  datatype QueueState = Queued | Claimed | Done | Failed | Cancelled

  datatype PinItem = PinItem(scope: Scope, pin: Id, state: QueueState, attempts: nat, runAt: int, completedAt: Option<int>)

  datatype AttemptStatus = Pending | Success | Retryable | AttemptFailed

  datatype Attempt = Attempt(scope: Scope, pin: Id, item: Option<Id>, number: nat, status: AttemptStatus)

  datatype AccountStatus = Connected | Erroneous | Disconnected

  datatype Account = Account(niche: Id, status: AccountStatus)

  /** Attempt records are append-only: a record is named by its place in the sequence. */
  datatype Db = Db(
    accounts: map<Id, Account>,
    boards: map<Id, Scope>,
    pins: map<Id, Pin>,
    queue: map<Id, PinItem>,
    attempts: seq<Attempt>)

  datatype Outcome = Ok | NotFound | Duplicate | Invalid

  // ---------------------------------------------------------------- scoped lookups

  predicate HasPin(db: Db, pin: Id, s: Scope) {
    pin in db.pins && db.pins[pin].scope == s
  }

  predicate HasItem(db: Db, item: Id, s: Scope) {
    item in db.queue && db.queue[item].scope == s
  }

  predicate ItemFor(db: Db, item: Id, pin: Id, s: Scope) {
    HasItem(db, item, s) && db.queue[item].pin == pin
  }

  predicate InQueue(db: Db, pin: Id, s: Scope) {
    exists q :: q in db.queue && ItemFor(db, q, pin, s)
  }

  predicate ChecksumTaken(db: Db, checksum: string, s: Scope) {
    exists p :: p in db.pins && db.pins[p].checksum == checksum && db.pins[p].scope == s
  }

  /** The highest attempt number recorded for a pin in its scope, or 0. */
  function LastNumber(attempts: seq<Attempt>, pin: Id, s: Scope): nat {
    if attempts == [] then 0
    else
      var n := |attempts| - 1;
      var before := LastNumber(attempts[..n], pin, s);
      if attempts[n].pin == pin && attempts[n].scope == s then Max(before, attempts[n].number) else before
  }

  // ---------------------------------------------------------------- transactions

  function CreateDb(db: Db, pin: Id, s: Scope, content: Content, checksum: string): (Db, Outcome) {
    if content.board !in db.boards || db.boards[content.board] != s then (db, NotFound)
    else if ChecksumTaken(db, checksum, s) then (db, Duplicate)
    else (db.(pins := db.pins[pin := Pin(s, content, checksum, Draft, None, None)]), Ok)
  }

  function EnqueueDb(db: Db, item: Id, pin: Id, s: Scope, runAt: int): (Db, Outcome) {
    if !HasPin(db, pin, s) then (db, NotFound)
    else if InQueue(db, pin, s) then (db, Duplicate)
    else if db.pins[pin].status != Draft then (db, Invalid)
    else (db.(queue := db.queue[item := PinItem(s, pin, Queued, 0, runAt, None)],
              pins := db.pins[pin := db.pins[pin].(status := PinQueued)]), Ok)
  }

  function CancelRow(row: PinItem, pin: Id, s: Scope, now: int): PinItem {
    if row.pin == pin && row.scope == s && (row.state == Queued || row.state == Claimed)
    then row.(state := Cancelled, completedAt := Some(now)) else row
  }

  /** A pin has one queue item at most, so cancelling it cancels every open item of the pin. */
  function CancelDb(db: Db, pin: Id, s: Scope, now: int): (Db, Outcome) {
    if !HasPin(db, pin, s) then (db, NotFound)
    else if db.pins[pin].status == Published || db.pins[pin].status == Publishing then (db, Invalid)
    else (db.(queue := map q | q in db.queue :: CancelRow(db.queue[q], pin, s, now),
              pins := db.pins[pin := db.pins[pin].(status := PinCancelled)]), Ok)
  }

  predicate DueItem(row: PinItem, now: int, niche: Option<Id>) {
    row.state == Queued && row.runAt <= now && (niche.Some? ==> row.scope.niche == niche.value)
  }

  function DueItems(db: Db, now: int, niche: Option<Id>): set<Id> {
    set q | q in db.queue && DueItem(db.queue[q], now, niche)
  }

  /** The earliest due items, as many as the limit allows. */
  ghost predicate IsDuePick(db: Db, now: int, niche: Option<Id>, limit: nat, picked: seq<Id>) {
    && Distinct(picked)
    && (forall q :: q in picked ==> q in DueItems(db, now, niche))
    && |picked| == Min(limit, |DueItems(db, now, niche)|)
    && (forall q, r :: q in picked && r in DueItems(db, now, niche) && r !in picked ==>
          db.queue[q].runAt <= db.queue[r].runAt)
  }

  /** A batch claim marks the chosen items and nothing else. */
  function ClaimDb(db: Db, picked: seq<Id>): Db {
    db.(queue := map q | q in db.queue :: if q in picked then db.queue[q].(state := Claimed) else db.queue[q])
  }

  /** What the first transaction of a publish hands on: the attempt record and its number, or nothing to do. */
  datatype Begun = Skip | Go(attempt: nat, number: nat, item: Option<Id>)

  function BeginDb(db: Db, pin: Id, s: Scope, item: Id): (Db, Begun) {
    if !HasPin(db, pin, s) then (db, Skip)
    else if s.account !in db.accounts || db.accounts[s.account].niche != s.niche then (db, Skip)
    else
      var row := db.pins[pin];
      if row.status != PinQueued && row.status != Publishing then (db, Skip)
      else if db.accounts[s.account].status == Disconnected
      then (db.(pins := db.pins[pin := row.(status := PinFailed)]), Skip)
      else
        var found := if HasItem(db, item, s) then Some(item) else None;
        var number := LastNumber(db.attempts, pin, s) + 1;
        (db.(pins := db.pins[pin := row.(status := Publishing)],
             attempts := db.attempts + [Attempt(s, pin, found, number, Pending)]),
         Go(|db.attempts|, number, found))
  }

  datatype Reply = Accepted(remoteId: string) | Rejected(retryable: bool)

  function StatusForError(retryable: bool, attempts: nat, maxAttempts: int): AttemptStatus {
    if retryable && attempts < maxAttempts then Retryable else AttemptFailed
  }

  function SettleAttempt(row: Attempt, reply: Reply, number: nat, maxAttempts: int): Attempt {
    match reply
    case Accepted(_) => row.(status := Success)
    case Rejected(retryable) => row.(status := StatusForError(retryable, number, maxAttempts))
  }

  /** The final write to the pin does not look at its present status. */
  function SettlePin(row: Pin, reply: Reply, number: nat, maxAttempts: int, now: int): Pin {
    match reply
    case Accepted(remoteId) => row.(status := Published, remoteId := Some(remoteId), publishedAt := Some(now))
    case Rejected(retryable) =>
      if StatusForError(retryable, number, maxAttempts) == AttemptFailed then row.(status := PinFailed) else row
  }

  function SettleItem(row: PinItem, reply: Reply, number: nat, maxAttempts: int, now: int): PinItem {
    match reply
    case Accepted(_) => row.(state := Done, attempts := number, completedAt := Some(now))
    case Rejected(retryable) =>
      if StatusForError(retryable, number, maxAttempts) == AttemptFailed
      then row.(state := Failed, attempts := number, completedAt := Some(now))
      else row.(state := Queued, attempts := number, runAt := now + 300 * number)
  }

  function SettleDb(db: Db, pin: Id, s: Scope, go: Begun, reply: Reply, maxAttempts: int, now: int): Db
    requires go.Go?
  {
    db.(
      attempts := if go.attempt < |db.attempts|
                  then db.attempts[go.attempt := SettleAttempt(db.attempts[go.attempt], reply, go.number, maxAttempts)]
                  else db.attempts,
      pins := if HasPin(db, pin, s) then db.pins[pin := SettlePin(db.pins[pin], reply, go.number, maxAttempts, now)]
              else db.pins,
      queue := if go.item.Some? && HasItem(db, go.item.value, s)
               then db.queue[go.item.value := SettleItem(db.queue[go.item.value], reply, go.number, maxAttempts, now)]
               else db.queue)
  }

  // ---------------------------------------------------------------- the store

  /** The tables as the service holds them. Each method is one database transaction. */
  class PinStore {
    var accounts: map<Id, Account>
    var boards: map<Id, Scope>
    var pins: map<Id, Pin>
    var queue: map<Id, PinItem>
    var attempts: seq<Attempt>

    ghost function Tables(): Db
      reads this
    {
      Db(accounts, boards, pins, queue, attempts)
    }

    method CreatePinDraft(id: Id, s: Scope, content: Content, checksum: string) returns (outcome: Outcome)
      requires id !in pins
      modifies this`pins
      ensures (Tables(), outcome) == CreateDb(old(Tables()), id, s, content, checksum)
    {
      if content.board !in boards || boards[content.board] != s { return NotFound; }
      var rest := pins.Keys;
      while rest != {}
        invariant rest <= pins.Keys
        invariant forall p :: p in pins.Keys - rest ==> !(pins[p].checksum == checksum && pins[p].scope == s)
        decreases rest
      {
        var p :| p in rest;
        if pins[p].checksum == checksum && pins[p].scope == s { return Duplicate; }
        rest := rest - {p};
      }
      pins := pins[id := Pin(s, content, checksum, Draft, None, None)];
      return Ok;
    }

    /** The queue item of a pin in its scope, if there is one. */
    method GetByPin(pin: Id, s: Scope) returns (found: Option<Id>)
      ensures found.Some? <==> InQueue(Tables(), pin, s)
      ensures found.Some? ==> ItemFor(Tables(), found.value, pin, s)
    {
      var rest := queue.Keys;
      while rest != {}
        invariant rest <= queue.Keys
        invariant forall q :: q in queue.Keys - rest ==> !ItemFor(Tables(), q, pin, s)
        decreases rest
      {
        var q :| q in rest;
        if queue[q].scope == s && queue[q].pin == pin { return Some(q); }
        rest := rest - {q};
      }
      return None;
    }

    method EnqueuePin(id: Id, pin: Id, s: Scope, runAt: int) returns (outcome: Outcome)
      requires id !in queue
      modifies this`pins, this`queue
      ensures (Tables(), outcome) == EnqueueDb(old(Tables()), id, pin, s, runAt)
    {
      if pin !in pins || pins[pin].scope != s { return NotFound; }
      var existing := GetByPin(pin, s);
      if existing.Some? { return Duplicate; }
      if pins[pin].status != Draft { return Invalid; }
      queue := queue[id := PinItem(s, pin, Queued, 0, runAt, None)];
      pins := pins[pin := pins[pin].(status := PinQueued)];
      return Ok;
    }

    method CancelPin(pin: Id, s: Scope, now: int) returns (outcome: Outcome)
      requires forall q, q' :: q in queue && q' in queue && queue[q].pin == queue[q'].pin ==> q == q'
      modifies this`pins, this`queue
      ensures (Tables(), outcome) == CancelDb(old(Tables()), pin, s, now)
    {
      if pin !in pins || pins[pin].scope != s { return NotFound; }
      if pins[pin].status == Published || pins[pin].status == Publishing { return Invalid; }
      var item := GetByPin(pin, s);
      if item.Some? && (queue[item.value].state == Queued || queue[item.value].state == Claimed) {
        var row := queue[item.value].(state := Cancelled);
        queue := queue[item.value := row.(completedAt := Some(now))];
      }
      pins := pins[pin := pins[pin].(status := PinCancelled)];
      forall q | q in queue ensures queue[q] == CancelRow(old(queue)[q], pin, s, now) {
        assert ItemFor(old(Tables()), q, pin, s) ==> item.Some? && item.value == q;
      }
      assert queue == CancelDb(old(Tables()), pin, s, now).0.queue;
      return Ok;
    }

    /** Claims the earliest due items, as many as the limit and the batch size allow. */
    method ClaimDue(now: int, limit: nat, batchSize: nat, niche: Option<Id>) returns (picked: seq<Id>)
      modifies this`queue
      ensures IsDuePick(old(Tables()), now, niche, Min(limit, batchSize), picked)
      ensures Tables() == ClaimDb(old(Tables()), picked)
    {
      picked := PickDue(now, Min(limit, batchSize), niche);
      var i := 0;
      while i < |picked|
        invariant 0 <= i <= |picked|
        invariant forall q :: q in picked ==> q in old(queue)
        invariant queue.Keys == old(queue).Keys
        invariant forall q :: q in queue ==>
                    queue[q] == if q in picked[..i] then old(queue)[q].(state := Claimed) else old(queue)[q]
      {
        queue := queue[picked[i] := queue[picked[i]].(state := Claimed)];
        i := i + 1;
      }
      assert picked[..i] == picked;
      assert queue == ClaimDb(old(Tables()), picked).queue;
    }

    method PickDue(now: int, limit: nat, niche: Option<Id>) returns (picked: seq<Id>)
      ensures IsDuePick(Tables(), now, niche, limit, picked)
    {
      picked := [];
      var rest := set q | q in queue && DueItem(queue[q], now, niche);
      while rest != {} && |picked| < limit
        invariant rest <= DueItems(Tables(), now, niche)
        invariant forall q :: q in DueItems(Tables(), now, niche) <==> q in rest || q in picked
        invariant forall q :: q in picked ==> q !in rest
        invariant |picked| + |rest| == |DueItems(Tables(), now, niche)| && |picked| <= limit
        invariant Distinct(picked)
        invariant forall q, r :: q in picked && r in rest ==> queue[q].runAt <= queue[r].runAt
        decreases rest
      {
        var first := Earliest(rest);
        picked := picked + [first];
        rest := rest - {first};
      }
    }

    method Earliest(among: set<Id>) returns (first: Id)
      requires among != {} && among <= queue.Keys
      ensures first in among
      ensures forall q :: q in among ==> queue[first].runAt <= queue[q].runAt
    {
      first :| first in among;
      var rest := among - {first};
      while rest != {}
        invariant rest <= among && first in among
        invariant forall q :: q in among - rest ==> queue[first].runAt <= queue[q].runAt
        decreases rest
      {
        var q :| q in rest;
        if queue[q].runAt < queue[first].runAt { first := q; }
        rest := rest - {q};
      }
    }

    method LatestNumber(pin: Id, s: Scope) returns (number: nat)
      ensures number == LastNumber(attempts, pin, s)
    {
      number := 0;
      var i := 0;
      while i < |attempts|
        invariant 0 <= i <= |attempts|
        invariant number == LastNumber(attempts[..i], pin, s)
      {
        assert attempts[..i + 1][..i] == attempts[..i];
        if attempts[i].pin == pin && attempts[i].scope == s { number := Max(number, attempts[i].number); }
        i := i + 1;
      }
      assert attempts[..i] == attempts;
    }

    /** The transaction before the remote call. */
    method BeginPublish(pin: Id, s: Scope, item: Id) returns (begun: Begun)
      modifies this`pins, this`attempts
      ensures (Tables(), begun) == BeginDb(old(Tables()), pin, s, item)
    {
      if pin !in pins || pins[pin].scope != s { return Skip; }
      if s.account !in accounts || accounts[s.account].niche != s.niche { return Skip; }
      if pins[pin].status != PinQueued && pins[pin].status != Publishing { return Skip; }
      if accounts[s.account].status != Connected && accounts[s.account].status != Erroneous {
        pins := pins[pin := pins[pin].(status := PinFailed)];
        return Skip;
      }
      pins := pins[pin := pins[pin].(status := Publishing)];
      var found := None;
      if item in queue && queue[item].scope == s { found := Some(item); }
      var number := LatestNumber(pin, s);
      number := number + 1;
      attempts := attempts + [Attempt(s, pin, found, number, Pending)];
      return Go(|attempts| - 1, number, found);
    }

    /** The transaction after the remote call. */
    method SettlePublish(pin: Id, s: Scope, go: Begun, reply: Reply, maxAttempts: int, now: int)
      requires go.Go?
      modifies this`pins, this`queue, this`attempts
      ensures Tables() == SettleDb(old(Tables()), pin, s, go, reply, maxAttempts, now)
      ensures
        var repeats := reply.Rejected? && reply.retryable && go.number < maxAttempts;
        && (go.attempt < |old(attempts)| ==>
              attempts == old(attempts)[go.attempt := old(attempts)[go.attempt].(
                status := if reply.Accepted? then Success else if repeats then Retryable else AttemptFailed)])
        && (pin in old(pins) && old(pins)[pin].scope == s ==>
              pins == old(pins)[pin :=
                if reply.Accepted?
                then old(pins)[pin].(status := Published, remoteId := Some(reply.remoteId), publishedAt := Some(now))
                else if repeats then old(pins)[pin]
                else old(pins)[pin].(status := PinFailed)])
    {
      var status := if reply.Accepted? then Success else StatusForError(reply.retryable, go.number, maxAttempts);
      if go.attempt < |attempts| {
        attempts := attempts[go.attempt := attempts[go.attempt].(status := status)];
      }
      if pin in pins && pins[pin].scope == s {
        if status == Success {
          var row := pins[pin].(status := Published);
          row := row.(remoteId := Some(reply.remoteId));
          pins := pins[pin := row.(publishedAt := Some(now))];
        } else if status == AttemptFailed {
          pins := pins[pin := pins[pin].(status := PinFailed)];
        }
      }
      if go.item.Some? && go.item.value in queue && queue[go.item.value].scope == s {
        var row := queue[go.item.value].(attempts := go.number);
        if status == Success {
          row := row.(state := Done);
          row := row.(completedAt := Some(now));
        } else if status == AttemptFailed {
          row := row.(state := Failed);
          row := row.(completedAt := Some(now));
        } else {
          row := row.(state := Queued);
          row := row.(runAt := now + 300 * go.number);
        }
        queue := queue[go.item.value := row];
      }
    }
  }
}
