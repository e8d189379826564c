/** The transactional outbox and the local receipt queue: rows claimed under a lease, processed at
    least once, and marked by workers that carry no fencing token. A worker may be slow, stale or
    gone; the lease of its claim may have run out and the row been claimed again. */
module Outbox {
  import opened Basics

  datatype Status = PENDING | PROCESSING | FAILED_RETRYABLE | FAILED_TERMINAL | DELIVERED | DISABLED

  datatype Kind = EnrichmentCallback | EnrichmentQueue | CreditDelivery

  datatype Row = Row(kind: Kind, status: Status, attempts: nat, availableAt: nat, lockedUntil: Option<nat>)

  /** The two tables differ in their constants only. */
  datatype Queue = Queue(lease: nat, cap: nat, exponent: nat)

  const OUTBOX := Queue(120, 3600, 10)
  const LOCAL := Queue(180, 300, 8)
  const MAX_ATTEMPTS: nat := 10

  /** LEAST(cap, POWER(2, LEAST(attempts, exponent))) seconds. */
  function Delay(q: Queue, attempts: nat): nat { Min(q.cap, Pow2(Min(attempts, q.exponent))) }

  // ---------------------------------------------------------------- statements on one row

  predicate Claimable(row: Row, now: nat) {
    || ((row.status == PENDING || row.status == FAILED_RETRYABLE) && row.availableAt <= now)
    || (row.status == PROCESSING && row.lockedUntil.Some? && row.lockedUntil.value < now)
  }

  function ClaimRow(q: Queue, row: Row, now: nat): Row {
    row.(status := PROCESSING, attempts := row.attempts + 1, lockedUntil := Some(now + q.lease))
  }

  function DeliverRow(row: Row): Row {
    if row.status == PROCESSING then row.(status := DELIVERED, lockedUntil := None) else row
  }

  /** The verdict follows the attempt the worker was handed, the delay the attempts of the row. */
  function FailRow(q: Queue, row: Row, attempt: nat, now: nat): Row {
    if row.status == PROCESSING then
      row.(status := if attempt >= MAX_ATTEMPTS then FAILED_TERMINAL else FAILED_RETRYABLE,
           lockedUntil := None, availableAt := now + Delay(q, row.attempts))
    else row
  }

  /** The one statement without a guard on the status. */
  function DisableRow(row: Row): Row { row.(status := DISABLED, lockedUntil := None) }

  // ---------------------------------------------------------------- the table

  /** The rows among the first `n` that are claimed: the oldest claimable ones, at most `limit`. */
  function Oldest(rows: seq<Row>, now: nat, limit: nat, n: nat): (ids: seq<nat>)
    requires n <= |rows|
    ensures |ids| <= limit && forall k :: 0 <= k < |ids| ==> ids[k] < n
  {
    if n == 0 then []
    else
      var ids := Oldest(rows, now, limit, n - 1);
      if |ids| < limit && Claimable(rows[n - 1], now) then ids + [n - 1] else ids
  }

  /** Each claimable row is claimed once, in order of creation, and one is passed over only if
      `limit` older ones were claimed. */
  lemma {:induction false} OldestExactly(rows: seq<Row>, now: nat, limit: nat, n: nat)
    requires n <= |rows|
    ensures var ids := Oldest(rows, now, limit, n);
            && (forall i, j :: 0 <= i < j < |ids| ==> ids[i] < ids[j])
            && (forall i :: i in ids ==> Claimable(rows[i], now))
            && (forall i: nat :: i < n && Claimable(rows[i], now) && i !in ids ==>
              |ids| == limit && forall k :: k in ids ==> k < i)
  {
    if n > 0 {
      OldestExactly(rows, now, limit, n - 1);
      var ids := Oldest(rows, now, limit, n - 1);
      assert forall k :: 0 <= k < |ids| ==> ids[k] < n - 1;
    }
  }

  datatype Event = Event(id: nat, kind: Kind, attempts: nat)

  /** The table after the rows `ids` were claimed. */
  function Claimed(q: Queue, rows: seq<Row>, ids: seq<nat>, now: nat): (out: seq<Row>)
    ensures |out| == |rows|
  {
    seq(|rows|, i requires 0 <= i < |rows| => if i in ids then ClaimRow(q, rows[i], now) else rows[i])
  }

  /** What the workers are handed: the attempt numbers already count this claim. */
  function EventsOf(rows: seq<Row>, ids: seq<nat>): (events: seq<Event>)
    requires forall k :: 0 <= k < |ids| ==> ids[k] < |rows|
    ensures |events| == |ids|
  {
    seq(|ids|, k requires 0 <= k < |ids| => Event(ids[k], rows[ids[k]].kind, rows[ids[k]].attempts + 1))
  }

  /** How an attempt at delivering one event ends. */
  datatype Outcome = Delivered | Raised | Disabled

  function Settle(q: Queue, row: Row, attempt: nat, outcome: Outcome, now: nat): Row {
    match outcome
    case Delivered => DeliverRow(row)
    case Raised => FailRow(q, row, attempt, now)
    case Disabled => DisableRow(row)
  }

  /** A row of kind `CreditDelivery` is disabled if its provider is; otherwise the effect decides. */
  function OutcomeOf(kind: Kind, creditDisabled: bool, succeeds: bool): Outcome {
    if kind == CreditDelivery && creditDisabled then Disabled else if succeeds then Delivered else Raised
  }

  class OutboxTable {
    var rows: seq<Row>   // in order of creation
    var now: nat

    method ClaimOutboxEvents(limit: nat) returns (events: seq<Event>)
      modifies `rows
      ensures var ids := Oldest(old(rows), now, limit, |old(rows)|);
              rows == Claimed(OUTBOX, old(rows), ids, now) && events == EventsOf(old(rows), ids)
    {
      events := [];
      ghost var before := rows;
      ghost var ids: seq<nat> := [];
      hide Claimable, ClaimRow;
      var n := 0;
      while n < |rows|
        invariant n <= |rows| == |before|
        invariant ids == Oldest(before, now, limit, n) && events == EventsOf(before, ids)
        invariant forall i: nat :: i < |rows| ==> rows[i] == if i in ids then ClaimRow(OUTBOX, before[i], now)
                  else before[i]
      {
        assert n !in ids;
        if |events| < limit && Claimable(rows[n], now) {
          events := events + [Event(n, rows[n].kind, rows[n].attempts + 1)];
          rows := rows[n := ClaimRow(OUTBOX, rows[n], now)];
          ids := ids + [n];
        }
        n := n + 1;
      }
    }

    method Mark(event: Event, outcome: Outcome)
      requires event.id < |rows|
      modifies `rows
      ensures rows == old(rows)[event.id := Settle(OUTBOX, old(rows)[event.id], event.attempts, outcome, now)]
    {
      match outcome
      case Delivered => rows := rows[event.id := DeliverRow(rows[event.id])];
      case Raised => rows := rows[event.id := FailRow(OUTBOX, rows[event.id], event.attempts, now)];
      case Disabled => rows := rows[event.id := DisableRow(rows[event.id])];
    }

    /** One round of the dispatcher with no other worker about: it claims, then settles each event by
        the outcome of its own attempt. RoundExactly says what becomes of every row. */
    method DispatchOutboxOnce(limit: nat, creditDisabled: bool, succeeds: nat -> bool) returns (delivered: nat)
      modifies `rows
      ensures var ids := Oldest(old(rows), now, limit, |old(rows)|);
              && rows == Round(old(rows), ids, now, creditDisabled, succeeds, |ids|)
              && delivered == Won(old(rows), ids, creditDisabled, succeeds, |ids|)
    {
      ghost var before := rows;
      ghost var ids := Oldest(before, now, limit, |before|);
      var events := ClaimOutboxEvents(limit);
      hide Settle, OutcomeOf, Oldest, Claimed, ClaimRow, Round, Won, EventsOf;
      RoundStart(before, ids, now, creditDisabled, succeeds);
      delivered := 0;
      for k := 0 to |events|
        invariant rows == Round(before, ids, now, creditDisabled, succeeds, k)
        invariant delivered == Won(before, ids, creditDisabled, succeeds, k)
      {
        var won := DeliverOne(events[k], creditDisabled, succeeds, before, ids, k);
        if won { delivered := delivered + 1; }
      }
    }

    /** One event of the round. */
    method DeliverOne(event: Event, creditDisabled: bool, succeeds: nat -> bool, ghost before: seq<Row>,
        ghost ids: seq<nat>, ghost k: nat) returns (won: bool)
      requires k < |ids| && (forall j :: 0 <= j < |ids| ==> ids[j] < |before|) && event == EventsOf(before, ids)[k]
      requires rows == Round(before, ids, now, creditDisabled, succeeds, k)
      modifies `rows
      ensures rows == Round(before, ids, now, creditDisabled, succeeds, k + 1)
      ensures Won(before, ids, creditDisabled, succeeds, k + 1) == Won(before, ids, creditDisabled, succeeds, k) +
              if won then 1 else 0
    {
      hide Settle, OutcomeOf, Round, Won;
      RoundStep(before, ids, now, creditDisabled, succeeds, k);
      var outcome := OutcomeOf(event.kind, creditDisabled, succeeds(event.id));
      Mark(event, outcome);
      won := outcome == Delivered;
    }
  }

  /** The table when the first `k` of the claimed events are settled. */
  function Round(rows: seq<Row>, ids: seq<nat>, now: nat, creditDisabled: bool, succeeds: nat -> bool,
      k: nat): (out: seq<Row>)
    requires k <= |ids| && forall j :: 0 <= j < |ids| ==> ids[j] < |rows|
    ensures |out| == |rows|
  {
    if k == 0 then Claimed(OUTBOX, rows, ids, now)
    else
      var before := Round(rows, ids, now, creditDisabled, succeeds, k - 1);
      var id := ids[k - 1];
      before[id :=
        Settle(OUTBOX, before[id], rows[id].attempts + 1, OutcomeOf(rows[id].kind, creditDisabled, succeeds(id)), now)]
  }

  /** How many of the first `k` events are delivered. */
  function Won(rows: seq<Row>, ids: seq<nat>, creditDisabled: bool, succeeds: nat -> bool, k: nat): nat
    requires k <= |ids| && forall j :: 0 <= j < |ids| ==> ids[j] < |rows|
  {
    if k == 0 then 0
    else Won(rows, ids, creditDisabled, succeeds, k - 1)
         + if OutcomeOf(rows[ids[k - 1]].kind, creditDisabled, succeeds(ids[k - 1])) == Delivered then 1 else 0
  }

  lemma RoundStart(rows: seq<Row>, ids: seq<nat>, now: nat, creditDisabled: bool, succeeds: nat -> bool)
    requires forall j :: 0 <= j < |ids| ==> ids[j] < |rows|
    ensures Round(rows, ids, now, creditDisabled, succeeds, 0) == Claimed(OUTBOX, rows, ids, now)
    ensures Won(rows, ids, creditDisabled, succeeds, 0) == 0
  {
  }

  lemma RoundStep(rows: seq<Row>, ids: seq<nat>, now: nat, creditDisabled: bool, succeeds: nat -> bool, k: nat)
    requires k < |ids| && forall j :: 0 <= j < |ids| ==> ids[j] < |rows|
    ensures var before := Round(rows, ids, now, creditDisabled, succeeds, k);
            var id := ids[k];
            var outcome := OutcomeOf(rows[id].kind, creditDisabled, succeeds(id));
            && Round(rows, ids, now, creditDisabled, succeeds, k + 1) ==
              before[id := Settle(OUTBOX, before[id], rows[id].attempts + 1, outcome, now)]
            && Won(rows, ids, creditDisabled, succeeds, k + 1) == Won(rows, ids, creditDisabled, succeeds, k) +
              if outcome == Delivered then 1 else 0
  {
  }

  /** Each claimed row ends as its own attempt decided: delivered, disabled, terminal after ten
      attempts, or put back with the delay of that attempt; no other row changes. */
  lemma {:induction false} RoundExactly(rows: seq<Row>, ids: seq<nat>, now: nat, creditDisabled: bool,
      succeeds: nat -> bool, k: nat, i: nat)
    requires k <= |ids| && (forall j :: 0 <= j < |ids| ==> ids[j] < |rows|) && i < |rows|
    requires forall m, n :: 0 <= m < n < |ids| ==> ids[m] < ids[n]
    ensures var row := rows[i];
            var out := Round(rows, ids, now, creditDisabled, succeeds, k)[i];
            if i !in ids then out == row
            else if i !in ids[..k] then out == ClaimRow(OUTBOX, row, now)
            else && out.attempts == row.attempts + 1 && out.lockedUntil == None
                 && (var disabled := creditDisabled && row.kind == CreditDelivery;
                     && out.status == (if disabled then DISABLED
                                       else if succeeds(i) then DELIVERED
                                       else if row.attempts + 1 >= 10 then FAILED_TERMINAL else FAILED_RETRYABLE)
                     && (!disabled && !succeeds(i) ==> out.availableAt == now + Delay(OUTBOX, row.attempts + 1)))
  {
    if k > 0 {
      RoundExactly(rows, ids, now, creditDisabled, succeeds, k - 1, i);
      assert ids[..k] == ids[..k - 1] + [ids[k - 1]];
      hide Delay;
    }
  }

  /** The queue of the local deployment: one row per receipt, the same lease protocol. */
  class LocalReceiptQueue {
    var receipts: seq<nat>   // in order of creation, one for each row
    var rows: seq<Row>
    var now: nat

    ghost predicate Valid()
      reads this
    {
      |receipts| == |rows| && forall i, j :: 0 <= i < j < |receipts| ==> receipts[i] != receipts[j]
    }

    /** A receipt that is known keeps its row: enqueuing it again delivers it no second time. */
    method Enqueue(receipt: nat)
      requires Valid()
      modifies `receipts, `rows
      ensures Valid() && receipt in receipts
      ensures receipt in old(receipts) ==> receipts == old(receipts) && rows == old(rows)
      ensures receipt !in old(receipts) ==>
                receipts == old(receipts) + [receipt]
                  && rows == old(rows) + [Row(EnrichmentQueue, PENDING, 0, now, None)]
    {
      if receipt !in receipts {
        receipts := receipts + [receipt];
        rows := rows + [Row(EnrichmentQueue, PENDING, 0, now, None)];
      }
    }

    /** The oldest claimable row, if there is one. */
    method ClaimLocalMessage() returns (message: Option<Event>)
      requires Valid()
      modifies `rows
      ensures Valid()
      ensures message.None? ==> rows == old(rows) && forall i :: 0 <= i < |rows| ==> !Claimable(rows[i], now)
      ensures message.Some? ==>
                var id := message.value.id;
                && id < |rows| && Claimable(old(rows)[id], now)
                  && (forall i :: 0 <= i < id ==> !Claimable(old(rows)[i], now))
                && rows == old(rows)[id := ClaimRow(LOCAL, old(rows)[id], now)]
                && message.value == Event(id, rows[id].kind, rows[id].attempts)
    {
      for n := 0 to |rows|
        invariant rows == old(rows) && forall i :: 0 <= i < n ==> !Claimable(rows[i], now)
      {
        if Claimable(rows[n], now) {
          rows := rows[n := ClaimRow(LOCAL, rows[n], now)];
          return Some(Event(n, rows[n].kind, rows[n].attempts));
        }
      }
      message := None;
    }

    method SettleLocalMessage(message: Event, processed: bool)
      requires Valid() && message.id < |rows|
      modifies `rows
      ensures Valid()
      ensures rows ==
              old(rows)[message.id :=
              Settle(LOCAL, old(rows)[message.id], message.attempts, if processed then Delivered else Raised, now)]
    {
      if processed {
        rows := rows[message.id := DeliverRow(rows[message.id])];
      } else {
        rows := rows[message.id := FailRow(LOCAL, rows[message.id], message.attempts, now)];
      }
    }
  }

  // ---------------------------------------------------------------- any number of workers on one row

  type WorkerId = nat

  /** A claim a worker holds: the attempt number it was handed and whether its effect has run. */
  datatype Claim = Claim(attempt: nat, effected: bool)

  /** A claim, or the put-back of a row that had been claimed `n` times, with its time. */
  datatype Happening = TakenAt(at: nat) | BackAt(at: nat, n: nat)

  /** What has happened to the row. */
  datatype Log = Log(
    handed: seq<nat>,          // attempt numbers, in the order they were handed out
    retries: set<nat>,         // attempts whose worker put the row back
    effects: nat,              // how often the effect ran
    waits: seq<nat>,           // the delays scheduled when the row was put back
    taken: nat,                // claims of a row whose lease had run out
    past: seq<Happening>)      // claims and put-backs in order

  datatype State = State(row: Row, now: nat, claims: map<WorkerId, Claim>, log: Log)

  datatype Step =
    | Take(w: WorkerId)
    | Effect(w: WorkerId)
    | MarkDelivered(w: WorkerId)
    | MarkFailed(w: WorkerId)
    | MarkDisabled(w: WorkerId)
    | Vanish(w: WorkerId)
    | Tick(seconds: nat)

  /** A worker marks its claim delivered only after the effect, disabled only instead of it (and only
      for a credit delivery), and failed at any point, since even the marking may raise. */
  ghost function Next(q: Queue, s: State, step: Step): State {
    match step
    case Take(w) =>
      if w !in s.claims && Claimable(s.row, s.now) then
        s.(row := ClaimRow(q, s.row, s.now), claims := s.claims[w := Claim(s.row.attempts + 1, false)],
           log := s.log.(handed := s.log.handed + [s.row.attempts + 1],
                         taken := s.log.taken + if s.row.status == PROCESSING then 1 else 0,
                         past := s.log.past + [TakenAt(s.now)]))
      else s
    case Effect(w) =>
      if w in s.claims && !s.claims[w].effected then
        s.(claims := s.claims[w := s.claims[w].(effected := true)], log := s.log.(effects := s.log.effects + 1))
      else s
    case MarkDelivered(w) =>
      if w in s.claims && s.claims[w].effected then s.(row := DeliverRow(s.row), claims := s.claims - {w}) else s
    case MarkFailed(w) =>
      if w in s.claims then
        var row := FailRow(q, s.row, s.claims[w].attempt, s.now);
        s.(row := row, claims := s.claims - {w},
           log := if s.row.status == PROCESSING && row.status == FAILED_RETRYABLE
                  then s.log.(retries := s.log.retries + {s.claims[w].attempt},
                              waits := s.log.waits + [Delay(q, s.row.attempts)],
                              past := s.log.past + [BackAt(s.now, s.row.attempts)])
                  else s.log)
      else s
    case MarkDisabled(w) =>
      if w in s.claims && !s.claims[w].effected && s.row.kind == CreditDelivery
      then s.(row := DisableRow(s.row), claims := s.claims - {w}) else s
    case Vanish(w) => s.(claims := s.claims - {w})
    case Tick(seconds) => s.(now := s.now + seconds)
  }

  ghost function Run(q: Queue, s: State, steps: seq<Step>): State
    decreases |steps|
  {
    if steps == [] then s else Run(q, Next(q, s, steps[0]), steps[1..])
  }

  ghost predicate Init(s: State) {
    s.row.status == PENDING && s.row.attempts == 0 && s.row.lockedUntil == None && s.claims == map[]
      && s.log == Log([], {}, 0, [], 0, [])
  }

  /** Some run from a new row ends in this state. */
  ghost predicate Reachable(q: Queue, s: State) {
    exists s0: State, steps: seq<Step> :: Init(s0) && Run(q, s0, steps) == s
  }

  // ---------------------------------------------------------------- what holds in every run

  function UpTo(n: nat): (s: seq<nat>)
    ensures |s| == n && forall i :: 0 <= i < n ==> s[i] == i + 1
  {
    if n == 0 then [] else UpTo(n - 1) + [n]
  }

  ghost predicate LogInv(s: State) {
    && s.log.handed == UpTo(s.row.attempts)
    && (forall n :: n in s.log.retries ==> 1 <= n < MAX_ATTEMPTS)
    && |s.log.waits| == |s.log.retries|
    && (s.row.status == DELIVERED ==> s.log.effects > 0)
    && (s.row.status == PROCESSING <==> s.row.lockedUntil.Some?)
    && (forall d :: d in s.log.waits ==> d <= 1024)
    && s.row.attempts + (if s.row.status == PENDING || s.row.status == FAILED_RETRYABLE then 1 else 0) <=
       1 + |s.log.waits| + s.log.taken
  }

  ghost predicate ClaimsInv(s: State) {
    && (forall w :: w in s.claims ==>
          && 1 <= s.claims[w].attempt <= s.row.attempts && s.claims[w].attempt !in s.log.retries
          && (s.claims[w].effected ==> s.log.effects > 0))
    && (forall w, v :: w in s.claims && v in s.claims && w != v ==> s.claims[w].attempt != s.claims[v].attempt)
    && (forall n :: n in s.log.retries ==> n <= s.row.attempts)
  }

  /** The caps of 3600 and 300 seconds never bind. */
  lemma CapsNeverBind(attempts: nat)
    ensures Delay(OUTBOX, attempts) == Pow2(Min(attempts, 10)) <= 1024
    ensures Delay(LOCAL, attempts) == Pow2(Min(attempts, 8)) <= 256
  {
    assert Pow2(4) == 16;
    assert Pow2(8) == 256;
    assert Pow2(10) == 1024;
    Pow2Grows(Min(attempts, 10), 10);
    Pow2Grows(Min(attempts, 8), 8);
  }

  lemma StepLog(q: Queue, s: State, step: Step)
    requires q == OUTBOX || q == LOCAL
    requires LogInv(s) && ClaimsInv(s)
    ensures LogInv(Next(q, s, step))
  {
    hide UpTo, Delay;
    if step.MarkFailed? { FailLog(q, s, step); } else if step.Take? { TakeLog(q, s, step); }
  }

  lemma TakeLog(q: Queue, s: State, step: Step)
    requires LogInv(s) && step.Take?
    ensures LogInv(Next(q, s, step))
  {
    hide UpTo, Delay;
    UpToGrows(s.row.attempts);
  }

  lemma FailLog(q: Queue, s: State, step: Step)
    requires q == OUTBOX || q == LOCAL
    requires LogInv(s) && ClaimsInv(s) && step.MarkFailed?
    ensures LogInv(Next(q, s, step))
  {
    CapsNeverBind(s.row.attempts);
    hide Delay, UpTo;
    if step.w in s.claims { assert |s.log.retries + {s.claims[step.w].attempt}| == |s.log.retries| + 1; }
  }

  lemma UpToGrows(n: nat)
    ensures UpTo(n + 1) == UpTo(n) + [n + 1]
  {
  }

  lemma StepClaims(q: Queue, s: State, step: Step)
    requires ClaimsInv(s)
    ensures ClaimsInv(Next(q, s, step))
  {
    hide Delay;
  }

  lemma StepKeeps(q: Queue, s: State, step: Step)
    requires q == OUTBOX || q == LOCAL
    requires LogInv(s) && ClaimsInv(s)
    ensures LogInv(Next(q, s, step)) && ClaimsInv(Next(q, s, step))
  {
    hide Next, LogInv, ClaimsInv;
    StepLog(q, s, step);
    StepClaims(q, s, step);
  }

  lemma {:induction false} RunKeeps(q: Queue, s: State, steps: seq<Step>)
    requires q == OUTBOX || q == LOCAL
    requires LogInv(s) && ClaimsInv(s)
    ensures LogInv(Run(q, s, steps)) && ClaimsInv(Run(q, s, steps))
    decreases |steps|
  {
    hide LogInv, ClaimsInv, Next;
    if steps != [] {
      StepKeeps(q, s, steps[0]);
      RunKeeps(q, Next(q, s, steps[0]), steps[1..]);
    }
  }

  lemma {:induction false} Within(ns: set<nat>, n: nat)
    requires n >= 1 && forall x :: x in ns ==> 1 <= x < n
    ensures |ns| < n
    decreases n
  {
    if n > 1 {
      Within(ns - {n - 1}, n - 1);
      assert |ns| <= |ns - {n - 1}| + 1;
    } else {
      assert ns == {};
    }
  }

  /** However many leases run out and however many stale workers come back: the attempt numbers
      handed out are 1, 2, 3, … without repetition; the row is put back for a retry at most nine
      times, each for at most 1024 seconds; and it is delivered only if its effect has run. */
  lemma AtLeastOnce(q: Queue, s: State)
    requires (q == OUTBOX || q == LOCAL) && Reachable(q, s)
    ensures s.log.handed == UpTo(s.row.attempts)
    ensures |s.log.waits| == |s.log.retries| <= 9 && forall d :: d in s.log.waits ==> d <= 1024
    ensures s.row.status == DELIVERED ==> s.log.effects > 0
  {
    hide Run;
    var s0: State, steps: seq<Step> :| Init(s0) && Run(q, s0, steps) == s;
    RunKeeps(q, s0, steps);
    Within(s.log.retries, MAX_ATTEMPTS);
  }

  // ---------------------------------------------------------------- when rows are claimed

  /** The seconds a row that was claimed `n` times waits when it is put back. */
  function Wait(q: Queue, n: nat): nat { Pow2(Min(n, if q == OUTBOX then 10 else 8)) }

  /** The seconds a claim is held. */
  function Lease(q: Queue): nat { if q == OUTBOX then 120 else 180 }

  /** What follows comes late enough: a claim after the wait of a put-back, a claim of a claimed row
      after its lease. */
  predicate InTime(q: Queue, a: Happening, b: Happening) {
    match a
    case BackAt(at, n) => b.TakenAt? && at + Wait(q, n) <= b.at
    case TakenAt(at) => b.TakenAt? ==> at + Lease(q) < b.at
  }

  ghost predicate Paced(q: Queue, past: seq<Happening>) {
    forall i :: 0 < i < |past| ==> InTime(q, past[i - 1], past[i])
  }

  /** The row says what happened last. */
  ghost predicate PastInv(q: Queue, s: State) {
    && Paced(q, s.log.past)
    && match s.row.status
       case PENDING => s.log.past == []
       case PROCESSING =>
         && s.log.past != [] && s.log.past[|s.log.past| - 1].TakenAt?
         && s.row.lockedUntil == Some(s.log.past[|s.log.past| - 1].at + Lease(q))
       case FAILED_RETRYABLE =>
         && s.log.past != [] && s.log.past[|s.log.past| - 1].BackAt?
         && s.row.availableAt == s.log.past[|s.log.past| - 1].at + Wait(q, s.log.past[|s.log.past| - 1].n)
       case _ => true
  }

  lemma PacedMore(q: Queue, past: seq<Happening>, b: Happening)
    requires Paced(q, past) && (past != [] ==> InTime(q, past[|past| - 1], b))
    ensures Paced(q, past + [b])
  {
    hide InTime;
  }

  lemma PastStep(q: Queue, s: State, step: Step)
    requires (q == OUTBOX || q == LOCAL) && PastInv(q, s)
    ensures PastInv(q, Next(q, s, step))
  {
    CapsNeverBind(s.row.attempts);
    hide Delay, Pow2, Paced;
    if step.Take? && step.w !in s.claims && Claimable(s.row, s.now) { PacedMore(q, s.log.past, TakenAt(s.now)); }
    if step.MarkFailed? && s.row.status == PROCESSING { PacedMore(q, s.log.past, BackAt(s.now, s.row.attempts)); }
  }

  lemma {:induction false} PastKeeps(q: Queue, s: State, steps: seq<Step>)
    requires (q == OUTBOX || q == LOCAL) && PastInv(q, s)
    ensures PastInv(q, Run(q, s, steps))
    decreases |steps|
  {
    hide PastInv, Next;
    if steps != [] {
      PastStep(q, s, steps[0]);
      PastKeeps(q, Next(q, s, steps[0]), steps[1..]);
    }
  }

  /** In every run: between the put-back of a row claimed n times and its next claim at least
      2^min(n, 10) seconds pass, 2^min(n, 8) for the local queue; and a claimed row is claimed again only
      after 120 seconds, 180 for the local queue. */
  lemma ClaimsPaced(q: Queue, s: State, i: nat)
    requires (q == OUTBOX || q == LOCAL) && Reachable(q, s) && 0 < i < |s.log.past|
    ensures match s.log.past[i - 1]
            case BackAt(at, n) =>
              s.log.past[i].TakenAt? && at + Pow2(Min(n, if q == OUTBOX then 10 else 8)) <= s.log.past[i].at
            case TakenAt(at) =>
              s.log.past[i].TakenAt? ==> at + (if q == OUTBOX then 120 else 180) < s.log.past[i].at
  {
    hide Run;
    var s0: State, steps: seq<Step> :| Init(s0) && Run(q, s0, steps) == s;
    PastKeeps(q, s0, steps);
  }

  /** In every run a worker that asks gets the row exactly if it is new and its time has come, or it was
      put back and has waited as long as that, or its last claim is older than the lease. */
  lemma TakenExactly(q: Queue, s: State, w: WorkerId)
    requires (q == OUTBOX || q == LOCAL) && Reachable(q, s) && w !in s.claims
    ensures w in Next(q, s, Take(w)).claims <==>
              match s.row.status
              case PENDING => s.log.past == [] && s.row.availableAt <= s.now
              case FAILED_RETRYABLE =>
                && s.log.past != []
                && var last := s.log.past[|s.log.past| - 1];
                   last.BackAt? && last.at + Pow2(Min(last.n, if q == OUTBOX then 10 else 8)) <= s.now
              case PROCESSING =>
                && s.log.past != []
                && var last := s.log.past[|s.log.past| - 1];
                   last.TakenAt? && last.at + (if q == OUTBOX then 120 else 180) < s.now
              case _ => false
    ensures w in Next(q, s, Take(w)).claims ==>
              Next(q, s, Take(w)).row == Row(s.row.kind, PROCESSING, s.row.attempts + 1, s.row.availableAt,
                                             Some(s.now + if q == OUTBOX then 120 else 180))
  {
    hide Run;
    var s0: State, steps: seq<Step> :| Init(s0) && Run(q, s0, steps) == s;
    PastKeeps(q, s0, steps);
  }

  /** What a worker that may be stale does to the row: it settles it if it is being processed, by whomever,
      terminally from its own tenth attempt on; to a row that is not it does nothing. */
  lemma MarksExactly(q: Queue, s: State, w: WorkerId)
    requires (q == OUTBOX || q == LOCAL) && w in s.claims
    ensures Next(q, s, MarkDelivered(w)).row ==
            if s.claims[w].effected && s.row.status == PROCESSING
            then s.row.(status := DELIVERED, lockedUntil := None) else s.row
    ensures Next(q, s, MarkFailed(w)).row ==
            if s.row.status == PROCESSING
            then s.row.(status := if s.claims[w].attempt >= 10 then FAILED_TERMINAL else FAILED_RETRYABLE,
                        lockedUntil := None,
                        availableAt := s.now + Pow2(Min(s.row.attempts, if q == OUTBOX then 10 else 8)))
            else s.row
    ensures Next(q, s, MarkDisabled(w)).row ==
            if !s.claims[w].effected && s.row.kind == CreditDelivery
            then s.row.(status := DISABLED, lockedUntil := None) else s.row
  {
    CapsNeverBind(s.row.attempts);
  }

  /** Alone in its table a row is claimed exactly if it waits and its time has come, or its lease is over. */
  lemma AloneClaimed(row: Row, now: nat, limit: nat)
    requires limit >= 1
    ensures Oldest([row], now, limit, 1) ==
            if ((row.status == PENDING || row.status == FAILED_RETRYABLE) && row.availableAt <= now)
               || (row.status == PROCESSING && row.lockedUntil.Some? && row.lockedUntil.value < now)
            then [0] else []
  {
    assert Oldest([row], now, limit, 0) == [];
  }

  /** In every run there are at most ten claims and one more for each claim of a row whose lease had run out. */
  lemma ClaimsBounded(q: Queue, s: State)
    requires (q == OUTBOX || q == LOCAL) && Reachable(q, s)
    ensures |s.log.handed| == s.row.attempts <= 10 + s.log.taken
  {
    hide Run;
    var s0: State, steps: seq<Step> :| Init(s0) && Run(q, s0, steps) == s;
    RunKeeps(q, s0, steps);
    Within(s.log.retries, MAX_ATTEMPTS);
  }

  lemma {:induction false} RunOneMore(q: Queue, s: State, steps: seq<Step>, step: Step)
    ensures Run(q, s, steps + [step]) == Next(q, Run(q, s, steps), step)
    decreases |steps|
  {
    hide Next;
    if steps == [] {
      assert [] + [step] == [step] && [step][1..] == [];
    } else {
      assert (steps + [step])[1..] == steps[1..] + [step];
      RunOneMore(q, Next(q, s, steps[0]), steps[1..], step);
    }
  }

  lemma ReachableNext(q: Queue, s: State, step: Step)
    requires Reachable(q, s)
    ensures Reachable(q, Next(q, s, step))
  {
    hide Next, Run;
    var s0: State, steps: seq<Step> :| Init(s0) && Run(q, s0, steps) == s;
    RunOneMore(q, s0, steps, step);
  }

  /** Nobody holds the row, which has been put back after each of its `n` claims. */
  lemma {:induction false} PutBack(q: Queue, n: nat) returns (s: State)
    requires n <= 9
    ensures Reachable(q, s) && s.claims == map[] && s.row.attempts == n && s.log.taken == 0
    ensures s.row.status == if n == 0 then PENDING else FAILED_RETRYABLE
  {
    hide Reachable, Delay;
    if n == 0 {
      s := NEW_CREDIT;
      NewIsReachable(q);
    } else {
      var before := PutBack(q, n - 1);
      var waited := Next(q, before, Tick(before.row.availableAt));
      var claimed := Next(q, waited, Take(0));
      assert claimed.claims == map[0 := Claim(n, false)];
      s := Next(q, claimed, MarkFailed(0));
      assert s.claims == map[];
      ReachableNext(q, before, Tick(before.row.availableAt));
      ReachableNext(q, waited, Take(0));
      ReachableNext(q, claimed, MarkFailed(0));
    }
  }

  lemma NewIsReachable(q: Queue)
    ensures Reachable(q, NEW_CREDIT)
  {
    assert Init(NEW_CREDIT) && Run(q, NEW_CREDIT, []) == NEW_CREDIT;
  }

  /** Nine retries, a tenth claim, and then `k` claims after workers that vanished. */
  lemma {:induction false} Vanished(q: Queue, k: nat) returns (s: State)
    ensures Reachable(q, s) && s.row.status == PROCESSING && s.row.lockedUntil.Some? && s.claims == map[]
    ensures s.row.attempts == 10 + k && s.log.taken == k
  {
    hide Reachable, Delay;
    var before;
    if k == 0 { before := PutBack(q, 9); } else { before := Vanished(q, k - 1); }
    var wait := if k == 0 then before.row.availableAt else before.row.lockedUntil.value + 1;
    var waited := Next(q, before, Tick(wait));
    var claimed := Next(q, waited, Take(0));
    s := Next(q, claimed, Vanish(0));
    assert claimed.claims == map[0 := Claim(10 + k, false)];
    assert s.claims == map[];
    ReachableNext(q, before, Tick(wait));
    ReachableNext(q, waited, Take(0));
    ReachableNext(q, claimed, Vanish(0));
  }

  /** The bound is attained for every number of leases that run out. */
  lemma ClaimsAttained(q: Queue, k: nat)
    ensures exists s: State :: Reachable(q, s) && s.row.attempts == 10 + k && s.log.taken == k
  {
    hide Reachable;
    var s := Vanished(q, k);
  }

  // ---------------------------------------------------------------- absorbing states

  predicate Settled(status: Status) { status == DELIVERED || status == FAILED_TERMINAL }

  /** A step that can move a settled row: a stale worker that finds the credit provider disabled. */
  predicate Unsettles(s: State, step: Step) {
    step.MarkDisabled? && step.w in s.claims && !s.claims[step.w].effected && s.row.kind == CreditDelivery
  }

  /** A settled row moves exactly when a stale worker disables it. */
  lemma SettledExactly(q: Queue, s: State, step: Step)
    requires Settled(s.row.status)
    ensures Next(q, s, step).row.status != s.row.status <==> Unsettles(s, step)
    ensures Next(q, s, step).row.kind == s.row.kind
  {
  }

  /** For the two receipt event types DELIVERED and FAILED_TERMINAL are absorbing in every run. */
  lemma {:induction false} SettledForever(q: Queue, s: State, steps: seq<Step>)
    requires Settled(s.row.status) && s.row.kind != CreditDelivery
    ensures Run(q, s, steps).row.status == s.row.status
    decreases |steps|
  {
    hide Next;
    if steps != [] {
      SettledExactly(q, s, steps[0]);
      SettledForever(q, Next(q, s, steps[0]), steps[1..]);
    }
  }

  const NEW_CREDIT := State(Row(CreditDelivery, PENDING, 0, 0, None), 0, map[], Log([], {}, 0, [], 0, []))

  lemma DeliveredThenDisabled()
    ensures var s3 := Next(OUTBOX, Next(OUTBOX, Next(OUTBOX, NEW_CREDIT, Take(1)), Tick(121)), Take(2));
            var s5 := Next(OUTBOX, Next(OUTBOX, s3, Effect(2)), MarkDelivered(2));
            && s5.row.status == DELIVERED && Next(OUTBOX, s5, MarkDisabled(1)).row.status == DISABLED
            && Next(OUTBOX, s5, MarkDisabled(1)).log.effects == 1
  {
    var s1 := Next(OUTBOX, NEW_CREDIT, Take(1));
    var s2 := Next(OUTBOX, s1, Tick(121));
    var s3 := Next(OUTBOX, s2, Take(2));
    assert s3.claims[1] == Claim(1, false) && s3.claims[2] == Claim(2, false);
    var s4 := Next(OUTBOX, s3, Effect(2));
    assert s4.claims[2].effected && s4.claims[1] == Claim(1, false);
  }

  /** For a credit delivery they are not: its effect ran, it was delivered, and it ends DISABLED. */
  lemma DisabledAfterDelivery()
    ensures var steps := [Take(1), Tick(121), Take(2), Effect(2), MarkDelivered(2), MarkDisabled(1)];
            && Init(NEW_CREDIT) && Run(OUTBOX, NEW_CREDIT, steps[..5]).row.status == DELIVERED
            && Run(OUTBOX, NEW_CREDIT, steps).row.status == DISABLED && Run(OUTBOX, NEW_CREDIT, steps).log.effects == 1
  {
    var steps := [Take(1), Tick(121), Take(2), Effect(2), MarkDelivered(2), MarkDisabled(1)];
    var five: seq<Step> := [Take(1)] + ([Tick(121)] + ([Take(2)] + ([Effect(2)] + ([MarkDelivered(2)] + []))));
    assert steps[..5] == five;
    assert steps == [Take(1)] + ([Tick(121)] + ([Take(2)] + ([Effect(2)] + ([MarkDelivered(2)] + [MarkDisabled(1)]))));
    DeliveredThenDisabled();
    hide Next;
    Unroll(OUTBOX, NEW_CREDIT, Take(1), Tick(121), Take(2), Effect(2), MarkDelivered(2), []);
    Unroll(OUTBOX, NEW_CREDIT, Take(1), Tick(121), Take(2), Effect(2), MarkDelivered(2), [MarkDisabled(1)]);
    assert [MarkDisabled(1)][1..] == [];
  }

  lemma RunCons(q: Queue, s: State, a: Step, rest: seq<Step>)
    ensures Run(q, s, [a] + rest) == Run(q, Next(q, s, a), rest)
  {
    hide Next;
    assert ([a] + rest)[1..] == rest;
  }

  lemma Unroll(q: Queue, s: State, a: Step, b: Step, c: Step, d: Step, e: Step, rest: seq<Step>)
    ensures Run(q, s, [a] + ([b] + ([c] + ([d] + ([e] + rest))))) ==
            Run(q, Next(q, Next(q, Next(q, Next(q, Next(q, s, a), b), c), d), e), rest)
  {
    hide Next, Run;
    var s1 := Next(q, s, a);
    var s2 := Next(q, s1, b);
    var s3 := Next(q, s2, c);
    var s4 := Next(q, s3, d);
    RunCons(q, s, a, [b] + ([c] + ([d] + ([e] + rest))));
    RunCons(q, s1, b, [c] + ([d] + ([e] + rest)));
    RunCons(q, s2, c, [d] + ([e] + rest));
    RunCons(q, s3, d, [e] + rest);
    RunCons(q, s4, e, rest);
  }

  // ---------------------------------------------------------------- runs in which no lease expires

  /** A claim is taken only when nobody holds the row. */
  ghost predicate Fenced(s: State, step: Step) { step.Take? ==> s.row.status != PROCESSING }

  ghost predicate FencedRun(q: Queue, s: State, steps: seq<Step>)
    decreases |steps|
  {
    steps != [] ==> Fenced(s, steps[0]) && FencedRun(q, Next(q, s, steps[0]), steps[1..])
  }

  ghost predicate FencedReachable(q: Queue, s: State) {
    exists s0: State, steps: seq<Step> :: Init(s0) && FencedRun(q, s0, steps) && Run(q, s0, steps) == s
  }

  /** The delays scheduled after attempts 1 to n. */
  function Schedule(q: Queue, n: nat): nat { if n == 0 then 0 else Schedule(q, n - 1) + Delay(q, n) }

  function Total(waits: seq<nat>): nat { if waits == [] then 0 else Total(waits[..|waits| - 1]) + waits[|waits| - 1] }

  lemma TotalAppend(waits: seq<nat>, d: nat)
    ensures Total(waits + [d]) == Total(waits) + d
  {
    assert (waits + [d])[..|waits|] == waits;
  }

  ghost predicate OneHolder(q: Queue, s: State) {
    && (s.row.status != PROCESSING ==> s.claims == map[])
    && (forall w :: w in s.claims ==> s.claims[w].attempt == s.row.attempts)
    && (forall w, v :: w in s.claims && v in s.claims ==> w == v)
    && match s.row.status
       case PENDING => s.row.attempts == 0 && Total(s.log.waits) == 0
       case PROCESSING => 1 <= s.row.attempts <= MAX_ATTEMPTS && Total(s.log.waits) == Schedule(q, s.row.attempts - 1)
       case FAILED_RETRYABLE => 1 <= s.row.attempts < MAX_ATTEMPTS && Total(s.log.waits) == Schedule(q, s.row.attempts)
       case _ => 1 <= s.row.attempts <= MAX_ATTEMPTS && Total(s.log.waits) == Schedule(q, s.row.attempts - 1)
  }

  lemma FencedStep(q: Queue, s: State, step: Step)
    requires OneHolder(q, s) && Fenced(s, step)
    ensures OneHolder(q, Next(q, s, step))
  {
    if step.MarkFailed? { TotalAppend(s.log.waits, Delay(q, s.row.attempts)); }
    if step.Vanish? { assert s.claims == map[] ==> s.claims - {step.w} == map[]; }
  }

  lemma {:induction false} FencedKeeps(q: Queue, s: State, steps: seq<Step>)
    requires OneHolder(q, s) && FencedRun(q, s, steps)
    ensures OneHolder(q, Run(q, s, steps))
    decreases |steps|
  {
    hide OneHolder, Next, Fenced;
    if steps != [] {
      FencedStep(q, s, steps[0]);
      FencedKeeps(q, Next(q, s, steps[0]), steps[1..]);
    }
  }

  lemma {:induction false} ScheduleGrows(q: Queue, m: nat, n: nat)
    requires m <= n
    ensures Schedule(q, m) <= Schedule(q, n)
    decreases n - m
  {
    if m < n { ScheduleGrows(q, m, n - 1); }
  }

  /** If no lease expires there are at most ten claims, and the delays scheduled between them add up
      to at most 1022 seconds for the outbox and 766 seconds for the local queue. */
  lemma TenClaims(q: Queue, s: State)
    requires (q == OUTBOX || q == LOCAL) && FencedReachable(q, s)
    ensures s.row.attempts <= 10
    ensures Total(s.log.waits) <= Schedule(q, 9) == if q == OUTBOX then 1022 else 766
  {
    hide Run, FencedRun;
    var s0: State, steps: seq<Step> :| Init(s0) && FencedRun(q, s0, steps) && Run(q, s0, steps) == s;
    FencedKeeps(q, s0, steps);
    var last :=
      if s.row.status == FAILED_RETRYABLE then s.row.attempts else if s.row.attempts == 0 then 0
      else s.row.attempts - 1;
    assert last <= 9 && Total(s.log.waits) <= Schedule(q, last);
    ScheduleGrows(q, last, 9);
    ScheduleOfNine();
    hide Schedule, OneHolder;
  }

  lemma ScheduleOfNine()
    ensures Schedule(OUTBOX, 9) == 1022 && Schedule(LOCAL, 9) == 766
  {
    assert Pow2(3) == 8 && Pow2(5) == 32 && Pow2(7) == 128 && Pow2(8) == 256 && Pow2(9) == 512;
    assert Schedule(OUTBOX, 3) == 14 && Schedule(LOCAL, 3) == 14;
    assert Schedule(OUTBOX, 6) == 126 && Schedule(LOCAL, 6) == 126;
    assert Schedule(OUTBOX, 8) == 510 && Schedule(LOCAL, 8) == 510;
  }

  // With leases that expire there is no bound: a row whose workers always vanish is claimed for ever.

  ghost function Vanishing(q: Queue, n: nat): seq<Step> {
    if n == 0 then [] else [Take(0), Vanish(0), Tick(q.lease + 1)] + Vanishing(q, n - 1)
  }

  lemma {:induction false} ClaimedForever(q: Queue, s: State, n: nat)
    requires s.claims == map[] && Claimable(s.row, s.now)
    ensures Run(q, s, Vanishing(q, n)).row.attempts == s.row.attempts + n
    decreases n
  {
    if n > 0 {
      var steps := Vanishing(q, n);
      var s1 := Next(q, s, Take(0));
      var s2 := Next(q, s1, Vanish(0));
      assert s1.claims - {0} == map[];
      var s3 := Next(q, s2, Tick(q.lease + 1));
      assert steps[1..][1..][1..] == Vanishing(q, n - 1);
      assert Run(q, s, steps) == Run(q, s1, steps[1..]) == Run(q, s2, steps[1..][1..]) ==
        Run(q, s3, Vanishing(q, n - 1));
      ClaimedForever(q, s3, n - 1);
    }
  }
}
