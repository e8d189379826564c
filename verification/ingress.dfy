/** The ingress of receipt events: a reservation by request id and receipt, then the queue, then a
    release or a mark. For the PostgreSQL store the handlers of any number of requests interleave
    statement by statement; those of the in-memory store, in one process, run one after another. */
module Ingress {
  import opened Basics

  type RequestId = nat
  type ReceiptId = nat

  datatype Status = RESERVED | QUEUED | DUPLICATE

  /** `content` stands for the key id and the content hash that a request id is bound to. */
  datatype Row = Row(receipt: ReceiptId, content: nat, status: Status)

  type Rows = map<RequestId, Row>

  datatype Reservation = Reservation(duplicate: bool, status: Status, request: RequestId)

  datatype Request = Request(id: RequestId, content: nat, receipt: ReceiptId)

  datatype Answer = Accepted | Duplicate | Unavailable | Conflict

  // ---------------------------------------------------------------- the PostgreSQL store, statement by statement

  /** What a handler does next. */
  datatype Handler =
    | LooksForRequest(r: Request)
    | LooksForReceipt(r: Request)
    | Inserts(r: Request)
    | LooksAgain(r: Request)
    | Reserved(r: Request, reservation: Reservation)
    | Enqueued(r: Request, request: RequestId)
    | Failed(r: Request, request: RequestId)

  type HandlerId = nat

  /** `enqueued` and `answers` are what has happened: receipts put into the queue, and answers given for receipts. */
  datatype State =
    State(rows: Rows, handlers: map<HandlerId, Handler>, enqueued: set<ReceiptId>, answers: set<(ReceiptId, Answer)>)

  datatype Step =
    | Receive(h: HandlerId, r: Request)
    | SelectRequest(h: HandlerId)
    | SelectReceipt(h: HandlerId, found: RequestId)
    | Insert(h: HandlerId)
    | SelectAgain(h: HandlerId, found: RequestId)
    | Decide(h: HandlerId, succeeds: bool)
    | Mark(h: HandlerId)
    | Release(h: HandlerId)
    | Crash(h: HandlerId)

  ghost predicate Taken(rows: Rows, receipt: ReceiptId) { exists q :: q in rows && rows[q].receipt == receipt }

  ghost function Go(s: State, h: HandlerId, next: Handler): State { s.(handlers := s.handlers[h := next]) }

  ghost function Reply(s: State, h: HandlerId, receipt: ReceiptId, answer: Answer): State {
    s.(handlers := s.handlers - {h}, answers := s.answers + {(receipt, answer)})
  }

  /** A row was found: the handler works with its request id and its status. */
  ghost function Found(s: State, h: HandlerId, r: Request, q: RequestId): State
    requires q in s.rows
  {
    Go(s, h, Reserved(r, Reservation(true, s.rows[q].status, q)))
  }

  ghost function Next(s: State, step: Step): State {
    match step
    case Receive(h, r) => if h !in s.handlers then Go(s, h, LooksForRequest(r)) else s
    case Crash(h) => s.(handlers := s.handlers - {h})
    case _ => if step.h in s.handlers then Continue(s, step, s.handlers[step.h]) else s
  }

  ghost function Continue(s: State, step: Step, c: Handler): State {
    var h := step.h;
    match (step, c)
    case (SelectRequest(_), LooksForRequest(r)) =>
      if r.id !in s.rows then Go(s, h, LooksForReceipt(r))
      else if s.rows[r.id].content != r.content then Reply(s, h, r.receipt, Conflict)
      else Found(s, h, r, r.id)
    case (SelectReceipt(_, found), LooksForReceipt(r)) =>
      if !Taken(s.rows, r.receipt) then Go(s, h, Inserts(r))
      else if found in s.rows && s.rows[found].receipt == r.receipt then Found(s, h, r, found) else s
    case (Insert(_), Inserts(r)) =>
      if r.id !in s.rows && !Taken(s.rows, r.receipt)
      then Go(s, h, Reserved(r, Reservation(false, RESERVED, r.id))).(rows :=
        s.rows[r.id := Row(r.receipt, r.content, RESERVED)])
      else Go(s, h, LooksAgain(r))
    case (SelectAgain(_, found), LooksAgain(r)) =>
      if r.id in s.rows then
        if s.rows[r.id].content != r.content then Reply(s, h, r.receipt, Conflict) else Found(s, h, r, r.id)
      else if !Taken(s.rows, r.receipt) then Reply(s, h, r.receipt, Conflict)
      else if found in s.rows && s.rows[found].receipt == r.receipt then Found(s, h, r, found) else s
    case (Decide(_, succeeds), Reserved(r, reservation)) =>
      if reservation.duplicate && reservation.status != RESERVED then Reply(s, h, r.receipt, Duplicate)
      else if succeeds then Go(s, h, Enqueued(r, reservation.request)).(enqueued := s.enqueued + {r.receipt})
      else Go(s, h, Failed(r, reservation.request))
    case (Mark(_), Enqueued(r, q)) =>
      Reply(s, h, r.receipt, Accepted).(rows :=
        if q in s.rows then s.rows[q := s.rows[q].(status := QUEUED)] else s.rows)
    case (Release(_), Failed(r, q)) =>
      Reply(s, h, r.receipt, Unavailable).(rows :=
        if q in s.rows && s.rows[q].status == RESERVED then s.rows - {q} else s.rows)
    case _ => s
  }

  ghost function Run(s: State, steps: seq<Step>): State
    decreases |steps|
  {
    if steps == [] then s else Run(Next(s, steps[0]), steps[1..])
  }

  ghost predicate Init(s: State) { s == State(map[], map[], {}, {}) }

  /** Every positive answer is for a receipt that was enqueued. */
  ghost predicate Honest(s: State) {
    forall a :: a in s.answers && (a.1 == Accepted || a.1 == Duplicate) ==> a.0 in s.enqueued
  }

  // ---------------------------------------------------------------- honest when a request id means one receipt

  /** Requests with one id are about one receipt, the one `meaning` gives. */
  ghost predicate Meant(step: Step, meaning: RequestId -> ReceiptId) {
    step.Receive? ==> step.r.receipt == meaning(step.r.id)
  }

  ghost predicate RowsInv(rows: Rows, enqueued: set<ReceiptId>, meaning: RequestId -> ReceiptId) {
    && (forall q :: q in rows ==>
      rows[q].receipt == meaning(q) && rows[q].status != DUPLICATE
      && (rows[q].status == QUEUED ==> rows[q].receipt in enqueued))
    && (forall p, q :: p in rows && q in rows && p != q ==> rows[p].receipt != rows[q].receipt)
  }

  ghost predicate HandlerOk(c: Handler, enqueued: set<ReceiptId>, meaning: RequestId -> ReceiptId) {
    && c.r.receipt == meaning(c.r.id)
    && match c
       case Reserved(r, reservation) =>
         meaning(reservation.request) == r.receipt && reservation.status != DUPLICATE
           && (reservation.status == QUEUED ==> r.receipt in enqueued)
       case Enqueued(r, q) => meaning(q) == r.receipt && r.receipt in enqueued
       case _ => true
  }

  ghost predicate HonestInv(s: State, meaning: RequestId -> ReceiptId) {
    && RowsInv(s.rows, s.enqueued, meaning)
    && (forall h :: h in s.handlers ==> HandlerOk(s.handlers[h], s.enqueued, meaning))
    && Honest(s)
  }

  lemma EndsHonest(s: State, step: Step, meaning: RequestId -> ReceiptId)
    requires HonestInv(s, meaning) && (step.Decide? || step.Mark? || step.Release? || step.Crash?)
    ensures HonestInv(Next(s, step), meaning)
  {
    if step.h in s.handlers { assert HandlerOk(s.handlers[step.h], s.enqueued, meaning); }
  }

  lemma ReservesHonest(s: State, step: Step, meaning: RequestId -> ReceiptId)
    requires HonestInv(s, meaning) && Meant(step, meaning)
             && !(step.Decide? || step.Mark? || step.Release? || step.Crash?)
    ensures HonestInv(Next(s, step), meaning)
  {
    if step.h in s.handlers { assert HandlerOk(s.handlers[step.h], s.enqueued, meaning); }
  }

  lemma StepHonest(s: State, step: Step, meaning: RequestId -> ReceiptId)
    requires HonestInv(s, meaning) && Meant(step, meaning)
    ensures HonestInv(Next(s, step), meaning)
  {
    hide HonestInv, Next, Meant;
    if step.Decide? || step.Mark? || step.Release? || step.Crash? {
      EndsHonest(s, step, meaning);
    } else {
      ReservesHonest(s, step, meaning);
    }
  }

  lemma {:induction false} RunHonest(s: State, steps: seq<Step>, meaning: RequestId -> ReceiptId)
    requires HonestInv(s, meaning) && forall step :: step in steps ==> Meant(step, meaning)
    ensures HonestInv(Run(s, steps), meaning)
    decreases |steps|
  {
    hide HonestInv, Next, Meant;
    if steps != [] {
      assert steps[0] in steps;
      StepHonest(s, steps[0], meaning);
      RunHonest(Next(s, steps[0]), steps[1..], meaning);
    }
  }

  /** Any interleaving of any number of handlers, with queue failures, crashes and late releases: if
      a request id is never used for two receipts, "accepted" and "duplicate" are true, and no
      receipt is reserved twice. */
  lemma AnswersHonest(s0: State, steps: seq<Step>, meaning: RequestId -> ReceiptId)
    requires Init(s0) && forall step :: step in steps ==> Meant(step, meaning)
    ensures Honest(Run(s0, steps))
    ensures var rows := Run(s0, steps).rows;
            forall p, q :: p in rows && q in rows && rows[p].receipt == rows[q].receipt ==> p == q
  {
    hide Run;
    RunHonest(s0, steps, meaning);
  }

  // ---------------------------------------------------------------- and only then

  lemma RunCons(s: State, a: Step, rest: seq<Step>)
    ensures Run(s, [a] + rest) == Run(Next(s, a), rest)
  {
    hide Next;
    assert ([a] + rest)[1..] == rest;
  }

  function Four(a: Step, b: Step, c: Step, d: Step, rest: seq<Step>): seq<Step> { [a] + ([b] + ([c] + ([d] + rest))) }

  lemma RunFour(s: State, a: Step, b: Step, c: Step, d: Step, rest: seq<Step>)
    ensures Run(s, Four(a, b, c, d, rest)) == Run(Next(Next(Next(Next(s, a), b), c), d), rest)
  {
    hide Next;
    RunCons(s, a, [b] + ([c] + ([d] + rest)));
    RunCons(Next(s, a), b, [c] + ([d] + rest));
    RunCons(Next(Next(s, a), b), c, [d] + rest);
    RunCons(Next(Next(Next(s, a), b), c), d, rest);
  }

  /** Two handlers of request `x`; the first reserves and cannot enqueue, the second can but is slow.
      Meanwhile the id is used again for the receipt of `y`. */
  ghost function Reuse(x: Request, y: Request): seq<Step> {
    Four(Receive(1, x), SelectRequest(1), SelectReceipt(1, 0), Insert(1),
    Four(Receive(2, x), SelectRequest(2), Decide(2, true), Decide(1, false),
    Four(Release(1), Receive(3, y), SelectRequest(3), SelectReceipt(3, 0),
    Four(Insert(3), Mark(2), Receive(4, y), SelectRequest(4), [Decide(4, false)] + []))))
  }

  lemma ReuseFirst(x: Request)
    ensures Next(Next(Next(Next(State(map[], map[], {}, {}), Receive(1, x)), SelectRequest(1)), SelectReceipt(1, 0)),
            Insert(1)) ==
            State(map[x.id := Row(x.receipt, x.content, RESERVED)],
              map[1 := Reserved(x, Reservation(false, RESERVED, x.id))], {}, {})
  {
    var s1 := Next(State(map[], map[], {}, {}), Receive(1, x));
    assert s1.handlers == map[1 := LooksForRequest(x)];
    var s2 := Next(s1, SelectRequest(1));
    assert s2.handlers == map[1 := LooksForReceipt(x)];
    var s3 := Next(s2, SelectReceipt(1, 0));
    assert s3.handlers == map[1 := Inserts(x)];
    var s4 := Next(s3, Insert(1));
    assert s4.handlers == map[1 := Reserved(x, Reservation(false, RESERVED, x.id))];
    assert s4.rows == map[x.id := Row(x.receipt, x.content, RESERVED)];
  }

  lemma ReuseSecond(s: State, x: Request)
    requires s ==
             State(map[x.id := Row(x.receipt, x.content, RESERVED)],
             map[1 := Reserved(x, Reservation(false, RESERVED, x.id))], {}, {})
    ensures Next(Next(Next(Next(s, Receive(2, x)), SelectRequest(2)), Decide(2, true)), Decide(1, false)) ==
            State(s.rows, map[1 := Failed(x, x.id), 2 := Enqueued(x, x.id)], {x.receipt}, {})
  {
    var s1 := Next(s, Receive(2, x));
    assert s1.handlers[2] == LooksForRequest(x);
    var s2 := Next(s1, SelectRequest(2));
    assert s2.handlers[2] == Reserved(x, Reservation(true, RESERVED, x.id));
    var s3 := Next(s2, Decide(2, true));
    assert s3.enqueued == {x.receipt};
    var s4 := Next(s3, Decide(1, false));
    assert s4.handlers == map[1 := Failed(x, x.id), 2 := Enqueued(x, x.id)];
  }

  lemma ReuseThird(s: State, x: Request, y: Request)
    requires s ==
             State(map[x.id := Row(x.receipt, x.content, RESERVED)], map[1 := Failed(x, x.id), 2 := Enqueued(x, x.id)],
             {x.receipt}, {})
    requires y.id == x.id && y.receipt != x.receipt
    ensures Next(Next(Next(Next(s, Release(1)), Receive(3, y)), SelectRequest(3)), SelectReceipt(3, 0)) ==
            State(map[], map[2 := Enqueued(x, x.id), 3 := Inserts(y)], {x.receipt}, {(x.receipt, Unavailable)})
  {
    var s1 := Next(s, Release(1));
    assert s1.rows == map[] && s1.handlers == map[2 := Enqueued(x, x.id)];
    var s2 := Next(s1, Receive(3, y));
    assert s2.handlers == map[2 := Enqueued(x, x.id), 3 := LooksForRequest(y)];
    var s3 := Next(s2, SelectRequest(3));
    assert s3.handlers == map[2 := Enqueued(x, x.id), 3 := LooksForReceipt(y)];
    var s4 := Next(s3, SelectReceipt(3, 0));
    assert s4.handlers == map[2 := Enqueued(x, x.id), 3 := Inserts(y)];
  }

  lemma ReuseLast(s: State, x: Request, y: Request)
    requires s == State(map[], map[2 := Enqueued(x, x.id), 3 := Inserts(y)], {x.receipt}, {(x.receipt, Unavailable)})
    requires y.id == x.id && y.receipt != x.receipt
    ensures var s' :=
            Next(Next(Next(Next(Next(s, Insert(3)), Mark(2)), Receive(4, y)), SelectRequest(4)), Decide(4, false));
            (y.receipt, Duplicate) in s'.answers && s'.enqueued == {x.receipt}
  {
    var s1 := Next(s, Insert(3));
    assert s1.rows == map[y.id := Row(y.receipt, y.content, RESERVED)];
    var s2 := Next(s1, Mark(2));
    assert s2.rows == map[y.id := Row(y.receipt, y.content, QUEUED)];
    var s3 := Next(s2, Receive(4, y));
    var s4 := Next(s3, SelectRequest(4));
    assert s4.handlers[4] == Reserved(y, Reservation(true, QUEUED, y.id));
  }

  /** For every request id used for two different receipts there is a run in which the second is
      answered "duplicate" and is not in the queue. */
  lemma ReusedIdLies(x: Request, y: Request)
    requires x.id == y.id && x.receipt != y.receipt
    ensures !Honest(Run(State(map[], map[], {}, {}), Reuse(x, y)))
  {
    hide Next, Run;
    var s0 := State(map[], map[], {}, {});
    var s4 := State(map[x.id := Row(x.receipt, x.content, RESERVED)],
      map[1 := Reserved(x, Reservation(false, RESERVED, x.id))], {}, {});
    var s8 := State(s4.rows, map[1 := Failed(x, x.id), 2 := Enqueued(x, x.id)], {x.receipt}, {});
    var s12 := State(map[], map[2 := Enqueued(x, x.id), 3 := Inserts(y)], {x.receipt}, {(x.receipt, Unavailable)});
    ReuseFirst(x);
    ReuseSecond(s4, x);
    ReuseThird(s8, x, y);
    ReuseLast(s12, x, y);
    var last := [Decide(4, false)] + [];
    var tail := Four(Insert(3), Mark(2), Receive(4, y), SelectRequest(4), last);
    var third := Four(Release(1), Receive(3, y), SelectRequest(3), SelectReceipt(3, 0), tail);
    var second := Four(Receive(2, x), SelectRequest(2), Decide(2, true), Decide(1, false), third);
    RunFour(s0, Receive(1, x), SelectRequest(1), SelectReceipt(1, 0), Insert(1), second);
    RunFour(s4, Receive(2, x), SelectRequest(2), Decide(2, true), Decide(1, false), third);
    RunFour(s8, Release(1), Receive(3, y), SelectRequest(3), SelectReceipt(3, 0), tail);
    RunFour(s12, Insert(3), Mark(2), Receive(4, y), SelectRequest(4), last);
    var s16 := Next(Next(Next(Next(s12, Insert(3)), Mark(2)), Receive(4, y)), SelectRequest(4));
    RunCons(s16, Decide(4, false), []);
    RunNothing(Next(s16, Decide(4, false)));
    assert (y.receipt, Duplicate) in Run(s0, Reuse(x, y)).answers;
  }

  lemma RunNothing(s: State)
    ensures Run(s, []) == s
  {
  }

  const NOTHING := State(map[], map[], {}, {})

  /** All requests of the run are among those of `sent`. */
  ghost predicate Sends(steps: seq<Step>, sent: set<Request>) {
    forall step :: step in steps && step.Receive? ==> step.r in sent
  }

  ghost function MeaningIn(sent: set<Request>, id: RequestId): ReceiptId {
    if exists x :: x in sent && x.id == id then var x :| x in sent && x.id == id; x.receipt else 0
  }

  /** For every set of requests: all answers are honest in all runs in which they are sent, in any order,
      number and interleaving, exactly if no two of them have one id and different receipts. */
  lemma HonestExactly(sent: set<Request>)
    ensures (forall steps: seq<Step> :: Sends(steps, sent) ==> Honest(Run(NOTHING, steps))) <==>
            (forall x, y :: x in sent && y in sent && x.id == y.id ==> x.receipt == y.receipt)
  {
    hide Run, Honest;
    if x, y :| x in sent && y in sent && x.id == y.id && x.receipt != y.receipt {
      ReusedIdLies(x, y);
      ReuseSends(x, y, sent);
    } else {
      var meaning: RequestId -> ReceiptId := id => MeaningIn(sent, id);
      forall steps: seq<Step> | Sends(steps, sent) ensures Honest(Run(NOTHING, steps)) {
        AnswersHonest(NOTHING, steps, meaning);
      }
    }
  }

  lemma ReuseSends(x: Request, y: Request, sent: set<Request>)
    requires x in sent && y in sent
    ensures Sends(Reuse(x, y), sent)
  {
  }

  // ---------------------------------------------------------------- the PostgreSQL store, one transaction at a time

  class PostgresIngressStore {
    var rows: Rows

    /** The unique index on the receipt. */
    ghost predicate Valid()
      reads this
    {
      forall p, q :: p in rows && q in rows && p != q ==> rows[p].receipt != rows[q].receipt
    }

    /** The reservation of the row that has the request id, else of the row that has the receipt, else a new one. */
    method Reserve(r: Request) returns (reservation: Option<Reservation>)
      requires Valid()
      modifies `rows
      ensures Valid()
      ensures reservation.None? <==> r.id in old(rows) && old(rows)[r.id].content != r.content
      ensures r.id in old(rows) || Taken(old(rows), r.receipt) ==> rows == old(rows)
      ensures r.id in old(rows) && reservation.Some? ==>
        reservation.value == Reservation(true, old(rows)[r.id].status, r.id)
      ensures r.id !in old(rows) && Taken(old(rows), r.receipt) ==>
                var found := reservation.value.request;
                found in rows && rows[found].receipt == r.receipt
                  && reservation == Some(Reservation(true, rows[found].status, found))
      ensures r.id !in old(rows) && !Taken(old(rows), r.receipt) ==>
                reservation == Some(Reservation(false, RESERVED, r.id))
                  && rows == old(rows)[r.id := Row(r.receipt, r.content, RESERVED)]
    {
      if r.id in rows {
        if rows[r.id].content != r.content { return None; }
        return Some(Reservation(true, rows[r.id].status, r.id));
      }
      if q :| q in rows && rows[q].receipt == r.receipt {
        return Some(Reservation(true, rows[q].status, q));
      }
      rows := rows[r.id := Row(r.receipt, r.content, RESERVED)];
      reservation := Some(Reservation(false, RESERVED, r.id));
    }

    method MarkQueued(q: RequestId)
      requires Valid()
      modifies `rows
      ensures Valid() && rows == if q in old(rows) then old(rows)[q := old(rows)[q].(status := QUEUED)] else old(rows)
    {
      if q in rows { rows := rows[q := rows[q].(status := QUEUED)]; }
    }

    /** Only a reservation that is not queued yet is released. */
    method Release(q: RequestId)
      requires Valid()
      modifies `rows
      ensures Valid()
              && rows == if q in old(rows) && old(rows)[q].status == RESERVED then old(rows) - {q} else old(rows)
    {
      if q in rows && rows[q].status == RESERVED { rows := rows - {q}; }
    }
  }

  // ---------------------------------------------------------------- the in-memory store

  datatype Entry = Entry(status: Status, task: Option<ReceiptId>, content: nat)

  datatype Memory = Memory(
    requests: map<RequestId, Entry>, requestReceipts: map<RequestId, ReceiptId>, receipts: set<ReceiptId>)

  /** None when the request id is known with other content. */
  function ReserveIn(m: Memory, r: Request): (Memory, Option<Reservation>) {
    if r.id in m.requests then
      (m, if m.requests[r.id].content != r.content then None
        else Some(Reservation(true, m.requests[r.id].status, r.id)))
    else if r.receipt in m.receipts then
      (m.(requests := m.requests[r.id := Entry(DUPLICATE, Some(r.receipt), r.content)]),
       Some(Reservation(true, DUPLICATE, r.id)))
    else
      (Memory(m.requests[r.id := Entry(RESERVED, None, r.content)], m.requestReceipts[r.id := r.receipt],
              m.receipts + {r.receipt}),
       Some(Reservation(false, RESERVED, r.id)))
  }

  /** Nothing where the lookup of an unknown request raises. */
  function QueuedIn(m: Memory, q: RequestId, task: ReceiptId): Memory {
    if q in m.requests then m.(requests := m.requests[q := Entry(QUEUED, Some(task), m.requests[q].content)]) else m
  }

  function ReleasedIn(m: Memory, q: RequestId): Memory {
    Memory(m.requests - {q}, m.requestReceipts - {q},
           m.receipts - (if q in m.requestReceipts then {m.requestReceipts[q]} else {}))
  }

  /** One handler from start to end. It awaits nothing after it has read its body, so in one process no
      other handler comes between its reservation and its mark or release. */
  function Handled(m: Memory, r: Request, succeeds: bool): (Memory, Answer) {
    var (m', reservation) := ReserveIn(m, r);
    if reservation.None? then (m', Conflict)
    else if reservation.value.duplicate && reservation.value.status != RESERVED then (m', Duplicate)
    else if !succeeds then (ReleasedIn(m', reservation.value.request), Unavailable)
    else (QueuedIn(m', reservation.value.request, r.receipt), Accepted)
  }

  class MemoryEventQueue {
    var events: seq<ReceiptId>

    constructor ()
      ensures events == []
    {
      events := [];
    }

    method Enqueue(receipt: ReceiptId) returns (task: ReceiptId)
      modifies this
      ensures events == old(events) + [receipt] && task == receipt
    {
      events := events + [receipt];
      task := receipt;
    }
  }

  class MemoryIngressStore {
    var requests: map<RequestId, Entry>
    var requestReceipts: map<RequestId, ReceiptId>
    var receipts: set<ReceiptId>

    /** Exactly the receipts of the reserving requests are reserved, each by one request. */
    ghost predicate Valid()
      reads this
    {
      && receipts == requestReceipts.Values
      && requestReceipts.Keys <= requests.Keys
      && forall p, q :: p in requestReceipts && q in requestReceipts && p != q ==>
        requestReceipts[p] != requestReceipts[q]
    }

    constructor ()
      ensures Valid() && requests == map[] && receipts == {}
    {
      requests, requestReceipts, receipts := map[], map[], {};
    }

    ghost function View(): Memory
      reads this
    {
      Memory(requests, requestReceipts, receipts)
    }

    method Reserve(r: Request) returns (reservation: Option<Reservation>)
      requires Valid()
      modifies this
      ensures Valid()
      ensures (View(), reservation) == ReserveIn(old(View()), r)
    {
      if r.id in requests {
        if requests[r.id].content != r.content { return None; }
        return Some(Reservation(true, requests[r.id].status, r.id));
      }
      if r.receipt in receipts {
        requests := requests[r.id := Entry(DUPLICATE, Some(r.receipt), r.content)];
        return Some(Reservation(true, DUPLICATE, r.id));
      }
      requests := requests[r.id := Entry(RESERVED, None, r.content)];
      ghost var before := requestReceipts;
      requestReceipts := requestReceipts[r.id := r.receipt];
      receipts := receipts + {r.receipt};
      AddedValue(before, r.id, r.receipt);
      reservation := Some(Reservation(false, RESERVED, r.id));
    }

    /** False where the lookup of an unknown request raises. */
    method MarkQueued(q: RequestId, task: ReceiptId) returns (ok: bool)
      requires Valid()
      modifies `requests
      ensures Valid() && (ok <==> q in old(requests))
      ensures View() == QueuedIn(old(View()), q, task)
    {
      ok := q in requests;
      if ok { requests := requests[q := Entry(QUEUED, Some(task), requests[q].content)]; }
    }

    /** The request is forgotten and exactly the receipt it had reserved is free again. */
    method Release(q: RequestId)
      requires Valid()
      modifies this
      ensures Valid() && View() == ReleasedIn(old(View()), q)
    {
      requests := requests - {q};
      if q in requestReceipts {
        receipts := receipts - {requestReceipts[q]};
        RemovedValue(requestReceipts, q);
        requestReceipts := requestReceipts - {q};
      } else {
        assert requestReceipts - {q} == requestReceipts;
      }
    }

    /** The whole handler. */
    method ReceiptEvent(queue: MemoryEventQueue, r: Request, succeeds: bool) returns (answer: Answer)
      requires Valid()
      modifies this, queue
      ensures Valid() && (View(), answer) == Handled(old(View()), r, succeeds)
      ensures answer == Accepted ==> queue.events == old(queue.events) + [r.receipt]
      ensures answer != Accepted ==> queue.events == old(queue.events)
      ensures answer == Unavailable ==> r.id !in requests
    {
      var reservation := Reserve(r);
      if reservation.None? { return Conflict; }
      if reservation.value.duplicate && reservation.value.status != RESERVED { return Duplicate; }
      if !succeeds {
        Release(reservation.value.request);
        return Unavailable;
      }
      var task := queue.Enqueue(r.receipt);
      var ok := MarkQueued(reservation.value.request, task);
      answer := Accepted;
    }
  }

  // ---------------------------------------------------------------- handlers one after another

  /** One event of the in-memory service, and whether the queue takes it. */
  datatype Call = Call(r: Request, succeeds: bool)

  /** The store with what has happened: receipts put into the queue, and answers given for receipts. */
  datatype Service = Service(m: Memory, enqueued: set<ReceiptId>, answers: set<(ReceiptId, Answer)>)

  function Served(s: Service, call: Call): Service {
    var (m', answer) := Handled(s.m, call.r, call.succeeds);
    Service(m',
      if answer == Accepted then s.enqueued + {call.r.receipt} else s.enqueued, s.answers + {(call.r.receipt, answer)})
  }

  function ServedAll(s: Service, calls: seq<Call>): Service
    decreases |calls|
  {
    if calls == [] then s else ServedAll(Served(s, calls[0]), calls[1..])
  }

  const UNUSED := Service(Memory(map[], map[], {}), {}, {})

  /** Every "accepted" and every "duplicate" is true. */
  ghost predicate TrueAnswers(s: Service) {
    forall receipt, answer :: (receipt, answer) in s.answers && (answer == Accepted || answer == Duplicate) ==>
      receipt in s.enqueued
  }

  ghost predicate Calls(calls: seq<Call>, sent: set<Request>) { forall call :: call in calls ==> call.r in sent }

  /** An id with its content stands for one receipt. */
  ghost predicate OneReceiptEach(sent: set<Request>) {
    forall x, y :: x in sent && y in sent && x.id == y.id && x.content == y.content ==> x.receipt == y.receipt
  }

  /** Between two handlers every known request is settled and about a receipt that is in the queue, and
      so is every reserved receipt. */
  ghost predicate ServiceInv(s: Service, sent: set<Request>) {
    && TrueAnswers(s) && s.m.receipts <= s.enqueued
    && forall q :: q in s.m.requests ==>
         && s.m.requests[q].status != RESERVED
         && exists x :: x in sent && x.id == q && x.content == s.m.requests[q].content && x.receipt in s.enqueued
  }

  lemma ServedKeeps(s: Service, call: Call, sent: set<Request>)
    requires ServiceInv(s, sent) && OneReceiptEach(sent) && call.r in sent
    ensures ServiceInv(Served(s, call), sent)
  {
    var s' := Served(s, call);
    forall q | q in s'.m.requests
      ensures s'.m.requests[q].status != RESERVED
      ensures exists x :: x in sent && x.id == q && x.content == s'.m.requests[q].content && x.receipt in s'.enqueued
    {
      if q in s.m.requests {
        var x :| x in sent && x.id == q && x.content == s.m.requests[q].content && x.receipt in s.enqueued;
        assert x.receipt in s'.enqueued;
      } else {
        assert call.r.id == q && call.r.receipt in s'.enqueued;
      }
    }
  }

  lemma {:induction false} AllServedKeep(s: Service, calls: seq<Call>, sent: set<Request>)
    requires ServiceInv(s, sent) && OneReceiptEach(sent) && Calls(calls, sent)
    ensures ServiceInv(ServedAll(s, calls), sent)
    decreases |calls|
  {
    hide ServiceInv, Served, OneReceiptEach;
    if calls != [] {
      assert calls[0] in calls;
      ServedKeeps(s, calls[0], sent);
      AllServedKeep(Served(s, calls[0]), calls[1..], sent);
    }
  }

  /** For every set of requests: all answers of the in-memory service are true, in whatever order and
      number they are handled and whatever the queue does, exactly if no two of them have one id and
      one content and different receipts. */
  lemma MemoryHonestExactly(sent: set<Request>)
    ensures (forall calls: seq<Call> :: Calls(calls, sent) ==> TrueAnswers(ServedAll(UNUSED, calls))) <==>
      OneReceiptEach(sent)
  {
    if OneReceiptEach(sent) {
      hide ServedAll;
      forall calls: seq<Call> | Calls(calls, sent) ensures TrueAnswers(ServedAll(UNUSED, calls)) {
        AllServedKeep(UNUSED, calls, sent);
      }
    } else {
      var x, y :| x in sent && y in sent && x.id == y.id && x.content == y.content && x.receipt != y.receipt;
      var calls := [Call(x, true), Call(y, true)];
      assert Calls(calls, sent);
      SecondLies(x, y);
    }
  }

  lemma SecondLies(x: Request, y: Request)
    requires x.id == y.id && x.content == y.content && x.receipt != y.receipt
    ensures !TrueAnswers(ServedAll(UNUSED, [Call(x, true), Call(y, true)]))
  {
    var s1 := Served(UNUSED, Call(x, true));
    assert s1.m.requests == map[x.id := Entry(QUEUED, Some(x.receipt), x.content)] && s1.enqueued == {x.receipt};
    var s2 := Served(s1, Call(y, true));
    assert (y.receipt, Duplicate) in s2.answers && s2.enqueued == {x.receipt};
    var calls := [Call(x, true), Call(y, true)];
    assert calls[1..][1..] == [] && calls[1..][0] == Call(y, true);
    assert ServedAll(UNUSED, calls) == ServedAll(s1, calls[1..]) == ServedAll(s2, []);
  }

  lemma AddedValue(m: map<RequestId, ReceiptId>, q: RequestId, receipt: ReceiptId)
    requires q !in m
    ensures m[q := receipt].Values == m.Values + {receipt}
  {
    var m' := m[q := receipt];
    assert m'[q] == receipt;
    forall x | x in m.Values ensures x in m'.Values {
      var k :| k in m && m[k] == x;
      assert m'[k] == x;
    }
  }

  lemma RemovedValue(m: map<RequestId, ReceiptId>, q: RequestId)
    requires q in m && forall k :: k in m && k != q ==> m[k] != m[q]
    ensures (m - {q}).Values == m.Values - {m[q]}
  {
    var m' := m - {q};
    forall x | x in m.Values - {m[q]} ensures x in m'.Values {
      var k :| k in m && m[k] == x;
      assert m'[k] == x;
    }
  }

  // ---------------------------------------------------------------- which answer is given

  /** The answer to call `i`. */
  function AnswerTo(calls: seq<Call>, i: nat): Answer
    requires i < |calls|
  {
    Handled(ServedAll(UNUSED, calls[..i]).m, calls[i].r, calls[i].succeeds).1
  }

  predicate Positive(answer: Answer) { answer == Accepted || answer == Duplicate }

  /** An earlier call than `k` with this id got a positive answer. */
  ghost predicate Bound(calls: seq<Call>, k: nat, id: RequestId, content: nat)
    requires k <= |calls|
  {
    exists j: nat :: j < k && calls[j].r.id == id && calls[j].r.content == content && Positive(AnswerTo(calls, j))
  }

  ghost predicate Queued(calls: seq<Call>, k: nat, receipt: ReceiptId)
    requires k <= |calls|
  {
    exists j: nat :: j < k && calls[j].r.receipt == receipt && AnswerTo(calls, j) == Accepted
  }

  lemma {:induction false} ServedOneMore(s: Service, calls: seq<Call>, call: Call)
    ensures ServedAll(s, calls + [call]) == Served(ServedAll(s, calls), call)
    decreases |calls|
  {
    hide Served;
    if calls == [] {
      assert [] + [call] == [call] && [call][1..] == [];
    } else {
      assert (calls + [call])[1..] == calls[1..] + [call];
      ServedOneMore(Served(s, calls[0]), calls[1..], call);
    }
  }

  predicate Knows(m: Memory, id: RequestId, content: nat) { id in m.requests && m.requests[id].content == content }

  /** What the store knows is what was answered. */
  ghost predicate Remembers(calls: seq<Call>, k: nat, m: Memory)
    requires k <= |calls|
  {
    && (forall id, content :: Knows(m, id, content) <==> Bound(calls, k, id, content))
    && (forall id :: id in m.requests ==> m.requests[id].status != RESERVED)
    && (forall receipt :: receipt in m.receipts <==> Queued(calls, k, receipt))
  }

  lemma BoundMore(calls: seq<Call>, k: nat, id: RequestId, content: nat, receipt: ReceiptId)
    requires k < |calls|
    ensures Bound(calls, k + 1, id, content) <==>
              || Bound(calls, k, id, content)
              || (calls[k].r.id == id && calls[k].r.content == content && Positive(AnswerTo(calls, k)))
    ensures Queued(calls, k + 1, receipt) <==>
              Queued(calls, k, receipt) || (calls[k].r.receipt == receipt && AnswerTo(calls, k) == Accepted)
  {
    hide AnswerTo;
    if j: nat :| j < k + 1 && calls[j].r.id == id && calls[j].r.content == content && Positive(AnswerTo(calls, j)) {
      assert j == k || Bound(calls, k, id, content);
    }
    if j: nat :| j < k + 1 && calls[j].r.receipt == receipt && AnswerTo(calls, j) == Accepted {
      assert j == k || Queued(calls, k, receipt);
    }
  }

  lemma {:induction false} StoreRemembers(calls: seq<Call>, k: nat)
    requires k <= |calls|
    ensures Remembers(calls, k, ServedAll(UNUSED, calls[..k]).m)
  {
    if k > 0 {
      var m := ServedAll(UNUSED, calls[..k - 1]).m;
      var call := calls[k - 1];
      StoreRemembers(calls, k - 1);
      assert calls[..k] == calls[..k - 1] + [call];
      ServedOneMore(UNUSED, calls[..k - 1], call);
      HandlingRemembers(calls, k - 1, m);
    } else {
      assert calls[..0] == [];
    }
  }

  /** What one handler adds to what the store knows. */
  lemma HandledKnows(m: Memory, r: Request, succeeds: bool, id: RequestId, content: nat, receipt: ReceiptId)
    requires forall q :: q in m.requests ==> m.requests[q].status != RESERVED
    ensures var (m', answer) := Handled(m, r, succeeds);
            && (Knows(m', id, content) <==>
                  Knows(m, id, content) || (r.id == id && r.content == content && Positive(answer)))
            && (receipt in m'.receipts <==> receipt in m.receipts || (r.receipt == receipt && answer == Accepted))
            && forall q :: q in m'.requests ==> m'.requests[q].status != RESERVED
  {
  }

  lemma HandlingRemembers(calls: seq<Call>, k: nat, m: Memory)
    requires k < |calls| && Remembers(calls, k, m) && m == ServedAll(UNUSED, calls[..k]).m
    ensures Remembers(calls, k + 1, Handled(m, calls[k].r, calls[k].succeeds).0)
  {
    assert AnswerTo(calls, k) == Handled(m, calls[k].r, calls[k].succeeds).1;
    hide Bound, Queued, ServedAll, AnswerTo, Handled, Knows;
    var r, succeeds := calls[k].r, calls[k].succeeds;
    var m' := Handled(m, r, succeeds).0;
    HandledKnows(m, r, succeeds, 0, 0, 0);
    forall id, content ensures Knows(m', id, content) <==> Bound(calls, k + 1, id, content) {
      BoundMore(calls, k, id, content, 0);
      HandledKnows(m, r, succeeds, id, content, 0);
    }
    forall receipt ensures receipt in m'.receipts <==> Queued(calls, k + 1, receipt) {
      BoundMore(calls, k, 0, 0, receipt);
      HandledKnows(m, r, succeeds, 0, 0, receipt);
    }
  }

  /** The answer to every event: of a request id that was answered positively before, "duplicate" for the
      same content and a conflict for other content; otherwise "duplicate" if the receipt was accepted
      before; otherwise "accepted" if the queue takes it, and "unavailable" if not. */
  lemma AnsweredExactly(calls: seq<Call>, i: nat)
    requires i < |calls|
    ensures var r := calls[i].r;
            AnswerTo(calls, i) ==
              if Bound(calls, i, r.id, r.content) then Duplicate
              else if exists content :: Bound(calls, i, r.id, content) then Conflict
              else if Queued(calls, i, r.receipt) then Duplicate
              else if calls[i].succeeds then Accepted else Unavailable
  {
    var r := calls[i].r;
    var m := ServedAll(UNUSED, calls[..i]).m;
    StoreRemembers(calls, i);
    hide Bound, Queued, ServedAll;
    assert Bound(calls, i, r.id, r.content) <==> Knows(m, r.id, r.content);
    if r.id in m.requests { assert Knows(m, r.id, m.requests[r.id].content); }
  }

  lemma RunSeven(s: State, a: Step, b: Step, c: Step, d: Step, e: Step, f: Step, g: Step)
    ensures Run(s, [a, b, c, d, e, f, g]) == Next(Next(Next(Next(Next(Next(Next(s, a), b), c), d), e), f), g)
  {
    hide Next;
    var steps := [a, b, c, d, e, f, g];
    assert steps[1..] == [b, c, d, e, f, g] && steps[1..][1..] == [c, d, e, f, g];
    assert [c, d, e, f, g][1..] == [d, e, f, g] && [d, e, f, g][1..] == [e, f, g];
    assert [e, f, g][1..] == [f, g] && [f, g][1..] == [g] && [g][1..] == [];
    var s5 := Next(Next(Next(Next(s, a), b), c), d);
    assert Run(s, steps) == Run(Next(s, a), [b, c, d, e, f, g]) == Run(Next(Next(s, a), b), [c, d, e, f, g]);
    assert Run(s5, [e, f, g]) == Run(Next(s5, e), [f, g]) == Run(Next(Next(s5, e), f), [g]);
  }

  /** A handler of the PostgreSQL store that no other one disturbs: from a table in which each receipt has one
      row, it answers a conflict to other content under a known id; else with the row of its id, or of its
      receipt, or its own: "duplicate" if that is queued, and if not "accepted" with the row queued, or
      "unavailable" with the row gone. */
  lemma LoneHandler(rows: Rows, r: Request, found: RequestId, succeeds: bool)
    requires forall q :: q in rows ==> rows[q].status == RESERVED || rows[q].status == QUEUED
    requires Taken(rows, r.receipt) ==> found in rows && rows[found].receipt == r.receipt
    ensures var steps := [Receive(0, r), SelectRequest(0), SelectReceipt(0, found), Insert(0), Decide(0, succeeds),
                          Mark(0), Release(0)];
            var q := if r.id in rows || !Taken(rows, r.receipt) then r.id else found;
            var row := if q in rows then rows[q] else Row(r.receipt, r.content, RESERVED);
            Run(State(rows, map[], {}, {}), steps) ==
              if r.id in rows && rows[r.id].content != r.content
              then State(rows, map[], {}, {(r.receipt, Conflict)})
              else if row.status == QUEUED then State(rows, map[], {}, {(r.receipt, Duplicate)})
              else if succeeds
              then State(rows[q := row.(status := QUEUED)], map[], {r.receipt}, {(r.receipt, Accepted)})
              else State(rows - {q}, map[], {}, {(r.receipt, Unavailable)})
  {
    RunSeven(State(rows, map[], {}, {}), Receive(0, r), SelectRequest(0), SelectReceipt(0, found), Insert(0),
             Decide(0, succeeds), Mark(0), Release(0));
    hide Run, Next;
    LoneReserves(rows, r, found);
    if !(r.id in rows && rows[r.id].content != r.content) {
      var q := if r.id in rows || !Taken(rows, r.receipt) then r.id else found;
      LoneReserved(rows, q, if q in rows then rows[q] else Row(r.receipt, r.content, RESERVED), r, succeeds);
    } else {
      NothingLeft(State(rows, map[], {}, {(r.receipt, Conflict)}), Decide(0, succeeds), Mark(0), Release(0));
    }
  }

  lemma NothingLeft(s: State, a: Step, b: Step, c: Step)
    requires s.handlers == map[] && !a.Receive? && !b.Receive? && !c.Receive?
    ensures Next(Next(Next(s, a), b), c) == s
  {
    assert forall h: HandlerId :: s.handlers - {h} == s.handlers;
  }

  /** The four statements up to the reservation. */
  lemma LoneReserves(rows: Rows, r: Request, found: RequestId)
    requires Taken(rows, r.receipt) ==> found in rows && rows[found].receipt == r.receipt
    ensures var s1 := Next(State(rows, map[], {}, {}), Receive(0, r));
            var q := if r.id in rows || !Taken(rows, r.receipt) then r.id else found;
            var row := if q in rows then rows[q] else Row(r.receipt, r.content, RESERVED);
            Next(Next(Next(s1, SelectRequest(0)), SelectReceipt(0, found)), Insert(0)) ==
              if r.id in rows && rows[r.id].content != r.content
              then State(rows, map[], {}, {(r.receipt, Conflict)})
              else State(rows[q := row], map[0 := Reserved(r, Reservation(q in rows, row.status, q))], {}, {})
  {
    var s1 := Next(State(rows, map[], {}, {}), Receive(0, r));
    assert s1.handlers == map[0 := LooksForRequest(r)];
    var s2 := Next(s1, SelectRequest(0));
    var s3 := Next(s2, SelectReceipt(0, found));
    if r.id in rows {
      assert s2.handlers - {0} == map[];
      assert rows[r.id := rows[r.id]] == rows;
      assert Next(s3, Insert(0)) == s2;
    } else if Taken(rows, r.receipt) {
      assert s2.handlers == map[0 := LooksForReceipt(r)];
      assert rows[found := rows[found]] == rows;
      assert s3.handlers == map[0 := Reserved(r, Reservation(true, rows[found].status, found))];
    } else {
      assert s3.handlers == map[0 := Inserts(r)];
    }
  }

  lemma LoneReserved(rows: Rows, q: RequestId, row: Row, r: Request, succeeds: bool)
    requires row.status == RESERVED || row.status == QUEUED
    requires if q in rows then row == rows[q] else row.status == RESERVED
    ensures var s := State(rows[q := row], map[0 := Reserved(r, Reservation(q in rows, row.status, q))], {}, {});
            Next(Next(Next(s, Decide(0, succeeds)), Mark(0)), Release(0)) ==
              if row.status == QUEUED then State(rows, map[], {}, {(r.receipt, Duplicate)})
              else if succeeds
              then State(rows[q := row.(status := QUEUED)], map[], {r.receipt}, {(r.receipt, Accepted)})
              else State(rows - {q}, map[], {}, {(r.receipt, Unavailable)})
  {
    var s := State(rows[q := row], map[0 := Reserved(r, Reservation(q in rows, row.status, q))], {}, {});
    assert s.handlers - {0} == map[];
    var s' := Next(s, Decide(0, succeeds));
    if row.status == QUEUED {
      assert rows[q := row] == rows;
      assert s'.handlers == map[];
    } else if succeeds {
      assert s'.handlers == map[0 := Enqueued(r, q)];
      assert rows[q := row][q := row.(status := QUEUED)] == rows[q := row.(status := QUEUED)];
    } else {
      assert s'.handlers == map[0 := Failed(r, q)];
      assert rows[q := row] - {q} == rows - {q};
      assert Next(s', Mark(0)) == s';
      assert s'.handlers - {0} == map[];
    }
  }
}
