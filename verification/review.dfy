/** Human review of a receipt, the projection of late OCR results onto it, and the row in
    verified_receipts that both review paths write. */
module Review {
  import opened Basics

  datatype Status = RECEIVED | NEEDS_REVIEW | VERIFIED | REJECTED

  /** `fields` stands for what the reviewer entered, `enrichment` for the projected OCR columns. */
  datatype Receipt = Receipt(status: Status, version: nat, fields: nat, enrichment: nat)

  datatype VerifiedRow = VerifiedRow(version: nat, fields: nat)

  datatype Tables = Tables(receipt: Receipt, verified: Option<VerifiedRow>)

  /** Where the enrichment says the receipt needs a human, or only that it is under way. */
  datatype Enrichment = Finished(data: nat) | UnderWay(data: nat)

  datatype Request = Request(version: nat, verify: bool, fields: nat)

  /** INSERT … ON CONFLICT DO UPDATE … WHERE the stored version is smaller. */
  function Keep(row: Option<VerifiedRow>, event: VerifiedRow): Option<VerifiedRow> {
    if row.Some? && row.value.version >= event.version then row else Some(event)
  }

  predicate Consumes(t: Tables, r: Request) { t.receipt.version == r.version }

  function AfterReview(t: Tables, r: Request): Tables {
    if !Consumes(t, r) then t
    else
      var version := r.version + 1;
      Tables(Receipt(if r.verify then VERIFIED else REJECTED, version, r.fields, t.receipt.enrichment),
             if r.verify then Keep(t.verified, VerifiedRow(version, r.fields)) else t.verified)
  }

  function AfterProjection(t: Tables, e: Enrichment): Tables {
    t.(receipt := t.receipt.(
      status := if t.receipt.status == RECEIVED && e.Finished? then NEEDS_REVIEW else t.receipt.status,
      enrichment := e.data))
  }

  datatype Op = Submit(r: Request) | Project(e: Enrichment)

  function AfterOp(t: Tables, op: Op): Tables {
    match op
    case Submit(r) => AfterReview(t, r)
    case Project(e) => AfterProjection(t, e)
  }

  function AfterOps(t: Tables, ops: seq<Op>): Tables
    decreases |ops|
  {
    if ops == [] then t else AfterOps(AfterOp(t, ops[0]), ops[1..])
  }

  /** The reviews that went through, in order. */
  function Successes(t: Tables, ops: seq<Op>): seq<Request>
    decreases |ops|
  {
    if ops == [] then []
    else (if ops[0].Submit? && Consumes(t, ops[0].r) then [ops[0].r] else []) + Successes(AfterOp(t, ops[0]), ops[1..])
  }

  /** The row the successful reviews leave: that of the last one that verified. */
  function LastVerified(row: Option<VerifiedRow>, reviews: seq<Request>): Option<VerifiedRow> {
    if reviews == [] then row
    else
      var last := reviews[|reviews| - 1];
      if last.verify then Some(VerifiedRow(last.version + 1, last.fields))
      else LastVerified(row, reviews[..|reviews| - 1])
  }

  lemma LastOfMore(row: Option<VerifiedRow>, first: Request, rest: seq<Request>)
    ensures LastVerified(row, [first] + rest) ==
            LastVerified(if first.verify then Some(VerifiedRow(first.version + 1, first.fields)) else row, rest)
    decreases |rest|
  {
    if rest == [] {
      assert [first] + rest == [first] && [first][..0] == [];
      assert LastVerified(row, []) == row;
    } else {
      assert ([first] + rest)[..|rest|] == [first] + rest[..|rest| - 1];
      LastOfMore(row, first, rest[..|rest| - 1]);
    }
  }

  lemma SuccessesStep(t: Tables, ops: seq<Op>)
    requires ops != []
    ensures var rest := Successes(AfterOp(t, ops[0]), ops[1..]);
            Successes(t, ops) == if ops[0].Submit? && Consumes(t, ops[0].r) then [ops[0].r] + rest else rest
  {
  }

  lemma OneReview(t: Tables, op: Op)
    requires t.verified.Some? ==> t.verified.value.version <= t.receipt.version
    ensures var t' := AfterOp(t, op);
            && (t'.verified.Some? ==> t'.verified.value.version <= t'.receipt.version)
            && if op.Submit? && Consumes(t, op.r)
               then op.r.version == t.receipt.version && t'.receipt.version == t.receipt.version + 1
                    && t'.verified ==
                      if op.r.verify then Some(VerifiedRow(op.r.version + 1, op.r.fields)) else t.verified
               else t'.receipt.version == t.receipt.version && t'.verified == t.verified
  {
  }

  /** Versions are consumed one after another, each by one review; nothing else moves the version;
      and the verified row is that of the last verification, however late or often OCR is projected. */
  lemma {:induction false} ReviewsConsumeVersions(t: Tables, ops: seq<Op>)
    requires t.verified.Some? ==> t.verified.value.version <= t.receipt.version
    ensures var reviews := Successes(t, ops);
            var t' := AfterOps(t, ops);
            && (forall i :: 0 <= i < |reviews| ==> reviews[i].version == t.receipt.version + i)
            && t'.receipt.version == t.receipt.version + |reviews|
            && t'.verified == LastVerified(t.verified, reviews)
    decreases |ops|
  {
    if ops != [] {
      var t1 := AfterOp(t, ops[0]);
      OneReview(t, ops[0]);
      SuccessesStep(t, ops);
      ReviewsConsumeVersions(t1, ops[1..]);
      hide AfterOp, Successes, Consumes, LastVerified;
      if ops[0].Submit? && Consumes(t, ops[0].r) { LastOfMore(t.verified, ops[0].r, Successes(t1, ops[1..])); }
    }
  }

  predicate Decided(status: Status) { status == VERIFIED || status == REJECTED }

  /** Once reviewed, a receipt stays decided as its last successful review said, and OCR never undoes it. */
  lemma {:induction false} DecisionStands(t: Tables, ops: seq<Op>)
    ensures var reviews := Successes(t, ops);
            var status := AfterOps(t, ops).receipt.status;
            && (reviews != [] ==> status == if reviews[|reviews| - 1].verify then VERIFIED else REJECTED)
            && (reviews == [] && Decided(t.receipt.status) ==> status == t.receipt.status)
    decreases |ops|
  {
    if ops != [] { DecisionStands(AfterOp(t, ops[0]), ops[1..]); }
  }

  /** A review goes through exactly if it names the current version; it then sets status, fields and the
      next version, and the verified row if it verifies; otherwise nothing changes. */
  lemma ReviewedExactly(t: Tables, r: Request)
    requires t.verified.Some? ==> t.verified.value.version <= t.receipt.version
    ensures AfterReview(t, r) ==
            if r.version != t.receipt.version then t
            else
              t.(receipt := t.receipt.(status := if r.verify then VERIFIED else REJECTED,
                                       version := t.receipt.version + 1, fields := r.fields),
                 verified := if r.verify then Some(VerifiedRow(t.receipt.version + 1, r.fields)) else t.verified)
  {
  }

  /** The data of the last projection, if there was one. */
  function LastProjected(data: nat, ops: seq<Op>): nat
    decreases |ops|
  {
    if ops == [] then data else LastProjected(if ops[0].Project? then ops[0].e.data else data, ops[1..])
  }

  predicate SaysFinished(ops: seq<Op>) { exists op :: op in ops && op.Project? && op.e.Finished? }

  /** Over any reviews and projections: the fields are those of the last successful review, the OCR data
      those of the last projection, and a receipt nobody has reviewed needs review exactly from the
      first projection on that says its enrichment is finished. */
  lemma {:induction false} RecordExactly(t: Tables, ops: seq<Op>)
    ensures var reviews := Successes(t, ops);
            var receipt := AfterOps(t, ops).receipt;
            && receipt.fields == (if reviews == [] then t.receipt.fields else reviews[|reviews| - 1].fields)
            && receipt.enrichment == LastProjected(t.receipt.enrichment, ops)
            && (reviews == [] ==>
                  receipt.status == if t.receipt.status == RECEIVED && SaysFinished(ops) then NEEDS_REVIEW
                                    else t.receipt.status)
    decreases |ops|
  {
    if ops != [] {
      RecordExactly(AfterOp(t, ops[0]), ops[1..]);
      SuccessesStep(t, ops);
      FinishedStep(ops);
    }
  }

  lemma FinishedStep(ops: seq<Op>)
    requires ops != []
    ensures SaysFinished(ops) <==> (ops[0].Project? && ops[0].e.Finished?) || SaysFinished(ops[1..])
  {
    if SaysFinished(ops) {
      var op :| op in ops && op.Project? && op.e.Finished?;
      assert op == ops[0] || op in ops[1..];
    }
    if ops[0].Project? && ops[0].e.Finished? { assert ops[0] in ops; }
    if SaysFinished(ops[1..]) {
      var op :| op in ops[1..] && op.Project? && op.e.Finished?;
      assert op in ops;
    }
  }

  // ---------------------------------------------------------------- review events that arrive in any order

  function Merge(row: Option<VerifiedRow>, events: seq<VerifiedRow>): Option<VerifiedRow>
    decreases |events|
  {
    if events == [] then row else Merge(Keep(row, events[0]), events[1..])
  }

  /** The row is an event, or the row there was, and nothing has a greater version. */
  predicate Greatest(row: Option<VerifiedRow>, events: seq<VerifiedRow>, result: Option<VerifiedRow>) {
    && (result == row || (result.Some? && result.value in events))
    && (row.Some? ==> result.Some? && row.value.version <= result.value.version)
    && (forall e :: e in events ==> result.Some? && e.version <= result.value.version)
  }

  lemma {:induction false} MergeGreatest(row: Option<VerifiedRow>, events: seq<VerifiedRow>)
    ensures Greatest(row, events, Merge(row, events))
    decreases |events|
  {
    if events != [] { MergeGreatest(Keep(row, events[0]), events[1..]); }
  }

  /** An event that beats the row and that no other event beats. */
  predicate Newest(row: Option<VerifiedRow>, events: seq<VerifiedRow>, e: VerifiedRow) {
    e in events && (row.None? || row.value.version < e.version) && forall g :: g in events ==> g.version <= e.version
  }

  /** All newest events say the same. */
  ghost predicate Settled(row: Option<VerifiedRow>, events: seq<VerifiedRow>) {
    forall e, f :: Newest(row, events, e) && Newest(row, events, f) ==> e == f
  }

  predicate SameEvents(a: seq<VerifiedRow>, b: seq<VerifiedRow>) {
    (forall e :: e in a ==> e in b) && (forall e :: e in b ==> e in a)
  }

  lemma MergeSame(row: Option<VerifiedRow>, a: seq<VerifiedRow>, b: seq<VerifiedRow>)
    requires Settled(row, a) && SameEvents(a, b)
    ensures Merge(row, a) == Merge(row, b)
  {
    MergeGreatest(row, a);
    MergeGreatest(row, b);
    MergeKeeps(row, a);
    MergeKeeps(row, b);
    var x, y := Merge(row, a), Merge(row, b);
    if x != row { assert Newest(row, a, x.value); }
    if y != row { assert Newest(row, a, y.value); }
  }

  /** Without a newer event the row stays. */
  lemma {:induction false} MergeKeeps(row: Option<VerifiedRow>, events: seq<VerifiedRow>)
    ensures row.Some? && (forall e :: e in events ==> e.version <= row.value.version) ==> Merge(row, events) == row
    ensures Merge(row, events) != row ==>
      Merge(row, events).Some? && (row.Some? ==> Merge(row, events).value.version > row.value.version)
    decreases |events|
  {
    if events != [] { MergeKeeps(Keep(row, events[0]), events[1..]); }
  }

  /** Folding the events in any order, with any repetition, gives one result exactly when the newest
      of them agree; it is then the newest event, or the row there was if that is at least as new. */
  lemma MergeIgnoresOrderExactly(row: Option<VerifiedRow>, a: seq<VerifiedRow>)
    ensures Settled(row, a) <==> forall b :: SameEvents(a, b) ==> Merge(row, a) == Merge(row, b)
  {
    hide Merge, SameEvents, Newest;
    if Settled(row, a) {
      forall b | SameEvents(a, b) ensures Merge(row, a) == Merge(row, b) { MergeSame(row, a, b); }
    } else {
      var e, f :| Newest(row, a, e) && Newest(row, a, f) && e != f;
      Disagree(row, a, e, f);
    }
  }

  lemma Disagree(row: Option<VerifiedRow>, a: seq<VerifiedRow>, e: VerifiedRow, f: VerifiedRow)
    requires Newest(row, a, e) && Newest(row, a, f) && e != f
    ensures exists b :: SameEvents(a, b) && Merge(row, a) != Merge(row, b)
  {
    FirstWins(row, e, a);
    FirstWins(row, f, a);
    hide Merge;
    assert SameEvents(a, [e] + a) && SameEvents(a, [f] + a);
    assert Merge(row, [e] + a) != Merge(row, [f] + a);
  }

  lemma FirstWins(row: Option<VerifiedRow>, e: VerifiedRow, a: seq<VerifiedRow>)
    requires (row.None? || row.value.version < e.version) && forall g :: g in a ==> g.version <= e.version
    ensures Merge(row, [e] + a) == Some(e)
  {
    assert ([e] + a)[1..] == a;
    MergeKeeps(Some(e), a);
  }

  // ---------------------------------------------------------------- the store

  datatype ReviewAnswer = Reviewed(status: Status, version: nat) | VersionConflict

  class ReceiptRecord {
    var receipt: Receipt
    var verified: Option<VerifiedRow>

    ghost function View(): Tables
      reads this
    {
      Tables(receipt, verified)
    }

    /** One review under the row lock. */
    method ReviewReceipt(r: Request) returns (answer: ReviewAnswer)
      modifies this
      ensures View() == AfterReview(old(View()), r)
      ensures answer.Reviewed? <==> Consumes(old(View()), r)
      ensures answer.Reviewed? ==>
        answer == Reviewed(receipt.status, receipt.version) && receipt.version == old(receipt.version) + 1
    {
      if receipt.version != r.version { return VersionConflict; }
      var status := if r.verify then VERIFIED else REJECTED;
      receipt := receipt.(status := status, fields := r.fields, version := receipt.version + 1);
      if status == VERIFIED { RecordVerified(VerifiedRow(receipt.version, r.fields)); }
      answer := Reviewed(status, receipt.version);
    }

    method RecordVerified(event: VerifiedRow)
      modifies `verified
      ensures verified == Keep(old(verified), event)
    {
      if verified.None? || verified.value.version < event.version { verified := Some(event); }
    }

    method ProjectEnrichment(e: Enrichment)
      modifies `receipt
      ensures View() == AfterProjection(old(View()), e)
    {
      var status := if e.Finished? then NEEDS_REVIEW else RECEIVED;
      receipt := receipt.(status :=
        if receipt.status == RECEIVED then status else receipt.status, enrichment := e.data);
    }
  }
}
