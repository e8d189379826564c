/** When a receipt is enriched once. The row that a first save leaves keeps its version exactly if
    no delivery still in flight is able to save again; leases do not see to that, as nothing fences
    the worker that lost one. */
module WorkflowOnce {
  import opened Basics
  import opened Workflow

  // ---------------------------------------------------------------- who can still save

  /** The stage can be claimed again, now or when its lease has run out. */
  predicate Reclaimable(row: Option<StageRow>) {
    row.None? || (row.value.attempts < STAGE_ATTEMPTS
                  && (row.value.status == FAILED_RETRYABLE
                    || (row.value.status == PROCESSING && row.value.lockedUntil.Some?)))
  }

  /** A delivery about to fail the stage would make it retryable, whatever its status: nothing fences it. */
  ghost predicate Refailable(s: State, stage: Stage) {
    && StageOf(s.t, stage).Some? && StageOf(s.t, stage).value.attempts < STAGE_ATTEMPTS
    && exists f :: f in s.deliveries && s.deliveries[f] == Fails(stage, false)
  }

  ghost predicate Available(s: State, stage: Stage) { Reclaimable(StageOf(s.t, stage)) || Refailable(s, stage) }

  /** The delivery is able to save a result or a fallback, if the others let it. */
  ghost predicate Able(s: State, c: Delivery) {
    match c
    case LooksAtImage => (s.t.image.Some? && s.t.image.value.status == COMPLETED) || Available(s, ImageFetch)
    case ClaimsImage => Available(s, ImageFetch)
    case Fetches => true
    case ClaimsOcr => Available(s, Ocr)
    case Reads => true
    case Fails(stage, terminal) =>
      terminal || (StageOf(s.t, stage).Some? && StageOf(s.t, stage).value.attempts >= STAGE_ATTEMPTS)
    case Finalizes => true
  }

  /** Some delivery in flight is able to save. */
  ghost predicate Unsettled(s: State) { exists d :: d in s.deliveries && Able(s, s.deliveries[d]) }

  lemma SettledFail(s: State, step: Step)
    requires s.t.version.Some? && !Unsettled(s) && step.FailStep?
    ensures Next(s, step).t.version == s.t.version && !Unsettled(Next(s, step))
  {
    var s' := Next(s, step);
    if s' != s {
      var c := s.deliveries[step.d];
      assert !Able(s, c);
      forall e | e in s'.deliveries ensures !Able(s', s'.deliveries[e]) {
        assert e in s.deliveries && s'.deliveries[e] == s.deliveries[e] && !Able(s, s.deliveries[e]);
      }
    }
  }

  lemma SettledMove(s: State, step: Step)
    requires s.t.version.Some? && !Unsettled(s) && !step.FailStep?
    ensures Next(s, step).t.version == s.t.version && !Unsettled(Next(s, step))
  {
    var s' := Next(s, step);
    forall e | e in s'.deliveries ensures !Able(s', s'.deliveries[e]) {
      assert e in s.deliveries && !Able(s, s.deliveries[e]);
    }
  }

  lemma {:induction false} SettledStays(s: State, steps: seq<Step>)
    requires s.t.version.Some? && !Unsettled(s)
    ensures Run(s, steps).t.version == s.t.version
    decreases |steps|
  {
    hide Next, Unsettled;
    if steps != [] {
      if steps[0].FailStep? { SettledFail(s, steps[0]); } else { SettledMove(s, steps[0]); }
      SettledStays(Next(s, steps[0]), steps[1..]);
    }
  }

  // ---------------------------------------------------------------- and does

  /** How far an able delivery is from saving. */
  ghost function Rank(s: State, c: Delivery): nat {
    match c
    case LooksAtImage => 20
    case ClaimsImage => 10 + Delay(s, ImageFetch)
    case Fetches => 5
    case ClaimsOcr => 5 + Delay(s, Ocr)
    case Reads => 1
    case Fails(_, _) => 2
    case Finalizes => 1
  }

  ghost function Delay(s: State, stage: Stage): nat {
    if Claimable(StageOf(s.t, stage), s.t.now) then 0 else if Reclaimable(StageOf(s.t, stage)) then 1 else 2
  }

  /** The next step towards a save by delivery `d`. */
  ghost function Push(s: State, d: DeliveryId): Step
    requires d in s.deliveries && Able(s, s.deliveries[d])
  {
    match s.deliveries[d]
    case LooksAtImage => Look(d)
    case ClaimsImage => if Delay(s, ImageFetch) == 0 then ClaimImage(d) else Freeing(s, ImageFetch)
    case Fetches => Fetch(d, Invalid)
    case ClaimsOcr => if Delay(s, Ocr) == 0 then ClaimOcr(d) else Freeing(s, Ocr)
    case Reads => Read(d, true, NoFault)
    case Fails(_, _) => FailStep(d)
    case Finalizes => FinalizeStep(d, NoFault)
  }

  /** The lease runs out, or a stale worker fails the stage. */
  ghost function Freeing(s: State, stage: Stage): Step
    requires Available(s, stage) && Delay(s, stage) > 0
  {
    if Reclaimable(StageOf(s.t, stage)) then
      Tick(if StageOf(s.t, stage).value.lockedUntil.Some? then StageOf(s.t, stage).value.lockedUntil.value + 1 else 0)
    else
      var f :| f in s.deliveries && s.deliveries[f] == Fails(stage, false);
      FailStep(f)
  }

  ghost predicate Pushed(s: State, s': State, d: DeliveryId)
    requires d in s.deliveries
  {
    || s'.t.version != s.t.version
    || (s'.t.version == s.t.version && d in s'.deliveries && Able(s', s'.deliveries[d])
      && Rank(s', s'.deliveries[d]) < Rank(s, s.deliveries[d]))
  }

  lemma PushClaims(s: State, d: DeliveryId)
    requires d in s.deliveries && Able(s, s.deliveries[d])
             && (s.deliveries[d] == ClaimsImage || s.deliveries[d] == ClaimsOcr)
    ensures Pushed(s, Next(s, Push(s, d)), d)
  {
  }

  lemma PushOn(s: State, d: DeliveryId)
    requires d in s.deliveries && Able(s, s.deliveries[d]) && s.deliveries[d] != ClaimsImage
             && s.deliveries[d] != ClaimsOcr
    ensures Pushed(s, Next(s, Push(s, d)), d)
  {
    var s' := Next(s, Push(s, d));
    if s.deliveries[d] == LooksAtImage {
      if f :| f in s.deliveries && s.deliveries[f] == Fails(ImageFetch, false) {
        assert s'.deliveries[f] == Fails(ImageFetch, false);
      }
    }
  }

  /** The first save of an able delivery adds one to the version. */
  lemma {:induction false} NextVersion(s: State, d: DeliveryId) returns (steps: seq<Step>)
    requires d in s.deliveries && Able(s, s.deliveries[d]) && s.t.version.Some?
    ensures Run(s, steps).t.version == Some(s.t.version.value + 1)
    decreases Rank(s, s.deliveries[d])
  {
    var s' := Next(s, Push(s, d));
    if s.deliveries[d] == ClaimsImage || s.deliveries[d] == ClaimsOcr { PushClaims(s, d); } else { PushOn(s, d); }
    VersionSteps(s, Push(s, d));
    hide Next, Able, Push;
    if s'.t.version != s.t.version { steps := []; } else { steps := NextVersion(s', d); }
    RunCons(s, Push(s, d), steps);
    steps := [Push(s, d)] + steps;
  }

  lemma VersionSteps(s: State, step: Step)
    requires s.t.version.Some?
    ensures Next(s, step).t.version == s.t.version || Next(s, step).t.version == Some(s.t.version.value + 1)
  {
  }

  /** Once a receipt is enriched, its row can change version exactly if some delivery in flight is able to save. */
  lemma VersionChangesExactly(s: State)
    requires s.t.version.Some?
    ensures (exists steps: seq<Step> :: Run(s, steps).t.version != s.t.version) <==> Unsettled(s)
  {
    hide Next, Able, Run;
    if Unsettled(s) {
      var d :| d in s.deliveries && Able(s, s.deliveries[d]);
      var steps := NextVersion(s, d);
      assert Run(s, steps).t.version != s.t.version;
    } else {
      forall steps: seq<Step> ensures Run(s, steps).t.version == s.t.version { SettledStays(s, steps); }
    }
  }

  // ---------------------------------------------------------------- at the first save

  /** A delivery alone saves, and the answer to its commit is lost: the receipt can be enriched again
      exactly if this was the fifth attempt at OCR. */
  lemma LostReplyExactly(s: State, d: DeliveryId)
    requires s.t.version.None? && s.deliveries == map[d := Reads] && s.t.ocr.Some?
    ensures var s' := Next(s, Read(d, true, ReplyLost));
            s'.t.version == Some(1)
              && ((exists steps: seq<Step> :: Run(s', steps).t.version != Some(1)) <==>
              s.t.ocr.value.attempts >= STAGE_ATTEMPTS)
  {
    var s' := Next(s, Read(d, true, ReplyLost));
    assert s'.deliveries == map[d := Fails(Ocr, false)];
    assert s'.t.version == Some(1) && s'.t.ocr.value.attempts == s.t.ocr.value.attempts;
    assert s'.deliveries[d] == Fails(Ocr, false);
    hide Next, Run;
    VersionChangesExactly(s');
  }

  /** While one delivery reads under its lease, a second one asks for the OCR stage and both go on at
      once: both come to save exactly if the lease has run out and the stage was claimed fewer than five times. */
  lemma LeaseExactly(s: State, d: DeliveryId, e: DeliveryId, until: nat, attempts: nat)
    requires s.t.version.None? && d != e && d in s.deliveries && s.deliveries[d] == Reads && e in s.deliveries
             && s.deliveries[e] == ClaimsOcr
    requires s.t.ocr == Some(StageRow(PROCESSING, attempts, Some(until)))
    ensures var steps := [ClaimOcr(e)] + ([Read(e, true, NoFault)] + ([Read(d, true, NoFault)] + []));
            Run(s, steps).t.version == (if until < s.t.now && attempts < STAGE_ATTEMPTS then Some(2) else Some(1))
  {
    var s1 := Next(s, ClaimOcr(e));
    var s2 := Next(s1, Read(e, true, NoFault));
    var s3 := Next(s2, Read(d, true, NoFault));
    RunCons(s, ClaimOcr(e), [Read(e, true, NoFault)] + ([Read(d, true, NoFault)] + []));
    RunCons(s1, Read(e, true, NoFault), [Read(d, true, NoFault)] + []);
    RunCons(s2, Read(d, true, NoFault), []);
    if until < s.t.now && attempts < STAGE_ATTEMPTS {
      assert s1.deliveries[e] == Reads && s1.deliveries[d] == Reads;
    } else {
      assert e !in s1.deliveries && s1.deliveries[d] == Reads;
    }
  }

  /** A step that neither begins a delivery nor loses an answer. */
  predicate Quiet(step: Step) {
    !step.Start? && (step.Read? ==> step.fault != ReplyLost) && (step.FinalizeStep? ==> step.fault != ReplyLost)
  }

  /** The first delivery alone can still save, and only once. */
  ghost predicate OneSaver(s: State, d: DeliveryId) {
    && s.t.ocr.Some? && s.t.ocr.value.attempts >= STAGE_ATTEMPTS
    && (forall e :: e in s.deliveries && e != d ==> s.deliveries[e] == ClaimsOcr)
    && (s.t.version.Some? ==> s.t.version == Some(1) && d !in s.deliveries)
    && (d in s.deliveries ==> s.deliveries[d] in {Reads, Fails(Ocr, false), Finalizes})
  }

  lemma OneSaverStep(s: State, step: Step, d: DeliveryId)
    requires OneSaver(s, d) && Quiet(step)
    ensures OneSaver(Next(s, step), d)
  {
  }

  lemma {:induction false} OneSaverRun(s: State, steps: seq<Step>, d: DeliveryId)
    requires OneSaver(s, d) && forall step :: step in steps ==> Quiet(step)
    ensures OneSaver(Run(s, steps), d)
    decreases |steps|
  {
    hide Next, OneSaver, Quiet;
    if steps != [] {
      assert steps[0] in steps;
      OneSaverStep(s, steps[0], d);
      OneSaverRun(Next(s, steps[0]), steps[1..], d);
    }
  }

  /** If the second one may wait before it asks, the lease no longer matters: with no further delivery and
      no lost answer, both can come to save exactly if the stage was claimed fewer than five times. */
  lemma WaitingOutlastsLease(s: State, d: DeliveryId, e: DeliveryId, until: nat, attempts: nat)
    requires s.t.version.None? && d != e && s.deliveries == map[d := Reads, e := ClaimsOcr]
    requires s.t.ocr == Some(StageRow(PROCESSING, attempts, Some(until)))
    ensures (exists steps: seq<Step> ::
               && (forall step :: step in steps ==> Quiet(step))
               && Run(s, steps).t.version == Some(2)) <==>
            attempts < STAGE_ATTEMPTS
  {
    if attempts < STAGE_ATTEMPTS {
      var s' := Next(s, Tick(until + 1));
      var steps := [ClaimOcr(e)] + ([Read(e, true, NoFault)] + ([Read(d, true, NoFault)] + []));
      LeaseExactly(s', d, e, until, attempts);
      RunCons(s, Tick(until + 1), steps);
      assert Run(s, [Tick(until + 1)] + steps).t.version == Some(2);
    } else {
      forall steps: seq<Step> | forall step :: step in steps ==> Quiet(step)
        ensures Run(s, steps).t.version != Some(2) {
        OneSaverRun(s, steps, d);
      }
    }
  }

  /** And leases are not enough: with the image fetched, a delivery that begins while another reads can
      always enrich the receipt a second time, however long the leases run. */
  lemma OverlapNeedsNoLease(s: State, d: DeliveryId, e: DeliveryId)
    requires s.t.version.None? && d in s.deliveries && s.deliveries[d] == Reads && e !in s.deliveries
    requires s.t.image.Some? && s.t.image.value.status == COMPLETED
    ensures exists steps: seq<Step> :: Run(Next(s, Start(e)), steps).t.version == Some(2)
  {
    var s1 := Next(s, Start(e));
    var s2 := Next(s1, Read(d, true, NoFault));
    assert s1.deliveries[d] == Reads && s2.deliveries[e] == LooksAtImage && s2.t.version == Some(1);
    assert Able(s2, s2.deliveries[e]);
    var steps := NextVersion(s2, e);
    RunCons(s1, Read(d, true, NoFault), steps);
    assert Run(s1, [Read(d, true, NoFault)] + steps).t.version == Some(2);
  }

  // ---------------------------------------------------------------- over whole runs

  /** Whoever saves first leaves nobody able to save again. It can be seen from the deliveries in flight. */
  ghost predicate Prudent(s: State, step: Step) {
    s.t.version.None? && Next(s, step).t.version.Some? ==> !Unsettled(Next(s, step))
  }

  ghost predicate PrudentRun(s: State, steps: seq<Step>)
    decreases |steps|
  {
    steps != [] ==> Prudent(s, steps[0]) && PrudentRun(Next(s, steps[0]), steps[1..])
  }

  /** A first save that is not prudent can lead to a second one, and a prudent one cannot. */
  lemma PrudentExactly(s: State, step: Step)
    requires s.t.version.None? && Next(s, step).t.version.Some?
    ensures (exists steps: seq<Step> :: Run(Next(s, step), steps).t.version != Next(s, step).t.version) <==>
      !Prudent(s, step)
  {
    hide Next, Unsettled, Run;
    VersionChangesExactly(Next(s, step));
  }

  ghost predicate PrudentInv(s: State) {
    VersionInv(s.t) && (s.t.version.Some? ==> s.t.version == Some(1) && !Unsettled(s))
  }

  lemma PrudentStep(s: State, step: Step)
    requires PrudentInv(s) && Prudent(s, step)
    ensures PrudentInv(Next(s, step))
  {
    StepVersions(s, step);
    hide VersionInv, Unsettled;
    if s.t.version.Some? {
      if step.FailStep? { SettledFail(s, step); } else { SettledMove(s, step); }
    }
  }

  lemma {:induction false} PrudentKeeps(s: State, steps: seq<Step>)
    requires PrudentInv(s) && PrudentRun(s, steps)
    ensures PrudentInv(Run(s, steps))
    decreases |steps|
  {
    hide PrudentInv, Next, Prudent;
    if steps != [] {
      PrudentStep(s, steps[0]);
      PrudentKeeps(Next(s, steps[0]), steps[1..]);
    }
  }

  /** Whatever overlaps, crashes or repeats: if every first save is prudent, the row keeps version 1,
      there is exactly one callback if there is a row and none otherwise, and OCR is claimed at most five times. */
  lemma EnrichedOnce(s0: State, steps: seq<Step>)
    requires Init(s0) && PrudentRun(s0, steps)
    ensures var t := Run(s0, steps).t;
            && t.callbacks == (if t.version.Some? then {1} else {})
            && (t.version.Some? ==> t.version.value == 1)
            && (t.ocr.Some? ==> t.ocr.value.attempts <= 5)
  {
    hide Run, PrudentRun, Unsettled;
    PrudentKeeps(s0, steps);
  }

  // ---------------------------------------------------------------- deliveries that do not overlap

  /** A delivery starts only when no other is in flight, and no commit loses its answer while the
      last attempt at OCR is on. */
  ghost predicate Orderly(s: State, step: Step) {
    && (step.Start? ==> s.deliveries == map[])
    && (step.Read? && step.fault == ReplyLost ==> s.t.ocr.Some? && s.t.ocr.value.attempts < STAGE_ATTEMPTS)
  }

  ghost predicate OrderlyRun(s: State, steps: seq<Step>)
    decreases |steps|
  {
    steps != [] ==> Orderly(s, steps[0]) && OrderlyRun(Next(s, steps[0]), steps[1..])
  }

  /** At most one delivery, and while it has not saved anything there is nothing. */
  ghost predicate OnceInv(s: State) {
    && VersionInv(s.t)
    && (forall d, e :: d in s.deliveries && e in s.deliveries ==> d == e)
    && (s.t.version.Some? ==> s.t.version.value == 1)
    && forall d :: d in s.deliveries ==> s.t.version.None? || Harmless(s.t, s.deliveries[d])
  }

  /** The result was saved but the delivery does not know: it will fail the stage and raise. */
  predicate Harmless(t: Tables, c: Delivery) {
    c == Fails(Ocr, false) && t.ocr.Some? && t.ocr.value.attempts < STAGE_ATTEMPTS
  }

  lemma OrderlyStep(s: State, step: Step)
    requires OnceInv(s) && Orderly(s, step)
    ensures OnceInv(Next(s, step))
  {
    StepVersions(s, step);
    hide VersionInv;
  }

  /** An orderly step is prudent. */
  lemma OrderlyIsPrudent(s: State, step: Step)
    requires OnceInv(s) && Orderly(s, step)
    ensures Prudent(s, step)
  {
    hide VersionInv;
  }

  lemma {:induction false} OrderlyRunIsPrudent(s: State, steps: seq<Step>)
    requires OnceInv(s) && OrderlyRun(s, steps)
    ensures PrudentRun(s, steps)
    decreases |steps|
  {
    hide OnceInv, Next, Orderly, Prudent;
    if steps != [] {
      OrderlyIsPrudent(s, steps[0]);
      OrderlyStep(s, steps[0]);
      OrderlyRunIsPrudent(Next(s, steps[0]), steps[1..]);
    }
  }

  /** Redelivered without limit and crashing anywhere, but one at a time, and with no answer lost at
      the fifth attempt at OCR, the receipt is enriched once. */
  lemma OneAtATime(s0: State, steps: seq<Step>)
    requires Init(s0) && OrderlyRun(s0, steps)
    ensures var t := Run(s0, steps).t;
            && t.callbacks == (if t.version.Some? then {1} else {})
            && (t.version.Some? ==> t.version.value == 1)
            && (t.ocr.Some? ==> t.ocr.value.attempts <= 5)
  {
    hide Run, OrderlyRun, PrudentRun, VersionInv;
    assert OnceInv(s0) by { InitOnce(s0); }
    OrderlyRunIsPrudent(s0, steps);
    EnrichedOnce(s0, steps);
  }

  lemma InitOnce(s: State)
    requires Init(s)
    ensures OnceInv(s)
  {
  }

  // ---------------------------------------------------------------- runs that break one clause

  datatype Clause = StartClause | ReplyClause

  predicate Excused(step: Step, clause: Clause) { if clause == StartClause then step.Start? else step.Read? }

  /** Every step is orderly, or is of the one kind that the clause is about. */
  ghost predicate OrderlyBut(s: State, steps: seq<Step>, clause: Clause)
    decreases |steps|
  {
    steps != [] ==>
      (Orderly(s, steps[0]) || Excused(steps[0], clause)) && OrderlyBut(Next(s, steps[0]), steps[1..], clause)
  }

  /** Steps about which the discipline says nothing, or that the clause excuses. */
  predicate Plain(step: Step, clause: Clause) {
    (step.Start? ==> clause == StartClause) && (step.Read? && step.fault == ReplyLost ==> clause == ReplyClause)
  }

  lemma {:induction false} PlainRun(s: State, steps: seq<Step>, clause: Clause)
    requires forall step :: step in steps ==> Plain(step, clause)
    ensures OrderlyBut(s, steps, clause)
    decreases |steps|
  {
    hide Next;
    if steps != [] {
      assert steps[0] in steps && Plain(steps[0], clause);
      PlainRun(Next(s, steps[0]), steps[1..], clause);
    }
  }

  /** A delivery begun with no other in flight. */
  lemma OneDelivery(s: State, d: DeliveryId, rest: seq<Step>)
    requires s.deliveries == map[] && forall step :: step in rest ==> Plain(step, ReplyClause)
    ensures OrderlyBut(s, [Start(d)] + rest, ReplyClause)
  {
    hide Next;
    assert ([Start(d)] + rest)[1..] == rest;
    PlainRun(Next(s, Start(d)), rest, ReplyClause);
  }

  lemma {:induction false} ButAppend(s: State, a: seq<Step>, b: seq<Step>, clause: Clause)
    requires OrderlyBut(s, a, clause) && OrderlyBut(Run(s, a), b, clause)
    ensures OrderlyBut(s, a + b, clause) && Run(s, a + b) == Run(Run(s, a), b)
    decreases |a|
  {
    hide Next, Orderly;
    if a == [] {
      assert a + b == b;
    } else {
      assert (a + b)[1..] == a[1..] + b;
      ButAppend(Next(s, a[0]), a[1..], b, clause);
    }
  }

  /** From nothing to the claim of OCR. */
  lemma FirstClaim()
    ensures Next(Next(Next(Next(Next(EMPTY, Start(1)), Look(1)), ClaimImage(1)), Fetch(1, Good)), ClaimOcr(1)) ==
            State(Tables(0, None, {}, Some(StageRow(COMPLETED, 1, None)), Some(StageRow(PROCESSING, 1, Some(300)))),
              map[1 := Reads])
  {
    var s1 := Next(EMPTY, Start(1));
    assert s1.deliveries == map[1 := LooksAtImage];
    var s2 := Next(s1, Look(1));
    assert s2.deliveries == map[1 := ClaimsImage];
    var s3 := Next(s2, ClaimImage(1));
    assert s3.deliveries == map[1 := Fetches];
    var s4 := Next(s3, Fetch(1, Good));
    assert s4.deliveries == map[1 := ClaimsOcr];
    var s5 := Next(s4, ClaimOcr(1));
    assert s5.deliveries == map[1 := Reads];
  }

  ghost function Overlap(): seq<Step> {
    Five(Start(1), Look(1), ClaimImage(1), Fetch(1, Good), ClaimOcr(1),
         Five(Start(2), Look(2), Fetch(2, Good), Tick(301), ClaimOcr(2),
           [Read(2, true, NoFault)] + ([Read(1, true, NoFault)] + [])))
  }

  /** From nothing, two deliveries at once and no other disorder, the first slower than its lease:
      the receipt is enriched twice. */
  lemma OverlapEnrichesTwice()
    ensures Init(EMPTY) && OrderlyBut(EMPTY, Overlap(), StartClause)
    ensures Run(EMPTY, Overlap()).t.version == Some(2) && Run(EMPTY, Overlap()).t.callbacks == {1, 2}
  {
    hide Next, Run, OrderlyBut;
    PlainRun(EMPTY, Overlap(), StartClause);
    var s5 := State(Tables(0, None, {}, Some(StageRow(COMPLETED, 1, None)), Some(StageRow(PROCESSING, 1, Some(300)))),
      map[1 := Reads]);
    FirstClaim();
    var rest := [Read(2, true, NoFault)] + ([Read(1, true, NoFault)] + []);
    RunFive(EMPTY, Start(1), Look(1), ClaimImage(1), Fetch(1, Good), ClaimOcr(1),
      Five(Start(2), Look(2), Fetch(2, Good), Tick(301), ClaimOcr(2), rest));
    RunFive(s5, Start(2), Look(2), Fetch(2, Good), Tick(301), ClaimOcr(2), rest);
    SecondClaim(s5);
    BothSave(Next(Next(Next(Next(Next(s5, Start(2)), Look(2)), Fetch(2, Good)), Tick(301)), ClaimOcr(2)));
  }

  lemma BothSave(s: State)
    requires s.t.version == None && s.t.callbacks == {} && s.deliveries == map[1 := Reads, 2 := Reads]
    ensures var t := Run(s, [Read(2, true, NoFault)] + ([Read(1, true, NoFault)] + [])).t;
            t.version == Some(2) && t.callbacks == {1, 2}
  {
    RunCons(s, Read(2, true, NoFault), [Read(1, true, NoFault)] + []);
    var s' := Next(s, Read(2, true, NoFault));
    assert s'.deliveries == map[1 := Reads];
    RunCons(s', Read(1, true, NoFault), []);
  }

  lemma SecondClaim(s5: State)
    requires s5 ==
             State(Tables(0, None, {}, Some(StageRow(COMPLETED, 1, None)), Some(StageRow(PROCESSING, 1, Some(300)))),
             map[1 := Reads])
    ensures var s10 := Next(Next(Next(Next(Next(s5, Start(2)), Look(2)), Fetch(2, Good)), Tick(301)), ClaimOcr(2));
            s10.t.version == None && s10.t.callbacks == {} && s10.deliveries == map[1 := Reads, 2 := Reads]
  {
    var s6 := Next(s5, Start(2));
    assert s6.deliveries == map[1 := Reads, 2 := LooksAtImage];
    var s7 := Next(s6, Look(2));
    assert s7.deliveries == map[1 := Reads, 2 := Fetches];
    var s8 := Next(s7, Fetch(2, Good));
    assert s8.deliveries == map[1 := Reads, 2 := ClaimsOcr];
    var s9 := Next(s8, Tick(301));
    var s10 := Next(s9, ClaimOcr(2));
    assert s10.deliveries == map[1 := Reads, 2 := Reads];
  }

  /** One at a time: OCR has failed `n` times and nobody is at work. */
  ghost function Tried(n: nat): State {
    State(Tables(0, None, {}, Some(StageRow(COMPLETED, 1, None)), Some(StageRow(FAILED_RETRYABLE, n, None))), map[])
  }

  ghost function Retry(): seq<Step> {
    Five(Start(1), Look(1), Fetch(1, Good), ClaimOcr(1), Read(1, false, NoFault), [FailStep(1)] + [])
  }

  lemma RetryClaims(n: nat)
    requires n < 5
    ensures Next(Next(Next(Next(Tried(n), Start(1)), Look(1)), Fetch(1, Good)), ClaimOcr(1)) ==
            State(Tables(0, None, {}, Some(StageRow(COMPLETED, 1, None)), Some(StageRow(PROCESSING, n + 1, Some(300)))),
              map[1 := Reads])
  {
    var s1 := Next(Tried(n), Start(1));
    assert s1.deliveries == map[1 := LooksAtImage];
    var s2 := Next(s1, Look(1));
    assert s2.deliveries == map[1 := Fetches];
    var s3 := Next(s2, Fetch(1, Good));
    assert s3.deliveries == map[1 := ClaimsOcr];
    var s4 := Next(s3, ClaimOcr(1));
    assert s4.deliveries == map[1 := Reads];
  }

  lemma RetryFails(n: nat)
    requires n < 4
    ensures Run(Tried(n), Retry()) == Tried(n + 1)
  {
    RetryClaims(n);
    var s4 := State(Tables(0, None, {}, Some(StageRow(COMPLETED, 1, None)),
      Some(StageRow(PROCESSING, n + 1, Some(300)))), map[1 := Reads]);
    var s5 := Next(s4, Read(1, false, NoFault));
    assert s5.deliveries == map[1 := Fails(Ocr, false)];
    var s6 := Next(s5, FailStep(1));
    assert s6.deliveries == map[];
    RunFive(Tried(n), Start(1), Look(1), Fetch(1, Good), ClaimOcr(1), Read(1, false, NoFault), [FailStep(1)] + []);
    RunCons(s5, FailStep(1), []);
  }

  ghost function LostReply(): seq<Step> {
    Five(Start(1), Look(1), Fetch(1, Good), ClaimOcr(1), Read(1, true, ReplyLost),
      [FailStep(1)] + ([FinalizeStep(1, NoFault)] + []))
  }

  ghost function Trial(): seq<Step> {
    Five(Start(1), Look(1), ClaimImage(1), Fetch(1, Good), ClaimOcr(1),
      [Read(1, false, NoFault)] + ([FailStep(1)] + []))
  }

  /** The first failure, from nothing. */
  lemma FirstTry()
    ensures Run(EMPTY, Trial()) == Tried(1)
  {
    FirstClaim();
    var s5 := State(Tables(0, None, {}, Some(StageRow(COMPLETED, 1, None)), Some(StageRow(PROCESSING, 1, Some(300)))),
      map[1 := Reads]);
    var s6 := Next(s5, Read(1, false, NoFault));
    assert s6.deliveries == map[1 := Fails(Ocr, false)];
    var s7 := Next(s6, FailStep(1));
    assert s7.deliveries == map[];
    RunFive(EMPTY, Start(1), Look(1), ClaimImage(1), Fetch(1, Good), ClaimOcr(1),
      [Read(1, false, NoFault)] + ([FailStep(1)] + []));
    RunCons(s5, Read(1, false, NoFault), [FailStep(1)] + []);
    RunCons(s6, FailStep(1), []);
  }

  lemma LostTail(s4: State)
    requires s4 ==
             State(Tables(0, None, {}, Some(StageRow(COMPLETED, 1, None)), Some(StageRow(PROCESSING, 5, Some(300)))),
             map[1 := Reads])
    ensures Run(Next(s4, Read(1, true, ReplyLost)), [FailStep(1)] + ([FinalizeStep(1, NoFault)] + [])).t.version ==
            Some(2)
  {
    var s5 := Next(s4, Read(1, true, ReplyLost));
    var s6 := Next(s5, FailStep(1));
    RunCons(s5, FailStep(1), [FinalizeStep(1, NoFault)] + []);
    RunCons(s6, FinalizeStep(1, NoFault), []);
  }

  /** The fifth attempt saves, and its answer is lost. */
  lemma FifthAttempt()
    ensures Run(Tried(4), LostReply()).t.version == Some(2)
  {
    hide Next, Run;
    RetryClaims(4);
    var s4 := State(Tables(0, None, {}, Some(StageRow(COMPLETED, 1, None)), Some(StageRow(PROCESSING, 5, Some(300)))),
      map[1 := Reads]);
    RunFive(Tried(4), Start(1), Look(1), Fetch(1, Good), ClaimOcr(1), Read(1, true, ReplyLost),
      [FailStep(1)] + ([FinalizeStep(1, NoFault)] + []));
    LostTail(s4);
  }

  lemma EachAlone()
    ensures OrderlyBut(EMPTY, Trial(), ReplyClause) && OrderlyBut(Tried(4), LostReply(), ReplyClause)
    ensures forall n :: OrderlyBut(Tried(n), Retry(), ReplyClause)
  {
    hide OrderlyBut;
    OneDelivery(EMPTY, 1, Trial()[1..]);
    assert [Start(1)] + Trial()[1..] == Trial();
    OneDelivery(Tried(4), 1, LostReply()[1..]);
    assert [Start(1)] + LostReply()[1..] == LostReply();
    forall n ensures OrderlyBut(Tried(n), Retry(), ReplyClause) {
      OneDelivery(Tried(n), 1, Retry()[1..]);
      assert [Start(1)] + Retry()[1..] == Retry();
    }
  }

  /** From nothing and not overlapping at all: four failed attempts, then a fifth whose commit loses
      its answer, and the fallback enriches the receipt a second time. */
  lemma LostReplyEnrichesTwice()
    ensures var steps := Trial() + (Retry() + (Retry() + (Retry() + LostReply())));
            Init(EMPTY) && OrderlyBut(EMPTY, steps, ReplyClause) && Run(EMPTY, steps).t.version == Some(2)
  {
    hide Next, Run, Retry, Trial, LostReply, OrderlyBut;
    EachAlone();
    FirstTry();
    RetryFails(1);
    RetryFails(2);
    RetryFails(3);
    FifthAttempt();
    ButAppend(Tried(3), Retry(), LostReply(), ReplyClause);
    ButAppend(Tried(2), Retry(), Retry() + LostReply(), ReplyClause);
    ButAppend(Tried(1), Retry(), Retry() + (Retry() + LostReply()), ReplyClause);
    ButAppend(EMPTY, Trial(), Retry() + (Retry() + (Retry() + LostReply())), ReplyClause);
  }
}
