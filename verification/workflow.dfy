/** The enrichment of one receipt: image fetch, OCR and the terminal fallback, each a leased stage
    without a fencing token, driven by deliveries of the same event that may repeat, overlap, crash
    or lose the answer to a commit. GST checking is disabled, as production requires. */
module Workflow {
  import opened Basics

  datatype Status = PROCESSING | COMPLETED | FAILED_RETRYABLE | FAILED_TERMINAL

  datatype StageRow = StageRow(status: Status, attempts: nat, lockedUntil: Option<nat>)

  const STAGE_LEASE: nat := 300
  const STAGE_ATTEMPTS: nat := 5

  /** The rows about one receipt. `version` is that of its enrichment row, if there is one;
      `callbacks` the versions of its ENRICHMENT_CALLBACK rows, which are unique by version. */
  datatype Tables =
    Tables(now: nat, version: Option<nat>, callbacks: set<nat>, image: Option<StageRow>, ocr: Option<StageRow>)

  datatype Stage = ImageFetch | Ocr

  function StageOf(t: Tables, stage: Stage): Option<StageRow> { if stage == ImageFetch then t.image else t.ocr }

  function SetStage(t: Tables, stage: Stage, row: StageRow): Tables {
    if stage == ImageFetch then t.(image := Some(row)) else t.(ocr := Some(row))
  }

  // ---------------------------------------------------------------- transactions

  predicate Claimable(row: Option<StageRow>, now: nat) {
    match row
    case None => true
    case Some(r) =>
      && (r.status == FAILED_RETRYABLE || (r.status == PROCESSING && r.lockedUntil.Some? && r.lockedUntil.value < now))
      && r.attempts < STAGE_ATTEMPTS
  }

  function ClaimStage(t: Tables, stage: Stage): Tables {
    var row := StageOf(t, stage);
    if Claimable(row, t.now) then
      SetStage(t, stage,
        StageRow(PROCESSING, if row.Some? then row.value.attempts + 1 else 1, Some(t.now + STAGE_LEASE)))
    else t
  }

  function CompleteStage(t: Tables, stage: Stage): Tables {
    var row := StageOf(t, stage);
    if row.Some? && row.value.status == PROCESSING
    then SetStage(t, stage, row.value.(status := COMPLETED, lockedUntil := None)) else t
  }

  /** No guard on the status: a stale worker may fail a stage that was completed. */
  function FailStage(t: Tables, stage: Stage, terminal: bool): Tables {
    var row := StageOf(t, stage);
    if row.Some? then
      SetStage(t, stage,
        row.value.(status :=
        if terminal || row.value.attempts >= STAGE_ATTEMPTS then FAILED_TERMINAL else FAILED_RETRYABLE,
                                    lockedUntil := None))
    else t
  }

  predicate FailedForGood(t: Tables, stage: Stage) {
    var row := StageOf(t, stage); row.Some? && row.value.status == FAILED_TERMINAL
  }

  /** INSERT … ON CONFLICT DO UPDATE SET version = version + 1, with the callback of that version. */
  function Upsert(t: Tables): Tables {
    var version := if t.version.Some? then t.version.value + 1 else 1;
    t.(version := Some(version), callbacks := t.callbacks + {version})
  }

  function FinishStage(row: Option<StageRow>): Option<StageRow> {
    if row.Some? then Some(row.value.(status := COMPLETED, lockedUntil := None)) else None
  }

  function SaveOcrResult(t: Tables): Tables {
    var t' := Upsert(t);
    t'.(image := FinishStage(t.image), ocr := FinishStage(t.ocr))
  }

  // ---------------------------------------------------------------- deliveries

  type DeliveryId = nat

  /** What a delivery does next. */
  datatype Delivery =
    | LooksAtImage
    | ClaimsImage
    | Fetches
    | ClaimsOcr
    | Reads
    | Fails(stage: Stage, terminal: bool)
    | Finalizes

  datatype State = State(t: Tables, deliveries: map<DeliveryId, Delivery>)

  datatype Fetched = Good | Invalid | Unreachable

  datatype Fault = NoFault | Aborted | ReplyLost

  datatype Step =
    | Start(d: DeliveryId)
    | Look(d: DeliveryId)
    | ClaimImage(d: DeliveryId)
    | Fetch(d: DeliveryId, fetched: Fetched)
    | ClaimOcr(d: DeliveryId)
    | Read(d: DeliveryId, succeeds: bool, fault: Fault)
    | FailStep(d: DeliveryId)
    | FinalizeStep(d: DeliveryId, fault: Fault)
    | Crash(d: DeliveryId)
    | Tick(seconds: nat)

  ghost function Go(s: State, d: DeliveryId, next: Delivery): State { s.(deliveries := s.deliveries[d := next]) }

  /** The delivery returns or raises. */
  ghost function End(s: State, d: DeliveryId): State { s.(deliveries := s.deliveries - {d}) }

  ghost function Next(s: State, step: Step): State {
    match step
    case Start(d) => if d !in s.deliveries && s.t.version.None? then Go(s, d, LooksAtImage) else s
    case Crash(d) => End(s, d)
    case Tick(seconds) => s.(t := s.t.(now := s.t.now + seconds))
    case _ => if step.d in s.deliveries then Continue(s, step, s.deliveries[step.d]) else s
  }

  ghost function Continue(s: State, step: Step, c: Delivery): State
    requires !step.Start? && !step.Crash? && !step.Tick?
  {
    var d := step.d;
    match (step, c)
    case (Look(_), LooksAtImage) =>
      Go(s, d, if s.t.image.Some? && s.t.image.value.status == COMPLETED then Fetches else ClaimsImage)
    case (ClaimImage(_), ClaimsImage) =>
      if Claimable(s.t.image, s.t.now) then Go(s, d, Fetches).(t := ClaimStage(s.t, ImageFetch)) else End(s, d)
    case (Fetch(_, fetched), Fetches) =>
      (match fetched
       case Good => Go(s, d, ClaimsOcr).(t := CompleteStage(s.t, ImageFetch))
       case Invalid => Go(s, d, Fails(ImageFetch, true))
       case Unreachable => Go(s, d, Fails(ImageFetch, false)))
    case (ClaimOcr(_), ClaimsOcr) =>
      if Claimable(s.t.ocr, s.t.now) then Go(s, d, Reads).(t := ClaimStage(s.t, Ocr)) else End(s, d)
    case (Read(_, succeeds, fault), Reads) =>
      if !succeeds || fault == Aborted then Go(s, d, Fails(Ocr, false))
      else if fault == ReplyLost then Go(s, d, Fails(Ocr, false)).(t := SaveOcrResult(s.t))
      else End(s, d).(t := SaveOcrResult(s.t))
    case (FailStep(_), Fails(stage, terminal)) =>
      var t' := FailStage(s.t, stage, terminal);
      if terminal || FailedForGood(t', stage) then Go(s, d, Finalizes).(t := t') else End(s, d).(t := t')
    case (FinalizeStep(_, fault), Finalizes) => if fault == Aborted then End(s, d) else End(s, d).(t := Upsert(s.t))
    case _ => s
  }

  ghost function Run(s: State, steps: seq<Step>): State
    decreases |steps|
  {
    if steps == [] then s else Run(Next(s, steps[0]), steps[1..])
  }

  ghost predicate Init(s: State) { s.t == Tables(s.t.now, None, {}, None, None) && s.deliveries == map[] }

  // ---------------------------------------------------------------- any overlap, any fault

  /** One callback for each version there has been, and no stage was claimed more than five times. */
  ghost predicate VersionInv(t: Tables) {
    && (t.version.Some? ==> t.version.value >= 1)
    && (forall v: nat :: v in t.callbacks <==> t.version.Some? && 1 <= v <= t.version.value)
    && (t.image.Some? ==> 1 <= t.image.value.attempts <= STAGE_ATTEMPTS)
    && (t.ocr.Some? ==> 1 <= t.ocr.value.attempts <= STAGE_ATTEMPTS)
  }

  lemma StepVersions(s: State, step: Step)
    requires VersionInv(s.t)
    ensures VersionInv(Next(s, step).t)
  {
  }

  /** Whatever overlaps, crashes or loses its answer: the callbacks are exactly those of versions 1
      to the version of the enrichment row, none if there is none, and each stage is claimed at most five times. */
  lemma {:induction false} CallbackPerVersion(s: State, steps: seq<Step>)
    requires VersionInv(s.t)
    ensures VersionInv(Run(s, steps).t)
    decreases |steps|
  {
    hide VersionInv, Next;
    if steps != [] {
      StepVersions(s, steps[0]);
      CallbackPerVersion(Next(s, steps[0]), steps[1..]);
    }
  }

  // ---------------------------------------------------------------- running lists of steps

  lemma RunCons(s: State, a: Step, rest: seq<Step>)
    ensures Run(s, [a] + rest) == Run(Next(s, a), rest)
  {
    hide Next;
    assert ([a] + rest)[1..] == rest;
  }

  lemma {:induction false} RunAppend(s: State, a: seq<Step>, b: seq<Step>)
    ensures Run(s, a + b) == Run(Run(s, a), b)
    decreases |a|
  {
    hide Next;
    if a == [] {
      assert a + b == b;
    } else {
      assert (a + b)[1..] == a[1..] + b;
      RunAppend(Next(s, a[0]), a[1..], b);
    }
  }

  function Five(a: Step, b: Step, c: Step, d: Step, e: Step, rest: seq<Step>): seq<Step> {
    [a] + ([b] + ([c] + ([d] + ([e] + rest))))
  }

  lemma RunFive(s: State, a: Step, b: Step, c: Step, d: Step, e: Step, rest: seq<Step>)
    ensures Run(s, Five(a, b, c, d, e, rest)) == Run(Next(Next(Next(Next(Next(s, a), b), c), d), e), rest)
  {
    hide Next;
    var s1 := Next(s, a);
    var s2 := Next(s1, b);
    var s3 := Next(s2, c);
    var s4 := Next(s3, d);
    RunCons(s, a, [b] + ([c] + ([d] + ([e] + rest))));
    RunCons(s1, b, [c] + ([d] + ([e] + rest)));
    RunCons(s2, c, [d] + ([e] + rest));
    RunCons(s3, d, [e] + rest);
    RunCons(s4, e, rest);
  }

  const EMPTY := State(Tables(0, None, {}, None, None), map[])

  // ---------------------------------------------------------------- receipts that are never enriched

  /** The image stage can be neither claimed again, however long one waits, nor skipped. */
  predicate Dead(t: Tables) {
    match t.image
    case None => false
    case Some(r) =>
      && r.status != COMPLETED
      && !(r.attempts < STAGE_ATTEMPTS
        && (r.status == FAILED_RETRYABLE || (r.status == PROCESSING && r.lockedUntil.Some?)))
  }

  ghost predicate DeadInv(s: State) {
    s.t.version.None? && Dead(s.t)
      && forall d :: d in s.deliveries ==> s.deliveries[d].LooksAtImage? || s.deliveries[d].ClaimsImage?
  }

  lemma {:induction false} DeadForever(s: State, steps: seq<Step>)
    requires DeadInv(s)
    ensures DeadInv(Run(s, steps))
    decreases |steps|
  {
    if steps != [] {
      DeadStep(s, steps[0]);
      DeadForever(Next(s, steps[0]), steps[1..]);
    }
  }

  lemma DeadStep(s: State, step: Step)
    requires DeadInv(s)
    ensures DeadInv(Next(s, step))
  {
  }

  ghost function Revival(t: Tables): seq<Step> {
    var wait := if t.image.Some? && t.image.value.lockedUntil.Some? then t.image.value.lockedUntil.value + 1 else 0;
    if t.image.Some? && t.image.value.status == COMPLETED
    then Five(Start(0), Look(0), Fetch(0, Invalid), FailStep(0), FinalizeStep(0, NoFault), [])
    else [Tick(wait)]
         + Five(Start(0), Look(0), ClaimImage(0), Fetch(0, Invalid), FailStep(0), [FinalizeStep(0, NoFault)] + [])
  }

  /** An image that turns out invalid gives the receipt its fallback row. */
  lemma InvalidFinalizes(s: State)
    requires 0 in s.deliveries && s.deliveries[0] == Fetches && s.t.version.None?
    ensures Next(Next(Next(s, Fetch(0, Invalid)), FailStep(0)), FinalizeStep(0, NoFault)).t.version.Some?
  {
    var s1 := Next(s, Fetch(0, Invalid));
    assert s1.deliveries[0] == Fails(ImageFetch, true);
    var s2 := Next(s1, FailStep(0));
    assert s2.deliveries[0] == Finalizes;
  }

  lemma RevivalSkips(s: State)
    requires s.deliveries == map[] && s.t.version.None? && s.t.image.Some? && s.t.image.value.status == COMPLETED
    ensures Run(s, Revival(s.t)).t.version.Some?
  {
    RunFive(s, Start(0), Look(0), Fetch(0, Invalid), FailStep(0), FinalizeStep(0, NoFault), []);
    var s2 := Next(Next(s, Start(0)), Look(0));
    assert s2.deliveries[0] == Fetches;
    hide Next;
    InvalidFinalizes(s2);
  }

  lemma RevivalClaims(s: State)
    requires s.deliveries == map[] && s.t.version.None? && Claimable(s.t.image, s.t.now)
             && (s.t.image.Some? ==> s.t.image.value.status != COMPLETED)
    ensures Run(s,
            Five(Start(0), Look(0), ClaimImage(0), Fetch(0, Invalid), FailStep(0),
            [FinalizeStep(0, NoFault)] + [])).t.version.Some?
  {
    RunFive(s, Start(0), Look(0), ClaimImage(0), Fetch(0, Invalid), FailStep(0), [FinalizeStep(0, NoFault)] + []);
    var s2 := Next(Next(s, Start(0)), Look(0));
    assert s2.deliveries[0] == ClaimsImage;
    var s3 := Next(s2, ClaimImage(0));
    assert s3.deliveries[0] == Fetches;
    hide Next;
    InvalidFinalizes(s3);
    RunCons(Next(Next(s3, Fetch(0, Invalid)), FailStep(0)), FinalizeStep(0, NoFault), []);
  }

  /** With nobody at work on a receipt that has no enrichment row, some run gives it one exactly
      when its image stage is not dead. */
  lemma NeverEnrichedExactly(s: State)
    requires s.deliveries == map[] && s.t.version.None?
    ensures (exists steps: seq<Step> :: Run(s, steps).t.version.Some?) <==> !Dead(s.t)
  {
    if Dead(s.t) {
      forall steps: seq<Step> ensures Run(s, steps).t.version.None? { DeadForever(s, steps); }
    } else if s.t.image.Some? && s.t.image.value.status == COMPLETED {
      RevivalSkips(s);
    } else {
      var wait :=
        if s.t.image.Some? && s.t.image.value.lockedUntil.Some? then s.t.image.value.lockedUntil.value + 1 else 0;
      var rest :=
        Five(Start(0), Look(0), ClaimImage(0), Fetch(0, Invalid), FailStep(0), [FinalizeStep(0, NoFault)] + []);
      RunCons(s, Tick(wait), rest);
      RevivalClaims(Next(s, Tick(wait)));
      assert Run(s, Revival(s.t)).t.version.Some?;
    }
  }

  /** A crash between failing the image stage for good and writing the fallback row leaves it dead. */
  lemma CrashLeavesDead()
    ensures var steps := Five(Start(1), Look(1), ClaimImage(1), Fetch(1, Invalid), FailStep(1), [Crash(1)] + []);
            DeadInv(Run(EMPTY, steps)) && Run(EMPTY, steps).deliveries == map[]
  {
    RunFive(EMPTY, Start(1), Look(1), ClaimImage(1), Fetch(1, Invalid), FailStep(1), [Crash(1)] + []);
    var s1 := Next(EMPTY, Start(1));
    assert s1.deliveries == map[1 := LooksAtImage];
    var s2 := Next(s1, Look(1));
    assert s2.deliveries == map[1 := ClaimsImage];
    var s3 := Next(s2, ClaimImage(1));
    assert s3.deliveries == map[1 := Fetches];
    var s4 := Next(s3, Fetch(1, Invalid));
    assert s4.deliveries == map[1 := Fails(ImageFetch, true)];
    var s5 := Next(s4, FailStep(1));
    assert s5.deliveries == map[1 := Finalizes];
    RunCons(s5, Crash(1), []);
  }

  // ---------------------------------------------------------------- one delivery, from start to end

  ghost predicate Reaches(a: State, b: State) { exists steps: seq<Step> :: Run(a, steps) == b }

  lemma ReachesSelf(a: State)
    ensures Reaches(a, a)
  {
    assert Run(a, []) == a;
  }

  lemma ReachesNext(a: State, b: State, step: Step)
    requires Reaches(a, b)
    ensures Reaches(a, Next(b, step))
  {
    hide Next;
    var steps: seq<Step> :| Run(a, steps) == b;
    RunAppend(a, steps, [step]);
    RunCons(b, step, []);
    assert [step] + [] == [step];
    assert Run(a, steps + [step]) == Next(b, step);
  }

  /** The tables with one delivery in flight, or with none. */
  ghost function Alone(t: Tables, c: Option<Delivery>): State { State(t, if c.Some? then map[0 := c.value] else map[]) }

  /** One step of the only delivery. */
  ghost predicate Moves(t: Tables, c: Option<Delivery>, step: Step, t': Tables, c': Option<Delivery>) {
    Next(Alone(t, c), step) == Alone(t', c')
  }

  lemma AloneGo(t: Tables, c: Delivery, c': Delivery, t': Tables)
    ensures Go(Alone(t, Some(c)), 0, c').(t := t') == Alone(t', Some(c'))
    ensures End(Alone(t, Some(c)), 0).(t := t') == Alone(t', None)
  {
    assert map[0 := c][0 := c'] == map[0 := c'];
    assert map[0 := c] - {0} == map[];
  }

  lemma MoveStart(t: Tables)
    requires t.version.None?
    ensures Moves(t, None, Start(0), t, Some(LooksAtImage))
  {
    assert map[][0 := LooksAtImage] == map[0 := LooksAtImage];
  }

  lemma MoveLook(t: Tables)
    ensures Moves(t, Some(LooksAtImage), Look(0), t,
            Some(if t.image.Some? && t.image.value.status == COMPLETED then Fetches else ClaimsImage))
  {
    AloneGo(t, LooksAtImage, Fetches, t);
    AloneGo(t, LooksAtImage, ClaimsImage, t);
  }

  lemma MoveClaim(t: Tables, stage: Stage)
    ensures var c := if stage == ImageFetch then ClaimsImage else ClaimsOcr;
            Moves(t, Some(c), if stage == ImageFetch then ClaimImage(0) else ClaimOcr(0), ClaimStage(t, stage),
                  if Claimable(StageOf(t, stage), t.now) then Some(if stage == ImageFetch then Fetches else Reads)
                  else None)
  {
    hide Claimable;
    AloneGo(t, ClaimsImage, Fetches, ClaimStage(t, ImageFetch));
    AloneGo(t, ClaimsOcr, Reads, ClaimStage(t, Ocr));
  }

  lemma MoveFetch(t: Tables, fetched: Fetched)
    ensures Moves(t, Some(Fetches), Fetch(0, fetched), if fetched == Good then CompleteStage(t, ImageFetch) else t,
                  Some(if fetched == Good then ClaimsOcr else Fails(ImageFetch, fetched == Invalid)))
  {
    hide CompleteStage;
    AloneGo(t, Fetches, ClaimsOcr, CompleteStage(t, ImageFetch));
    AloneGo(t, Fetches, Fails(ImageFetch, true), t);
    AloneGo(t, Fetches, Fails(ImageFetch, false), t);
  }

  lemma MoveRead(t: Tables, succeeds: bool, fault: Fault)
    ensures Moves(t, Some(Reads), Read(0, succeeds, fault),
            if succeeds && fault != Aborted then SaveOcrResult(t) else t,
                  if succeeds && fault == NoFault then None else Some(Fails(Ocr, false)))
  {
    hide SaveOcrResult;
    AloneGo(t, Reads, Fails(Ocr, false), t);
    AloneGo(t, Reads, Fails(Ocr, false), SaveOcrResult(t));
  }

  lemma MoveFail(t: Tables, stage: Stage, terminal: bool)
    ensures var t' := FailStage(t, stage, terminal);
            Moves(t, Some(Fails(stage, terminal)), FailStep(0), t',
              if terminal || FailedForGood(t', stage) then Some(Finalizes) else None)
  {
    hide FailStage, FailedForGood;
    AloneGo(t, Fails(stage, terminal), Finalizes, FailStage(t, stage, terminal));
  }

  lemma MoveFinalize(t: Tables, fault: Fault)
    ensures Moves(t, Some(Finalizes), FinalizeStep(0, fault), if fault == Aborted then t else Upsert(t), None)
  {
    hide Upsert;
    AloneGo(t, Finalizes, Finalizes, t);
    AloneGo(t, Finalizes, Finalizes, Upsert(t));
  }

  // What one delivery does, by function.

  /** The fallback after a stage failed: nothing, or the row a human must look at. */
  function FailedAndFinalized(t: Tables, stage: Stage, terminal: bool, fault: Fault): (Tables, bool) {
    var t' := FailStage(t, stage, terminal);
    if !terminal && !FailedForGood(t', stage) then (t', false)
    else if fault == Aborted then (t', false)
    else (Upsert(t'), fault == NoFault)
  }

  /** From the OCR claim on. */
  function ReadAndSaved(t: Tables, succeeds: bool, saved: Fault, finalized: Fault): (Tables, bool) {
    var t' := ClaimStage(t, Ocr);
    if !Claimable(t.ocr, t.now) then (t', t'.version.Some?)
    else if succeeds && saved == NoFault then (SaveOcrResult(t'), true)
    else FailedAndFinalized(if succeeds && saved == ReplyLost then SaveOcrResult(t') else t', Ocr, false, finalized)
  }

  function FetchedAndRead(t: Tables, fetched: Fetched, succeeds: bool, saved: Fault, finalized: Fault): (Tables, bool) {
    if fetched != Good then FailedAndFinalized(t, ImageFetch, fetched == Invalid, finalized)
    else ReadAndSaved(CompleteStage(t, ImageFetch), succeeds, saved, finalized)
  }

  /** A whole delivery, and whether it returns a result; otherwise it raises and the event is delivered again. */
  function Processed(t: Tables, fetched: Fetched, succeeds: bool, saved: Fault, finalized: Fault): (Tables, bool) {
    if t.version.Some? then (t, true)
    else if t.image.Some? && t.image.value.status == COMPLETED
    then FetchedAndRead(t, fetched, succeeds, saved, finalized)
    else if !Claimable(t.image, t.now) then (t, false)
    else FetchedAndRead(ClaimStage(t, ImageFetch), fetched, succeeds, saved, finalized)
  }

  lemma FallbackIsRun(s0: State, t: Tables, stage: Stage, terminal: bool, fault: Fault)
    requires Reaches(s0, Alone(t, Some(Fails(stage, terminal))))
    ensures Reaches(s0, Alone(FailedAndFinalized(t, stage, terminal, fault).0, None))
  {
    hide Next, Reaches, Alone, FailStage, Upsert, FailedForGood;
    var t' := FailStage(t, stage, terminal);
    MoveFail(t, stage, terminal);
    ReachesNext(s0, Alone(t, Some(Fails(stage, terminal))), FailStep(0));
    if terminal || FailedForGood(t', stage) {
      MoveFinalize(t', fault);
      ReachesNext(s0, Alone(t', Some(Finalizes)), FinalizeStep(0, fault));
    }
  }

  lemma ReadingIsRun(s0: State, t: Tables, succeeds: bool, saved: Fault, finalized: Fault)
    requires Reaches(s0, Alone(t, Some(ClaimsOcr)))
    ensures Reaches(s0, Alone(ReadAndSaved(t, succeeds, saved, finalized).0, None))
  {
    hide Next, Reaches, Alone, ClaimStage, Claimable, SaveOcrResult, FailedAndFinalized;
    var t' := ClaimStage(t, Ocr);
    MoveClaim(t, Ocr);
    ReachesNext(s0, Alone(t, Some(ClaimsOcr)), ClaimOcr(0));
    if Claimable(t.ocr, t.now) {
      MoveRead(t', succeeds, saved);
      ReachesNext(s0, Alone(t', Some(Reads)), Read(0, succeeds, saved));
      if !(succeeds && saved == NoFault) {
        FallbackIsRun(s0, if succeeds && saved == ReplyLost then SaveOcrResult(t') else t', Ocr, false, finalized);
      }
    }
  }

  lemma FetchingIsRun(s0: State, t: Tables, fetched: Fetched, succeeds: bool, saved: Fault, finalized: Fault)
    requires Reaches(s0, Alone(t, Some(Fetches)))
    ensures Reaches(s0, Alone(FetchedAndRead(t, fetched, succeeds, saved, finalized).0, None))
  {
    hide Next, Reaches, Alone, CompleteStage, ReadAndSaved, FailedAndFinalized;
    MoveFetch(t, fetched);
    ReachesNext(s0, Alone(t, Some(Fetches)), Fetch(0, fetched));
    if fetched == Good { ReadingIsRun(s0, CompleteStage(t, ImageFetch), succeeds, saved, finalized); }
    else { FallbackIsRun(s0, t, ImageFetch, fetched == Invalid, finalized); }
  }

  /** A delivery running alone is a run of the protocol, so the theorems above hold of it. */
  lemma DeliveryIsRun(t: Tables, fetched: Fetched, succeeds: bool, saved: Fault, finalized: Fault)
    ensures Reaches(Alone(t, None), Alone(Processed(t, fetched, succeeds, saved, finalized).0, None))
  {
    hide Next, Reaches, Alone, ClaimStage, Claimable, FetchedAndRead;
    var s0 := Alone(t, None);
    ReachesSelf(s0);
    if t.version.None? {
      MoveStart(t);
      ReachesNext(s0, s0, Start(0));
      MoveLook(t);
      ReachesNext(s0, Alone(t, Some(LooksAtImage)), Look(0));
      if t.image.Some? && t.image.value.status == COMPLETED {
        FetchingIsRun(s0, t, fetched, succeeds, saved, finalized);
      } else {
        MoveClaim(t, ImageFetch);
        ReachesNext(s0, Alone(t, Some(ClaimsImage)), ClaimImage(0));
        if Claimable(t.image, t.now) {
          FetchingIsRun(s0, ClaimStage(t, ImageFetch), fetched, succeeds, saved, finalized);
        } else { NotClaimed(t, ImageFetch); }
      }
    }
  }

  lemma NotClaimed(t: Tables, stage: Stage)
    requires !Claimable(StageOf(t, stage), t.now)
    ensures ClaimStage(t, stage) == t
  {
  }

  /** A delivery returns only a result that is stored. With nothing stored yet and no commit in
      doubt it stores one, with its callback, exactly when it returns: after OCR succeeded, or after
      the stage that failed can never be claimed again. */
  lemma DeliveryMeans(t: Tables, fetched: Fetched, succeeds: bool, saved: Fault, finalized: Fault)
    requires t.version.None? && saved != ReplyLost && finalized != ReplyLost
    ensures var (t', returned) := Processed(t, fetched, succeeds, saved, finalized);
            && (returned <==> t'.version.Some?)
            && (returned ==> t'.version == Some(1) && t'.callbacks == t.callbacks + {1})
            && (!returned ==> t'.callbacks == t.callbacks)
            && (returned && !(fetched == Good && succeeds && saved == NoFault) ==>
              FailedForGood(t', ImageFetch) || FailedForGood(t', Ocr))
  {
  }

  /** Nobody has had the stage, or it was put back, or its claim has run out; and not five times yet. */
  predicate Free(row: Option<StageRow>, now: nat) {
    row.None? || (row.value.attempts < 5
                  && (row.value.status == FAILED_RETRYABLE
                      || (row.value.status == PROCESSING && row.value.lockedUntil.Some?
                          && row.value.lockedUntil.value < now)))
  }

  /** A claim takes the stage exactly if it is free, for 300 seconds, and counts it. */
  lemma ClaimedExactly(t: Tables, stage: Stage)
    ensures var row := StageOf(t, stage);
            var t' := ClaimStage(t, stage);
            && StageOf(t', stage) == (if Free(row, t.now)
                                      then Some(StageRow(PROCESSING, if row.None? then 1 else row.value.attempts + 1,
                                                         Some(t.now + 300)))
                                      else row)
            && (Claimable(row, t.now) <==> Free(row, t.now))
            && t' == if stage == ImageFetch then t.(image := t'.image) else t.(ocr := t'.ocr)
  {
  }

  /** How stages are settled: only a stage being processed is completed; any stage there is, even a
      completed one, is failed, for good if it is said to be or was claimed five times; and saving the
      result completes both, whatever they are, with the next version and its callback. */
  lemma SettledExactly(t: Tables, stage: Stage, terminal: bool)
    ensures var row := StageOf(t, stage);
            && CompleteStage(t, stage) == (if row.Some? && row.value.status == PROCESSING
                                           then SetStage(t, stage, StageRow(COMPLETED, row.value.attempts, None))
                                             else t)
            && FailStage(t, stage, terminal) ==
               (if row.None? then t
                else SetStage(t, stage, StageRow(if terminal || row.value.attempts >= 5 then FAILED_TERMINAL
                                                 else FAILED_RETRYABLE, row.value.attempts, None)))
    ensures var t' := SaveOcrResult(t);
            var version := if t.version.None? then 1 else t.version.value + 1;
            t' == Tables(t.now, Some(version), t.callbacks + {version},
                         if t.image.None? then None else Some(StageRow(COMPLETED, t.image.value.attempts, None)),
                         if t.ocr.None? then None else Some(StageRow(COMPLETED, t.ocr.value.attempts, None)))
  {
  }

  /** The image stage is complete, or free to be claimed. */
  predicate ImageAtHand(t: Tables) {
    (t.image.Some? && t.image.value.status == COMPLETED) || Free(t.image, t.now)
  }

  /** This delivery makes the fifth attempt at the stage, or follows it. */
  predicate FifthTry(row: Option<StageRow>) {
    row.Some? && row.value.attempts + (if row.value.status == COMPLETED then 0 else 1) >= 5
  }

  /** When a delivery returns a result. Of an enriched receipt it does so at once and changes nothing.
      Otherwise it does exactly if the image stage is at hand and
      - the image is good, OCR is free, and OCR succeeds and is saved, or fails the fifth time;
      - or the image is no image, or cannot be fetched the fifth time;
      in the last three cases provided that the fallback row is saved. */
  lemma DeliveryReturnsExactly(t: Tables, fetched: Fetched, succeeds: bool, saved: Fault, finalized: Fault)
    ensures var (t', returned) := Processed(t, fetched, succeeds, saved, finalized);
            && (t.version.Some? ==> returned && t' == t)
            && (t.version.None? ==>
                  (returned <==>
                     && ImageAtHand(t)
                     && match fetched
                        case Good =>
                          && Free(t.ocr, t.now)
                          && ((succeeds && saved == NoFault) || (FifthTry(t.ocr) && finalized == NoFault))
                        case Invalid => finalized == NoFault
                        case Unreachable => FifthTry(t.image) && finalized == NoFault))
  {
  }

  /** What a delivery leaves. If OCR succeeds and is saved, version 1 with its callback and both stages
      complete; if the image stage is not at hand, nothing has changed; if the image is bad or OCR fails,
      the stage is FAILED_TERMINAL at the fifth try or if there is no image, else FAILED_RETRYABLE, and
      only in the former case the fallback row is written. */
  lemma DeliveryLeaves(t: Tables, fetched: Fetched, succeeds: bool, saved: Fault, finalized: Fault)
    requires t.version.None?
    ensures var t' := Processed(t, fetched, succeeds, saved, finalized).0;
            if !ImageAtHand(t) then t' == t
            else if fetched != Good then
              var last := fetched == Invalid || FifthTry(t.image);
              && t'.image.Some? && t'.image.value.lockedUntil == None && t'.ocr == t.ocr
              && t'.image.value.status == (if last then FAILED_TERMINAL else FAILED_RETRYABLE)
              && (t'.version, t'.callbacks) ==
                 (if last && finalized != Aborted then (Some(1), t.callbacks + {1}) else (None, t.callbacks))
            else if !Free(t.ocr, t.now) then
              t'.ocr == t.ocr && t'.image.Some? && t'.image.value.status == COMPLETED && t'.version == None
            else if succeeds && saved == NoFault then
              && t'.version == Some(1) && t'.callbacks == t.callbacks + {1}
              && t'.image.Some? && t'.image.value.status == COMPLETED
              && t'.ocr == Some(StageRow(COMPLETED, if t.ocr.None? then 1 else t.ocr.value.attempts + 1, None))
            else
              && t'.ocr.Some? && t'.ocr.value.lockedUntil == None
              && t'.ocr.value.attempts == (if t.ocr.None? then 1 else t.ocr.value.attempts + 1)
              && t'.ocr.value.status == if FifthTry(t.ocr) then FAILED_TERMINAL else FAILED_RETRYABLE
  {
    hide ReadAndSaved, FailedAndFinalized, Claimable;
    ClaimedExactly(t, ImageFetch);
    var t1 := if t.image.Some? && t.image.value.status == COMPLETED then t else ClaimStage(t, ImageFetch);
    if ImageAtHand(t) {
      FailureLeaves(t1, ImageFetch, fetched == Invalid, finalized);
      ReadLeaves(CompleteStage(t1, ImageFetch), succeeds, saved, finalized);
    }
  }

  lemma FailureLeaves(t: Tables, stage: Stage, terminal: bool, fault: Fault)
    requires StageOf(t, stage).Some?
    ensures var row := StageOf(t, stage).value;
            var t' := FailedAndFinalized(t, stage, terminal, fault).0;
            var last := terminal || row.attempts >= 5;
            var status := if last then FAILED_TERMINAL else FAILED_RETRYABLE;
            && StageOf(t', stage) == Some(StageRow(status, row.attempts, None))
            && StageOf(t', if stage == Ocr then ImageFetch else Ocr) ==
              StageOf(t, if stage == Ocr then ImageFetch else Ocr)
            && (t.version.None? ==>
                  (t'.version, t'.callbacks) ==
                  (if last && fault != Aborted then (Some(1), t.callbacks + {1}) else (None, t.callbacks)))
  {
  }

  lemma ReadLeaves(t: Tables, succeeds: bool, saved: Fault, finalized: Fault)
    requires t.version.None? && t.image.Some? && t.image.value.status == COMPLETED
    ensures var t' := ReadAndSaved(t, succeeds, saved, finalized).0;
            && t'.image.Some? && t'.image.value.status == COMPLETED
            && if !Free(t.ocr, t.now) then t'.ocr == t.ocr && t'.version == None
               else
                 var attempts := if t.ocr.None? then 1 else t.ocr.value.attempts + 1;
                 if succeeds && saved == NoFault then
                   && t'.version == Some(1) && t'.callbacks == t.callbacks + {1}
                   && t'.ocr == Some(StageRow(COMPLETED, attempts, None))
                 else
                   && t'.ocr.Some? && t'.ocr.value.lockedUntil == None && t'.ocr.value.attempts == attempts
                   && t'.ocr.value.status == if attempts >= 5 then FAILED_TERMINAL else FAILED_RETRYABLE
  {
    hide FailedAndFinalized, Claimable;
    ClaimedExactly(t, Ocr);
    var t1 := ClaimStage(t, Ocr);
    if Free(t.ocr, t.now) {
      FailureLeaves(if succeeds && saved == ReplyLost then SaveOcrResult(t1) else t1, Ocr, false, finalized);
    }
  }

  class EnrichmentStore {
    var now: nat
    var version: Option<nat>
    var callbacks: set<nat>
    var image: Option<StageRow>
    var ocr: Option<StageRow>

    ghost function View(): Tables
      reads this
    {
      Tables(now, version, callbacks, image, ocr)
    }

    method Stage(stage: Stage) returns (row: Option<StageRow>)
      ensures row == StageOf(View(), stage)
    {
      row := if stage == ImageFetch then image else ocr;
    }

    method Put(stage: Stage, row: StageRow)
      modifies `image, `ocr
      ensures View() == SetStage(old(View()), stage, row)
    {
      if stage == ImageFetch { image := Some(row); } else { ocr := Some(row); }
    }

    method Claim(stage: Stage) returns (claimed: bool)
      modifies `image, `ocr
      ensures View() == ClaimStage(old(View()), stage) && claimed == Claimable(StageOf(old(View()), stage), now)
    {
      var row := Stage(stage);
      if row.None? {
        Put(stage, StageRow(PROCESSING, 1, Some(now + STAGE_LEASE)));
        return true;
      }
      var r := row.value;
      claimed := (r.status == FAILED_RETRYABLE
        || (r.status == PROCESSING && r.lockedUntil.Some? && r.lockedUntil.value < now))
                 && r.attempts < STAGE_ATTEMPTS;
      if claimed { Put(stage, StageRow(PROCESSING, r.attempts + 1, Some(now + STAGE_LEASE))); }
    }

    method Complete(stage: Stage)
      modifies `image, `ocr
      ensures View() == CompleteStage(old(View()), stage)
    {
      var row := Stage(stage);
      if row.Some? && row.value.status == PROCESSING {
        Put(stage, row.value.(status := COMPLETED, lockedUntil := None));
      }
    }

    method Fail(stage: Stage, terminal: bool) returns (forGood: bool)
      modifies `image, `ocr
      ensures View() == FailStage(old(View()), stage, terminal) && forGood == FailedForGood(View(), stage)
    {
      var row := Stage(stage);
      if row.None? { return false; }
      forGood := terminal || row.value.attempts >= STAGE_ATTEMPTS;
      Put(stage, row.value.(status := if forGood then FAILED_TERMINAL else FAILED_RETRYABLE, lockedUntil := None));
    }

    method InsertOrBump()
      modifies `version, `callbacks
      ensures View() == Upsert(old(View()))
    {
      var next := if version.Some? then version.value + 1 else 1;
      version := Some(next);
      callbacks := callbacks + {next};
    }

    method SaveOcr()
      modifies `version, `callbacks, `image, `ocr
      ensures View() == SaveOcrResult(old(View()))
    {
      InsertOrBump();
      image := FinishStage(image);
      ocr := FinishStage(ocr);
    }

    method FailAndFinalize(stage: Stage, terminal: bool, fault: Fault) returns (returned: bool)
      modifies this
      ensures (View(), returned) == FailedAndFinalized(old(View()), stage, terminal, fault)
    {
      hide FailStage, FailedForGood;
      var forGood := Fail(stage, terminal);
      if !terminal && !forGood { return false; }
      if fault == Aborted { return false; }
      InsertOrBump();
      returned := fault == NoFault;
    }

    /** The whole delivery: look for a result, fetch the image under its lease, read it under another,
        and fall back when a stage fails for good. */
    method ProcessReceiptEvent(fetched: Fetched, succeeds: bool, saved: Fault, finalized: Fault)
        returns (returned: bool)
      modifies this
      ensures (View(), returned) == Processed(old(View()), fetched, succeeds, saved, finalized)
    {
      hide FailedAndFinalized, ReadAndSaved, CompleteStage, Claimable;
      if version.Some? { return true; }
      if !(image.Some? && image.value.status == COMPLETED) {
        var claimed := Claim(ImageFetch);
        if !claimed { return false; }
      }
      if fetched != Good {
        returned := FailAndFinalize(ImageFetch, fetched == Invalid, finalized);
        return;
      }
      Complete(ImageFetch);
      returned := ReadAndSave(succeeds, saved, finalized);
    }

    method ReadAndSave(succeeds: bool, saved: Fault, finalized: Fault) returns (returned: bool)
      modifies this
      ensures (View(), returned) == ReadAndSaved(old(View()), succeeds, saved, finalized)
    {
      hide FailedAndFinalized, Claimable;
      var claimed := Claim(Ocr);
      if !claimed { return version.Some?; }
      if succeeds && saved != Aborted { SaveOcr(); }
      if succeeds && saved == NoFault { return true; }
      returned := FailAndFinalize(Ocr, false, finalized);
    }
  }
}
