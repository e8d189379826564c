/** Two dead ends. The service never opens a second session for a receipt, so one whose session has expired
    or failed is never accepted. And a device that remembers a session whose parts are swept sends them
    again and is refused, so it does not learn that the receipt was accepted. */
module ReceiptSyncEnds {
  import opened Basics
  import opened UploadTables
  import opened UploadProtocol
  import opened UploadProofs
  import opened UploadTheorems
  import UploadExposure
  import opened Reassembly
  import opened DeviceTables
  import opened ReceiptSync
  import opened ReceiptSyncProofs
  import opened ReceiptSyncSafety

  /** The session of the receipt has ended without it, and none was ever charged for it. */
  ghost predicate DeadEnd(s: State, r: ReceiptId) {
    && r in s.t.sessionOf && s.t.sessionOf[r] in s.t.sessions
    && (s.t.sessions[s.t.sessionOf[r]].status == FAILED || s.t.sessions[s.t.sessionOf[r]].status == EXPIRED)
    && forall u :: u in s.h.charged ==> u in s.h.openings && s.h.openings[u].receipt != r
  }

  /** A session keeps its row unless its receipt goes. */
  lemma RowStays(sha: Hash, s: State, step: Step, u: UploadId)
    requires Inv(sha, s) && u in s.t.sessions
    requires s.t.sessions[u].receipt !in s.t.receipts || s.t.sessions[u].receipt in Next(sha, s, step).t.receipts
    ensures u in Next(sha, s, step).t.sessions
  {
    if step.PurgeReceipts? { RowSurvives(s, step, u, sha); }
    else if !WritesSession(step) { RowUntouched(sha, s, step, u); }
    else { RowWritten(sha, s, step, u); }
  }

  lemma RowSurvives(s: State, step: Step, u: UploadId, sha: Hash)
    requires step.PurgeReceipts? && u in s.t.sessions
    requires s.t.sessions[u].receipt !in s.t.receipts || s.t.sessions[u].receipt in Next(sha, s, step).t.receipts
    ensures u in Next(sha, s, step).t.sessions
  {
    hide Without, LeakMore;
  }

  lemma RowUntouched(sha: Hash, s: State, step: Step, u: UploadId)
    requires !WritesSession(step) && u in s.t.sessions
    ensures u in Next(sha, s, step).t.sessions
  {
    hide Next;
    OtherStepsKeep(sha, s, step);
  }

  lemma RowWritten(sha: Hash, s: State, step: Step, u: UploadId)
    requires WritesSession(step) && !step.PurgeReceipts? && u in s.t.sessions
    ensures u in Next(sha, s, step).t.sessions
  {
    hide RowsOf, Claim, Create, RecordImageKey, SetStatus, Commit, CommitError, Expire;
    if step.OpenSession? { CreateRows(s.t, step, u); }
    if step.ClaimSession? { StatusRows(s.t, u, step.u, step.device); }
    if (step.RecordKey? || step.Release? || step.CommitReceipt? || step.ExpireSession?) && step.p in s.procs {
      var c := s.procs[step.p];
      if c.Assembled? { KeyRows(s.t, u, c.upload, ImageKey(c.row.receipt, s.t.now / DAY)); }
      if c.Releasing? { SetRows(s.t, u, c.upload, COMPLETING, c.to); }
      if c.Stored? && step.CommitReceipt? { CommitRow(s.t, u, c, step.day); }
      if c.Cleaning? { ExpireRows(s.t, u, c.upload); }
    }
  }

  lemma CreateRows(t: Tables, step: Step, u: UploadId)
    requires step.OpenSession? && u in t.sessions
    ensures u in Create(t, step.device, step.request, step.paused, step.vendorKnown).sessions
  {
    hide CreateAnswerFor;
  }

  lemma StatusRows(t: Tables, u: UploadId, v: UploadId, device: Device)
    requires u in t.sessions
    ensures u in Claim(t, device, v).sessions
  {
  }

  lemma SetRows(t: Tables, u: UploadId, v: UploadId, expected: Status, next: Status)
    requires u in t.sessions
    ensures u in SetStatus(t, v, expected, next).sessions
  {
  }

  lemma KeyRows(t: Tables, u: UploadId, v: UploadId, key: Key)
    requires u in t.sessions
    ensures u in RecordImageKey(t, v, key).sessions
  {
  }

  lemma CommitRow(t: Tables, u: UploadId, c: Process, day: DayVerdict)
    requires u in t.sessions && c.Stored?
    ensures u in Commit(t, c.upload, c.body, c.key, c.row.digest, day).sessions
  {
    hide CommitError;
  }

  lemma ExpireRows(t: Tables, u: UploadId, v: UploadId)
    requires u in t.sessions
    ensures u in Expire(t, v).sessions
  {
    hide SetStatus;
    var cleared := DeletePartRows(t, v);
    SetRows(cleared, u, v, OPEN, EXPIRED);
    SetRows(SetStatus(cleared, v, OPEN, EXPIRED), u, v, COMPLETING, EXPIRED);
  }

  /** What is charged was charged before, or is a session there is. */
  lemma ChargedNow(sha: Hash, s: State, step: Step, u: UploadId)
    requires u in Next(sha, s, step).h.charged && u !in s.h.charged
    ensures u in Next(sha, s, step).t.sessions
  {
    if step.CommitReceipt? { ChargedByCommit(sha, s, step, u); } else { ChargedByNone(sha, s, step); }
  }

  lemma ChargedByCommit(sha: Hash, s: State, step: Step, u: UploadId)
    requires step.CommitReceipt? && u in Next(sha, s, step).h.charged && u !in s.h.charged
    ensures u in Next(sha, s, step).t.sessions
  {
    hide PolicyActive;
  }

  lemma ChargedByNone(sha: Hash, s: State, step: Step)
    requires !step.CommitReceipt?
    ensures Next(sha, s, step).h.charged == s.h.charged
  {
    if step.OpenSession? || step.PurgeReceipts? || step.SetQuota? || step.Tick? { ChargedByTables(sha, s, step); }
    else { ChargedByProcess(sha, s, step); }
  }

  lemma ChargedByTables(sha: Hash, s: State, step: Step)
    requires step.OpenSession? || step.PurgeReceipts? || step.SetQuota? || step.Tick?
    ensures Next(sha, s, step).h.charged == s.h.charged
  {
    hide Create, Purge, LeakMore, Purgeable;
  }

  lemma ChargedByProcess(sha: Hash, s: State, step: Step)
    requires !(step.OpenSession? || step.PurgeReceipts? || step.SetQuota? || step.Tick? || step.CommitReceipt?)
    ensures Next(sha, s, step).h.charged == s.h.charged
  {
    hide CheckPart, PartBusy, Stale, Expire, FinishImage, SetTombstone, Claim, Doomed, RowsOf, RecordImageKey,
      PutObject, InsertPart, SetStatus, DeletePartRows, ClaimAnswerFor, DeleteObject, AfterRemoval, IsWebp;
  }

  lemma DeadStep(sha: Hash, s: State, step: Step, r: ReceiptId)
    requires Inv(sha, s) && DeadEnd(s, r)
    ensures DeadEnd(Next(sha, s, step), r)
  {
    hide Next, Inv, Moves, Grows;
    var s' := Next(sha, s, step);
    DeadUnknown(sha, s, r);
    StepKeeps(sha, s, step);
    StepFollowsEdges(sha, s, step);
    StepGrows(sha, s, step);
    RowStays(sha, s, step, s.t.sessionOf[r]);
    DeadRow(sha, s, s', Freed(s, step), r);
    forall v | v in s'.h.charged ensures v in s'.h.openings && s'.h.openings[v].receipt != r {
      if v in s.h.charged { SameOpening(s, s', v); } else { ChargedNow(sha, s, step, v); ChargedOther(sha, s', v, r); }
    }
  }

  lemma SameOpening(s: State, s': State, v: UploadId)
    requires Grows(s, s') && v in s.h.openings
    ensures v in s'.h.openings && s'.h.openings[v] == s.h.openings[v]
  {
  }

  lemma DeadUnknown(sha: Hash, s: State, r: ReceiptId)
    requires Inv(sha, s) && DeadEnd(s, r)
    ensures r !in s.t.receipts && s.t.sessions[s.t.sessionOf[r]].receipt == r && s.t.sessionOf[r] < s.t.nextUpload
  {
    hide ProcInv, Exclusive, PartInv, AgeInv, StorageInv, ChargeInv, OncePer, OrgInv, OpeningInv;
  }

  lemma DeadRow(sha: Hash, s: State, s': State, freed: Option<UploadId>, r: ReceiptId)
    requires DeadEnd(s, r) && Inv(sha, s') && Moves(s.t, s'.t, freed)
    requires var u := s.t.sessionOf[r];
             u in s'.t.sessions && u < s.t.nextUpload && s.t.sessions[u].receipt == r
    ensures r in s'.t.sessionOf && s'.t.sessionOf[r] == s.t.sessionOf[r] && s'.t.sessionOf[r] in s'.t.sessions
    ensures s'.t.sessions[s'.t.sessionOf[r]].status == s.t.sessions[s.t.sessionOf[r]].status
  {
    hide ProcInv, Exclusive, PartInv, AgeInv, StorageInv, ChargeInv, OncePer, OrgInv, OpeningInv, ReceiptInv;
  }

  lemma ChargedOther(sha: Hash, s: State, v: UploadId, r: ReceiptId)
    requires Inv(sha, s) && v in s.h.charged && v in s.t.sessions
    requires r in s.t.sessionOf && s.t.sessionOf[r] in s.t.sessions && s.t.sessions[s.t.sessionOf[r]].status != COMPLETE
    ensures v in s.h.openings && s.h.openings[v].receipt != r
  {
    hide ProcInv, Exclusive, PartInv, AgeInv, StorageInv, OncePer, OrgInv, ReceiptInv;
  }

  lemma MoveDead(sha: Hash, me: Device, w: World, move: Move, r: ReceiptId)
    requires Inv(sha, w.s) && DeadEnd(w.s, r)
    ensures DeadEnd(After(sha, me, w, move).s, r)
  {
    hide Next, Inv, DeadEnd, After;
    var step := MoveServes(sha, me, w, move);
    DeadStep(sha, w.s, step, r);
  }

  lemma {:induction false} StoryDead(sha: Hash, me: Device, w: World, moves: seq<Move>, r: ReceiptId)
    requires StoryInv(sha, me, w) && DeadEnd(w.s, r)
    ensures StoryInv(sha, me, Story(sha, me, w, moves)) && DeadEnd(Story(sha, me, w, moves).s, r)
    decreases |moves|
  {
    hide StoryInv, After, DeadEnd;
    if moves != [] {
      WorldServiceHolds(sha, me, w);
      MoveDead(sha, me, w, moves[0], r);
      MoveKeeps(sha, me, w, moves[0]);
      StoryDead(sha, me, After(sha, me, w, moves[0]), moves[1..], r);
    }
  }

  lemma WorldServiceHolds(sha: Hash, me: Device, w: World)
    requires StoryInv(sha, me, w)
    ensures Inv(sha, w.s)
  {
    hide Inv, PhoneInv, PostOk;
  }

  /** Once the session of a receipt that was never accepted has expired or failed, the receipt never gets
      through: whatever device and service do from then on, the device never marks it synced. */
  lemma EndedNeverSyncs(sha: Hash, me: Device, w: World, w': World, e: EventId)
    requires Told(sha, me, w) && Continues(sha, me, w, w') && e in w.d.events
    requires DeadEnd(w.s, w.d.events[e].receipt)
    ensures !IsSynced(w'.d, e)
  {
    var r := w.d.events[e].receipt;
    hide Told, Continues, StoryInv, DeadEnd, Story;
    ToldInv(sha, me, w);
    var moves := TheMoves(sha, me, w, w');
    StoryDead(sha, me, w, moves, r);
    ReceiptStays(sha, me, w, moves, e);
    if IsSynced(w'.d, e) {
      SyncedAccepted(sha, me, w', e);
      NotAccepted(w'.s, r, sha(w'.cached[e]));
    }
  }

  lemma TheMoves(sha: Hash, me: Device, w: World, w': World) returns (moves: seq<Move>)
    requires Continues(sha, me, w, w')
    ensures Story(sha, me, w, moves) == w'
  {
    hide Story;
    moves :| Story(sha, me, w, moves) == w';
  }

  lemma SyncedAccepted(sha: Hash, me: Device, w: World, e: EventId)
    requires StoryInv(sha, me, w) && IsSynced(w.d, e)
    ensures e in w.d.events && e in w.cached && Accepted(w.s.h, w.d.events[e].receipt, sha(w.cached[e]))
  {
    hide ServiceInv, Accepted, Distinct, CachedOk, KeptOk, UploadsOk, MineOk, WakeOk, ImagesOk, PostOk;
  }

  lemma NotAccepted(s: State, r: ReceiptId, digest: Digest)
    requires DeadEnd(s, r)
    ensures !Accepted(s.h, r, digest)
  {
  }

  lemma {:induction false} ReceiptStays(sha: Hash, me: Device, w: World, moves: seq<Move>, e: EventId)
    requires e in w.d.events
    ensures var w' := Story(sha, me, w, moves); e in w'.d.events && w'.d.events[e].receipt == w.d.events[e].receipt
    decreases |moves|
  {
    hide After;
    if moves != [] {
      EventsMove(sha, me, w, moves[0], e);
      ReceiptStays(sha, me, After(sha, me, w, moves[0]), moves[1..], e);
    }
  }

  /** It comes to that: a clean-up pass over a session that was opened a day ago and got no part. */
  lemma ForgottenEnds(sha: Hash, s: State, u: UploadId)
    requires s.procs == map[] && u in s.t.sessions && s.t.sessions[u].status == OPEN && s.t.sessions[u].image == None
    requires s.t.sessions[u].created + 86_400 < s.t.now && forall n :: (u, n) !in s.t.parts
    requires var r := s.t.sessions[u].receipt;
             && r in s.t.sessionOf && s.t.sessionOf[r] == u
             && forall v :: v in s.h.charged ==> v in s.h.openings && s.h.openings[v].receipt != r
    ensures DeadEnd(Run(sha, s, [SelectStale(0, u)] + ([LoadKeys(0)] + ([ExpireSession(0)] + []))),
              s.t.sessions[u].receipt)
  {
    var s1 := Set(s, 0, Selected(u, OPEN, None));
    var s2 := Set(s1, 0, Cleaning(u, OPEN, []));
    var s3 := End(s2, 0).(t := Expire(s.t, u));
    Selects(sha, s, u);
    Loads(sha, s1, u);
    Expires(sha, s2, u);
    ExpiredRow(s.t, u);
    hide Next, Expire;
    RunCons(sha, s, SelectStale(0, u), [LoadKeys(0)] + ([ExpireSession(0)] + []));
    RunCons(sha, s1, LoadKeys(0), [ExpireSession(0)] + []);
    RunCons(sha, s2, ExpireSession(0), []);
  }

  lemma Selects(sha: Hash, s: State, u: UploadId)
    requires 0 !in s.procs && u in s.t.sessions && s.t.sessions[u].status == OPEN && s.t.sessions[u].image == None
    requires s.t.sessions[u].created + 86_400 < s.t.now
    ensures Next(sha, s, SelectStale(0, u)) == Set(s, 0, Selected(u, OPEN, None))
  {
  }

  lemma Loads(sha: Hash, s: State, u: UploadId)
    requires 0 in s.procs && s.procs[0] == Selected(u, OPEN, None) && forall n :: (u, n) !in s.t.parts
    ensures Next(sha, s, LoadKeys(0)) == Set(s, 0, Cleaning(u, OPEN, []))
  {
    if u in s.t.sessions { NoRows(s.t, u, 0, PartCount(s.t.sessions[u].total)); }
    assert RowsOf(s.t, u) == [] && KeysOf([]) == [];
    assert Doomed(s.t, u, OPEN, None) == [];
  }

  lemma Expires(sha: Hash, s: State, u: UploadId)
    requires 0 in s.procs && s.procs[0] == Cleaning(u, OPEN, [])
    ensures Next(sha, s, ExpireSession(0)) == End(s, 0).(t := Expire(s.t, u))
  {
    hide Expire;
  }

  lemma ExpiredRow(t: Tables, u: UploadId)
    requires u in t.sessions && t.sessions[u].status == OPEN
    ensures var t' := Expire(t, u);
            t'.sessionOf == t.sessionOf && u in t'.sessions && t'.sessions[u].status == EXPIRED
  {
    hide DeletePartRows;
    assert DeletePartRows(t, u).sessions == t.sessions && DeletePartRows(t, u).sessionOf == t.sessionOf by {
      RowsOnly(t, u);
    }
  }

  lemma RowsOnly(t: Tables, u: UploadId)
    ensures DeletePartRows(t, u).sessions == t.sessions && DeletePartRows(t, u).sessionOf == t.sessionOf
  {
  }

  lemma {:induction false} NoRows(t: Tables, u: UploadId, n: nat, count: nat)
    requires n <= count && forall m :: (u, m) !in t.parts
    ensures PartRows(t, u, n, count) == []
    decreases count - n
  {
    if n < count { NoRows(t, u, n + 1, count); }
  }

  // ---------------------------------------------------------------- accepted, but the device does not learn it

  /** There is no part row of the session, and nobody is writing one. */
  ghost predicate Partless(s: State, u: UploadId) {
    && (forall n :: (u, n) !in s.t.parts)
    && forall p :: p in s.procs && s.procs[p].Putting? ==> s.procs[p].upload != u
  }

  predicate CompleteRow(s: State, u: UploadId) { u in s.t.sessions && s.t.sessions[u].status == COMPLETE }

  /** The session is complete, its part rows are gone, and nobody is writing a part of it. */
  ghost predicate SweptOut(s: State, u: UploadId, me: Device, r: ReceiptId) {
    CompleteRow(s, u) && s.t.sessions[u].owner == me && s.t.sessions[u].receipt == r && Partless(s, u)
  }

  /** No step puts a part of a complete session: neither a row nor a request that will write one. */
  lemma NoPartAgain(sha: Hash, s: State, step: Step, u: UploadId)
    requires Partless(s, u) && CompleteRow(s, u)
    ensures Partless(Next(sha, s, step), u)
  {
    hide Partless, CompleteRow, Next;
    match step
    case PutCheck(_, _, _, _, _, _) => NoPartPut(sha, s, step, u);
    case PutWrite(_) => NoPartPut(sha, s, step, u);
    case PutInsert(_) => NoPartPut(sha, s, step, u);
    case SweepRows(_) => NoPartSwept(sha, s, step, u);
    case ExpireSession(_) => NoPartExpired(sha, s, step, u);
    case PurgeReceipts(_, _) => NoPartPurged(sha, s, step, u);
    case OpenSession(_, _, _, _) => NoPartOpened(sha, s, step, u);
    case ClaimSession(_, _, _) => NoPartClaimed(sha, s, step, u);
    case SelectStale(_, _) => NoPartSelected(sha, s, step, u);
    case ListObject(_, _) => NoPartSelected(sha, s, step, u);
    case SelectImage(_, _) => NoPartSelected(sha, s, step, u);
    case SetQuota(_, _) => NoPartOpened(sha, s, step, u);
    case Crash(_) => NoPartOpened(sha, s, step, u);
    case Tick(_) => NoPartOpened(sha, s, step, u);
    case ReadPart(_, _) => NoPartRead(sha, s, step, u);
    case Inspect(_) => NoPartRead(sha, s, step, u);
    case RecordKey(_) => NoPartCompleted(sha, s, step, u);
    case WriteImage(_) => NoPartCompleted(sha, s, step, u);
    case CommitReceipt(_, _, _) => NoPartCompleted(sha, s, step, u);
    case DeleteImage(_, _) => NoPartDeleted(sha, s, step, u);
    case Release(_) => NoPartDeleted(sha, s, step, u);
    case SweepPart(_, _) => NoPartDeleted(sha, s, step, u);
    case LoadKeys(_) => NoPartCleaned(sha, s, step, u);
    case DeleteKey(_) => NoPartCleaned(sha, s, step, u);
    case CheckTracked(_) => NoPartCleaned(sha, s, step, u);
    case DeleteUntracked(_) => NoPartCleaned(sha, s, step, u);
    case MarkImage(_) => NoPartRetained(sha, s, step, u);
    case DropImage(_, _) => NoPartRetained(sha, s, step, u);
    case FinishRetention(_) => NoPartRetained(sha, s, step, u);
  }

  lemma NoPartPut(sha: Hash, s: State, step: Step, u: UploadId)
    requires Partless(s, u) && CompleteRow(s, u) && (step.PutCheck? || step.PutWrite? || step.PutInsert?)
    ensures Partless(Next(sha, s, step), u)
  {
    hide PartBusy;
  }

  lemma NoPartSwept(sha: Hash, s: State, step: Step, u: UploadId)
    requires Partless(s, u) && CompleteRow(s, u) && (step.SweepRows?)
    ensures Partless(Next(sha, s, step), u)
  {
    hide Expire;
  }

  lemma NoPartExpired(sha: Hash, s: State, step: Step, u: UploadId)
    requires Partless(s, u) && CompleteRow(s, u) && (step.ExpireSession?)
    ensures Partless(Next(sha, s, step), u)
  {
    hide Expire;
    forall v ensures Expire(s.t, v).parts == DeletePartRows(s.t, v).parts { ExpireParts(s.t, v); }
  }

  lemma NoPartPurged(sha: Hash, s: State, step: Step, u: UploadId)
    requires Partless(s, u) && CompleteRow(s, u) && (step.PurgeReceipts?)
    ensures Partless(Next(sha, s, step), u)
  {
    hide Without, LeakMore;
  }

  lemma NoPartOpened(sha: Hash, s: State, step: Step, u: UploadId)
    requires Partless(s, u) && CompleteRow(s, u) && (step.OpenSession? || step.SetQuota? || step.Crash? || step.Tick?)
    ensures Partless(Next(sha, s, step), u)
  {
    hide CreateAnswerFor;
  }

  lemma NoPartClaimed(sha: Hash, s: State, step: Step, u: UploadId)
    requires Partless(s, u) && CompleteRow(s, u) && (step.ClaimSession?)
    ensures Partless(Next(sha, s, step), u)
  {
    hide ClaimAnswerFor, RowsOf;
  }

  lemma NoPartSelected(sha: Hash, s: State, step: Step, u: UploadId)
    requires Partless(s, u) && CompleteRow(s, u) && (step.SelectStale? || step.ListObject? || step.SelectImage?)
    ensures Partless(Next(sha, s, step), u)
  {
    hide Stale;
  }

  lemma NoPartRead(sha: Hash, s: State, step: Step, u: UploadId)
    requires Partless(s, u) && CompleteRow(s, u) && (step.ReadPart? || step.Inspect?)
    ensures Partless(Next(sha, s, step), u)
  {
    hide IsWebp;
  }

  lemma NoPartCompleted(sha: Hash, s: State, step: Step, u: UploadId)
    requires Partless(s, u) && CompleteRow(s, u) && (step.RecordKey? || step.WriteImage? || step.CommitReceipt?)
    ensures Partless(Next(sha, s, step), u)
  {
    hide CommitError;
  }

  lemma NoPartDeleted(sha: Hash, s: State, step: Step, u: UploadId)
    requires Partless(s, u) && CompleteRow(s, u) && (step.DeleteImage? || step.Release? || step.SweepPart?)
    ensures Partless(Next(sha, s, step), u)
  {
  }

  lemma NoPartCleaned(sha: Hash, s: State, step: Step, u: UploadId)
    requires Partless(s, u) && CompleteRow(s, u)
             && (step.LoadKeys? || step.DeleteKey? || step.CheckTracked? || step.DeleteUntracked?)
    ensures Partless(Next(sha, s, step), u)
  {
    hide Doomed;
  }

  lemma NoPartRetained(sha: Hash, s: State, step: Step, u: UploadId)
    requires Partless(s, u) && CompleteRow(s, u) && (step.MarkImage? || step.DropImage? || step.FinishRetention?)
    ensures Partless(Next(sha, s, step), u)
  {
    hide Released;
  }

  lemma StatusParts(t: Tables, v: UploadId, expected: Status, next: Status)
    ensures SetStatus(t, v, expected, next).parts == t.parts
  {
  }

  lemma ExpireParts(t: Tables, v: UploadId)
    ensures Expire(t, v).parts == DeletePartRows(t, v).parts
  {
    hide SetStatus;
    StatusParts(DeletePartRows(t, v), v, OPEN, EXPIRED);
    StatusParts(SetStatus(DeletePartRows(t, v), v, OPEN, EXPIRED), v, COMPLETING, EXPIRED);
  }

  /** While the receipt is not older than a year this stays so. */
  lemma SweptStep(sha: Hash, s: State, step: Step, u: UploadId, me: Device, r: ReceiptId)
    requires Inv(sha, s) && SweptOut(s, u, me, r) && r in s.t.receipts
    requires s.t.now <= s.t.receipts[r].created + 31_536_000
    ensures var s' := Next(sha, s, step);
            && SweptOut(s', u, me, r) && s.t.now <= s'.t.now
            && r in s'.t.receipts && s'.t.receipts[r].created == s.t.receipts[r].created
  {
    hide Next, Inv;
    var s' := Next(sha, s, step);
    NoPartAgain(sha, s, step, u);
    UploadExposure.StepRows(sha, s, step);
    StepKeeps(sha, s, step);
    StepFollowsEdges(sha, s, step);
    RowStays(sha, s, step, u);
    BelowNext(sha, s);
  }

  // ---------------------------------------------------------------- and so it goes on

  /** The device remembers the session, and if it has the receipt in hand it has not sent its first part. */
  ghost predicate Unaware(w: World, e: EventId, u: UploadId, r: ReceiptId) {
    && e in w.d.events && w.d.events[e].receipt == r && e in w.d.uploads && w.d.uploads[e] == u && !IsSynced(w.d, e)
    && (w.wake.Working? && w.wake.items != [] && w.wake.items[0].event == e ==> AtStart(w.wake.stage, u))
  }

  predicate AtStart(stage: Stage, u: UploadId) {
    match stage
    case Addressed(bytes, v) => v == u && bytes != []
    case Sending(bytes, v, next, confirmed) => v == u && bytes != [] && next == 0 && confirmed == {}
    case Acknowledged(_, _) => false
    case _ => true
  }

  ghost predicate Unlearned(w: World, me: Device, e: EventId, u: UploadId, r: ReceiptId) {
    SweptOut(w.s, u, me, r) && r in w.s.t.receipts && Unaware(w, e, u, r)
  }

  lemma NothingConfirmed(t: Tables, sha: Hash, u: UploadId, bytes: Bytes)
    requires forall n :: (u, n) !in t.parts
    ensures ConfirmedParts(t, sha, u, bytes) == {}
  {
    hide Slice;
  }

  /** The artifact in hand is not empty if the device remembers a session for it. */
  lemma InHandBytes(sha: Hash, me: Device, w: World, e: EventId)
    requires WorldInv(sha, me, w) && e in w.d.uploads && w.wake.Working? && w.wake.items != []
    requires w.wake.items[0].event == e && w.wake.stage.Ready?
    ensures w.wake.stage.bytes != []
  {
    hide ServiceInv, Accepted, Known, Distinct, CachedOk, KeptOk, SyncedOk, MineOk, ImagesOk;
  }

  lemma MineUnaware(sha: Hash, me: Device, w: World, move: Move, e: EventId, u: UploadId, r: ReceiptId)
    requires WorldInv(sha, me, w) && Unlearned(w, me, e, u, r)
    requires w.wake.Working? && w.wake.items != [] && Current(w) == e
    ensures Unaware(Work(sha, me, w, move), e, u, r)
  {
    hide Next, OpenFor, PutFor, Confirms, Asked, WorldInv, Slice, ConfirmedParts, BackoffMs;
    if w.wake.stage.Ready? { InHandBytes(sha, me, w, e); }
    if w.wake.stage.Sending? || w.wake.stage.Addressed? {
      NothingConfirmed(w.s.t, sha, u, w.wake.stage.bytes);
    }
  }

  lemma OtherUnaware(sha: Hash, me: Device, w: World, move: Move, e: EventId, u: UploadId, r: ReceiptId)
    requires Unaware(w, e, u, r) && w.wake.Working? && w.wake.items != [] && Current(w) != e && Current(w) in w.d.events
    ensures Unaware(Work(sha, me, w, move), e, u, r)
  {
    hide Next, OpenFor, PutFor, Confirms, Asked, Slice, ConfirmedParts, Owned;
    if move.Ask? && w.wake.stage.Ready? { AskUnaware(sha, me, w, move, e, u, r); }
  }

  lemma AskUnaware(sha: Hash, me: Device, w: World, move: Move, e: EventId, u: UploadId, r: ReceiptId)
    requires Unaware(w, e, u, r) && w.wake.Working? && w.wake.items != [] && Current(w) != e && Current(w) in w.d.events
    requires move.Ask? && w.wake.stage.Ready?
    ensures Unaware(Asked(sha, me, w, w.wake.stage.bytes, move.paused, move.vendorKnown, move.replied), e, u, r)
  {
    hide Next, OpenFor, CreateAnswerFor;
  }

  lemma MoveUnaware(sha: Hash, me: Device, w: World, move: Move, e: EventId, u: UploadId, r: ReceiptId)
    requires WorldInv(sha, me, w) && Unlearned(w, me, e, u, r)
    ensures Unaware(After(sha, me, w, move), e, u, r)
  {
    hide Next, OpenFor, PutFor, Work, WorldInv, SweptOut;
    if w.wake.Working? && w.wake.items != [] && Current(w) in w.d.events {
      if Current(w) == e { MineUnaware(sha, me, w, move, e, u, r); } else { OtherUnaware(sha, me, w, move, e, u, r); }
    }
  }

  /** Whatever move is made, the service takes one step or none. */
  lemma MoveServes(sha: Hash, me: Device, w: World, move: Move) returns (step: Step)
    ensures After(sha, me, w, move).s == w.s || After(sha, me, w, move).s == Next(sha, w.s, step)
  {
    hide Next, Work, Arrived, OpenFor, PutFor, Listable;
    step := Tick(0);
    if move.Serve? { step := move.step; }
    else if move.Arrive? { step := ArriveServes(sha, me, w, move); }
    else if w.wake.Working? && w.wake.items != [] && Current(w) in w.d.events { step := WorkServes(sha, me, w, move); }
  }

  lemma ArriveServes(sha: Hash, me: Device, w: World, move: Move) returns (step: Step)
    requires move.Arrive?
    ensures Arrived(sha, me, w, move).s == w.s || Arrived(sha, me, w, move).s == Next(sha, w.s, step)
  {
    hide Next, OpenFor, PutFor;
    step := Tick(0);
    match move.letter
    case ToOpen(e, bytes) =>
      if e in w.d.events { step := OpenFor(w, me, e, bytes, sha, move.paused, move.vendorKnown); }
    case ToStore(u, n, bytes) => if n * PART_SIZE < |bytes| { step := PutFor(me, move.p, u, n, bytes, sha); }
  }

  lemma WorkServes(sha: Hash, me: Device, w: World, move: Move) returns (step: Step)
    requires w.wake.Working? && w.wake.items != [] && Current(w) in w.d.events
    ensures Work(sha, me, w, move).s == w.s || Work(sha, me, w, move).s == Next(sha, w.s, step)
  {
    hide Next, OpenFor, PutFor, Confirms, Owned, CreateAnswerFor, Mark, Slice, ConfirmedParts;
    step := Tick(0);
    if move.Ask? && w.wake.stage.Ready? {
      step := OpenFor(w, me, Current(w), w.wake.stage.bytes, sha, move.paused, move.vendorKnown);
    }
    if move.SendPart? && w.wake.stage.Sending? && w.wake.stage.next * PART_SIZE < |w.wake.stage.bytes| {
      step := PutFor(me, move.p, w.wake.stage.upload, w.wake.stage.next, w.wake.stage.bytes, sha);
    }
  }

  lemma MoveUnlearned(sha: Hash, me: Device, w: World, move: Move, e: EventId, u: UploadId, r: ReceiptId)
    requires StoryInv(sha, me, w) && Unlearned(w, me, e, u, r)
    requires w.s.t.now <= w.s.t.receipts[r].created + 31_536_000
    ensures var w' := After(sha, me, w, move);
            && Unlearned(w', me, e, u, r) && w.s.t.now <= w'.s.t.now
            && w'.s.t.receipts[r].created == w.s.t.receipts[r].created
  {
    hide After, WorldInv, Unaware, SweptOut, Next, Inv;
    WorldServiceHolds(sha, me, w);
    MoveUnaware(sha, me, w, move, e, u, r);
    var step := MoveServes(sha, me, w, move);
    SweptStep(sha, w.s, step, u, me, r);
  }

  lemma {:induction false} TimePasses(sha: Hash, me: Device, w: World, moves: seq<Move>)
    requires StoryInv(sha, me, w)
    ensures w.s.t.now <= Story(sha, me, w, moves).s.t.now
    decreases |moves|
  {
    hide StoryInv, After, Next, Inv;
    if moves != [] {
      var w' := After(sha, me, w, moves[0]);
      WorldServiceHolds(sha, me, w);
      var step := MoveServes(sha, me, w, moves[0]);
      UploadExposure.StepRows(sha, w.s, step);
      MoveKeeps(sha, me, w, moves[0]);
      TimePasses(sha, me, w', moves[1..]);
    }
  }

  lemma {:induction false} StoryUnlearned(sha: Hash, me: Device, w: World, moves: seq<Move>, e: EventId, u: UploadId,
      r: ReceiptId)
    requires StoryInv(sha, me, w) && Unlearned(w, me, e, u, r)
    requires Story(sha, me, w, moves).s.t.now <= w.s.t.receipts[r].created + 31_536_000
    ensures Unlearned(Story(sha, me, w, moves), me, e, u, r)
    decreases |moves|
  {
    hide StoryInv, After, Unaware, SweptOut;
    if moves != [] {
      TimePasses(sha, me, w, moves);
      MoveUnlearned(sha, me, w, moves[0], e, u, r);
      MoveKeeps(sha, me, w, moves[0]);
      StoryUnlearned(sha, me, After(sha, me, w, moves[0]), moves[1..], e, u, r);
    }
  }

  /** A device that remembers the session of an accepted receipt whose parts are swept, as after a
      completion whose answer was lost, does not learn for a year that it was accepted: it sends the first
      part again and is refused, whatever happens meanwhile. */
  lemma SweptNeverSyncs(sha: Hash, me: Device, w: World, w': World, e: EventId)
    requires Told(sha, me, w) && Continues(sha, me, w, w') && w.wake.Idle? && e in w.d.events && !IsSynced(w.d, e)
    requires e in w.d.uploads && SweptOut(w.s, w.d.uploads[e], me, w.d.events[e].receipt)
    requires var r := w.d.events[e].receipt;
             r in w.s.t.receipts && w'.s.t.now <= w.s.t.receipts[r].created + 31_536_000
    ensures !IsSynced(w'.d, e)
  {
    hide Told, Continues, StoryInv, SweptOut, Story;
    ToldInv(sha, me, w);
    var moves := TheMoves(sha, me, w, w');
    StoryUnlearned(sha, me, w, moves, e, w.d.uploads[e], w.d.events[e].receipt);
  }
}
