/** What holds in every run of the upload service, from an empty deployment on: the session
    machine, the one-receipt-per-complete-session law and storage accounting. */
module UploadTheorems {
  import opened Basics
  import opened Sums
  import opened UploadTables
  import opened UploadProtocol
  import opened UploadProofs

  // ---------------------------------------------------------------- the session machine

  /** The edges of the session machine. */
  predicate Edge(a: Status, b: Status) {
    || a == b
    || (a == OPEN && (b == COMPLETING || b == EXPIRED))
    || (a == COMPLETING && b != COMPLETING)
  }

  /** A session keeps what it was opened with, and its status moves along an edge. */
  ghost predicate RowMoves(a: Session, b: Session) {
    && b.receipt == a.receipt && b.owner == a.owner && b.total == a.total && b.digest == a.digest
      && b.created == a.created
    && Edge(a.status, b.status)
  }

  /** Ids are never used again, the clock never goes back, and every row that is left moved along an edge. */
  ghost predicate Moves(t: Tables, t': Tables, freed: Option<UploadId>) {
    t.nextUpload <= t'.nextUpload && t.now <= t'.now && RowsMove(t.sessions, t'.sessions, t.nextUpload, freed)
  }

  /** No session but `freed` is opened again. */
  ghost predicate RowsMove(a: Sessions, b: Sessions, nextUpload: nat, freed: Option<UploadId>) {
    forall u :: u in b && u < nextUpload ==>
      u in a && RowMoves(a[u], b[u]) && (a[u].status != OPEN && b[u].status == OPEN ==> freed == Some(u))
  }

  lemma OneRowMoves(a: Sessions, u: UploadId, row: Session, nextUpload: nat, freed: Option<UploadId>)
    requires u in a && RowMoves(a[u], row) && (a[u].status != OPEN && row.status == OPEN ==> freed == Some(u))
    ensures RowsMove(a, a[u := row], nextUpload, freed)
  {
  }

  lemma NoRowMoves(a: Sessions, nextUpload: nat, freed: Option<UploadId>)
    ensures RowsMove(a, a, nextUpload, freed)
  {
  }

  lemma StatusMoves(t: Tables, u: UploadId, expected: Status, next: Status)
    requires Edge(expected, next)
    ensures Moves(t, SetStatus(t, u, expected, next), if next == OPEN then Some(u) else None)
  {
    hide RowsMove;
    var freed := if next == OPEN then Some(u) else None;
    NoRowMoves(t.sessions, t.nextUpload, freed);
    if u in t.sessions && t.sessions[u].status == expected {
      OneRowMoves(t.sessions, u, t.sessions[u].(status := next, updated := t.now), t.nextUpload, freed);
    }
  }

  lemma RecordMoves(t: Tables, u: UploadId, key: Key)
    ensures Moves(t, RecordImageKey(t, u, key), None)
  {
    hide RowsMove;
    NoRowMoves(t.sessions, t.nextUpload, None);
    if u in t.sessions && t.sessions[u].status == COMPLETING {
      OneRowMoves(t.sessions, u, t.sessions[u].(image := Some(key), updated := t.now), t.nextUpload, None);
    }
  }

  lemma CreateMoves(t: Tables, device: Device, request: Request, paused: bool, vendorKnown: bool)
    ensures Moves(t, Create(t, device, request, paused, vendorKnown), None)
  {
    hide CreateAnswerFor, RowsMove;
    NoRowMoves(t.sessions, t.nextUpload, None);
    FreshRowMoves(t.sessions, t.nextUpload,
      Session(request.receipt, device, request.total, request.digest, OPEN, t.now, t.now, None));
  }

  lemma FreshRowMoves(a: Sessions, nextUpload: nat, row: Session)
    ensures RowsMove(a, a[nextUpload := row], nextUpload, None)
  {
  }

  lemma CommitMoves(t: Tables, u: UploadId, body: Bytes, key: Key, digest: Digest, day: DayVerdict)
    ensures Moves(t, Commit(t, u, body, key, digest, day), None)
  {
  }

  lemma ExpireMoves(t: Tables, u: UploadId)
    ensures Moves(t, Expire(t, u), None)
  {
    var cleared := DeletePartRows(t, u);
    if u in t.sessions && t.sessions[u].status == OPEN {
      StatusMoves(cleared, u, OPEN, EXPIRED);
    } else {
      StatusMoves(cleared, u, COMPLETING, EXPIRED);
    }
    hide DeletePartRows, RowsMove;
  }

  lemma PurgeMoves(t: Tables, rs: set<ReceiptId>)
    ensures Moves(t, Purge(t, rs), None)
  {
    hide Without;
  }

  lemma ReleaseTargets(sha: Hash, s: State, p: ProcId)
    requires Inv(sha, s) && p in s.procs && s.procs[p].Releasing?
    ensures s.procs[p].to == OPEN || s.procs[p].to == FAILED
  {
    hide TablesInv;
    assert ProcOk(sha, s.t, s.procs[p]);
  }

  /** The steps that write a session row. */
  predicate WritesSession(step: Step) {
    step.OpenSession? || step.ClaimSession? || step.RecordKey? || step.CommitReceipt? || step.Release?
    || step.ExpireSession? || step.PurgeReceipts?
  }

  ghost predicate SameSessions(t: Tables, t': Tables) {
    t'.sessions == t.sessions && t'.nextUpload == t.nextUpload && t.now <= t'.now
  }

  lemma SameClock(sha: Hash, s: State, step: Step)
    requires step.Crash? || step.Tick?
    ensures SameSessions(s.t, Next(sha, s, step).t)
  {
  }

  lemma SameQuota(sha: Hash, s: State, step: Step)
    requires step.SetQuota?
    ensures SameSessions(s.t, Next(sha, s, step).t)
  {
  }

  lemma SameStart(sha: Hash, s: State, step: Step)
    requires step.PutCheck? || step.SelectStale? || step.ListObject? || step.SelectImage?
    ensures SameSessions(s.t, Next(sha, s, step).t)
  {
    hide PartBusy, CheckPart, Stale;
  }

  lemma SameUploading(sha: Hash, s: State, step: Step)
    requires step.PutWrite? || step.PutInsert? || step.ReadPart? || step.Inspect? || step.WriteImage?
    ensures SameSessions(s.t, Next(sha, s, step).t)
  {
    hide Checked, IsWebp;
  }

  lemma SameDeleting(sha: Hash, s: State, step: Step)
    requires step.DeleteImage? || step.SweepPart? || step.SweepRows? || step.LoadKeys? || step.DeleteKey?
             || step.CheckTracked? || step.DeleteUntracked?
    ensures SameSessions(s.t, Next(sha, s, step).t)
  {
    hide Doomed;
  }

  lemma SameMarking(sha: Hash, s: State, step: Step)
    requires step.MarkImage? || step.FinishRetention?
    ensures SameSessions(s.t, Next(sha, s, step).t)
  {
    hide SetTombstone, FinishImage, SameSessions;
    SameSelf(s.t);
    if step.p in s.procs && s.procs[step.p].Retaining? { BooksSame(s.t, s.procs[step.p].receipt); }
  }

  lemma SameSelf(t: Tables)
    ensures SameSessions(t, t)
  {
  }

  lemma BooksSame(t: Tables, r: ReceiptId)
    ensures SameSessions(t, FinishImage(t, r)) && forall stone :: SameSessions(t, SetTombstone(t, r, stone))
  {
  }

  lemma SameDropping(sha: Hash, s: State, step: Step)
    requires step.DropImage?
    ensures SameSessions(s.t, Next(sha, s, step).t)
  {
    hide DeleteObject;
    forall key ensures SameSessions(s.t, DeleteObject(s.t, key)) { DeleteSame(s.t, key); }
  }

  lemma DeleteSame(t: Tables, key: Key)
    ensures SameSessions(t, DeleteObject(t, key))
  {
  }

  lemma SameMoves(t: Tables, t': Tables)
    requires SameSessions(t, t')
    ensures Moves(t, t', None)
  {
  }

  lemma OtherStepsKeep(sha: Hash, s: State, step: Step)
    requires !WritesSession(step)
    ensures SameSessions(s.t, Next(sha, s, step).t)
  {
    hide Next, SameSessions;
    if step.PutWrite? || step.PutInsert? || step.ReadPart? || step.Inspect? || step.WriteImage? {
      SameUploading(sha, s, step);
    } else if step.MarkImage? || step.FinishRetention? {
      SameMarking(sha, s, step);
    } else if step.DropImage? {
      SameDropping(sha, s, step);
    } else if step.DeleteImage? || step.SweepPart? || step.SweepRows? || step.LoadKeys? || step.DeleteKey?
      || step.CheckTracked? || step.DeleteUntracked? {
      SameDeleting(sha, s, step);
    } else if step.Crash? || step.Tick? {
      SameClock(sha, s, step);
    } else if step.SetQuota? {
      SameQuota(sha, s, step);
    } else {
      SameStart(sha, s, step);
    }
  }

  lemma OtherStepsMove(sha: Hash, s: State, step: Step)
    requires !WritesSession(step)
    ensures Moves(s.t, Next(sha, s, step).t, None)
  {
    hide Next, SameSessions, Moves;
    OtherStepsKeep(sha, s, step);
    SameMoves(s.t, Next(sha, s, step).t);
  }

  lemma TableStepsMove(sha: Hash, s: State, step: Step)
    requires step.OpenSession? || step.ClaimSession? || step.PurgeReceipts?
    ensures Moves(s.t, Next(sha, s, step).t, None)
  {
    hide Moves, SetStatus, Purge, LeakMore, RowsOf, Create;
    SameMoves(s.t, s.t);
    match step
    case OpenSession(device, request, paused, vendorKnown) => CreateMoves(s.t, device, request, paused, vendorKnown);
    case ClaimSession(_, _, u) => StatusMoves(s.t, u, OPEN, COMPLETING);
    case PurgeReceipts(_, rs) => PurgeMoves(s.t, rs);
  }

  /** The session a step hands back for another attempt. */
  ghost function Freed(s: State, step: Step): Option<UploadId> {
    if step.Release? && step.p in s.procs && s.procs[step.p].Releasing? && s.procs[step.p].to == OPEN
    then Some(s.procs[step.p].upload) else None
  }

  lemma ReleaseMoves(sha: Hash, s: State, step: Step)
    requires Inv(sha, s) && step.Release?
    ensures Moves(s.t, Next(sha, s, step).t, Freed(s, step))
  {
    hide Inv, SetStatus;
    SameMoves(s.t, s.t);
    if step.p in s.procs && s.procs[step.p].Releasing? {
      ReleaseTargets(sha, s, step.p);
      StatusMoves(s.t, s.procs[step.p].upload, COMPLETING, s.procs[step.p].to);
    }
  }

  lemma ProcessStepsMove(sha: Hash, s: State, step: Step)
    requires step.RecordKey? || step.CommitReceipt? || step.ExpireSession?
    ensures Moves(s.t, Next(sha, s, step).t, None)
  {
    hide Moves, RecordImageKey, Commit, CommitError, Expire;
    SameMoves(s.t, s.t);
    if step.p in s.procs {
      var c := s.procs[step.p];
      if c.Assembled? { RecordMoves(s.t, c.upload, ImageKey(c.row.receipt, s.t.now / DAY)); }
      if c.Stored? && step.CommitReceipt? { CommitMoves(s.t, c.upload, c.body, c.key, c.row.digest, step.day); }
      if c.Cleaning? { ExpireMoves(s.t, c.upload); }
    }
  }

  /** Whatever interleaves, a session moves along an edge of the machine or not at all, and only
      the request that owns its completion opens it again. */
  lemma StepFollowsEdges(sha: Hash, s: State, step: Step)
    requires Inv(sha, s)
    ensures Moves(s.t, Next(sha, s, step).t, Freed(s, step))
  {
    hide Inv, Next, Moves;
    if !WritesSession(step) { OtherStepsMove(sha, s, step); }
    else if step.Release? { ReleaseMoves(sha, s, step); }
    else if step.RecordKey? || step.CommitReceipt? || step.ExpireSession? { ProcessStepsMove(sha, s, step); }
    else { TableStepsMove(sha, s, step); }
  }

  /** A terminal status stays, and so does what the session was opened with. */
  predicate Persists(a: Session, b: Session) {
    && (Terminal(a.status) ==> b.status == a.status)
    && b.receipt == a.receipt && b.owner == a.owner && b.total == a.total && b.digest == a.digest
  }

  lemma {:induction false} RowsPersist(sha: Hash, s: State, steps: seq<Step>, u: UploadId)
    requires Inv(sha, s) && u in Run(sha, s, steps).t.sessions && u < s.t.nextUpload
    ensures u in s.t.sessions && Persists(s.t.sessions[u], Run(sha, s, steps).t.sessions[u])
    decreases |steps|
  {
    hide Inv, Next;
    if steps != [] {
      StepFollowsEdges(sha, s, steps[0]);
      StepKeeps(sha, s, steps[0]);
      RowsPersist(sha, Next(sha, s, steps[0]), steps[1..], u);
    }
  }

  /** COMPLETE, FAILED and EXPIRED are absorbing, and a session's receipt, owner, size and digest never change. */
  lemma TerminalForever(sha: Hash, a: State, b: State, u: UploadId)
    requires Reachable(sha, a) && Reaches(sha, a, b) && u in a.t.sessions && u in b.t.sessions
    ensures Terminal(a.t.sessions[u].status) ==> b.t.sessions[u].status == a.t.sessions[u].status
    ensures var x, y := a.t.sessions[u], b.t.sessions[u];
            x.receipt == y.receipt && x.owner == y.owner && x.total == y.total && x.digest == y.digest
  {
    hide Reachable, Run, PartInv, AgeInv, OpeningInv, ReceiptInv, ChargeInv, StorageInv, OrgInv, ProcOk, OncePer;
    ReachableInv(sha, a);
    var steps: seq<Step> :| Run(sha, a, steps) == b;
    RowsPersist(sha, a, steps, u);
  }

  // ---------------------------------------------------------------- one owner, all or nothing

  /** At most one live request owns the completion of a session. */
  lemma OneCompletion(sha: Hash, s: State, p: ProcId, q: ProcId)
    requires Reachable(sha, s)
    ensures p in s.procs && q in s.procs && p != q && Owner(s.procs[p]) && Owner(s.procs[q]) ==>
      s.procs[p].upload != s.procs[q].upload
  {
    hide TablesInv, ProcOk, Reachable;
    ReachableInv(sha, s);
    if p in s.procs && q in s.procs && p != q { assert !Clash(s.procs[p], s.procs[q]); }
  }

  /** For a complete session there is one receipt, one RECEIVED audit event, one enrichment outbox
      row and one quota increment, and for any other session none of them. */
  lemma AllOrNothing(sha: Hash, s: State, u: UploadId)
    requires Reachable(sha, s) && u in s.t.sessions
    ensures var x := s.t.sessions[u];
            var n := if x.status == COMPLETE then 1 else 0;
            && (x.receipt in s.t.receipts <==> x.status == COMPLETE)
            && s.t.audited[x.receipt] == n && s.t.queued[x.receipt] == n && s.h.charged[u] == n
            && (x.status == COMPLETE ==>
                  var r := s.t.receipts[x.receipt];
                  r.owner == x.owner && r.digest == x.digest && r.bytes == x.total)
  {
    hide Reachable, PartInv, AgeInv, OpeningInv, StorageInv, OrgInv, ProcOk;
    ReachableInv(sha, s);
  }

  // ---------------------------------------------------------------- storage accounting

  /** The counter is the bytes of all images not marked deleted, plus those of receipts deleted
      after a year while their image was still counted: never less than what is there. */
  lemma StorageAccount(sha: Hash, s: State, o: OrgId)
    requires Reachable(sha, s) && o in s.t.orgs
    ensures s.t.orgs[o].stored == Sum(LiveBytes(s.t.receipts, o)) + LeakedBytes(s.h.leaked, o)
  {
    hide Reachable, PartInv, AgeInv, OpeningInv, ReceiptInv, ChargeInv, OrgInv, ProcOk, OncePer, IndexInv;
    ReachableInv(sha, s);
  }

  /** Releasing the bytes of an image takes them off in full: the floor at zero is never reached. */
  lemma ReleaseInFull(sha: Hash, s: State, r: ReceiptId)
    requires Reachable(sha, s) && r in s.t.receipts && !s.t.receipts[r].imageDeleted
    ensures var o := s.t.receipts[r].owner.org;
            && o in s.t.orgs && o in FinishImage(s.t, r).orgs
            && FinishImage(s.t, r).orgs[o].stored + s.t.receipts[r].bytes == s.t.orgs[o].stored
  {
    hide Reachable, PartInv, AgeInv, OpeningInv, ReceiptInv, ChargeInv, ProcOk, OncePer, IndexInv, StorageInv;
    ReachableInv(sha, s);
    NeverClamps(s.t.orgs, s.t.receipts, s.h.leaked, r);
  }

  lemma StoredBytes(sha: Hash, t: Tables, c: Process)
    requires c.Stored? && ProcOk(sha, t, c)
    ensures c.upload in t.sessions && |c.body| == t.sessions[c.upload].total
            && c.row.owner == t.sessions[c.upload].owner
  {
  }

  /** A commit adds the bytes of its own session to its own organization, within nine tenths of the limit. */
  lemma AdmissionWithinCap(sha: Hash, s: State, p: ProcId, day: DayVerdict, fault: Fault, o: OrgId)
    requires Inv(sha, s) && o in s.t.orgs
    ensures var t' := Next(sha, s, CommitReceipt(p, day, fault)).t;
            && o in t'.orgs && t'.orgs[o].storageLimit == s.t.orgs[o].storageLimit
            && (t'.orgs[o].stored != s.t.orgs[o].stored ==>
                  && 10 * t'.orgs[o].stored <= 9 * t'.orgs[o].storageLimit
                  && exists u :: u in s.t.sessions && s.t.sessions[u].status == COMPLETING
                       && s.t.sessions[u].owner.org == o
                       && t'.orgs[o].stored == s.t.orgs[o].stored + s.t.sessions[u].total)
  {
    hide TablesInv, PartsOf, ProcOk, IsWebp;
    if p in s.procs && s.procs[p].Stored? { StoredBytes(sha, s.t, s.procs[p]); }
  }
}
