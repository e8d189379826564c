/** No receipt is lost: what holds in every story of the device and the service together. */
module ReceiptSyncProofs {
  import opened Basics
  import opened UploadTables
  import opened UploadProtocol
  import opened UploadProofs
  import opened UploadTheorems
  import opened Reassembly
  import opened DeviceTables
  import opened ReceiptSync

  // ---------------------------------------------------------------- the service's side

  /** History only grows, and a request that may answer success has committed. */
  ghost predicate Grows(s: State, s': State) {
    && (forall u: UploadId :: u in s.h.openings ==> u in s'.h.openings && s'.h.openings[u] == s.h.openings[u])
    && (forall u: UploadId :: u in s.h.charged ==> u in s'.h.charged)
    && (forall p :: p in s'.procs && s'.procs[p].Sweeping? ==>
          s'.procs[p].upload in s'.h.charged
            || (p in s.procs && s.procs[p].Sweeping? && s.procs[p].upload == s'.procs[p].upload))
  }

  ghost predicate SweepInv(s: State) {
    forall p :: p in s.procs && s.procs[p].Sweeping? ==> s.procs[p].upload in s.h.charged
  }

  lemma GrowOpen(sha: Hash, s: State, step: Step)
    requires step.OpenSession? && OpeningInv(s.t.sessions, s.t.nextUpload, s.h.openings)
    ensures Grows(s, Next(sha, s, step))
  {
    hide Create;
  }

  lemma GrowQuota(sha: Hash, s: State, step: Step)
    requires step.SetQuota?
    ensures Grows(s, Next(sha, s, step))
  {
  }

  lemma GrowClock(sha: Hash, s: State, step: Step)
    requires step.Crash? || step.Tick?
    ensures Grows(s, Next(sha, s, step))
  {
  }

  lemma GrowPurge(sha: Hash, s: State, step: Step)
    requires step.PurgeReceipts?
    ensures Grows(s, Next(sha, s, step))
  {
    hide Purge, LeakMore;
  }

  lemma GrowSelect(sha: Hash, s: State, step: Step)
    requires step.SelectStale? || step.SelectImage? || step.ListObject?
    ensures Grows(s, Next(sha, s, step))
  {
    hide Stale;
  }

  lemma GrowPut(sha: Hash, s: State, step: Step)
    requires step.PutCheck? || step.PutWrite? || step.PutInsert?
    ensures Grows(s, Next(sha, s, step))
  {
    hide CheckPart, PartBusy, PutObject, InsertPart;
  }

  lemma GrowClaim(sha: Hash, s: State, step: Step)
    requires step.ClaimSession? || step.Release?
    ensures Grows(s, Next(sha, s, step))
  {
    hide ClaimAnswerFor, Claim, RowsOf, SetStatus;
  }

  lemma GrowRead(sha: Hash, s: State, step: Step)
    requires step.ReadPart? || step.Inspect? || step.RecordKey? || step.WriteImage?
    ensures Grows(s, Next(sha, s, step))
  {
    hide IsWebp, RecordImageKey, PutObject;
  }

  lemma GrowCommit(sha: Hash, s: State, step: Step)
    requires step.CommitReceipt?
    ensures Grows(s, Next(sha, s, step))
  {
    hide CommitError, Commit;
  }

  lemma GrowSweep(sha: Hash, s: State, step: Step)
    requires step.SweepPart? || step.SweepRows? || step.DeleteImage?
    ensures Grows(s, Next(sha, s, step))
  {
    hide DeleteObject, DeletePartRows;
  }

  lemma GrowClean(sha: Hash, s: State, step: Step)
    requires step.LoadKeys? || step.DeleteKey? || step.ExpireSession? || step.CheckTracked? || step.DeleteUntracked?
    ensures Grows(s, Next(sha, s, step))
  {
    hide Doomed, Expire, DeleteObject;
  }

  lemma GrowRetain(sha: Hash, s: State, step: Step)
    requires step.MarkImage? || step.DropImage? || step.FinishRetention?
    ensures Grows(s, Next(sha, s, step))
  {
    hide SetTombstone, FinishImage, DeleteObject;
  }

  lemma StepGrows(sha: Hash, s: State, step: Step)
    requires Inv(sha, s)
    ensures Grows(s, Next(sha, s, step))
  {
    hide Next, Grows, ProcInv, Exclusive, IndexInv, ReceiptInv, PartInv, AgeInv, StorageInv, ChargeInv, OncePer, OrgInv,
      OpeningInv;
    match step
    case OpenSession(_, _, _, _) => GrowOpen(sha, s, step);
    case SetQuota(_, _) => GrowQuota(sha, s, step);
    case Crash(_) => GrowClock(sha, s, step);
    case Tick(_) => GrowClock(sha, s, step);
    case PurgeReceipts(_, _) => GrowPurge(sha, s, step);
    case SelectStale(_, _) => GrowSelect(sha, s, step);
    case SelectImage(_, _) => GrowSelect(sha, s, step);
    case ListObject(_, _) => GrowSelect(sha, s, step);
    case PutCheck(_, _, _, _, _, _) => GrowPut(sha, s, step);
    case PutWrite(_) => GrowPut(sha, s, step);
    case PutInsert(_) => GrowPut(sha, s, step);
    case ClaimSession(_, _, _) => GrowClaim(sha, s, step);
    case Release(_) => GrowClaim(sha, s, step);
    case ReadPart(_, _) => GrowRead(sha, s, step);
    case Inspect(_) => GrowRead(sha, s, step);
    case RecordKey(_) => GrowRead(sha, s, step);
    case WriteImage(_) => GrowRead(sha, s, step);
    case CommitReceipt(_, _, _) => GrowCommit(sha, s, step);
    case SweepPart(_, _) => GrowSweep(sha, s, step);
    case SweepRows(_) => GrowSweep(sha, s, step);
    case DeleteImage(_, _) => GrowSweep(sha, s, step);
    case LoadKeys(_) => GrowClean(sha, s, step);
    case DeleteKey(_) => GrowClean(sha, s, step);
    case ExpireSession(_) => GrowClean(sha, s, step);
    case CheckTracked(_) => GrowClean(sha, s, step);
    case DeleteUntracked(_) => GrowClean(sha, s, step);
    case MarkImage(_) => GrowRetain(sha, s, step);
    case DropImage(_, _) => GrowRetain(sha, s, step);
    case FinishRetention(_) => GrowRetain(sha, s, step);
  }

  /** The device's sessions are exactly those it opened. */
  ghost predicate OwnInv(me: Device, sessions: Sessions, nextUpload: nat, mine: map<UploadId, Bytes>) {
    && (forall u :: u in mine ==> u < nextUpload)
    && (forall u :: u in sessions ==> (sessions[u].owner == me <==> u in mine))
  }

  ghost predicate FaithAll(s: State, mine: map<UploadId, Bytes>) {
    forall u :: u in mine ==> FaithInv(s, u, mine[u])
  }

  ghost predicate ServiceInv(sha: Hash, me: Device, s: State, mine: map<UploadId, Bytes>) {
    Inv(sha, s) && SweepInv(s) && OwnInv(me, s.t.sessions, s.t.nextUpload, mine) && FaithAll(s, mine)
  }

  /** A step taken for others, or a slice of the right artifact sent by the device. */
  ghost predicate Fair(step: Step, me: Device, mine: map<UploadId, Bytes>) {
    NotOurs(step, me) || (step.PutCheck? && forall u :: u in mine ==> Faithful(step, u, mine[u]))
  }

  /** A part sent by someone else for the device's session is refused. */
  lemma StrangerRefused(sha: Hash, s: State, me: Device, step: Step, mine: map<UploadId, Bytes>)
    requires step.PutCheck? && step.device != me && step.u in mine && OwnInv(me, s.t.sessions, s.t.nextUpload, mine)
    ensures Next(sha, s, step) == s
  {
  }

  lemma SweepKept(s: State, s': State)
    requires SweepInv(s) && Grows(s, s')
    ensures SweepInv(s')
  {
  }

  lemma FaithKept(sha: Hash, me: Device, s: State, step: Step, mine: map<UploadId, Bytes>)
    requires Inv(sha, s) && FaithAll(s, mine) && OwnInv(me, s.t.sessions, s.t.nextUpload, mine) && Fair(step, me, mine)
    ensures FaithAll(Next(sha, s, step), mine)
  {
    hide Inv, Next, FaithInv, Slice;
    if step.PutCheck? && step.device != me && step.u in mine {
      StrangerRefused(sha, s, me, step, mine);
    } else {
      forall u | u in mine ensures FaithInv(Next(sha, s, step), u, mine[u]) {
        assert Faithful(step, u, mine[u]);
        StepFaithful(sha, s, step, u, mine[u]);
      }
    }
  }

  /** A session row that appears belongs to whoever asked for it. */
  lemma NewRow(sha: Hash, s: State, step: Step)
    requires Inv(sha, s)
    ensures var t' := Next(sha, s, step).t;
            && (!step.OpenSession? ==> t'.nextUpload == s.t.nextUpload)
            && (forall u: UploadId :: u in t'.sessions ==> u < t'.nextUpload)
            && (step.OpenSession? ==> t'.nextUpload <= s.t.nextUpload + 1)
            && (step.OpenSession? && s.t.nextUpload in t'.sessions ==> t'.sessions[s.t.nextUpload].owner == step.device)
  {
    hide Inv, Next;
    StepKeeps(sha, s, step);
    BelowNext(sha, Next(sha, s, step));
    if step.OpenSession? { OpenRow(sha, s, step); } else { SameCounter(sha, s, step); }
  }

  lemma BelowNext(sha: Hash, s: State)
    requires Inv(sha, s)
    ensures forall u: UploadId :: u in s.t.sessions ==> u < s.t.nextUpload
  {
    hide ProcInv, Exclusive, ReceiptInv, PartInv, AgeInv, StorageInv, ChargeInv, OncePer, OrgInv, OpeningInv;
  }

  lemma OpenRow(sha: Hash, s: State, step: Step)
    requires step.OpenSession? && Inv(sha, s)
    ensures var t' := Next(sha, s, step).t;
            && t'.nextUpload <= s.t.nextUpload + 1
            && (s.t.nextUpload in t'.sessions ==> t'.sessions[s.t.nextUpload].owner == step.device)
  {
    BelowNext(sha, s);
    hide Inv, CreateAnswerFor;
  }

  lemma SameCounter(sha: Hash, s: State, step: Step)
    requires !step.OpenSession?
    ensures Next(sha, s, step).t.nextUpload == s.t.nextUpload
  {
    hide Next;
    if !WritesSession(step) { OtherStepsKeep(sha, s, step); } else { WriterCounter(sha, s, step); }
  }

  lemma WriterCounter(sha: Hash, s: State, step: Step)
    requires WritesSession(step) && !step.OpenSession?
    ensures Next(sha, s, step).t.nextUpload == s.t.nextUpload
  {
    hide Next;
    if step.CommitReceipt? { CommitCounter(sha, s, step); }
    else if step.ExpireSession? || step.PurgeReceipts? { DropCounter(sha, s, step); }
    else { StatusCounter(sha, s, step); }
  }

  lemma StatusCounter(sha: Hash, s: State, step: Step)
    requires step.ClaimSession? || step.RecordKey? || step.Release?
    ensures Next(sha, s, step).t.nextUpload == s.t.nextUpload
  {
    hide RowsOf;
  }

  lemma DropCounter(sha: Hash, s: State, step: Step)
    requires step.ExpireSession? || step.PurgeReceipts?
    ensures Next(sha, s, step).t.nextUpload == s.t.nextUpload
  {
    hide LeakMore, Without;
  }

  lemma CommitCounter(sha: Hash, s: State, step: Step)
    requires step.CommitReceipt?
    ensures Next(sha, s, step).t.nextUpload == s.t.nextUpload
  {
    hide CommitError;
  }

  lemma OwnKept(sha: Hash, me: Device, s: State, step: Step, mine: map<UploadId, Bytes>)
    requires Inv(sha, s) && OwnInv(me, s.t.sessions, s.t.nextUpload, mine) && (step.OpenSession? ==> step.device != me)
    ensures OwnInv(me, Next(sha, s, step).t.sessions, Next(sha, s, step).t.nextUpload, mine)
  {
    hide Inv, Next;
    NewRow(sha, s, step);
    StepFollowsEdges(sha, s, step);
  }

  lemma ServeKeeps(sha: Hash, me: Device, s: State, step: Step, mine: map<UploadId, Bytes>)
    requires ServiceInv(sha, me, s, mine) && Fair(step, me, mine)
    ensures ServiceInv(sha, me, Next(sha, s, step), mine) && Grows(s, Next(sha, s, step))
  {
    hide Inv, Next, Grows, FaithAll, OwnInv, SweepInv, Faithful;
    StepKeeps(sha, s, step);
    StepGrows(sha, s, step);
    SweepKept(s, Next(sha, s, step));
    FaithKept(sha, me, s, step, mine);
    OwnKept(sha, me, s, step, mine);
  }

  // ---------------------------------------------------------------- the session request

  /** Session `u` was opened for this receipt with this digest. */
  ghost predicate Known(h: History, u: UploadId, receipt: ReceiptId, digest: Digest) {
    u in h.openings && h.openings[u] == Opening(receipt, digest)
  }

  /** The service accepted the receipt with this digest: such a session was charged. */
  ghost predicate Accepted(h: History, receipt: ReceiptId, digest: Digest) {
    exists u: UploadId :: u in h.charged && Known(h, u, receipt, digest)
  }

  ghost function MineAfter(s: State, s': State, mine: map<UploadId, Bytes>, bytes: Bytes): map<UploadId, Bytes> {
    if s'.t.nextUpload != s.t.nextUpload then mine[s.t.nextUpload := bytes] else mine
  }

  /** The request changes the tables exactly when it opens a fresh session. */
  lemma AskOpens(sha: Hash, s: State, step: Step)
    requires Inv(sha, s) && step.OpenSession?
    ensures var s' := Next(sha, s, step);
            var r := step.request.receipt;
            if s'.t.nextUpload == s.t.nextUpload then s' == s
            else && CreateAnswerFor(s.t, step.device, step.request, step.paused, step.vendorKnown)
                      == Opened(s.t.nextUpload)
                 && r !in s.t.sessionOf
                 && s.t.nextUpload in s'.t.sessions && s'.t.sessions[s.t.nextUpload].owner == step.device
                 && Known(s'.h, s.t.nextUpload, r, step.request.digest)
  {
    BelowNext(sha, s);
    hide Inv, CreateAnswerFor;
  }

  lemma AskFaith(sha: Hash, me: Device, s: State, step: Step, mine: map<UploadId, Bytes>, bytes: Bytes)
    requires ServiceInv(sha, me, s, mine) && step.OpenSession? && step.device == me && step.request.total == |bytes|
    ensures FaithAll(Next(sha, s, step), MineAfter(s, Next(sha, s, step), mine, bytes))
  {
    hide Inv, Next, FaithInv, CreateAnswerFor, Known, SweepInv;
    var s' := Next(sha, s, step);
    AskOpens(sha, s, step);
    forall u | u in mine ensures FaithInv(s', u, mine[u]) { StepFaithful(sha, s, step, u, mine[u]); }
    if s'.t.nextUpload != s.t.nextUpload { OpensFaithful(sha, s, step, bytes); }
  }

  lemma AskOwn(sha: Hash, me: Device, s: State, step: Step, mine: map<UploadId, Bytes>, bytes: Bytes)
    requires ServiceInv(sha, me, s, mine) && step.OpenSession? && step.device == me
    ensures OwnInv(me, Next(sha, s, step).t.sessions, Next(sha, s, step).t.nextUpload,
            MineAfter(s, Next(sha, s, step), mine, bytes))
  {
    hide Inv, Next, FaithAll, SweepInv, CreateAnswerFor, Known;
    NewRow(sha, s, step);
    AskOpens(sha, s, step);
    StepFollowsEdges(sha, s, step);
  }

  lemma AskKeeps(sha: Hash, me: Device, s: State, step: Step, mine: map<UploadId, Bytes>, bytes: Bytes)
    requires ServiceInv(sha, me, s, mine) && step.OpenSession? && step.device == me && step.request.total == |bytes|
    ensures ServiceInv(sha, me, Next(sha, s, step), MineAfter(s, Next(sha, s, step), mine, bytes))
            && Grows(s, Next(sha, s, step))
  {
    hide Inv, Next, Grows, FaithAll, OwnInv, SweepInv, MineAfter;
    StepKeeps(sha, s, step);
    StepGrows(sha, s, step);
    SweepKept(s, Next(sha, s, step));
    AskFaith(sha, me, s, step, mine, bytes);
    AskOwn(sha, me, s, step, mine, bytes);
  }

  lemma ReceivedMeansAccepted(sha: Hash, s: State, me: Device, request: Request, paused: bool, vendorKnown: bool)
    requires Inv(sha, s) && CreateAnswerFor(s.t, me, request, paused, vendorKnown).Received?
    ensures request.total > 0 && Accepted(s.h, request.receipt, request.digest)
  {
    hide ProcInv, Exclusive, PartInv, AgeInv, StorageInv, OncePer, OrgInv, PolicyActive;
    var r := request.receipt;
    var u := s.t.sessionOf[r];
    assert ReceiptOk(s.t.receipts[r], s.t.sessions[u], r);
    assert s.t.sessions[u].status == COMPLETE && s.h.charged[u] == 1;
    assert Known(s.h, u, r, request.digest);
  }

  lemma OpenedMeansKnown(sha: Hash, s: State, me: Device, request: Request, paused: bool, vendorKnown: bool)
    requires Inv(sha, s) && CreateAnswerFor(s.t, me, request, paused, vendorKnown).Opened?
    ensures var u := CreateAnswerFor(s.t, me, request, paused, vendorKnown).upload;
            && request.total > 0
            && if u == s.t.nextUpload then request.receipt !in s.t.sessionOf
               else u in s.t.sessions && s.t.sessions[u].owner == me && Known(s.h, u, request.receipt, request.digest)
  {
    hide ProcInv, Exclusive, PartInv, AgeInv, StorageInv, OncePer, OrgInv, ReceiptInv, ChargeInv, PolicyActive;
  }

  /** Whoever may answer success to the completion of a session has seen it charged. */
  lemma ConfirmsMeansCharged(sha: Hash, me: Device, s: State, u: UploadId, p: ProcId)
    requires Inv(sha, s) && SweepInv(s) && Confirms(s, me, u, p)
    ensures u in s.h.charged
  {
    hide ProcInv, Exclusive, PartInv, AgeInv, StorageInv, OncePer, OrgInv, ReceiptInv, IndexInv, OpeningInv, RowsOf;
  }
}
