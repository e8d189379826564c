/** Exactly when the image of an accepted receipt can be lost: it is decided at its commit. */
module UploadExposure {
  import opened Basics
  import opened UploadTables
  import opened UploadProtocol
  import opened UploadProofs

  /** The image the receipt names is stored, with the recorded digest and length. */
  ghost predicate Intact(sha: Hash, store: Store, x: Receipt) {
    x.key in store && sha(store[x.key].body) == x.digest && |store[x.key].body| == x.bytes
  }

  /** The process still means to delete this object, and not because the receipt is old. */
  predicate Takes(c: Process, key: Key) {
    || (c.Compensating? && c.key == key)
    || (c.Selected? && c.saw != COMPLETE && c.image == Some(key))
    || (c.Cleaning? && key in c.todo)
  }

  ghost predicate Taken(procs: map<ProcId, Process>, key: Key) { exists p :: p in procs && Takes(procs[p], key) }

  /** A tombstone was committed for the receipt, or its image is there and nobody means to delete it. */
  ghost predicate Settled(sha: Hash, s: State, r: ReceiptId)
    requires r in s.t.receipts
  {
    r in s.t.tombstones || (Intact(sha, s.t.store, s.t.receipts[r]) && !Taken(s.procs, s.t.receipts[r].key))
  }

  /** An accepted receipt without its image, and without a tombstone. */
  ghost predicate Lost(sha: Hash, t: Tables, r: ReceiptId) {
    r in t.receipts && r !in t.tombstones && !Intact(sha, t.store, t.receipts[r])
  }

  // ---------------------------------------------------------------- what keeps a settled receipt settled

  /** What the process holds has nothing to do with the image `key`. */
  ghost predicate Indifferent(c: Process, key: Key) {
    && !Takes(c, key)
    && (c.Keyed? || c.Stored? || c.Untracked? ==> c.key != key)
    && (c.Retaining? && c.stage != Chosen ==> c.key != key)
    && (c.Sweeping? ==> forall part :: part in c.parts ==> part.key != key)
  }

  ghost predicate Quiet(s: State, key: Key) {
    && key.ImageKey?
    && (forall p :: p in s.procs ==> Indifferent(s.procs[p], key))
    && forall u :: u in s.t.sessions && s.t.sessions[u].status != COMPLETE ==> s.t.sessions[u].image != Some(key)
  }

  /** The image stays, and nobody begins to want it gone. */
  ghost predicate Undisturbed(s: State, s': State, key: Key) {
    && (key in s.t.store ==> key in s'.t.store && s'.t.store[key].body == s.t.store[key].body)
    && !Taken(s'.procs, key)
  }

  /** Receipts stay as they were accepted, appear only now, and go only when they are older than a year. */
  ghost predicate RowsKept(t: Tables, t': Tables) {
    && t.now <= t'.now && (forall r :: r in t.tombstones ==> r in t'.tombstones)
    && (forall r :: r in t'.receipts ==>
          if r in t.receipts then SameRow(t.receipts[r], t'.receipts[r]) else t'.receipts[r].created == t.now)
    && forall r :: r in t.receipts && r !in t'.receipts ==> t.receipts[r].created + 31_536_000 < t.now
  }

  predicate SameRow(a: Receipt, b: Receipt) {
    b.owner == a.owner && b.key == a.key && b.bytes == a.bytes && b.digest == a.digest && b.created == a.created
  }

  ghost predicate SameRows(t: Tables, t': Tables) {
    t'.receipts == t.receipts && t'.tombstones == t.tombstones && t'.now == t.now
  }

  lemma SameByOpening(sha: Hash, s: State, step: Step)
    requires step.OpenSession? || step.SetQuota?
    ensures SameRows(s.t, Next(sha, s, step).t)
  {
    hide CreateAnswerFor;
  }

  lemma SameByStart(sha: Hash, s: State, step: Step)
    requires step.Crash? || step.ClaimSession? || step.SelectStale?
    ensures SameRows(s.t, Next(sha, s, step).t)
  {
    hide ClaimAnswerFor, RowsOf, Stale, SetStatus;
    if step.ClaimSession? { StatusRows(s.t, step.u, OPEN, COMPLETING); }
  }

  lemma SameByLook(sha: Hash, s: State, step: Step)
    requires step.PutCheck? || step.ListObject? || step.SelectImage? || step.CheckTracked? || step.LoadKeys?
             || step.Inspect?
    ensures SameRows(s.t, Next(sha, s, step).t)
  {
    hide PartBusy, CheckPart, Doomed, IsWebp;
  }

  lemma SameByUpload(sha: Hash, s: State, step: Step)
    requires step.PutWrite? || step.PutInsert? || step.ReadPart? || step.RecordKey? || step.WriteImage?
    ensures SameRows(s.t, Next(sha, s, step).t)
  {
  }

  lemma SameByDelete(sha: Hash, s: State, step: Step)
    requires step.DeleteImage? || step.SweepPart? || step.DeleteKey? || step.DeleteUntracked? || step.DropImage?
    ensures SameRows(s.t, Next(sha, s, step).t)
  {
    hide DeleteObject;
    forall key ensures SameRows(s.t, DeleteObject(s.t, key)) { ObjectRows(s.t, key); }
    hide SameRows;
    SameSelf(s.t);
  }

  lemma SameSelf(t: Tables)
    ensures SameRows(t, t)
  {
  }

  lemma ObjectRows(t: Tables, key: Key)
    ensures SameRows(t, DeleteObject(t, key))
  {
  }

  lemma StatusRows(t: Tables, u: UploadId, expected: Status, next: Status)
    ensures SameRows(t, SetStatus(t, u, expected, next))
  {
  }

  lemma PartRowsGone(t: Tables, u: UploadId)
    ensures SameRows(t, DeletePartRows(t, u)) && SameRows(t, Expire(t, u))
  {
    hide SetStatus;
    var cleared := DeletePartRows(t, u);
    StatusRows(cleared, u, OPEN, EXPIRED);
    StatusRows(SetStatus(cleared, u, OPEN, EXPIRED), u, COMPLETING, EXPIRED);
  }

  lemma SameByExpiry(sha: Hash, s: State, step: Step)
    requires step.SweepRows? || step.Release? || step.ExpireSession?
    ensures SameRows(s.t, Next(sha, s, step).t)
  {
    hide SetStatus, DeletePartRows, Expire, SameRows;
    SameSelf(s.t);
    if step.p in s.procs {
      var c := s.procs[step.p];
      if c.Releasing? { StatusRows(s.t, c.upload, COMPLETING, c.to); }
      if c.Sweeping? || c.Cleaning? { PartRowsGone(s.t, c.upload); }
    }
  }

  /** The steps that write receipts or tombstones, or move the clock. */
  predicate WritesRows(step: Step) {
    step.CommitReceipt? || step.PurgeReceipts? || step.MarkImage? || step.FinishRetention? || step.Tick?
  }

  lemma StepRows(sha: Hash, s: State, step: Step)
    requires Inv(sha, s)
    ensures RowsKept(s.t, Next(sha, s, step).t)
    ensures !WritesRows(step) ==> SameRows(s.t, Next(sha, s, step).t)
    ensures !step.CommitReceipt? ==> Next(sha, s, step).t.receipts.Keys <= s.t.receipts.Keys
  {
    hide Inv, Next, RowsKept;
    RowsUnmoved(s.t, Next(sha, s, step).t);
    if WritesRows(step) { RowsWritten(sha, s, step); }
    else if step.OpenSession? || step.SetQuota? { SameByOpening(sha, s, step); }
    else if step.Crash? || step.ClaimSession? || step.SelectStale? { SameByStart(sha, s, step); }
    else if step.PutWrite? || step.PutInsert? || step.ReadPart? || step.RecordKey? || step.WriteImage? {
      SameByUpload(sha, s, step);
    } else if step.DeleteImage? || step.SweepPart? || step.DeleteKey? || step.DeleteUntracked? || step.DropImage? {
      SameByDelete(sha, s, step);
    } else if step.SweepRows? || step.Release? || step.ExpireSession? { SameByExpiry(sha, s, step); }
    else { SameByLook(sha, s, step); }
  }

  lemma RowsUnmoved(t: Tables, t': Tables)
    ensures t'.receipts == t.receipts && t'.tombstones == t.tombstones && t.now <= t'.now ==> RowsKept(t, t')
  {
  }

  lemma PurgedRows(t: Tables, org: OrgId, rs: set<ReceiptId>)
    requires Purgeable(t, org, rs)
    ensures RowsKept(t, Purge(t, rs)) && Purge(t, rs).receipts.Keys <= t.receipts.Keys
  {
    hide Without;
  }

  lemma RowsWritten(sha: Hash, s: State, step: Step)
    requires Inv(sha, s) && WritesRows(step)
    ensures RowsKept(s.t, Next(sha, s, step).t)
    ensures !step.CommitReceipt? ==> Next(sha, s, step).t.receipts.Keys <= s.t.receipts.Keys
  {
    hide Inv, Next, RowsKept;
    if step.CommitReceipt? { RowsCommitted(sha, s, step); }
    else if step.MarkImage? || step.FinishRetention? { RowsRetained(sha, s, step); }
    else { RowsPurged(sha, s, step); }
  }

  lemma RowsPurged(sha: Hash, s: State, step: Step)
    requires step.PurgeReceipts? || step.Tick?
    ensures RowsKept(s.t, Next(sha, s, step).t) && Next(sha, s, step).t.receipts.Keys <= s.t.receipts.Keys
  {
    hide Purge, LeakMore, RowsKept;
    RowsUnmoved(s.t, Next(sha, s, step).t);
    if step.PurgeReceipts? && Purgeable(s.t, step.org, step.rs) { PurgedRows(s.t, step.org, step.rs); }
  }

  lemma RowsRetained(sha: Hash, s: State, step: Step)
    requires step.MarkImage? || step.FinishRetention?
    ensures RowsKept(s.t, Next(sha, s, step).t) && Next(sha, s, step).t.receipts.Keys <= s.t.receipts.Keys
  {
    hide FinishImage, SetTombstone, RowsKept;
    RowsUnmoved(s.t, s.t);
    if step.p in s.procs && s.procs[step.p].Retaining? {
      FinishRows(s.t, s.procs[step.p].receipt);
      StoneRows(s.t, s.procs[step.p].receipt, PENDING);
      StoneRows(s.t, s.procs[step.p].receipt, FAILED_RETRYABLE);
    }
  }

  lemma RowsCommitted(sha: Hash, s: State, step: Step)
    requires Inv(sha, s) && step.CommitReceipt?
    ensures RowsKept(s.t, Next(sha, s, step).t)
  {
    hide Inv, CommitError, Commit, RowsKept;
    RowsUnmoved(s.t, s.t);
    if Effective(s, step.p, step.day, step.fault) {
      EffectiveCommits(sha, s, step.p, step.day, step.fault);
      CommitRows(sha, s, step.p, step.day);
    }
  }

  /** A commit adds one receipt, that was not there. */
  lemma CommitRows(sha: Hash, s: State, p: ProcId, day: DayVerdict)
    requires Inv(sha, s) && p in s.procs && Committing(sha, s.t, s.procs[p], day)
    ensures var c := s.procs[p]; var t' := Committed(s.t, c, day);
            && c.row.receipt !in s.t.receipts && Checked(sha, c.row, c.body)
            && t'.receipts ==
              s.t.receipts[c.row.receipt := Receipt(c.row.owner, c.key, |c.body|, c.row.digest, s.t.now, false)]
            && t'.store == s.t.store && t'.tombstones == s.t.tombstones && t'.now == s.t.now && RowsKept(s.t, t')
  {
    hide ProcInv, Exclusive, PartInv, AgeInv, OpeningInv, ChargeInv, StorageInv, OncePer, OrgInv;
    CommitFresh(sha, s.t, s.procs[p], day);
    CommitWrites(sha, s.t, s.procs[p], day);
  }

  lemma StoneRows(t: Tables, r: ReceiptId, stone: Tombstone)
    ensures var t' := SetTombstone(t, r, stone);
            RowsKept(t, t') && t'.store == t.store && t'.receipts.Keys == t.receipts.Keys
  {
  }

  lemma FinishRows(t: Tables, r: ReceiptId)
    ensures var t' := FinishImage(t, r); RowsKept(t, t') && t'.store == t.store && t'.receipts.Keys == t.receipts.Keys
  {
    hide Released;
  }

  /** One process starts, moves on or ends, and the image stays where it is. */
  ghost predicate Gentle(s: State, s': State, p: ProcId, key: Key) {
    && s'.procs - {p} == s.procs - {p} && (p in s'.procs ==> !Takes(s'.procs[p], key))
    && (key in s.t.store ==> key in s'.t.store && s'.t.store[key].body == s.t.store[key].body)
  }

  /** Nobody else begins to want the image gone. */
  lemma StillUntaken(s: State, s': State, p: ProcId, key: Key)
    requires Quiet(s, key) && s'.procs - {p} == s.procs - {p} && (p in s'.procs ==> !Takes(s'.procs[p], key))
    ensures !Taken(s'.procs, key)
  {
    forall q | q in s'.procs ensures !Takes(s'.procs[q], key) {
      if q != p {
        assert q in s'.procs - {p};
        assert (s'.procs - {p})[q] == s'.procs[q] && (s.procs - {p})[q] == s.procs[q];
        assert Indifferent(s.procs[q], key);
      }
    }
  }

  lemma GentleKept(s: State, s': State, p: ProcId, key: Key)
    requires Quiet(s, key) && Gentle(s, s', p, key)
    ensures Undisturbed(s, s', key)
  {
    StillUntaken(s, s', p, key);
    hide Quiet, Taken;
  }

  lemma UnmovedKept(s: State, key: Key)
    requires Quiet(s, key)
    ensures Undisturbed(s, s, key)
  {
  }

  lemma QuietAt(s: State, p: ProcId, key: Key)
    requires Quiet(s, key) && p in s.procs
    ensures key.ImageKey? && Indifferent(s.procs[p], key)
  {
  }

  lemma KeptByTables(sha: Hash, s: State, step: Step, key: Key)
    requires Quiet(s, key) && (step.OpenSession? || step.SetQuota? || step.Tick? || step.PurgeReceipts?)
    ensures Undisturbed(s, Next(sha, s, step), key)
  {
    hide CreateAnswerFor, LeakMore, Purgeable, Without, Quiet, Taken;
    UnmovedKept(s, key);
  }

  lemma SelectedQuiet(s: State, u: UploadId, key: Key)
    requires Quiet(s, key) && u in s.t.sessions
    ensures !Takes(Selected(u, s.t.sessions[u].status, s.t.sessions[u].image), key)
  {
  }

  lemma GentleStart(sha: Hash, s: State, step: Step, key: Key)
    requires Quiet(s, key) && (step.Crash? || step.ClaimSession? || step.SelectStale?)
    ensures Next(sha, s, step) == s || Gentle(s, Next(sha, s, step), step.p, key)
  {
    hide RowsOf, Stale, Quiet;
    if step.SelectStale? && step.u in s.t.sessions { SelectedQuiet(s, step.u, key); }
  }

  lemma GentleLook(sha: Hash, s: State, step: Step, key: Key)
    requires step.PutCheck? || step.ListObject? || step.SelectImage? || step.CheckTracked?
    ensures Next(sha, s, step) == s || Gentle(s, Next(sha, s, step), step.p, key)
  {
    hide PartBusy, CheckPart;
  }

  lemma GentleUpload(sha: Hash, s: State, step: Step, key: Key)
    requires key.ImageKey? && (step.PutWrite? || step.PutInsert? || step.ReadPart? || step.Inspect?)
    ensures Next(sha, s, step) == s || Gentle(s, Next(sha, s, step), step.p, key)
  {
    hide IsWebp;
  }

  lemma GentleImage(sha: Hash, s: State, step: Step, key: Key)
    requires step.RecordKey? || step.WriteImage?
    requires step.p in s.procs ==> Indifferent(s.procs[step.p], key)
    ensures Next(sha, s, step) == s || Gentle(s, Next(sha, s, step), step.p, key)
  {
  }

  lemma GentleDelete(sha: Hash, s: State, step: Step, key: Key)
    requires step.DeleteKey? || step.DeleteUntracked?
    requires step.p in s.procs ==> Indifferent(s.procs[step.p], key)
    ensures Next(sha, s, step) == s || Gentle(s, Next(sha, s, step), step.p, key)
  {
  }

  lemma GentleRemoval(sha: Hash, s: State, step: Step, key: Key)
    requires step.DeleteImage? || step.SweepPart? || step.DropImage?
    requires step.p in s.procs ==> Indifferent(s.procs[step.p], key)
    ensures Next(sha, s, step) == s || Gentle(s, Next(sha, s, step), step.p, key)
  {
  }

  lemma GentleRows(sha: Hash, s: State, step: Step, key: Key)
    requires step.SweepRows? || step.Release? || step.ExpireSession?
    ensures Next(sha, s, step) == s || Gentle(s, Next(sha, s, step), step.p, key)
  {
  }

  lemma GentleLoad(sha: Hash, s: State, step: Step, key: Key)
    requires Inv(sha, s) && key.ImageKey? && step.LoadKeys?
    requires step.p in s.procs ==> Indifferent(s.procs[step.p], key)
    ensures Next(sha, s, step) == s || Gentle(s, Next(sha, s, step), step.p, key)
  {
    hide ProcInv, Exclusive, IndexInv, ReceiptInv, PartInv, AgeInv, OpeningInv, ChargeInv, StorageInv, OncePer, OrgInv,
      Doomed;
    if step.p in s.procs && s.procs[step.p].Selected? { LoadedQuiet(sha, s.t, s.procs[step.p], key); }
  }

  lemma LoadedQuiet(sha: Hash, t: Tables, c: Process, key: Key)
    requires PartInv(sha, t.sessions, t.parts, t.store) && c.Selected? && !Takes(c, key) && key.ImageKey?
    ensures key !in Doomed(t, c.upload, c.saw, c.image)
  {
    RowsHaveKeys(sha, t, c.upload);
    var rows := RowsOf(t, c.upload);
    hide PartInv, RowsOf;
    forall k | k in KeysOf(rows) ensures k != key {
      var i :| 0 <= i < |KeysOf(rows)| && KeysOf(rows)[i] == k;
      assert rows[i] in rows;
    }
  }

  predicate TablesOnly(step: Step) { step.OpenSession? || step.SetQuota? || step.Tick? || step.PurgeReceipts? }

  lemma StepGentle(sha: Hash, s: State, step: Step, key: Key)
    requires Inv(sha, s) && Quiet(s, key) && !TablesOnly(step)
    ensures Next(sha, s, step) == s || Gentle(s, Next(sha, s, step), step.p, key)
  {
    hide Inv, Next, Quiet, Gentle, Indifferent;
    assert key.ImageKey? by { KeyOfQuiet(s, key); }
    if step.p in s.procs { QuietAt(s, step.p, key); }
    if step.Crash? || step.ClaimSession? || step.SelectStale? { GentleStart(sha, s, step, key); }
    else if step.PutWrite? || step.PutInsert? || step.ReadPart? || step.Inspect? { GentleUpload(sha, s, step, key); }
    else if step.RecordKey? || step.WriteImage? { GentleImage(sha, s, step, key); }
    else if step.CommitReceipt? { GentleCommit(sha, s, step, key); }
    else if step.DeleteKey? || step.DeleteUntracked? { GentleDelete(sha, s, step, key); }
    else if step.DeleteImage? || step.SweepPart? || step.DropImage? { GentleRemoval(sha, s, step, key); }
    else if step.MarkImage? || step.FinishRetention? { GentleRetention(sha, s, step, key); }
    else if step.SweepRows? || step.Release? || step.ExpireSession? { GentleRows(sha, s, step, key); }
    else if step.LoadKeys? { GentleLoad(sha, s, step, key); }
    else { GentleLook(sha, s, step, key); }
  }

  lemma KeyOfQuiet(s: State, key: Key)
    requires Quiet(s, key)
    ensures key.ImageKey?
  {
  }

  lemma GentleCommit(sha: Hash, s: State, step: Step, key: Key)
    requires step.CommitReceipt?
    requires step.p in s.procs ==> Indifferent(s.procs[step.p], key)
    ensures Next(sha, s, step) == s || Gentle(s, Next(sha, s, step), step.p, key)
  {
    hide CommitError;
  }

  lemma GentleRetention(sha: Hash, s: State, step: Step, key: Key)
    requires step.MarkImage? || step.FinishRetention?
    ensures Next(sha, s, step) == s || Gentle(s, Next(sha, s, step), step.p, key)
  {
    hide WithoutImage, Released;
  }

  lemma StepKept(sha: Hash, s: State, step: Step, key: Key)
    requires Inv(sha, s) && Quiet(s, key)
    ensures Undisturbed(s, Next(sha, s, step), key)
  {
    hide Inv, Next, Quiet, Undisturbed, Gentle;
    UnmovedKept(s, key);
    if TablesOnly(step) { KeptByTables(sha, s, step, key); }
    else {
      StepGentle(sha, s, step, key);
      if Next(sha, s, step) != s { GentleKept(s, Next(sha, s, step), step.p, key); }
    }
  }

  // ---------------------------------------------------------------- commits

  /** The commit happens. */
  ghost predicate Effective(s: State, p: ProcId, day: DayVerdict, fault: Fault) {
    && p in s.procs && s.procs[p].Stored? && fault != Aborted
    && CommitError(s.t, s.procs[p].upload, |s.procs[p].body|, day) == None
  }

  lemma EffectiveCommits(sha: Hash, s: State, p: ProcId, day: DayVerdict, fault: Fault)
    requires Inv(sha, s) && Effective(s, p, day, fault)
    ensures Committing(sha, s.t, s.procs[p], day)
  {
    hide TablesInv;
    assert ProcOk(sha, s.t, s.procs[p]);
  }

  // ---------------------------------------------------------------- what was settled stays settled

  /** Nothing a process holds, and nothing a session that is not complete records, concerns the
      image of a settled receipt. */
  lemma SettledQuiet(sha: Hash, s: State, r: ReceiptId)
    requires Inv(sha, s) && r in s.t.receipts && r !in s.t.tombstones && Settled(sha, s, r)
    ensures Quiet(s, s.t.receipts[r].key)
  {
    hide ProcOk, Intact, Exclusive, PartInv, AgeInv, OpeningInv, ChargeInv, StorageInv, OncePer, OrgInv;
    var key := s.t.receipts[r].key;
    assert ReceiptOk(s.t.receipts[r], s.t.sessions[s.t.sessionOf[r]], r);
    forall p | p in s.procs ensures Indifferent(s.procs[p], key) {
      SettledProc(sha, s.t, s.procs[p], r);
    }
    forall u | u in s.t.sessions && s.t.sessions[u].status != COMPLETE ensures s.t.sessions[u].image != Some(key) {
      assert SessionOk(s.t.sessions[u], s.t.nextUpload, s.t.now, u);
    }
  }

  lemma SettledProc(sha: Hash, t: Tables, c: Process, r: ReceiptId)
    requires IndexInv(t.sessions, t.sessionOf, t.nextUpload, t.now) && ReceiptInv(t.sessions, t.sessionOf, t.receipts)
    requires r in t.receipts && r !in t.tombstones && ProcOk(sha, t, c) && !Takes(c, t.receipts[r].key)
    ensures Indifferent(c, t.receipts[r].key)
  {
    assert ReceiptOk(t.receipts[r], t.sessions[t.sessionOf[r]], r);
    if c.Keyed? || c.Stored? { OwnerKey(sha, t, c, r); }
    hide PartInv, Checked, PutOk, IndexInv, ReceiptInv, Held, GivenUp, SeenComplete;
  }

  /** Nobody who still owns a session holds the image of a receipt: that session would be complete. */
  lemma OwnerKey(sha: Hash, t: Tables, c: Process, r: ReceiptId)
    requires ReceiptInv(t.sessions, t.sessionOf, t.receipts) && r in t.receipts && ProcOk(sha, t, c)
             && (c.Keyed? || c.Stored?)
    ensures c.key != t.receipts[r].key
  {
    assert ReceiptOk(t.receipts[r], t.sessions[t.sessionOf[r]], r);
    hide Checked, PartsOf;
  }

  /** The receipt accepted at `since` is settled, or it is gone and will not come back with that time. */
  ghost predicate Stays(sha: Hash, s: State, r: ReceiptId, since: nat) {
    if r in s.t.receipts && s.t.receipts[r].created == since then since <= s.t.now && Settled(sha, s, r)
    else since < s.t.now
  }

  /** A settled receipt stays settled, whoever does what. */
  lemma SettledStep(sha: Hash, s: State, step: Step, r: ReceiptId)
    requires Inv(sha, s) && r in s.t.receipts && Settled(sha, s, r) && r in Next(sha, s, step).t.receipts
    ensures Settled(sha, Next(sha, s, step), r) && SameRow(s.t.receipts[r], Next(sha, s, step).t.receipts[r])
  {
    hide Inv, Next, Quiet, Taken, Intact;
    var s' := Next(sha, s, step);
    StepRows(sha, s, step);
    if r !in s.t.tombstones {
      SettledQuiet(sha, s, r);
      StepKept(sha, s, step, s.t.receipts[r].key);
      IntactKept(sha, s, s', r);
    }
  }

  lemma StaysStep(sha: Hash, s: State, step: Step, r: ReceiptId, since: nat)
    requires Inv(sha, s) && Stays(sha, s, r, since)
    ensures Stays(sha, Next(sha, s, step), r, since)
  {
    hide Inv, Next, Settled;
    StepRows(sha, s, step);
    if r in s.t.receipts && s.t.receipts[r].created == since && r in Next(sha, s, step).t.receipts {
      SettledStep(sha, s, step, r);
    }
  }

  lemma IntactKept(sha: Hash, s: State, s': State, r: ReceiptId)
    requires r in s.t.receipts && r in s'.t.receipts && Intact(sha, s.t.store, s.t.receipts[r])
    requires SameRow(s.t.receipts[r], s'.t.receipts[r]) && Undisturbed(s, s', s.t.receipts[r].key)
    ensures Intact(sha, s'.t.store, s'.t.receipts[r])
  {
  }

  lemma {:induction false} StaysRun(sha: Hash, s: State, steps: seq<Step>, r: ReceiptId, since: nat)
    requires Inv(sha, s) && Stays(sha, s, r, since)
    ensures Stays(sha, Run(sha, s, steps), r, since)
    decreases |steps|
  {
    hide Inv, Next, Stays;
    if steps != [] {
      StepKeeps(sha, s, steps[0]);
      StaysStep(sha, s, steps[0], r, since);
      StaysRun(sha, Next(sha, s, steps[0]), steps[1..], r, since);
    }
  }

  // ---------------------------------------------------------------- the exact condition

  /** The commit leaves the image open to loss: its answer is lost, somebody means to delete the
      image, or it is no longer in the store as it was written. All can be looked up before the commit. */
  ghost predicate Exposed(sha: Hash, s: State, p: ProcId, fault: Fault)
    requires p in s.procs && s.procs[p].Stored?
  {
    var c := s.procs[p];
    || fault == ReplyLost || Taken(s.procs, c.key)
    || !(c.key in s.t.store && sha(s.t.store[c.key].body) == c.row.digest && |s.t.store[c.key].body| == c.row.total)
  }

  /** The receipt accepted at `since` has lost its image. */
  ghost predicate LostSince(sha: Hash, s: State, r: ReceiptId, since: nat) {
    Lost(sha, s.t, r) && s.t.receipts[r].created == since
  }

  /** Deleting the image of a receipt that has no tombstone loses it. */
  lemma DeletedIsLost(sha: Hash, s: State, key: Key, r: ReceiptId, t': Tables)
    requires r in s.t.receipts && r !in s.t.tombstones && s.t.receipts[r].key == key && t' == DeleteObject(s.t, key)
    ensures Lost(sha, t', r) && t'.receipts[r].created == s.t.receipts[r].created
  {
  }

  /** A pass goes through its keys until it comes to the image. */
  lemma {:induction false} PassDeletes(sha: Hash, s: State, q: ProcId, r: ReceiptId) returns (steps: seq<Step>)
    requires q in s.procs && s.procs[q].Cleaning? && r in s.t.receipts && r !in s.t.tombstones
             && s.t.receipts[r].key in s.procs[q].todo
    ensures LostSince(sha, Run(sha, s, steps), r, s.t.receipts[r].created)
    decreases |s.procs[q].todo|
  {
    var c := s.procs[q];
    var s' := Next(sha, s, DeleteKey(q));
    assert s' == Set(s, q, c.(todo := c.todo[1..])).(t := DeleteObject(s.t, c.todo[0]));
    hide Next, Lost;
    if c.todo[0] == s.t.receipts[r].key {
      DeletedIsLost(sha, s, c.todo[0], r, s'.t);
      steps := [];
    } else {
      steps := PassDeletes(sha, s', q, r);
    }
    RunCons(sha, s, DeleteKey(q), steps);
    steps := [DeleteKey(q)] + steps;
  }

  lemma LoadedTakes(t: Tables, u: UploadId, saw: Status, image: Option<Key>, key: Key)
    requires saw != COMPLETE && image == Some(key)
    ensures key in Doomed(t, u, saw, image)
  {
    hide KeysOf, RowsOf;
  }

  /** Whoever means to delete the image of a receipt can do so. */
  lemma TakerDeletes(sha: Hash, s: State, q: ProcId, r: ReceiptId) returns (steps: seq<Step>)
    requires q in s.procs && r in s.t.receipts && r !in s.t.tombstones && Takes(s.procs[q], s.t.receipts[r].key)
    ensures LostSince(sha, Run(sha, s, steps), r, s.t.receipts[r].created)
  {
    hide Lost, Doomed;
    var c := s.procs[q];
    var key := s.t.receipts[r].key;
    if c.Compensating? {
      var s' := Next(sha, s, DeleteImage(q, true));
      assert s'.t == DeleteObject(s.t, key);
      DeletedIsLost(sha, s, key, r, s'.t);
      RunCons(sha, s, DeleteImage(q, true), []);
      steps := [DeleteImage(q, true)] + [];
    } else if c.Selected? {
      var s' := Next(sha, s, LoadKeys(q));
      LoadedTakes(s.t, c.upload, c.saw, c.image, key);
      hide Next;
      steps := PassDeletes(sha, s', q, r);
      RunCons(sha, s, LoadKeys(q), steps);
      steps := [LoadKeys(q)] + steps;
    } else {
      steps := PassDeletes(sha, s, q, r);
    }
  }

  /** What a commit that takes effect leaves: one receipt more, and everybody else as they were. */
  lemma CommitLeaves(sha: Hash, s: State, p: ProcId, day: DayVerdict, fault: Fault)
    requires Inv(sha, s) && Effective(s, p, day, fault)
    ensures var c := s.procs[p]; var s' := Next(sha, s, CommitReceipt(p, day, fault));
            && s'.t.receipts ==
              s.t.receipts[c.row.receipt := Receipt(c.row.owner, c.key, |c.body|, c.row.digest, s.t.now, false)]
            && s'.t.store == s.t.store && s'.t.tombstones == s.t.tombstones && s'.t.now == s.t.now
            && |c.body| == c.row.total
            && s'.procs ==
              s.procs[p :=
              if fault == ReplyLost then Compensating(c.upload, c.key) else Sweeping(c.upload, c.parts, 0, true)]
  {
    hide Inv, Commit, CommitError, RowsKept;
    EffectiveCommits(sha, s, p, day, fault);
    CommitRows(sha, s, p, day);
  }

  /** The image of a receipt can be lost, before a tombstone is committed for it, exactly if its
      commit was exposed: whatever anybody does afterwards, and without any discipline. */
  lemma LostExactlyIfExposed(sha: Hash, s: State, p: ProcId, day: DayVerdict, fault: Fault)
    requires Inv(sha, s) && Effective(s, p, day, fault) && s.procs[p].row.receipt !in s.t.tombstones
    ensures var r, s' := s.procs[p].row.receipt, Next(sha, s, CommitReceipt(p, day, fault));
            (exists steps: seq<Step> :: LostSince(sha, Run(sha, s', steps), r, s.t.now)) <==> Exposed(sha, s, p, fault)
  {
    hide Inv, Next, Run, Effective;
    assert p in s.procs && s.procs[p].Stored? by { EffectiveStored(s, p, day, fault); }
    var r := s.procs[p].row.receipt;
    var s' := Next(sha, s, CommitReceipt(p, day, fault));
    CommitLeaves(sha, s, p, day, fault);
    if Exposed(sha, s, p, fault) {
      var steps := ExposedLoses(sha, s', s, p, fault);
      assert LostSince(sha, Run(sha, s', steps), r, s.t.now);
    } else {
      CommitSettles(sha, s', s, p, fault);
      StepKeeps(sha, s, CommitReceipt(p, day, fault));
      forall steps: seq<Step> ensures !LostSince(sha, Run(sha, s', steps), r, s.t.now) {
        StaysRun(sha, s', steps, r, s.t.now);
      }
    }
  }

  lemma EffectiveStored(s: State, p: ProcId, day: DayVerdict, fault: Fault)
    requires Effective(s, p, day, fault)
    ensures p in s.procs && s.procs[p].Stored?
  {
  }

  /** The state after a commit, in so far as it matters here. */
  ghost predicate After(s': State, s: State, p: ProcId, fault: Fault)
    requires p in s.procs && s.procs[p].Stored?
  {
    var c := s.procs[p];
    && s'.t.receipts ==
      s.t.receipts[c.row.receipt := Receipt(c.row.owner, c.key, |c.body|, c.row.digest, s.t.now, false)]
    && s'.t.store == s.t.store && s'.t.tombstones == s.t.tombstones && s'.t.now == s.t.now && |c.body| == c.row.total
    && s'.procs ==
      s.procs[p := if fault == ReplyLost then Compensating(c.upload, c.key) else Sweeping(c.upload, c.parts, 0, true)]
  }

  lemma ExposedLoses(sha: Hash, s': State, s: State, p: ProcId, fault: Fault) returns (steps: seq<Step>)
    requires p in s.procs && s.procs[p].Stored? && After(s', s, p, fault) && s.procs[p].row.receipt !in s.t.tombstones
             && Exposed(sha, s, p, fault)
    ensures LostSince(sha, Run(sha, s', steps), s.procs[p].row.receipt, s.t.now)
  {
    var c := s.procs[p];
    if fault == ReplyLost {
      steps := TakerDeletes(sha, s', p, c.row.receipt);
    } else if q :| q in s.procs && Takes(s.procs[q], c.key) {
      steps := TakerDeletes(sha, s', q, c.row.receipt);
    } else {
      steps := [];
    }
  }

  lemma CommitSettles(sha: Hash, s': State, s: State, p: ProcId, fault: Fault)
    requires p in s.procs && s.procs[p].Stored? && After(s', s, p, fault) && !Exposed(sha, s, p, fault)
    ensures Stays(sha, s', s.procs[p].row.receipt, s.t.now)
  {
  }

  // ---------------------------------------------------------------- over whole runs

  /** No commit that takes effect is exposed, unless its receipt already has a tombstone. */
  ghost predicate Careful(sha: Hash, s: State, step: Step) {
    step.CommitReceipt? && Effective(s, step.p, step.day, step.fault)
      && s.procs[step.p].row.receipt !in s.t.tombstones ==>
      !Exposed(sha, s, step.p, step.fault)
  }

  ghost predicate CarefulRun(sha: Hash, s: State, steps: seq<Step>)
    decreases |steps|
  {
    steps != [] ==> Careful(sha, s, steps[0]) && CarefulRun(sha, Next(sha, s, steps[0]), steps[1..])
  }

  ghost predicate AllSettled(sha: Hash, s: State) { forall r :: r in s.t.receipts ==> Settled(sha, s, r) }

  lemma {:induction false} CarefulKeeps(sha: Hash, s: State, steps: seq<Step>)
    requires Inv(sha, s) && AllSettled(sha, s) && CarefulRun(sha, s, steps)
    ensures AllSettled(sha, Run(sha, s, steps))
    decreases |steps|
  {
    hide Inv, Next, AllSettled, Careful;
    if steps != [] {
      StepKeeps(sha, s, steps[0]);
      CarefulStep(sha, s, steps[0]);
      CarefulKeeps(sha, Next(sha, s, steps[0]), steps[1..]);
    }
  }

  lemma CarefulStep(sha: Hash, s: State, step: Step)
    requires Inv(sha, s) && AllSettled(sha, s) && Careful(sha, s, step)
    ensures AllSettled(sha, Next(sha, s, step))
  {
    hide Inv, Next, Settled, Careful, RowsKept;
    var s' := Next(sha, s, step);
    forall r | r in s'.t.receipts ensures Settled(sha, s', r) {
      if r in s.t.receipts { SettledStep(sha, s, step, r); } else { NewSettled(sha, s, step, r); }
    }
  }

  /** A receipt appears only when its commit takes effect. */
  lemma NewReceipt(sha: Hash, s: State, step: Step, r: ReceiptId)
    requires Inv(sha, s) && r !in s.t.receipts && r in Next(sha, s, step).t.receipts
    ensures step.CommitReceipt? && Effective(s, step.p, step.day, step.fault) && s.procs[step.p].row.receipt == r
  {
    hide Inv, Commit, CommitError, RowsKept;
    if !step.CommitReceipt? { NoNewRows(sha, s, step); }
    if Effective(s, step.p, step.day, step.fault) { CommitLeaves(sha, s, step.p, step.day, step.fault); }
  }

  lemma NoNewRows(sha: Hash, s: State, step: Step)
    requires Inv(sha, s) && !step.CommitReceipt?
    ensures Next(sha, s, step).t.receipts.Keys <= s.t.receipts.Keys
  {
    hide Inv, Next, RowsKept;
    StepRows(sha, s, step);
  }

  lemma NewSettled(sha: Hash, s: State, step: Step, r: ReceiptId)
    requires Inv(sha, s) && Careful(sha, s, step) && r !in s.t.receipts && r in Next(sha, s, step).t.receipts
    ensures Settled(sha, Next(sha, s, step), r)
  {
    hide Inv, Next, CommitError, Exposed, Settled;
    NewReceipt(sha, s, step, r);
    CommitLeaves(sha, s, step.p, step.day, step.fault);
    if r in s.t.tombstones { StoneSettles(sha, Next(sha, s, step), r); }
    else { CommitSettles(sha, Next(sha, s, step), s, step.p, step.fault); }
  }

  lemma StoneSettles(sha: Hash, s: State, r: ReceiptId)
    requires r in s.t.receipts && r in s.t.tombstones
    ensures Settled(sha, s, r)
  {
  }

  /** In every run in which no commit is exposed, every accepted receipt has its image, with the
      recorded digest and size, or a tombstone was committed for it. */
  lemma ImagesDurable(sha: Hash, s0: State, steps: seq<Step>, r: ReceiptId)
    requires Init(s0) && CarefulRun(sha, s0, steps) && r in Run(sha, s0, steps).t.receipts
    ensures var t := Run(sha, s0, steps).t; r in t.tombstones || Intact(sha, t.store, t.receipts[r])
  {
    hide Inv, Run, Init, CarefulRun, Intact, Taken;
    InitHolds(sha, s0);
    assert AllSettled(sha, s0) by { NoReceipts(s0); }
    CarefulKeeps(sha, s0, steps);
  }

  lemma NoReceipts(s: State)
    requires Init(s)
    ensures s.t.receipts == map[]
  {
  }
}
