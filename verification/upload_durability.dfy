/** A discipline on clean-up passes, claims and commit answers under which no commit is exposed, so
    that no accepted image is lost. Which commits are exposed is said in upload_exposure.dfy. */
module UploadDurability {
  import opened Basics
  import opened UploadTables
  import opened UploadProtocol
  import opened UploadProofs
  import opened UploadExposure

  /** A clean-up pass that holds the image key of a session it did not see complete. */
  predicate Cleaner(c: Process) {
    || (c.Selected? && c.saw != COMPLETE && c.image.Some?)
    || (c.Cleaning? && c.saw != COMPLETE && exists k :: k in c.todo && k.ImageKey?)
  }

  /** A request that may still commit the session it claimed. */
  predicate Committer(c: Process) { c.Reading? || c.Assembled? || c.Keyed? || c.Stored? }

  /** No pass is begun on a session with a recorded image that a live request may still commit, no
      request claims a session whose image a pass holds, and no commit that takes effect loses its
      answer. Each clause can be checked before the step. */
  ghost predicate Orderly(s: State, step: Step) {
    match step
    case SelectStale(_, u) =>
      u in s.t.sessions && s.t.sessions[u].status != COMPLETE && s.t.sessions[u].image.Some? ==>
        forall p :: p in s.procs && Committer(s.procs[p]) ==> s.procs[p].upload != u
    case ClaimSession(_, _, u) => forall p :: p in s.procs && Cleaner(s.procs[p]) ==> s.procs[p].upload != u
    case CommitReceipt(p, day, fault) => fault == ReplyLost ==> !Effective(s, p, day, fault)
    case _ => true
  }

  ghost predicate OrderlyRun(sha: Hash, s: State, steps: seq<Step>)
    decreases |steps|
  {
    steps != [] ==> Orderly(s, steps[0]) && OrderlyRun(sha, Next(sha, s, steps[0]), steps[1..])
  }

  /** Some orderly run from a new deployment ends in this state. */
  ghost predicate SafelyReachable(sha: Hash, s: State) {
    exists s0: State, steps: seq<Step> :: Init(s0) && OrderlyRun(sha, s0, steps) && Run(sha, s0, steps) == s
  }

  // ---------------------------------------------------------------- the invariant

  ghost predicate Apart(procs: map<ProcId, Process>) {
    forall p, q :: p in procs && q in procs && Cleaner(procs[p]) && Committer(procs[q]) ==>
      procs[p].upload != procs[q].upload
  }

  ghost predicate Undone(sessions: Sessions, u: UploadId) { u in sessions && sessions[u].status != COMPLETE }

  /** An image object a process may delete belongs to a session that is not complete; one that
      a process is about to commit is in place. */
  ghost predicate FateOk(t: Tables, c: Process) {
    match c
    case Stored(_, row, _, body, key) => row.receipt in t.tombstones || (key in t.store && t.store[key].body == body)
    case Compensating(u, key) => Undone(t.sessions, u) && ImageOf(key, t.sessions[u].receipt)
    case Selected(u, saw, image) => Cleaner(c) ==> Undone(t.sessions, u) && ImageOf(image.value, t.sessions[u].receipt)
    case Cleaning(u, saw, todo) =>
      Cleaner(c) ==>
        Undone(t.sessions, u) && forall k :: k in todo && k.ImageKey? ==> k.receipt == t.sessions[u].receipt
    case _ => true
  }

  ghost predicate SafeInv(s: State) {
    Apart(s.procs) && forall p :: p in s.procs ==> FateOk(s.t, s.procs[p])
  }

  // ---------------------------------------------------------------- what leaves a fate alone

  ghost predicate SessionsKept(a: Sessions, b: Sessions) {
    forall u :: Undone(a, u) ==> Undone(b, u) && b[u].receipt == a[u].receipt
  }

  ghost predicate ImagesKept(a: Store, b: Store) {
    forall k :: k in a && k.ImageKey? ==> k in b && b[k].body == a[k].body
  }

  ghost predicate StonesKept(a: map<ReceiptId, Tombstone>, b: map<ReceiptId, Tombstone>) {
    forall r :: r in a ==> r in b
  }

  /** A change of the tables that loses no image and finishes no session. */
  ghost predicate Calm(t: Tables, t': Tables) {
    SessionsKept(t.sessions, t'.sessions) && ImagesKept(t.store, t'.store) && StonesKept(t.tombstones, t'.tombstones)
  }

  lemma FateKept(t: Tables, t': Tables, sha: Hash, c: Process)
    requires Calm(t, t') && FateOk(t, c) && ProcOk(sha, t, c)
    ensures FateOk(t', c)
  {
  }

  /** The process `p` starts, ends, or moves on while the tables change calmly. */
  lemma CalmMove(sha: Hash, s: State, s': State, p: ProcId)
    requires Inv(sha, s) && SafeInv(s) && Calm(s.t, s'.t)
    requires s'.procs - {p} == s.procs - {p}
    requires p in s'.procs ==> FateOk(s'.t, s'.procs[p]) && Allowed(s.procs, p, s'.procs[p])
    ensures SafeInv(s')
  {
    hide TablesInv, ProcOk, Calm, FateOk;
    TablesGive(sha, s.t, s.h);
    forall q | q in s'.procs
      ensures FateOk(s'.t, s'.procs[q]) && (q != p ==> q in s.procs && s'.procs[q] == s.procs[q]) {
      if q != p {
        assert q in s'.procs - {p};
        assert (s'.procs - {p})[q] == s'.procs[q];
        FateKept(s.t, s'.t, sha, s.procs[q]);
      }
    }
  }

  /** Process `p` may play the part of `c` beside the others. */
  ghost predicate Allowed(procs: map<ProcId, Process>, p: ProcId, c: Process) {
    forall q :: q in procs && q != p && ((Committer(c) && Cleaner(procs[q])) || (Cleaner(c) && Committer(procs[q]))) ==>
      procs[q].upload != c.upload
  }

  /** What a process goes on doing in the same part is allowed. */
  lemma StillAllowed(procs: map<ProcId, Process>, p: ProcId, c: Process)
    requires Apart(procs) && p in procs
    requires (Committer(c) ==> Committer(procs[p]) && c.upload == procs[p].upload)
             && (Cleaner(c) ==> Cleaner(procs[p]) && c.upload == procs[p].upload)
    ensures Allowed(procs, p, c)
  {
  }

  lemma TablesGive(sha: Hash, t: Tables, h: History)
    requires TablesInv(sha, t, h)
    ensures ReceiptInv(t.sessions, t.sessionOf, t.receipts)
    ensures IndexInv(t.sessions, t.sessionOf, t.nextUpload, t.now)
    ensures PartInv(sha, t.sessions, t.parts, t.store)
  {
    hide IndexInv, ReceiptInv, PartInv, AgeInv, StorageInv, ChargeInv, OpeningInv, OncePer, OrgInv;
  }

  // ---------------------------------------------------------------- calm transactions

  lemma Unmoved(t: Tables)
    ensures SessionsKept(t.sessions, t.sessions) && ImagesKept(t.store, t.store)
    ensures StonesKept(t.tombstones, t.tombstones)
  {
  }

  lemma CalmThen(t: Tables, t': Tables, t'': Tables)
    requires Calm(t, t') && Calm(t', t'')
    ensures Calm(t, t'')
  {
  }

  lemma StatusCalm(t: Tables, u: UploadId, expected: Status, next: Status)
    requires next != COMPLETE
    ensures Calm(t, SetStatus(t, u, expected, next))
  {
    hide ImagesKept, StonesKept;
    Unmoved(t);
  }

  lemma KeyCalm(t: Tables, u: UploadId, key: Key)
    ensures Calm(t, RecordImageKey(t, u, key))
  {
    hide ImagesKept, StonesKept;
    Unmoved(t);
  }

  lemma CreateCalm(t: Tables, device: Device, request: Request, paused: bool, vendorKnown: bool)
    requires t.nextUpload !in t.sessions
    ensures Calm(t, Create(t, device, request, paused, vendorKnown))
  {
    hide CreateAnswerFor, ImagesKept, StonesKept;
    Unmoved(t);
  }

  lemma RowsCalm(sha: Hash, t: Tables, u: UploadId, n: nat, body: Bytes)
    ensures Calm(t, DeletePartRows(t, u)) && Calm(t, InsertPart(t, sha, u, n, body))
  {
    hide SessionsKept, ImagesKept, StonesKept;
    Unmoved(t);
  }

  lemma ExpireCalm(sha: Hash, t: Tables, u: UploadId)
    ensures Calm(t, Expire(t, u))
  {
    hide Calm, SetStatus, DeletePartRows;
    var cleared := DeletePartRows(t, u);
    var first := SetStatus(cleared, u, OPEN, EXPIRED);
    RowsCalm(sha, t, u, 0, []);
    StatusCalm(cleared, u, OPEN, EXPIRED);
    StatusCalm(first, u, COMPLETING, EXPIRED);
    CalmThen(t, cleared, first);
    CalmThen(t, first, Expire(t, u));
  }

  lemma PartObjectCalm(t: Tables, key: Key, body: Bytes)
    requires key.PartKey?
    ensures Calm(t, PutObject(t, key, body)) && Calm(t, DeleteObject(t, key))
  {
    hide SessionsKept, StonesKept;
    Unmoved(t);
  }

  lemma StoneCalm(t: Tables, r: ReceiptId, stone: Tombstone)
    ensures Calm(t, SetTombstone(t, r, stone))
  {
    hide SessionsKept, ImagesKept;
    Unmoved(t);
  }

  lemma FinishCalm(t: Tables, r: ReceiptId)
    ensures Calm(t, FinishImage(t, r))
  {
    hide SessionsKept, ImagesKept, StonesKept;
    var t' := SetTombstone(t, r, COMPLETED);
    StoneCalm(t, r, COMPLETED);
  }

  lemma PurgeCalm(t: Tables, rs: set<ReceiptId>)
    requires ReceiptInv(t.sessions, t.sessionOf, t.receipts) && rs <= t.receipts.Keys
    ensures Calm(t, Purge(t, rs))
  {
    hide Without;
  }

  lemma BooksCalm(t: Tables, seconds: nat, orgs: map<OrgId, Organization>)
    ensures Calm(t, t) && Calm(t, t.(now := t.now + seconds)) && Calm(t, t.(orgs := orgs))
  {
    hide SessionsKept, ImagesKept, StonesKept;
    Unmoved(t);
  }

  // ---------------------------------------------------------------- steps that touch no image

  /** A look changes no table and leaves a process that neither owns nor cleans anything. */
  lemma OnlyLooks(sha: Hash, s: State, step: Step)
    requires step.PutCheck? || step.ListObject? || step.SelectImage? || step.CheckTracked?
    ensures var s' := Next(sha, s, step);
            s' == s ||
            (s'.t == s.t && s'.procs - {step.p} == s.procs - {step.p}
             && (step.p in s'.procs ==>
               s'.procs[step.p].Putting? || s'.procs[step.p].Listed? || s'.procs[step.p].Untracked?
               || s'.procs[step.p].Retaining?))
  {
    hide PartBusy, CheckPart;
  }

  lemma LookSafe(sha: Hash, s: State, step: Step)
    requires Inv(sha, s) && SafeInv(s)
    requires step.PutCheck? || step.ListObject? || step.SelectImage? || step.CheckTracked?
    ensures SafeInv(Next(sha, s, step))
  {
    hide Inv, SafeInv, Calm, Next;
    OnlyLooks(sha, s, step);
    BooksCalm(s.t, 0, s.t.orgs);
    if Next(sha, s, step) != s { CalmMove(sha, s, Next(sha, s, step), step.p); }
  }

  lemma ReadSafe(sha: Hash, s: State, step: Step)
    requires Inv(sha, s) && SafeInv(s) && (step.ReadPart? || step.Inspect?)
    ensures SafeInv(Next(sha, s, step))
  {
    hide Inv, SafeInv, Calm, Apart, Allowed, Checked;
    var s' := Next(sha, s, step);
    if s' != s {
      BooksCalm(s.t, 0, s.t.orgs);
      ReadAllowed(sha, s, step);
      CalmMove(sha, s, s', step.p);
    }
  }

  lemma ReadAllowed(sha: Hash, s: State, step: Step)
    requires SafeInv(s) && (step.ReadPart? || step.Inspect?)
    ensures var s' := Next(sha, s, step); s' != s && step.p in s'.procs ==> Allowed(s.procs, step.p, s'.procs[step.p])
  {
    hide FateOk, Apart, Checked, IsWebp;
    if step.p in s.procs && s.procs[step.p].Reading? && step.p in Next(sha, s, step).procs {
      StillAllowed(s.procs, step.p, Next(sha, s, step).procs[step.p]);
    }
  }

  lemma OpenSafe(sha: Hash, s: State, step: Step)
    requires Inv(sha, s) && SafeInv(s)
             && (step.OpenSession? || step.Tick? || step.SetQuota? || step.PurgeReceipts? || step.Crash?)
    ensures SafeInv(Next(sha, s, step))
  {
    hide Inv, SafeInv, Calm, Create, Purge, LeakMore;
    var s' := Next(sha, s, step);
    assert Calm(s.t, s'.t) by { OpenCalm(sha, s, step); }
    if step.Crash? { CalmMove(sha, s, s', step.p); } else { TablesMove(sha, s, s'); }
  }

  lemma OpenCalm(sha: Hash, s: State, step: Step)
    requires Inv(sha, s) && (step.OpenSession? || step.Tick? || step.SetQuota? || step.PurgeReceipts? || step.Crash?)
    ensures Calm(s.t, Next(sha, s, step).t)
  {
    hide TablesInv, ProcOk, Calm, Create, Purge, LeakMore;
    TablesGive(sha, s.t, s.h);
    var s' := Next(sha, s, step);
    BooksCalm(s.t, if step.Tick? then step.seconds else 0, s'.t.orgs);
    if step.OpenSession? {
      CreateCalm(s.t, step.device, step.request, step.paused, step.vendorKnown);
    } else if step.PurgeReceipts? && Purgeable(s.t, step.org, step.rs) {
      PurgeCalm(s.t, step.rs);
    }
  }

  lemma TablesMove(sha: Hash, s: State, s': State)
    requires Inv(sha, s) && SafeInv(s) && Calm(s.t, s'.t) && s'.procs == s.procs
    ensures SafeInv(s')
  {
    hide TablesInv, ProcOk, Calm, FateOk;
    TablesGive(sha, s.t, s.h);
    forall q | q in s'.procs ensures FateOk(s'.t, s'.procs[q]) {
      FateKept(s.t, s'.t, sha, s.procs[q]);
    }
  }

  lemma SelectSafe(sha: Hash, s: State, step: Step)
    requires Inv(sha, s) && SafeInv(s) && Orderly(s, step) && step.SelectStale?
    ensures SafeInv(Next(sha, s, step))
  {
    hide TablesInv, ProcOk, Calm, Apart, FateOk, Allowed, Stale;
    var s' := Next(sha, s, step);
    if s' != s {
      TablesGive(sha, s.t, s.h);
      BooksCalm(s.t, 0, s.t.orgs);
      SelectedFate(s, step.p, step.u);
      assert s'.procs - {step.p} == s.procs - {step.p};
      CalmMove(sha, s, s', step.p);
    }
  }

  lemma SelectedFate(s: State, p: ProcId, u: UploadId)
    requires IndexInv(s.t.sessions, s.t.sessionOf, s.t.nextUpload, s.t.now) && u in s.t.sessions
             && Orderly(s, SelectStale(p, u))
    ensures var c := Selected(u, s.t.sessions[u].status, s.t.sessions[u].image);
            FateOk(s.t, c) && Allowed(s.procs, p, c)
  {
    assert SessionOk(s.t.sessions[u], s.t.nextUpload, s.t.now, u);
  }

  lemma LoadSafe(sha: Hash, s: State, step: Step)
    requires Inv(sha, s) && SafeInv(s) && step.LoadKeys?
    ensures SafeInv(Next(sha, s, step))
  {
    hide TablesInv, ProcOk, Calm, Doomed, FateOk, Apart;
    var s' := Next(sha, s, step);
    if s' != s {
      TablesGive(sha, s.t, s.h);
      BooksCalm(s.t, 0, s.t.orgs);
      DoomedFate(sha, s.t, s.procs[step.p]);
      StillAllowed(s.procs, step.p, s'.procs[step.p]);
      CalmMove(sha, s, s', step.p);
    }
  }

  lemma DoomedFate(sha: Hash, t: Tables, c: Process)
    requires PartInv(sha, t.sessions, t.parts, t.store) && c.Selected? && FateOk(t, c)
    ensures var d := Cleaning(c.upload, c.saw, Doomed(t, c.upload, c.saw, c.image));
            FateOk(t, d) && (Cleaner(d) ==> Cleaner(c))
  {
    RowsHaveKeys(sha, t, c.upload);
    var rows := RowsOf(t, c.upload);
    forall k | k in KeysOf(rows) ensures k.PartKey? {
      var i :| 0 <= i < |KeysOf(rows)| && KeysOf(rows)[i] == k;
      assert rows[i] in rows;
    }
  }

  lemma ClaimSafe(sha: Hash, s: State, step: Step)
    requires Inv(sha, s) && SafeInv(s) && Orderly(s, step) && step.ClaimSession?
    ensures SafeInv(Next(sha, s, step))
  {
    hide Inv, SafeInv, Calm, RowsOf, SetStatus;
    var s' := Next(sha, s, step);
    if s' != s {
      StatusCalm(s.t, step.u, OPEN, COMPLETING);
      CalmMove(sha, s, s', step.p);
    }
  }

  lemma StatusSafe(sha: Hash, s: State, step: Step)
    requires Inv(sha, s) && SafeInv(s) && (step.RecordKey? || step.Release?)
    ensures SafeInv(Next(sha, s, step))
  {
    hide TablesInv, ProcOk, Calm, Apart, SetStatus, RecordImageKey;
    var s' := Next(sha, s, step);
    if s' != s {
      var c := s.procs[step.p];
      if c.Releasing? {
        StatusIsReleased(sha, s, step.p);
        StatusCalm(s.t, c.upload, COMPLETING, c.to);
      } else {
        KeyCalm(s.t, c.upload, ImageKey(c.row.receipt, s.t.now / DAY));
        StillAllowed(s.procs, step.p, s'.procs[step.p]);
      }
      CalmMove(sha, s, s', step.p);
    }
  }

  lemma StatusIsReleased(sha: Hash, s: State, p: ProcId)
    requires Inv(sha, s) && p in s.procs && s.procs[p].Releasing?
    ensures s.procs[p].to != COMPLETE
  {
    hide TablesInv;
    assert ProcOk(sha, s.t, s.procs[p]);
  }

  lemma RowsSafe(sha: Hash, s: State, step: Step)
    requires Inv(sha, s) && SafeInv(s) && (step.ExpireSession? || step.SweepRows? || step.PutInsert?)
    ensures SafeInv(Next(sha, s, step))
  {
    hide Inv, SafeInv, Calm, Expire, DeletePartRows, InsertPart;
    var s' := Next(sha, s, step);
    if s' != s {
      var c := s.procs[step.p];
      BooksCalm(s.t, 0, s.t.orgs);
      if c.Cleaning? { ExpireCalm(sha, s.t, c.upload); }
      else if c.Sweeping? { RowsCalm(sha, s.t, c.upload, 0, []); }
      else { RowsCalm(sha, s.t, c.upload, c.number, c.body); }
      CalmMove(sha, s, s', step.p);
    }
  }

  lemma PartKeyOf(sha: Hash, s: State, p: ProcId)
    requires Inv(sha, s) && p in s.procs
    ensures s.procs[p].Untracked? ==> s.procs[p].key.PartKey?
    ensures s.procs[p].Sweeping? ==> forall part :: part in s.procs[p].parts ==> part.key.PartKey?
  {
    hide TablesInv;
    assert ProcOk(sha, s.t, s.procs[p]);
  }

  lemma PartObjectSafe(sha: Hash, s: State, step: Step)
    requires Inv(sha, s) && SafeInv(s) && (step.PutWrite? || step.SweepPart? || step.DeleteUntracked?)
    ensures SafeInv(Next(sha, s, step))
  {
    hide Inv, SafeInv, Calm, PutObject, DeleteObject;
    var s' := Next(sha, s, step);
    if s' != s {
      var c := s.procs[step.p];
      PartKeyOf(sha, s, step.p);
      BooksCalm(s.t, 0, s.t.orgs);
      PartObjectCalm(s.t,
        if c.Putting? then PartKey(c.upload, c.number) else if c.Sweeping? then c.parts[c.next].key else c.key,
                     if c.Putting? then c.body else []);
      CalmMove(sha, s, s', step.p);
    }
  }

  lemma StoneSafe(sha: Hash, s: State, step: Step)
    requires Inv(sha, s) && SafeInv(s)
             && (step.MarkImage? || step.FinishRetention? || (step.DropImage? && step.removal == Untouched))
    ensures SafeInv(Next(sha, s, step))
  {
    hide Inv, SafeInv, Calm, FinishImage, SetTombstone;
    var s' := Next(sha, s, step);
    if s' != s {
      var r := s.procs[step.p].receipt;
      StoneCalm(s.t, r, if step.MarkImage? then PENDING else FAILED_RETRYABLE);
      FinishCalm(s.t, r);
      BooksCalm(s.t, 0, s.t.orgs);
      CalmMove(sha, s, s', step.p);
    }
  }

  // ---------------------------------------------------------------- steps that touch an image

  /** Only images of the receipt `r` may differ. */
  ghost predicate OthersKept(a: Store, b: Store, r: ReceiptId) {
    forall k :: k in a && k.ImageKey? && k.receipt != r ==> k in b && b[k].body == a[k].body
  }

  lemma TouchFate(sha: Hash, t: Tables, store: Store, r: ReceiptId, c: Process)
    requires FateOk(t, c) && ProcOk(sha, t, c) && OthersKept(t.store, store, r)
    requires c.Stored? && c.row.receipt == r ==> r in t.tombstones
    ensures FateOk(t.(store := store), c)
  {
  }

  /** A completion about to commit the receipt of session `u` is a completion of `u`. */
  lemma SameUpload(sha: Hash, t: Tables, u: UploadId, c: Process)
    requires IndexInv(t.sessions, t.sessionOf, t.nextUpload, t.now) && u in t.sessions
    requires c.Stored? && ProcOk(sha, t, c) && c.row.receipt == t.sessions[u].receipt
    ensures c.upload == u
  {
  }

  /** Process `p` changes an image of the receipt `r`, whose loss nobody would notice. */
  lemma ImageMove(sha: Hash, s: State, s': State, p: ProcId, r: ReceiptId)
    requires Inv(sha, s) && SafeInv(s) && s'.t == s.t.(store := s'.t.store) && OthersKept(s.t.store, s'.t.store, r)
    requires forall q :: q in s.procs && q != p && s.procs[q].Stored? && s.procs[q].row.receipt == r ==>
      r in s.t.tombstones
    requires s'.procs - {p} == s.procs - {p}
    requires p in s'.procs ==> FateOk(s'.t, s'.procs[p]) && Allowed(s.procs, p, s'.procs[p])
    ensures SafeInv(s')
  {
    hide TablesInv, ProcOk, OthersKept, FateOk;
    TablesGive(sha, s.t, s.h);
    forall q | q in s'.procs
      ensures FateOk(s'.t, s'.procs[q]) && (q != p ==> q in s.procs && s'.procs[q] == s.procs[q]) {
      if q != p {
        assert q in s'.procs - {p};
        assert (s'.procs - {p})[q] == s'.procs[q];
        TouchFate(sha, s.t, s'.t.store, r, s.procs[q]);
      }
    }
  }

  lemma WriteSafe(sha: Hash, s: State, step: Step)
    requires Inv(sha, s) && SafeInv(s) && step.WriteImage?
    ensures SafeInv(Next(sha, s, step))
  {
    hide TablesInv, FateOk, Apart, PartsOf, Checked;
    var s' := Next(sha, s, step);
    if s' != s {
      var c := s.procs[step.p];
      var r := c.row.receipt;
      TablesGive(sha, s.t, s.h);
      OnlyStored(sha, s, step.p, c.upload, r);
      StillAllowed(s.procs, step.p, s'.procs[step.p]);
      assert FateOk(s'.t, s'.procs[step.p]) by { StoredFate(s'.t, s'.procs[step.p]); }
      ImageMove(sha, s, s', step.p, r);
    }
  }

  lemma StoredFate(t: Tables, c: Process)
    requires c.Stored? && c.key in t.store && t.store[c.key].body == c.body
    ensures FateOk(t, c)
  {
  }

  /** While `p` owns session `u`, or holds it as a clean-up pass, nobody else is about to commit its receipt. */
  lemma OnlyStored(sha: Hash, s: State, p: ProcId, u: UploadId, r: ReceiptId)
    requires Inv(sha, s) && p in s.procs && u in s.t.sessions && s.t.sessions[u].receipt == r
    requires (Owner(s.procs[p]) || (Cleaner(s.procs[p]) && Apart(s.procs))) && s.procs[p].upload == u
    ensures forall q :: q in s.procs && q != p && s.procs[q].Stored? ==> s.procs[q].row.receipt != r
  {
    hide TablesInv, ProcOk;
    TablesGive(sha, s.t, s.h);
    forall q | q in s.procs && q != p && s.procs[q].Stored? ensures s.procs[q].row.receipt != r {
      assert !Clash(s.procs[p], s.procs[q]);
      if s.procs[q].row.receipt == r { SameUpload(sha, s.t, u, s.procs[q]); }
    }
  }

  lemma CompensateSafe(sha: Hash, s: State, step: Step)
    requires Inv(sha, s) && SafeInv(s) && step.DeleteImage?
    ensures SafeInv(Next(sha, s, step))
  {
    hide TablesInv, ProcOk, Apart;
    var s' := Next(sha, s, step);
    if s' != s {
      var c := s.procs[step.p];
      assert FateOk(s.t, c);
      var r := s.t.sessions[c.upload].receipt;
      TablesGive(sha, s.t, s.h);
      OnlyStored(sha, s, step.p, c.upload, r);
      StillAllowed(s.procs, step.p, s'.procs[step.p]);
      ImageMove(sha, s, s', step.p, r);
    }
  }

  lemma DeleteKeepsOthers(store: Store, key: Key)
    requires key.ImageKey?
    ensures OthersKept(store, store - {key}, key.receipt)
  {
  }

  lemma CleaningFate(sha: Hash, t: Tables, c: Process)
    requires c.Cleaning? && c.todo != [] && ProcOk(sha, t, c) && FateOk(t, c)
    ensures FateOk(t.(store := t.store - {c.todo[0]}), c.(todo := c.todo[1..]))
    ensures c.todo[0].ImageKey? ==>
      Cleaner(c) && Undone(t.sessions, c.upload) && c.todo[0].receipt == t.sessions[c.upload].receipt
  {
    hide Held, PartsOf, PutOk, Aged;
  }

  lemma CleanSafe(sha: Hash, s: State, step: Step)
    requires Inv(sha, s) && SafeInv(s) && step.DeleteKey?
    ensures SafeInv(Next(sha, s, step))
  {
    hide TablesInv, ProcOk, FateOk, Apart, Calm, OthersKept;
    var s' := Next(sha, s, step);
    if s' != s {
      var c := s.procs[step.p];
      CleaningFate(sha, s.t, c);
      StillAllowed(s.procs, step.p, s'.procs[step.p]);
      if c.todo[0].PartKey? {
        PartObjectCalm(s.t, c.todo[0], []);
        CalmMove(sha, s, s', step.p);
      } else {
        var r := s.t.sessions[c.upload].receipt;
        TablesGive(sha, s.t, s.h);
          OnlyStored(sha, s, step.p, c.upload, r);
        DeleteKeepsOthers(s.t.store, c.todo[0]);
        ImageMove(sha, s, s', step.p, r);
      }
    }
  }

  lemma RetainingFacts(sha: Hash, t: Tables, store: Store, c: Process)
    requires c.Retaining? && ProcOk(sha, t, c)
    ensures ImageOf(c.key, c.receipt) && (c.stage != Chosen ==> c.receipt in t.tombstones)
    ensures FateOk(t.(store := store), c.(stage := Dropped)) && FateOk(t.(store := store), c.(stage := Undropped))
  {
  }

  lemma DropSafe(sha: Hash, s: State, step: Step)
    requires Inv(sha, s) && SafeInv(s) && step.DropImage? && step.removal != Untouched
    ensures SafeInv(Next(sha, s, step))
  {
    hide TablesInv, ProcOk, FateOk, Apart, OthersKept;
    var s' := Next(sha, s, step);
    if s' != s {
      var c := s.procs[step.p];
      RetainingFacts(sha, s.t, s'.t.store, c);
      DeleteKeepsOthers(s.t.store, c.key);
      ImageMove(sha, s, s', step.p, c.receipt);
    }
  }

  lemma CommitFate(sha: Hash, t: Tables, c: Process, day: DayVerdict, d: Process)
    requires Committing(sha, t, c, day) && FateOk(t, d) && !Clash(c, d) && (Cleaner(d) ==> d.upload != c.upload)
    ensures FateOk(Committed(t, c, day), d)
  {
  }

  lemma CommitSafe(sha: Hash, s: State, step: Step)
    requires Inv(sha, s) && SafeInv(s) && Orderly(s, step) && step.CommitReceipt?
    ensures SafeInv(Next(sha, s, step))
  {
    hide TablesInv, ProcOk, FateOk, Commit, CommitError;
    var s' := Next(sha, s, step);
    if s' != s {
      var c := s.procs[step.p];
      if step.fault == Aborted || CommitError(s.t, c.upload, |c.body|, step.day) != None {
        GiveUpFate(sha, s.t, c, s.h);
        BooksCalm(s.t, 0, s.t.orgs);
        StillAllowed(s.procs, step.p, s'.procs[step.p]);
        CalmMove(sha, s, s', step.p);
      } else {
        forall q | q in s.procs && q != step.p ensures FateOk(s'.t, s.procs[q]) {
          CommitFate(sha, s.t, c, step.day, s.procs[q]);
        }
        SweepingFate(s'.t, s'.procs[step.p]);
      }
    }
  }

  lemma SweepingFate(t: Tables, c: Process)
    requires c.Sweeping?
    ensures FateOk(t, c)
  {
  }

  lemma GiveUpFate(sha: Hash, t: Tables, c: Process, h: History)
    requires c.Stored? && ProcOk(sha, t, c)
    ensures FateOk(t, Compensating(c.upload, c.key))
  {
  }

  /** Every orderly step keeps every accepted image. */
  lemma StepSafe(sha: Hash, s: State, step: Step)
    requires Inv(sha, s) && SafeInv(s) && Orderly(s, step)
    ensures SafeInv(Next(sha, s, step))
  {
    hide Inv, SafeInv, Next, Orderly;
    match step
    case OpenSession(_, _, _, _) => OpenSafe(sha, s, step);
    case Tick(_) => OpenSafe(sha, s, step);
    case SetQuota(_, _) => OpenSafe(sha, s, step);
    case PurgeReceipts(_, _) => OpenSafe(sha, s, step);
    case Crash(_) => OpenSafe(sha, s, step);
    case PutCheck(_, _, _, _, _, _) => LookSafe(sha, s, step);
    case ListObject(_, _) => LookSafe(sha, s, step);
    case SelectImage(_, _) => LookSafe(sha, s, step);
    case CheckTracked(_) => LookSafe(sha, s, step);
    case ReadPart(_, _) => ReadSafe(sha, s, step);
    case Inspect(_) => ReadSafe(sha, s, step);
    case SelectStale(_, _) => SelectSafe(sha, s, step);
    case LoadKeys(_) => LoadSafe(sha, s, step);
    case ClaimSession(_, _, _) => ClaimSafe(sha, s, step);
    case RecordKey(_) => StatusSafe(sha, s, step);
    case Release(_) => StatusSafe(sha, s, step);
    case ExpireSession(_) => RowsSafe(sha, s, step);
    case SweepRows(_) => RowsSafe(sha, s, step);
    case PutInsert(_) => RowsSafe(sha, s, step);
    case PutWrite(_) => PartObjectSafe(sha, s, step);
    case SweepPart(_, _) => PartObjectSafe(sha, s, step);
    case DeleteUntracked(_) => PartObjectSafe(sha, s, step);
    case MarkImage(_) => StoneSafe(sha, s, step);
    case FinishRetention(_) => StoneSafe(sha, s, step);
    case DropImage(_, removal) => if removal != Untouched { DropSafe(sha, s, step); } else { StoneSafe(sha, s, step); }
    case WriteImage(_) => WriteSafe(sha, s, step);
    case DeleteImage(_, _) => CompensateSafe(sha, s, step);
    case DeleteKey(_) => CleanSafe(sha, s, step);
    case CommitReceipt(_, _, _) => CommitSafe(sha, s, step);
  }

  // ---------------------------------------------------------------- orderly runs are careful

  lemma FateOfTaker(sha: Hash, t: Tables, d: Process, key: Key)
    requires Takes(d, key) && key.ImageKey? && FateOk(t, d) && ProcOk(sha, t, d)
    ensures (Cleaner(d) || d.Compensating?) && Undone(t.sessions, d.upload)
            && t.sessions[d.upload].receipt == key.receipt
  {
    hide Held, PartsOf, PutOk, Aged;
  }

  /** Whoever means to delete the image of a session cannot be about when it is committed. */
  lemma NobodyTakes(sha: Hash, s: State, p: ProcId, q: ProcId)
    requires Inv(sha, s) && SafeInv(s) && p in s.procs && s.procs[p].Stored? && q in s.procs
    ensures !Takes(s.procs[q], s.procs[p].key)
  {
    hide TablesInv, ProcOk, FateOk, Exclusive;
    var c, d := s.procs[p], s.procs[q];
    if Takes(d, c.key) {
      TablesGive(sha, s.t, s.h);
      StoredFacts(sha, s.t, c);
      FateOfTaker(sha, s.t, d, c.key);
      SameUpload(sha, s.t, d.upload, c);
      Distinct(s.procs, p, q);
    }
  }

  lemma Distinct(procs: map<ProcId, Process>, p: ProcId, q: ProcId)
    requires Exclusive(procs) && p in procs && q in procs && p != q
    ensures !Clash(procs[p], procs[q])
  {
  }

  lemma StoredFacts(sha: Hash, t: Tables, c: Process)
    requires c.Stored? && ProcOk(sha, t, c)
    ensures ImageOf(c.key, c.row.receipt) && Checked(sha, c.row, c.body)
  {
  }

  /** An orderly step never commits what is exposed. */
  lemma OrderlyIsCareful(sha: Hash, s: State, step: Step)
    requires Inv(sha, s) && SafeInv(s) && Orderly(s, step)
    ensures Careful(sha, s, step)
  {
    hide TablesInv, ProcOk, Apart, Exclusive, CommitError;
    if step.CommitReceipt? && Effective(s, step.p, step.day, step.fault) {
      StoredFacts(sha, s.t, s.procs[step.p]);
      assert FateOk(s.t, s.procs[step.p]);
      if q :| q in s.procs && Takes(s.procs[q], s.procs[step.p].key) { NobodyTakes(sha, s, step.p, q); }
    }
  }

  lemma InitSafe(s: State)
    requires Init(s)
    ensures SafeInv(s)
  {
  }

  lemma {:induction false} OrderlyRunIsCareful(sha: Hash, s: State, steps: seq<Step>)
    requires Inv(sha, s) && SafeInv(s) && OrderlyRun(sha, s, steps)
    ensures CarefulRun(sha, s, steps)
    decreases |steps|
  {
    hide Inv, SafeInv, Next, Orderly, Careful;
    if steps != [] {
      StepKeeps(sha, s, steps[0]);
      StepSafe(sha, s, steps[0]);
      OrderlyIsCareful(sha, s, steps[0]);
      OrderlyRunIsCareful(sha, Next(sha, s, steps[0]), steps[1..]);
    }
  }

  /** In an orderly run no accepted receipt loses its image before a tombstone is committed for it. */
  lemma OrderlyImagesDurable(sha: Hash, s: State, r: ReceiptId)
    requires SafelyReachable(sha, s) && r in s.t.receipts
    ensures r in s.t.tombstones || Intact(sha, s.t.store, s.t.receipts[r])
  {
    hide Inv, Run, Init, OrderlyRun, SafeInv, Intact;
    var s0: State, steps: seq<Step> :| Init(s0) && OrderlyRun(sha, s0, steps) && Run(sha, s0, steps) == s;
    InitHolds(sha, s0);
    InitSafe(s0);
    OrderlyRunIsCareful(sha, s0, steps);
    ImagesDurable(sha, s0, steps, r);
  }
}
