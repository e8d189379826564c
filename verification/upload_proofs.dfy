/** Every step of the upload protocol keeps its invariant. The lemmas come in pairs: what a
    transaction does to the tables, and what it leaves true of a process that did not run. */
module UploadProofs {
  import opened Basics
  import opened Sums
  import opened UploadTables
  import opened UploadProtocol

  // ---------------------------------------------------------------- one session row rewritten

  predicate Touch(a: Session, b: Session) {
    && b.receipt == a.receipt && b.owner == a.owner && b.total == a.total && b.digest == a.digest
      && b.created == a.created
    && (a.status == COMPLETE <==> b.status == COMPLETE)
    && (b.image.Some? && b.image != a.image ==> ImageOf(b.image.value, a.receipt))
  }

  lemma TouchReceipts(sessions: Sessions, sessionOf: map<ReceiptId, UploadId>, receipts: Receipts, u: UploadId,
      row: Session)
    requires ReceiptInv(sessions, sessionOf, receipts) && u in sessions && Touch(sessions[u], row)
    ensures ReceiptInv(sessions[u := row], sessionOf, receipts)
  {
  }

  lemma TouchRest(sha: Hash, t: Tables, h: History, u: UploadId, row: Session)
    requires IndexInv(t.sessions, t.sessionOf, t.nextUpload, t.now) && PartInv(sha, t.sessions, t.parts, t.store)
    requires AgeInv(t.sessions, t.store, t.nextUpload, t.now) && OpeningInv(t.sessions, t.nextUpload, h.openings)
    requires ChargeInv(t.sessions, t.nextUpload, h.charged)
    requires u in t.sessions && Touch(t.sessions[u], row) && row.updated == t.now
    ensures var sessions := t.sessions[u := row];
            && IndexInv(sessions, t.sessionOf, t.nextUpload, t.now) && PartInv(sha, sessions, t.parts, t.store)
            && AgeInv(sessions, t.store, t.nextUpload, t.now) && OpeningInv(sessions, t.nextUpload, h.openings)
            && ChargeInv(sessions, t.nextUpload, h.charged)
  {
  }

  lemma TouchTables(sha: Hash, t: Tables, h: History, u: UploadId, row: Session)
    requires TablesInv(sha, t, h) && u in t.sessions && Touch(t.sessions[u], row) && row.updated == t.now
    ensures TablesInv(sha, t.(sessions := t.sessions[u := row]), h)
  {
    hide IndexInv, ReceiptInv, PartInv, AgeInv, OpeningInv, ChargeInv, StorageInv;
    TouchReceipts(t.sessions, t.sessionOf, t.receipts, u, row);
    TouchRest(sha, t, h, u, row);
  }

  lemma StatusTables(sha: Hash, t: Tables, h: History, u: UploadId, expected: Status, next: Status)
    requires TablesInv(sha, t, h) && expected != COMPLETE && next != COMPLETE
    ensures TablesInv(sha, SetStatus(t, u, expected, next), h)
  {
    if u in t.sessions && t.sessions[u].status == expected {
      TouchTables(sha, t, h, u, t.sessions[u].(status := next, updated := t.now));
    }
  }

  lemma StatusProc(sha: Hash, t: Tables, u: UploadId, expected: Status, next: Status, c: Process)
    requires ProcOk(sha, t, c) && expected != COMPLETE
    requires next == COMPLETING || next == EXPIRED || !(Owner(c) && c.upload == u)
    ensures ProcOk(sha, SetStatus(t, u, expected, next), c)
  {
  }

  lemma KeyTables(sha: Hash, t: Tables, h: History, u: UploadId, key: Key)
    requires TablesInv(sha, t, h) && (u in t.sessions ==> ImageOf(key, t.sessions[u].receipt))
    ensures TablesInv(sha, RecordImageKey(t, u, key), h)
  {
    if u in t.sessions && t.sessions[u].status == COMPLETING {
      TouchTables(sha, t, h, u, t.sessions[u].(image := Some(key), updated := t.now));
    }
  }

  lemma KeyProc(sha: Hash, t: Tables, u: UploadId, key: Key, c: Process)
    requires ProcOk(sha, t, c)
    ensures ProcOk(sha, RecordImageKey(t, u, key), c)
  {
  }

  // ---------------------------------------------------------------- a session opened

  lemma OpenIndex(sessions: Sessions, sessionOf: map<ReceiptId, UploadId>, u: UploadId, now: nat, row: Session)
    requires IndexInv(sessions, sessionOf, u, now) && row.receipt !in sessionOf && SessionOk(row, u + 1, now, u)
    ensures IndexInv(sessions[u := row], sessionOf[row.receipt := u], u + 1, now)
  {
  }

  lemma OpenReceipts(sessions: Sessions, sessionOf: map<ReceiptId, UploadId>, receipts: Receipts, u: UploadId,
      row: Session)
    requires ReceiptInv(sessions, sessionOf, receipts) && u !in sessions && row.receipt !in sessionOf
             && row.status == OPEN
    ensures ReceiptInv(sessions[u := row], sessionOf[row.receipt := u], receipts)
  {
  }

  lemma OpenRest(sha: Hash, t: Tables, h: History, row: Session)
    requires TablesInv(sha, t, h) && t.nextUpload !in t.sessions && row.status == OPEN
    ensures var sessions := t.sessions[t.nextUpload := row];
            && PartInv(sha, sessions, t.parts, t.store)
            && AgeInv(sessions, t.store, t.nextUpload + 1, t.now)
            && OpeningInv(sessions, t.nextUpload + 1, h.openings[t.nextUpload := Opening(row.receipt, row.digest)])
            && ChargeInv(sessions, t.nextUpload + 1, h.charged)
  {
  }

  lemma CreateTables(sha: Hash, s: State, device: Device, request: Request, paused: bool, vendorKnown: bool)
    requires TablesInv(sha, s.t, s.h)
    ensures var s' := AfterOpen(s, device, request, paused, vendorKnown); TablesInv(sha, s'.t, s'.h)
  {
    var t := s.t;
    var t' := Create(t, device, request, paused, vendorKnown);
    if t'.nextUpload != t.nextUpload {
      var row := t'.sessions[t.nextUpload];
      assert t.nextUpload !in t.sessions;
      OpenIndex(t.sessions, t.sessionOf, t.nextUpload, t.now, row);
      OpenReceipts(t.sessions, t.sessionOf, t.receipts, t.nextUpload, row);
      OpenRest(sha, t, s.h, row);
    }
  }

  lemma OpenProc(sha: Hash, t: Tables, row: Session, c: Process)
    requires ProcOk(sha, t, c)
    ensures ProcOk(sha, t.(nextUpload := t.nextUpload + 1, sessions := t.sessions[t.nextUpload := row],
                           sessionOf := t.sessionOf[row.receipt := t.nextUpload]), c)
  {
  }

  lemma CreateProc(sha: Hash, t: Tables, device: Device, request: Request, paused: bool, vendorKnown: bool, c: Process)
    requires ProcOk(sha, t, c)
    ensures ProcOk(sha, Create(t, device, request, paused, vendorKnown), c)
  {
    hide ProcOk, CreateAnswerFor;
    OpenProc(sha, t, Session(request.receipt, device, request.total, request.digest, OPEN, t.now, t.now, None), c);
  }

  // ---------------------------------------------------------------- objects

  lemma WritePartTables(sha: Hash, t: Tables, h: History, u: UploadId, n: nat, body: Bytes)
    requires TablesInv(sha, t, h) && (u, n) !in t.parts && u < t.nextUpload
    ensures TablesInv(sha, PutObject(t, PartKey(u, n), body), h)
  {
  }

  lemma WritePartProc(sha: Hash, t: Tables, u: UploadId, n: nat, body: Bytes, c: Process)
    requires ProcOk(sha, t, c) && !(c.Putting? && c.upload == u && c.number == n)
    ensures ProcOk(sha, PutObject(t, PartKey(u, n), body), c)
  {
  }

  lemma WriteImageTables(sha: Hash, t: Tables, h: History, key: Key, body: Bytes)
    requires TablesInv(sha, t, h) && key.ImageKey?
    ensures TablesInv(sha, PutObject(t, key, body), h)
  {
  }

  lemma WriteImageProc(sha: Hash, t: Tables, key: Key, body: Bytes, c: Process)
    requires ProcOk(sha, t, c) && key.ImageKey?
    ensures ProcOk(sha, PutObject(t, key, body), c)
  {
  }

  lemma DeleteTables(sha: Hash, t: Tables, h: History, key: Key)
    requires TablesInv(sha, t, h)
    ensures TablesInv(sha, DeleteObject(t, key), h)
  {
  }

  lemma DeleteProc(sha: Hash, t: Tables, key: Key, c: Process)
    requires ProcOk(sha, t, c)
    ensures ProcOk(sha, DeleteObject(t, key), c)
  {
  }

  // ---------------------------------------------------------------- part rows

  lemma InsertTables(sha: Hash, t: Tables, h: History, c: Process)
    requires TablesInv(sha, t, h) && c.Putting? && c.written && ProcOk(sha, t, c)
    ensures TablesInv(sha, InsertPart(t, sha, c.upload, c.number, c.body), h)
  {
  }

  lemma InsertProc(sha: Hash, t: Tables, u: UploadId, n: nat, body: Bytes, c: Process)
    requires ProcOk(sha, t, c) && !(c.Putting? && c.upload == u && c.number == n)
    ensures ProcOk(sha, InsertPart(t, sha, u, n, body), c)
  {
  }

  lemma RowsTables(sha: Hash, t: Tables, h: History, u: UploadId)
    requires TablesInv(sha, t, h)
    ensures TablesInv(sha, DeletePartRows(t, u), h)
  {
  }

  lemma RowsProc(sha: Hash, t: Tables, u: UploadId, c: Process)
    requires ProcOk(sha, t, c)
    ensures ProcOk(sha, DeletePartRows(t, u), c)
  {
  }

  lemma ExpireTables(sha: Hash, t: Tables, h: History, u: UploadId)
    requires TablesInv(sha, t, h)
    ensures TablesInv(sha, Expire(t, u), h)
  {
    var cleared := DeletePartRows(t, u);
    RowsTables(sha, t, h, u);
    StatusTables(sha, cleared, h, u, OPEN, EXPIRED);
    StatusTables(sha, SetStatus(cleared, u, OPEN, EXPIRED), h, u, COMPLETING, EXPIRED);
  }

  lemma ExpireProc(sha: Hash, t: Tables, u: UploadId, c: Process)
    requires ProcOk(sha, t, c)
    ensures ProcOk(sha, Expire(t, u), c)
  {
    var cleared := DeletePartRows(t, u);
    RowsProc(sha, t, u, c);
    StatusProc(sha, cleared, u, OPEN, EXPIRED, c);
    StatusProc(sha, SetStatus(cleared, u, OPEN, EXPIRED), u, COMPLETING, EXPIRED, c);
  }

  // ---------------------------------------------------------------- the commit

  ghost predicate Committing(sha: Hash, t: Tables, c: Process, day: DayVerdict) {
    c.Stored? && ProcOk(sha, t, c) && CommitError(t, c.upload, |c.body|, day) == None
  }

  function Committed(t: Tables, c: Process, day: DayVerdict): Tables
    requires c.Stored?
  {
    Commit(t, c.upload, c.body, c.key, c.row.digest, day)
  }

  /** A session that is completing has no receipt yet, and no other session has its receipt. */
  lemma CommitFresh(sha: Hash, t: Tables, c: Process, day: DayVerdict)
    requires IndexInv(t.sessions, t.sessionOf, t.nextUpload, t.now) && ReceiptInv(t.sessions, t.sessionOf, t.receipts)
    requires Committing(sha, t, c, day)
    ensures c.row.receipt !in t.receipts && c.row.receipt in t.sessionOf && t.sessionOf[c.row.receipt] == c.upload
    ensures forall u :: u in t.sessions && u != c.upload ==> t.sessions[u].receipt != c.row.receipt
  {
  }

  /** What the commit writes, table by table. */
  lemma CommitWrites(sha: Hash, t: Tables, c: Process, day: DayVerdict)
    requires Committing(sha, t, c, day)
    ensures c.Stored? && c.upload in t.sessions && t.sessions[c.upload].status == COMPLETING
            && c.row.owner.org in t.orgs
    ensures var row := t.sessions[c.upload].(status := COMPLETE, updated := t.now);
            var org := t.orgs[c.row.owner.org];
            var x := Receipt(c.row.owner, c.key, |c.body|, c.row.digest, t.now, false);
            && row.receipt == c.row.receipt && ReceiptOk(x, row, row.receipt)
            && Committed(t, c, day) == t.(
                 sessions := t.sessions[c.upload := row],
                 orgs := t.orgs[x.owner.org := org.(stored := org.stored + x.bytes)],
                 receipts := t.receipts[c.row.receipt := x],
                 audited := t.audited + multiset{c.row.receipt},
                 queued := t.queued + multiset{c.row.receipt})
  {
  }

  lemma CommitReceipts(
    sessions: Sessions, sessionOf: map<ReceiptId, UploadId>, receipts: Receipts, u: UploadId, row: Session, x: Receipt)
    requires ReceiptInv(sessions, sessionOf, receipts) && u in sessions
    requires row.receipt == sessions[u].receipt && row.status == COMPLETE && row.receipt in sessionOf
             && sessionOf[row.receipt] == u
    requires forall v :: v in sessions && v != u ==> sessions[v].receipt != row.receipt
    requires row.receipt !in receipts && ReceiptOk(x, row, row.receipt)
    ensures ReceiptInv(sessions[u := row], sessionOf, receipts[row.receipt := x])
  {
  }

  lemma AddReceipt(receipts: Receipts, r: ReceiptId, x: Receipt, o: OrgId)
    requires r !in receipts && !x.imageDeleted
    ensures Sum(LiveBytes(receipts[r := x], o)) == Sum(LiveBytes(receipts, o)) + if o == x.owner.org then x.bytes else 0
  {
    if o == x.owner.org {
      Put(LiveBytes(receipts, o), r, x.bytes);
      assert LiveBytes(receipts[r := x], o) == LiveBytes(receipts, o)[r := x.bytes];
    } else {
      assert LiveBytes(receipts[r := x], o) == LiveBytes(receipts, o);
    }
  }

  lemma CommitStorage(orgs: map<OrgId, Organization>, receipts: Receipts, leaked: map<OrgId, nat>, r: ReceiptId,
      x: Receipt)
    requires StorageInv(orgs, receipts, leaked) && r !in receipts && !x.imageDeleted && x.owner.org in orgs
    ensures StorageInv(orgs[x.owner.org := orgs[x.owner.org].(stored := orgs[x.owner.org].stored + x.bytes)],
            receipts[r := x], leaked)
  {
    forall o | o in orgs
      ensures Sum(LiveBytes(receipts[r := x], o)) == Sum(LiveBytes(receipts, o)) +
              if o == x.owner.org then x.bytes else 0
    {
      AddReceipt(receipts, r, x, o);
    }
  }

  /** The rest of the tables invariant does not look at what else the commit writes. */
  lemma CommitRest(sha: Hash, t: Tables, h: History, u: UploadId, row: Session)
    requires IndexInv(t.sessions, t.sessionOf, t.nextUpload, t.now) && PartInv(sha, t.sessions, t.parts, t.store)
    requires AgeInv(t.sessions, t.store, t.nextUpload, t.now) && OpeningInv(t.sessions, t.nextUpload, h.openings)
    requires ChargeInv(t.sessions, t.nextUpload, h.charged) && u in t.sessions && t.sessions[u].status == COMPLETING
    requires row == t.sessions[u].(status := COMPLETE, updated := t.now)
    ensures var sessions := t.sessions[u := row];
            && IndexInv(sessions, t.sessionOf, t.nextUpload, t.now) && PartInv(sha, sessions, t.parts, t.store)
            && AgeInv(sessions, t.store, t.nextUpload, t.now) && OpeningInv(sessions, t.nextUpload, h.openings)
            && ChargeInv(sessions, t.nextUpload, h.charged + multiset{u})
  {
  }

  lemma CommitOnce(m: multiset<ReceiptId>, receipts: Receipts, r: ReceiptId, x: Receipt)
    requires OncePer(m, receipts) && r !in receipts
    ensures OncePer(m + multiset{r}, receipts[r := x])
  {
  }

  lemma CommitTables(sha: Hash, t: Tables, h: History, c: Process, day: DayVerdict)
    requires TablesInv(sha, t, h) && Committing(sha, t, c, day)
    ensures TablesInv(sha, Committed(t, c, day), h.(charged := h.charged + multiset{c.upload}))
  {
    hide IndexInv, ReceiptInv, PartInv, AgeInv, OpeningInv, ChargeInv, StorageInv, OncePer, Committing, Commit,
      ReceiptOk;
    CommitFresh(sha, t, c, day);
    CommitWrites(sha, t, c, day);
    var row := t.sessions[c.upload].(status := COMPLETE, updated := t.now);
    var x := Receipt(c.row.owner, c.key, |c.body|, c.row.digest, t.now, false);
    CommitReceipts(t.sessions, t.sessionOf, t.receipts, c.upload, row, x);
    CommitStorage(t.orgs, t.receipts, h.leaked, c.row.receipt, x);
    CommitRest(sha, t, h, c.upload, row);
    CommitOnce(t.audited, t.receipts, c.row.receipt, x);
    CommitOnce(t.queued, t.receipts, c.row.receipt, x);
  }

  lemma CommitProc(sha: Hash, t: Tables, c: Process, day: DayVerdict, d: Process)
    requires Committing(sha, t, c, day) && ProcOk(sha, t, d) && !Clash(c, d)
    ensures ProcOk(sha, Committed(t, c, day), d)
  {
  }

  // ---------------------------------------------------------------- retention

  lemma StoneTables(sha: Hash, t: Tables, h: History, r: ReceiptId, stone: Tombstone)
    requires TablesInv(sha, t, h)
    ensures TablesInv(sha, SetTombstone(t, r, stone), h)
  {
    hide IndexInv, ReceiptInv, PartInv, AgeInv, StorageInv, ChargeInv, OpeningInv, OncePer, OrgInv;
  }

  lemma StoneProc(sha: Hash, t: Tables, r: ReceiptId, stone: Tombstone, c: Process)
    requires ProcOk(sha, t, c)
    ensures ProcOk(sha, SetTombstone(t, r, stone), c)
  {
  }

  lemma BooksProc(sha: Hash, t: Tables, receipts: Receipts, orgs: map<OrgId, Organization>, c: Process)
    requires ProcOk(sha, t, c)
    ensures ProcOk(sha, t.(receipts := receipts, orgs := orgs), c)
  {
  }

  /** The bytes taken off are counted in the sum, so the subtraction never has to stop at zero. */
  lemma NeverClamps(orgs: map<OrgId, Organization>, receipts: Receipts, leaked: map<OrgId, nat>, r: ReceiptId)
    requires StorageInv(orgs, receipts, leaked) && r in receipts && !receipts[r].imageDeleted
             && receipts[r].owner.org in orgs
    ensures orgs[receipts[r].owner.org].stored >= receipts[r].bytes
  {
    Take(LiveBytes(receipts, receipts[r].owner.org), r);
  }

  lemma DropReceipt(receipts: Receipts, r: ReceiptId, o: OrgId)
    requires r in receipts && !receipts[r].imageDeleted
    ensures Sum(LiveBytes(receipts, o)) ==
            Sum(LiveBytes(receipts[r := receipts[r].(imageDeleted := true)], o)) +
              if o == receipts[r].owner.org then receipts[r].bytes else 0
  {
    var receipts' := receipts[r := receipts[r].(imageDeleted := true)];
    if o == receipts[r].owner.org {
      Take(LiveBytes(receipts, o), r);
      assert LiveBytes(receipts', o) == LiveBytes(receipts, o) - {r};
    } else {
      assert LiveBytes(receipts', o) == LiveBytes(receipts, o);
    }
  }

  lemma FinishStorage(orgs: map<OrgId, Organization>, receipts: Receipts, leaked: map<OrgId, nat>, r: ReceiptId)
    requires StorageInv(orgs, receipts, leaked) && OrgInv(receipts, orgs)
    ensures StorageInv(Released(orgs, receipts, r), WithoutImage(receipts, r), leaked)
  {
    if r in receipts && !receipts[r].imageDeleted {
      NeverClamps(orgs, receipts, leaked, r);
      forall o | o in orgs
        ensures Sum(LiveBytes(receipts, o)) == Sum(LiveBytes(WithoutImage(receipts, r), o)) +
                if o == receipts[r].owner.org then receipts[r].bytes else 0
      {
        DropReceipt(receipts, r, o);
      }
      hide LiveBytes;
    } else {
      assert WithoutImage(receipts, r) == receipts;
    }
  }

  lemma FinishReceipts(sessions: Sessions, sessionOf: map<ReceiptId, UploadId>, receipts: Receipts, r: ReceiptId)
    requires ReceiptInv(sessions, sessionOf, receipts) && r in receipts
    ensures ReceiptInv(sessions, sessionOf, receipts[r := receipts[r].(imageDeleted := true)])
  {
  }

  lemma FinishTables(sha: Hash, t: Tables, h: History, r: ReceiptId)
    requires TablesInv(sha, t, h)
    ensures TablesInv(sha, FinishImage(t, r), h)
  {
    hide IndexInv, ReceiptInv, PartInv, AgeInv, OpeningInv, ChargeInv, StorageInv;
    FinishStorage(t.orgs, t.receipts, h.leaked, r);
    if r in t.receipts {
      FinishReceipts(t.sessions, t.sessionOf, t.receipts, r);
    }
  }

  lemma FinishProc(sha: Hash, t: Tables, r: ReceiptId, c: Process)
    requires ProcOk(sha, t, c)
    ensures ProcOk(sha, FinishImage(t, r), c)
  {
    hide ProcOk;
    StoneProc(sha, t, r, COMPLETED, c);
    var t' := FinishImage(t, r);
    BooksProc(sha, SetTombstone(t, r, COMPLETED), t'.receipts, t'.orgs, c);
  }

  // ---------------------------------------------------------------- the one-year deletion

  lemma PurgeSum(receipts: Receipts, org: OrgId, rs: set<ReceiptId>, o: OrgId)
    requires forall r :: r in rs ==> r in receipts && receipts[r].owner.org == org
    ensures Sum(LiveBytes(receipts, o)) == Sum(LiveBytes(receipts - rs, o)) +
            if o == org then BytesIn(receipts, org, rs) else 0
  {
    var live := LiveBytes(receipts, o);
    assert LiveBytes(receipts - rs, o) == live - rs;
    if o == org {
      Split(live, rs);
    } else {
      assert live - rs == live;
    }
  }

  lemma PurgeStorage(orgs: map<OrgId, Organization>, receipts: Receipts, leaked: map<OrgId, nat>, org: OrgId,
      rs: set<ReceiptId>)
    requires StorageInv(orgs, receipts, leaked)
    requires forall r :: r in rs ==> r in receipts && receipts[r].owner.org == org
    ensures StorageInv(orgs, receipts - rs, LeakMore(leaked, receipts, org, rs))
  {
    forall o | o in orgs
      ensures orgs[o].stored == Sum(LiveBytes(receipts - rs, o)) + LeakedBytes(LeakMore(leaked, receipts, org, rs), o)
    {
      PurgeSum(receipts, org, rs, o);
    }
  }

  lemma PurgeIndex(t: Tables, rs: set<ReceiptId>)
    requires IndexInv(t.sessions, t.sessionOf, t.nextUpload, t.now)
    ensures var t' := Purge(t, rs); IndexInv(t'.sessions, t'.sessionOf, t'.nextUpload, t'.now)
  {
  }

  lemma PurgeReceiptRows(t: Tables, rs: set<ReceiptId>)
    requires IndexInv(t.sessions, t.sessionOf, t.nextUpload, t.now)
    requires ReceiptInv(t.sessions, t.sessionOf, t.receipts)
    ensures var t' := Purge(t, rs); ReceiptInv(t'.sessions, t'.sessionOf, t'.receipts)
  {
  }

  lemma PurgeTables(sha: Hash, t: Tables, h: History, org: OrgId, rs: set<ReceiptId>)
    requires TablesInv(sha, t, h) && Purgeable(t, org, rs)
    ensures TablesInv(sha, Purge(t, rs), h.(leaked := LeakMore(h.leaked, t.receipts, org, rs)))
  {
    PurgeIndex(t, rs);
    PurgeReceiptRows(t, rs);
    PurgeStorage(t.orgs, t.receipts, h.leaked, org, rs);
  }

  /** No session of a deleted receipt is still being completed. */
  lemma PurgeProc(sha: Hash, t: Tables, rs: set<ReceiptId>, c: Process)
    requires ReceiptInv(t.sessions, t.sessionOf, t.receipts)
    requires ProcOk(sha, t, c) && rs <= t.receipts.Keys
    ensures ProcOk(sha, Purge(t, rs), c)
  {
  }

  // ---------------------------------------------------------------- all steps

  /** The process `p` moved the tables from `s.t` to `s'.t`; the others stayed where they were. */
  ghost predicate Moved(sha: Hash, s: State, s': State, p: ProcId) {
    && (forall q :: q in s'.procs && q != p ==>
      q in s.procs && s'.procs[q] == s.procs[q] && ProcOk(sha, s'.t, s.procs[q]))
    && (p in s'.procs ==>
      ProcOk(sha, s'.t, s'.procs[p]) && forall q :: q in s.procs && q != p ==> !Clash(s'.procs[p], s.procs[q]))
  }

  lemma MovedKeeps(sha: Hash, s: State, s': State, p: ProcId)
    requires Inv(sha, s) && TablesInv(sha, s'.t, s'.h) && Moved(sha, s, s', p)
    ensures Inv(sha, s')
  {
    hide TablesInv, ProcOk;
    forall a, b | a in s'.procs && b in s'.procs && a != b ensures !Clash(s'.procs[a], s'.procs[b]) {
      if a != p && b != p {
        assert !Clash(s.procs[a], s.procs[b]);
      }
    }
  }

  lemma RowsHaveKeys(sha: Hash, t: Tables, u: UploadId)
    requires PartInv(sha, t.sessions, t.parts, t.store)
    ensures PartsOf(RowsOf(t, u), u)
  {
    forall part | part in RowsOf(t, u) ensures PartOf(part.key, u) {
      var k: nat :| (u, k) in t.parts && t.parts[(u, k)] == part;
    }
  }

  lemma OpenKeeps(sha: Hash, s: State, step: Step)
    requires Inv(sha, s) && step.OpenSession?
    ensures Inv(sha, Next(sha, s, step))
  {
    hide TablesInv, ProcOk, Create;
    var s' := Next(sha, s, step);
    CreateTables(sha, s, step.device, step.request, step.paused, step.vendorKnown);
    forall q | q in s.procs ensures ProcOk(sha, s'.t, s.procs[q]) {
      CreateProc(sha, s.t, step.device, step.request, step.paused, step.vendorKnown, s.procs[q]);
    }
  }

  /** A new process, or the next phase of one, whose claims were already its own. */
  lemma SetKeeps(sha: Hash, s: State, p: ProcId, c: Process)
    requires Inv(sha, s) && ProcOk(sha, s.t, c)
    requires forall q :: q in s.procs && q != p ==> !Clash(c, s.procs[q])
    ensures Inv(sha, Set(s, p, c))
  {
    hide TablesInv, ProcOk;
    MovedKeeps(sha, s, Set(s, p, c), p);
  }

  lemma PutStarts(sha: Hash, t: Tables, device: Device, u: UploadId, n: nat, body: Bytes, declared: Digest)
    requires IndexInv(t.sessions, t.sessionOf, t.nextUpload, t.now)
    requires CheckPart(t, sha, device, u, n, body, declared) == Proceed
    ensures ProcOk(sha, t, Putting(u, n, body, false))
  {
  }

  lemma SelectStarts(sha: Hash, t: Tables, u: UploadId)
    requires IndexInv(t.sessions, t.sessionOf, t.nextUpload, t.now) && u in t.sessions && Stale(t, u)
    ensures ProcOk(sha, t, Selected(u, t.sessions[u].status, t.sessions[u].image))
  {
  }

  lemma ListStarts(sha: Hash, t: Tables, key: Key)
    requires AgeInv(t.sessions, t.store, t.nextUpload, t.now)
    requires key.PartKey? && key in t.store && t.store[key].modified + 25 * HOUR < t.now
    ensures ProcOk(sha, t, Listed(key))
  {
  }

  lemma StartKeeps(sha: Hash, s: State, step: Step)
    requires Inv(sha, s) && (step.PutCheck? || step.SelectStale? || step.ListObject? || step.SelectImage?)
    ensures Inv(sha, Next(sha, s, step))
  {
    hide IndexInv, PartInv, AgeInv, StorageInv, ChargeInv, OpeningInv, OncePer, OrgInv, ProcOk, Stale, CheckPart;
    var s' := Next(sha, s, step);
    if s' != s {
      match step {
        case PutCheck(p, device, u, n, body, declared) => PutStarts(sha, s.t, device, u, n, body, declared);
        case SelectStale(p, u) => SelectStarts(sha, s.t, u);
        case ListObject(p, key) => ListStarts(sha, s.t, key);
        case SelectImage(p, r) => assert ProcOk(sha, s.t, s'.procs[p]) by { ImageStarts(sha, s.t, r); }
      }
      SetKeeps(sha, s, step.p, s'.procs[step.p]);
    }
  }

  lemma ImageStarts(sha: Hash, t: Tables, r: ReceiptId)
    requires ReceiptInv(t.sessions, t.sessionOf, t.receipts) && r in t.receipts
    ensures ProcOk(sha, t, Retaining(r, t.receipts[r].key, Chosen))
  {
  }

  lemma ClaimKeeps(sha: Hash, s: State, step: Step)
    requires Inv(sha, s) && step.ClaimSession?
    ensures Inv(sha, Next(sha, s, step))
  {
    hide IndexInv, ReceiptInv, PartInv, AgeInv, StorageInv, ChargeInv, OpeningInv, OncePer, OrgInv, RowsOf;
    var s' := Next(sha, s, step);
    var u := step.u;
    if s' != s {
      StatusTables(sha, s.t, s.h, u, OPEN, COMPLETING);
      RowsHaveKeys(sha, s.t, u);
      forall q | q in s.procs ensures ProcOk(sha, s'.t, s.procs[q]) && !Clash(s'.procs[step.p], s.procs[q]) {
        StatusProc(sha, s.t, u, OPEN, COMPLETING, s.procs[q]);
      }
      ClaimStarts(sha, s.t, u, RowsOf(s.t, u));
      MovedKeeps(sha, s, s', step.p);
    }
  }

  lemma ClaimStarts(sha: Hash, t: Tables, u: UploadId, rows: seq<Part>)
    requires IndexInv(t.sessions, t.sessionOf, t.nextUpload, t.now) && u in t.sessions && t.sessions[u].status == OPEN
    requires PartsOf(rows, u)
    ensures ProcOk(sha, SetStatus(t, u, OPEN, COMPLETING), Reading(u, t.sessions[u], rows, 0, []))
  {
  }

  // ---------------------------------------------------------------- steps that only read

  lemma ReadOk(sha: Hash, s: State, p: ProcId, fails: bool)
    requires p in s.procs && s.procs[p].Reading? && ProcOk(sha, s.t, s.procs[p]) && s.procs[p].next < |s.procs[p].parts|
    ensures ProcOk(sha, s.t, AfterRead(s, p, s.procs[p], fails).procs[p])
  {
  }

  lemma InspectOk(sha: Hash, s: State, p: ProcId)
    requires p in s.procs && s.procs[p].Reading? && ProcOk(sha, s.t, s.procs[p])
    ensures ProcOk(sha, s.t, AfterInspect(sha, s, p, s.procs[p]).procs[p])
  {
  }

  lemma DoomedKeys(sha: Hash, t: Tables, c: Process)
    requires PartInv(sha, t.sessions, t.parts, t.store) && c.Selected? && ProcOk(sha, t, c)
    ensures ProcOk(sha, t, Cleaning(c.upload, c.saw, Doomed(t, c.upload, c.saw, c.image)))
  {
    RowsHaveKeys(sha, t, c.upload);
    var rows := RowsOf(t, c.upload);
    var keys := KeysOf(rows);
    forall k | k in keys ensures PartOf(k, c.upload) {
      var i :| 0 <= i < |keys| && keys[i] == k;
      assert rows[i] in rows;
    }
  }

  lemma ReadKeeps(sha: Hash, s: State, step: Step)
    requires Inv(sha, s) && (step.ReadPart? || step.Inspect?)
    ensures Inv(sha, Next(sha, s, step))
  {
    hide TablesInv, ProcOk, Checked;
    var s' := Next(sha, s, step);
    if s' != s {
      if step.ReadPart? { ReadOk(sha, s, step.p, step.fails); } else { InspectOk(sha, s, step.p); }
      SetKeeps(sha, s, step.p, s'.procs[step.p]);
    }
  }

  lemma LookKeeps(sha: Hash, s: State, step: Step)
    requires Inv(sha, s) && (step.LoadKeys? || step.CheckTracked?)
    ensures Inv(sha, Next(sha, s, step))
  {
    hide IndexInv, ReceiptInv, PartInv, AgeInv, StorageInv, ChargeInv, OpeningInv, OncePer, OrgInv, Aged, Doomed,
      SeenComplete;
    var s' := Next(sha, s, step);
    if s' != s {
      var c := s.procs[step.p];
      if c.Selected? {
        DoomedKeys(sha, s.t, c);
        SetKeeps(sha, s, step.p, s'.procs[step.p]);
      } else if step.p in s'.procs {
        SetKeeps(sha, s, step.p, s'.procs[step.p]);
      } else {
        MovedKeeps(sha, s, s', step.p);
      }
    }
  }

  // ---------------------------------------------------------------- steps that write

  lemma PutWriteKeeps(sha: Hash, s: State, step: Step)
    requires Inv(sha, s) && step.PutWrite?
    ensures Inv(sha, Next(sha, s, step))
  {
    hide IndexInv, ReceiptInv, PartInv, AgeInv, StorageInv, ChargeInv, OpeningInv, OncePer, OrgInv;
    var s' := Next(sha, s, step);
    if s' != s {
      var c := s.procs[step.p];
      WritePartTables(sha, s.t, s.h, c.upload, c.number, c.body);
      forall q | q in s.procs && q != step.p ensures ProcOk(sha, s'.t, s.procs[q]) && !Clash(c, s.procs[q]) {
        WritePartProc(sha, s.t, c.upload, c.number, c.body, s.procs[q]);
      }
      MovedKeeps(sha, s, s', step.p);
    }
  }

  lemma PutInsertKeeps(sha: Hash, s: State, step: Step)
    requires Inv(sha, s) && step.PutInsert?
    ensures Inv(sha, Next(sha, s, step))
  {
    hide TablesInv, ProcOk;
    var s' := Next(sha, s, step);
    if s' != s {
      var c := s.procs[step.p];
      InsertTables(sha, s.t, s.h, c);
      forall q | q in s.procs && q != step.p ensures ProcOk(sha, s'.t, s.procs[q]) {
        assert !Clash(c, s.procs[q]);
        InsertProc(sha, s.t, c.upload, c.number, c.body, s.procs[q]);
      }
      MovedKeeps(sha, s, s', step.p);
    }
  }

  lemma RecordKeeps(sha: Hash, s: State, step: Step)
    requires Inv(sha, s) && step.RecordKey?
    ensures Inv(sha, Next(sha, s, step))
  {
    hide IndexInv, ReceiptInv, PartInv, AgeInv, StorageInv, ChargeInv, OpeningInv, OncePer, OrgInv, PartsOf, Checked;
    var s' := Next(sha, s, step);
    if s' != s {
      var c := s.procs[step.p];
      var key := ImageKey(c.row.receipt, s.t.now / DAY);
      KeyTables(sha, s.t, s.h, c.upload, key);
      forall q | q in s.procs ensures ProcOk(sha, s'.t, s.procs[q]) {
        KeyProc(sha, s.t, c.upload, key, s.procs[q]);
      }
      MovedKeeps(sha, s, s', step.p);
    }
  }

  lemma WriteKeeps(sha: Hash, s: State, step: Step)
    requires Inv(sha, s) && step.WriteImage?
    ensures Inv(sha, Next(sha, s, step))
  {
    hide IndexInv, ReceiptInv, PartInv, AgeInv, StorageInv, ChargeInv, OpeningInv, OncePer, OrgInv, PartsOf, Checked,
      Held;
    var s' := Next(sha, s, step);
    if s' != s {
      var c := s.procs[step.p];
      WriteImageTables(sha, s.t, s.h, c.key, c.body);
      forall q | q in s.procs ensures ProcOk(sha, s'.t, s.procs[q]) {
        WriteImageProc(sha, s.t, c.key, c.body, s.procs[q]);
      }
      MovedKeeps(sha, s, s', step.p);
    }
  }

  lemma CommitSelf(sha: Hash, t: Tables, c: Process, day: DayVerdict)
    requires Committing(sha, t, c, day)
    ensures ProcOk(sha, Committed(t, c, day), Sweeping(c.upload, c.parts, 0, true))
    ensures ProcOk(sha, Committed(t, c, day), Compensating(c.upload, c.key))
  {
  }

  lemma GiveUpOk(sha: Hash, t: Tables, c: Process)
    requires ProcOk(sha, t, c) && c.Stored?
    ensures ProcOk(sha, t, Compensating(c.upload, c.key))
  {
  }

  lemma CommitKeeps(sha: Hash, s: State, step: Step)
    requires Inv(sha, s) && step.CommitReceipt?
    ensures Inv(sha, Next(sha, s, step))
  {
    hide TablesInv, ProcOk, Commit, CommitError;
    var s' := Next(sha, s, step);
    if s' != s {
      var c := s.procs[step.p];
      if step.fault == Aborted || CommitError(s.t, c.upload, |c.body|, step.day) != None {
        GiveUpOk(sha, s.t, c);
        SetKeeps(sha, s, step.p, Compensating(c.upload, c.key));
      } else {
        CommitTables(sha, s.t, s.h, c, step.day);
        CommitSelf(sha, s.t, c, step.day);
        forall q | q in s.procs && q != step.p
          ensures ProcOk(sha, s'.t, s.procs[q]) && !Clash(s'.procs[step.p], s.procs[q]) {
          CommitProc(sha, s.t, c, step.day, s.procs[q]);
        }
        MovedKeeps(sha, s, s', step.p);
      }
    }
  }

  /** Deleting an object is harmless to every process, whatever the deleting process does next. */
  lemma DeleteKeeps(sha: Hash, s: State, p: ProcId, key: Key, s': State)
    requires Inv(sha, s) && p in s.procs
    requires s' == (if p in s'.procs then Set(s, p, s'.procs[p]) else End(s, p)).(t := DeleteObject(s.t, key))
    requires p in s'.procs ==>
      ProcOk(sha, s.t, s'.procs[p]) && forall q :: q in s.procs && q != p ==> !Clash(s'.procs[p], s.procs[q])
    ensures Inv(sha, s')
  {
    hide TablesInv, ProcOk;
    DeleteTables(sha, s.t, s.h, key);
    forall q | q in s'.procs ensures ProcOk(sha, s'.t, s'.procs[q]) {
      DeleteProc(sha, s.t, key, s'.procs[q]);
    }
    MovedKeeps(sha, s, s', p);
  }

  lemma CompensateKeeps(sha: Hash, s: State, step: Step)
    requires Inv(sha, s) && (step.DeleteImage? || step.SweepPart?)
    ensures Inv(sha, Next(sha, s, step))
  {
    hide IndexInv, ReceiptInv, PartInv, AgeInv, StorageInv, ChargeInv, OpeningInv, OncePer, OrgInv, PartsOf, GivenUp,
      SeenComplete;
    var s' := Next(sha, s, step);
    if s' != s {
      var c := s.procs[step.p];
      match step {
        case DeleteImage(p, ok) =>
          if ok { DeleteKeeps(sha, s, p, c.key, s'); } else { SetKeeps(sha, s, p, s'.procs[p]); }
        case SweepPart(p, removal) =>
          if removal != Untouched {
            DeleteKeeps(sha, s, p, c.parts[c.next].key, s');
          } else {
            SetKeeps(sha, s, p, s'.procs[p]);
          }
      }
    }
  }

  lemma CleanKeeps(sha: Hash, s: State, step: Step)
    requires Inv(sha, s) && (step.DeleteKey? || step.DeleteUntracked?)
    ensures Inv(sha, Next(sha, s, step))
  {
    hide IndexInv, ReceiptInv, PartInv, AgeInv, StorageInv, ChargeInv, OpeningInv, OncePer, OrgInv, SeenComplete, Aged;
    var s' := Next(sha, s, step);
    if s' != s {
      var c := s.procs[step.p];
      DeleteKeeps(sha, s, step.p, if step.DeleteKey? then c.todo[0] else c.key, s');
    }
  }

  lemma ReleaseKeeps(sha: Hash, s: State, step: Step)
    requires Inv(sha, s) && step.Release?
    ensures Inv(sha, Next(sha, s, step))
  {
    hide IndexInv, ReceiptInv, PartInv, AgeInv, StorageInv, ChargeInv, OpeningInv, OncePer, OrgInv, GivenUp;
    var s' := Next(sha, s, step);
    if s' != s {
      var c := s.procs[step.p];
      StatusTables(sha, s.t, s.h, c.upload, COMPLETING, c.to);
      forall q | q in s.procs && q != step.p ensures ProcOk(sha, s'.t, s.procs[q]) {
        assert !Clash(c, s.procs[q]);
        StatusProc(sha, s.t, c.upload, COMPLETING, c.to, s.procs[q]);
      }
      MovedKeeps(sha, s, s', step.p);
    }
  }

  lemma RowsKeeps(sha: Hash, s: State, step: Step)
    requires Inv(sha, s) && (step.SweepRows? || step.ExpireSession?)
    ensures Inv(sha, Next(sha, s, step))
  {
    hide TablesInv, ProcOk, Expire, DeletePartRows;
    var s' := Next(sha, s, step);
    if s' != s {
      var c := s.procs[step.p];
      if step.ExpireSession? { ExpireTables(sha, s.t, s.h, c.upload); } else { RowsTables(sha, s.t, s.h, c.upload); }
      forall q | q in s.procs ensures ProcOk(sha, s'.t, s.procs[q]) {
        if step.ExpireSession? {
          ExpireProc(sha, s.t, c.upload, s.procs[q]);
        } else {
          RowsProc(sha, s.t, c.upload, s.procs[q]);
        }
      }
      MovedKeeps(sha, s, s', step.p);
    }
  }

  // ---------------------------------------------------------------- retention and the rest

  lemma MarkSelf(sha: Hash, t: Tables, c: Process)
    requires ProcOk(sha, t, c) && c.Retaining?
    ensures ProcOk(sha, SetTombstone(t, c.receipt, PENDING), c.(stage := Marked))
  {
  }

  lemma MarkKeeps(sha: Hash, s: State, step: Step)
    requires Inv(sha, s) && step.MarkImage?
    ensures Inv(sha, Next(sha, s, step))
  {
    hide TablesInv, ProcOk;
    var s' := Next(sha, s, step);
    if s' != s {
      StoneTables(sha, s.t, s.h, s.procs[step.p].receipt, PENDING);
      MarkSelf(sha, s.t, s.procs[step.p]);
      forall q | q in s.procs ensures ProcOk(sha, s'.t, s.procs[q]) {
        StoneProc(sha, s.t, s.procs[step.p].receipt, PENDING, s.procs[q]);
      }
      MovedKeeps(sha, s, s', step.p);
    }
  }

  lemma DropKeeps(sha: Hash, s: State, step: Step)
    requires Inv(sha, s) && step.DropImage?
    ensures Inv(sha, Next(sha, s, step))
  {
    hide IndexInv, ReceiptInv, PartInv, AgeInv, StorageInv, ChargeInv, OpeningInv, OncePer, OrgInv;
    var s' := Next(sha, s, step);
    if s' != s {
      var c := s.procs[step.p];
      if step.removal != Untouched {
        DeleteKeeps(sha, s, step.p, c.key, s');
      } else {
        SetKeeps(sha, s, step.p, s'.procs[step.p]);
      }
    }
  }

  lemma FinishKeeps(sha: Hash, s: State, step: Step)
    requires Inv(sha, s) && step.FinishRetention?
    ensures Inv(sha, Next(sha, s, step))
  {
    hide TablesInv, ProcOk, FinishImage, SetTombstone;
    var s' := Next(sha, s, step);
    if s' != s {
      var c := s.procs[step.p];
      FinishTables(sha, s.t, s.h, c.receipt);
      StoneTables(sha, s.t, s.h, c.receipt, FAILED_RETRYABLE);
      forall q | q in s.procs ensures ProcOk(sha, s'.t, s.procs[q]) {
        FinishProc(sha, s.t, c.receipt, s.procs[q]);
        StoneProc(sha, s.t, c.receipt, FAILED_RETRYABLE, s.procs[q]);
      }
      MovedKeeps(sha, s, s', step.p);
    }
  }

  lemma PurgeKeeps(sha: Hash, s: State, step: Step)
    requires Inv(sha, s) && step.PurgeReceipts?
    ensures Inv(sha, Next(sha, s, step))
  {
    hide IndexInv, ReceiptInv, PartInv, AgeInv, StorageInv, ChargeInv, OpeningInv, OncePer, OrgInv, ProcOk, Purge,
      LeakMore;
    var s' := Next(sha, s, step);
    if s' != s {
      PurgeTables(sha, s.t, s.h, step.org, step.rs);
      forall q | q in s.procs ensures ProcOk(sha, s'.t, s.procs[q]) {
        PurgeProc(sha, s.t, step.rs, s.procs[q]);
      }
    }
  }

  lemma ClockProc(sha: Hash, t: Tables, seconds: nat, orgs: map<OrgId, Organization>, c: Process)
    requires ProcOk(sha, t, c)
    ensures ProcOk(sha, t.(now := t.now + seconds), c) && ProcOk(sha, t.(orgs := orgs), c)
  {
  }

  lemma ClockTables(sha: Hash, t: Tables, h: History, seconds: nat)
    requires TablesInv(sha, t, h)
    ensures TablesInv(sha, t.(now := t.now + seconds), h)
  {
    hide ReceiptInv, PartInv, ChargeInv, OpeningInv, OncePer, OrgInv, StorageInv;
  }

  lemma QuotaTables(sha: Hash, t: Tables, h: History, org: OrgId, limit: nat)
    requires TablesInv(sha, t, h) && org in t.orgs
    ensures TablesInv(sha, t.(orgs := t.orgs[org := t.orgs[org].(storageLimit := limit)]), h)
  {
    hide IndexInv, ReceiptInv, PartInv, AgeInv, ChargeInv, OpeningInv, OncePer;
  }

  lemma EnvironmentKeeps(sha: Hash, s: State, step: Step)
    requires Inv(sha, s) && (step.Tick? || step.SetQuota? || step.Crash?)
    ensures Inv(sha, Next(sha, s, step))
  {
    hide TablesInv, ProcOk;
    var s' := Next(sha, s, step);
    if step.Tick? { ClockTables(sha, s.t, s.h, step.seconds); }
    if step.SetQuota? && s' != s { QuotaTables(sha, s.t, s.h, step.org, step.limit); }
    forall q | q in s'.procs ensures ProcOk(sha, s'.t, s'.procs[q]) {
      ClockProc(sha, s.t, if step.Tick? then step.seconds else 0, s'.t.orgs, s.procs[q]);
    }
  }

  /** The invariant holds after every step. */
  lemma StepKeeps(sha: Hash, s: State, step: Step)
    requires Inv(sha, s)
    ensures Inv(sha, Next(sha, s, step))
  {
    hide Inv, Next;
    match step
    case OpenSession(_, _, _, _) => OpenKeeps(sha, s, step);
    case PutCheck(_, _, _, _, _, _) => StartKeeps(sha, s, step);
    case SelectStale(_, _) => StartKeeps(sha, s, step);
    case ListObject(_, _) => StartKeeps(sha, s, step);
    case SelectImage(_, _) => StartKeeps(sha, s, step);
    case PutWrite(_) => PutWriteKeeps(sha, s, step);
    case PutInsert(_) => PutInsertKeeps(sha, s, step);
    case ClaimSession(_, _, _) => ClaimKeeps(sha, s, step);
    case ReadPart(_, _) => ReadKeeps(sha, s, step);
    case Inspect(_) => ReadKeeps(sha, s, step);
    case RecordKey(_) => RecordKeeps(sha, s, step);
    case WriteImage(_) => WriteKeeps(sha, s, step);
    case CommitReceipt(_, _, _) => CommitKeeps(sha, s, step);
    case Release(_) => ReleaseKeeps(sha, s, step);
    case SweepRows(_) => RowsKeeps(sha, s, step);
    case ExpireSession(_) => RowsKeeps(sha, s, step);
    case LoadKeys(_) => LookKeeps(sha, s, step);
    case CheckTracked(_) => LookKeeps(sha, s, step);
    case DeleteImage(_, _) => CompensateKeeps(sha, s, step);
    case SweepPart(_, _) => CompensateKeeps(sha, s, step);
    case DeleteKey(_) => CleanKeeps(sha, s, step);
    case DeleteUntracked(_) => CleanKeeps(sha, s, step);
    case MarkImage(_) => MarkKeeps(sha, s, step);
    case DropImage(_, _) => DropKeeps(sha, s, step);
    case FinishRetention(_) => FinishKeeps(sha, s, step);
    case PurgeReceipts(_, _) => PurgeKeeps(sha, s, step);
    case SetQuota(_, _) => EnvironmentKeeps(sha, s, step);
    case Crash(_) => EnvironmentKeeps(sha, s, step);
    case Tick(_) => EnvironmentKeeps(sha, s, step);
  }

  lemma InitHolds(sha: Hash, s: State)
    requires Init(s)
    ensures Inv(sha, s)
  {
    forall o | o in s.t.orgs ensures LiveBytes(s.t.receipts, o) == map[] {}
    assert s.h.openings == map[];
  }

  /** …and so in every state of every run. */
  lemma {:induction false} RunKeeps(sha: Hash, s: State, steps: seq<Step>)
    requires Inv(sha, s)
    ensures Inv(sha, Run(sha, s, steps))
    decreases |steps|
  {
    hide Inv, Next;
    if steps != [] {
      StepKeeps(sha, s, steps[0]);
      RunKeeps(sha, Next(sha, s, steps[0]), steps[1..]);
    }
  }

  lemma ReachableInv(sha: Hash, s: State)
    requires Reachable(sha, s)
    ensures Inv(sha, s)
  {
    hide Inv, Init, Run;
    var s0: State, steps: seq<Step> :| Init(s0) && Run(sha, s0, steps) == s;
    InitHolds(sha, s0);
    RunKeeps(sha, s0, steps);
  }
}
