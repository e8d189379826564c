/** What the endpoints and jobs of the upload service answer and leave, in terms a caller can check:
    bytes, seconds, statuses and rows. */
module UploadOutcomes {
  import opened Basics
  import opened UploadTables
  import opened UploadProtocol
  import opened UploadProofs
  import opened UploadServer
  import opened UploadExposure
  import opened Reassembly

  // ---------------------------------------------------------------- opening a session

  /** A receipt nobody has uploaded is opened exactly within the limits, with the next id, and the new
      row is the only change. */
  lemma OpenedExactly(t: Tables, device: Device, request: Request, paused: bool, vendorKnown: bool)
    requires request.receipt !in t.sessionOf && request.receipt !in t.receipts
    ensures var answer := CreateAnswerFor(t, device, request, paused, vendorKnown);
            var row := Session(request.receipt, device, request.total, request.digest, OPEN, t.now, t.now, None);
            && (answer.Opened? <==>
                  && 1 <= request.total <= 5_000_000 && !paused && vendorKnown
                  && device.site in t.sites && t.sites[device.site].active && t.sites[device.site].org == device.org
                  && device.org in t.orgs && t.orgs[device.org].active
                  && request.total <= t.sites[device.site].imageLimit
                  && 10 * (t.orgs[device.org].stored + request.total) <= 9 * t.orgs[device.org].storageLimit)
            && !answer.Received?
            && (answer == CreateRefused(InvalidRequest) <==> !(1 <= request.total <= 5_000_000))
            && (answer == CreateRefused(LocalStorageLimitReached) ==> paused)
            && (answer == CreateRefused(InvalidVendor) ==> !vendorKnown)
            && (answer == CreateRefused(ImageTooLarge) ==>
                  device.site in t.sites && request.total > t.sites[device.site].imageLimit)
            && (answer == CreateRefused(TenantStoragePaused) ==>
                  && device.org in t.orgs
                  && 10 * (t.orgs[device.org].stored + request.total) > 9 * t.orgs[device.org].storageLimit)
            && (answer.Opened? ==>
                  && answer.upload == t.nextUpload
                  && Create(t, device, request, paused, vendorKnown) ==
                     t.(nextUpload := t.nextUpload + 1, sessions := t.sessions[t.nextUpload := row],
                        sessionOf := t.sessionOf[request.receipt := t.nextUpload]))
  {
  }

  /** A receipt that is known: the device is told of its own receipt or session if the digest is the
      same, and of the conflict if not; no device is told of another's. Nothing changes. */
  lemma KnownReceipt(t: Tables, device: Device, request: Request, vendorKnown: bool)
    requires 1 <= request.total <= 5_000_000 && request.receipt in t.sessionOf
    requires IndexInv(t.sessions, t.sessionOf, t.nextUpload, t.now)
    ensures var r := request.receipt;
            var u := t.sessionOf[r];
            var answer := CreateAnswerFor(t, device, request, false, vendorKnown);
            && Create(t, device, request, false, vendorKnown) == t
            && (answer == Received(r) <==>
                  r in t.receipts && t.receipts[r].owner == device && t.receipts[r].digest == request.digest)
            && (answer == CreateRefused(ReceiptChecksumConflict) <==>
                  r in t.receipts && t.receipts[r].owner == device && t.receipts[r].digest != request.digest)
            && (answer.Opened? <==>
                  && !(r in t.receipts && t.receipts[r].owner == device)
                  && t.sessions[u].owner == device && t.sessions[u].digest == request.digest)
            && (answer.Opened? ==> answer == Opened(u))
            && (answer == CreateRefused(UploadChecksumConflict) <==>
                  && !(r in t.receipts && t.receipts[r].owner == device)
                  && t.sessions[u].owner == device && t.sessions[u].digest != request.digest)
  {
  }

  // ---------------------------------------------------------------- sending a part

  /** The session is the device's, open and within its 24 hours. */
  predicate Accepting(t: Tables, device: Device, u: UploadId) {
    && u in t.sessions && t.sessions[u].owner == device && t.sessions[u].status == OPEN
    && t.now < t.sessions[u].created + 86_400
  }

  /** The part endpoint stores a part exactly if the session is the device's, open and within its
      day, the number lies in the image, the length is that of the slice, the digest is right and
      there is no row yet; its object and its row are then the only change. */
  lemma PartAcceptedExactly(t: Tables, sha: Hash, device: Device, u: UploadId, n: int, body: Bytes, declared: Digest)
    ensures var answer := CheckPart(t, sha, device, u, n, body, declared);
            var t' := PartPut(t, sha, device, u, n, body, declared);
            && (answer == Proceed <==>
                  && Accepting(t, device, u)
                  && 0 <= n && n * 256_000 < t.sessions[u].total
                  && |body| == Min(256_000, t.sessions[u].total - n * 256_000)
                  && declared == sha(body) && (u, n) !in t.parts)
            && (answer == PartRefused(UploadNotOpen) <==> !Accepting(t, device, u))
            && (answer == PartRefused(PartOutOfRange) <==>
                  Accepting(t, device, u) && !(0 <= n && n * 256_000 < t.sessions[u].total))
            && (answer == PartRefused(PartLengthMismatch) <==>
                  && Accepting(t, device, u) && 0 <= n && n * 256_000 < t.sessions[u].total
                  && |body| != Min(256_000, t.sessions[u].total - n * 256_000))
            && (answer == PartRefused(PartChecksumMismatch) ==> declared != sha(body))
            && (answer == PartRefused(PartConflict) ==> (u, n) in t.parts)
            && (answer == Proceed ==>
                  t' == t.(store := t.store[PartKey(u, n) := Object(body, t.now)],
                           parts := t.parts[(u, n) := Part(n * 256_000, |body|, sha(body), PartKey(u, n))]))
            && (answer != Proceed ==> t' == t)
  {
  }

  // ---------------------------------------------------------------- joining the parts

  /** The part rows of a session lie where their numbers say, as in every reachable state. */
  ghost predicate InPlace(t: Tables, u: UploadId)
    requires u in t.sessions
  {
    forall n :: (u, n) in t.parts ==>
      && n * 256_000 < t.sessions[u].total
      && t.parts[(u, n)].offset == n * 256_000
      && t.parts[(u, n)].length == Min(256_000, t.sessions[u].total - n * 256_000)
      && t.parts[(u, n)].key == PartKey(u, n)
  }

  lemma ReachableInPlace(sha: Hash, s: State, u: UploadId)
    requires Inv(sha, s) && u in s.t.sessions
    ensures InPlace(s.t, u)
  {
    hide ProcInv, Exclusive, IndexInv, ReceiptInv, AgeInv, StorageInv, ChargeInv, OncePer, OrgInv, OpeningInv;
  }

  /** Part `n` has its row, and the store answers with an object of its length. */
  predicate PartThere(t: Tables, u: UploadId, answers: Key -> bool, n: nat)
    requires u in t.sessions
  {
    && (u, n) in t.parts && answers(PartKey(u, n)) && PartKey(u, n) in t.store
    && |t.store[PartKey(u, n)].body| == Min(256_000, t.sessions[u].total - n * 256_000)
  }

  ghost predicate ThereUpTo(t: Tables, u: UploadId, answers: Key -> bool, k: nat)
    requires u in t.sessions
  {
    forall n: nat :: n < k ==> PartThere(t, u, answers, n)
  }

  /** The first part that is not there. */
  ghost predicate FirstMissing(t: Tables, u: UploadId, answers: Key -> bool, k: nat)
    requires u in t.sessions
  {
    k * 256_000 < t.sessions[u].total && ThereUpTo(t, u, answers, k) && !PartThere(t, u, answers, k)
  }

  ghost predicate AllThere(t: Tables, u: UploadId, answers: Key -> bool)
    requires u in t.sessions
  {
    forall n: nat :: n * 256_000 < t.sessions[u].total ==> PartThere(t, u, answers, n)
  }

  /** What the store has under the names of parts 0 to k - 1, one after another. */
  ghost function StoredBytes(store: Store, u: UploadId, k: nat): Bytes {
    if k == 0 then []
    else StoredBytes(store, u, k - 1) + if PartKey(u, k - 1) in store then store[PartKey(u, k - 1)].body else []
  }

  lemma {:induction false} StoredLength(t: Tables, u: UploadId, answers: Key -> bool, k: nat)
    requires u in t.sessions && ThereUpTo(t, u, answers, k) && (k == 0 || (k - 1) * 256_000 < t.sessions[u].total)
    ensures |StoredBytes(t.store, u, k)| == Min(k * 256_000, t.sessions[u].total)
  {
    if k > 0 {
      StoredLength(t, u, answers, k - 1);
      assert PartThere(t, u, answers, k - 1);
    }
  }

  /** With the first k parts there, the rows of a session begin with theirs. */
  lemma {:induction false} RowsBegin(t: Tables, u: UploadId, answers: Key -> bool, j: nat, k: nat, count: nat)
    requires u in t.sessions && ThereUpTo(t, u, answers, k) && j <= k <= count
    ensures var rows := PartRows(t, u, j, count);
            && |rows| >= k - j && rows[k - j..] == PartRows(t, u, k, count)
            && forall n: nat :: j <= n < k ==> (u, n) in t.parts && rows[n - j] == t.parts[(u, n)]
    decreases k - j
  {
    if j < k {
      RowsBegin(t, u, answers, j + 1, k, count);
      assert PartThere(t, u, answers, j);
      var rows := PartRows(t, u, j, count);
      var rest := PartRows(t, u, j + 1, count);
      assert rows == [t.parts[(u, j)]] + rest;
      assert rows[k - j..] == rest[k - (j + 1)..];
      forall n: nat | j <= n < k ensures (u, n) in t.parts && rows[n - j] == t.parts[(u, n)] {
        assert PartThere(t, u, answers, n);
        if n > j { assert rows[n - j] == rest[n - (j + 1)]; }
      }
    }
  }

  /** Every row from number k on lies at k * 256,000 or beyond. */
  lemma {:induction false} LaterRows(t: Tables, u: UploadId, k: nat, count: nat)
    requires u in t.sessions && InPlace(t, u) && k <= count
    ensures forall row :: row in PartRows(t, u, k, count) ==> row.offset >= k * 256_000
    decreases count - k
  {
    if k < count {
      LaterRows(t, u, k + 1, count);
      forall row | row in PartRows(t, u, k, count) ensures row.offset >= k * 256_000 {
        if row !in PartRows(t, u, k + 1, count) { assert (u, k) in t.parts && row == t.parts[(u, k)]; }
      }
    }
  }

  /** The part loop after k parts that are there. */
  lemma {:induction false} LoopAt(t: Tables, u: UploadId, answers: Key -> bool, k: nat)
    requires u in t.sessions && InPlace(t, u) && ThereUpTo(t, u, answers, k) && k <= PartCount(t.sessions[u].total)
    ensures k <= |RowsOf(t, u)|
    ensures Assemble(t.store, RowsOf(t, u), answers, 0, []) ==
            Assemble(t.store, RowsOf(t, u), answers, k, StoredBytes(t.store, u, k))
  {
    RowsBegin(t, u, answers, 0, k, PartCount(t.sessions[u].total));
    if k > 0 {
      LoopAt(t, u, answers, k - 1);
      assert PartThere(t, u, answers, k - 1);
      StoredLength(t, u, answers, k - 1);
      assert RowsOf(t, u)[k - 1] == t.parts[(u, k - 1)];
    }
  }

  /** The error for the first part that is not there. */
  function PartError(t: Tables, u: UploadId, answers: Key -> bool, k: nat): Error {
    if (u, k) !in t.parts then UploadIncomplete
    else if !answers(PartKey(u, k)) || PartKey(u, k) !in t.store then ObjectStoreFailed
    else UploadPartMissing
  }

  lemma RowStops(t: Tables, u: UploadId, answers: Key -> bool, rows: seq<Part>, k: nat, body: Bytes)
    requires u in t.sessions && InPlace(t, u) && k * 256_000 < t.sessions[u].total && !PartThere(t, u, answers, k)
    requires (u, k) in t.parts && k < |rows| && rows[k] == t.parts[(u, k)] && |body| == k * 256_000
    ensures Assemble(t.store, rows, answers, k, body) == Broken(PartError(t, u, answers, k))
  {
  }

  lemma GapStops(store: Store, answers: Key -> bool, rows: seq<Part>, k: nat, body: Bytes)
    requires k <= |rows| && |body| == k * 256_000 && forall row :: row in rows[k..] ==> row.offset >= (k + 1) * 256_000
    ensures var assembly := Assemble(store, rows, answers, k, body);
            assembly == Broken(UploadIncomplete) || assembly == Whole(body)
  {
    if k < |rows| { assert rows[k] == rows[k..][0]; }
  }

  /** Whatever rows there are, the loop fails at the first part that is not there, or ends too short. */
  lemma LoopStops(t: Tables, u: UploadId, answers: Key -> bool, k: nat)
    requires u in t.sessions && InPlace(t, u) && FirstMissing(t, u, answers, k)
    ensures var assembly := Assemble(t.store, RowsOf(t, u), answers, 0, []);
            || assembly == Broken(PartError(t, u, answers, k))
            || ((u, k) !in t.parts && assembly.Whole? && |assembly.body| < t.sessions[u].total)
  {
    hide Assemble, InPlace, PartThere, StoredBytes;
    var count := PartCount(t.sessions[u].total);
    var rows := RowsOf(t, u);
    LoopAt(t, u, answers, k);
    RowsBegin(t, u, answers, 0, k, count);
    StoredLength(t, u, answers, k);
    if (u, k) in t.parts {
      assert rows[k..][0] == t.parts[(u, k)];
      RowStops(t, u, answers, rows, k, StoredBytes(t.store, u, k));
    } else {
      LaterRows(t, u, k + 1, count);
      GapStops(t.store, answers, rows, k, StoredBytes(t.store, u, k));
    }
  }

  /** With every part there the loop ends with exactly the stored bytes, as many as were announced. */
  lemma LoopEnds(t: Tables, u: UploadId, answers: Key -> bool)
    requires u in t.sessions && InPlace(t, u) && AllThere(t, u, answers) && t.sessions[u].total > 0
    ensures var count := PartCount(t.sessions[u].total);
            && Assemble(t.store, RowsOf(t, u), answers, 0, []) == Whole(StoredBytes(t.store, u, count))
            && |StoredBytes(t.store, u, count)| == t.sessions[u].total
            && |RowsOf(t, u)| == count && forall n: nat :: n < count ==> RowsOf(t, u)[n].key == PartKey(u, n)
  {
    var count := PartCount(t.sessions[u].total);
    forall n: nat | n < count ensures PartThere(t, u, answers, n) {
      assert n * 256_000 < t.sessions[u].total;
    }
    LoopAt(t, u, answers, count);
    RowsBegin(t, u, answers, 0, count, count);
    assert RowsOf(t, u)[count..] == [];
    StoredLength(t, u, answers, count);
  }

  // ---------------------------------------------------------------- completing a session

  /** RIFF….WEBP */
  predicate WebpHeader(body: Bytes) {
    && |body| >= 12 && body[0] == 0x52 && body[1] == 0x49 && body[2] == 0x46 && body[3] == 0x46
    && body[8] == 0x57 && body[9] == 0x45 && body[10] == 0x42 && body[11] == 0x50
  }

  lemma HeaderIsWebp(body: Bytes)
    ensures WebpHeader(body) <==> IsWebp(body)
  {
    if |body| >= 12 {
      assert body[..4] == [body[0], body[1], body[2], body[3]];
      assert body[8..12] == [body[8], body[9], body[10], body[11]];
    }
  }

  function WithRow(t: Tables, u: UploadId, row: Session): Tables { t.(sessions := t.sessions[u := row]) }

  /** The part loop fails: the session is open again, nothing else has changed. */
  lemma BrokenReopens(sha: Hash, t: Tables, device: Device, u: UploadId, day: DayVerdict, fault: Fault,
      answers: Key -> bool, removals: Key -> Removal, k: nat)
    requires u in t.sessions && t.sessions[u].owner == device && t.sessions[u].status == OPEN && InPlace(t, u)
    requires FirstMissing(t, u, answers, k)
    ensures Completed(sha, t, device, u, day, fault, answers, removals) ==
            (WithRow(t, u, t.sessions[u].(updated := t.now)), CompleteRefused(PartError(t, u, answers, k)))
  {
    hide IsWebp, Assemble, RowsOf, StoredAndFinished, FirstMissing, InPlace;
    LoopStops(t, u, answers, k);
    var x := t.sessions[u];
    var t' := Claim(t, device, u);
    assert t'.sessions[u := x.(updated := t.now)] == t.sessions[u := x.(updated := t.now)];
  }

  /** The body is not the image that was announced: the session has failed, nothing else has changed. */
  lemma WrongBodyFails(sha: Hash, t: Tables, device: Device, u: UploadId, day: DayVerdict, fault: Fault,
      answers: Key -> bool, removals: Key -> Removal)
    requires u in t.sessions && t.sessions[u].owner == device && t.sessions[u].status == OPEN && InPlace(t, u)
    requires AllThere(t, u, answers) && t.sessions[u].total > 0
    requires var body := StoredBytes(t.store, u, PartCount(t.sessions[u].total));
             !WebpHeader(body) || sha(body) != t.sessions[u].digest
    ensures var body := StoredBytes(t.store, u, PartCount(t.sessions[u].total));
            Completed(sha, t, device, u, day, fault, answers, removals) ==
            (WithRow(t, u, t.sessions[u].(status := FAILED, updated := t.now)),
             CompleteRefused(if !WebpHeader(body) then InvalidImage else ChecksumMismatch))
  {
    hide IsWebp, WebpHeader, Assemble, RowsOf, StoredAndFinished, AllThere, InPlace;
    LoopEnds(t, u, answers);
    var x := t.sessions[u];
    HeaderIsWebp(StoredBytes(t.store, u, PartCount(x.total)));
    var failed := x.(status := FAILED, updated := t.now);
    assert t.sessions[u := x.(status := COMPLETING, updated := t.now)][u := failed] == t.sessions[u := failed];
  }

  /** Why a commit of `bytes` bytes for the device is refused, if it is. */
  function LimitError(t: Tables, device: Device, bytes: nat, day: DayVerdict): Option<Error> {
    if !(device.site in t.sites && t.sites[device.site].active && t.sites[device.site].org == device.org
         && device.org in t.orgs && t.orgs[device.org].active) then Some(SiteInactive)
    else if day != Within then Some(if day == SiteFull then DailyLimit else TenantDailyLimit)
    else if 10 * (t.orgs[device.org].stored + bytes) > 9 * t.orgs[device.org].storageLimit then Some(TenantStorageLimit)
    else None
  }

  predicate RowsNamed(u: UploadId, rows: seq<Part>) { forall n: nat :: n < |rows| ==> rows[n].key == PartKey(u, n) }

  /** What becomes of session `u` once the body that was announced has arrived. It keeps the name of
      the image it is to have, and
      - the store does not take the image: it stays COMPLETING, nothing else has changed;
      - the transaction fails or a limit is exceeded: it is OPEN again and the image is taken back, if
        the store does so;
      - the transaction commits: it is COMPLETE with receipt, bytes, audit event and outbox row. */
  ghost predicate Outcome(t: Tables, u: UploadId, body: Bytes, day: DayVerdict, fault: Fault, answers: Key -> bool,
      removals: Key -> Removal, t': Tables, answer: CompleteAnswer)
    requires u in t.sessions
  {
    var x := t.sessions[u];
    var o := x.owner.org;
    var key := ImageKey(x.receipt, t.now / 86_400);
    var named := x.(image := Some(key), updated := t.now);
    var refusal := LimitError(t, x.owner, x.total, day);
    var written := t.store[key := Object(body, t.now)];
    var kept := if removals(key) == Untouched then written else t.store - {key};
    var count := PartCount(x.total);
    if !answers(key) then
      t' == WithRow(t, u, named.(status := COMPLETING)) && answer == CompleteRefused(ObjectStoreFailed)
    else if fault == Aborted || refusal.Some? then
      && t' == WithRow(t, u, named).(store := kept)
      && answer == CompleteRefused(if fault == Aborted then DatabaseFailed else refusal.value)
    else
      && o in t.orgs
      && t' == WithRow(t, u, named.(status := COMPLETE)).(
                 store := t'.store, parts := t'.parts,
                 orgs := t.orgs[o := t.orgs[o].(stored := t.orgs[o].stored + x.total)],
                 receipts := t.receipts[x.receipt := Receipt(x.owner, key, x.total, x.digest, t.now, false)],
                 audited := t.audited + multiset{x.receipt}, queued := t.queued + multiset{x.receipt})
      && if fault == ReplyLost then
           t'.store == kept && t'.parts == t.parts && answer == CompleteRefused(DatabaseFailed)
         else
           && answer == Accepted(x.receipt, false)
           && t'.store == written - Going(u, 0, count, removals)
           && t'.parts == if Clean(u, 0, count, removals)
                          then map k | k in t.parts && k.0 != u :: t.parts[k] else t.parts
  }

  /** The part objects from number `i` on that a sweep deletes, and whether it deletes all of them cleanly. */
  ghost function Going(u: UploadId, i: nat, count: nat, removals: Key -> Removal): set<Key> {
    set n: nat | i <= n < count && removals(PartKey(u, n)) != Untouched :: PartKey(u, n)
  }

  ghost predicate Clean(u: UploadId, i: nat, count: nat, removals: Key -> Removal) {
    forall n: nat :: i <= n < count ==> removals(PartKey(u, n)) == Removed
  }

  lemma GoingMore(u: UploadId, i: nat, count: nat, removals: Key -> Removal)
    requires i < count
    ensures var key := PartKey(u, i);
            && Going(u, i, count, removals) ==
               Going(u, i + 1, count, removals) + (if removals(key) == Untouched then {} else {key})
            && (Clean(u, i, count, removals) <==> removals(key) == Removed && Clean(u, i + 1, count, removals))
  {
  }

  lemma {:induction false} SweptExactly(t: Tables, u: UploadId, rows: seq<Part>, i: nat, clean: bool,
      removals: Key -> Removal)
    requires i <= |rows| && RowsNamed(u, rows)
    ensures Swept(t, u, rows, i, clean, removals) ==
            t.(store := t.store - Going(u, i, |rows|, removals),
               parts := if clean && Clean(u, i, |rows|, removals)
                        then map k | k in t.parts && k.0 != u :: t.parts[k] else t.parts)
    decreases |rows| - i
  {
    if i == |rows| {
      assert t.store - Going(u, i, |rows|, removals) == t.store;
    } else {
      GoingMore(u, i, |rows|, removals);
      hide Going, Clean;
      var key := rows[i].key;
      var t' := AfterRemoval(t, key, removals(key));
      SweptExactly(t', u, rows, i + 1, clean && removals(key) == Removed, removals);
      assert t.store - Going(u, i, |rows|, removals) == t'.store - Going(u, i + 1, |rows|, removals);
    }
  }

  lemma LimitIsCommit(t: Tables, t3: Tables, u: UploadId, device: Device, bytes: nat, day: DayVerdict)
    requires u in t3.sessions && t3.sessions[u].status == COMPLETING && t3.sessions[u].owner == device
    requires t3.orgs == t.orgs && t3.sites == t.sites
    ensures CommitError(t3, u, bytes, day) == LimitError(t, device, bytes, day)
    ensures LimitError(t, device, bytes, day).None? ==> device.org in t.orgs
  {
  }

  lemma NotStored(t: Tables, t1: Tables, u: UploadId, rows: seq<Part>, body: Bytes, day: DayVerdict, fault: Fault,
      answers: Key -> bool, removals: Key -> Removal)
    requires u in t.sessions && t.sessions[u].status == OPEN
    requires t1 == WithRow(t, u, t.sessions[u].(status := COMPLETING, updated := t.now))
    requires !answers(ImageKey(t.sessions[u].receipt, t.now / 86_400))
    ensures var (t', answer) := StoredAndFinished(t1, t.sessions[u], u, rows, body, day, fault, answers, removals);
            Outcome(t, u, body, day, fault, answers, removals, t', answer)
  {
    hide LimitError;
    var x := t.sessions[u];
    var key := ImageKey(x.receipt, t.now / 86_400);
    var named := x.(image := Some(key), updated := t.now);
    assert t1.sessions[u := named.(status := COMPLETING)] == t.sessions[u := named.(status := COMPLETING)];
  }

  /** The tables when the committing transaction begins. */
  function Written(t: Tables, u: UploadId, body: Bytes): Tables
    requires u in t.sessions
  {
    var x := t.sessions[u];
    var key := ImageKey(x.receipt, t.now / 86_400);
    WithRow(t, u, x.(status := COMPLETING, image := Some(key), updated := t.now)).(
      store := t.store[key := Object(body, t.now)])
  }

  lemma WrittenTables(t: Tables, t1: Tables, u: UploadId, body: Bytes)
    requires u in t.sessions && t1 == WithRow(t, u, t.sessions[u].(status := COMPLETING, updated := t.now))
    ensures var key := ImageKey(t.sessions[u].receipt, t.now / 86_400);
            PutObject(RecordImageKey(t1, u, key), key, body) == Written(t, u, body)
  {
    var key := ImageKey(t.sessions[u].receipt, t.now / 86_400);
    var row := t.sessions[u].(status := COMPLETING, image := Some(key), updated := t.now);
    assert t1.sessions[u := row] == t.sessions[u := row];
  }

  lemma TakenBack(t: Tables, u: UploadId, body: Bytes, removals: Key -> Removal)
    requires u in t.sessions && t.sessions[u].status == OPEN
    ensures var x := t.sessions[u];
            var key := ImageKey(x.receipt, t.now / 86_400);
            var written := t.store[key := Object(body, t.now)];
            Compensated(Written(t, u, body), u, key, removals) ==
            WithRow(t, u, x.(image := Some(key), updated := t.now)).(
              store := if removals(key) == Untouched then written else t.store - {key})
  {
    var x := t.sessions[u];
    var key := ImageKey(x.receipt, t.now / 86_400);
    var row := x.(image := Some(key), updated := t.now);
    assert Written(t, u, body).sessions[u := row] == t.sessions[u := row];
    assert t.store[key := Object(body, t.now)] - {key} == t.store - {key};
  }

  /** The tables after the commit. */
  function BookedTables(t: Tables, u: UploadId, body: Bytes): Tables
    requires u in t.sessions && t.sessions[u].owner.org in t.orgs
  {
    var x := t.sessions[u];
    var o := x.owner.org;
    var key := ImageKey(x.receipt, t.now / 86_400);
    WithRow(t, u, x.(status := COMPLETE, image := Some(key), updated := t.now)).(
      store := t.store[key := Object(body, t.now)],
      orgs := t.orgs[o := t.orgs[o].(stored := t.orgs[o].stored + x.total)],
      receipts := t.receipts[x.receipt := Receipt(x.owner, key, x.total, x.digest, t.now, false)],
      audited := t.audited + multiset{x.receipt}, queued := t.queued + multiset{x.receipt})
  }

  lemma CommitGives(t: Tables, u: UploadId, body: Bytes, day: DayVerdict)
    requires u in t.sessions && |body| == t.sessions[u].total
    requires LimitError(t, t.sessions[u].owner, |body|, day).None?
    ensures t.sessions[u].owner.org in t.orgs
    ensures CommitError(Written(t, u, body), u, |body|, day).None?
    ensures Commit(Written(t, u, body), u, body, ImageKey(t.sessions[u].receipt, t.now / 86_400), t.sessions[u].digest,
              day) == BookedTables(t, u, body)
  {
    LimitIsCommit(t, Written(t, u, body), u, t.sessions[u].owner, |body|, day);
    hide CommitError, LimitError;
    var key := ImageKey(t.sessions[u].receipt, t.now / 86_400);
    var row := t.sessions[u].(status := COMPLETE, image := Some(key), updated := t.now);
    assert Written(t, u, body).sessions[u := row] == t.sessions[u := row];
  }

  /** The transaction committed. */
  lemma CommittedEnds(t: Tables, u: UploadId, rows: seq<Part>, body: Bytes, day: DayVerdict, fault: Fault,
      answers: Key -> bool, removals: Key -> Removal)
    requires u in t.sessions && t.sessions[u].status == OPEN && |body| == t.sessions[u].total
    requires RowsNamed(u, rows) && |rows| == PartCount(t.sessions[u].total)
    requires var x := t.sessions[u];
             && answers(ImageKey(x.receipt, t.now / 86_400)) && fault != Aborted
             && LimitError(t, x.owner, x.total, day).None?
    ensures var x := t.sessions[u];
            var (t', answer) := Finished(Written(t, u, body), x, u, rows, body, ImageKey(x.receipt, t.now / 86_400),
                                         day, fault, removals);
            Outcome(t, u, body, day, fault, answers, removals, t', answer)
  {
    hide CommitError, LimitError, Commit, Compensated, Swept, Written, Going, Clean;
    var x := t.sessions[u];
    var key := ImageKey(x.receipt, t.now / 86_400);
    CommitGives(t, u, body, day);
    if fault == ReplyLost {
      CompleteStays(BookedTables(t, u, body), u, key, removals);
    } else {
      SweptExactly(BookedTables(t, u, body), u, rows, 0, true, removals);
    }
  }

  /** It did not. */
  lemma RefusedEnds(t: Tables, u: UploadId, rows: seq<Part>, body: Bytes, day: DayVerdict, fault: Fault,
      answers: Key -> bool, removals: Key -> Removal)
    requires u in t.sessions && t.sessions[u].status == OPEN && |body| == t.sessions[u].total
    requires var x := t.sessions[u];
             && answers(ImageKey(x.receipt, t.now / 86_400))
             && (fault == Aborted || LimitError(t, x.owner, x.total, day).Some?)
    ensures var x := t.sessions[u];
            var (t', answer) := Finished(Written(t, u, body), x, u, rows, body, ImageKey(x.receipt, t.now / 86_400),
                                         day, fault, removals);
            Outcome(t, u, body, day, fault, answers, removals, t', answer)
  {
    LimitIsCommit(t, Written(t, u, body), u, t.sessions[u].owner, t.sessions[u].total, day);
    hide CommitError, LimitError, Commit, Compensated, Swept, Written, Going, Clean;
    TakenBack(t, u, body, removals);
  }

  /** From the right body on. */
  lemma StoringEnds(t: Tables, t1: Tables, u: UploadId, rows: seq<Part>, body: Bytes, day: DayVerdict, fault: Fault,
      answers: Key -> bool, removals: Key -> Removal)
    requires u in t.sessions && t.sessions[u].status == OPEN
    requires t1 == WithRow(t, u, t.sessions[u].(status := COMPLETING, updated := t.now))
    requires |body| == t.sessions[u].total && RowsNamed(u, rows) && |rows| == PartCount(t.sessions[u].total)
    ensures var (t', answer) := StoredAndFinished(t1, t.sessions[u], u, rows, body, day, fault, answers, removals);
            Outcome(t, u, body, day, fault, answers, removals, t', answer)
  {
    hide PutObject, RecordImageKey, Finished, Outcome, LimitError;
    var x := t.sessions[u];
    if !answers(ImageKey(x.receipt, t.now / 86_400)) {
      NotStored(t, t1, u, rows, body, day, fault, answers, removals);
    } else {
      WrittenTables(t, t1, u, body);
      if fault == Aborted || LimitError(t, x.owner, x.total, day).Some? {
        RefusedEnds(t, u, rows, body, day, fault, answers, removals);
      } else {
        CommittedEnds(t, u, rows, body, day, fault, answers, removals);
      }
    }
  }

  /** The compensation finds the session complete and deletes the image all the same. */
  lemma CompleteStays(t: Tables, u: UploadId, key: Key, removals: Key -> Removal)
    requires u in t.sessions && t.sessions[u].status == COMPLETE
    ensures Compensated(t, u, key, removals) ==
            t.(store := if removals(key) == Untouched then t.store else t.store - {key})
  {
  }

  /** The right body has arrived. */
  lemma RightBodyEnds(sha: Hash, t: Tables, device: Device, u: UploadId, day: DayVerdict, fault: Fault,
      answers: Key -> bool, removals: Key -> Removal)
    requires u in t.sessions && t.sessions[u].owner == device && t.sessions[u].status == OPEN && InPlace(t, u)
    requires AllThere(t, u, answers) && t.sessions[u].total > 0
    requires var body := StoredBytes(t.store, u, PartCount(t.sessions[u].total));
             WebpHeader(body) && sha(body) == t.sessions[u].digest
    ensures var body := StoredBytes(t.store, u, PartCount(t.sessions[u].total));
            var (t', answer) := Completed(sha, t, device, u, day, fault, answers, removals);
            Outcome(t, u, body, day, fault, answers, removals, t', answer)
  {
    hide IsWebp, WebpHeader, Assemble, RowsOf, StoredAndFinished, AllThere, InPlace, Outcome;
    LoopEnds(t, u, answers);
    var x := t.sessions[u];
    var body := StoredBytes(t.store, u, PartCount(x.total));
    HeaderIsWebp(body);
    assert Claim(t, device, u) == WithRow(t, u, x.(status := COMPLETING, updated := t.now));
    StoringEnds(t, Claim(t, device, u), u, RowsOf(t, u), body, day, fault, answers, removals);
  }

  // ---------------------------------------------------------------- every completion

  /** How a completion ends, whatever it finds. Of an open session of the device:
      - if parts are missing, the first of them says why, the session is open again and nothing has changed;
      - if all are there but the body is no WebP or has another digest, the session has failed;
      - otherwise see `Outcome`.
      A complete session of the device is confirmed; anything else is refused; neither changes anything. */
  lemma CompletionEnds(sha: Hash, t: Tables, device: Device, u: UploadId, day: DayVerdict, fault: Fault,
      answers: Key -> bool, removals: Key -> Removal)
    requires u in t.sessions ==> InPlace(t, u) && t.sessions[u].total > 0
    ensures var (t', answer) := Completed(sha, t, device, u, day, fault, answers, removals);
            if u in t.sessions && t.sessions[u].owner == device && t.sessions[u].status == OPEN then
              var x := t.sessions[u];
              var body := StoredBytes(t.store, u, PartCount(x.total));
              && (forall k | FirstMissing(t, u, answers, k) ::
                    && t' == WithRow(t, u, x.(updated := t.now))
                    && answer == CompleteRefused(PartError(t, u, answers, k)))
              && (AllThere(t, u, answers) ==>
                    if !WebpHeader(body) || sha(body) != x.digest then
                      && t' == WithRow(t, u, x.(status := FAILED, updated := t.now))
                      && answer == CompleteRefused(if !WebpHeader(body) then InvalidImage else ChecksumMismatch)
                    else Outcome(t, u, body, day, fault, answers, removals, t', answer))
            else
              && t' == t
              && answer == if u in t.sessions && t.sessions[u].owner.id == device.id && t.sessions[u].status == COMPLETE
                           then Accepted(t.sessions[u].receipt, true) else CompleteRefused(UploadNotOpen)
  {
    hide Completed, InPlace, WebpHeader, Outcome, PartError, StoredBytes, FirstMissing, AllThere;
    if u in t.sessions && t.sessions[u].owner == device && t.sessions[u].status == OPEN {
      forall k | FirstMissing(t, u, answers, k)
        ensures Completed(sha, t, device, u, day, fault, answers, removals) ==
                (WithRow(t, u, t.sessions[u].(updated := t.now)), CompleteRefused(PartError(t, u, answers, k)))
      {
        BrokenReopens(sha, t, device, u, day, fault, answers, removals, k);
      }
      if AllThere(t, u, answers) {
        var body := StoredBytes(t.store, u, PartCount(t.sessions[u].total));
        if !WebpHeader(body) || sha(body) != t.sessions[u].digest {
          WrongBodyFails(sha, t, device, u, day, fault, answers, removals);
        } else {
          RightBodyEnds(sha, t, device, u, day, fault, answers, removals);
        }
      }
    } else {
      NotClaimed(sha, t, device, u, day, fault, answers, removals);
    }
  }

  lemma NotClaimed(sha: Hash, t: Tables, device: Device, u: UploadId, day: DayVerdict, fault: Fault,
      answers: Key -> bool, removals: Key -> Removal)
    requires !(u in t.sessions && t.sessions[u].owner == device && t.sessions[u].status == OPEN)
    ensures Completed(sha, t, device, u, day, fault, answers, removals) ==
            (t, if u in t.sessions && t.sessions[u].owner.id == device.id && t.sessions[u].status == COMPLETE
                then Accepted(t.sessions[u].receipt, true) else CompleteRefused(UploadNotOpen))
  {
  }

  /** There is a first missing part, or none is missing. */
  lemma SomeFirst(t: Tables, u: UploadId, answers: Key -> bool, m: nat)
    requires u in t.sessions && m * 256_000 < t.sessions[u].total && !PartThere(t, u, answers, m)
    ensures exists k :: FirstMissing(t, u, answers, k)
    decreases m
  {
    hide PartThere;
    if n: nat :| n < m && !PartThere(t, u, answers, n) {
      SomeFirst(t, u, answers, n);
    } else {
      assert FirstMissing(t, u, answers, m);
    }
  }

  /** Either every part is there or one of them is the first that is not. */
  lemma FirstMissingExactly(t: Tables, u: UploadId, answers: Key -> bool)
    requires u in t.sessions
    ensures AllThere(t, u, answers) <==> forall k: nat :: !FirstMissing(t, u, answers, k)
  {
    hide PartThere;
    if !AllThere(t, u, answers) {
      var m: nat :| m * 256_000 < t.sessions[u].total && !PartThere(t, u, answers, m);
      SomeFirst(t, u, answers, m);
    }
  }

  // ---------------------------------------------------------------- a whole upload

  /** Every object request is answered. */
  const ALL_ANSWER: Key -> bool := (key: Key) => true

  /** Each part is sent in its turn, at the time `times` gives for its number. */
  function SentAll(sha: Hash, t: Tables, device: Device, u: UploadId, sent: seq<Sent>, times: nat -> nat): Tables
    decreases |sent|
  {
    if sent == [] then t
    else
      var t' := t.(now := times(sent[0].number));
      var t'' := PartPut(t', sha, device, u, sent[0].number, sent[0].body, sha(sent[0].body));
      SentAll(sha, t'', device, u, sent[1..], times)
  }

  /** Session `u` as it was opened, with the first k slices of the image stored and no other part. */
  ghost predicate StoredSlices(sha: Hash, t0: Tables, t: Tables, u: UploadId, image: Bytes, k: nat) {
    && t == t0.(now := t.now, parts := t.parts, store := t.store)
    && (forall v, n :: (v, n) in t.parts <==> (v, n) in t0.parts || (v == u && 0 <= n < k))
    && (forall n: nat :: n < k ==>
          && n * PART_SIZE < |image|
          && t.parts[(u, n)] == Part(n * PART_SIZE, |Slice(image, n)|, sha(Slice(image, n)), PartKey(u, n))
          && PartKey(u, n) in t.store && t.store[PartKey(u, n)].body == Slice(image, n))
  }

  ghost predicate AwaitsImage(t: Tables, device: Device, u: UploadId, image: Bytes, times: nat -> nat) {
    && u in t.sessions && t.sessions[u].owner == device && t.sessions[u].status == OPEN
    && t.sessions[u].total == |image|
    && (forall n: nat :: (u, n) !in t.parts)
    && (forall n: nat :: times(n) < t.sessions[u].created + 86_400)
  }

  lemma SliceStored(sha: Hash, t0: Tables, t: Tables, device: Device, u: UploadId, image: Bytes, times: nat -> nat,
      k: nat)
    requires AwaitsImage(t0, device, u, image, times) && StoredSlices(sha, t0, t, u, image, k)
             && k * PART_SIZE < |image|
    ensures var t' := t.(now := times(k));
            var slice := Slice(image, k);
            && CheckPart(t', sha, device, u, k, slice, sha(slice)) == Proceed
            && StoredSlices(sha, t0, PartPut(t', sha, device, u, k, slice, sha(slice)), u, image, k + 1)
  {
    PartAcceptedExactly(t.(now := times(k)), sha, device, u, k, Slice(image, k), sha(Slice(image, k)));
    hide CheckPart, PartPut;
  }

  lemma {:induction false} SlicesStored(sha: Hash, t0: Tables, t: Tables, device: Device, u: UploadId, image: Bytes,
      times: nat -> nat, k: nat)
    requires AwaitsImage(t0, device, u, image, times) && StoredSlices(sha, t0, t, u, image, k)
             && k <= PartCount(|image|)
    ensures StoredSlices(sha, t0, SentAll(sha, t, device, u, Pending(sha, image, map[], k), times), u, image,
              PartCount(|image|))
    decreases |image| - k * PART_SIZE
  {
    hide AwaitsImage, StoredSlices, PartPut, CheckPart, Slice, Pending;
    PendingCons(sha, image, k);
    if k * PART_SIZE < |image| {
      SliceStored(sha, t0, t, device, u, image, times, k);
      var sent := Pending(sha, image, map[], k);
      assert sent[1..] == Pending(sha, image, map[], k + 1);
      var t' := PartPut(t.(now := times(k)), sha, device, u, k, Slice(image, k), sha(Slice(image, k)));
      SlicesStored(sha, t0, t', device, u, image, times, k + 1);
    }
  }

  lemma {:induction false} SlicesJoin(sha: Hash, t0: Tables, t: Tables, u: UploadId, image: Bytes, k: nat, count: nat)
    requires StoredSlices(sha, t0, t, u, image, count) && k <= count
    ensures StoredBytes(t.store, u, k) == Prefix(image, k)
  {
    if k > 0 {
      SlicesJoin(sha, t0, t, u, image, k - 1, count);
      PrefixGrows(image, k - 1);
    }
  }

  /** Once every slice is stored the parts are in place, all there, and join to the image. */
  lemma SlicesThere(sha: Hash, t0: Tables, t: Tables, device: Device, u: UploadId, image: Bytes, times: nat -> nat)
    requires AwaitsImage(t0, device, u, image, times) && StoredSlices(sha, t0, t, u, image, PartCount(|image|))
    ensures u in t.sessions && InPlace(t, u) && AllThere(t, u, ALL_ANSWER)
    ensures StoredBytes(t.store, u, PartCount(|image|)) == image
  {
    SlicesJoin(sha, t0, t, u, image, PartCount(|image|), PartCount(|image|));
    PrefixEnds(image, PartCount(|image|));
    forall n: nat | n * 256_000 < |image| ensures n < PartCount(|image|) {}
  }

  /** The receipt, its image under its name, and the session that brought it. */
  ghost predicate ImageAccepted(t: Tables, device: Device, r: ReceiptId, u: UploadId, image: Bytes, digest: Digest,
      at: nat) {
    var key := ImageKey(r, at / 86_400);
    && r in t.receipts && t.receipts[r] == Receipt(device, key, |image|, digest, at, false)
    && key in t.store && t.store[key].body == image
    && u in t.sessions && t.sessions[u].status == COMPLETE
  }

  ghost predicate NoPartLeft(t: Tables, u: UploadId, image: Bytes) {
    forall n: nat :: (u, n) !in t.parts && (n * 256_000 < |image| ==> PartKey(u, n) !in t.store)
  }

  lemma NewReceipt(sha: Hash, s: State, r: ReceiptId)
    requires Inv(sha, s) && r !in s.t.sessionOf
    ensures r !in s.t.receipts && forall n: nat :: (s.t.nextUpload, n) !in s.t.parts
  {
    hide ProcInv, Exclusive, AgeInv, StorageInv, ChargeInv, OncePer, OrgInv, OpeningInv;
  }

  lemma NothingSent(sha: Hash, t: Tables, u: UploadId, image: Bytes)
    ensures StoredSlices(sha, t, t, u, image, 0)
  {
  }

  lemma AnyTime(sha: Hash, t0: Tables, t: Tables, u: UploadId, image: Bytes, now: nat)
    requires StoredSlices(sha, t0, t, u, image, PartCount(|image|))
    ensures StoredSlices(sha, t0, t.(now := now), u, image, PartCount(|image|))
  {
  }

  lemma SlicesKeep(sha: Hash, t0: Tables, t: Tables, u: UploadId, image: Bytes)
    requires StoredSlices(sha, t0, t, u, image, PartCount(|image|))
    ensures t == t0.(now := t.now, parts := t.parts, store := t.store)
  {
  }

  /** Sending all slices of the image stores them all and changes nothing else. */
  lemma SentThere(sha: Hash, t: Tables, device: Device, u: UploadId, image: Bytes, times: nat -> nat, finish: nat)
    requires AwaitsImage(t, device, u, image, times)
    ensures var t' := SentAll(sha, t, device, u, Pending(sha, image, map[], 0), times).(now := finish);
            && t' == t.(now := finish, parts := t'.parts, store := t'.store)
            && u in t'.sessions && InPlace(t', u) && AllThere(t', u, ALL_ANSWER)
            && StoredBytes(t'.store, u, PartCount(|image|)) == image
  {
    hide InPlace, AllThere, StoredSlices, SentAll, AwaitsImage;
    var sent := SentAll(sha, t, device, u, Pending(sha, image, map[], 0), times);
    NothingSent(sha, t, u, image);
    SlicesStored(sha, t, t, device, u, image, times, 0);
    AnyTime(sha, t, sent, u, image, finish);
    SlicesKeep(sha, t, sent.(now := finish), u, image);
    SlicesThere(sha, t, sent.(now := finish), device, u, image, times);
  }

  lemma UploadEnds(sha: Hash, t: Tables, device: Device, u: UploadId, image: Bytes, removals: Key -> Removal)
    requires u in t.sessions
    requires var x := t.sessions[u];
             x.owner == device && x.status == OPEN && x.total == |image| && x.digest == sha(image)
    requires InPlace(t, u) && AllThere(t, u, ALL_ANSWER) && WebpHeader(image) && |image| > 0
    requires StoredBytes(t.store, u, PartCount(|image|)) == image
    requires LimitError(t, device, |image|, Within).None?
    ensures var r := t.sessions[u].receipt;
            var (t', answer) := Completed(sha, t, device, u, Within, NoFault, ALL_ANSWER, removals);
            && answer == Accepted(r, false)
            && ImageAccepted(t', device, r, u, image, sha(image), t.now)
            && ((forall k :: removals(k) == Removed) ==> NoPartLeft(t', u, image))
  {
    hide Completed, InPlace, AllThere, WebpHeader, LimitError;
    RightBodyEnds(sha, t, device, u, Within, NoFault, ALL_ANSWER, removals);
    forall n: nat | n * 256_000 < |image| ensures n < PartCount(|image|) {}
  }

  lemma SentOpen(t: Tables, t': Tables, device: Device, u: UploadId, image: Bytes, times: nat -> nat)
    requires AwaitsImage(t, device, u, image, times) && WithinLimits(t, device, |image|)
    requires t' == t.(now := t'.now, parts := t'.parts, store := t'.store)
    ensures var x := t'.sessions[u]; x.owner == device && x.status == OPEN && x.total == |image|
    ensures LimitError(t', device, |image|, Within).None?
  {
  }

  /** The device, its site and its organization are active and have room for an image of `bytes` bytes. */
  predicate WithinLimits(t: Tables, device: Device, bytes: nat) {
    && device.site in t.sites && t.sites[device.site].active && t.sites[device.site].org == device.org
    && bytes <= t.sites[device.site].imageLimit
    && device.org in t.orgs && t.orgs[device.org].active
    && 10 * (t.orgs[device.org].stored + bytes) <= 9 * t.orgs[device.org].storageLimit
  }

  lemma LimitsOpen(sha: Hash, s: State, device: Device, r: ReceiptId, image: Bytes, times: nat -> nat)
    requires Inv(sha, s) && r !in s.t.sessionOf && 1 <= |image| <= 5_000_000 && WithinLimits(s.t, device, |image|)
    requires forall n: nat :: times(n) < s.t.now + 86_400
    ensures var request := Request(r, |image|, sha(image));
            var begun := Create(s.t, device, request, false, true);
            && CreateAnswerFor(s.t, device, request, false, true) == Opened(s.t.nextUpload)
            && AwaitsImage(begun, device, s.t.nextUpload, image, times)
            && begun.sessions[s.t.nextUpload].receipt == r && begun.sessions[s.t.nextUpload].digest == sha(image)
            && begun.orgs == s.t.orgs && begun.sites == s.t.sites
  {
    hide Inv, CreateAnswerFor, Create;
    NewReceipt(sha, s, r);
    OpenedExactly(s.t, device, Request(r, |image|, sha(image)), false, true);
  }

  /** Every image is accepted. Whatever the service holds, for every WebP of 1 to 5,000,000 bytes within
      the limits of its site and organization: opening a session, sending the slices in order within
      the day and completing it, at any time and with no fault, leaves a receipt with the image, its
      length and its digest, the image under its name, and no part behind if the store deletes them. */
  lemma WholeUploadAccepted(sha: Hash, s: State, device: Device, r: ReceiptId, image: Bytes, times: nat -> nat,
      finish: nat, removals: Key -> Removal)
    requires Inv(sha, s) && r !in s.t.sessionOf && WithinLimits(s.t, device, |image|)
    requires 1 <= |image| <= 5_000_000 && WebpHeader(image)
    requires forall n: nat :: times(n) < s.t.now + 86_400
    ensures var u := s.t.nextUpload;
            var request := Request(r, |image|, sha(image));
            var begun := Create(s.t, device, request, false, true);
            var sent := SentAll(sha, begun, device, u, Pending(sha, image, map[], 0), times).(now := finish);
            var (t', answer) := Completed(sha, sent, device, u, Within, NoFault, ALL_ANSWER, removals);
            && CreateAnswerFor(s.t, device, request, false, true) == Opened(u)
            && answer == Accepted(r, false)
            && ImageAccepted(t', device, r, u, image, sha(image), finish)
            && ((forall k :: removals(k) == Removed) ==> NoPartLeft(t', u, image))
  {
    hide Inv, CreateAnswerFor, Create, Completed, WebpHeader, InPlace, AllThere, SentAll, ImageAccepted, NoPartLeft;
    hide AwaitsImage, Pending, StoredBytes;
    var u := s.t.nextUpload;
    var begun := Create(s.t, device, Request(r, |image|, sha(image)), false, true);
    LimitsOpen(sha, s, device, r, image, times);
    SentThere(sha, begun, device, u, image, times, finish);
    var sent := SentAll(sha, begun, device, u, Pending(sha, image, map[], 0), times).(now := finish);
    SentOpen(begun, sent, device, u, image, times);
    UploadEnds(sha, sent, device, u, image, removals);
  }

  // ---------------------------------------------------------------- the jobs

  /** A clean-up pass takes up sessions older than a day, completions that have not moved for 15
      minutes, and complete sessions with parts left for as long. */
  lemma StaleExactly(sha: Hash, s: State, p: ProcId, u: UploadId)
    requires p !in s.procs
    ensures p in Next(sha, s, SelectStale(p, u)).procs <==>
              && u in s.t.sessions
              && var x := s.t.sessions[u];
                 || ((x.status == OPEN || x.status == COMPLETING) && x.created + 86_400 < s.t.now)
                 || (x.status == COMPLETING && x.updated + 900 < s.t.now)
                 || (x.status == COMPLETE && x.updated + 900 < s.t.now && exists n :: (u, n) in s.t.parts)
  {
    forall k | k in s.t.parts && k.0 == u ensures exists n :: (u, n) in s.t.parts { assert (u, k.1) in s.t.parts; }
    forall n | (u, n) in s.t.parts ensures exists k :: k in s.t.parts && k.0 == u { assert (u, n).0 == u; }
  }

  /** Its second half takes up part objects older than 25 hours; the retention, images of receipts
      older than 90 days that are not marked deleted. */
  lemma OldExactly(sha: Hash, s: State, p: ProcId, key: Key, r: ReceiptId)
    requires p !in s.procs
    ensures p in Next(sha, s, ListObject(p, key)).procs <==>
              key.PartKey? && key in s.t.store && s.t.store[key].modified + 90_000 < s.t.now
    ensures p in Next(sha, s, SelectImage(p, r)).procs <==>
              r in s.t.receipts && !s.t.receipts[r].imageDeleted && s.t.receipts[r].created + 7_776_000 < s.t.now
  {
  }

  /** The second half goes on exactly with the objects that no row names. */
  lemma UntrackedExactly(sha: Hash, s: State, p: ProcId, key: Key)
    requires p in s.procs && s.procs[p] == Listed(key)
    ensures Next(sha, s, CheckTracked(p)) ==
            if exists k :: k in s.t.parts && s.t.parts[k].key == key then End(s, p) else Set(s, p, Untracked(key))
  {
  }

  /** The yearly deletion removes receipts of one organization older than 365 days, with their sessions,
      parts, audit events and outbox rows, and nothing of any other receipt. */
  lemma PurgesExactly(sha: Hash, s: State, org: OrgId, rs: set<ReceiptId>)
    requires forall r :: r in rs ==>
               r in s.t.receipts && s.t.receipts[r].owner.org == org && s.t.receipts[r].created + 31_536_000 < s.t.now
    ensures var t' := Next(sha, s, PurgeReceipts(org, rs)).t;
            && t'.receipts == s.t.receipts - rs && t'.sessionOf == s.t.sessionOf - rs
            && (forall u :: u in t'.sessions <==> u in s.t.sessions && s.t.sessions[u].receipt !in rs)
            && (forall u :: u in t'.sessions ==> u in s.t.sessions && t'.sessions[u] == s.t.sessions[u])
            && (forall k :: k in t'.parts <==>
                  k in s.t.parts && !(k.0 in s.t.sessions && s.t.sessions[k.0].receipt in rs))
            && (forall r :: t'.audited[r] == if r in rs then 0 else s.t.audited[r])
            && (forall r :: t'.queued[r] == if r in rs then 0 else s.t.queued[r])
  {
    hide Purge, Next;
    PurgeTakes(sha, s, org, rs);
    PurgedTables(s.t, rs);
  }

  lemma PurgeTakes(sha: Hash, s: State, org: OrgId, rs: set<ReceiptId>)
    requires Purgeable(s.t, org, rs)
    ensures Next(sha, s, PurgeReceipts(org, rs)).t == Purge(s.t, rs)
  {
    hide Purge, LeakMore, Purgeable;
  }

  lemma PurgedTables(t: Tables, rs: set<ReceiptId>)
    ensures var t' := Purge(t, rs);
            && t'.receipts == t.receipts - rs && t'.sessionOf == t.sessionOf - rs
            && (forall u :: u in t'.sessions <==> u in t.sessions && t.sessions[u].receipt !in rs)
            && (forall u :: u in t'.sessions ==> u in t.sessions && t'.sessions[u] == t.sessions[u])
            && (forall k :: k in t'.parts <==> k in t.parts && !(k.0 in t.sessions && t.sessions[k.0].receipt in rs))
            && (forall r :: t'.audited[r] == if r in rs then 0 else t.audited[r])
            && (forall r :: t'.queued[r] == if r in rs then 0 else t.queued[r])
  {
    hide Without;
  }

  lemma StepLater(sha: Hash, s: State, step: Step, r: ReceiptId)
    requires Inv(sha, s) && r in s.t.receipts
    ensures var t' := Next(sha, s, step).t;
            && s.t.now <= t'.now
            && if r in t'.receipts then SameRow(s.t.receipts[r], t'.receipts[r])
               else s.t.receipts[r].created + 31_536_000 < s.t.now
  {
    hide Inv, Next;
    StepRows(sha, s, step);
  }

  /** An accepted receipt stays for a year, with its owner, image name, length, digest and time,
      whatever is uploaded, cleaned up or deleted meanwhile. */
  lemma {:induction false} ReceiptStaysAYear(sha: Hash, s: State, steps: seq<Step>, r: ReceiptId)
    requires Inv(sha, s) && r in s.t.receipts
    ensures var t' := Run(sha, s, steps).t;
            && s.t.now <= t'.now
            && if r in t'.receipts && t'.now <= s.t.receipts[r].created + 31_536_000
               then SameRow(s.t.receipts[r], t'.receipts[r])
               else s.t.receipts[r].created + 31_536_000 < t'.now
    decreases |steps|
  {
    hide Inv, Next;
    if steps != [] {
      var s' := Next(sha, s, steps[0]);
      StepLater(sha, s, steps[0], r);
      StepKeeps(sha, s, steps[0]);
      if r in s'.t.receipts { ReceiptStaysAYear(sha, s', steps[1..], r); } else { RunLater(sha, s', steps[1..]); }
    }
  }

  lemma {:induction false} RunLater(sha: Hash, s: State, steps: seq<Step>)
    requires Inv(sha, s)
    ensures s.t.now <= Run(sha, s, steps).t.now
    decreases |steps|
  {
    hide Inv, Next;
    if steps != [] {
      StepRows(sha, s, steps[0]);
      StepKeeps(sha, s, steps[0]);
      RunLater(sha, Next(sha, s, steps[0]), steps[1..]);
    }
  }

  /** The part names of a session by number. */
  ghost predicate NamesPart(t: Tables, u: UploadId, key: Key) {
    key.PartKey? && key.upload == u && (u, key.number) in t.parts
  }

  /** The clean-up of a session that meets no error: the objects of its part rows are gone, and the
      image it names unless it is complete; so are its rows, and unless it had ended it is EXPIRED.
      Every other session, row and object stays. */
  lemma CleanUpEnds(t: Tables, u: UploadId, removals: Key -> Removal)
    requires u in t.sessions && InPlace(t, u) && forall k :: removals(k) == Removed
    ensures var x := t.sessions[u];
            var t' := CleanedUp(t, u, Doomed(t, u, x.status, x.image), removals);
            && t' == t.(sessions := t'.sessions, parts := t'.parts, store := t'.store)
            && t'.sessions == t.sessions[u := if x.status == OPEN || x.status == COMPLETING
                                              then x.(status := EXPIRED, updated := t.now) else x]
            && (forall v, n :: (v, n) in t'.parts <==> (v, n) in t.parts && v != u)
            && (forall k :: k in t'.parts ==> k in t.parts && t'.parts[k] == t.parts[k])
            && (forall k :: k in t'.store <==>
                  k in t.store && !NamesPart(t, u, k) && !(x.status != COMPLETE && x.image == Some(k)))
            && (forall k :: k in t'.store ==> k in t.store && t'.store[k] == t.store[k])
  {
    hide KeysOf, RowsOf, InPlace, CleanedUp, Expire;
    var x := t.sessions[u];
    var todo := Doomed(t, u, x.status, x.image);
    forall k ensures k in KeysOf(RowsOf(t, u)) <==> NamesPart(t, u, k) { SessionKeys(t, u, k); }
    CleanedAll(t, u, todo, removals);
    ExpiredTables(t.(store := CleanedUp(t, u, todo, removals).store), u);
  }

  lemma ExpiredTables(t: Tables, u: UploadId)
    requires u in t.sessions
    ensures var x := t.sessions[u];
            var t' := Expire(t, u);
            && t' == t.(sessions := t'.sessions, parts := t'.parts)
            && t'.sessions == t.sessions[u := if x.status == OPEN || x.status == COMPLETING
                                              then x.(status := EXPIRED, updated := t.now) else x]
            && (forall v, n :: (v, n) in t'.parts <==> (v, n) in t.parts && v != u)
            && (forall k :: k in t'.parts ==> k in t.parts && t'.parts[k] == t.parts[k])
  {
    assert t.sessions[u := t.sessions[u]] == t.sessions;
  }

  /** It meets its first error at object i: exactly the objects before it have gone, and that one if it
      went all the same; the session keeps its rows and status. */
  lemma {:induction false} CleanUpStops(t: Tables, u: UploadId, todo: seq<Key>, removals: Key -> Removal, i: nat)
    requires i < |todo| && removals(todo[i]) != Removed && forall k :: k in todo[..i] ==> removals(k) == Removed
    ensures CleanedUp(t, u, todo, removals) ==
            t.(store := map k | k in t.store && k !in todo[..i] && !(k == todo[i] && removals(k) == Unanswered) ::
                          t.store[k])
    decreases |todo|
  {
    if i > 0 {
      assert todo[0] in todo[..i] && todo[..i] == [todo[0]] + todo[1..][..i - 1];
      CleanUpStops(AfterRemoval(t, todo[0], Removed), u, todo[1..], removals, i - 1);
    }
  }

  lemma {:induction false} CleanedAll(t: Tables, u: UploadId, todo: seq<Key>, removals: Key -> Removal)
    requires u in t.sessions && forall k :: removals(k) == Removed
    ensures var t' := CleanedUp(t, u, todo, removals);
            t' == Expire(t.(store := t'.store), u) && t'.store == map k | k in t.store && k !in todo :: t.store[k]
    decreases |todo|
  {
    hide Expire;
    if todo != [] { CleanedAll(AfterRemoval(t, todo[0], Removed), u, todo[1..], removals); }
    else { ExpireStore(t, u); }
  }

  lemma StatusStore(t: Tables, u: UploadId, expected: Status, next: Status)
    ensures SetStatus(t, u, expected, next).store == t.store
  {
  }

  lemma ExpireStore(t: Tables, u: UploadId)
    ensures Expire(t, u).store == t.store
  {
    hide SetStatus;
    var cleared := DeletePartRows(t, u);
    StatusStore(cleared, u, OPEN, EXPIRED);
    StatusStore(SetStatus(cleared, u, OPEN, EXPIRED), u, COMPLETING, EXPIRED);
  }

  lemma {:induction false} RowKeys(t: Tables, u: UploadId, n: nat, count: nat, key: Key)
    requires u in t.sessions && InPlace(t, u) && n <= count
    ensures key in KeysOf(PartRows(t, u, n, count)) <==> NamesPart(t, u, key) && n <= key.number < count
    decreases count - n
  {
    hide InPlace, KeysOf, PartRows;
    RowsFrom(t, u, n, count);
    if n < count {
      RowKeys(t, u, n + 1, count, key);
      RowKey(t, u, n);
      if (u, n) in t.parts { KeysCons(t.parts[(u, n)], PartRows(t, u, n + 1, count)); }
    }
  }

  lemma RowsFrom(t: Tables, u: UploadId, n: nat, count: nat)
    requires n <= count
    ensures if n == count then KeysOf(PartRows(t, u, n, count)) == []
            else PartRows(t, u, n, count) ==
                   if (u, n) in t.parts then [t.parts[(u, n)]] + PartRows(t, u, n + 1, count)
                   else PartRows(t, u, n + 1, count)
  {
  }

  lemma RowKey(t: Tables, u: UploadId, n: nat)
    requires u in t.sessions && InPlace(t, u)
    ensures (u, n) in t.parts ==> t.parts[(u, n)].key == PartKey(u, n) && n < PartCount(t.sessions[u].total)
  {
  }

  lemma SessionKeys(t: Tables, u: UploadId, key: Key)
    requires u in t.sessions && InPlace(t, u)
    ensures key in KeysOf(RowsOf(t, u)) <==> NamesPart(t, u, key)
  {
    hide InPlace, KeysOf;
    RowKeys(t, u, 0, PartCount(t.sessions[u].total), key);
    if key.PartKey? && key.upload == u { RowKey(t, u, key.number); }
  }

  lemma KeysCons(row: Part, rest: seq<Part>)
    ensures KeysOf([row] + rest) == [row.key] + KeysOf(rest)
  {
    assert ([row] + rest)[1..] == rest;
  }

  /** The retention of one image ends in one of two ways: the object is gone, the tombstone completed,
      the receipt marked and its bytes given back once; or the deletion raised, and the receipt and
      the counters are as they were, with a tombstone that says so. */
  lemma RetentionEnds(t: Tables, r: ReceiptId, removals: Key -> Removal)
    requires r in t.receipts && t.receipts[r].owner.org in t.orgs
    requires t.receipts[r].imageDeleted || t.orgs[t.receipts[r].owner.org].stored >= t.receipts[r].bytes
    ensures var x := t.receipts[r];
            var o := x.owner.org;
            var (t', deleted) := Retained(t, r, x.key, removals);
            && deleted == (removals(x.key) == Removed)
            && t' == if deleted then
                 t.(store := t.store - {x.key}, tombstones := t.tombstones[r := COMPLETED],
                    receipts := t.receipts[r := x.(imageDeleted := true)],
                    orgs := if x.imageDeleted then t.orgs
                            else t.orgs[o := t.orgs[o].(stored := t.orgs[o].stored - x.bytes)])
               else
                 t.(store := if removals(x.key) == Untouched then t.store else t.store - {x.key},
                    tombstones := t.tombstones[r := FAILED_RETRYABLE])
  {
    assert t.tombstones[r := PENDING][r := COMPLETED] == t.tombstones[r := COMPLETED];
    assert t.tombstones[r := PENDING][r := FAILED_RETRYABLE] == t.tombstones[r := FAILED_RETRYABLE];
  }
}
