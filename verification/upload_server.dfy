/** The upload service carried out statement by statement. Each method is one transaction, one
    object-store request, or one endpoint or job built from them, and its contract equates answer
    and tables with a function. Those of the transactions are in upload_tables.dfy; those of the
    endpoints and jobs are here, and are shown to be runs of the protocol, so that what
    upload_theorems.dfy proves of every run holds of this code. */
module UploadServer {
  import opened Basics
  import opened UploadTables
  import opened UploadProtocol
  import opened UploadProofs

  // ---------------------------------------------------------------- runs of the protocol

  lemma ReachesSelf(sha: Hash, a: State)
    ensures Reaches(sha, a, a)
  {
    assert Run(sha, a, []) == a;
  }

  lemma ReachesNext(sha: Hash, a: State, b: State, step: Step)
    requires Reaches(sha, a, b)
    ensures Reaches(sha, a, Next(sha, b, step))
  {
    hide Next;
    var steps: seq<Step> :| Run(sha, a, steps) == b;
    RunAppend(sha, a, steps, [step]);
    assert [step][1..] == [];
    assert Run(sha, b, [step]) == Next(sha, b, step);
    assert Run(sha, a, steps + [step]) == Next(sha, b, step);
  }

  lemma ReachesThrough(sha: Hash, a: State, b: State, c: State)
    requires Reaches(sha, a, b) && Reaches(sha, b, c)
    ensures Reaches(sha, a, c)
  {
    hide Next;
    var steps: seq<Step> :| Run(sha, a, steps) == b;
    var more: seq<Step> :| Run(sha, b, more) == c;
    RunAppend(sha, a, steps, more);
    assert Run(sha, a, steps + more) == c;
  }

  // ---------------------------------------------------------------- reassembly

  datatype Assembly = Whole(body: Bytes) | Broken(error: Error)

  /** The parts from `next` on, appended to `body`; `answers` says which object requests succeed. */
  function Assemble(store: map<Key, Object>, parts: seq<Part>, answers: Key -> bool, next: nat, body: Bytes): Assembly
    requires next <= |parts|
    decreases |parts| - next
  {
    if next == |parts| then Whole(body)
    else
      var part := parts[next];
      if part.offset != |body| then Broken(UploadIncomplete)
      else if !answers(part.key) || part.key !in store then Broken(ObjectStoreFailed)
      else if |store[part.key].body| != part.length then Broken(UploadPartMissing)
      else Assemble(store, parts, answers, next + 1, body + store[part.key].body)
  }

  /** The state after the part loop of process `p`. */
  ghost function AfterParts(s: State, p: ProcId, c: Process, assembly: Assembly): State
    requires c.Reading?
  {
    match assembly
    case Whole(body) => Set(s, p, c.(next := |c.parts|, body := body))
    case Broken(_) => Set(s, p, Releasing(c.upload, OPEN))
  }

  lemma ReadOne(sha: Hash, s: State, p: ProcId, c: Process, fails: bool)
    requires p in s.procs && s.procs[p] == c && c.Reading? && c.next < |c.parts|
    ensures Next(sha, s, ReadPart(p, fails)) == AfterRead(s, p, c, fails)
  {
    hide AfterRead;
  }

  lemma SetTwice(s: State, p: ProcId, c: Process, d: Process)
    ensures Set(Set(s, p, c), p, d) == Set(s, p, d)
  {
    assert s.procs[p := c][p := d] == s.procs[p := d];
  }

  /** The loop over the parts is a run of part reads. */
  lemma {:induction false} PartsRun(sha: Hash, s: State, p: ProcId, c: Process, answers: Key -> bool)
    requires p in s.procs && s.procs[p] == c && c.Reading? && c.next <= |c.parts|
    ensures Reaches(sha, s, AfterParts(s, p, c, Assemble(s.t.store, c.parts, answers, c.next, c.body)))
    decreases |c.parts| - c.next
  {
    hide Next, Reaches;
    ReachesSelf(sha, s);
    if c.next == |c.parts| {
      assert Set(s, p, c).procs == s.procs;
    } else {
      var part := c.parts[c.next];
      var fails := !answers(part.key);
      ReadOne(sha, s, p, c, fails);
      ReachesNext(sha, s, s, ReadPart(p, fails));
      if part.offset == |c.body| && !fails && part.key in s.t.store && |s.t.store[part.key].body| == part.length {
        var d := c.(next := c.next + 1, body := c.body + s.t.store[part.key].body);
        PartsRun(sha, Set(s, p, d), p, d, answers);
        var rest := Assemble(s.t.store, d.parts, answers, d.next, d.body);
        if rest.Whole? { SetTwice(s, p, d, c.(next := |c.parts|, body := rest.body)); }
        SetTwice(s, p, d, Releasing(c.upload, OPEN));
        ReachesThrough(sha, s, Set(s, p, d),
          AfterParts(s, p, c, Assemble(s.t.store, c.parts, answers, c.next, c.body)));
      }
    }
  }

  // ---------------------------------------------------------------- what the endpoints and jobs do

  datatype CompleteAnswer = Accepted(receipt: ReceiptId, duplicate: bool) | CompleteRefused(error: Error)

  /** What the request finds wrong with a body, and what then becomes of the session. */
  function Verdict(sha: Hash, row: Session, body: Bytes): Option<(Status, Error)> {
    if |body| != row.total then Some((OPEN, UploadIncomplete))
    else if !IsWebp(body) then Some((FAILED, InvalidImage))
    else if sha(body) != row.digest then Some((FAILED, ChecksumMismatch))
    else None
  }

  /** Part objects from number `i` on are deleted, and the rows if none was left standing. */
  function Swept(t: Tables, u: UploadId, rows: seq<Part>, i: nat, clean: bool, removals: Key -> Removal): Tables
    requires i <= |rows|
    decreases |rows| - i
  {
    if i == |rows| then if clean then DeletePartRows(t, u) else t
    else
      var removal := removals(rows[i].key);
      Swept(AfterRemoval(t, rows[i].key, removal), u, rows, i + 1, clean && removal == Removed, removals)
  }

  /** The image is taken back, if the store answers, and the session handed out again. */
  function Compensated(t: Tables, u: UploadId, key: Key, removals: Key -> Removal): Tables {
    SetStatus(AfterRemoval(t, key, removals(key)), u, COMPLETING, OPEN)
  }

  /** The committing transaction and what follows it; `fault` says how the transaction ended. */
  function Finished(t: Tables, row: Session, u: UploadId, rows: seq<Part>, body: Bytes, key: Key, day: DayVerdict,
      fault: Fault, removals: Key -> Removal): (Tables, CompleteAnswer) {
    if fault == Aborted then (Compensated(t, u, key, removals), CompleteRefused(DatabaseFailed))
    else
      match CommitError(t, u, |body|, day)
      case Some(error) => (Compensated(t, u, key, removals), CompleteRefused(error))
      case None =>
        var t' := Commit(t, u, body, key, row.digest, day);
        if fault == ReplyLost then (Compensated(t', u, key, removals), CompleteRefused(DatabaseFailed))
        else (Swept(t', u, rows, 0, true, removals), Accepted(row.receipt, false))
  }

  /** From the assembled body on. A failing write of the image leaves the session COMPLETING. */
  function StoredAndFinished(t: Tables, row: Session, u: UploadId, rows: seq<Part>, body: Bytes, day: DayVerdict,
      fault: Fault, answers: Key -> bool, removals: Key -> Removal): (Tables, CompleteAnswer) {
    var key := ImageKey(row.receipt, t.now / DAY);
    var t' := RecordImageKey(t, u, key);
    if !answers(key) then (t', CompleteRefused(ObjectStoreFailed))
    else Finished(PutObject(t', key, body), row, u, rows, body, key, day, fault, removals)
  }

  /** The whole completion endpoint. */
  function Completed(sha: Hash, t: Tables, device: Device, u: UploadId, day: DayVerdict, fault: Fault,
      answers: Key -> bool, removals: Key -> Removal): (Tables, CompleteAnswer) {
    match ClaimAnswerFor(t, device, u)
    case Duplicate(receipt) => (t, Accepted(receipt, true))
    case ClaimRefused(error) => (t, CompleteRefused(error))
    case Claimed(rows) =>
      var t' := Claim(t, device, u);
      match Assemble(t'.store, rows, answers, 0, [])
      case Broken(error) => (SetStatus(t', u, COMPLETING, OPEN), CompleteRefused(error))
      case Whole(body) =>
        match Verdict(sha, t.sessions[u], body)
        case Some(v) => (SetStatus(t', u, COMPLETING, v.0), CompleteRefused(v.1))
        case None => StoredAndFinished(t', t.sessions[u], u, rows, body, day, fault, answers, removals)
  }

  /** The clean-up of one session: its objects one by one, then rows and status, or nothing more
      once an object cannot be deleted. */
  function CleanedUp(t: Tables, u: UploadId, todo: seq<Key>, removals: Key -> Removal): Tables
    decreases |todo|
  {
    if todo == [] then Expire(t, u)
    else
      var t' := AfterRemoval(t, todo[0], removals(todo[0]));
      if removals(todo[0]) != Removed then t' else CleanedUp(t', u, todo[1..], removals)
  }

  /** The retention of one image. */
  function Retained(t: Tables, r: ReceiptId, key: Key, removals: Key -> Removal): (Tables, bool) {
    var t' := SetTombstone(t, r, PENDING);
    var t'' := AfterRemoval(t', key, removals(key));
    if removals(key) == Removed then (FinishImage(t'', r), true) else (SetTombstone(t'', r, FAILED_RETRYABLE), false)
  }

  // ---------------------------------------------------------------- a completion running alone

  /** The service with one running request, or with none. */
  ghost function Alone(t: Tables, h: History, c: Option<Process>): State {
    State(t, if c.Some? then map[0 := c.value] else map[], h)
  }

  lemma AloneClaim(sha: Hash, t: Tables, h: History, device: Device, u: UploadId)
    requires ClaimAnswerFor(t, device, u).Claimed?
    ensures Next(sha, Alone(t, h, None), ClaimSession(0, device, u)) ==
            Alone(Claim(t, device, u), h, Some(Reading(u, t.sessions[u], RowsOf(t, u), 0, [])))
  {
    hide RowsOf, Claim;
    assert map[][0 := Reading(u, t.sessions[u], RowsOf(t, u), 0, [])] ==
      map[0 := Reading(u, t.sessions[u], RowsOf(t, u), 0, [])];
  }

  lemma AloneSet(t: Tables, h: History, c: Process, d: Process, t': Tables)
    ensures Set(Alone(t, h, Some(c)), 0, d).(t := t') == Alone(t', h, Some(d))
    ensures End(Alone(t, h, Some(c)), 0).(t := t') == Alone(t', h, None)
  {
    assert map[0 := c][0 := d] == map[0 := d];
    assert map[0 := c] - {0} == map[];
  }

  lemma Unclaimed(t: Tables, device: Device, u: UploadId)
    requires !ClaimAnswerFor(t, device, u).Claimed?
    ensures Claim(t, device, u) == t
  {
  }

  lemma Chargeable(t: Tables, u: UploadId, bytes: nat, day: DayVerdict)
    requires CommitError(t, u, bytes, day) == None
    ensures u in t.sessions && t.sessions[u].owner.org in t.orgs
  {
  }

  lemma Refused(t: Tables, u: UploadId, body: Bytes, key: Key, digest: Digest, day: DayVerdict)
    requires CommitError(t, u, |body|, day) != None
    ensures Commit(t, u, body, key, digest, day) == t
  {
    hide CommitError;
  }

  lemma Charged(t: Tables, t': Tables, u: UploadId, body: Bytes, key: Key, digest: Digest, day: DayVerdict)
    requires CommitError(t, u, |body|, day) == None && u in t.sessions && t.sessions[u].owner.org in t.orgs
    requires var x := t.sessions[u]; var org := t.orgs[x.owner.org];
             && t'.sessions == t.sessions[u := x.(status := COMPLETE, updated := t.now)]
             && t'.orgs == t.orgs[x.owner.org := org.(stored := org.stored + |body|)]
             && t'.receipts == t.receipts[x.receipt := Receipt(x.owner, key, |body|, digest, t.now, false)]
             && t'.audited == t.audited + multiset{x.receipt} && t'.queued == t.queued + multiset{x.receipt}
             && t'.now == t.now && t'.nextUpload == t.nextUpload && t'.sessionOf == t.sessionOf && t'.parts == t.parts
             && t'.store == t.store && t'.sites == t.sites && t'.tombstones == t.tombstones
    ensures t' == Commit(t, u, body, key, digest, day)
  {
    hide CommitError;
  }

  lemma ClaimedRow(t: Tables, device: Device, u: UploadId)
    requires ClaimAnswerFor(t, device, u).Claimed?
    ensures var t' := Claim(t, device, u);
            u in t.sessions && u in t'.sessions
              && t'.sessions[u] == t.sessions[u].(status := COMPLETING, updated := t.now)
  {
    hide RowsOf;
  }

  /** The request after its part loop. */
  ghost function Joined(c: Process, assembly: Assembly): Process
    requires c.Reading?
  {
    match assembly
    case Whole(body) => c.(next := |c.parts|, body := body)
    case Broken(_) => Releasing(c.upload, OPEN)
  }

  lemma AloneParts(sha: Hash, t: Tables, h: History, c: Process, answers: Key -> bool)
    requires c.Reading? && c.next <= |c.parts|
    ensures Reaches(sha, Alone(t, h, Some(c)),
            Alone(t, h, Some(Joined(c, Assemble(t.store, c.parts, answers, c.next, c.body)))))
  {
    hide Next, Reaches, Assemble;
    var d := Joined(c, Assemble(t.store, c.parts, answers, c.next, c.body));
    PartsRun(sha, Alone(t, h, Some(c)), 0, c, answers);
    AloneSet(t, h, c, d, t);
  }

  lemma AloneInspect(sha: Hash, t: Tables, h: History, c: Process)
    requires c.Reading? && c.next == |c.parts|
    ensures Next(sha, Alone(t, h, Some(c)), Inspect(0)) ==
            Alone(t, h, Some(match Verdict(sha, c.row, c.body)
                             case Some(v) => Releasing(c.upload, v.0)
                             case None => Assembled(c.upload, c.row, c.parts, c.body)))
  {
    hide IsWebp;
    var s := Alone(t, h, Some(c));
    assert Next(sha, s, Inspect(0)) == AfterInspect(sha, s, 0, c);
    AloneSet(t, h, c, Releasing(c.upload, OPEN), t);
    AloneSet(t, h, c, Releasing(c.upload, FAILED), t);
    AloneSet(t, h, c, Assembled(c.upload, c.row, c.parts, c.body), t);
  }

  lemma AloneRelease(sha: Hash, t: Tables, h: History, u: UploadId, to: Status)
    ensures Next(sha, Alone(t, h, Some(Releasing(u, to))), Release(0)) ==
            Alone(SetStatus(t, u, COMPLETING, to), h, None)
  {
    hide SetStatus;
    AloneSet(t, h, Releasing(u, to), Releasing(u, to), SetStatus(t, u, COMPLETING, to));
  }

  lemma AloneKey(sha: Hash, t: Tables, h: History, u: UploadId, row: Session, parts: seq<Part>, body: Bytes)
    ensures var key := ImageKey(row.receipt, t.now / DAY);
            Next(sha, Alone(t, h, Some(Assembled(u, row, parts, body))), RecordKey(0)) ==
            Alone(RecordImageKey(t, u, key), h, Some(Keyed(u, row, parts, body, key)))
  {
    hide RecordImageKey;
    var key := ImageKey(row.receipt, t.now / DAY);
    AloneSet(t, h, Assembled(u, row, parts, body), Keyed(u, row, parts, body, key), RecordImageKey(t, u, key));
  }

  lemma AloneStore(sha: Hash, t: Tables, h: History, u: UploadId, row: Session, parts: seq<Part>, body: Bytes, key: Key)
    ensures Next(sha, Alone(t, h, Some(Keyed(u, row, parts, body, key))), WriteImage(0)) ==
            Alone(PutObject(t, key, body), h, Some(Stored(u, row, parts, body, key)))
  {
    hide PutObject;
    AloneSet(t, h, Keyed(u, row, parts, body, key), Stored(u, row, parts, body, key), PutObject(t, key, body));
  }

  lemma AloneCommit(sha: Hash, t: Tables, h: History, c: Process, day: DayVerdict, fault: Fault)
    requires c.Stored?
    ensures Next(sha, Alone(t, h, Some(c)), CommitReceipt(0, day, fault)) ==
            if fault == Aborted || CommitError(t, c.upload, |c.body|, day) != None
            then Alone(t, h, Some(Compensating(c.upload, c.key)))
            else Alone(Commit(t, c.upload, c.body, c.key, c.row.digest, day),
                       h.(charged := h.charged + multiset{c.upload}),
                       Some(if fault == ReplyLost then Compensating(c.upload, c.key)
                            else Sweeping(c.upload, c.parts, 0, true)))
  {
    hide Commit, CommitError;
    var t' := Commit(t, c.upload, c.body, c.key, c.row.digest, day);
    AloneSet(t, h, c, Compensating(c.upload, c.key), t);
    AloneSet(t, h, c, Compensating(c.upload, c.key), t');
    AloneSet(t, h, c, Sweeping(c.upload, c.parts, 0, true), t');
    assert Next(sha, Alone(t, h, Some(c)), CommitReceipt(0, day, fault)) ==
      AfterCommit(Alone(t, h, Some(c)), 0, c, day, fault);
  }

  lemma AloneDelete(sha: Hash, t: Tables, h: History, u: UploadId, key: Key, ok: bool)
    ensures Next(sha, Alone(t, h, Some(Compensating(u, key))), DeleteImage(0, ok)) ==
            Alone(if ok then DeleteObject(t, key) else t, h, Some(Releasing(u, OPEN)))
  {
    hide DeleteObject;
    AloneSet(t, h, Compensating(u, key), Releasing(u, OPEN), if ok then DeleteObject(t, key) else t);
  }

  lemma AloneSweep(sha: Hash, t: Tables, h: History, c: Process, removal: Removal)
    requires c.Sweeping? && c.next < |c.parts|
    ensures Next(sha, Alone(t, h, Some(c)), SweepPart(0, removal)) ==
            Alone(AfterRemoval(t, c.parts[c.next].key, removal), h,
              Some(c.(next := c.next + 1, clean := c.clean && removal == Removed)))
  {
    hide AfterRemoval;
    AloneSet(t, h, c, c.(next := c.next + 1, clean := c.clean && removal == Removed),
      AfterRemoval(t, c.parts[c.next].key, removal));
  }

  lemma AloneSwept(sha: Hash, t: Tables, h: History, c: Process)
    requires c.Sweeping? && c.next == |c.parts|
    ensures Next(sha, Alone(t, h, Some(c)), SweepRows(0)) ==
            Alone(if c.clean then DeletePartRows(t, c.upload) else t, h, None)
  {
    hide DeletePartRows;
    AloneSet(t, h, c, c, if c.clean then DeletePartRows(t, c.upload) else t);
  }

  // ---------------------------------------------------------------- a job running alone

  lemma AloneSelect(sha: Hash, t: Tables, h: History, u: UploadId)
    requires u in t.sessions && Stale(t, u)
    ensures Next(sha, Alone(t, h, None), SelectStale(0, u)) ==
            Alone(t, h, Some(Selected(u, t.sessions[u].status, t.sessions[u].image)))
  {
    hide Stale;
    assert map[][0 := Selected(u, t.sessions[u].status, t.sessions[u].image)] ==
      map[0 := Selected(u, t.sessions[u].status, t.sessions[u].image)];
  }

  lemma AloneLoad(sha: Hash, t: Tables, h: History, u: UploadId, saw: Status, image: Option<Key>)
    ensures Next(sha, Alone(t, h, Some(Selected(u, saw, image))), LoadKeys(0)) ==
            Alone(t, h, Some(Cleaning(u, saw, Doomed(t, u, saw, image))))
  {
    hide Doomed;
    AloneSet(t, h, Selected(u, saw, image), Cleaning(u, saw, Doomed(t, u, saw, image)), t);
  }

  lemma AloneClean(sha: Hash, t: Tables, h: History, u: UploadId, saw: Status, todo: seq<Key>)
    requires todo != []
    ensures Next(sha, Alone(t, h, Some(Cleaning(u, saw, todo))), DeleteKey(0)) ==
            Alone(DeleteObject(t, todo[0]), h, Some(Cleaning(u, saw, todo[1..])))
  {
    hide DeleteObject;
    AloneSet(t, h, Cleaning(u, saw, todo), Cleaning(u, saw, todo[1..]), DeleteObject(t, todo[0]));
  }

  lemma AloneCrash(sha: Hash, t: Tables, h: History, c: Process)
    ensures Next(sha, Alone(t, h, Some(c)), Crash(0)) == Alone(t, h, None)
  {
    AloneSet(t, h, c, c, t);
  }

  lemma AloneExpire(sha: Hash, t: Tables, h: History, u: UploadId, saw: Status)
    ensures Next(sha, Alone(t, h, Some(Cleaning(u, saw, []))), ExpireSession(0)) == Alone(Expire(t, u), h, None)
  {
    hide Expire;
    AloneSet(t, h, Cleaning(u, saw, []), Cleaning(u, saw, []), Expire(t, u));
  }

  lemma AloneChoose(sha: Hash, t: Tables, h: History, r: ReceiptId)
    requires r in t.receipts && !t.receipts[r].imageDeleted && t.receipts[r].created + 90 * DAY < t.now
    ensures Next(sha, Alone(t, h, None), SelectImage(0, r)) ==
            Alone(t, h, Some(Retaining(r, t.receipts[r].key, Chosen)))
  {
    assert map[][0 := Retaining(r, t.receipts[r].key, Chosen)] == map[0 := Retaining(r, t.receipts[r].key, Chosen)];
  }

  lemma AloneMark(sha: Hash, t: Tables, h: History, r: ReceiptId, key: Key)
    ensures Next(sha, Alone(t, h, Some(Retaining(r, key, Chosen))), MarkImage(0)) ==
            Alone(SetTombstone(t, r, PENDING), h, Some(Retaining(r, key, Marked)))
  {
    hide SetTombstone;
    AloneSet(t, h, Retaining(r, key, Chosen), Retaining(r, key, Marked), SetTombstone(t, r, PENDING));
  }

  lemma AloneDrop(sha: Hash, t: Tables, h: History, r: ReceiptId, key: Key, removal: Removal)
    ensures Next(sha, Alone(t, h, Some(Retaining(r, key, Marked))), DropImage(0, removal)) ==
            Alone(AfterRemoval(t, key, removal), h,
              Some(Retaining(r, key, if removal == Removed then Dropped else Undropped)))
  {
    hide AfterRemoval;
    AloneSet(t, h, Retaining(r, key, Marked), Retaining(r, key, if removal == Removed then Dropped else Undropped),
      AfterRemoval(t, key, removal));
  }

  lemma AloneFinish(sha: Hash, t: Tables, h: History, r: ReceiptId, key: Key)
    ensures Next(sha, Alone(t, h, Some(Retaining(r, key, Dropped))), FinishRetention(0)) ==
            Alone(FinishImage(t, r), h, None)
    ensures Next(sha, Alone(t, h, Some(Retaining(r, key, Undropped))), FinishRetention(0)) ==
            Alone(SetTombstone(t, r, FAILED_RETRYABLE), h, None)
  {
    hide FinishImage, SetTombstone;
    AloneSet(t, h, Retaining(r, key, Dropped), Retaining(r, key, Dropped), FinishImage(t, r));
    AloneSet(t, h, Retaining(r, key, Undropped), Retaining(r, key, Undropped), SetTombstone(t, r, FAILED_RETRYABLE));
  }

  // ---------------------------------------------------------------- they are runs of the protocol

  lemma {:induction false} SweepIsRun(sha: Hash, t: Tables, h: History, u: UploadId, rows: seq<Part>, i: nat,
      clean: bool, removals: Key -> Removal)
    requires i <= |rows|
    ensures Reaches(sha, Alone(t, h, Some(Sweeping(u, rows, i, clean))),
            Alone(Swept(t, u, rows, i, clean, removals), h, None))
    decreases |rows| - i
  {
    hide Next, Alone, Reaches, AfterRemoval, DeletePartRows;
    var c := Sweeping(u, rows, i, clean);
    ReachesSelf(sha, Alone(t, h, Some(c)));
    if i == |rows| {
      AloneSwept(sha, t, h, c);
      ReachesNext(sha, Alone(t, h, Some(c)), Alone(t, h, Some(c)), SweepRows(0));
    } else {
      var removal := removals(rows[i].key);
      var ok := removal == Removed;
      var t' := AfterRemoval(t, rows[i].key, removal);
      AloneSweep(sha, t, h, c, removal);
      ReachesNext(sha, Alone(t, h, Some(c)), Alone(t, h, Some(c)), SweepPart(0, removal));
      SweepIsRun(sha, t', h, u, rows, i + 1, clean && ok, removals);
      ReachesThrough(sha, Alone(t, h, Some(c)), Alone(t', h, Some(Sweeping(u, rows, i + 1, clean && ok))),
        Alone(Swept(t, u, rows, i, clean, removals), h, None));
    }
  }

  lemma ReopenIsRun(sha: Hash, s0: State, t: Tables, h: History, u: UploadId, to: Status)
    requires Reaches(sha, s0, Alone(t, h, Some(Releasing(u, to))))
    ensures Reaches(sha, s0, Alone(SetStatus(t, u, COMPLETING, to), h, None))
  {
    hide Next, Alone, Reaches, SetStatus;
    AloneRelease(sha, t, h, u, to);
    ReachesNext(sha, s0, Alone(t, h, Some(Releasing(u, to))), Release(0));
  }

  lemma CompensationIsRun(sha: Hash, s0: State, t: Tables, h: History, u: UploadId, key: Key, removals: Key -> Removal)
    requires Reaches(sha, s0, Alone(t, h, Some(Compensating(u, key))))
    ensures Reaches(sha, s0, Alone(Compensated(t, u, key, removals), h, None))
  {
    hide Next, Alone, Reaches, SetStatus, DeleteObject;
    var ok := removals(key) != Untouched;
    AloneDelete(sha, t, h, u, key, ok);
    ReachesNext(sha, s0, Alone(t, h, Some(Compensating(u, key))), DeleteImage(0, ok));
    ReopenIsRun(sha, s0, if ok then DeleteObject(t, key) else t, h, u, OPEN);
  }

  /** Some history makes the tables `t`, with nothing running, reachable. */
  ghost predicate ReachesTables(sha: Hash, s0: State, t: Tables) {
    exists h: History :: Reaches(sha, s0, Alone(t, h, None))
  }

  lemma FinishIsRun(sha: Hash, s0: State, t: Tables, h: History, c: Process, day: DayVerdict, fault: Fault,
      removals: Key -> Removal)
    requires c.Stored? && Reaches(sha, s0, Alone(t, h, Some(c)))
    ensures ReachesTables(sha, s0, Finished(t, c.row, c.upload, c.parts, c.body, c.key, day, fault, removals).0)
  {
    hide Next, Alone, Reaches, Commit, CommitError, Compensated, Swept;
    AloneCommit(sha, t, h, c, day, fault);
    ReachesNext(sha, s0, Alone(t, h, Some(c)), CommitReceipt(0, day, fault));
    if fault == Aborted || CommitError(t, c.upload, |c.body|, day) != None {
      CompensationIsRun(sha, s0, t, h, c.upload, c.key, removals);
    } else {
      var t' := Commit(t, c.upload, c.body, c.key, c.row.digest, day);
      var h' := h.(charged := h.charged + multiset{c.upload});
      if fault == ReplyLost {
        CompensationIsRun(sha, s0, t', h', c.upload, c.key, removals);
      } else {
        SweepIsRun(sha, t', h', c.upload, c.parts, 0, true, removals);
        ReachesThrough(sha, s0, Alone(t', h', Some(Sweeping(c.upload, c.parts, 0, true))),
          Alone(Swept(t', c.upload, c.parts, 0, true, removals), h', None));
      }
    }
  }

  lemma StoreIsRun(sha: Hash, s0: State, t: Tables, h: History, row: Session, u: UploadId, rows: seq<Part>, body: Bytes,
      day: DayVerdict, fault: Fault, answers: Key -> bool, removals: Key -> Removal)
    requires Reaches(sha, s0, Alone(t, h, Some(Assembled(u, row, rows, body))))
    ensures ReachesTables(sha, s0, StoredAndFinished(t, row, u, rows, body, day, fault, answers, removals).0)
  {
    hide Next, Alone, Reaches, RecordImageKey, PutObject, Finished;
    var key := ImageKey(row.receipt, t.now / DAY);
    var t' := RecordImageKey(t, u, key);
    AloneKey(sha, t, h, u, row, rows, body);
    ReachesNext(sha, s0, Alone(t, h, Some(Assembled(u, row, rows, body))), RecordKey(0));
    if answers(key) {
      AloneStore(sha, t', h, u, row, rows, body, key);
      ReachesNext(sha, s0, Alone(t', h, Some(Keyed(u, row, rows, body, key))), WriteImage(0));
      FinishIsRun(sha, s0, PutObject(t', key, body), h, Stored(u, row, rows, body, key), day, fault, removals);
    } else {
      AloneCrash(sha, t', h, Keyed(u, row, rows, body, key));
      ReachesNext(sha, s0, Alone(t', h, Some(Keyed(u, row, rows, body, key))), Crash(0));
    }
  }

  /** The completion endpoint is a run of the protocol in which nothing else moves, whatever object
      requests fail and however the commit ends. */
  lemma CompletionIsRun(sha: Hash, t: Tables, h: History, device: Device, u: UploadId, day: DayVerdict, fault: Fault,
      answers: Key -> bool, removals: Key -> Removal)
    ensures ReachesTables(sha, Alone(t, h, None), Completed(sha, t, device, u, day, fault, answers, removals).0)
  {
    hide Next, Alone, Reaches, Claim, SetStatus, IsWebp, Assemble, RowsOf, StoredAndFinished;
    var s0 := Alone(t, h, None);
    ReachesSelf(sha, s0);
    if ClaimAnswerFor(t, device, u).Claimed? {
      var rows := RowsOf(t, u);
      var t' := Claim(t, device, u);
      var c := Reading(u, t.sessions[u], rows, 0, []);
      AloneClaim(sha, t, h, device, u);
      ReachesNext(sha, s0, s0, ClaimSession(0, device, u));
      var assembly := Assemble(t'.store, rows, answers, 0, []);
      AloneParts(sha, t', h, c, answers);
      ReachesThrough(sha, s0, Alone(t', h, Some(c)), Alone(t', h, Some(Joined(c, assembly))));
      if assembly.Broken? {
        ReopenIsRun(sha, s0, t', h, u, OPEN);
      } else {
        AloneInspect(sha, t', h, Joined(c, assembly));
        ReachesNext(sha, s0, Alone(t', h, Some(Joined(c, assembly))), Inspect(0));
        var verdict := Verdict(sha, t.sessions[u], assembly.body);
        if verdict.Some? {
          ReopenIsRun(sha, s0, t', h, u, verdict.value.0);
        } else {
          StoreIsRun(sha, s0, t', h, t.sessions[u], u, rows, assembly.body, day, fault, answers, removals);
        }
      }
    }
  }

  lemma {:induction false} DeletionIsRun(sha: Hash, s0: State, t: Tables, h: History, u: UploadId, saw: Status,
      todo: seq<Key>, removals: Key -> Removal)
    requires Reaches(sha, s0, Alone(t, h, Some(Cleaning(u, saw, todo))))
    ensures Reaches(sha, s0, Alone(CleanedUp(t, u, todo, removals), h, None))
    decreases |todo|
  {
    hide Next, Alone, Reaches, DeleteObject, Expire;
    if todo == [] {
      AloneExpire(sha, t, h, u, saw);
      ReachesNext(sha, s0, Alone(t, h, Some(Cleaning(u, saw, todo))), ExpireSession(0));
    } else if removals(todo[0]) != Untouched {
      var t' := DeleteObject(t, todo[0]);
      AloneClean(sha, t, h, u, saw, todo);
      ReachesNext(sha, s0, Alone(t, h, Some(Cleaning(u, saw, todo))), DeleteKey(0));
      if removals(todo[0]) == Removed {
        DeletionIsRun(sha, s0, t', h, u, saw, todo[1..], removals);
      } else {
        AloneCrash(sha, t', h, Cleaning(u, saw, todo[1..]));
        ReachesNext(sha, s0, Alone(t', h, Some(Cleaning(u, saw, todo[1..]))), Crash(0));
      }
    } else {
      AloneCrash(sha, t, h, Cleaning(u, saw, todo));
      ReachesNext(sha, s0, Alone(t, h, Some(Cleaning(u, saw, todo))), Crash(0));
    }
  }

  /** The clean-up of a stale session is a run of the protocol. */
  lemma CleanUpIsRun(sha: Hash, t: Tables, h: History, u: UploadId, removals: Key -> Removal)
    requires u in t.sessions && Stale(t, u)
    ensures var x := t.sessions[u];
            Reaches(sha, Alone(t, h, None), Alone(CleanedUp(t, u, Doomed(t, u, x.status, x.image), removals), h, None))
  {
    hide Next, Alone, Reaches, Stale, Doomed, CleanedUp;
    var x := t.sessions[u];
    var s0 := Alone(t, h, None);
    ReachesSelf(sha, s0);
    AloneSelect(sha, t, h, u);
    ReachesNext(sha, s0, s0, SelectStale(0, u));
    AloneLoad(sha, t, h, u, x.status, x.image);
    ReachesNext(sha, s0, Alone(t, h, Some(Selected(u, x.status, x.image))), LoadKeys(0));
    DeletionIsRun(sha, s0, t, h, u, x.status, Doomed(t, u, x.status, x.image), removals);
  }

  /** The retention of one image is a run of the protocol: the tombstone comes before the deletion. */
  lemma RetentionIsRun(sha: Hash, t: Tables, h: History, r: ReceiptId, removals: Key -> Removal)
    requires r in t.receipts && !t.receipts[r].imageDeleted && t.receipts[r].created + 90 * DAY < t.now
    ensures Reaches(sha, Alone(t, h, None), Alone(Retained(t, r, t.receipts[r].key, removals).0, h, None))
  {
    hide Next, Alone, Reaches, AfterRemoval, FinishImage, SetTombstone;
    var s0 := Alone(t, h, None);
    var key := t.receipts[r].key;
    var t' := SetTombstone(t, r, PENDING);
    ReachesSelf(sha, s0);
    AloneChoose(sha, t, h, r);
    ReachesNext(sha, s0, s0, SelectImage(0, r));
    AloneMark(sha, t, h, r, key);
    ReachesNext(sha, s0, Alone(t, h, Some(Retaining(r, key, Chosen))), MarkImage(0));
    var t'' := AfterRemoval(t', key, removals(key));
    AloneDrop(sha, t', h, r, key, removals(key));
    ReachesNext(sha, s0, Alone(t', h, Some(Retaining(r, key, Marked))), DropImage(0, removals(key)));
    AloneFinish(sha, t'', h, r, key);
    ReachesNext(sha, s0,
      Alone(t'', h, Some(Retaining(r, key, if removals(key) == Removed then Dropped else Undropped))),
      FinishRetention(0));
  }

  // ---------------------------------------------------------------- opening a session and sending a part

  /** Opening a session is a run of the protocol. */
  lemma OpeningIsRun(sha: Hash, t: Tables, h: History, device: Device, request: Request, paused: bool,
      vendorKnown: bool)
    ensures ReachesTables(sha, Alone(t, h, None), Create(t, device, request, paused, vendorKnown))
  {
    hide CreateAnswerFor, Reaches;
    var s0 := Alone(t, h, None);
    var step := OpenSession(device, request, paused, vendorKnown);
    ReachesSelf(sha, s0);
    ReachesNext(sha, s0, s0, step);
    assert Next(sha, s0, step) == Alone(Create(t, device, request, paused, vendorKnown), Next(sha, s0, step).h, None);
  }

  /** The device already has the session it asks for. */
  ghost predicate HasSession(t: Tables, device: Device, request: Request, u: UploadId) {
    && 0 < request.total <= MAX_IMAGE_BYTES
      && !(request.receipt in t.receipts && t.receipts[request.receipt].owner == device)
    && request.receipt in t.sessionOf && t.sessionOf[request.receipt] == u && u in t.sessions && u < t.nextUpload
    && t.sessions[u].receipt == request.receipt && t.sessions[u].owner == device
      && t.sessions[u].digest == request.digest
  }

  lemma AskedAgain(t: Tables, device: Device, request: Request, vendorKnown: bool, u: UploadId)
    requires HasSession(t, device, request, u)
    ensures CreateAnswerFor(t, device, request, false, vendorKnown) == Opened(u)
            && Create(t, device, request, false, vendorKnown) == t
  {
    hide PolicyActive;
  }

  lemma OpenedHas(t: Tables, device: Device, request: Request, paused: bool, vendorKnown: bool)
    requires IndexInv(t.sessions, t.sessionOf, t.nextUpload, t.now)
    ensures var answer := CreateAnswerFor(t, device, request, paused, vendorKnown);
            answer.Opened? ==>
              !paused && HasSession(Create(t, device, request, paused, vendorKnown), device, request, answer.upload)
  {
    hide PolicyActive;
  }

  lemma NothingOpened(t: Tables, device: Device, request: Request, paused: bool, vendorKnown: bool)
    ensures var answer := CreateAnswerFor(t, device, request, paused, vendorKnown);
            && (!answer.Opened? ==> Create(t, device, request, paused, vendorKnown) == t)
            && (answer.Received? ==>
              request.receipt in t.receipts && t.receipts[request.receipt].owner == device
              && t.receipts[request.receipt].digest == request.digest)
  {
    hide PolicyActive;
  }

  /** The session a request is answered with is of that receipt, device and digest, and asking again
      for it answers the same and changes nothing; any other answer changes nothing. */
  lemma OpenedOnce(t: Tables, device: Device, request: Request, paused: bool, vendorKnown: bool)
    requires IndexInv(t.sessions, t.sessionOf, t.nextUpload, t.now)
    ensures var answer := CreateAnswerFor(t, device, request, paused, vendorKnown);
            var t' := Create(t, device, request, paused, vendorKnown);
            && (!answer.Opened? ==> t' == t)
            && (answer.Received? ==>
              request.receipt in t.receipts && t.receipts[request.receipt].owner == device
              && t.receipts[request.receipt].digest == request.digest)
            && (answer.Opened? ==>
                  && HasSession(t', device, request, answer.upload)
                  && CreateAnswerFor(t', device, request, paused, vendorKnown) == answer
                    && Create(t', device, request, paused, vendorKnown) == t')
  {
    hide CreateAnswerFor, Create, HasSession;
    NothingOpened(t, device, request, paused, vendorKnown);
    OpenedHas(t, device, request, paused, vendorKnown);
    var answer := CreateAnswerFor(t, device, request, paused, vendorKnown);
    if answer.Opened? {
      AskedAgain(Create(t, device, request, paused, vendorKnown), device, request, vendorKnown, answer.upload);
    }
  }

  /** What the part endpoint leaves. */
  function PartPut(t: Tables, sha: Hash, device: Device, u: UploadId, n: int, body: Bytes, declared: Digest): Tables {
    if CheckPart(t, sha, device, u, n, body, declared) == Proceed
    then InsertPart(PutObject(t, PartKey(u, n), body), sha, u, n, body) else t
  }

  lemma AlonePut(sha: Hash, t: Tables, h: History, device: Device, u: UploadId, n: nat, body: Bytes, declared: Digest)
    requires CheckPart(t, sha, device, u, n, body, declared) == Proceed
    ensures Next(sha, Alone(t, h, None), PutCheck(0, device, u, n, body, declared)) ==
            Alone(t, h, Some(Putting(u, n, body, false)))
    ensures Next(sha, Alone(t, h, Some(Putting(u, n, body, false))), PutWrite(0)) ==
            Alone(PutObject(t, PartKey(u, n), body), h, Some(Putting(u, n, body, true)))
  {
    hide CheckPart;
    assert map[][0 := Putting(u, n, body, false)] == map[0 := Putting(u, n, body, false)];
    AloneSet(t, h, Putting(u, n, body, false), Putting(u, n, body, true), PutObject(t, PartKey(u, n), body));
  }

  lemma AloneInsert(sha: Hash, t: Tables, h: History, u: UploadId, n: nat, body: Bytes)
    ensures Next(sha, Alone(t, h, Some(Putting(u, n, body, true))), PutInsert(0)) ==
            Alone(InsertPart(t, sha, u, n, body), h, None)
  {
    hide InsertPart;
    AloneSet(t, h, Putting(u, n, body, true), Putting(u, n, body, true), InsertPart(t, sha, u, n, body));
  }

  /** Sending a part is a run of the protocol. */
  lemma PartIsRun(sha: Hash, t: Tables, h: History, device: Device, u: UploadId, n: int, body: Bytes, declared: Digest)
    ensures Reaches(sha, Alone(t, h, None), Alone(PartPut(t, sha, device, u, n, body, declared), h, None))
  {
    hide Next, Alone, Reaches, InsertPart;
    var s0 := Alone(t, h, None);
    ReachesSelf(sha, s0);
    if CheckPart(t, sha, device, u, n, body, declared) == Proceed {
      hide CheckPart;
      var t' := PutObject(t, PartKey(u, n), body);
      AlonePut(sha, t, h, device, u, n, body, declared);
      ReachesNext(sha, s0, s0, PutCheck(0, device, u, n, body, declared));
      ReachesNext(sha, s0, Alone(t, h, Some(Putting(u, n, body, false))), PutWrite(0));
      AloneInsert(sha, t', h, u, n, body);
      ReachesNext(sha, s0, Alone(t', h, Some(Putting(u, n, body, true))), PutInsert(0));
    }
  }

  /** A part that is not refused has a row with its digest and length afterwards, sending it again is
      acknowledged without any change, and other content under its number is then a conflict. */
  lemma PartStoredOnce(t: Tables, sha: Hash, device: Device, u: UploadId, n: nat, body: Bytes, declared: Digest)
    ensures var answer := CheckPart(t, sha, device, u, n, body, declared);
            var t' := PartPut(t, sha, device, u, n, body, declared);
            && (answer.PartRefused? || answer == AlreadyStored ==> t' == t)
            && (!answer.PartRefused? ==>
                  && (u, n) in t'.parts && t'.parts[(u, n)].digest == sha(body) == declared
                    && t'.parts[(u, n)].length == |body|
                  && CheckPart(t', sha, device, u, n, body, declared) == AlreadyStored
                  && forall other: Bytes :: |other| == |body| && sha(other) != sha(body) ==>
                       CheckPart(t', sha, device, u, n, other, sha(other)) == PartRefused(PartConflict))
  {
  }

  // ---------------------------------------------------------------- what a completion means

  /** Receipts, quota, audit events and outbox rows. */
  ghost predicate SameBooks(t: Tables, t': Tables) {
    t'.receipts == t.receipts && t'.orgs == t.orgs && t'.audited == t.audited && t'.queued == t.queued
  }

  lemma PartsKeepBooks(t: Tables, u: UploadId, key: Key)
    ensures SameBooks(t, DeleteObject(t, key)) && DeleteObject(t, key).sessions == t.sessions
    ensures SameBooks(t, DeletePartRows(t, u)) && DeletePartRows(t, u).sessions == t.sessions
  {
  }

  lemma {:induction false} SweepKeepsBooks(t: Tables, u: UploadId, rows: seq<Part>, i: nat, clean: bool,
      removals: Key -> Removal)
    requires i <= |rows|
    ensures var t' := Swept(t, u, rows, i, clean, removals); SameBooks(t, t') && t'.sessions == t.sessions
    decreases |rows| - i
  {
    hide DeleteObject, DeletePartRows;
    if i == |rows| {
      PartsKeepBooks(t, u, PartKey(u, 0));
    } else {
      var removal := removals(rows[i].key);
      PartsKeepBooks(t, u, rows[i].key);
      SweepKeepsBooks(AfterRemoval(t, rows[i].key, removal), u, rows, i + 1, clean && removal == Removed, removals);
    }
  }

  lemma StatusKeepsBooks(t: Tables, u: UploadId, to: Status)
    requires u in t.sessions
    ensures var t' := SetStatus(t, u, COMPLETING, to);
            SameBooks(t, t') && u in t'.sessions
              && t'.sessions[u].status == (if t.sessions[u].status == COMPLETING then to else t.sessions[u].status)
  {
  }

  /** The books of a committed session: its receipt, its bytes, one audit event and one outbox row. */
  ghost predicate Booked(t: Tables, t': Tables, row: Session, bytes: nat, key: Key) {
    var r := row.receipt;
    var o := row.owner.org;
    && t'.receipts == t.receipts[r := Receipt(row.owner, key, bytes, row.digest, t.now, false)]
    && o in t.orgs && t'.orgs == t.orgs[o := t.orgs[o].(stored := t.orgs[o].stored + bytes)]
    && t'.audited == t.audited + multiset{r} && t'.queued == t.queued + multiset{r}
  }

  /** Either the session is complete and everything is booked, or it is not and nothing is; the
      former exactly when the transaction committed, whether or not its answer arrived. */
  ghost predicate AllBooked(t: Tables, row: Session, u: UploadId, bytes: nat, key: Key, t': Tables) {
    u in t'.sessions && if t'.sessions[u].status == COMPLETE then Booked(t, t', row, bytes, key) else SameBooks(t, t')
  }

  lemma CommitBooks(t: Tables, u: UploadId, body: Bytes, key: Key, digest: Digest, day: DayVerdict)
    requires CommitError(t, u, |body|, day) == None
    ensures u in t.sessions
    ensures var t' := Commit(t, u, body, key, digest, day);
            && u in t'.sessions && t'.sessions[u].status == COMPLETE
            && Booked(t, t', t.sessions[u].(digest := digest), |body|, key)
  {
  }

  lemma FinishedBooks(t: Tables, row: Session, u: UploadId, rows: seq<Part>, body: Bytes, key: Key, day: DayVerdict,
      fault: Fault, removals: Key -> Removal)
    requires u in t.sessions && t.sessions[u].status == COMPLETING
    requires t.sessions[u].receipt == row.receipt && t.sessions[u].owner == row.owner
    ensures var (t', answer) := Finished(t, row, u, rows, body, key, day, fault, removals);
            && AllBooked(t, row, u, |body|, key, t')
            && (answer.Accepted? ==> t'.sessions[u].status == COMPLETE)
            && t'.sessions[u].status ==
               (if fault == Aborted || CommitError(t, u, |body|, day) != None then OPEN else COMPLETE)
            && (answer.Accepted? <==> fault == NoFault && CommitError(t, u, |body|, day) == None)
  {
    hide CommitError, Commit, Swept, Compensated, AllBooked, SameBooks, Booked;
    CompensationBooks(t, row, u, |body|, key, removals);
    if fault != Aborted && CommitError(t, u, |body|, day) == None {
      CommittedBooks(t, row, u, rows, body, key, day, removals);
    }
  }

  /** Taking the image back books nothing and opens the session again if it is being completed. */
  lemma CompensationBooks(t: Tables, row: Session, u: UploadId, bytes: nat, key: Key, removals: Key -> Removal)
    requires u in t.sessions
    ensures var t' := Compensated(t, u, key, removals);
            && SameBooks(t, t') && u in t'.sessions
            && t'.sessions[u].status == (if t.sessions[u].status == COMPLETING then OPEN else t.sessions[u].status)
            && (t.sessions[u].status == COMPLETING ==> AllBooked(t, row, u, bytes, key, t'))
  {
    hide SetStatus;
    StatusKeepsBooks(AfterRemoval(t, key, removals(key)), u, OPEN);
  }

  /** After the commit everything is booked, whether the sweep or the compensation follows. */
  lemma CommittedBooks(t: Tables, row: Session, u: UploadId, rows: seq<Part>, body: Bytes, key: Key, day: DayVerdict,
      removals: Key -> Removal)
    requires CommitError(t, u, |body|, day) == None && u in t.sessions
    requires t.sessions[u].receipt == row.receipt && t.sessions[u].owner == row.owner
    ensures var t' := Commit(t, u, body, key, row.digest, day);
            var swept := Swept(t', u, rows, 0, true, removals);
            var taken := Compensated(t', u, key, removals);
            && u in swept.sessions && swept.sessions[u].status == COMPLETE
            && AllBooked(t, row, u, |body|, key, swept)
            && u in taken.sessions && taken.sessions[u].status == COMPLETE
            && AllBooked(t, row, u, |body|, key, taken)
  {
    hide CommitError, Commit, Swept, Compensated;
    CommitBooks(t, u, body, key, row.digest, day);
    var t' := Commit(t, u, body, key, row.digest, day);
    SweepKeepsBooks(t', u, rows, 0, true, removals);
    CompensationBooks(t', row, u, |body|, key, removals);
  }

  lemma KeyKeepsBooks(t: Tables, u: UploadId, key: Key)
    requires u in t.sessions && t.sessions[u].status == COMPLETING
    ensures var t' := RecordImageKey(t, u, key);
            && SameBooks(t, t') && t'.now == t.now && t'.sites == t.sites
            && u in t'.sessions && t'.sessions[u] == t.sessions[u].(image := Some(key), updated := t.now)
  {
  }

  lemma SameQuotaAnswer(t: Tables, t': Tables, u: UploadId, bytes: nat, day: DayVerdict)
    requires u in t.sessions && u in t'.sessions && t'.sessions[u].owner == t.sessions[u].owner
             && t'.sessions[u].status == COMPLETING
    requires t'.orgs == t.orgs && t'.sites == t.sites
    ensures CommitError(t', u, bytes, day) == QuotaError(t, t.sessions[u].owner, bytes, day)
  {
  }

  /** The checks of the committing transaction for a session that is still being completed. */
  function QuotaError(t: Tables, device: Device, bytes: nat, day: DayVerdict): Option<Error> {
    if !PolicyActive(t, device) then Some(SiteInactive)
    else if day == SiteFull then Some(DailyLimit)
    else if day == OrganizationFull then Some(TenantDailyLimit)
    else if t.orgs[device.org].stored + bytes > UploadCap(t.orgs[device.org].storageLimit) then Some(TenantStorageLimit)
    else None
  }

  /** A completion that got the session ends in one of two ways. It is accepted exactly when every
      part is there, the body is the WebP that was announced, the store takes the image, the quotas
      have room and the transaction commits and answers; and the session, the receipt, the quota,
      the audit event and the outbox row change together, or not at all. Otherwise it is open again if
      parts are missing or the commit was refused, FAILED if the body is not what was announced, and
      still COMPLETING if the store does not take the image. */
  lemma CompletionMeans(sha: Hash, t: Tables, device: Device, u: UploadId, day: DayVerdict, fault: Fault,
      answers: Key -> bool, removals: Key -> Removal)
    requires ClaimAnswerFor(t, device, u).Claimed?
    ensures var x := t.sessions[u];
            var key := ImageKey(x.receipt, t.now / DAY);
            var (t', answer) := Completed(sha, t, device, u, day, fault, answers, removals);
            var assembly := Assemble(t.store, RowsOf(t, u), answers, 0, []);
            && AllBooked(t, x, u, x.total, key, t')
            && (answer.Accepted? ==> answer == Accepted(x.receipt, false) && t'.sessions[u].status == COMPLETE)
            && (answer.Accepted? <==>
                  && assembly.Whole? && |assembly.body| == x.total && IsWebp(assembly.body)
                    && sha(assembly.body) == x.digest
                  && answers(key) && fault == NoFault && QuotaError(t, device, x.total, day) == None)
            && t'.sessions[u].status ==
               if assembly.Broken? || |assembly.body| != x.total then OPEN
               else if !IsWebp(assembly.body) || sha(assembly.body) != x.digest then FAILED
               else if !answers(key) then COMPLETING
               else if fault == Aborted || QuotaError(t, device, x.total, day) != None then OPEN else COMPLETE
  {
    hide IsWebp, Assemble, RowsOf, SetStatus, RecordImageKey, Finished, QuotaError, CommitError, AllBooked, SameBooks,
      Claim;
    ClaimedRow(t, device, u);
    ClaimKeepsBooks(t, device, u);
    var x := t.sessions[u];
    var t1 := Claim(t, device, u);
    var assembly := Assemble(t.store, RowsOf(t, u), answers, 0, []);
    StatusKeepsBooks(t1, u, OPEN);
    StatusKeepsBooks(t1, u, FAILED);
    NotBooked(t, x, u, ImageKey(x.receipt, t.now / DAY), t1);
    if assembly.Whole? && Verdict(sha, x, assembly.body).None? {
      AcceptanceMeans(t, t1, x, u, RowsOf(t, u), assembly.body, day, fault, answers, removals);
    }
  }

  lemma ClaimKeepsBooks(t: Tables, device: Device, u: UploadId)
    ensures var t' := Claim(t, device, u);
            SameBooks(t, t') && t'.store == t.store && t'.now == t.now && t'.sites == t.sites
  {
  }

  lemma NotBooked(t: Tables, x: Session, u: UploadId, key: Key, t1: Tables)
    requires u in t1.sessions && t1.sessions[u].status == COMPLETING && SameBooks(t, t1)
    ensures AllBooked(t, x, u, x.total, key, SetStatus(t1, u, COMPLETING, OPEN))
            && AllBooked(t, x, u, x.total, key, SetStatus(t1, u, COMPLETING, FAILED))
  {
  }

  lemma AcceptanceMeans(t: Tables, t1: Tables, x: Session, u: UploadId, rows: seq<Part>, body: Bytes, day: DayVerdict,
      fault: Fault, answers: Key -> bool, removals: Key -> Removal)
    requires u in t.sessions && t.sessions[u] == x && u in t1.sessions
             && t1.sessions[u] == x.(status := COMPLETING, updated := t.now)
    requires SameBooks(t, t1) && t1.now == t.now && t1.sites == t.sites && |body| == x.total
    ensures var key := ImageKey(x.receipt, t.now / DAY);
            var (t', answer) := StoredAndFinished(t1, x, u, rows, body, day, fault, answers, removals);
            && AllBooked(t, x, u, x.total, key, t')
            && (answer.Accepted? ==> answer == Accepted(x.receipt, false) && t'.sessions[u].status == COMPLETE)
            && (answer.Accepted? <==> answers(key) && fault == NoFault && QuotaError(t, x.owner, x.total, day) == None)
            && t'.sessions[u].status ==
               if !answers(key) then COMPLETING
               else if fault == Aborted || QuotaError(t, x.owner, x.total, day) != None then OPEN else COMPLETE
  {
    hide RecordImageKey, Finished, QuotaError, CommitError;
    var key := ImageKey(x.receipt, t.now / DAY);
    var t2 := RecordImageKey(t1, u, key);
    var t3 := PutObject(t2, key, body);
    KeyKeepsBooks(t1, u, key);
    FinishedBooks(t3, x, u, rows, body, key, day, fault, removals);
    FinishedReceipt(t3, x, u, rows, body, key, day, fault, removals);
    SameQuotaAnswer(t, t3, u, |body|, day);
  }

  lemma FinishedReceipt(t: Tables, row: Session, u: UploadId, rows: seq<Part>, body: Bytes, key: Key, day: DayVerdict,
      fault: Fault, removals: Key -> Removal)
    ensures var answer := Finished(t, row, u, rows, body, key, day, fault, removals).1;
            answer.Accepted? ==> answer == Accepted(row.receipt, false)
  {
    hide CommitError, Commit, Swept, Compensated;
  }

  // ---------------------------------------------------------------- the service

  class Server {
    var now: nat
    var nextUpload: UploadId
    var sessions: map<UploadId, Session>
    var sessionOf: map<ReceiptId, UploadId>
    var parts: map<(UploadId, nat), Part>
    var store: map<Key, Object>
    var orgs: map<OrgId, Organization>
    var sites: map<SiteId, Site>
    var receipts: map<ReceiptId, Receipt>
    var audited: multiset<ReceiptId>
    var queued: multiset<ReceiptId>
    var tombstones: map<ReceiptId, Tombstone>

    ghost function View(): Tables
      reads this
    {
      Tables(now, nextUpload, sessions, sessionOf, parts, store, orgs, sites, receipts, audited, queued, tombstones)
    }

    method CreateUploadSession(device: Device, request: Request, paused: bool, vendorKnown: bool)
        returns (answer: CreateAnswer)
      modifies `nextUpload, `sessions, `sessionOf
      ensures answer == CreateAnswerFor(old(View()), device, request, paused, vendorKnown)
      ensures View() == Create(old(View()), device, request, paused, vendorKnown)
    {
      var r := request.receipt;
      if request.total == 0 || request.total > MAX_IMAGE_BYTES { return CreateRefused(InvalidRequest); }
      if paused { return CreateRefused(LocalStorageLimitReached); }
      if r in receipts && receipts[r].owner == device {
        return if receipts[r].digest != request.digest then CreateRefused(ReceiptChecksumConflict) else Received(r);
      }
      if r in sessionOf && sessionOf[r] in sessions && sessions[sessionOf[r]].owner == device {
        return if sessions[sessionOf[r]].digest != request.digest then CreateRefused(UploadChecksumConflict)
          else Opened(sessionOf[r]);
      }
      if !(device.site in sites && sites[device.site].active && sites[device.site].org == device.org
           && device.org in orgs && orgs[device.org].active) {
        return CreateRefused(SiteInactive);
      }
      if request.total > sites[device.site].imageLimit { return CreateRefused(ImageTooLarge); }
      if 10 * (orgs[device.org].stored + request.total) > 9 * orgs[device.org].storageLimit {
        return CreateRefused(TenantStoragePaused);
      }
      if !vendorKnown { return CreateRefused(InvalidVendor); }
      if r in sessionOf { return CreateRefused(ReceiptIdTaken); }
      answer := Opened(nextUpload);
      sessions := sessions[nextUpload := Session(r, device, request.total, request.digest, OPEN, now, now, None)];
      sessionOf := sessionOf[r := nextUpload];
      nextUpload := nextUpload + 1;
    }

    method PutUploadPart(sha: Hash, device: Device, u: UploadId, n: int, body: Bytes, declared: Digest)
        returns (answer: PartAnswer)
      modifies `parts, `store
      ensures answer == CheckPart(old(View()), sha, device, u, n, body, declared)
      ensures View() == PartPut(old(View()), sha, device, u, n, body, declared)
    {
      if !(u in sessions && sessions[u].owner == device) || now >= sessions[u].created + DAY
        || sessions[u].status != OPEN {
        return PartRefused(UploadNotOpen);
      }
      var offset := n * PART_SIZE;
      if n < 0 || offset >= sessions[u].total { return PartRefused(PartOutOfRange); }
      if |body| != Min(PART_SIZE, sessions[u].total - offset) { return PartRefused(PartLengthMismatch); }
      var actual := sha(body);
      if actual != declared { return PartRefused(PartChecksumMismatch); }
      if (u, n) in parts {
        return if parts[(u, n)].digest != actual || parts[(u, n)].length != |body| then PartRefused(PartConflict)
          else AlreadyStored;
      }
      store := store[PartKey(u, n) := Object(body, now)];
      parts := parts[(u, n) := Part(offset, |body|, actual, PartKey(u, n))];
      answer := Proceed;
    }

    method ClaimUpload(device: Device, u: UploadId) returns (answer: ClaimAnswer)
      modifies `sessions
      ensures answer == ClaimAnswerFor(old(View()), device, u)
      ensures View() == Claim(old(View()), device, u)
    {
      if u in sessions && sessions[u].owner == device && sessions[u].status == OPEN {
        var rows := SelectParts(u);
        sessions := sessions[u := sessions[u].(status := COMPLETING, updated := now)];
        return Claimed(rows);
      }
      if u in sessions && sessions[u].owner.id == device.id && sessions[u].status == COMPLETE {
        return Duplicate(sessions[u].receipt);
      }
      answer := ClaimRefused(UploadNotOpen);
    }

    /** The part rows of a session by rising part number. */
    method SelectParts(u: UploadId) returns (rows: seq<Part>)
      requires u in sessions
      ensures rows == RowsOf(View(), u)
    {
      rows := [];
      var n := PartCount(sessions[u].total);
      while n > 0
        invariant 0 <= n <= PartCount(sessions[u].total)
        invariant rows == PartRows(View(), u, n, PartCount(sessions[u].total))
        decreases n
      {
        n := n - 1;
        if (u, n) in parts { rows := [parts[(u, n)]] + rows; }
      }
    }

    method SetUploadStatus(u: UploadId, expected: Status, next: Status)
      modifies `sessions
      ensures View() == SetStatus(old(View()), u, expected, next)
    {
      if u in sessions && sessions[u].status == expected {
        sessions := sessions[u := sessions[u].(status := next, updated := now)];
      }
    }

    /** Fetches and joins the parts, confirming each offset. */
    method ReadParts(rows: seq<Part>, answers: Key -> bool) returns (assembly: Assembly)
      ensures assembly == Assemble(store, rows, answers, 0, [])
    {
      var combined: Bytes := [];
      var confirmed := 0;
      for i := 0 to |rows|
        invariant confirmed == |combined|
        invariant Assemble(store, rows, answers, i, combined) == Assemble(store, rows, answers, 0, [])
      {
        if rows[i].offset != confirmed { return Broken(UploadIncomplete); }
        if !answers(rows[i].key) || rows[i].key !in store { return Broken(ObjectStoreFailed); }
        var bytes := store[rows[i].key].body;
        if |bytes| != rows[i].length { return Broken(UploadPartMissing); }
        combined := combined + bytes;
        confirmed := confirmed + |bytes|;
      }
      assembly := Whole(combined);
    }

    method RecordImage(u: UploadId, key: Key)
      modifies `sessions
      ensures View() == RecordImageKey(old(View()), u, key)
    {
      if u in sessions && sessions[u].status == COMPLETING {
        sessions := sessions[u := sessions[u].(image := Some(key), updated := now)];
      }
    }

    method Put(key: Key, body: Bytes)
      modifies `store
      ensures View() == PutObject(old(View()), key, body)
    {
      store := store[key := Object(body, now)];
    }

    method Remove(key: Key, removal: Removal)
      modifies `store
      ensures View() == AfterRemoval(old(View()), key, removal)
    {
      if removal != Untouched { store := store - {key}; }
    }

    /** The checks of the committing transaction, in its order. */
    method CheckQuota(u: UploadId, bytes: nat, day: DayVerdict) returns (error: Option<Error>)
      ensures error == CommitError(View(), u, bytes, day)
    {
      if u !in sessions || sessions[u].status != COMPLETING { return Some(UploadCompletionConflict); }
      var device := sessions[u].owner;
      if !(device.site in sites && sites[device.site].active && sites[device.site].org == device.org
           && device.org in orgs && orgs[device.org].active) {
        return Some(SiteInactive);
      }
      if day == SiteFull { return Some(DailyLimit); }
      if day == OrganizationFull { return Some(TenantDailyLimit); }
      if orgs[device.org].stored + bytes > UploadCap(orgs[device.org].storageLimit) { return Some(TenantStorageLimit); }
      error := None;
    }

    method CommitUpload(u: UploadId, body: Bytes, key: Key, digest: Digest, day: DayVerdict)
        returns (error: Option<Error>)
      modifies `sessions, `orgs, `receipts, `audited, `queued
      ensures error == CommitError(old(View()), u, |body|, day)
      ensures View() == Commit(old(View()), u, body, key, digest, day)
      ensures error.Some? ==> View() == old(View())
    {
      hide CommitError, Commit;
      error := CheckQuota(u, |body|, day);
      if error.Some? {
        Refused(View(), u, body, key, digest, day);
        return;
      }
      Chargeable(View(), u, |body|, day);
      Charge(sessions[u].owner.org, |body|);
      InsertReceipt(sessions[u].receipt, Receipt(sessions[u].owner, key, |body|, digest, now, false));
      Finish(u);
      Charged(old(View()), View(), u, body, key, digest, day);
    }

    method Finish(u: UploadId)
      requires u in sessions
      modifies `sessions
      ensures sessions == old(sessions[u := sessions[u].(status := COMPLETE, updated := now)])
    {
      sessions := sessions[u := sessions[u].(status := COMPLETE, updated := now)];
    }

    method Charge(org: OrgId, bytes: nat)
      requires org in orgs
      modifies `orgs
      ensures orgs == old(orgs[org := orgs[org].(stored := orgs[org].stored + bytes)])
    {
      orgs := orgs[org := orgs[org].(stored := orgs[org].stored + bytes)];
    }

    /** The receipt with its audit event and its outbox row. */
    method InsertReceipt(r: ReceiptId, row: Receipt)
      modifies `receipts, `audited, `queued
      ensures receipts == old(receipts)[r := row]
      ensures audited == old(audited) + multiset{r} && queued == old(queued) + multiset{r}
    {
      receipts := receipts[r := row];
      audited := audited + multiset{r};
      queued := queued + multiset{r};
    }

    method DeleteRows(u: UploadId)
      modifies `parts
      ensures View() == DeletePartRows(old(View()), u)
    {
      parts := map k | k in parts && k.0 != u :: parts[k];
    }

    /** Deletes the part objects of a finished session, and its rows if every object went. */
    method SweepParts(u: UploadId, rows: seq<Part>, removals: Key -> Removal)
      modifies `parts, `store
      ensures View() == Swept(old(View()), u, rows, 0, true, removals)
    {
      hide AfterRemoval, DeletePartRows;
      var clean := true;
      for i := 0 to |rows|
        invariant Swept(View(), u, rows, i, clean, removals) == Swept(old(View()), u, rows, 0, true, removals)
      {
        Remove(rows[i].key, removals(rows[i].key));
        if removals(rows[i].key) != Removed { clean := false; }
      }
      if clean { DeleteRows(u); }
    }

    /** The image is taken back and the session handed out again. */
    method Compensate(u: UploadId, key: Key, removals: Key -> Removal)
      modifies `sessions, `store
      ensures View() == Compensated(old(View()), u, key, removals)
    {
      hide AfterRemoval, SetStatus;
      Remove(key, removals(key));
      SetUploadStatus(u, COMPLETING, OPEN);
    }

    /** The committing transaction, and the compensation when it raises or seems to. */
    method FinishUpload(ghost row: Session, u: UploadId, receipt: ReceiptId, rows: seq<Part>, body: Bytes, key: Key,
        digest: Digest,
                        day: DayVerdict, fault: Fault, removals: Key -> Removal)
      returns (answer: CompleteAnswer)
      requires receipt == row.receipt && digest == row.digest
      modifies this
      ensures (View(), answer) == Finished(old(View()), row, u, rows, body, key, day, fault, removals)
    {
      hide Commit, CommitError, Compensated, Swept;
      if fault == Aborted {
        Compensate(u, key, removals);
        return CompleteRefused(DatabaseFailed);
      }
      var error := CommitUpload(u, body, key, digest, day);
      if error.Some? {
        Compensate(u, key, removals);
        return CompleteRefused(error.value);
      }
      if fault == ReplyLost {
        Compensate(u, key, removals);
        return CompleteRefused(DatabaseFailed);
      }
      SweepParts(u, rows, removals);
      answer := Accepted(receipt, false);
    }

    /** From the assembled body on: the image is named, stored and committed, or taken back. */
    method StoreAndFinish(ghost row: Session, u: UploadId, receipt: ReceiptId, rows: seq<Part>, body: Bytes,
        digest: Digest,
                          day: DayVerdict, fault: Fault, answers: Key -> bool, removals: Key -> Removal)
      returns (answer: CompleteAnswer)
      requires receipt == row.receipt && digest == row.digest
      modifies this
      ensures (View(), answer) == StoredAndFinished(old(View()), row, u, rows, body, day, fault, answers, removals)
    {
      hide RecordImageKey, PutObject, Finished;
      var key := ImageKey(receipt, now / DAY);
      RecordImage(u, key);
      if !answers(key) { return CompleteRefused(ObjectStoreFailed); }
      Put(key, body);
      answer := FinishUpload(row, u, receipt, rows, body, key, digest, day, fault, removals);
    }

    /** The completion endpoint, statement by statement. */
    method CompleteUploadSession(sha: Hash, device: Device, u: UploadId, day: DayVerdict, fault: Fault,
        answers: Key -> bool, removals: Key -> Removal)
      returns (answer: CompleteAnswer)
      modifies this
      ensures (View(), answer) == Completed(sha, old(View()), device, u, day, fault, answers, removals)
    {
      hide Claim, SetStatus, IsWebp, Assemble, RowsOf, StoredAndFinished;
      ghost var t := View();
      var claim := ClaimUpload(device, u);
      if !claim.Claimed? {
        Unclaimed(t, device, u);
        return if claim.Duplicate? then Accepted(claim.receipt, true) else CompleteRefused(claim.error);
      }
      ClaimedRow(t, device, u);
      var session := sessions[u];
      var rows := claim.parts;
      var assembly := ReadParts(rows, answers);
      if assembly.Broken? {
        SetUploadStatus(u, COMPLETING, OPEN);
        return CompleteRefused(assembly.error);
      }
      var body := assembly.body;
      if |body| != session.total {
        SetUploadStatus(u, COMPLETING, OPEN);
        return CompleteRefused(UploadIncomplete);
      }
      if !IsWebp(body) {
        SetUploadStatus(u, COMPLETING, FAILED);
        return CompleteRefused(InvalidImage);
      }
      if sha(body) != session.digest {
        SetUploadStatus(u, COMPLETING, FAILED);
        return CompleteRefused(ChecksumMismatch);
      }
      answer := StoreAndFinish(t.sessions[u], u, session.receipt, rows, body, session.digest, day, fault, answers,
        removals);
    }

    /** The clean-up of one session the pass selected: objects first, then rows and status. An
        object that cannot be deleted leaves the session for a later pass. */
    method CleanUpSession(u: UploadId, removals: Key -> Removal)
      requires u in sessions
      modifies `sessions, `parts, `store
      ensures var x := old(sessions)[u];
              View() == CleanedUp(old(View()), u, Doomed(old(View()), u, x.status, x.image), removals)
    {
      hide AfterRemoval, Doomed, RowsOf, Expire;
      var todo := DoomedKeys(u, sessions[u].status, sessions[u].image);
      ghost var all := todo;
      while todo != []
        invariant CleanedUp(View(), u, todo, removals) == CleanedUp(old(View()), u, all, removals)
      {
        Remove(todo[0], removals(todo[0]));
        if removals(todo[0]) != Removed { return; }
        todo := todo[1..];
      }
      ExpireUpload(u);
    }

    /** The part keys of a session by part number, and its image key unless it was seen complete. */
    method DoomedKeys(u: UploadId, saw: Status, image: Option<Key>) returns (keys: seq<Key>)
      requires u in sessions
      ensures keys == Doomed(View(), u, saw, image)
    {
      var rows := SelectParts(u);
      keys := seq(|rows|, i requires 0 <= i < |rows| => rows[i].key);
      assert keys == KeysOf(rows);
      keys := keys + (if saw != COMPLETE && image.Some? then [image.value] else []);
    }

    /** Part rows and status in one transaction. */
    method ExpireUpload(u: UploadId)
      modifies `parts, `sessions
      ensures View() == Expire(old(View()), u)
    {
      DeleteRows(u);
      SetUploadStatus(u, OPEN, EXPIRED);
      SetUploadStatus(u, COMPLETING, EXPIRED);
    }

    /** One image of the retention pass. The tombstone is committed before the object is touched. */
    method RetainImage(r: ReceiptId, removals: Key -> Removal) returns (deleted: bool)
      requires r in receipts
      modifies `tombstones, `store, `receipts, `orgs
      ensures (View(), deleted) == Retained(old(View()), r, old(receipts)[r].key, removals)
    {
      hide AfterRemoval, FinishImage, SetTombstone;
      var key := receipts[r].key;
      Entomb(r, PENDING);
      Remove(key, removals(key));
      deleted := removals(key) == Removed;
      if !deleted {
        Entomb(r, FAILED_RETRYABLE);
        return;
      }
      ReleaseImage(r);
    }

    method Entomb(r: ReceiptId, stone: Tombstone)
      modifies `tombstones
      ensures View() == SetTombstone(old(View()), r, stone)
    {
      tombstones := tombstones[r := stone];
    }

    method ReleaseImage(r: ReceiptId)
      modifies `tombstones, `receipts, `orgs
      ensures View() == FinishImage(old(View()), r)
    {
      tombstones := tombstones[r := COMPLETED];
      if r in receipts && !receipts[r].imageDeleted {
        var org, bytes := receipts[r].owner.org, receipts[r].bytes;
        receipts := receipts[r := receipts[r].(imageDeleted := true)];
        if org in orgs { orgs := orgs[org := orgs[org].(stored := Max(0, orgs[org].stored - bytes))]; }
      }
    }

    /** DELETE … WHERE receipt_id = ANY(rs). */
    method DeleteOf(rows: multiset<ReceiptId>, rs: set<ReceiptId>) returns (kept: multiset<ReceiptId>)
      ensures kept == Without(rows, rs)
    {
      kept := rows;
      var left := rs;
      while left != {}
        invariant left <= rs
        invariant forall r :: kept[r] == if r in rs - left then 0 else rows[r]
        decreases |left|
      {
        var r :| r in left;
        kept := kept[r := 0];
        left := left - {r};
      }
    }

    /** The one-year deletion for the receipts of one organization. */
    method PurgeReceipts(rs: set<ReceiptId>)
      modifies `sessions, `sessionOf, `parts, `receipts, `audited, `queued
      ensures View() == Purge(old(View()), rs)
    {
      hide Without;
      DeleteSessions(rs);
      DeleteReceipts(rs);
    }

    method DeleteReceipts(rs: set<ReceiptId>)
      modifies `receipts, `audited, `queued
      ensures receipts == old(receipts) - rs && audited == Without(old(audited), rs)
              && queued == Without(old(queued), rs)
    {
      audited := DeleteOf(audited, rs);
      queued := DeleteOf(queued, rs);
      receipts := receipts - rs;
    }

    /** Sessions go with their part rows. */
    method DeleteSessions(rs: set<ReceiptId>)
      modifies `sessions, `sessionOf, `parts
      ensures sessions == Purge(old(View()), rs).sessions
      ensures sessionOf == Purge(old(View()), rs).sessionOf
      ensures parts == Purge(old(View()), rs).parts
    {
      hide Without;
      var doomed := set u | u in sessions && sessions[u].receipt in rs;
      parts := map k | k in parts && k.0 !in doomed :: parts[k];
      sessions := sessions - doomed;
      sessionOf := sessionOf - rs;
    }
  }
}
