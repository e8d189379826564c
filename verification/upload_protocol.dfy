/** The upload service as a protocol: any number of requests, clean-up passes and retention
    passes, each a process that holds only what it has read, take turns committing one
    transaction or one object-store request at a time, and may stop for good at any point. */
module UploadProtocol {
  import opened Basics
  import opened Sums
  import opened UploadTables

  type ProcId = nat

  datatype RetentionStage = Chosen | Marked | Dropped | Undropped

  /** What a running request or job remembers between two of its transactions. `row` is the
      session row returned when the session was claimed, `parts` the rows read with it. */
  datatype Process =
    | Putting(upload: UploadId, number: nat, body: Bytes, written: bool)
    | Reading(upload: UploadId, row: Session, parts: seq<Part>, next: nat, body: Bytes)
    | Assembled(upload: UploadId, row: Session, parts: seq<Part>, body: Bytes)
    | Keyed(upload: UploadId, row: Session, parts: seq<Part>, body: Bytes, key: Key)
    | Stored(upload: UploadId, row: Session, parts: seq<Part>, body: Bytes, key: Key)
    | Compensating(upload: UploadId, key: Key)
    | Releasing(upload: UploadId, to: Status)
    | Sweeping(upload: UploadId, parts: seq<Part>, next: nat, clean: bool)
    | Selected(upload: UploadId, saw: Status, image: Option<Key>)
    | Cleaning(upload: UploadId, saw: Status, todo: seq<Key>)
    | Listed(key: Key)
    | Untracked(key: Key)
    | Retaining(receipt: ReceiptId, key: Key, stage: RetentionStage)

  /** What has happened, kept for the statements of the theorems only. */
  datatype Opening = Opening(receipt: ReceiptId, digest: Digest)
  datatype History = History(
    openings: map<UploadId, Opening>,     // every session ever opened
    charged: multiset<UploadId>,        // every increment of stored_image_bytes
    leaked: map<OrgId, nat>)            // bytes of receipts deleted with their image still counted

  datatype State = State(t: Tables, procs: map<ProcId, Process>, h: History)

  datatype Fault = NoFault | Aborted | ReplyLost

  /** How a deletion request ends: done, raised without effect, or raised although the object went.
      A clean-up pass that meets an error goes no further with its session, which is a `Crash`. */
  datatype Removal = Removed | Untouched | Unanswered

  datatype Step =
    | OpenSession(device: Device, request: Request, paused: bool, vendorKnown: bool)
    | PutCheck(p: ProcId, device: Device, u: UploadId, n: nat, body: Bytes, declared: Digest)
    | PutWrite(p: ProcId)
    | PutInsert(p: ProcId)
    | ClaimSession(p: ProcId, device: Device, u: UploadId)
    | ReadPart(p: ProcId, fails: bool)
    | Inspect(p: ProcId)
    | RecordKey(p: ProcId)
    | WriteImage(p: ProcId)
    | CommitReceipt(p: ProcId, day: DayVerdict, fault: Fault)
    | DeleteImage(p: ProcId, ok: bool)
    | Release(p: ProcId)
    | SweepPart(p: ProcId, removal: Removal)
    | SweepRows(p: ProcId)
    | SelectStale(p: ProcId, u: UploadId)
    | LoadKeys(p: ProcId)
    | DeleteKey(p: ProcId)
    | ExpireSession(p: ProcId)
    | ListObject(p: ProcId, key: Key)
    | CheckTracked(p: ProcId)
    | DeleteUntracked(p: ProcId)
    | SelectImage(p: ProcId, r: ReceiptId)
    | MarkImage(p: ProcId)
    | DropImage(p: ProcId, removal: Removal)
    | FinishRetention(p: ProcId)
    | PurgeReceipts(org: OrgId, rs: set<ReceiptId>)
    | SetQuota(org: OrgId, limit: nat)
    | Crash(p: ProcId)
    | Tick(seconds: nat)

  // ---------------------------------------------------------------- the transitions

  ghost predicate PartBusy(s: State, u: UploadId, n: nat) {
    exists p :: p in s.procs && s.procs[p].Putting? && s.procs[p].upload == u && s.procs[p].number == n
  }

  ghost function Set(s: State, p: ProcId, proc: Process): State { s.(procs := s.procs[p := proc]) }

  ghost function End(s: State, p: ProcId): State { s.(procs := s.procs - {p}) }

  /** The bytes of every receipt of the organization whose image is not marked deleted. */
  ghost function LiveBytes(receipts: map<ReceiptId, Receipt>, org: OrgId): map<ReceiptId, nat> {
    map r | r in receipts && receipts[r].owner.org == org && !receipts[r].imageDeleted :: receipts[r].bytes
  }

  ghost function LeakedBytes(leaked: map<OrgId, nat>, org: OrgId): nat { if org in leaked then leaked[org] else 0 }

  ghost function BytesIn(receipts: map<ReceiptId, Receipt>, org: OrgId, rs: set<ReceiptId>): nat {
    Sum(Inside(LiveBytes(receipts, org), rs))
  }

  ghost function LeakMore(leaked: map<OrgId, nat>, receipts: map<ReceiptId, Receipt>, org: OrgId,
      rs: set<ReceiptId>): map<OrgId, nat> {
    leaked[org := LeakedBytes(leaked, org) + BytesIn(receipts, org, rs)]
  }

  ghost function AfterOpen(s: State, device: Device, request: Request, paused: bool, vendorKnown: bool): State {
    var t' := Create(s.t, device, request, paused, vendorKnown);
    if t'.nextUpload == s.t.nextUpload then s
    else s.(t := t', h := s.h.(openings := s.h.openings[s.t.nextUpload := Opening(request.receipt, request.digest)]))
  }

  /** One part object is fetched and appended, or the attempt is given up. */
  ghost function AfterRead(s: State, p: ProcId, c: Process, fails: bool): State
    requires c.Reading? && c.next < |c.parts|
  {
    var part := c.parts[c.next];
    if fails || part.offset != |c.body| || part.key !in s.t.store || |s.t.store[part.key].body| != part.length then
      Set(s, p, Releasing(c.upload, OPEN))
    else Set(s, p, c.(next := c.next + 1, body := c.body + s.t.store[part.key].body))
  }

  ghost function AfterInspect(sha: Hash, s: State, p: ProcId, c: Process): State
    requires c.Reading?
  {
    if |c.body| != c.row.total then Set(s, p, Releasing(c.upload, OPEN))
    else if !IsWebp(c.body) || sha(c.body) != c.row.digest then Set(s, p, Releasing(c.upload, FAILED))
    else Set(s, p, Assembled(c.upload, c.row, c.parts, c.body))
  }

  ghost function AfterCommit(s: State, p: ProcId, c: Process, day: DayVerdict, fault: Fault): State
    requires c.Stored?
  {
    if fault == Aborted || CommitError(s.t, c.upload, |c.body|, day) != None then
      Set(s, p, Compensating(c.upload, c.key))
    else
      State(Commit(s.t, c.upload, c.body, c.key, c.row.digest, day),
            s.procs[p :=
              if fault == ReplyLost then Compensating(c.upload, c.key) else Sweeping(c.upload, c.parts, 0, true)],
            s.h.(charged := s.h.charged + multiset{c.upload}))
  }

  function AfterRemoval(t: Tables, key: Key, removal: Removal): Tables {
    if removal == Untouched then t else DeleteObject(t, key)
  }

  ghost predicate Purgeable(t: Tables, org: OrgId, rs: set<ReceiptId>) {
    forall r :: r in rs ==>
      r in t.receipts && t.receipts[r].owner.org == org && t.receipts[r].created + 365 * DAY < t.now
  }

  /** A step whose guard does not hold leaves the state as it is. */
  ghost function Next(sha: Hash, s: State, step: Step): State {
    match step
    case OpenSession(device, request, paused, vendorKnown) => AfterOpen(s, device, request, paused, vendorKnown)
    case PutCheck(p, device, u, n, body, declared) =>
      if p !in s.procs && !PartBusy(s, u, n) && CheckPart(s.t, sha, device, u, n, body, declared) == Proceed
      then Set(s, p, Putting(u, n, body, false)) else s
    case ClaimSession(p, device, u) =>
      if p !in s.procs && ClaimAnswerFor(s.t, device, u).Claimed?
      then Set(s, p, Reading(u, s.t.sessions[u], RowsOf(s.t, u), 0, [])).(t := Claim(s.t, device, u)) else s
    case SelectStale(p, u) =>
      if p !in s.procs && u in s.t.sessions && Stale(s.t, u)
      then Set(s, p, Selected(u, s.t.sessions[u].status, s.t.sessions[u].image)) else s
    case ListObject(p, key) =>
      if p !in s.procs && key.PartKey? && key in s.t.store && s.t.store[key].modified + 25 * HOUR < s.t.now
      then Set(s, p, Listed(key)) else s
    case SelectImage(p, r) =>
      if p !in s.procs && r in s.t.receipts && !s.t.receipts[r].imageDeleted
        && s.t.receipts[r].created + 90 * DAY < s.t.now
      then Set(s, p, Retaining(r, s.t.receipts[r].key, Chosen)) else s
    case PurgeReceipts(org, rs) =>
      if Purgeable(s.t, org, rs)
      then s.(t := Purge(s.t, rs),
              h := s.h.(leaked := LeakMore(s.h.leaked, s.t.receipts, org, rs)))
      else s
    case SetQuota(org, limit) =>
      if org in s.t.orgs then s.(t := s.t.(orgs := s.t.orgs[org := s.t.orgs[org].(storageLimit := limit)])) else s
    case Crash(p) => End(s, p)
    case Tick(seconds) => s.(t := s.t.(now := s.t.now + seconds))
    case _ => if step.p in s.procs then Continue(sha, s, step, s.procs[step.p]) else s
  }

  /** The next step of a process that is already running. */
  ghost function Continue(sha: Hash, s: State, step: Step, c: Process): State
    requires !step.PurgeReceipts? && !step.SetQuota? && !step.Tick? && !step.OpenSession?
    requires step.p in s.procs && s.procs[step.p] == c
  {
    var p := step.p;
    match (step, c)
    case (PutWrite(_), Putting(u, n, body, written)) =>
      if written then s else Set(s, p, c.(written := true)).(t := PutObject(s.t, PartKey(u, n), body))
    case (PutInsert(_), Putting(u, n, body, written)) =>
      if written then End(s, p).(t := InsertPart(s.t, sha, u, n, body)) else s
    case (ReadPart(_, fails), Reading(_, _, parts, next, _)) =>
      if next < |parts| then AfterRead(s, p, c, fails) else s
    case (Inspect(_), Reading(_, _, parts, next, _)) =>
      if next >= |parts| then AfterInspect(sha, s, p, c) else s
    case (RecordKey(_), Assembled(u, row, parts, body)) =>
      var key := ImageKey(row.receipt, s.t.now / DAY);
      Set(s, p, Keyed(u, row, parts, body, key)).(t := RecordImageKey(s.t, u, key))
    case (WriteImage(_), Keyed(u, row, parts, body, key)) =>
      Set(s, p, Stored(u, row, parts, body, key)).(t := PutObject(s.t, key, body))
    case (CommitReceipt(_, day, fault), Stored(_, _, _, _, _)) => AfterCommit(s, p, c, day, fault)
    case (DeleteImage(_, ok), Compensating(u, key)) =>
      Set(s, p, Releasing(u, OPEN)).(t := if ok then DeleteObject(s.t, key) else s.t)
    case (Release(_), Releasing(u, to)) => End(s, p).(t := SetStatus(s.t, u, COMPLETING, to))
    case (SweepPart(_, removal), Sweeping(_, parts, next, clean)) =>
      if next < |parts| then
        Set(s, p, c.(next := next + 1, clean := clean && removal == Removed)).(t :=
          AfterRemoval(s.t, parts[next].key, removal))
      else s
    case (SweepRows(_), Sweeping(u, parts, next, clean)) =>
      if next >= |parts| then End(s, p).(t := if clean then DeletePartRows(s.t, u) else s.t) else s
    case (LoadKeys(_), Selected(u, saw, image)) => Set(s, p, Cleaning(u, saw, Doomed(s.t, u, saw, image)))
    case (DeleteKey(_), Cleaning(_, _, todo)) =>
      if todo != [] then Set(s, p, c.(todo := todo[1..])).(t := DeleteObject(s.t, todo[0])) else s
    case (ExpireSession(_), Cleaning(u, _, todo)) => if todo == [] then End(s, p).(t := Expire(s.t, u)) else s
    case (CheckTracked(_), Listed(key)) =>
      if exists k :: k in s.t.parts && s.t.parts[k].key == key then End(s, p) else Set(s, p, Untracked(key))
    case (DeleteUntracked(_), Untracked(key)) => End(s, p).(t := DeleteObject(s.t, key))
    case (MarkImage(_), Retaining(r, _, Chosen)) => Set(s, p, c.(stage := Marked)).(t := SetTombstone(s.t, r, PENDING))
    case (DropImage(_, removal), Retaining(_, key, Marked)) =>
      Set(s, p, c.(stage := if removal == Removed then Dropped else Undropped)).(t := AfterRemoval(s.t, key, removal))
    case (FinishRetention(_), Retaining(r, _, Dropped)) => End(s, p).(t := FinishImage(s.t, r))
    case (FinishRetention(_), Retaining(r, _, Undropped)) => End(s, p).(t := SetTombstone(s.t, r, FAILED_RETRYABLE))
    case _ => s
  }

  ghost function Run(sha: Hash, s: State, steps: seq<Step>): State
    decreases |steps|
  {
    if steps == [] then s else Run(sha, Next(sha, s, steps[0]), steps[1..])
  }

  lemma RunCons(sha: Hash, s: State, a: Step, rest: seq<Step>)
    ensures Run(sha, s, [a] + rest) == Run(sha, Next(sha, s, a), rest)
  {
    hide Next;
    assert ([a] + rest)[1..] == rest;
  }

  /** A run may be cut anywhere: running one list of steps and then another is running both. */
  lemma {:induction false} RunAppend(sha: Hash, s: State, a: seq<Step>, b: seq<Step>)
    ensures Run(sha, s, a + b) == Run(sha, Run(sha, s, a), b)
    decreases |a|
  {
    hide Next;
    if a == [] {
      assert a + b == b;
    } else {
      assert (a + b)[1..] == a[1..] + b;
      RunAppend(sha, Next(sha, s, a[0]), a[1..], b);
    }
  }

  /** A new deployment: configured organizations and sites, nothing uploaded yet. */
  ghost predicate Init(s: State) {
    && s.t.nextUpload == 0 && s.t.sessions == map[] && s.t.sessionOf == map[] && s.t.parts == map[]
    && s.t.store == map[] && s.t.receipts == map[] && s.t.audited == multiset{} && s.t.queued == multiset{}
    && s.t.tombstones == map[] && s.procs == map[] && s.h == History(map[], multiset{}, map[])
    && forall o :: o in s.t.orgs ==> s.t.orgs[o].stored == 0
  }

  /** Some run leads from one state to the other. */
  ghost predicate Reaches(sha: Hash, a: State, b: State) { exists steps: seq<Step> :: Run(sha, a, steps) == b }

  /** Some run from a new deployment ends in this state. */
  ghost predicate Reachable(sha: Hash, s: State) {
    exists s0: State, steps: seq<Step> :: Init(s0) && Run(sha, s0, steps) == s
  }

  // ---------------------------------------------------------------- the invariant

  /** Before its session is handed back or committed, a completion owns it. */
  predicate Owner(c: Process) {
    c.Reading? || c.Assembled? || c.Keyed? || c.Stored? || c.Compensating? || c.Releasing?
  }

  type Sessions = map<UploadId, Session>
  type Parts = map<(UploadId, nat), Part>
  type Store = map<Key, Object>
  type Receipts = map<ReceiptId, Receipt>

  /** Sessions and the unique index on their receipts agree; ids come from a counter. */
  ghost predicate IndexInv(sessions: Sessions, sessionOf: map<ReceiptId, UploadId>, nextUpload: nat, now: nat) {
    && (forall u :: u in sessions ==>
      SessionOk(sessions[u], nextUpload, now, u) && sessions[u].receipt in sessionOf
      && sessionOf[sessions[u].receipt] == u)
    && (forall r :: r in sessionOf ==> sessionOf[r] in sessions && sessions[sessionOf[r]].receipt == r)
  }

  predicate SessionOk(x: Session, nextUpload: nat, now: nat, u: UploadId) {
    && u < nextUpload && 0 < x.total <= MAX_IMAGE_BYTES && x.created <= x.updated <= now
    && (x.image.Some? ==> ImageOf(x.image.value, x.receipt))
  }

  /** Exactly the receipts of complete sessions exist, with one audit event and one outbox row each. */
  ghost predicate ReceiptInv(sessions: Sessions, sessionOf: map<ReceiptId, UploadId>, receipts: Receipts) {
    && (forall u :: u in sessions ==> (sessions[u].status == COMPLETE <==> sessions[u].receipt in receipts))
    && (forall r :: r in receipts ==>
          && r in sessionOf && sessionOf[r] in sessions
          && ReceiptOk(receipts[r], sessions[sessionOf[r]], r))
  }

  predicate ReceiptOk(x: Receipt, session: Session, r: ReceiptId) {
    && session.receipt == r && ImageOf(x.key, r) && x.owner == session.owner && x.digest == session.digest
      && x.bytes == session.total
  }

  ghost predicate OncePer(m: multiset<ReceiptId>, receipts: Receipts) {
    forall r :: m[r] == if r in receipts then 1 else 0
  }

  ghost predicate OrgInv(receipts: Receipts, orgs: map<OrgId, Organization>) {
    forall r :: r in receipts ==> receipts[r].owner.org in orgs
  }

  /** A part row lies where its number says, and its object, if still there, has its digest. */
  ghost predicate PartInv(sha: Hash, sessions: Sessions, parts: Parts, store: Store) {
    forall u, n :: (u, n) in parts ==> u in sessions && PartOk(sha, sessions[u].total, parts[(u, n)], u, n, store)
  }

  predicate PartOk(sha: Hash, total: nat, row: Part, u: UploadId, n: nat, store: Store) {
    && n * PART_SIZE < total && row.offset == n * PART_SIZE && row.length == PartLength(total, n)
      && row.key == PartKey(u, n)
    && (row.key in store ==> |store[row.key].body| == row.length && sha(store[row.key].body) == row.digest)
  }

  /** Part objects are no older than their sessions. */
  ghost predicate AgeInv(sessions: Sessions, store: Store, nextUpload: nat, now: nat) {
    forall k :: k in store && k.PartKey? ==>
      && k.upload < nextUpload && store[k].modified <= now
      && (k.upload in sessions ==> sessions[k.upload].created <= store[k].modified)
  }

  ghost predicate OpeningInv(sessions: Sessions, nextUpload: nat, openings: map<UploadId, Opening>) {
    && (forall u: UploadId :: u in openings <==> u < nextUpload)
    && (forall u :: u in sessions ==> u in openings && openings[u] == Opening(sessions[u].receipt, sessions[u].digest))
  }

  ghost predicate ChargeInv(sessions: Sessions, nextUpload: nat, charged: multiset<UploadId>) {
    && (forall u :: charged[u] <= 1 && (u in charged ==> u < nextUpload))
    && (forall u :: u in sessions ==> charged[u] == if sessions[u].status == COMPLETE then 1 else 0)
  }

  ghost predicate StorageInv(orgs: map<OrgId, Organization>, receipts: Receipts, leaked: map<OrgId, nat>) {
    forall o :: o in orgs ==> orgs[o].stored == Sum(LiveBytes(receipts, o)) + LeakedBytes(leaked, o)
  }

  /** The claimed session is still the one that was claimed. */
  ghost predicate Held(sessions: Sessions, u: UploadId, row: Session) {
    && u in sessions
    && sessions[u].receipt == row.receipt && sessions[u].owner == row.owner
    && sessions[u].total == row.total && sessions[u].digest == row.digest
    && (sessions[u].status == COMPLETING || sessions[u].status == EXPIRED)
  }

  ghost predicate Checked(sha: Hash, row: Session, body: Bytes) {
    |body| == row.total && sha(body) == row.digest && IsWebp(body)
  }

  ghost predicate GivenUp(sessions: Sessions, u: UploadId) {
    u in sessions ==>
      sessions[u].status == COMPLETING || sessions[u].status == EXPIRED || sessions[u].status == COMPLETE
  }

  predicate ImageOf(key: Key, r: ReceiptId) { key.ImageKey? && key.receipt == r }

  predicate PartOf(key: Key, u: UploadId) { key.PartKey? && key.upload == u }

  ghost predicate PartsOf(parts: seq<Part>, u: UploadId) {
    forall part :: part in parts ==> PartOf(part.key, u)
  }

  ghost predicate SeenComplete(sessions: Sessions, u: UploadId, saw: Status) {
    saw == COMPLETE && u in sessions ==> sessions[u].status == COMPLETE
  }

  /** A part object old enough to be listed belongs to no session younger than 25 hours. */
  ghost predicate Aged(sessions: Sessions, key: Key, nextUpload: nat, now: nat) {
    && key.PartKey? && key.upload < nextUpload
    && (key.upload in sessions ==> sessions[key.upload].created + 25 * HOUR < now)
  }

  /** A part being written fits its session, and no row or other object stands in its place. */
  ghost predicate PutOk(sessions: Sessions, parts: Parts, store: Store, u: UploadId, n: nat, body: Bytes,
      written: bool) {
    && (u, n) !in parts
    && (u in sessions ==> n * PART_SIZE < sessions[u].total && |body| == PartLength(sessions[u].total, n))
    && (written && PartKey(u, n) in store ==> store[PartKey(u, n)].body == body)
  }

  ghost predicate DoomedOk(todo: seq<Key>, u: UploadId, saw: Status) {
    forall k :: k in todo ==> PartOf(k, u) || (k.ImageKey? && saw != COMPLETE)
  }

  ghost predicate ProcOk(sha: Hash, t: Tables, c: Process) {
    && (c.Listed? || c.Untracked? || c.Retaining? || c.upload < t.nextUpload)
    && match c
       case Putting(u, n, body, written) => PutOk(t.sessions, t.parts, t.store, u, n, body, written)
       case Reading(u, row, parts, next, _) => Held(t.sessions, u, row) && PartsOf(parts, u) && next <= |parts|
       case Assembled(u, row, parts, body) => Held(t.sessions, u, row) && PartsOf(parts, u) && Checked(sha, row, body)
       case Keyed(u, row, parts, body, key) =>
         Held(t.sessions, u, row) && PartsOf(parts, u) && Checked(sha, row, body) && ImageOf(key, row.receipt)
       case Stored(u, row, parts, body, key) =>
         Held(t.sessions, u, row) && PartsOf(parts, u) && Checked(sha, row, body) && ImageOf(key, row.receipt)
       case Compensating(u, key) => GivenUp(t.sessions, u) && key.ImageKey?
       case Releasing(u, to) => GivenUp(t.sessions, u) && (to == OPEN || to == FAILED)
       case Sweeping(u, parts, next, _) => SeenComplete(t.sessions, u, COMPLETE) && PartsOf(parts, u) && next <= |parts|
       case Selected(u, saw, image) =>
         SeenComplete(t.sessions, u, saw) && saw != FAILED && saw != EXPIRED && (image.Some? ==> image.value.ImageKey?)
       case Cleaning(u, saw, todo) => SeenComplete(t.sessions, u, saw) && DoomedOk(todo, u, saw)
       case Listed(key) => Aged(t.sessions, key, t.nextUpload, t.now)
       case Untracked(key) => Aged(t.sessions, key, t.nextUpload, t.now)
       case Retaining(r, key, stage) => ImageOf(key, r) && (stage != Chosen ==> r in t.tombstones)
  }

  /** Two processes that may not run at once: completions of one session, writers of one part. */
  predicate Clash(a: Process, b: Process) {
    || (Owner(a) && Owner(b) && a.upload == b.upload)
    || (a.Putting? && b.Putting? && a.upload == b.upload && a.number == b.number)
  }

  ghost predicate Exclusive(procs: map<ProcId, Process>) {
    forall p, q :: p in procs && q in procs && p != q ==> !Clash(procs[p], procs[q])
  }

  ghost predicate ProcInv(sha: Hash, t: Tables, procs: map<ProcId, Process>) {
    forall p :: p in procs ==> ProcOk(sha, t, procs[p])
  }

  ghost predicate TablesInv(sha: Hash, t: Tables, h: History) {
    && IndexInv(t.sessions, t.sessionOf, t.nextUpload, t.now)
    && ReceiptInv(t.sessions, t.sessionOf, t.receipts) && OrgInv(t.receipts, t.orgs)
    && OncePer(t.audited, t.receipts) && OncePer(t.queued, t.receipts)
    && PartInv(sha, t.sessions, t.parts, t.store)
    && AgeInv(t.sessions, t.store, t.nextUpload, t.now)
    && OpeningInv(t.sessions, t.nextUpload, h.openings)
    && ChargeInv(t.sessions, t.nextUpload, h.charged)
    && StorageInv(t.orgs, t.receipts, h.leaked)
  }

  ghost predicate Inv(sha: Hash, s: State) {
    TablesInv(sha, s.t, s.h) && ProcInv(sha, s.t, s.procs) && Exclusive(s.procs)
  }
}
