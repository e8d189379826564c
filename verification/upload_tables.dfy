/** The shared tables of the upload service and, as functions on them, its transactions.
    Each function is one committed transaction or one object-store request; the class in
    upload_server.dfy carries them out step by step and the protocol in
    upload_protocol.dfy interleaves them. */
module UploadTables {
  import opened Basics

  const PART_SIZE: nat := 256_000
  const MAX_IMAGE_BYTES: nat := 5_000_000
  const MINUTE: nat := 60
  const HOUR: nat := 3_600
  const DAY: nat := 86_400

  type UploadId = nat
  type ReceiptId = nat
  type OrgId = nat
  type SiteId = nat

  /** An authenticated device, with the tenant and site its token belongs to. */
  datatype Device = Device(id: nat, org: OrgId, site: SiteId)

  datatype Status = OPEN | COMPLETING | COMPLETE | FAILED | EXPIRED

  predicate Terminal(s: Status) { s == COMPLETE || s == FAILED || s == EXPIRED }

  /** Object names. The part name carries the session and the part number, the image name the
      receipt and the calendar day of its completion. */
  datatype Key = PartKey(upload: UploadId, number: nat) | ImageKey(receipt: ReceiptId, day: nat)

  datatype Object = Object(body: Bytes, modified: nat)

  datatype Session = Session(
    receipt: ReceiptId, owner: Device, total: nat, digest: Digest,
    status: Status, created: nat, updated: nat, image: Option<Key>)

  datatype Part = Part(offset: nat, length: nat, digest: Digest, key: Key)

  datatype Receipt = Receipt(
    owner: Device, key: Key, bytes: nat, digest: Digest, created: nat, imageDeleted: bool)

  datatype Organization = Organization(storageLimit: nat, stored: nat, active: bool)
  datatype Site = Site(org: OrgId, imageLimit: nat, active: bool)
  datatype Tombstone = PENDING | FAILED_RETRYABLE | COMPLETED

  datatype Tables = Tables(
    now: nat,
    nextUpload: UploadId,
    sessions: map<UploadId, Session>,
    sessionOf: map<ReceiptId, UploadId>,        // the unique index on upload_sessions.receipt_id
    parts: map<(UploadId, nat), Part>,
    store: map<Key, Object>,
    orgs: map<OrgId, Organization>,
    sites: map<SiteId, Site>,
    receipts: map<ReceiptId, Receipt>,
    audited: multiset<ReceiptId>,               // RECEIVED rows of audit_events
    queued: multiset<ReceiptId>,                // RECEIPT_ENRICHMENT_QUEUE rows of the outbox
    tombstones: map<ReceiptId, Tombstone>)      // S3_IMAGE rows of retention_tombstones

  datatype Error =
    | LocalStorageLimitReached | InvalidRequest | ReceiptChecksumConflict | UploadChecksumConflict
    | SiteInactive | ImageTooLarge | TenantStoragePaused | InvalidVendor | ReceiptIdTaken
    | UploadNotOpen | PartOutOfRange | PartLengthMismatch | PartChecksumMismatch | PartConflict
    | UploadIncomplete | UploadPartMissing | InvalidImage | ChecksumMismatch
    | UploadCompletionConflict | DailyLimit | TenantDailyLimit | TenantStorageLimit
    | ObjectStoreFailed | DatabaseFailed

  // ---------------------------------------------------------------- arithmetic of parts

  function PartCount(total: nat): nat { (total + PART_SIZE - 1) / PART_SIZE }

  function PartLength(total: nat, number: nat): nat
    requires number * PART_SIZE < total
  {
    Min(PART_SIZE, total - number * PART_SIZE)
  }

  /** The largest stored_image_bytes a new image may lead to: the integer part of 0.9 * limit. */
  function UploadCap(storageLimit: nat): nat { storageLimit * 9 / 10 }

  predicate IsWebp(body: Bytes) {
    |body| >= 12 && body[..4] == [82, 73, 70, 70] && body[8..12] == [87, 69, 66, 80]
  }

  // ---------------------------------------------------------------- opening a session

  datatype Request = Request(receipt: ReceiptId, total: nat, digest: Digest)

  datatype CreateAnswer = Received(receipt: ReceiptId) | Opened(upload: UploadId) | CreateRefused(error: Error)

  predicate PolicyActive(t: Tables, device: Device) {
    && device.site in t.sites && t.sites[device.site].active && t.sites[device.site].org == device.org
    && device.org in t.orgs && t.orgs[device.org].active
  }

  function CreateAnswerFor(t: Tables, device: Device, request: Request, paused: bool, vendorKnown: bool): CreateAnswer {
    var r := request.receipt;
    if request.total == 0 || request.total > MAX_IMAGE_BYTES then CreateRefused(InvalidRequest)
    else if paused then CreateRefused(LocalStorageLimitReached)
    else if r in t.receipts && t.receipts[r].owner == device then
      if t.receipts[r].digest != request.digest then CreateRefused(ReceiptChecksumConflict) else Received(r)
    else if r in t.sessionOf && t.sessionOf[r] in t.sessions && t.sessions[t.sessionOf[r]].owner == device then
      if t.sessions[t.sessionOf[r]].digest != request.digest then CreateRefused(UploadChecksumConflict)
      else Opened(t.sessionOf[r])
    else if !PolicyActive(t, device) then CreateRefused(SiteInactive)
    else if request.total > t.sites[device.site].imageLimit then CreateRefused(ImageTooLarge)
    else if 10 * (t.orgs[device.org].stored + request.total) > 9 * t.orgs[device.org].storageLimit then
      CreateRefused(TenantStoragePaused)
    else if !vendorKnown then CreateRefused(InvalidVendor)
    else if r in t.sessionOf then CreateRefused(ReceiptIdTaken)
    else Opened(t.nextUpload)
  }

  /** A new row is written only when the answer names the fresh id. */
  function Create(t: Tables, device: Device, request: Request, paused: bool, vendorKnown: bool): Tables {
    if CreateAnswerFor(t, device, request, paused, vendorKnown) == Opened(t.nextUpload)
       && request.receipt !in t.sessionOf then
      var row := Session(request.receipt, device, request.total, request.digest, OPEN, t.now, t.now, None);
      t.(nextUpload := t.nextUpload + 1,
         sessions := t.sessions[t.nextUpload := row],
         sessionOf := t.sessionOf[request.receipt := t.nextUpload])
    else t
  }

  // ---------------------------------------------------------------- uploading a part

  datatype PartAnswer = Proceed | AlreadyStored | PartRefused(error: Error)

  predicate Owned(t: Tables, device: Device, u: UploadId) { u in t.sessions && t.sessions[u].owner == device }

  function CheckPart(t: Tables, sha: Hash, device: Device, u: UploadId, n: int, body: Bytes,
      declared: Digest): PartAnswer {
    if !Owned(t, device, u) || t.now >= t.sessions[u].created + DAY || t.sessions[u].status != OPEN then
      PartRefused(UploadNotOpen)
    else if n < 0 || n * PART_SIZE >= t.sessions[u].total then PartRefused(PartOutOfRange)
    else if |body| != PartLength(t.sessions[u].total, n) then PartRefused(PartLengthMismatch)
    else if sha(body) != declared then PartRefused(PartChecksumMismatch)
    else if (u, n) in t.parts then
      if t.parts[(u, n)].digest != sha(body) || t.parts[(u, n)].length != |body| then PartRefused(PartConflict)
      else AlreadyStored
    else Proceed
  }

  function PutObject(t: Tables, key: Key, body: Bytes): Tables {
    t.(store := t.store[key := Object(body, t.now)])
  }

  function DeleteObject(t: Tables, key: Key): Tables {
    t.(store := t.store - {key})
  }

  /** The row of a part whose object has been written. A vanished session fails the foreign key. */
  function InsertPart(t: Tables, sha: Hash, u: UploadId, n: nat, body: Bytes): Tables {
    if u in t.sessions && (u, n) !in t.parts then
      t.(parts := t.parts[(u, n) := Part(n * PART_SIZE, |body|, sha(body), PartKey(u, n))])
    else t
  }

  /** SELECT … FROM upload_parts WHERE upload_id = u ORDER BY part_number, from part `n` on. */
  function PartRows(t: Tables, u: UploadId, n: nat, count: nat): (rows: seq<Part>)
    requires n <= count
    ensures forall row :: row in rows ==> exists k: nat :: (u, k) in t.parts && t.parts[(u, k)] == row
    decreases count - n
  {
    if n == count then []
    else (if (u, n) in t.parts then [t.parts[(u, n)]] else []) + PartRows(t, u, n + 1, count)
  }

  function RowsOf(t: Tables, u: UploadId): seq<Part> {
    if u in t.sessions then PartRows(t, u, 0, PartCount(t.sessions[u].total)) else []
  }

  // ---------------------------------------------------------------- completing a session

  datatype ClaimAnswer = Claimed(parts: seq<Part>) | Duplicate(receipt: ReceiptId) | ClaimRefused(error: Error)

  function ClaimAnswerFor(t: Tables, device: Device, u: UploadId): ClaimAnswer {
    if Owned(t, device, u) && t.sessions[u].status == OPEN then Claimed(RowsOf(t, u))
    else if u in t.sessions && t.sessions[u].owner.id == device.id && t.sessions[u].status == COMPLETE then
      Duplicate(t.sessions[u].receipt)
    else ClaimRefused(UploadNotOpen)
  }

  function SetStatus(t: Tables, u: UploadId, expected: Status, next: Status): Tables {
    if u in t.sessions && t.sessions[u].status == expected then
      t.(sessions := t.sessions[u := t.sessions[u].(status := next, updated := t.now)])
    else t
  }

  function Claim(t: Tables, device: Device, u: UploadId): Tables {
    if Owned(t, device, u) then SetStatus(t, u, OPEN, COMPLETING) else t
  }

  function RecordImageKey(t: Tables, u: UploadId, key: Key): Tables {
    if u in t.sessions && t.sessions[u].status == COMPLETING then
      t.(sessions := t.sessions[u := t.sessions[u].(image := Some(key), updated := t.now)])
    else t
  }

  /** What the day counts decided; daily_quota.dfy says when their decision can be trusted. */
  datatype DayVerdict = Within | SiteFull | OrganizationFull

  function CommitError(t: Tables, u: UploadId, bytes: nat, day: DayVerdict): Option<Error> {
    if u !in t.sessions || t.sessions[u].status != COMPLETING then Some(UploadCompletionConflict)
    else
      var device := t.sessions[u].owner;
      if !PolicyActive(t, device) then Some(SiteInactive)
      else if day == SiteFull then Some(DailyLimit)
      else if day == OrganizationFull then Some(TenantDailyLimit)
      else if t.orgs[device.org].stored + bytes > UploadCap(t.orgs[device.org].storageLimit) then
        Some(TenantStorageLimit)
      else None
  }

  /** Receipt, quota, audit event, outbox row and session status, together or not at all. */
  function Commit(t: Tables, u: UploadId, body: Bytes, key: Key, digest: Digest, day: DayVerdict): Tables {
    if CommitError(t, u, |body|, day) != None then t
    else
      var s := t.sessions[u];
      var org := t.orgs[s.owner.org];
      t.(sessions := t.sessions[u := s.(status := COMPLETE, updated := t.now)],
         orgs := t.orgs[s.owner.org := org.(stored := org.stored + |body|)],
         receipts := t.receipts[s.receipt := Receipt(s.owner, key, |body|, digest, t.now, false)],
         audited := t.audited + multiset{s.receipt},
         queued := t.queued + multiset{s.receipt})
  }

  function DeletePartRows(t: Tables, u: UploadId): Tables {
    t.(parts := map k | k in t.parts && k.0 != u :: t.parts[k])
  }

  // ---------------------------------------------------------------- orphan clean-up

  predicate Stale(t: Tables, u: UploadId)
    requires u in t.sessions
  {
    var s := t.sessions[u];
    || ((s.status == OPEN || s.status == COMPLETING) && s.created + DAY < t.now)
    || (s.status == COMPLETING && s.updated + 15 * MINUTE < t.now)
    || (s.status == COMPLETE && s.updated + 15 * MINUTE < t.now && exists k :: k in t.parts && k.0 == u)
  }

  function KeysOf(rows: seq<Part>): (keys: seq<Key>)
    ensures |keys| == |rows| && forall i :: 0 <= i < |keys| ==> keys[i] == rows[i].key
  {
    if rows == [] then [] else [rows[0].key] + KeysOf(rows[1..])
  }

  /** The objects a clean-up deletes for a session it saw with this status and image key. */
  function Doomed(t: Tables, u: UploadId, saw: Status, image: Option<Key>): seq<Key> {
    KeysOf(RowsOf(t, u)) + (if saw != COMPLETE && image.Some? then [image.value] else [])
  }

  function Expire(t: Tables, u: UploadId): Tables {
    var cleared := DeletePartRows(t, u);
    SetStatus(SetStatus(cleared, u, OPEN, EXPIRED), u, COMPLETING, EXPIRED)
  }

  // ---------------------------------------------------------------- retention

  function SetTombstone(t: Tables, r: ReceiptId, stone: Tombstone): Tables {
    t.(tombstones := t.tombstones[r := stone])
  }

  function WithoutImage(receipts: map<ReceiptId, Receipt>, r: ReceiptId): map<ReceiptId, Receipt> {
    if r in receipts then receipts[r := receipts[r].(imageDeleted := true)] else receipts
  }

  /** GREATEST(0, stored_image_bytes - image_bytes), the first time the image is marked deleted. */
  function Released(orgs: map<OrgId, Organization>, receipts: map<ReceiptId, Receipt>, r: ReceiptId)
    : map<OrgId, Organization>
  {
    if r in receipts && !receipts[r].imageDeleted && receipts[r].owner.org in orgs then
      var org := receipts[r].owner.org;
      orgs[org := orgs[org].(stored := Max(0, orgs[org].stored - receipts[r].bytes))]
    else orgs
  }

  /** Tombstone completed, receipt marked and its bytes released, in one transaction. */
  function FinishImage(t: Tables, r: ReceiptId): Tables {
    t.(tombstones := t.tombstones[r := COMPLETED], receipts := WithoutImage(t.receipts, r), orgs :=
      Released(t.orgs, t.receipts, r))
  }

  /** The one-year deletion of a set of receipts with everything that refers to them. */
  ghost function Purge(t: Tables, rs: set<ReceiptId>): Tables {
    t.(sessions := map u | u in t.sessions && t.sessions[u].receipt !in rs :: t.sessions[u],
       sessionOf := t.sessionOf - rs,
       parts := map k | k in t.parts && !(k.0 in t.sessions && t.sessions[k.0].receipt in rs) :: t.parts[k],
       receipts := t.receipts - rs,
       audited := Without(t.audited, rs),
       queued := Without(t.queued, rs))
  }

  ghost function Without(m: multiset<ReceiptId>, rs: set<ReceiptId>): (w: multiset<ReceiptId>)
    ensures forall r :: w[r] == if r in rs then 0 else m[r]
    decreases |rs|
  {
    if rs == {} then m
    else
      var r :| r in rs;
      Without(m[r := 0], rs - {r})
  }
}
