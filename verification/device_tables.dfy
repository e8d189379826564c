/** The device's database: captured receipts, cached WebP artifacts, sync state and upload ids.
    Each writer of the store is a function on the tables and a method of the class below. */
module DeviceTables {
  import opened Basics
  import opened UploadTables

  type EventId = nat

  const GRACE_DAYS: nat := 7
  const BASE_BACKOFF_MS: nat := 5_000
  const MAX_BACKOFF_MS: nat := 900_000

  datatype SyncStatus = Compressing | Uploading | Backoff | Synced

  datatype SyncRow = SyncRow(status: SyncStatus, attempts: nat, nextAttempt: nat, lastSynced: Option<nat>)

  /** `captured` is what the camera delivered, kept for the theorems; `image` is the column. */
  datatype Event = Event(receipt: ReceiptId, captured: Bytes, image: Bytes)

  datatype Phone = Phone(
    events: map<EventId, Event>,
    artifacts: map<EventId, Bytes>,
    sync: map<EventId, SyncRow>,
    uploads: map<EventId, UploadId>)

  // ---------------------------------------------------------------- backoff

  function BackoffMs(attempts: nat): nat { Min(MAX_BACKOFF_MS, BASE_BACKOFF_MS * Pow2(attempts)) }

  /** Five seconds at first, never less than before, and fifteen minutes from the eighth failure on. */
  lemma BackoffSchedule(m: nat, n: nat)
    ensures BackoffMs(0) == BASE_BACKOFF_MS
    ensures m <= n ==> BackoffMs(m) <= BackoffMs(n)
    ensures BackoffMs(n) == MAX_BACKOFF_MS <==> n >= 8
  {
    assert Pow2(7) == 128 && Pow2(8) == 256 by {
      assert Pow2(3) == 8;
      assert Pow2(5) == 32;
      assert Pow2(7) == 128;
    }
    if m <= n { Pow2Grows(m, n); }
    if n >= 8 { Pow2Grows(8, n); } else { Pow2Grows(n, 7); }
  }

  // ---------------------------------------------------------------- the writers

  /** A row that does not exist reads as zeros. */
  function SyncOf(d: Phone, e: EventId): SyncRow { if e in d.sync then d.sync[e] else SyncRow(Uploading, 0, 0, None) }

  function Mark(d: Phone, e: EventId, status: SyncStatus): Phone {
    d.(sync := d.sync[e := SyncOf(d, e).(status := status)])
  }

  function Increment(d: Phone, e: EventId, nextAttempt: nat): Phone {
    d.(sync := d.sync[e := SyncRow(Backoff, SyncOf(d, e).attempts + 1, nextAttempt, None)])
  }

  function CompleteSync(d: Phone, e: EventId, now: nat): Phone {
    d.(sync := d.sync[e := SyncRow(Synced, 0, 0, Some(now))])
  }

  function CacheArtifact(d: Phone, e: EventId, payload: Bytes): Phone { d.(artifacts := d.artifacts[e := payload]) }

  function SetUploadId(d: Phone, e: EventId, u: UploadId): Phone { d.(uploads := d.uploads[e := u]) }

  function ClearUploadId(d: Phone, e: EventId): Phone { d.(uploads := d.uploads - {e}) }

  predicate IsSynced(d: Phone, e: EventId) { e in d.sync && d.sync[e].status == Synced }

  /** Acknowledged at least seven days ago. */
  predicate Expendable(d: Phone, e: EventId, now: nat) {
    e in d.sync && d.sync[e].status == Synced && d.sync[e].lastSynced.Some?
    && d.sync[e].lastSynced.value + GRACE_DAYS * DAY <= now
  }

  function PurgeImages(d: Phone, now: nat): Phone {
    d.(events := map e | e in d.events :: if Expendable(d, e, now) then d.events[e].(image := []) else d.events[e])
  }

  function PurgeArtifacts(d: Phone, now: nat): Phone {
    d.(artifacts := map e | e in d.artifacts && !Expendable(d, e, now) :: d.artifacts[e])
  }

  /** One purge empties exactly the images of the receipts that were acknowledged 604,800 seconds ago or
      earlier and not taken up since, and drops exactly their artifacts; everything else stays. */
  lemma PurgesExactly(d: Phone, now: nat)
    ensures var d' := PurgeArtifacts(PurgeImages(d, now), now);
            var past := set e | e in d.sync && d.sync[e].status == Synced && d.sync[e].lastSynced.Some?
                               && d.sync[e].lastSynced.value + 604_800 <= now;
            && d'.sync == d.sync && d'.uploads == d.uploads
            && d'.events.Keys == d.events.Keys
            && (forall e :: e in d.events ==>
                  d'.events[e] ==
                    if e in past then Event(d.events[e].receipt, d.events[e].captured, []) else d.events[e])
            && d'.artifacts == d.artifacts - past
  {
  }

  function Capture(d: Phone, e: EventId, receipt: ReceiptId, image: Bytes): Phone {
    d.(events := d.events[e := Event(receipt, image, image)])
  }

  /** What the pending list may contain: receipts not synced and not waiting for their backoff. */
  predicate Eligible(d: Phone, e: EventId, now: nat) {
    e in d.events && (e in d.sync ==> d.sync[e].status != Synced && d.sync[e].nextAttempt <= now)
  }

  // ---------------------------------------------------------------- the store

  class ReceiptSyncStore {
    var events: map<EventId, Event>
    var artifacts: map<EventId, Bytes>
    var sync: map<EventId, SyncRow>
    var uploads: map<EventId, UploadId>

    ghost function View(): Phone
      reads this
    {
      Phone(events, artifacts, sync, uploads)
    }

    method UpsertSyncState(e: EventId, row: SyncRow)
      modifies `sync
      ensures sync == old(sync)[e := row]
    {
      sync := sync[e := row];
    }

    /** The status changes; counters and the time of the last acknowledgement stay. */
    method MarkReceiptSyncState(e: EventId, status: SyncStatus)
      modifies `sync
      ensures View() == Mark(old(View()), e, status)
    {
      var attempts, nextAttempt, lastSynced := 0, 0, None;
      if e in sync { attempts, nextAttempt, lastSynced := sync[e].attempts, sync[e].nextAttempt, sync[e].lastSynced; }
      UpsertSyncState(e, SyncRow(status, attempts, nextAttempt, lastSynced));
    }

    method IncrementReceiptSyncAttempt(e: EventId, nextAttempt: nat) returns (attempt: nat)
      modifies `sync
      ensures View() == Increment(old(View()), e, nextAttempt)
      ensures attempt == SyncOf(old(View()), e).attempts + 1
    {
      attempt := if e in sync then sync[e].attempts + 1 else 1;
      UpsertSyncState(e, SyncRow(Backoff, attempt, nextAttempt, None));
    }

    method CompleteReceiptSync(e: EventId, now: nat)
      modifies `sync
      ensures View() == CompleteSync(old(View()), e, now)
    {
      UpsertSyncState(e, SyncRow(Synced, 0, 0, Some(now)));
    }

    /** An artifact that is cached is used as it is; otherwise what `compress` yields is cached first. */
    method CompressedArtifact(e: EventId, image: Bytes, compress: Bytes -> Bytes) returns (payload: Bytes)
      modifies `artifacts, `sync
      ensures e in artifacts && artifacts[e] == payload
      ensures e in old(artifacts) && old(artifacts)[e] != [] ==> View() == old(View())
      ensures e !in old(artifacts) || old(artifacts)[e] == [] ==>
                payload == compress(image) && View() == CacheArtifact(Mark(old(View()), e, Compressing), e, payload)
    {
      if e in artifacts && artifacts[e] != [] { return artifacts[e]; }
      MarkReceiptSyncState(e, Compressing);
      payload := compress(image);
      artifacts := artifacts[e := payload];
    }

    /** Both statements of the purge, images first. */
    method PurgeAcknowledgedReceiptPayloads(now: nat)
      modifies `events, `artifacts
      ensures View() == PurgeArtifacts(PurgeImages(old(View()), now), now)
    {
      events := map e | e in events ::
        if e in sync && sync[e].status == Synced && sync[e].lastSynced.Some?
          && sync[e].lastSynced.value + GRACE_DAYS * DAY <= now
        then events[e].(image := []) else events[e];
      artifacts := map e | e in artifacts &&
        !(e in sync && sync[e].status == Synced && sync[e].lastSynced.Some?
          && sync[e].lastSynced.value + GRACE_DAYS * DAY <= now)
        :: artifacts[e];
    }

    method SetReceiptUploadId(e: EventId, u: UploadId)
      modifies `uploads
      ensures View() == SetUploadId(old(View()), e, u)
    {
      uploads := uploads[e := u];
    }

    method ClearReceiptUploadId(e: EventId)
      modifies `uploads
      ensures View() == ClearUploadId(old(View()), e)
    {
      uploads := uploads - {e};
    }
  }
}
