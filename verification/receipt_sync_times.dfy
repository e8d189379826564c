/** When receipts may be purged and when they are tried again, in terms of what happened. */
module ReceiptSyncTimes {
  import opened Basics
  import opened UploadTables
  import opened UploadProtocol
  import opened Reassembly
  import opened DeviceTables
  import opened ReceiptSync

  /** A synced receipt was acknowledged at the time its row says. */
  ghost predicate AckOk(d: Phone, acks: set<(EventId, nat)>) {
    forall e :: IsSynced(d, e) ==> d.sync[e].lastSynced.Some? && (e, d.sync[e].lastSynced.value) in acks
  }

  /** The row of a receipt says what its last failure means, and nothing if there was none. */
  ghost predicate FailOk(d: Phone, fails: map<EventId, Failure>) {
    && (forall e :: e in fails ==>
          && e in d.sync && !IsSynced(d, e) && d.sync[e].attempts == fails[e].count
          && d.sync[e].nextAttempt == fails[e].at + BackoffMs(fails[e].listed) / 1000)
    && (forall e :: e in d.sync && e !in fails ==> d.sync[e].attempts == 0 && d.sync[e].nextAttempt == 0)
  }

  ghost predicate TimesInv(w: World) { AckOk(w.d, w.acks) && FailOk(w.d, w.fails) }

  lemma FailedTimes(w: World)
    requires TimesInv(w) && w.wake.Working? && w.wake.items != []
    ensures TimesInv(Failed(w))
  {
  }

  lemma AckedTimes(w: World, e: EventId)
    requires TimesInv(w)
    ensures TimesInv(Acked(w, e))
  {
  }

  lemma AskedTimes(sha: Hash, me: Device, w: World, bytes: Bytes, paused: bool, vendorKnown: bool, replied: bool)
    requires TimesInv(w) && w.wake.Working? && w.wake.items != [] && Current(w) in w.d.events
    ensures TimesInv(Asked(sha, me, w, bytes, paused, vendorKnown, replied))
  {
    hide Next, OpenFor, CreateAnswerFor, Failed, Acked;
    var w' := Delivered(sha, me, w, Current(w), bytes, paused, vendorKnown);
    FailedTimes(w');
    AckedTimes(NextItem(w'), Current(w));
  }

  lemma MarkTimes(w: World, e: EventId, status: SyncStatus)
    requires TimesInv(w) && status != Synced
    ensures AckOk(Mark(w.d, e, status), w.acks) && FailOk(Mark(w.d, e, status), w.fails)
  {
  }

  /** The times depend on the sync table alone. */
  lemma SyncTimes(w: World, d: Phone)
    requires TimesInv(w) && d.sync == w.d.sync
    ensures AckOk(d, w.acks) && FailOk(d, w.fails)
  {
  }

  lemma WorkTimes(sha: Hash, me: Device, w: World, move: Move)
    requires TimesInv(w) && w.wake.Working? && w.wake.items != [] && Current(w) in w.d.events
    ensures TimesInv(Work(sha, me, w, move))
  {
    hide Next, OpenFor, PutFor, Slice, Confirms, Owned, Asked, Failed, Acked, AckOk, FailOk, Mark;
    var e := Current(w);
    FailedTimes(w);
    MarkTimes(w, e, Compressing);
    MarkTimes(w, e, Uploading);
    SyncTimes(w, ClearUploadId(w.d, e));
    if move.Compress? { SyncTimes(w, CacheArtifact(w.d, e, move.bytes)); }
    FailedTimes(w.(d := ClearUploadId(w.d, e)));
    if move.Ask? && w.wake.stage.Ready? {
      AskedTimes(sha, me, w, w.wake.stage.bytes, move.paused, move.vendorKnown, move.replied);
    } else if move.Accept? && w.wake.stage.Sending? {
      AckedTimes(At(w, Acknowledged(w.wake.stage.bytes, w.wake.stage.upload)), e);
    }
  }

  lemma PurgeSync(d: Phone, now: nat)
    ensures PurgeImages(d, now).sync == d.sync && PurgeArtifacts(d, now).sync == d.sync
  {
  }

  lemma ArriveTimes(sha: Hash, me: Device, w: World, move: Move)
    requires move.Arrive?
    ensures var w' := Arrived(sha, me, w, move); w'.d == w.d && w'.acks == w.acks && w'.fails == w.fails
  {
    hide Next, OpenFor, PutFor;
  }

  lemma MoveTimes(sha: Hash, me: Device, w: World, move: Move)
    requires TimesInv(w)
    ensures TimesInv(After(sha, me, w, move))
  {
    PurgeSync(w.d, w.s.t.now);
    hide Next, OpenFor, PutFor, Work, Listable, AckOk, FailOk, Arrived, PurgeImages, PurgeArtifacts;
    if move.Arrive? { ArriveTimes(sha, me, w, move); }
    SyncTimes(w, PurgeImages(w.d, w.s.t.now));
    SyncTimes(w, PurgeArtifacts(w.d, w.s.t.now));
    if move.Photograph? { SyncTimes(w, Capture(w.d, move.e, move.receipt, move.image)); }
    if w.wake.Working? && w.wake.items != [] && Current(w) in w.d.events { WorkTimes(sha, me, w, move); }
  }

  lemma {:induction false} StoryTimes(sha: Hash, me: Device, w: World, moves: seq<Move>)
    requires TimesInv(w)
    ensures TimesInv(Story(sha, me, w, moves))
    decreases |moves|
  {
    hide After, TimesInv;
    if moves != [] {
      MoveTimes(sha, me, w, moves[0]);
      StoryTimes(sha, me, After(sha, me, w, moves[0]), moves[1..]);
    }
  }

  lemma ToldTimes(sha: Hash, me: Device, w: World)
    requires Told(sha, me, w)
    ensures TimesInv(w)
  {
    hide Story, Init;
    var w0: World, moves: seq<Move> :| Beginning(w0) && Story(sha, me, w0, moves) == w;
    StoryTimes(sha, me, w0, moves);
  }

  // ---------------------------------------------------------------- what it means

  /** The device has known for seven days that the service has this receipt. */
  ghost predicate AckedLongAgo(w: World, e: EventId) { exists a: nat :: (e, a) in w.acks && a + 604_800 <= w.s.t.now }

  lemma ExpendableMeans(sha: Hash, me: Device, w: World, e: EventId)
    requires Told(sha, me, w) && Expendable(w.d, e, w.s.t.now)
    ensures AckedLongAgo(w, e)
  {
    hide Told;
    ToldTimes(sha, me, w);
    assert (e, w.d.sync[e].lastSynced.value) in w.acks;
  }

  /** The schedule in seconds. */
  lemma BackoffSeconds(n: nat)
    ensures BackoffMs(n) / 1000 == Min(900, 5 * Pow2(n))
  {
  }

  /** The pending list may contain a receipt exactly if it was photographed, is not synced, and since its
      last failure, when it was listed after n of them, min(900, 5 * 2^n) seconds have passed; and the
      number it is listed with is that of its failures since it was last acknowledged. */
  lemma RetriedExactly(sha: Hash, me: Device, w: World, e: EventId)
    requires Told(sha, me, w)
    ensures Eligible(w.d, e, w.s.t.now) <==>
              && e in w.d.events && !IsSynced(w.d, e)
              && (e in w.fails ==> w.fails[e].at + Min(900, 5 * Pow2(w.fails[e].listed)) <= w.s.t.now)
    ensures SyncOf(w.d, e).attempts == if e in w.fails then w.fails[e].count else 0
  {
    hide Told;
    ToldTimes(sha, me, w);
    if e in w.fails { BackoffSeconds(w.fails[e].listed); }
  }
}
