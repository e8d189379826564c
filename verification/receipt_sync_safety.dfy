/** The device's side of the invariant, and the theorems about receipts. */
module ReceiptSyncSafety {
  import opened Basics
  import opened UploadTables
  import opened UploadProtocol
  import opened UploadProofs
  import opened UploadTheorems
  import opened Reassembly
  import opened DeviceTables
  import opened ReceiptSync
  import opened ReceiptSyncProofs
  import opened ReceiptSyncTimes

  // ---------------------------------------------------------------- the device's side

  /** The running wake has listed this receipt and is not done with it. */
  ghost predicate InHand(wake: Wake, e: EventId) {
    wake.Working? && exists item :: item in wake.items && item.event == e
  }

  ghost predicate Distinct(events: map<EventId, Event>) {
    forall e, f :: e in events && f in events && e != f ==> events[e].receipt != events[f].receipt
  }

  /** A non-empty artifact is the one that was cached first. */
  ghost predicate CachedOk(d: Phone, cached: map<EventId, Bytes>) {
    && (forall e :: e in cached ==> e in d.events && cached[e] != [])
    && (forall e :: e in d.artifacts && d.artifacts[e] != [] ==> e in cached && d.artifacts[e] == cached[e])
  }

  predicate Retained(d: Phone, cached: map<EventId, Bytes>, e: EventId)
    requires e in cached
  {
    e in d.artifacts && d.artifacts[e] == cached[e]
  }

  /** An artifact is dropped only for a receipt that is synced and will not be taken up again. */
  ghost predicate KeptOk(d: Phone, cached: map<EventId, Bytes>, wake: Wake) {
    forall e :: e in cached ==> Retained(d, cached, e) || (IsSynced(d, e) && !InHand(wake, e))
  }

  ghost predicate AcceptedEvent(sha: Hash, d: Phone, cached: map<EventId, Bytes>, h: History, e: EventId) {
    e in d.events && e in cached && Accepted(h, d.events[e].receipt, sha(cached[e]))
  }

  ghost predicate SyncedOk(sha: Hash, d: Phone, cached: map<EventId, Bytes>, h: History) {
    forall e :: IsSynced(d, e) ==> AcceptedEvent(sha, d, cached, h, e)
  }

  /** Session `u` was opened by this device for event `e` and its artifact. */
  ghost predicate Belongs(sha: Hash, d: Phone, cached: map<EventId, Bytes>, mine: map<UploadId, Bytes>, h: History,
      e: EventId, u: UploadId) {
    e in d.events && e in cached && u in mine && mine[u] == cached[e]
      && Known(h, u, d.events[e].receipt, sha(cached[e]))
  }

  ghost predicate UploadsOk(sha: Hash, d: Phone, cached: map<EventId, Bytes>, mine: map<UploadId, Bytes>, h: History) {
    forall e :: e in d.uploads ==> Belongs(sha, d, cached, mine, h, e, d.uploads[e])
  }

  ghost predicate MineOk(sha: Hash, d: Phone, cached: map<EventId, Bytes>, mine: map<UploadId, Bytes>, h: History) {
    forall u :: u in mine ==> exists e :: Belongs(sha, d, cached, mine, h, e, u)
  }

  /** An image is emptied only seven days after its acknowledgement, and never taken up again. */
  ghost predicate ImagesOk(d: Phone, wake: Wake, now: nat) {
    forall e :: e in d.events ==>
      d.events[e].image == d.events[e].captured
        || (d.events[e].image == [] && Expendable(d, e, now) && !InHand(wake, e))
  }

  ghost predicate StageOk(sha: Hash, d: Phone, cached: map<EventId, Bytes>, mine: map<UploadId, Bytes>, h: History,
      e: EventId, stage: Stage) {
    match stage
    case Starting => true
    case Preparing => e !in cached
    case Ready(bytes) => if bytes == [] then e !in cached else e in cached && cached[e] == bytes
    case Addressed(bytes, u) => Belongs(sha, d, cached, mine, h, e, u) && bytes == cached[e]
    case Sending(bytes, u, _, _) => Belongs(sha, d, cached, mine, h, e, u) && bytes == cached[e]
    case Acknowledged(bytes, u) => Belongs(sha, d, cached, mine, h, e, u) && bytes == cached[e]
  }

  ghost predicate WakeOk(sha: Hash, d: Phone, wake: Wake, cached: map<EventId, Bytes>, mine: map<UploadId, Bytes>,
      h: History) {
    wake.Working? && wake.items != [] ==> StageOk(sha, d, cached, mine, h, wake.items[0].event, wake.stage)
  }

  ghost predicate PhoneInv(sha: Hash, d: Phone, wake: Wake, cached: map<EventId, Bytes>, mine: map<UploadId, Bytes>,
      h: History, now: nat) {
    && Distinct(d.events) && CachedOk(d, cached) && KeptOk(d, cached, wake)
    && SyncedOk(sha, d, cached, h) && UploadsOk(sha, d, cached, mine, h) && MineOk(sha, d, cached, mine, h)
    && ImagesOk(d, wake, now) && WakeOk(sha, d, wake, cached, mine, h)
  }

  /** A request under way is for the artifact of its receipt or of its session. */
  ghost predicate LetterOk(d: Phone, cached: map<EventId, Bytes>, mine: map<UploadId, Bytes>, letter: Letter) {
    match letter
    case ToOpen(e, bytes) => e in d.events && (bytes != [] ==> e in cached && cached[e] == bytes)
    case ToStore(u, _, bytes) => u in mine && mine[u] == bytes
  }

  ghost predicate PostOk(w: World) { forall letter :: letter in w.posted ==> LetterOk(w.d, w.cached, w.mine, letter) }

  ghost predicate StoryInv(sha: Hash, me: Device, w: World) { WorldInv(sha, me, w) && PostOk(w) }

  ghost predicate WorldInv(sha: Hash, me: Device, w: World) {
    ServiceInv(sha, me, w.s, w.mine) && PhoneInv(sha, w.d, w.wake, w.cached, w.mine, w.s.h, w.s.t.now)
  }

  // ---------------------------------------------------------------- time passes, the service works

  lemma AcceptedLasts(s: State, s': State, receipt: ReceiptId, digest: Digest)
    requires Grows(s, s') && Accepted(s.h, receipt, digest)
    ensures Accepted(s'.h, receipt, digest)
  {
    var u: UploadId :| u in s.h.charged && Known(s.h, u, receipt, digest);
    assert u in s'.h.charged && Known(s'.h, u, receipt, digest);
  }

  lemma PhoneAges(sha: Hash, s: State, s': State, d: Phone, wake: Wake, cached: map<EventId, Bytes>,
      mine: map<UploadId, Bytes>, now: nat, now': nat)
    requires PhoneInv(sha, d, wake, cached, mine, s.h, now) && Grows(s, s') && now <= now'
    ensures PhoneInv(sha, d, wake, cached, mine, s'.h, now')
  {
    hide Accepted;
    forall e | IsSynced(d, e) ensures AcceptedEvent(sha, d, cached, s'.h, e) {
      AcceptedLasts(s, s', d.events[e].receipt, sha(cached[e]));
    }
    forall u | u in mine ensures exists e :: Belongs(sha, d, cached, mine, s'.h, e, u) {
      var e :| Belongs(sha, d, cached, mine, s.h, e, u);
      assert Belongs(sha, d, cached, mine, s'.h, e, u);
    }
  }

  lemma ServeWorld(sha: Hash, me: Device, w: World, step: Step)
    requires WorldInv(sha, me, w) && Fair(step, me, w.mine)
    ensures WorldInv(sha, me, w.(s := Next(sha, w.s, step)))
  {
    hide Next, PhoneInv, Inv, SweepInv, OwnInv, FaithAll, Fair;
    ServeKeeps(sha, me, w.s, step, w.mine);
    StepFollowsEdges(sha, w.s, step);
    PhoneAges(sha, w.s, Next(sha, w.s, step), w.d, w.wake, w.cached, w.mine, w.s.t.now, Next(sha, w.s, step).t.now);
  }

  // ---------------------------------------------------------------- the device moves

  /** No event is lost or renamed, no upload id is made up, and what is newly synced was accepted. */
  ghost predicate SameBooks(sha: Hash, d: Phone, d': Phone, cached: map<EventId, Bytes>, h: History) {
    && (forall e :: e in d.events ==> e in d'.events && d'.events[e].receipt == d.events[e].receipt)
    && (forall e :: e in d'.uploads ==> e in d.uploads && d'.uploads[e] == d.uploads[e])
    && (forall e :: IsSynced(d', e) && !IsSynced(d, e) ==> AcceptedEvent(sha, d, cached, h, e))
  }

  lemma BooksKeep(sha: Hash, d: Phone, d': Phone, cached: map<EventId, Bytes>, mine: map<UploadId, Bytes>, h: History)
    requires SyncedOk(sha, d, cached, h) && UploadsOk(sha, d, cached, mine, h) && MineOk(sha, d, cached, mine, h)
    requires SameBooks(sha, d, d', cached, h)
    ensures SyncedOk(sha, d', cached, h) && UploadsOk(sha, d', cached, mine, h) && MineOk(sha, d', cached, mine, h)
  {
    hide Accepted, Known;
    forall u | u in mine ensures exists f :: Belongs(sha, d', cached, mine, h, f, u) {
      var f :| Belongs(sha, d, cached, mine, h, f, u);
      assert Belongs(sha, d', cached, mine, h, f, u);
    }
    forall f | IsSynced(d', f) ensures AcceptedEvent(sha, d', cached, h, f) {
      assert AcceptedEvent(sha, d, cached, h, f);
    }
  }

  lemma WakeKeeps(sha: Hash, d: Phone, d': Phone, wake: Wake, cached: map<EventId, Bytes>, mine: map<UploadId, Bytes>,
      h: History)
    requires WakeOk(sha, d, wake, cached, mine, h) && SameBooks(sha, d, d', cached, h)
    ensures WakeOk(sha, d', wake, cached, mine, h)
  {
    hide Known;
  }

  lemma NoItems(sha: Hash, d: Phone, wake: Wake, wake': Wake, cached: map<EventId, Bytes>, mine: map<UploadId, Bytes>,
      h: History, now: nat)
    requires PhoneInv(sha, d, wake, cached, mine, h, now) && !wake'.Working?
    ensures PhoneInv(sha, d, wake', cached, mine, h, now)
  {
    hide Accepted, Known, Belongs, UploadsOk, MineOk, SyncedOk;
  }

  lemma CapturePhone(d: Phone, wake: Wake, cached: map<EventId, Bytes>, now: nat, e: EventId, receipt: ReceiptId,
      image: Bytes)
    requires Distinct(d.events) && CachedOk(d, cached) && KeptOk(d, cached, wake) && ImagesOk(d, wake, now)
    requires e !in d.events && forall x :: x in d.events ==> d.events[x].receipt != receipt
    ensures var d' := Capture(d, e, receipt, image);
            Distinct(d'.events) && CachedOk(d', cached) && KeptOk(d', cached, wake) && ImagesOk(d', wake, now)
  {
    hide InHand;
  }

  lemma CaptureKeeps(sha: Hash, d: Phone, wake: Wake, cached: map<EventId, Bytes>, mine: map<UploadId, Bytes>,
      h: History, now: nat, e: EventId, receipt: ReceiptId, image: Bytes)
    requires PhoneInv(sha, d, wake, cached, mine, h, now)
    requires e !in d.events && forall x :: x in d.events ==> d.events[x].receipt != receipt
    ensures PhoneInv(sha, Capture(d, e, receipt, image), wake, cached, mine, h, now)
  {
    hide SyncedOk, UploadsOk, MineOk, WakeOk, AcceptedEvent, Distinct, CachedOk, KeptOk, ImagesOk;
    CapturePhone(d, wake, cached, now, e, receipt, image);
    BooksKeep(sha, d, Capture(d, e, receipt, image), cached, mine, h);
    WakeKeeps(sha, d, Capture(d, e, receipt, image), wake, cached, mine, h);
  }

  lemma PurgedImages(d: Phone, wake: Wake, now: nat)
    requires ImagesOk(d, wake, now) && !wake.Working?
    ensures ImagesOk(PurgeImages(d, now), wake, now)
  {
  }

  lemma PurgedPhone(d: Phone, wake: Wake, cached: map<EventId, Bytes>, now: nat)
    requires Distinct(d.events) && CachedOk(d, cached) && KeptOk(d, cached, wake)
    ensures var d' := PurgeImages(d, now); Distinct(d'.events) && CachedOk(d', cached) && KeptOk(d', cached, wake)
  {
    hide InHand;
  }

  lemma PurgeImagesKeeps(sha: Hash, d: Phone, wake: Wake, cached: map<EventId, Bytes>, mine: map<UploadId, Bytes>,
      h: History, now: nat)
    requires PhoneInv(sha, d, wake, cached, mine, h, now) && !wake.Working?
    ensures PhoneInv(sha, PurgeImages(d, now), wake, cached, mine, h, now)
  {
    hide SyncedOk, UploadsOk, MineOk, AcceptedEvent, ImagesOk, Distinct, CachedOk, KeptOk;
    PurgedImages(d, wake, now);
    PurgedPhone(d, wake, cached, now);
    BooksKeep(sha, d, PurgeImages(d, now), cached, mine, h);
  }

  lemma PurgeArtifactsKeeps(sha: Hash, d: Phone, wake: Wake, cached: map<EventId, Bytes>, mine: map<UploadId, Bytes>,
      h: History, now: nat)
    requires PhoneInv(sha, d, wake, cached, mine, h, now) && !wake.Working?
    ensures PhoneInv(sha, PurgeArtifacts(d, now), wake, cached, mine, h, now)
  {
    hide SyncedOk, UploadsOk, MineOk, AcceptedEvent;
    BooksKeep(sha, d, PurgeArtifacts(d, now), cached, mine, h);
  }

  lemma ListKeeps(sha: Hash, w: World, items: seq<Item>)
    requires PhoneInv(sha, w.d, w.wake, w.cached, w.mine, w.s.h, w.s.t.now) && !w.wake.Working? && Listable(w, items)
    ensures PhoneInv(sha, w.d, Working(items, Starting), w.cached, w.mine, w.s.h, w.s.t.now)
  {
    hide Accepted, Known, Belongs, UploadsOk, MineOk, SyncedOk;
  }

  /** The stage moves on; rows of the sync table may change, but none to synced. */
  lemma StageKeeps(sha: Hash, d: Phone, d': Phone, wake: Wake, stage: Stage, cached: map<EventId, Bytes>,
      mine: map<UploadId, Bytes>, h: History, now: nat)
    requires PhoneInv(sha, d, wake, cached, mine, h, now) && wake.Working? && wake.items != []
    requires d' == d.(sync := d'.sync)
             && (forall e :: IsSynced(d', e) && !IsSynced(d, e) ==> AcceptedEvent(sha, d, cached, h, e))
    requires forall e :: e in d.sync && !InHand(wake, e) ==> e in d'.sync && d'.sync[e] == d.sync[e]
    requires StageOk(sha, d, cached, mine, h, wake.items[0].event, stage)
    ensures PhoneInv(sha, d', Working(wake.items, stage), cached, mine, h, now)
  {
    hide SyncedOk, UploadsOk, MineOk, AcceptedEvent, StageOk;
    BooksKeep(sha, d, d', cached, mine, h);
    assert forall e :: InHand(Working(wake.items, stage), e) == InHand(wake, e);
    WakeKeeps(sha, d, d', Working(wake.items, stage), cached, mine, h);
  }

  /** The current item is finished with, one way or another. */
  lemma AdvanceKeeps(sha: Hash, d: Phone, d': Phone, wake: Wake, cached: map<EventId, Bytes>,
      mine: map<UploadId, Bytes>, h: History, now: nat)
    requires PhoneInv(sha, d, wake, cached, mine, h, now) && wake.Working? && wake.items != []
    requires var e := wake.items[0].event;
             && d'.events == d.events && d'.artifacts == d.artifacts
             && (d'.uploads == d.uploads || d'.uploads == d.uploads - {e})
             && (forall f :: f != e ==> (f in d'.sync <==> f in d.sync) && (f in d.sync ==> d'.sync[f] == d.sync[f]))
             && (IsSynced(d', e) ==> AcceptedEvent(sha, d, cached, h, e))
    ensures PhoneInv(sha, d', Working(wake.items[1..], Starting), cached, mine, h, now)
  {
    hide SyncedOk, UploadsOk, MineOk, AcceptedEvent;
    var e := wake.items[0].event;
    assert InHand(wake, e);
    forall f | InHand(Working(wake.items[1..], Starting), f) ensures InHand(wake, f) {
      var item :| item in wake.items[1..] && item.event == f;
      assert item in wake.items;
    }
    BooksKeep(sha, d, d', cached, mine, h);
  }

  /** What the wake has in hand it still has the artifact of. */
  lemma HandKept(sha: Hash, w: World)
    requires PhoneInv(sha, w.d, w.wake, w.cached, w.mine, w.s.h, w.s.t.now) && w.wake.Working? && w.wake.items != []
    ensures var e := Current(w);
            InHand(w.wake, e) && (e in w.cached ==> w.cached[e] != [] && Retained(w.d, w.cached, e))
  {
    hide SyncedOk, UploadsOk, MineOk, ImagesOk, WakeOk;
    assert w.wake.items[0] in w.wake.items;
  }

  lemma CacheBooks(sha: Hash, d: Phone, cached: map<EventId, Bytes>, mine: map<UploadId, Bytes>, h: History, e: EventId,
      bytes: Bytes)
    requires SyncedOk(sha, d, cached, h) && UploadsOk(sha, d, cached, mine, h) && MineOk(sha, d, cached, mine, h)
             && e !in cached
    ensures var cached' := cached[e := bytes];
            SyncedOk(sha, d, cached', h) && UploadsOk(sha, d, cached', mine, h) && MineOk(sha, d, cached', mine, h)
  {
    hide Accepted, Known;
    var cached' := cached[e := bytes];
    forall u | u in mine ensures exists f :: Belongs(sha, d, cached', mine, h, f, u) {
      var f :| Belongs(sha, d, cached, mine, h, f, u);
      assert Belongs(sha, d, cached', mine, h, f, u);
    }
    forall f | IsSynced(d, f) ensures AcceptedEvent(sha, d, cached', h, f) {
      assert AcceptedEvent(sha, d, cached, h, f);
    }
  }

  lemma CompressPhone(d: Phone, wake: Wake, wake': Wake, cached: map<EventId, Bytes>, e: EventId, bytes: Bytes,
      now: nat)
    requires CachedOk(d, cached) && KeptOk(d, cached, wake) && ImagesOk(d, wake, now) && e in d.events && e !in cached
    requires forall f :: InHand(wake', f) == InHand(wake, f)
    ensures var cached' := if bytes != [] then cached[e := bytes] else cached;
            var d' := CacheArtifact(d, e, bytes);
            CachedOk(d', cached') && KeptOk(d', cached', wake') && ImagesOk(d', wake', now)
  {
    hide InHand;
  }

  lemma CompressKeeps(sha: Hash, d: Phone, wake: Wake, cached: map<EventId, Bytes>, mine: map<UploadId, Bytes>,
      h: History, now: nat, e: EventId, bytes: Bytes)
    requires PhoneInv(sha, d, wake, cached, mine, h, now) && wake.Working? && wake.items != []
             && wake.items[0].event == e
    requires e in d.events && e !in cached
    ensures PhoneInv(sha, CacheArtifact(d, e, bytes), Working(wake.items, Ready(bytes)),
            if bytes != [] then cached[e := bytes] else cached, mine, h, now)
  {
    hide SyncedOk, UploadsOk, MineOk, AcceptedEvent, Distinct, CachedOk, KeptOk, ImagesOk;
    var cached' := if bytes != [] then cached[e := bytes] else cached;
    var wake' := Working(wake.items, Ready(bytes));
    if bytes != [] { CacheBooks(sha, d, cached, mine, h, e, bytes); }
    BooksKeep(sha, d, CacheArtifact(d, e, bytes), cached', mine, h);
    assert forall f :: InHand(wake', f) == InHand(wake, f);
    CompressPhone(d, wake, wake', cached, e, bytes, now);
  }

  lemma MineExtends(sha: Hash, d: Phone, wake: Wake, cached: map<EventId, Bytes>, mine: map<UploadId, Bytes>,
      h: History, now: nat, e: EventId, u: UploadId)
    requires PhoneInv(sha, d, wake, cached, mine, h, now) && u !in mine
    requires e in d.events && e in cached && Known(h, u, d.events[e].receipt, sha(cached[e]))
    ensures PhoneInv(sha, d, wake, cached, mine[u := cached[e]], h, now)
            && Belongs(sha, d, cached, mine[u := cached[e]], h, e, u)
  {
    hide Accepted, Known, SyncedOk, ImagesOk, KeptOk, CachedOk;
    var mine' := mine[u := cached[e]];
    assert Belongs(sha, d, cached, mine', h, e, u);
    forall v | v in mine' ensures exists f :: Belongs(sha, d, cached, mine', h, f, v) {
      if v != u {
        var f :| Belongs(sha, d, cached, mine, h, f, v);
        assert Belongs(sha, d, cached, mine', h, f, v);
      }
    }
  }

  /** The session request itself: the service's tables and the device's memory of its sessions. */
  lemma DeliveredWorld(sha: Hash, me: Device, w: World, e: EventId, bytes: Bytes, paused: bool, vendorKnown: bool)
    requires WorldInv(sha, me, w) && e in w.d.events && (bytes != [] ==> e in w.cached && w.cached[e] == bytes)
    ensures var w' := Delivered(sha, me, w, e, bytes, paused, vendorKnown);
            && WorldInv(sha, me, w')
            && w'.mine == MineAfter(w.s, w'.s, w.mine, bytes)
            && (w'.s.t.nextUpload != w.s.t.nextUpload ==>
                  Belongs(sha, w.d, w.cached, w'.mine, w'.s.h, e, w.s.t.nextUpload))
  {
    hide Inv, Next, PhoneInv, FaithAll, SweepInv, CreateAnswerFor, Grows, Belongs, StageOk, Known;
    var open := OpenFor(w, me, e, bytes, sha, paused, vendorKnown);
    var s' := Next(sha, w.s, open);
    AskKeeps(sha, me, w.s, open, w.mine, bytes);
    StepFollowsEdges(sha, w.s, open);
    PhoneAges(sha, w.s, s', w.d, w.wake, w.cached, w.mine, w.s.t.now, s'.t.now);
    AskOpens(sha, w.s, open);
    if s'.t.nextUpload != w.s.t.nextUpload {
      OpenedMeansKnown(sha, w.s, me, open.request, paused, vendorKnown);
      MineExtends(sha, w.d, w.wake, w.cached, w.mine, s'.h, s'.t.now, e, w.s.t.nextUpload);
    }
  }

  lemma ReadyBytes(sha: Hash, w: World, bytes: Bytes)
    requires PhoneInv(sha, w.d, w.wake, w.cached, w.mine, w.s.h, w.s.t.now)
    requires w.wake.Working? && w.wake.items != [] && w.wake.stage == Ready(bytes)
    ensures var e := Current(w); if bytes == [] then e !in w.cached else e in w.cached && w.cached[e] == bytes
  {
    hide SyncedOk, UploadsOk, MineOk, ImagesOk, KeptOk, CachedOk;
  }

  /** A session of this device for the receipt in hand was opened for its artifact. */
  lemma OwnSession(sha: Hash, d: Phone, cached: map<EventId, Bytes>, mine: map<UploadId, Bytes>, h: History, e: EventId,
      u: UploadId, digest: Digest)
    requires Distinct(d.events) && MineOk(sha, d, cached, mine, h)
    requires e in d.events && u in mine && Known(h, u, d.events[e].receipt, digest)
    ensures Belongs(sha, d, cached, mine, h, e, u)
  {
    var f :| Belongs(sha, d, cached, mine, h, f, u);
    assert d.events[f].receipt == d.events[e].receipt;
  }

  lemma PhoneParts(sha: Hash, d: Phone, wake: Wake, cached: map<EventId, Bytes>, mine: map<UploadId, Bytes>, h: History,
      now: nat)
    requires PhoneInv(sha, d, wake, cached, mine, h, now)
    ensures Distinct(d.events) && MineOk(sha, d, cached, mine, h) && SyncedOk(sha, d, cached, h)
            && UploadsOk(sha, d, cached, mine, h)
    ensures WakeOk(sha, d, wake, cached, mine, h)
  {
    hide Distinct, MineOk, SyncedOk, UploadsOk, WakeOk, CachedOk, KeptOk, ImagesOk;
  }

  lemma AskedKeeps(sha: Hash, me: Device, w: World, bytes: Bytes, paused: bool, vendorKnown: bool, replied: bool)
    requires WorldInv(sha, me, w) && w.wake.Working? && w.wake.items != [] && w.wake.stage == Ready(bytes)
             && Current(w) in w.d.events
    ensures WorldInv(sha, me, Asked(sha, me, w, bytes, paused, vendorKnown, replied))
  {
    hide WorldInv, Delivered, CreateAnswerFor, Failed, Acked, SetUploadId;
    var answer := CreateAnswerFor(w.s.t, me, OpenFor(w, me, Current(w), bytes, sha, paused, vendorKnown).request,
      paused, vendorKnown);
    if !replied || answer.CreateRefused? {
      AskFails(sha, me, w, bytes, paused, vendorKnown);
    } else if answer.Received? {
      AskReceived(sha, me, w, bytes, paused, vendorKnown);
    } else {
      AskOpened(sha, me, w, bytes, paused, vendorKnown);
    }
  }

  lemma AskFails(sha: Hash, me: Device, w: World, bytes: Bytes, paused: bool, vendorKnown: bool)
    requires WorldInv(sha, me, w) && w.wake.Working? && w.wake.items != [] && w.wake.stage == Ready(bytes)
             && Current(w) in w.d.events
    ensures WorldInv(sha, me, Failed(Delivered(sha, me, w, Current(w), bytes, paused, vendorKnown)))
  {
    hide ServiceInv, PhoneInv, Delivered, Belongs, Known, Accepted;
    var w' := Delivered(sha, me, w, Current(w), bytes, paused, vendorKnown);
    var until := w'.s.t.now + BackoffMs(w.wake.items[0].attempts) / 1000;
    AskDelivered(sha, me, w, bytes, paused, vendorKnown);
    PhoneParts(sha, w'.d, w'.wake, w'.cached, w'.mine, w'.s.h, w'.s.t.now);
    AdvanceKeeps(sha, w'.d, Increment(w'.d, Current(w), until), w'.wake, w'.cached, w'.mine, w'.s.h, w'.s.t.now);
  }

  lemma AskReceived(sha: Hash, me: Device, w: World, bytes: Bytes, paused: bool, vendorKnown: bool)
    requires WorldInv(sha, me, w) && w.wake.Working? && w.wake.items != [] && w.wake.stage == Ready(bytes)
             && Current(w) in w.d.events
    requires CreateAnswerFor(w.s.t, me, OpenFor(w, me, Current(w), bytes, sha, paused, vendorKnown).request,
               paused, vendorKnown).Received?
    ensures var w' := Delivered(sha, me, w, Current(w), bytes, paused, vendorKnown);
            WorldInv(sha, me, Acked(NextItem(w'), Current(w)))
  {
    hide Inv, PhoneInv, FaithAll, SweepInv, OwnInv, Delivered, Belongs, Known, Accepted, CreateAnswerFor;
    var open := OpenFor(w, me, Current(w), bytes, sha, paused, vendorKnown);
    var w' := Delivered(sha, me, w, Current(w), bytes, paused, vendorKnown);
    AskDelivered(sha, me, w, bytes, paused, vendorKnown);
    ReceivedMeansAccepted(sha, w.s, me, open.request, paused, vendorKnown);
    StepGrows(sha, w.s, open);
    AcceptedLasts(w.s, w'.s, open.request.receipt, open.request.digest);
    var d' := CompleteSync(w'.d, Current(w), w'.s.t.now);
    AdvanceKeeps(sha, w'.d, d', w'.wake, w'.cached, w'.mine, w'.s.h, w'.s.t.now);
  }

  lemma AskOpened(sha: Hash, me: Device, w: World, bytes: Bytes, paused: bool, vendorKnown: bool)
    requires WorldInv(sha, me, w) && w.wake.Working? && w.wake.items != [] && w.wake.stage == Ready(bytes)
             && Current(w) in w.d.events
    requires CreateAnswerFor(w.s.t, me, OpenFor(w, me, Current(w), bytes, sha, paused, vendorKnown).request,
               paused, vendorKnown).Opened?
    ensures var w' := Delivered(sha, me, w, Current(w), bytes, paused, vendorKnown);
            var u := CreateAnswerFor(w.s.t, me, OpenFor(w, me, Current(w), bytes, sha, paused, vendorKnown).request,
                       paused, vendorKnown).upload;
            WorldInv(sha, me, At(w', Addressed(bytes, u)).(d := SetUploadId(w.d, Current(w), u)))
  {
    hide ServiceInv, PhoneInv, Delivered, Belongs, Known, Accepted, CreateAnswerFor, SetUploadId;
    var w' := Delivered(sha, me, w, Current(w), bytes, paused, vendorKnown);
    var u := CreateAnswerFor(w.s.t, me, OpenFor(w, me, Current(w), bytes, sha, paused, vendorKnown).request,
      paused, vendorKnown).upload;
    AskDelivered(sha, me, w, bytes, paused, vendorKnown);
    AnswerBelongs(sha, me, w, bytes, paused, vendorKnown);
    AddressKeeps(sha, w'.d, w'.wake, w'.cached, w'.mine, w'.s.h, w'.s.t.now, u, bytes);
  }

  /** The request is for the artifact in hand. */
  lemma AskDelivered(sha: Hash, me: Device, w: World, bytes: Bytes, paused: bool, vendorKnown: bool)
    requires WorldInv(sha, me, w) && w.wake.Working? && w.wake.items != [] && w.wake.stage == Ready(bytes)
             && Current(w) in w.d.events
    ensures var e := Current(w);
            var w' := Delivered(sha, me, w, e, bytes, paused, vendorKnown);
            && WorldInv(sha, me, w') && w'.wake == w.wake && w'.d == w.d && w'.cached == w.cached
            && w'.s == Next(sha, w.s, OpenFor(w, me, e, bytes, sha, paused, vendorKnown))
            && w'.mine == MineAfter(w.s, w'.s, w.mine, bytes)
            && (if bytes == [] then e !in w.cached else e in w.cached && w.cached[e] == bytes)
  {
    hide ServiceInv, PhoneInv, Next, CreateAnswerFor, MineAfter;
    ReadyBytes(sha, w, bytes);
    DeliveredWorld(sha, me, w, Current(w), bytes, paused, vendorKnown);
  }

  lemma AnswerBelongs(sha: Hash, me: Device, w: World, bytes: Bytes, paused: bool, vendorKnown: bool)
    requires WorldInv(sha, me, w) && w.wake.Working? && w.wake.items != [] && w.wake.stage == Ready(bytes)
             && Current(w) in w.d.events
    requires var open := OpenFor(w, me, Current(w), bytes, sha, paused, vendorKnown);
             CreateAnswerFor(w.s.t, me, open.request, paused, vendorKnown).Opened?
    ensures var open := OpenFor(w, me, Current(w), bytes, sha, paused, vendorKnown);
            var s' := Next(sha, w.s, open);
            var u := CreateAnswerFor(w.s.t, me, open.request, paused, vendorKnown).upload;
            Belongs(sha, w.d, w.cached, MineAfter(w.s, s', w.mine, bytes), s'.h, Current(w), u) && bytes != []
  {
    hide Inv, Next, PhoneInv, FaithAll, SweepInv, CreateAnswerFor, Belongs, Known, Accepted, StageOk;
    var open := OpenFor(w, me, Current(w), bytes, sha, paused, vendorKnown);
    var s' := Next(sha, w.s, open);
    var u := CreateAnswerFor(w.s.t, me, open.request, paused, vendorKnown).upload;
    ReadyBytes(sha, w, bytes);
    DeliveredWorld(sha, me, w, Current(w), bytes, paused, vendorKnown);
    OpenedMeansKnown(sha, w.s, me, open.request, paused, vendorKnown);
    AskOpens(sha, w.s, open);
    if u == w.s.t.nextUpload {
      FreshMoves(sha, w.s, open);
    } else {
      PhoneParts(sha, w.d, w.wake, w.cached, w.mine, w.s.h, w.s.t.now);
      OwnSession(sha, w.d, w.cached, w.mine, w.s.h, Current(w), u, open.request.digest);
      StepGrows(sha, w.s, open);
      StillBelongs(sha, w.s, s', w.d, w.cached, w.mine, MineAfter(w.s, s', w.mine, bytes), Current(w), u);
    }
  }

  lemma FreshMoves(sha: Hash, s: State, step: Step)
    requires step.OpenSession? && step.request.receipt !in s.t.sessionOf
    requires CreateAnswerFor(s.t, step.device, step.request, step.paused, step.vendorKnown) == Opened(s.t.nextUpload)
    ensures Next(sha, s, step).t.nextUpload == s.t.nextUpload + 1
  {
    hide CreateAnswerFor;
  }

  lemma StillBelongs(sha: Hash, s: State, s': State, d: Phone, cached: map<EventId, Bytes>, mine: map<UploadId, Bytes>,
      mine': map<UploadId, Bytes>, e: EventId, u: UploadId)
    requires Belongs(sha, d, cached, mine, s.h, e, u) && Grows(s, s') && u in mine' && mine'[u] == mine[u]
    ensures Belongs(sha, d, cached, mine', s'.h, e, u)
  {
  }

  lemma AddressBooks(sha: Hash, d: Phone, cached: map<EventId, Bytes>, mine: map<UploadId, Bytes>, h: History,
      e: EventId, u: UploadId)
    requires SyncedOk(sha, d, cached, h) && UploadsOk(sha, d, cached, mine, h) && MineOk(sha, d, cached, mine, h)
    requires Belongs(sha, d, cached, mine, h, e, u)
    ensures var d' := SetUploadId(d, e, u);
            SyncedOk(sha, d', cached, h) && UploadsOk(sha, d', cached, mine, h) && MineOk(sha, d', cached, mine, h)
            && Belongs(sha, d', cached, mine, h, e, u)
  {
    hide Accepted, Known;
    var d' := SetUploadId(d, e, u);
    forall v | v in mine ensures exists f :: Belongs(sha, d', cached, mine, h, f, v) {
      var f :| Belongs(sha, d, cached, mine, h, f, v);
      assert Belongs(sha, d', cached, mine, h, f, v);
    }
    forall f | IsSynced(d', f) ensures AcceptedEvent(sha, d', cached, h, f) {
      assert IsSynced(d, f) && AcceptedEvent(sha, d, cached, h, f);
    }
  }

  lemma AddressKeeps(sha: Hash, d: Phone, wake: Wake, cached: map<EventId, Bytes>, mine: map<UploadId, Bytes>,
      h: History, now: nat, u: UploadId, bytes: Bytes)
    requires PhoneInv(sha, d, wake, cached, mine, h, now) && wake.Working? && wake.items != []
    requires Belongs(sha, d, cached, mine, h, wake.items[0].event, u) && bytes == cached[wake.items[0].event]
    ensures PhoneInv(sha, SetUploadId(d, wake.items[0].event, u), Working(wake.items, Addressed(bytes, u)), cached,
            mine, h, now)
  {
    hide SyncedOk, UploadsOk, MineOk, Belongs;
    AddressBooks(sha, d, cached, mine, h, wake.items[0].event, u);
    assert forall f :: InHand(Working(wake.items, Addressed(bytes, u)), f) == InHand(wake, f);
    hide InHand;
  }

  // ---------------------------------------------------------------- every move

  lemma WorkWorld(sha: Hash, me: Device, w: World, move: Move)
    requires WorldInv(sha, me, w) && w.wake.Working? && w.wake.items != [] && Current(w) in w.d.events
    requires move.Reuse? || move.Prepare? || move.Compress? || move.Recall? || move.PartAnswered? || move.PartDone?
    ensures WorldInv(sha, me, Work(sha, me, w, move))
  {
    hide ServiceInv, Accepted, Known, InHand, SyncedOk, MineOk, ImagesOk, KeptOk, Distinct;
    var e := Current(w);
    var w' := Work(sha, me, w, move);
    HandKept(sha, w);
    if w' != w {
      if move.Compress? {
        CompressKeeps(sha, w.d, w.wake, w.cached, w.mine, w.s.h, w.s.t.now, e, move.bytes);
      } else {
        StageKeeps(sha, w.d, w'.d, w.wake, w'.wake.stage, w.cached, w.mine, w.s.h, w.s.t.now);
      }
    }
  }

  lemma ProgressWorld(sha: Hash, me: Device, w: World)
    requires WorldInv(sha, me, w) && w.wake.Working? && w.wake.items != [] && Current(w) in w.d.events
    ensures WorldInv(sha, me, Work(sha, me, w, AskProgress))
  {
    hide ServiceInv, Accepted, Known, InHand, SyncedOk, MineOk, ImagesOk, KeptOk, Distinct, Owned;
    HandKept(sha, w);
    var w' := Work(sha, me, w, AskProgress);
    if w' != w {
      if Owned(w.s.t, me, w.wake.stage.upload) {
        StageKeeps(sha, w.d, w'.d, w.wake, w'.wake.stage, w.cached, w.mine, w.s.h, w.s.t.now);
      } else {
        AdvanceKeeps(sha, w.d, w'.d, w.wake, w.cached, w.mine, w.s.h, w.s.t.now);
      }
    }
  }

  lemma SendWorld(sha: Hash, me: Device, w: World, p: ProcId)
    requires WorldInv(sha, me, w) && w.wake.Working? && w.wake.items != [] && Current(w) in w.d.events
    ensures WorldInv(sha, me, Work(sha, me, w, SendPart(p)))
  {
    hide ServiceInv, Accepted, Known, InHand, SyncedOk, MineOk, ImagesOk, KeptOk, Distinct, Slice, Next;
    var w' := Work(sha, me, w, SendPart(p));
    if w' != w {
      var bytes, u, n := w.wake.stage.bytes, w.wake.stage.upload, w.wake.stage.next;
      var step := PutFor(me, p, u, n, bytes, sha);
      assert Belongs(sha, w.d, w.cached, w.mine, w.s.h, Current(w), u) && w.mine[u] == bytes;
      ServeWorld(sha, me, w, step);
    }
  }

  lemma AcceptWorld(sha: Hash, me: Device, w: World, p: ProcId)
    requires WorldInv(sha, me, w) && w.wake.Working? && w.wake.items != [] && Current(w) in w.d.events
    ensures WorldInv(sha, me, Work(sha, me, w, Accept(p)))
  {
    hide Inv, SweepInv, OwnInv, FaithAll, Known, InHand, SyncedOk, MineOk, ImagesOk, KeptOk, Distinct, Confirms;
    HandKept(sha, w);
    var w' := Work(sha, me, w, Accept(p));
    if w' != w {
      var e, u := Current(w), w.wake.stage.upload;
      ConfirmsMeansCharged(sha, me, w.s, u, p);
      assert Belongs(sha, w.d, w.cached, w.mine, w.s.h, e, u);
      assert AcceptedEvent(sha, w.d, w.cached, w.s.h, e);
      StageKeeps(sha, w.d, w'.d, w.wake, w'.wake.stage, w.cached, w.mine, w.s.h, w.s.t.now);
    }
  }

  lemma PostWorld(sha: Hash, me: Device, w: World)
    requires WorldInv(sha, me, w) && w.wake.Working? && w.wake.items != [] && Current(w) in w.d.events
    ensures WorldInv(sha, me, Work(sha, me, w, Post))
  {
    hide ServiceInv, PhoneInv;
  }

  lemma EndWorld(sha: Hash, me: Device, w: World, move: Move)
    requires WorldInv(sha, me, w) && w.wake.Working? && w.wake.items != [] && Current(w) in w.d.events
    requires move.Forget? || move.Fail?
    ensures WorldInv(sha, me, Work(sha, me, w, move))
  {
    hide ServiceInv, Accepted, Known, InHand, MineOk, ImagesOk, KeptOk, Distinct;
    var w' := Work(sha, me, w, move);
    if w' != w { AdvanceKeeps(sha, w.d, w'.d, w.wake, w.cached, w.mine, w.s.h, w.s.t.now); }
  }

  /** Whatever the device or the service does next, the invariant of both holds again. */
  lemma MoveKeeps(sha: Hash, me: Device, w: World, move: Move)
    requires StoryInv(sha, me, w)
    ensures StoryInv(sha, me, After(sha, me, w, move))
  {
    hide WorldInv, After, PostOk;
    MoveWorld(sha, me, w, move);
    PostKeeps(sha, me, w, move);
  }

  /** A request that arrives late finds the service as any other request does. */
  lemma ArriveKeeps(sha: Hash, me: Device, w: World, move: Move)
    requires WorldInv(sha, me, w) && PostOk(w) && move.Arrive?
    ensures WorldInv(sha, me, After(sha, me, w, move))
  {
    hide WorldInv, Next, Slice, Delivered;
    if move.letter in w.posted {
      assert LetterOk(w.d, w.cached, w.mine, move.letter);
      match move.letter
      case ToOpen(e, bytes) =>
        if e in w.d.events { DeliveredWorld(sha, me, w, e, bytes, move.paused, move.vendorKnown); }
      case ToStore(u, n, bytes) =>
        if n * PART_SIZE < |bytes| { ServeWorld(sha, me, w, PutFor(me, move.p, u, n, bytes, sha)); }
    }
  }

  lemma HeldBytes(sha: Hash, me: Device, w: World)
    requires WorldInv(sha, me, w) && w.wake.Working? && w.wake.items != []
    ensures w.wake.stage.Ready? ==> var b := w.wake.stage.bytes;
            b != [] ==> Current(w) in w.cached && w.cached[Current(w)] == b
    ensures w.wake.stage.Sending? ==> w.wake.stage.upload in w.mine && w.mine[w.wake.stage.upload] == w.wake.stage.bytes
  {
    hide ServiceInv, Accepted, Known, Distinct, CachedOk, KeptOk, SyncedOk, UploadsOk, MineOk, ImagesOk;
  }

  lemma PostKeeps(sha: Hash, me: Device, w: World, move: Move)
    requires WorldInv(sha, me, w) && PostOk(w)
    ensures PostOk(After(sha, me, w, move))
  {
    hide WorldInv, Next, Slice, CreateAnswerFor, Confirms, LetterOk;
    var w' := After(sha, me, w, move);
    forall letter | letter in w'.posted ensures LetterOk(w'.d, w'.cached, w'.mine, letter) {
      if letter in w.posted { LetterStays(sha, me, w, move, letter); } else { LetterNew(sha, me, w, move, letter); }
    }
  }

  lemma LetterNew(sha: Hash, me: Device, w: World, move: Move, letter: Letter)
    requires WorldInv(sha, me, w) && letter in After(sha, me, w, move).posted && letter !in w.posted
    ensures var w' := After(sha, me, w, move); LetterOk(w'.d, w'.cached, w'.mine, letter)
  {
    hide WorldInv, Next, Work, OpenFor, PutFor, Listable, Capture, PurgeImages, PurgeArtifacts, LetterOk;
    if w.wake.Working? && w.wake.items != [] && Current(w) in w.d.events { WorkLetter(sha, me, w, move, letter); }
  }

  lemma WorkLetter(sha: Hash, me: Device, w: World, move: Move, letter: Letter)
    requires WorldInv(sha, me, w) && w.wake.Working? && w.wake.items != [] && Current(w) in w.d.events
    requires letter in Work(sha, me, w, move).posted && letter !in w.posted
    ensures var w' := Work(sha, me, w, move); LetterOk(w'.d, w'.cached, w'.mine, letter)
  {
    hide WorldInv, Next, Slice, CreateAnswerFor, Confirms, OpenFor, PutFor, Owned, ConfirmedParts;
    HeldBytes(sha, me, w);
  }

  lemma LetterStays(sha: Hash, me: Device, w: World, move: Move, letter: Letter)
    requires WorldInv(sha, me, w) && LetterOk(w.d, w.cached, w.mine, letter)
    ensures var w' := After(sha, me, w, move); LetterOk(w'.d, w'.cached, w'.mine, letter)
  {
    hide WorldInv, Next, Slice, CreateAnswerFor, Confirms, After;
    match letter
    case ToOpen(e, _) =>
      EventStays(sha, me, w, move, e);
      if e in w.cached { CachedStays(sha, me, w, move, e); }
    case ToStore(u, _, _) => MineStays(sha, me, w, move, u);
  }

  lemma EventStays(sha: Hash, me: Device, w: World, move: Move, e: EventId)
    requires e in w.d.events
    ensures e in After(sha, me, w, move).d.events
  {
    hide Next, OpenFor, PutFor, Work, Listable;
    if w.wake.Working? && w.wake.items != [] && Current(w) in w.d.events { WorkEvents(sha, me, w, move, e); }
  }

  lemma WorkEvents(sha: Hash, me: Device, w: World, move: Move, e: EventId)
    requires e in w.d.events && w.wake.Working? && w.wake.items != [] && Current(w) in w.d.events
    ensures e in Work(sha, me, w, move).d.events && Work(sha, me, w, move).d.events[e] == w.d.events[e]
  {
    hide Next, Slice, CreateAnswerFor, Confirms, OpenFor, PutFor;
  }

  lemma MineStays(sha: Hash, me: Device, w: World, move: Move, u: UploadId)
    requires WorldInv(sha, me, w) && u in w.mine
    ensures var w' := After(sha, me, w, move); u in w'.mine && w'.mine[u] == w.mine[u]
  {
    hide PhoneInv, Inv, SweepInv, FaithAll, Next, OpenFor, PutFor, Work, Capture, PurgeImages, PurgeArtifacts, Listable;
    if w.wake.Working? && w.wake.items != [] && Current(w) in w.d.events { WorkMine(sha, me, w, move, u); }
  }

  lemma WorkMine(sha: Hash, me: Device, w: World, move: Move, u: UploadId)
    requires u < w.s.t.nextUpload && u in w.mine
    requires w.wake.Working? && w.wake.items != [] && Current(w) in w.d.events
    ensures var w' := Work(sha, me, w, move); u in w'.mine && w'.mine[u] == w.mine[u]
  {
    hide Next, Slice, CreateAnswerFor, Confirms, OpenFor, PutFor, Asked;
    if move.Ask? && w.wake.stage.Ready? { AskedMine(sha, me, w, w.wake.stage.bytes, move, u); }
  }

  lemma AskedMine(sha: Hash, me: Device, w: World, bytes: Bytes, move: Move, u: UploadId)
    requires move.Ask? && u < w.s.t.nextUpload && u in w.mine
    requires w.wake.Working? && w.wake.items != [] && Current(w) in w.d.events
    ensures var w' := Asked(sha, me, w, bytes, move.paused, move.vendorKnown, move.replied);
            u in w'.mine && w'.mine[u] == w.mine[u]
  {
    hide Next, CreateAnswerFor;
  }

  lemma MoveWorld(sha: Hash, me: Device, w: World, move: Move)
    requires WorldInv(sha, me, w) && PostOk(w)
    ensures WorldInv(sha, me, After(sha, me, w, move))
  {
    hide ServiceInv, PhoneInv, Next, Work, Arrived, PostOk;
    var now := w.s.t.now;
    match move
    case Serve(step) => if NotOurs(step, me) { FairServe(sha, me, w, step); }
    case Photograph(e, receipt, image) =>
      if e !in w.d.events && (forall x :: x in w.d.events ==> w.d.events[x].receipt != receipt) {
        CaptureKeeps(sha, w.d, w.wake, w.cached, w.mine, w.s.h, now, e, receipt, image);
      }
    case WakeUp => NoItems(sha, w.d, w.wake, Purging, w.cached, w.mine, w.s.h, now);
    case Kill => NoItems(sha, w.d, w.wake, Idle, w.cached, w.mine, w.s.h, now);
    case Rest => NoItems(sha, w.d, w.wake, Idle, w.cached, w.mine, w.s.h, now);
    case PurgeOldImages =>
      if w.wake.Purging? {
        PurgeImagesKeeps(sha, w.d, w.wake, w.cached, w.mine, w.s.h, now);
        NoItems(sha, PurgeImages(w.d, now), w.wake, Purged, w.cached, w.mine, w.s.h, now);
      }
    case PurgeOldArtifacts =>
      if w.wake.Purged? {
        PurgeArtifactsKeeps(sha, w.d, w.wake, w.cached, w.mine, w.s.h, now);
        NoItems(sha, PurgeArtifacts(w.d, now), w.wake, Listing, w.cached, w.mine, w.s.h, now);
      }
    case List(items) => if w.wake.Listing? && Listable(w, items) { ListKeeps(sha, w, items); }
    case Arrive(_, _, _, _) => ArriveKeeps(sha, me, w, move);
    case _ =>
      if w.wake.Working? && w.wake.items != [] && Current(w) in w.d.events { WorkKeeps(sha, me, w, move); }
  }

  lemma FairServe(sha: Hash, me: Device, w: World, step: Step)
    requires WorldInv(sha, me, w) && NotOurs(step, me)
    ensures WorldInv(sha, me, w.(s := Next(sha, w.s, step)))
  {
    hide WorldInv, Next;
    ServeWorld(sha, me, w, step);
  }

  lemma WorkKeeps(sha: Hash, me: Device, w: World, move: Move)
    requires WorldInv(sha, me, w) && w.wake.Working? && w.wake.items != [] && Current(w) in w.d.events
    ensures WorldInv(sha, me, Work(sha, me, w, move))
  {
    hide WorldInv, Asked, Failed, Slice, Confirms, PutFor, OpenFor;
    if move.Reuse? || move.Prepare? || move.Compress? || move.Recall? || move.PartAnswered? || move.PartDone? {
      WorkWorld(sha, me, w, move);
    }
    else if move.AskProgress? { ProgressWorld(sha, me, w); }
    else if move.SendPart? { SendWorld(sha, me, w, move.p); }
    else if move.Accept? { AcceptWorld(sha, me, w, move.p); }
    else if move.Post? { PostWorld(sha, me, w); }
    else if move.Forget? || move.Fail? { EndWorld(sha, me, w, move); }
    else if move.Ask? && w.wake.stage.Ready? {
      AskedKeeps(sha, me, w, w.wake.stage.bytes, move.paused, move.vendorKnown, move.replied);
    }
  }

  lemma {:induction false} StoryKeeps(sha: Hash, me: Device, w: World, moves: seq<Move>)
    requires StoryInv(sha, me, w)
    ensures StoryInv(sha, me, Story(sha, me, w, moves))
    decreases |moves|
  {
    hide StoryInv, After;
    if moves != [] {
      MoveKeeps(sha, me, w, moves[0]);
      StoryKeeps(sha, me, After(sha, me, w, moves[0]), moves[1..]);
    }
  }

  lemma BeginningHolds(sha: Hash, me: Device, w: World)
    requires Beginning(w)
    ensures StoryInv(sha, me, w)
  {
    hide Inv;
    InitHolds(sha, w.s);
    hide Init;
    assert ServiceInv(sha, me, w.s, w.mine) by { BeginningService(sha, me, w.s); }
  }

  lemma BeginningService(sha: Hash, me: Device, s: State)
    requires Init(s) && Inv(sha, s)
    ensures ServiceInv(sha, me, s, map[])
  {
    hide Inv;
  }

  // ---------------------------------------------------------------- the theorems

  lemma ToldInv(sha: Hash, me: Device, w: World)
    requires Told(sha, me, w)
    ensures StoryInv(sha, me, w)
  {
    hide StoryInv, Beginning, Story;
    var w0: World, moves: seq<Move> :| Beginning(w0) && Story(sha, me, w0, moves) == w;
    BeginningHolds(sha, me, w0);
    StoryKeeps(sha, me, w0, moves);
  }

  /** No receipt is lost. Whenever the image column of a receipt has been emptied, a session opened
      for that receipt id and the digest of the device's cached artifact was charged by the service,
      and the device had known that for at least seven days (604,800 seconds). */
  lemma NoReceiptLost(sha: Hash, me: Device, w: World, e: EventId)
    requires Told(sha, me, w) && e in w.d.events && w.d.events[e].image != w.d.events[e].captured
    ensures w.d.events[e].image == []  // it was emptied, not altered
    ensures e in w.cached && Accepted(w.s.h, w.d.events[e].receipt, sha(w.cached[e]))
    ensures AckedLongAgo(w, e)
  {
    hide Told, ServiceInv, Accepted, Distinct, CachedOk, KeptOk, UploadsOk, MineOk, WakeOk;
    ToldInv(sha, me, w);
    ExpendableMeans(sha, me, w, e);
    assert IsSynced(w.d, e);
  }

  /** Whatever the device or the service does: a photograph is altered, or a non-empty artifact goes, only
      by a purge, at least seven days after the service acknowledged that receipt. */
  lemma PurgedAfterSevenDays(sha: Hash, me: Device, w: World, move: Move, e: EventId)
    requires Told(sha, me, w)
    ensures var w' := After(sha, me, w, move);
            && (e in w.d.events ==>
                  && e in w'.d.events
                  && (w'.d.events[e] != w.d.events[e] ==>
                        && move.PurgeOldImages? && w'.d.events[e] == w.d.events[e].(image := [])
                        && AckedLongAgo(w, e)))
            && (e in w.d.artifacts && w.d.artifacts[e] != [] ==>
                  (e in w'.d.artifacts && w'.d.artifacts[e] == w.d.artifacts[e])
                  || (move.PurgeOldArtifacts? && e !in w'.d.artifacts && AckedLongAgo(w, e)))
  {
    hide Told, WorldInv, After, AckedLongAgo, Expendable;
    ToldInv(sha, me, w);
    if Expendable(w.d, e, w.s.t.now) { ExpendableMeans(sha, me, w, e); }
    if e in w.d.events { EventsMove(sha, me, w, move, e); }
    if e in w.d.artifacts && w.d.artifacts[e] != [] { ArtifactsMove(sha, me, w, move, e); }
  }

  lemma EventsMove(sha: Hash, me: Device, w: World, move: Move, e: EventId)
    requires e in w.d.events
    ensures var w' := After(sha, me, w, move);
            && e in w'.d.events
            && (w'.d.events[e] != w.d.events[e] ==>
                  move.PurgeOldImages? && w'.d.events[e] == w.d.events[e].(image := [])
                    && Expendable(w.d, e, w.s.t.now))
  {
    hide Next, OpenFor, PutFor, Work, Listable, Expendable;
    if w.wake.Working? && w.wake.items != [] && Current(w) in w.d.events { WorkEvents(sha, me, w, move, e); }
  }

  lemma ArtifactsMove(sha: Hash, me: Device, w: World, move: Move, e: EventId)
    requires WorldInv(sha, me, w) && e in w.d.artifacts && w.d.artifacts[e] != []
    ensures var w' := After(sha, me, w, move);
            || (e in w'.d.artifacts && w'.d.artifacts[e] == w.d.artifacts[e])
            || (move.PurgeOldArtifacts? && e !in w'.d.artifacts && Expendable(w.d, e, w.s.t.now))
  {
    hide Next, OpenFor, PutFor, Work, Listable, WorldInv, Expendable;
    if w.wake.Working? && w.wake.items != [] && Current(w) in w.d.events { WorkArtifacts(sha, me, w, move, e); }
  }

  lemma WorkArtifacts(sha: Hash, me: Device, w: World, move: Move, e: EventId)
    requires WorldInv(sha, me, w) && e in w.d.artifacts && w.d.artifacts[e] != []
    requires w.wake.Working? && w.wake.items != [] && Current(w) in w.d.events
    ensures var w' := Work(sha, me, w, move); e in w'.d.artifacts && w'.d.artifacts[e] == w.d.artifacts[e]
  {
    hide Next, OpenFor, PutFor, Asked, Confirms, Slice, Owned, ConfirmedParts, WorldInv, BackoffMs;
    if Current(w) == e { NotPreparing(sha, me, w); }
    if move.Ask? && w.wake.stage.Ready? { AskedArtifacts(sha, me, w, w.wake.stage.bytes, move); }
  }

  lemma AskedArtifacts(sha: Hash, me: Device, w: World, bytes: Bytes, move: Move)
    requires move.Ask? && w.wake.Working? && w.wake.items != [] && Current(w) in w.d.events
    ensures Asked(sha, me, w, bytes, move.paused, move.vendorKnown, move.replied).d.artifacts == w.d.artifacts
  {
    hide Next, CreateAnswerFor;
  }

  lemma NotPreparing(sha: Hash, me: Device, w: World)
    requires WorldInv(sha, me, w) && w.wake.Working? && w.wake.items != []
    requires Current(w) in w.d.artifacts && w.d.artifacts[Current(w)] != []
    ensures !w.wake.stage.Preparing?
  {
    hide ServiceInv, SyncedOk, UploadsOk, MineOk, ImagesOk, KeptOk, Distinct;
  }

  /** A receipt is marked synced only when the service has accepted it under the digest of its cached
      artifact: whatever failed, was killed or was answered twice in between. */
  lemma SyncedMeansAccepted(sha: Hash, me: Device, w: World, e: EventId)
    requires Told(sha, me, w) && IsSynced(w.d, e)
    ensures e in w.d.events && e in w.cached && Accepted(w.s.h, w.d.events[e].receipt, sha(w.cached[e]))
  {
    hide Told, ServiceInv, Accepted, Distinct, CachedOk, KeptOk, UploadsOk, MineOk, WakeOk, ImagesOk;
    ToldInv(sha, me, w);
  }

  /** A remembered upload id names a session that was opened for this receipt with the digest of its
      artifact, and no two receipts remember one id. */
  lemma UploadIdsFit(sha: Hash, me: Device, w: World, e: EventId, f: EventId)
    requires Told(sha, me, w) && e in w.d.uploads && f in w.d.uploads
    ensures e in w.d.events && e in w.cached && Known(w.s.h, w.d.uploads[e], w.d.events[e].receipt, sha(w.cached[e]))
    ensures w.d.uploads[e] in w.s.t.sessions ==>
              && w.s.t.sessions[w.d.uploads[e]].receipt == w.d.events[e].receipt
              && w.s.t.sessions[w.d.uploads[e]].digest == sha(w.cached[e])
    ensures w.d.uploads[e] == w.d.uploads[f] ==> e == f
  {
    hide Told, SweepInv, Inv, Accepted, CachedOk, KeptOk, SyncedOk, MineOk, WakeOk, ImagesOk;
    ToldInv(sha, me, w);
    assert Belongs(sha, w.d, w.cached, w.mine, w.s.h, e, w.d.uploads[e])
      && Belongs(sha, w.d, w.cached, w.mine, w.s.h, f, w.d.uploads[f]);
    if w.d.uploads[e] in w.s.t.sessions { SessionKnown(sha, w.s, w.d.uploads[e]); }
  }

  lemma CachedStays(sha: Hash, me: Device, w: World, move: Move, e: EventId)
    requires WorldInv(sha, me, w) && e in w.cached
    ensures var w' := After(sha, me, w, move); e in w'.cached && w'.cached[e] == w.cached[e]
  {
    hide Next, OpenFor, PutFor, Work, Listable, WorldInv, Capture, PurgeImages, PurgeArtifacts;
    if w.wake.Working? && w.wake.items != [] && Current(w) in w.d.events { WorkCached(sha, me, w, move, e); }
  }

  lemma WorkCached(sha: Hash, me: Device, w: World, move: Move, e: EventId)
    requires WorldInv(sha, me, w) && e in w.cached
    requires w.wake.Working? && w.wake.items != [] && Current(w) in w.d.events
    ensures var w' := Work(sha, me, w, move); e in w'.cached && w'.cached[e] == w.cached[e]
  {
    hide Next, OpenFor, PutFor, CreateAnswerFor, Confirms, Slice, Owned, ConfirmedParts;
    hide ServiceInv, SyncedOk, UploadsOk, MineOk, ImagesOk, KeptOk, CachedOk, Distinct;
  }

  lemma {:induction false} CachedForever(sha: Hash, me: Device, w: World, moves: seq<Move>, e: EventId)
    requires StoryInv(sha, me, w) && e in w.cached
    ensures var w' := Story(sha, me, w, moves); e in w'.cached && w'.cached[e] == w.cached[e]
    decreases |moves|
  {
    hide WorldInv, After;
    if moves != [] {
      CachedStays(sha, me, w, moves[0], e);
      MoveKeeps(sha, me, w, moves[0]);
      CachedForever(sha, me, After(sha, me, w, moves[0]), moves[1..], e);
    }
  }

  /** The artifact of a receipt is chosen once: every later attempt, after failures, kills and
      purges, sends the same bytes under the same digest. */
  lemma ArtifactForever(sha: Hash, me: Device, w: World, w': World, e: EventId)
    requires Told(sha, me, w) && Continues(sha, me, w, w') && e in w.cached
    ensures e in w'.cached && w'.cached[e] == w.cached[e]
    ensures e in w'.d.artifacts && w'.d.artifacts[e] != [] ==> w'.d.artifacts[e] == w.cached[e]
  {
    hide Told, ServiceInv, Story, Accepted, Distinct, KeptOk, SyncedOk, UploadsOk, MineOk, WakeOk, ImagesOk;
    ToldInv(sha, me, w);
    var moves: seq<Move> :| Story(sha, me, w, moves) == w';
    CachedForever(sha, me, w, moves, e);
    StoryKeeps(sha, me, w, moves);
  }

  /** Every session the service holds for this device and receipt was opened with the digest of that
      artifact, and whatever is about to be committed for it is that artifact byte for byte. */
  lemma SessionsCarryTheArtifact(sha: Hash, me: Device, w: World, u: UploadId, e: EventId)
    requires Told(sha, me, w)
    requires u in w.s.t.sessions && w.s.t.sessions[u].owner == me && e in w.d.events
             && w.d.events[e].receipt == w.s.t.sessions[u].receipt
    ensures e in w.cached && w.s.t.sessions[u].digest == sha(w.cached[e]) && w.s.t.sessions[u].total == |w.cached[e]|
    ensures forall p :: p in w.s.procs && w.s.procs[p].Stored? && w.s.procs[p].upload == u ==>
      w.s.procs[p].body == w.cached[e]
  {
    hide Told, Inv, SweepInv, Accepted, CachedOk, KeptOk, UploadsOk, WakeOk, ImagesOk, SyncedOk, Belongs, MineOk,
      FaithInv;
    ToldInv(sha, me, w);
    SessionKnown(sha, w.s, u);
    OwnSession(sha, w.d, w.cached, w.mine, w.s.h, e, u, w.s.t.sessions[u].digest);
    CarriedBytes(sha, w.s, w.d, w.cached, w.mine, e, u);
  }

  lemma SessionKnown(sha: Hash, s: State, u: UploadId)
    requires Inv(sha, s) && u in s.t.sessions
    ensures Known(s.h, u, s.t.sessions[u].receipt, s.t.sessions[u].digest)
  {
    hide ProcInv, Exclusive, PartInv, AgeInv, StorageInv, OncePer, OrgInv, ReceiptInv, ChargeInv, IndexInv;
  }

  lemma CarriedBytes(sha: Hash, s: State, d: Phone, cached: map<EventId, Bytes>, mine: map<UploadId, Bytes>, e: EventId,
      u: UploadId)
    requires FaithAll(s, mine) && Belongs(sha, d, cached, mine, s.h, e, u) && u in s.t.sessions
    requires Known(s.h, u, d.events[e].receipt, s.t.sessions[u].digest)
    ensures s.t.sessions[u].digest == sha(cached[e]) && s.t.sessions[u].total == |cached[e]|
    ensures forall p :: p in s.procs && s.procs[p].Stored? && s.procs[p].upload == u ==> s.procs[p].body == cached[e]
  {
    hide PartsFaithful;
    assert FaithInv(s, u, mine[u]);
  }
}
