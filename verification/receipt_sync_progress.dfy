/** A receipt gets through. From any moment at which nothing else is going on, the device and the
    service can bring a photograph that is not acknowledged to acceptance and the device to know it. */
module ReceiptSyncProgress {
  import opened Basics
  import opened UploadTables
  import opened UploadProtocol
  import opened UploadServer
  import opened UploadOutcomes
  import opened Reassembly
  import opened DeviceTables
  import opened ReceiptSync
  import opened ReceiptSyncProofs
  import opened ReceiptSyncSafety

  // ---------------------------------------------------------------- stories in pieces

  lemma {:induction false} StoryOneMore(sha: Hash, me: Device, w: World, moves: seq<Move>, move: Move)
    ensures Story(sha, me, w, moves + [move]) == After(sha, me, Story(sha, me, w, moves), move)
    decreases |moves|
  {
    hide After;
    if moves == [] {
      assert [] + [move] == [move] && [move][1..] == [];
    } else {
      assert (moves + [move])[1..] == moves[1..] + [move];
      StoryOneMore(sha, me, After(sha, me, w, moves[0]), moves[1..], move);
    }
  }

  lemma ContinuesNext(sha: Hash, me: Device, w: World, w': World, move: Move)
    requires Continues(sha, me, w, w')
    ensures Continues(sha, me, w, After(sha, me, w', move))
  {
    hide After, Story;
    var moves: seq<Move> :| Story(sha, me, w, moves) == w';
    StoryOneMore(sha, me, w, moves, move);
  }

  lemma ContinuesSelf(sha: Hash, me: Device, w: World)
    ensures Continues(sha, me, w, w)
  {
    assert Story(sha, me, w, []) == w;
  }

  /** The service alone takes a step that is not the device's. */
  lemma ContinuesServe(sha: Hash, me: Device, w: World, w': World, step: Step, s: State)
    requires Continues(sha, me, w, w') && NotOurs(step, me) && Next(sha, w'.s, step) == s
    ensures Continues(sha, me, w, w'.(s := s))
  {
    hide Next, Continues;
    ContinuesNext(sha, me, w, w', Serve(step));
  }

  // ---------------------------------------------------------------- the device prepares

  /** The artifact of the receipt: the one it was cached with, or what is compressed now. */
  function ArtifactOf(w: World, e: EventId, compressed: Bytes): Bytes {
    if e in w.cached then w.cached[e] else compressed
  }

  /** The wake has the receipt in hand with these bytes, and nothing it needs has changed. */
  ghost predicate InHandWith(w: World, w': World, e: EventId, image: Bytes) {
    && w'.wake.Working? && |w'.wake.items| == 1 && w'.wake.items[0].event == e && w'.wake.stage == Ready(image)
    && w'.s == w.s && e in w.d.events && e in w'.d.events && w'.d.events[e].receipt == w.d.events[e].receipt
    && e !in w'.d.uploads
  }

  lemma Listed(sha: Hash, me: Device, w: World, e: EventId) returns (w': World)
    requires w.wake.Idle? && Eligible(w.d, e, w.s.t.now)
    ensures Continues(sha, me, w, w')
    ensures var d := PurgeArtifacts(PurgeImages(w.d, w.s.t.now), w.s.t.now);
            w' == w.(wake := Working([Item(e, SyncOf(w.d, e).attempts)], Starting), d := d)
  {
    hide Continues;
    ContinuesSelf(sha, me, w);
    ContinuesNext(sha, me, w, w, WakeUp);
    var w1 := w.(wake := Purging);
    ContinuesNext(sha, me, w, w1, PurgeOldImages);
    var w2 := w1.(wake := Purged, d := PurgeImages(w.d, w.s.t.now));
    ContinuesNext(sha, me, w, w2, PurgeOldArtifacts);
    var w3 := w2.(wake := Listing, d := PurgeArtifacts(w2.d, w.s.t.now));
    var items := [Item(e, SyncOf(w.d, e).attempts)];
    assert Listable(w3, items);
    ContinuesNext(sha, me, w, w3, List(items));
    w' := w3.(wake := Working(items, Starting));
  }

  /** What is not synced has its artifact if it was ever cached. */
  lemma ArtifactKept(sha: Hash, me: Device, w: World, e: EventId)
    requires WorldInv(sha, me, w) && !IsSynced(w.d, e)
    ensures if e in w.cached then e in w.d.artifacts && w.d.artifacts[e] == w.cached[e] && w.cached[e] != []
            else e !in w.d.artifacts || w.d.artifacts[e] == []
  {
    hide ServiceInv, SyncedOk, UploadsOk, MineOk, ImagesOk, WakeOk, Distinct;
  }

  /** The wake has one receipt in hand, at this stage. */
  ghost predicate Holding(w: World, e: EventId, stage: Stage) {
    w.wake.Working? && |w.wake.items| == 1 && w.wake.items[0].event == e && w.wake.stage == stage && e in w.d.events
  }

  lemma Reuses(sha: Hash, me: Device, w: World, e: EventId)
    requires Holding(w, e, Starting) && e in w.d.artifacts && w.d.artifacts[e] != []
    ensures After(sha, me, w, Reuse) == At(w, Ready(w.d.artifacts[e]))
  {
    hide Next, OpenFor, PutFor, Asked, Failed, Acked, Confirms;
  }

  lemma Prepares(sha: Hash, me: Device, w: World, e: EventId)
    requires Holding(w, e, Starting) && (e in w.d.artifacts ==> w.d.artifacts[e] == [])
    ensures After(sha, me, w, Prepare) == At(w, Preparing).(d := Mark(w.d, e, Compressing))
  {
    hide Next, OpenFor, PutFor, Asked, Failed, Acked, Confirms, Mark;
  }

  lemma Compresses(sha: Hash, me: Device, w: World, e: EventId, bytes: Bytes)
    requires Holding(w, e, Preparing)
    ensures After(sha, me, w, Compress(bytes)) ==
            At(w, Ready(bytes)).(d := CacheArtifact(w.d, e, bytes),
                                 cached := if bytes != [] then w.cached[e := bytes] else w.cached)
  {
    hide Next, OpenFor, PutFor, Asked, Failed, Acked, Confirms;
  }

  lemma Asks(sha: Hash, me: Device, w: World, e: EventId, bytes: Bytes)
    requires Holding(w, e, Ready(bytes)) && e !in w.d.uploads
    ensures After(sha, me, w, Ask(false, true, true)) == Asked(sha, me, w, bytes, false, true, true)
  {
    hide Next, OpenFor, PutFor, Asked, Failed, Acked, Confirms;
  }

  lemma AskGives(sha: Hash, me: Device, w: World, e: EventId, bytes: Bytes, u: UploadId)
    requires Holding(w, e, Ready(bytes))
    requires CreateAnswerFor(w.s.t, me, Request(w.d.events[e].receipt, |bytes|, sha(bytes)), false, true) == Opened(u)
    ensures var w' := Asked(sha, me, w, bytes, false, true, true);
            && Holding(w', e, Stage.Addressed(bytes, u))
            && w'.s == Next(sha, w.s, OpenSession(me, Request(w.d.events[e].receipt, |bytes|, sha(bytes)), false, true))
  {
    hide Next, CreateAnswerFor, Failed, Acked;
  }

  lemma Progresses(sha: Hash, me: Device, w: World, e: EventId, bytes: Bytes, u: UploadId)
    requires Holding(w, e, Stage.Addressed(bytes, u)) && Owned(w.s.t, me, u)
    ensures After(sha, me, w, AskProgress) ==
            At(w, Sending(bytes, u, 0, ConfirmedParts(w.s.t, sha, u, bytes))).(d := Mark(w.d, e, Uploading))
  {
    hide Next, OpenFor, PutFor, Asked, Failed, Acked, Confirms, Mark, Owned, ConfirmedParts;
  }

  predicate AtPart(stage: Stage, bytes: Bytes, u: UploadId, n: nat) {
    stage.Sending? && stage.bytes == bytes && stage.upload == u && stage.next == n
  }

  lemma Sends(sha: Hash, me: Device, w: World, e: EventId, bytes: Bytes, u: UploadId, n: nat)
    requires w.wake.Working? && Holding(w, e, w.wake.stage) && AtPart(w.wake.stage, bytes, u, n)
             && n * PART_SIZE < |bytes|
    ensures After(sha, me, w, SendPart(0)) ==
            w.(s := Next(sha, w.s, PutCheck(0, me, u, n, Slice(bytes, n), sha(Slice(bytes, n)))))
    ensures n in ConfirmedParts(w.s.t, sha, u, bytes) ==>
              After(sha, me, w, PartAnswered) == At(w, w.wake.stage.(confirmed := w.wake.stage.confirmed + {n}))
    ensures n in w.wake.stage.confirmed ==> After(sha, me, w, PartDone) == At(w, w.wake.stage.(next := n + 1))
  {
    hide Next, Asked, Failed, Acked, Confirms, Slice, ConfirmedParts;
  }

  lemma Accepts(sha: Hash, me: Device, w: World, e: EventId, bytes: Bytes, u: UploadId, n: nat)
    requires w.wake.Working? && Holding(w, e, w.wake.stage) && AtPart(w.wake.stage, bytes, u, n)
             && |bytes| <= n * PART_SIZE
    requires 0 in w.s.procs && w.s.procs[0].Sweeping? && w.s.procs[0].upload == u
    ensures After(sha, me, w, Accept(0)) == Acked(At(w, Acknowledged(bytes, u)), e)
  {
    hide Next, OpenFor, PutFor, Asked, Failed, Acked;
  }

  lemma FromCache(sha: Hash, me: Device, w: World, w1: World, e: EventId) returns (w': World)
    requires Continues(sha, me, w, w1) && Holding(w1, e, Starting) && e in w1.d.artifacts && w1.d.artifacts[e] != []
    ensures Continues(sha, me, w, w') && w' == At(w1, Ready(w1.d.artifacts[e]))
  {
    hide Continues, After;
    ContinuesNext(sha, me, w, w1, Reuse);
    Reuses(sha, me, w1, e);
    w' := At(w1, Ready(w1.d.artifacts[e]));
  }

  lemma Compressed(sha: Hash, me: Device, w: World, w1: World, e: EventId, bytes: Bytes) returns (w': World)
    requires Continues(sha, me, w, w1) && Holding(w1, e, Starting)
    requires e in w1.d.artifacts ==> w1.d.artifacts[e] == []
    ensures Continues(sha, me, w, w') && Holding(w', e, Ready(bytes)) && w'.s == w1.s && w'.d.events == w1.d.events
            && w'.d.uploads == w1.d.uploads
  {
    hide Continues, After;
    ContinuesNext(sha, me, w, w1, Prepare);
    Prepares(sha, me, w1, e);
    var w2 := At(w1, Preparing).(d := Mark(w1.d, e, Compressing));
    ContinuesNext(sha, me, w, w2, Compress(bytes));
    Compresses(sha, me, w2, e, bytes);
    w' := After(sha, me, w2, Compress(bytes));
  }

  /** A purge does not touch what is not synced. */
  lemma EventsKept(d: Phone, now: nat, e: EventId)
    requires !IsSynced(d, e)
    ensures var d' := PurgeArtifacts(PurgeImages(d, now), now);
            && (e in d.events ==> e in d'.events && d'.events[e] == d.events[e]) && d'.uploads == d.uploads
            && (e in d.artifacts <==> e in d'.artifacts) && (e in d.artifacts ==> d'.artifacts[e] == d.artifacts[e])
  {
  }

  lemma Prepared(sha: Hash, me: Device, w: World, e: EventId, compressed: Bytes) returns (w': World)
    requires WorldInv(sha, me, w) && w.wake.Idle? && Eligible(w.d, e, w.s.t.now) && e !in w.d.uploads
    ensures Continues(sha, me, w, w') && InHandWith(w, w', e, ArtifactOf(w, e, compressed))
  {
    hide Continues, WorldInv, Mark, SyncOf;
    ArtifactKept(sha, me, w, e);
    EventsKept(w.d, w.s.t.now, e);
    hide PurgeArtifacts, PurgeImages;
    var w1 := Listed(sha, me, w, e);
    if e in w.cached {
      w' := FromCache(sha, me, w, w1, e);
    } else {
      w' := Compressed(sha, me, w, w1, e, compressed);
    }
  }

  // ---------------------------------------------------------------- the session and its parts

  /** The wake sends part `n` of the image, and only these tables of the service matter. */
  ghost predicate SendingFrom(w: World, e: EventId, image: Bytes, u: UploadId, n: nat, t: Tables) {
    && w.wake.Working? && |w.wake.items| == 1 && w.wake.items[0].event == e && AtPart(w.wake.stage, image, u, n)
    && e in w.d.events && w.s.t == t && w.s.procs == map[]
  }

  lemma Addressed(sha: Hash, me: Device, w: World, w1: World, e: EventId, image: Bytes) returns (w': World)
    requires Inv(sha, w.s) && w.s.procs == map[] && e in w.d.events && w.d.events[e].receipt !in w.s.t.sessionOf
    requires 1 <= |image| <= 5_000_000 && WithinLimits(w.s.t, me, |image|)
    requires Continues(sha, me, w, w1) && InHandWith(w, w1, e, image)
    ensures Continues(sha, me, w, w')
    ensures var u := w.s.t.nextUpload;
            var begun := Create(w.s.t, me, Request(w.d.events[e].receipt, |image|, sha(image)), false, true);
            SendingFrom(w', e, image, u, 0, begun) && AwaitsImage(begun, me, u, image, n => w.s.t.now)
            && begun.sessions[u].receipt == w.d.events[e].receipt && begun.sessions[u].digest == sha(image)
            && begun.orgs == w.s.t.orgs && begun.sites == w.s.t.sites && begun.now == w.s.t.now
  {
    var r := w.d.events[e].receipt;
    var u := w.s.t.nextUpload;
    var request := Request(r, |image|, sha(image));
    var begun := Create(w.s.t, me, request, false, true);
    LimitsOpen(sha, w.s, me, r, image, n => w.s.t.now);
    NowKept(w.s.t, me, request);
    hide Continues, Inv, CreateAnswerFor, Create, After, Asked;
    ContinuesNext(sha, me, w, w1, Ask(false, true, true));
    Asks(sha, me, w1, e, image);
    AskGives(sha, me, w1, e, image, u);
    var w2 := Asked(sha, me, w1, image, false, true, true);
    OpensOnly(sha, w.s, me, request);
    ContinuesNext(sha, me, w, w2, AskProgress);
    Progresses(sha, me, w2, e, image, u);
    w' := At(w2, Sending(image, u, 0, ConfirmedParts(w2.s.t, sha, u, image))).(d := Mark(w2.d, e, Uploading));
  }

  lemma OpensOnly(sha: Hash, s: State, device: Device, request: Request)
    ensures var s' := Next(sha, s, OpenSession(device, request, false, true));
            s'.t == Create(s.t, device, request, false, true) && s'.procs == s.procs
  {
    hide CreateAnswerFor;
  }

  lemma NowKept(t: Tables, device: Device, request: Request)
    ensures Create(t, device, request, false, true).now == t.now
  {
    hide CreateAnswerFor;
  }

  lemma PartGetsThrough(sha: Hash, me: Device, w: World, w1: World, e: EventId, image: Bytes, t0: Tables, u: UploadId,
      n: nat) returns (w': World)
    requires AwaitsImage(t0, me, u, image, m => t0.now) && StoredSlices(sha, t0, w1.s.t, u, image, n)
    requires w1.s.t.now == t0.now && n * PART_SIZE < |image|
    requires Continues(sha, me, w, w1) && SendingFrom(w1, e, image, u, n, w1.s.t)
    ensures Continues(sha, me, w, w') && SendingFrom(w', e, image, u, n + 1, w'.s.t)
    ensures StoredSlices(sha, t0, w'.s.t, u, image, n + 1) && w'.s.t.now == t0.now
  {
    var t, h := w1.s.t, w1.s.h;
    var body := Slice(image, n);
    SliceStored(sha, t0, t, me, u, image, m => t0.now, n);
    assert t.(now := t0.now) == t;
    hide AwaitsImage, StoredSlices, Continues, CheckPart, PutObject, InsertPart, Next, Slice, After;
    Sends(sha, me, w1, e, image, u, n);
    assert w1.s == Alone(t, h, None);
    AlonePut(sha, t, h, me, u, n, body, sha(body));
    ContinuesNext(sha, me, w, w1, SendPart(0));
    var w2 := w1.(s := Alone(t, h, Some(Putting(u, n, body, false))));
    var t' := PutObject(t, PartKey(u, n), body);
    ContinuesServe(sha, me, w, w2, PutWrite(0), Alone(t', h, Some(Putting(u, n, body, true))));
    var w3 := w2.(s := Alone(t', h, Some(Putting(u, n, body, true))));
    AloneInsert(sha, t', h, u, n, body);
    ContinuesServe(sha, me, w, w3, PutInsert(0), Alone(InsertPart(t', sha, u, n, body), h, None));
    var w4 := w3.(s := Alone(InsertPart(t', sha, u, n, body), h, None));
    PartListed(sha, t0, t, me, u, image, n);
    ContinuesNext(sha, me, w, w4, PartAnswered);
    Sends(sha, me, w4, e, image, u, n);
    var w5 := At(w4, w4.wake.stage.(confirmed := w4.wake.stage.confirmed + {n}));
    ContinuesNext(sha, me, w, w5, PartDone);
    Sends(sha, me, w5, e, image, u, n);
    w' := At(w5, w5.wake.stage.(next := n + 1));
    assert w'.s.t == PartPut(t, sha, me, u, n, body, sha(body));
    SlicesNow(sha, t0, w'.s.t, t, u, image, n);
  }

  /** The stored part is one the service confirms. */
  lemma PartListed(sha: Hash, t0: Tables, t: Tables, me: Device, u: UploadId, image: Bytes, n: nat)
    requires AwaitsImage(t0, me, u, image, m => t0.now) && StoredSlices(sha, t0, t, u, image, n)
    requires t.now == t0.now && n * PART_SIZE < |image|
    ensures var t' := PartPut(t, sha, me, u, n, Slice(image, n), sha(Slice(image, n)));
            n in ConfirmedParts(t', sha, u, image)
  {
    SliceStored(sha, t0, t, me, u, image, m => t0.now, n);
    assert t.(now := t0.now) == t;
    PrefixEnds(image, n);
    hide AwaitsImage, PartPut, CheckPart;
  }

  lemma SlicesNow(sha: Hash, t0: Tables, t': Tables, t: Tables, u: UploadId, image: Bytes, n: nat)
    requires exists device: Device, body: Bytes :: t' == PartPut(t, sha, device, u, n, body, sha(body))
    ensures t'.now == t.now
  {
    hide CheckPart;
  }

  lemma {:induction false} PartsGetThrough(sha: Hash, me: Device, w: World, w1: World, e: EventId, image: Bytes,
      t0: Tables, u: UploadId, n: nat) returns (w': World)
    requires AwaitsImage(t0, me, u, image, m => t0.now) && StoredSlices(sha, t0, w1.s.t, u, image, n)
    requires w1.s.t.now == t0.now && n <= PartCount(|image|)
    requires Continues(sha, me, w, w1) && SendingFrom(w1, e, image, u, n, w1.s.t)
    ensures Continues(sha, me, w, w') && SendingFrom(w', e, image, u, PartCount(|image|), w'.s.t)
    ensures StoredSlices(sha, t0, w'.s.t, u, image, PartCount(|image|)) && w'.s.t.now == t0.now
    decreases |image| - n * PART_SIZE
  {
    hide AwaitsImage, StoredSlices, Continues;
    PrefixEnds(image, n);
    if n * PART_SIZE < |image| {
      var w2 := PartGetsThrough(sha, me, w, w1, e, image, t0, u, n);
      w' := PartsGetThrough(sha, me, w, w2, e, image, t0, u, n + 1);
    } else {
      w' := w1;
    }
  }

  // ---------------------------------------------------------------- the completion

  lemma OneRead(sha: Hash, t: Tables, h: History, u: UploadId, row: Session, n: nat)
    requires u in t.sessions && InPlace(t, u) && AllThere(t, u, ALL_ANSWER)
    requires n < PartCount(t.sessions[u].total) && n < |RowsOf(t, u)|
    ensures Next(sha, Alone(t, h, Some(Reading(u, row, RowsOf(t, u), n, StoredBytes(t.store, u, n)))),
            ReadPart(0, false)) ==
            Alone(t, h, Some(Reading(u, row, RowsOf(t, u), n + 1, StoredBytes(t.store, u, n + 1))))
  {
    var rows, body := RowsOf(t, u), StoredBytes(t.store, u, n);
    var count := PartCount(t.sessions[u].total);
    assert n * 256_000 < t.sessions[u].total;
    var k := n + 1;
    forall m: nat | m < k ensures PartThere(t, u, ALL_ANSWER, m) {
      assert m * 256_000 < t.sessions[u].total;
    }
    RowsBegin(t, u, ALL_ANSWER, 0, n + 1, count);
    StoredLength(t, u, ALL_ANSWER, n);
    assert rows[n] == t.parts[(u, n)] && PartThere(t, u, ALL_ANSWER, n);
    assert rows[n].offset == |body| && rows[n].key in t.store && |t.store[rows[n].key].body| == rows[n].length;
    hide RowsOf, PartThere, InPlace, AllThere;
    var c := Reading(u, row, rows, n, body);
    ReadOne(sha, Alone(t, h, Some(c)), 0, c, false);
    AloneSet(t, h, c, Reading(u, row, rows, n + 1, StoredBytes(t.store, u, n + 1)), t);
  }

  lemma {:induction false} AllRead(sha: Hash, me: Device, w: World, w1: World, t: Tables, h: History, u: UploadId,
      row: Session, n: nat)
    requires u in t.sessions && InPlace(t, u) && AllThere(t, u, ALL_ANSWER)
    requires n <= PartCount(t.sessions[u].total) == |RowsOf(t, u)|
    requires Continues(sha, me, w,
               w1.(s := Alone(t, h, Some(Reading(u, row, RowsOf(t, u), n, StoredBytes(t.store, u, n))))))
    ensures var count := |RowsOf(t, u)|;
            Continues(sha, me, w,
              w1.(s := Alone(t, h, Some(Reading(u, row, RowsOf(t, u), count, StoredBytes(t.store, u, count))))))
    decreases |RowsOf(t, u)| - n
  {
    hide Continues, Next, InPlace, AllThere, RowsOf, StoredBytes;
    if n < |RowsOf(t, u)| {
      OneRead(sha, t, h, u, row, n);
      var w2 := w1.(s := Alone(t, h, Some(Reading(u, row, RowsOf(t, u), n, StoredBytes(t.store, u, n)))));
      ContinuesServe(sha, me, w, w2, ReadPart(0, false),
        Alone(t, h, Some(Reading(u, row, RowsOf(t, u), n + 1, StoredBytes(t.store, u, n + 1)))));
      AllRead(sha, me, w, w1, t, h, u, row, n + 1);
    }
  }

  /** The claim, the part loop and the checks. */
  lemma Inspected(sha: Hash, me: Device, w: World, w1: World, t: Tables, h: History, u: UploadId, image: Bytes)
    requires Continues(sha, me, w, w1) && w1.s == Alone(t, h, None)
    requires u in t.sessions && t.sessions[u].owner == me && t.sessions[u].status == OPEN
    requires t.sessions[u].total == |image| > 0 && t.sessions[u].digest == sha(image)
    requires InPlace(t, u) && AllThere(t, u, ALL_ANSWER) && WebpHeader(image)
    requires StoredBytes(t.store, u, PartCount(|image|)) == image
    ensures Continues(sha, me, w,
              w1.(s := Alone(Claim(t, me, u), h, Some(Assembled(u, t.sessions[u], RowsOf(t, u), image)))))
  {
    var x, rows, t1 := t.sessions[u], RowsOf(t, u), Claim(t, me, u);
    LoopEnds(t, u, ALL_ANSWER);
    HeaderIsWebp(image);
    assert t1 == WithRow(t, u, x.(status := COMPLETING, updated := t.now));
    ClaimKeeps(t, t1, u, image);
    hide Continues, Next, InPlace, AllThere, StoredBytes, RowsOf, Claim, IsWebp, WebpHeader;
    AloneClaim(sha, t, h, me, u);
    ContinuesServe(sha, me, w, w1, ClaimSession(0, me, u), Alone(t1, h, Some(Reading(u, x, rows, 0, []))));
    NothingRead(t1, u);
    AllRead(sha, me, w, w1, t1, h, u, x, 0);
    var c := Reading(u, x, rows, |rows|, image);
    AloneInspect(sha, t1, h, c);
    ContinuesServe(sha, me, w, w1.(s := Alone(t1, h, Some(c))), Inspect(0),
      Alone(t1, h, Some(Assembled(u, x, rows, image))));
  }

  /** From the stored slices to the committed receipt. */
  lemma Completes(sha: Hash, me: Device, w: World, w1: World, t: Tables, u: UploadId, image: Bytes) returns (w': World)
    requires Continues(sha, me, w, w1) && w1.s.t == t && w1.s.procs == map[]
    requires u in t.sessions && t.sessions[u].owner == me && t.sessions[u].status == OPEN
    requires t.sessions[u].total == |image| > 0 && t.sessions[u].digest == sha(image)
    requires InPlace(t, u) && AllThere(t, u, ALL_ANSWER) && WebpHeader(image)
    requires StoredBytes(t.store, u, PartCount(|image|)) == image && LimitError(t, me, |image|, Within).None?
    ensures Continues(sha, me, w, w') && w' == w1.(s := w'.s)
    ensures ImageAccepted(w'.s.t, me, t.sessions[u].receipt, u, image, sha(image), t.now) && w'.s.t.now == t.now
    ensures 0 in w'.s.procs && w'.s.procs[0].Sweeping? && w'.s.procs[0].upload == u
  {
    hide InPlace, AllThere, StoredBytes, WebpHeader, LimitError, Continues, Next, RowsOf;
    var h, x, rows, t1 := w1.s.h, t.sessions[u], RowsOf(t, u), Claim(t, me, u);
    var key := ImageKey(x.receipt, t.now / 86_400);
    assert t1 == WithRow(t, u, x.(status := COMPLETING, updated := t.now));
    WrittenTables(t, t1, u, image);
    CommitGives(t, u, image, Within);
    AcceptedBooks(t, me, u, image);
    assert w1.s == Alone(t, h, None);
    Inspected(sha, me, w, w1, t, h, u, image);
    hide Claim, RecordImageKey, PutObject, Commit, CommitError, Written, BookedTables, ImageAccepted;
    AloneKey(sha, t1, h, u, x, rows, image);
    var t2 := RecordImageKey(t1, u, key);
    var w2 := w1.(s := Alone(t1, h, Some(Assembled(u, x, rows, image))));
    ContinuesServe(sha, me, w, w2, RecordKey(0), Alone(t2, h, Some(Keyed(u, x, rows, image, key))));
    AloneStore(sha, t2, h, u, x, rows, image, key);
    var t3 := PutObject(t2, key, image);
    var w3 := w1.(s := Alone(t2, h, Some(Keyed(u, x, rows, image, key))));
    ContinuesServe(sha, me, w, w3, WriteImage(0), Alone(t3, h, Some(Stored(u, x, rows, image, key))));
    var w4 := w1.(s := Alone(t3, h, Some(Stored(u, x, rows, image, key))));
    AloneCommit(sha, t3, h, Stored(u, x, rows, image, key), Within, NoFault);
    var h' := h.(charged := h.charged + multiset{u});
    var s' := Alone(BookedTables(t, u, image), h', Some(Sweeping(u, rows, 0, true)));
    ContinuesServe(sha, me, w, w4, CommitReceipt(0, Within, NoFault), s');
    w' := w1.(s := s');
  }

  lemma NothingRead(t: Tables, u: UploadId)
    ensures StoredBytes(t.store, u, 0) == []
  {
  }

  /** The claim leaves the parts as they are. */
  lemma ClaimKeeps(t: Tables, t1: Tables, u: UploadId, image: Bytes)
    requires u in t.sessions && InPlace(t, u) && AllThere(t, u, ALL_ANSWER)
    requires t1 == WithRow(t, u, t.sessions[u].(status := COMPLETING, updated := t.now))
    ensures u in t1.sessions && InPlace(t1, u) && AllThere(t1, u, ALL_ANSWER)
    ensures t1.sessions[u].total == t.sessions[u].total && RowsOf(t1, u) == RowsOf(t, u)
  {
    SameRows(t, t1, u, 0, PartCount(t.sessions[u].total));
    forall n: nat | n * 256_000 < t.sessions[u].total ensures PartThere(t1, u, ALL_ANSWER, n) {
      assert PartThere(t, u, ALL_ANSWER, n);
    }
  }

  lemma {:induction false} SameRows(t: Tables, t1: Tables, u: UploadId, n: nat, count: nat)
    requires t1.parts == t.parts && n <= count
    ensures PartRows(t1, u, n, count) == PartRows(t, u, n, count)
    decreases count - n
  {
    if n < count { SameRows(t, t1, u, n + 1, count); }
  }

  lemma AcceptedBooks(t: Tables, device: Device, u: UploadId, image: Bytes)
    requires u in t.sessions && t.sessions[u].owner == device && device.org in t.orgs
    requires t.sessions[u].total == |image|
    ensures var r, digest := t.sessions[u].receipt, t.sessions[u].digest;
            ImageAccepted(BookedTables(t, u, image), device, r, u, image, digest, t.now)
              && BookedTables(t, u, image).now == t.now
  {
  }

  /** An upload id the service knows no session of is forgotten and the failure counted, so that the next
      attempt asks for a new session. */
  lemma LostSessionForgotten(sha: Hash, me: Device, w: World, e: EventId, bytes: Bytes, u: UploadId)
    requires Holding(w, e, Stage.Addressed(bytes, u)) && !(u in w.s.t.sessions && w.s.t.sessions[u].owner == me)
    ensures var w' := After(sha, me, w, AskProgress);
            && e !in w'.d.uploads && w'.s == w.s && e in w'.fails && w'.fails[e].at == w.s.t.now
            && w'.d == Increment(ClearUploadId(w.d, e), e, w.s.t.now + BackoffMs(w.wake.items[0].attempts) / 1000)
  {
    hide Next, OpenFor, PutFor, Asked, Acked, Confirms, BackoffMs;
  }

  // ---------------------------------------------------------------- the whole way

  /** From the open session to the commit. */
  lemma Uploads(sha: Hash, me: Device, w: World, w1: World, e: EventId, image: Bytes, t0: Tables, u: UploadId)
      returns (w': World)
    requires Continues(sha, me, w, w1) && SendingFrom(w1, e, image, u, 0, t0)
    requires AwaitsImage(t0, me, u, image, m => t0.now) && WithinLimits(t0, me, |image|)
    requires u in t0.sessions && t0.sessions[u].digest == sha(image) && WebpHeader(image) && |image| > 0
    ensures Continues(sha, me, w, w') && w'.wake.Working? && Holding(w', e, w'.wake.stage)
            && AtPart(w'.wake.stage, image, u, PartCount(|image|))
    ensures 0 in w'.s.procs && w'.s.procs[0].Sweeping? && w'.s.procs[0].upload == u && w'.s.t.now == t0.now
    ensures ImageAccepted(w'.s.t, me, t0.sessions[u].receipt, u, image, sha(image), t0.now)
  {
    hide AwaitsImage, StoredSlices, WebpHeader, WithinLimits, LimitError, InPlace, AllThere, StoredBytes, ImageAccepted;
    hide Continues;
    NothingSent(sha, t0, u, image);
    var w2 := PartsGetThrough(sha, me, w, w1, e, image, t0, u, 0);
    var t := w2.s.t;
    SlicesKeep(sha, t0, t, u, image);
    SlicesThere(sha, t0, t, me, u, image, n => t0.now);
    SentOpen(t0, t, me, u, image, n => t0.now);
    w' := Completes(sha, me, w, w2, t, u, image);
  }

  /** From the open session to the device's knowledge. */
  lemma Acknowledges(sha: Hash, me: Device, w: World, w1: World, e: EventId, image: Bytes, t0: Tables, u: UploadId)
      returns (w': World)
    requires Continues(sha, me, w, w1) && SendingFrom(w1, e, image, u, 0, t0)
    requires AwaitsImage(t0, me, u, image, m => t0.now) && WithinLimits(t0, me, |image|)
    requires u in t0.sessions && t0.sessions[u].digest == sha(image) && WebpHeader(image) && |image| > 0
    ensures Continues(sha, me, w, w') && IsSynced(w'.d, e) && (e, t0.now) in w'.acks
    ensures ImageAccepted(w'.s.t, me, t0.sessions[u].receipt, u, image, sha(image), t0.now)
  {
    hide Continues, After, AwaitsImage, WebpHeader, WithinLimits, ImageAccepted;
    var w2 := Uploads(sha, me, w, w1, e, image, t0, u);
    PrefixEnds(image, PartCount(|image|));
    ContinuesNext(sha, me, w, w2, Accept(0));
    Accepts(sha, me, w2, e, image, u, PartCount(|image|));
    w' := Acked(At(w2, Acknowledged(image, u)), e);
  }

  lemma SameLimits(t: Tables, t': Tables, device: Device, bytes: nat)
    requires WithinLimits(t, device, bytes) && t'.orgs == t.orgs && t'.sites == t.sites
    ensures WithinLimits(t', device, bytes)
  {
  }

  /** A receipt gets through. Take any moment of any story at which the device sleeps and no request is
      running, and a receipt the device may list, that the service does not know, whose artifact (the
      cached one, or else any the compression yields) is a WebP of 1 to 5,000,000 bytes within the limits.
      Then the story can go on so that the service accepts exactly that artifact under the receipt's id
      and the device marks the receipt synced. */
  lemma ReceiptGetsThrough(sha: Hash, me: Device, w: World, e: EventId, compressed: Bytes) returns (w': World)
    requires Told(sha, me, w) && w.wake.Idle? && w.s.procs == map[]
    requires Eligible(w.d, e, w.s.t.now) && e !in w.d.uploads && w.d.events[e].receipt !in w.s.t.sessionOf
    requires var image := ArtifactOf(w, e, compressed);
             1 <= |image| <= 5_000_000 && WebpHeader(image) && WithinLimits(w.s.t, me, |image|)
    ensures Continues(sha, me, w, w')
    ensures var image := ArtifactOf(w, e, compressed);
            ImageAccepted(w'.s.t, me, w.d.events[e].receipt, w.s.t.nextUpload, image, sha(image), w.s.t.now)
    ensures IsSynced(w'.d, e) && (e, w.s.t.now) in w'.acks
  {
    var image := ArtifactOf(w, e, compressed);
    hide Told, Continues, ArtifactOf, After, AwaitsImage, WebpHeader, WithinLimits, ImageAccepted, Eligible, WorldInv;
    ToldInv(sha, me, w);
    WorldService(sha, me, w);
    var w1 := Prepared(sha, me, w, e, compressed);
    hide Inv;
    var w2 := Addressed(sha, me, w, w1, e, image);
    SameLimits(w.s.t, w2.s.t, me, |image|);
    w' := Acknowledges(sha, me, w, w2, e, image, w2.s.t, w.s.t.nextUpload);
  }

  lemma WorldService(sha: Hash, me: Device, w: World)
    requires WorldInv(sha, me, w)
    ensures Inv(sha, w.s)
  {
    hide Inv, PhoneInv;
  }
}
