/** One device and the whole upload service as a single protocol. The device wakes, purges, lists
    and syncs receipts one at a time, and may fail at any request or be killed at any point; a request
    it has given up may still arrive later, more than once; the service meanwhile serves anyone and
    runs its jobs. */
module ReceiptSync {
  import opened Basics
  import opened UploadTables
  import opened UploadProtocol
  import opened Reassembly
  import opened DeviceTables

  /** How far the current item has come. The parts the service has confirmed, in its progress answer or in
      the answer to a part, are not sent again. */
  datatype Stage =
    | Starting
    | Preparing
    | Ready(bytes: Bytes)
    | Addressed(bytes: Bytes, upload: UploadId)
    | Sending(bytes: Bytes, upload: UploadId, next: nat, confirmed: set<nat>)
    | Acknowledged(bytes: Bytes, upload: UploadId)

  /** A row of the pending list, with the attempt count it was listed with. */
  datatype Item = Item(event: EventId, attempts: nat)

  /** The running wake, if any. The first of `items` is the current one. */
  datatype Wake = Idle | Purging | Purged | Listing | Working(items: seq<Item>, stage: Stage)

  /** A request that has left the device: to open a session for an artifact, or to store one of its parts. */
  datatype Letter = ToOpen(event: EventId, bytes: Bytes) | ToStore(upload: UploadId, n: nat, bytes: Bytes)

  /** The last failure of a receipt since it was acknowledged: when, with how many attempts it had been
      listed, and how many failures there were. */
  datatype Failure = Failure(at: nat, listed: nat, count: nat)

  /** What is in `posted` may reach the service at any time, any number of times. `cached` keeps every
      artifact the device ever cached, `mine` the artifact behind each of the device's sessions, `acks`
      every acknowledgement with its time; like `fails`, they are for the theorems only. */
  datatype World = World(
    s: State,
    d: Phone,
    wake: Wake,
    posted: set<Letter>,
    cached: map<EventId, Bytes>,
    mine: map<UploadId, Bytes>,
    acks: set<(EventId, nat)>,
    fails: map<EventId, Failure>)

  datatype Move =
    | Serve(step: Step)
    | Photograph(e: EventId, receipt: ReceiptId, image: Bytes)
    | WakeUp
    | PurgeOldImages
    | PurgeOldArtifacts
    | List(items: seq<Item>)
    | Reuse
    | Prepare
    | Compress(bytes: Bytes)
    | Recall
    | Post
    | Arrive(letter: Letter, p: ProcId, paused: bool, vendorKnown: bool)
    | Ask(paused: bool, vendorKnown: bool, replied: bool)
    | AskProgress
    | SendPart(p: ProcId)
    | PartAnswered
    | PartDone
    | Accept(p: ProcId)
    | Forget
    | Fail
    | Rest
    | Kill

  /** Requests in the device's name to open a session or store a part were sent by the device itself. */
  predicate NotOurs(step: Step, me: Device) {
    && (step.OpenSession? ==> step.device != me)
    && (step.PutCheck? ==> step.device != me)
  }

  function Current(w: World): EventId
    requires w.wake.Working? && w.wake.items != []
  {
    w.wake.items[0].event
  }

  ghost function At(w: World, stage: Stage): World
    requires w.wake.Working?
  {
    w.(wake := Working(w.wake.items, stage))
  }

  ghost function NextItem(w: World): World
    requires w.wake.Working? && w.wake.items != []
  {
    w.(wake := Working(w.wake.items[1..], Starting))
  }

  /** The attempt ends: it is counted, and the item waits for its backoff. */
  ghost function Failed(w: World): World
    requires w.wake.Working? && w.wake.items != []
  {
    var e := Current(w);
    var listed := w.wake.items[0].attempts;
    var count := if e in w.fails then w.fails[e].count + 1 else 1;
    NextItem(w).(d := Increment(w.d, e, w.s.t.now + BackoffMs(listed) / 1000),
                 fails := w.fails[e := Failure(w.s.t.now, listed, count)])
  }

  /** The service has the receipt, and the device knows. */
  ghost function Acked(w: World, e: EventId): World {
    w.(d := CompleteSync(w.d, e, w.s.t.now), acks := w.acks + {(e, w.s.t.now)}, fails := w.fails - {e})
  }

  ghost predicate Listable(w: World, items: seq<Item>) {
    forall item :: item in items ==>
      Eligible(w.d, item.event, w.s.t.now) && item.attempts == SyncOf(w.d, item.event).attempts
  }

  function OpenFor(w: World, me: Device, e: EventId, bytes: Bytes, sha: Hash, paused: bool, vendorKnown: bool): Step
    requires e in w.d.events
  {
    OpenSession(me, Request(w.d.events[e].receipt, |bytes|, sha(bytes)), paused, vendorKnown)
  }

  function PutFor(me: Device, p: ProcId, u: UploadId, n: nat, bytes: Bytes, sha: Hash): Step
    requires n * PART_SIZE < |bytes|
  {
    PutCheck(p, me, u, n, Slice(bytes, n), sha(Slice(bytes, n)))
  }

  /** The slices the service has rows of, with the right digest. */
  function ConfirmedParts(t: Tables, sha: Hash, u: UploadId, bytes: Bytes): set<nat> {
    set n: nat | n < PartCount(|bytes|) && n * PART_SIZE < |bytes| && (u, n) in t.parts
                 && t.parts[(u, n)].digest == sha(Slice(bytes, n)) :: n
  }

  /** A request to open a session is served. */
  ghost function Delivered(sha: Hash, me: Device, w: World, e: EventId, bytes: Bytes, paused: bool,
      vendorKnown: bool): World
    requires e in w.d.events
  {
    var u := w.s.t.nextUpload;
    var s' := Next(sha, w.s, OpenFor(w, me, e, bytes, sha, paused, vendorKnown));
    w.(s := s', mine := if s'.t.nextUpload != u then w.mine[u := bytes] else w.mine)
  }

  /** A request arrives that the device may have given up long ago. */
  ghost function Arrived(sha: Hash, me: Device, w: World, move: Move): World
    requires move.Arrive?
  {
    match move.letter
    case ToOpen(e, bytes) =>
      if e in w.d.events then Delivered(sha, me, w, e, bytes, move.paused, move.vendorKnown) else w
    case ToStore(u, n, bytes) =>
      if n * PART_SIZE < |bytes| then w.(s := Next(sha, w.s, PutFor(me, move.p, u, n, bytes, sha))) else w
  }

  /** The session request reaches the service; its answer may or may not reach the device. */
  ghost function Asked(sha: Hash, me: Device, w: World, bytes: Bytes, paused: bool, vendorKnown: bool,
      replied: bool): World
    requires w.wake.Working? && w.wake.items != [] && Current(w) in w.d.events
  {
    var open := OpenFor(w, me, Current(w), bytes, sha, paused, vendorKnown);
    var answer := CreateAnswerFor(w.s.t, me, open.request, paused, vendorKnown);
    var w' := Delivered(sha, me, w, Current(w), bytes, paused, vendorKnown);
    if !replied then Failed(w')
    else match answer
      case Received(_) => Acked(NextItem(w'), Current(w))
      case Opened(u) => At(w', Addressed(bytes, u)).(d := SetUploadId(w.d, Current(w), u))
      case CreateRefused(_) => Failed(w')
  }

  /** A positive answer to the completion request: the request has committed, or the session was already complete. */
  ghost predicate Confirms(s: State, me: Device, u: UploadId, p: ProcId) {
    || (p in s.procs && s.procs[p].Sweeping? && s.procs[p].upload == u)
    || ClaimAnswerFor(s.t, me, u).Duplicate?
  }

  ghost function After(sha: Hash, me: Device, w: World, move: Move): World {
    match move
    case Serve(step) => if NotOurs(step, me) then w.(s := Next(sha, w.s, step)) else w
    case Photograph(e, receipt, image) =>
      if e !in w.d.events && (forall x :: x in w.d.events ==> w.d.events[x].receipt != receipt)
      then w.(d := Capture(w.d, e, receipt, image)) else w
    case WakeUp => if w.wake.Idle? then w.(wake := Purging) else w
    case PurgeOldImages => if w.wake.Purging? then w.(wake := Purged, d := PurgeImages(w.d, w.s.t.now)) else w
    case PurgeOldArtifacts => if w.wake.Purged? then w.(wake := Listing, d := PurgeArtifacts(w.d, w.s.t.now)) else w
    case List(items) => if w.wake.Listing? && Listable(w, items) then w.(wake := Working(items, Starting)) else w
    case Kill => w.(wake := Idle)
    case Arrive(letter, _, _, _) => if letter in w.posted then Arrived(sha, me, w, move) else w
    case Rest => if w.wake.Working? && w.wake.items == [] then w.(wake := Idle) else w
    case _ => if w.wake.Working? && w.wake.items != [] && Current(w) in w.d.events then Work(sha, me, w, move) else w
  }

  /** The work on the current item. */
  ghost function Work(sha: Hash, me: Device, w: World, move: Move): World
    requires w.wake.Working? && w.wake.items != [] && Current(w) in w.d.events
  {
    var e := Current(w);
    match (move, w.wake.stage)
    case (Reuse, Starting) => if e in w.d.artifacts && w.d.artifacts[e] != [] then At(w, Ready(w.d.artifacts[e])) else w
    case (Prepare, Starting) =>
      if e in w.d.artifacts && w.d.artifacts[e] != [] then w else At(w, Preparing).(d := Mark(w.d, e, Compressing))
    case (Compress(bytes), Preparing) =>
      At(w, Ready(bytes)).(d := CacheArtifact(w.d, e, bytes), cached :=
        if bytes != [] then w.cached[e := bytes] else w.cached)
    case (Recall, Ready(bytes)) => if e in w.d.uploads then At(w, Addressed(bytes, w.d.uploads[e])) else w
    case (Post, Ready(bytes)) => if e !in w.d.uploads then w.(posted := w.posted + {ToOpen(e, bytes)}) else w
    case (Post, Sending(bytes, u, n, _)) =>
      if n * PART_SIZE < |bytes| then w.(posted := w.posted + {ToStore(u, n, bytes)}) else w
    case (Ask(paused, vendorKnown, replied), Ready(bytes)) =>
      if e !in w.d.uploads then Asked(sha, me, w, bytes, paused, vendorKnown, replied) else w
    case (AskProgress, Addressed(bytes, u)) =>
      if Owned(w.s.t, me, u)
      then At(w, Sending(bytes, u, 0, ConfirmedParts(w.s.t, sha, u, bytes))).(d := Mark(w.d, e, Uploading))
      else Failed(w.(d := ClearUploadId(w.d, e)))
    case (SendPart(p), Sending(bytes, u, n, _)) =>
      if n * PART_SIZE < |bytes|
      then w.(s := Next(sha, w.s, PutFor(me, p, u, n, bytes, sha))) else w
    case (PartAnswered, Sending(bytes, u, n, confirmed)) =>
      if n in ConfirmedParts(w.s.t, sha, u, bytes) then At(w, Sending(bytes, u, n, confirmed + {n})) else w
    case (PartDone, Sending(bytes, u, n, confirmed)) =>
      if n in confirmed then At(w, Sending(bytes, u, n + 1, confirmed)) else w
    case (Accept(p), Sending(bytes, u, n, _)) =>
      if |bytes| <= n * PART_SIZE && Confirms(w.s, me, u, p)
      then Acked(At(w, Acknowledged(bytes, u)), e) else w
    case (Forget, Acknowledged(_, _)) => NextItem(w).(d := ClearUploadId(w.d, e))
    case (Fail, _) => Failed(w)
    case _ => w
  }

  ghost function Story(sha: Hash, me: Device, w: World, moves: seq<Move>): World
    decreases |moves|
  {
    if moves == [] then w else Story(sha, me, After(sha, me, w, moves[0]), moves[1..])
  }

  ghost predicate Beginning(w: World) {
    Init(w.s) && w.d == Phone(map[], map[], map[], map[]) && w.wake == Idle && w.posted == {} && w.cached == map[]
      && w.mine == map[] && w.acks == {} && w.fails == map[]
  }

  /** Some story from the beginning ends here. */
  ghost predicate Told(sha: Hash, me: Device, w: World) {
    exists w0: World, moves: seq<Move> :: Beginning(w0) && Story(sha, me, w0, moves) == w
  }

  /** Some story leads from one world to the other. */
  ghost predicate Continues(sha: Hash, me: Device, w: World, w': World) {
    exists moves: seq<Move> :: Story(sha, me, w, moves) == w'
  }
}
