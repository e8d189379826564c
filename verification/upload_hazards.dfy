/** Each clause of the discipline in upload_durability.dfy is needed: for every hash there is a
    run that breaks that clause alone and ends with an accepted receipt whose image is gone. And a
    run in which the clean-up takes a part of a session that accepts parts. */
module UploadHazards {
  import opened Basics
  import opened UploadTables
  import opened UploadProtocol
  import opened UploadDurability
  import opened UploadCleanup

  const PHONE := Device(0, 0, 0)

  /** The smallest body the format check lets through. */
  const IMAGE: Bytes := [82, 73, 70, 70, 0, 0, 0, 0, 87, 69, 66, 80]

  /** One organization, one site and one session with its only part uploaded. */
  ghost function World(sha: Hash, now: nat, x: Session, store: Store, procs: map<ProcId, Process>): State {
    State(
      Tables(now, 1, map[0 := x], map[0 := 0], map[(0, 0) := Part(0, 12, sha(IMAGE), PartKey(0, 0))], store,
             map[0 := Organization(1_000_000, 0, true)], map[0 := Site(0, 5_000_000, true)],
             map[], multiset{}, multiset{}, map[]),
      procs, History(map[0 := Opening(0, sha(IMAGE))], multiset{}, map[]))
  }

  ghost function Empty(now: nat): State {
    State(
      Tables(now, 0, map[], map[], map[], map[],
             map[0 := Organization(1_000_000, 0, true)], map[0 := Site(0, 5_000_000, true)],
             map[], multiset{}, multiset{}, map[]),
      map[], History(map[], multiset{}, map[]))
  }

  ghost function Fresh(sha: Hash, now: nat): Session { Session(0, PHONE, 12, sha(IMAGE), OPEN, now, now, None) }

  ghost function Uploading(sha: Hash): seq<Step> {
    [OpenSession(PHONE, Request(0, 12, sha(IMAGE)), false, true), PutCheck(1, PHONE, 0, 0, IMAGE, sha(IMAGE)),
      PutWrite(1), PutInsert(1)]
  }

  ghost function Completing(p: ProcId): seq<Step> {
    [ClaimSession(p, PHONE, 0), ReadPart(p, false), Inspect(p), RecordKey(p), WriteImage(p)]
  }

  lemma RunThree(sha: Hash, s: State, a: Step, b: Step, c: Step)
    ensures Run(sha, s, [a, b, c]) == Next(sha, Next(sha, Next(sha, s, a), b), c)
  {
    hide Next;
    var s1 := Next(sha, s, a);
    var s2 := Next(sha, s1, b);
    assert [a] + [b, c] == [a, b, c] && [b] + [c] == [b, c] && [c] + [] == [c];
    RunCons(sha, s, a, [b, c]);
    RunCons(sha, s1, b, [c]);
    RunCons(sha, s2, c, []);
  }

  lemma Uploaded(sha: Hash, now: nat)
    ensures Run(sha, Empty(now), Uploading(sha)) ==
            World(sha, now, Fresh(sha, now), map[PartKey(0, 0) := Object(IMAGE, now)], map[])
  {
    var u := Uploading(sha);
    var s1 := Next(sha, Empty(now), u[0]);
    assert u == [u[0]] + [u[1], u[2], u[3]];
    RunCons(sha, Empty(now), u[0], [u[1], u[2], u[3]]);
    RunThree(sha, s1, u[1], u[2], u[3]);
    assert s1.t.sessions == map[0 := Fresh(sha, now)];
    var s2 := Next(sha, s1, u[1]);
    assert s2 == Set(s1, 1, Putting(0, 0, IMAGE, false));
    var s3 := Next(sha, s2, u[2]);
    assert s3.t.store == map[PartKey(0, 0) := Object(IMAGE, now)];
    var s4 := Next(sha, s3, u[3]);
    assert s4.t.parts == map[(0, 0) := Part(0, 12, sha(IMAGE), PartKey(0, 0))];
    assert s4.procs == map[];
  }

  ghost function Rows(sha: Hash): seq<Part> { [Part(0, 12, sha(IMAGE), PartKey(0, 0))] }

  ghost predicate Fit(sha: Hash, x: Session, store: Store) {
    && x.receipt == 0 && x.owner == PHONE && x.total == 12 && x.digest == sha(IMAGE)
    && PartKey(0, 0) in store && store[PartKey(0, 0)].body == IMAGE
  }

  lemma AttemptClaim(sha: Hash, now: nat, x: Session, store: Store, procs: map<ProcId, Process>, p: ProcId)
    requires p !in procs && x.status == OPEN && Fit(sha, x, store)
    ensures Next(sha, World(sha, now, x, store, procs), ClaimSession(p, PHONE, 0)) ==
            World(sha, now, x.(status := COMPLETING, updated := now), store,
              procs[p := Reading(0, x, Rows(sha), 0, [])])
  {
    FirstRows(sha, World(sha, now, x, store, procs).t);
    assert map[0 := x][0 := x.(status := COMPLETING, updated := now)] ==
      map[0 := x.(status := COMPLETING, updated := now)];
  }

  lemma AttemptRead(sha: Hash, now: nat, y: Session, x: Session, store: Store, procs: map<ProcId, Process>, p: ProcId)
    requires Fit(sha, x, store)
    ensures Next(sha,
            Next(sha, World(sha, now, y, store, procs[p := Reading(0, x, Rows(sha), 0, [])]), ReadPart(p, false)),
            Inspect(p)) ==
            World(sha, now, y, store, procs[p := Assembled(0, x, Rows(sha), IMAGE)])
  {
    assert [] + IMAGE == IMAGE;
    var s := World(sha, now, y, store, procs[p := Reading(0, x, Rows(sha), 0, [])]);
    var s' := Next(sha, s, ReadPart(p, false));
    assert s' == Set(s, p, Reading(0, x, Rows(sha), 1, IMAGE));
    assert procs[p := Reading(0, x, Rows(sha), 0, [])][p := Reading(0, x, Rows(sha), 1, IMAGE)][p :=
      Assembled(0, x, Rows(sha), IMAGE)]
        == procs[p := Assembled(0, x, Rows(sha), IMAGE)];
  }

  lemma AttemptKey(sha: Hash, now: nat, y: Session, x: Session, store: Store, procs: map<ProcId, Process>, p: ProcId)
    requires y.status == COMPLETING && x.receipt == 0
    ensures var key := ImageKey(0, now / DAY);
            Next(sha, World(sha, now, y, store, procs[p := Assembled(0, x, Rows(sha), IMAGE)]), RecordKey(p)) ==
            World(sha, now, y.(image := Some(key), updated := now), store,
              procs[p := Keyed(0, x, Rows(sha), IMAGE, key)])
  {
    var key := ImageKey(0, now / DAY);
    var s' := Next(sha, World(sha, now, y, store, procs[p := Assembled(0, x, Rows(sha), IMAGE)]), RecordKey(p));
    assert s'.t.sessions == map[0 := y.(image := Some(key), updated := now)];
    assert s'.procs == procs[p := Keyed(0, x, Rows(sha), IMAGE, key)];
  }

  lemma AttemptStore(sha: Hash, now: nat, y: Session, x: Session, store: Store, procs: map<ProcId, Process>, p: ProcId,
      key: Key)
    ensures Next(sha, World(sha, now, y, store, procs[p := Keyed(0, x, Rows(sha), IMAGE, key)]), WriteImage(p)) ==
            World(sha, now, y, store[key := Object(IMAGE, now)], procs[p := Stored(0, x, Rows(sha), IMAGE, key)])
  {
    var s' := Next(sha, World(sha, now, y, store, procs[p := Keyed(0, x, Rows(sha), IMAGE, key)]), WriteImage(p));
    assert s'.procs == procs[p := Stored(0, x, Rows(sha), IMAGE, key)];
  }

  /** One attempt of process `p`, from the claim to the stored image. */
  lemma Attempt(sha: Hash, now: nat, x: Session, store: Store, procs: map<ProcId, Process>, p: ProcId)
    requires p !in procs && x.status == OPEN && Fit(sha, x, store)
    ensures var key := ImageKey(0, now / DAY);
            Run(sha, World(sha, now, x, store, procs), Completing(p)) ==
            World(sha, now, x.(status := COMPLETING, image := Some(key), updated := now),
              store[key := Object(IMAGE, now)],
                  procs[p := Stored(0, x, Rows(sha), IMAGE, key)])
  {
    hide Next, World;
    var s0 := World(sha, now, x, store, procs);
    var y := x.(status := COMPLETING, updated := now);
    AttemptClaim(sha, now, x, store, procs, p);
    AttemptRead(sha, now, y, x, store, procs, p);
    AttemptKey(sha, now, y, x, store, procs, p);
    AttemptStore(sha, now, y.(image := Some(ImageKey(0, now / DAY)), updated := now), x, store, procs, p,
      ImageKey(0, now / DAY));
    var s1 := Next(sha, s0, ClaimSession(p, PHONE, 0));
    var s2 := Next(sha, s1, ReadPart(p, false));
    assert Completing(p) ==
      [ClaimSession(p, PHONE, 0)] + ([ReadPart(p, false)] + [Inspect(p), RecordKey(p), WriteImage(p)]);
    RunCons(sha, s0, ClaimSession(p, PHONE, 0), [ReadPart(p, false)] + [Inspect(p), RecordKey(p), WriteImage(p)]);
    RunCons(sha, s1, ReadPart(p, false), [Inspect(p), RecordKey(p), WriteImage(p)]);
    RunThree(sha, s2, Inspect(p), RecordKey(p), WriteImage(p));
  }

  lemma FirstRows(sha: Hash, t: Tables)
    requires t.parts == map[(0, 0) := Part(0, 12, sha(IMAGE), PartKey(0, 0))] && 0 in t.sessions
             && t.sessions[0].total == 12
    ensures RowsOf(t, 0) == [Part(0, 12, sha(IMAGE), PartKey(0, 0))]
  {
    assert PartCount(12) == 1;
  }

  // ---------------------------------------------------------------- runs that break one clause

  datatype Clause = SelectClause | ClaimClause | ReplyClause

  /** Every step is orderly, or is of the one kind that the clause is about. */
  ghost predicate OrderlyBut(sha: Hash, s: State, steps: seq<Step>, clause: Clause)
    decreases |steps|
  {
    steps != [] ==>
      && (Orderly(s, steps[0]) || Excused(steps[0], clause))
      && OrderlyBut(sha, Next(sha, s, steps[0]), steps[1..], clause)
  }

  predicate Excused(step: Step, clause: Clause) {
    match clause
    case SelectClause => step.SelectStale?
    case ClaimClause => step.ClaimSession?
    case ReplyClause => step.CommitReceipt?
  }

  /** Steps about which the discipline says nothing. */
  predicate Plain(step: Step) {
    !step.SelectStale? && !step.ClaimSession? && (step.CommitReceipt? ==> step.fault != ReplyLost)
  }

  lemma {:induction false} PlainRun(sha: Hash, s: State, steps: seq<Step>, clause: Clause)
    requires forall step :: step in steps ==> Plain(step)
    ensures OrderlyBut(sha, s, steps, clause)
    decreases |steps|
  {
    hide Next;
    if steps != [] {
      assert steps[0] in steps && Plain(steps[0]);
      PlainRun(sha, Next(sha, s, steps[0]), steps[1..], clause);
    }
  }

  lemma {:induction false} ButAppend(sha: Hash, s: State, a: seq<Step>, b: seq<Step>, clause: Clause)
    requires OrderlyBut(sha, s, a, clause) && OrderlyBut(sha, Run(sha, s, a), b, clause)
    ensures OrderlyBut(sha, s, a + b, clause) && Run(sha, s, a + b) == Run(sha, Run(sha, s, a), b)
    decreases |a|
  {
    hide Next, Orderly;
    if a == [] {
      assert a + b == b;
    } else {
      assert (a + b)[1..] == a[1..] + b;
      ButAppend(sha, Next(sha, s, a[0]), a[1..], b, clause);
    }
  }

  lemma ButOne(sha: Hash, s: State, a: Step, rest: seq<Step>, clause: Clause)
    requires Orderly(s, a) || Excused(a, clause)
    requires forall step :: step in rest ==> Plain(step)
    ensures OrderlyBut(sha, s, [a] + rest, clause)
  {
    hide Next, Orderly;
    assert ([a] + rest)[1..] == rest;
    PlainRun(sha, Next(sha, s, a), rest, clause);
  }

  /** A receipt was accepted, no tombstone was written, and its image is not there. */
  ghost predicate ImageLost(t: Tables, r: ReceiptId) {
    r in t.receipts && r !in t.tombstones && t.receipts[r].key !in t.store
  }

  /** The run `steps` breaks no other clause and loses the image of receipt 0. */
  ghost predicate Loses(sha: Hash, s: State, steps: seq<Step>, clause: Clause) {
    OrderlyBut(sha, s, steps, clause) && ImageLost(Run(sha, s, steps).t, 0)
  }

  lemma Chain(sha: Hash, s: State, a: seq<Step>, s': State, b: seq<Step>, clause: Clause)
    requires OrderlyBut(sha, s, a, clause) && Run(sha, s, a) == s' && Loses(sha, s', b, clause)
    ensures Loses(sha, s, a + b, clause)
  {
    hide Next;
    ButAppend(sha, s, a, b, clause);
  }

  // The answer to the commit is lost: the request takes back an image that was accepted.

  ghost function ReplyLostRun(sha: Hash): seq<Step> {
    Uploading(sha) + (Completing(2) + [CommitReceipt(2, Within, ReplyLost), DeleteImage(2, true)])
  }

  lemma LostReplyLosesImage(sha: Hash)
    ensures Init(Empty(0)) && Loses(sha, Empty(0), ReplyLostRun(sha), ReplyClause)
  {
    hide Next, World, OrderlyBut, Run, ImageLost, Orderly;
    var x := Fresh(sha, 0);
    var store: Store := map[PartKey(0, 0) := Object(IMAGE, 0)];
    var y := x.(status := COMPLETING, image := Some(ImageKey(0, 0)), updated := 0);
    var stored :=
      World(sha, 0, y, store[ImageKey(0, 0) := Object(IMAGE, 0)],
      map[][2 := Stored(0, x, Rows(sha), IMAGE, ImageKey(0, 0))]);
    TakenBack(sha, stored);
    Attempt(sha, 0, x, store, map[], 2);
    FirstClaim(sha, 0, x, store, 2, ReplyClause);
    Chain(sha, World(sha, 0, x, store, map[]), Completing(2), stored,
      [CommitReceipt(2, Within, ReplyLost), DeleteImage(2, true)], ReplyClause);
    Uploaded(sha, 0);
    PlainRun(sha, Empty(0), Uploading(sha), ReplyClause);
    Chain(sha, Empty(0), Uploading(sha), World(sha, 0, x, store, map[]),
          Completing(2) + [CommitReceipt(2, Within, ReplyLost), DeleteImage(2, true)], ReplyClause);
  }

  lemma AcceptedUnseen(sha: Hash, s: State)
    requires s == World(sha, 0, Fresh(sha, 0).(status := COMPLETING, image := Some(ImageKey(0, 0)), updated := 0),
                        map[PartKey(0, 0) := Object(IMAGE, 0)][ImageKey(0, 0) := Object(IMAGE, 0)],
                        map[][2 := Stored(0, Fresh(sha, 0), Rows(sha), IMAGE, ImageKey(0, 0))])
    ensures var s' := Next(sha, s, CommitReceipt(2, Within, ReplyLost));
            && 2 in s'.procs && s'.procs[2] == Compensating(0, ImageKey(0, 0))
            && 0 in s'.t.receipts && s'.t.receipts[0].key == ImageKey(0, 0) && s'.t.tombstones == map[]
  {
  }

  lemma DeletedLost(sha: Hash, s: State, key: Key)
    requires 2 in s.procs && s.procs[2] == Compensating(0, key)
    requires 0 in s.t.receipts && s.t.receipts[0].key == key && s.t.tombstones == map[]
    ensures ImageLost(Next(sha, s, DeleteImage(2, true)).t, 0)
  {
  }

  lemma TakenBack(sha: Hash, s: State)
    requires s == World(sha, 0, Fresh(sha, 0).(status := COMPLETING, image := Some(ImageKey(0, 0)), updated := 0),
                        map[PartKey(0, 0) := Object(IMAGE, 0)][ImageKey(0, 0) := Object(IMAGE, 0)],
                        map[][2 := Stored(0, Fresh(sha, 0), Rows(sha), IMAGE, ImageKey(0, 0))])
    ensures Loses(sha, s, [CommitReceipt(2, Within, ReplyLost), DeleteImage(2, true)], ReplyClause)
  {
    hide Next, World, ImageLost;
    var s' := Next(sha, s, CommitReceipt(2, Within, ReplyLost));
    AcceptedUnseen(sha, s);
    DeletedLost(sha, s', ImageKey(0, 0));
    assert [CommitReceipt(2, Within, ReplyLost), DeleteImage(2, true)] ==
      [CommitReceipt(2, Within, ReplyLost)] + ([DeleteImage(2, true)] + []);
    RunCons(sha, s, CommitReceipt(2, Within, ReplyLost), [DeleteImage(2, true)] + []);
    RunCons(sha, s', DeleteImage(2, true), []);
    ButOne(sha, s, CommitReceipt(2, Within, ReplyLost), [DeleteImage(2, true)], ReplyClause);
  }

  // A clean-up pass begins on a session a live request is completing, and outlives its commit.

  ghost function Selecting(): seq<Step> { [SelectStale(3, 0), LoadKeys(3)] }

  ghost function Finale(p: ProcId): seq<Step> { [CommitReceipt(p, Within, NoFault), DeleteKey(3), DeleteKey(3)] }

  lemma PassSelects(sha: Hash, now: nat, y: Session, store: Store, procs: map<ProcId, Process>, key: Key)
    requires 3 !in procs && y.image == Some(key)
    requires (y.status == OPEN && y.created + DAY < now) || (y.status == COMPLETING && y.updated + 15 * MINUTE < now)
    ensures var s := World(sha, now, y, store, procs);
            Next(sha, s, SelectStale(3, 0)) == Set(s, 3, Selected(0, y.status, Some(key)))
  {
  }

  lemma PassDooms(sha: Hash, t: Tables, saw: Status, key: Key)
    requires t.parts == map[(0, 0) := Part(0, 12, sha(IMAGE), PartKey(0, 0))] && 0 in t.sessions
             && t.sessions[0].total == 12
    requires saw != COMPLETE
    ensures Doomed(t, 0, saw, Some(key)) == [PartKey(0, 0), key]
  {
    FirstRows(sha, t);
  }

  lemma PassLoads(sha: Hash, now: nat, y: Session, store: Store, procs: map<ProcId, Process>, key: Key)
    requires Fit(sha, y, store) && y.image == Some(key) && y.status != COMPLETE
    ensures Next(sha, World(sha, now, y, store, procs[3 := Selected(0, y.status, Some(key))]), LoadKeys(3)) ==
            World(sha, now, y, store, procs[3 := Cleaning(0, y.status, [PartKey(0, 0), key])])
  {
    var s1 := World(sha, now, y, store, procs[3 := Selected(0, y.status, Some(key))]);
    PassDooms(sha, s1.t, y.status, key);
    hide Doomed, RowsOf;
    var s2 := Next(sha, s1, LoadKeys(3));
    assert s2.procs == procs[3 := Cleaning(0, y.status, [PartKey(0, 0), key])];
  }

  lemma PassBegins(sha: Hash, now: nat, y: Session, store: Store, procs: map<ProcId, Process>, key: Key)
    requires 3 !in procs && Fit(sha, y, store) && y.image == Some(key)
    requires (y.status == OPEN && y.created + DAY < now) || (y.status == COMPLETING && y.updated + 15 * MINUTE < now)
    ensures Run(sha, World(sha, now, y, store, procs), Selecting()) ==
            World(sha, now, y, store, procs[3 := Cleaning(0, y.status, [PartKey(0, 0), key])])
  {
    var s := World(sha, now, y, store, procs);
    PassSelects(sha, now, y, store, procs, key);
    PassLoads(sha, now, y, store, procs, key);
    hide Next;
    assert Selecting() == [SelectStale(3, 0)] + ([LoadKeys(3)] + []);
    RunCons(sha, s, SelectStale(3, 0), [LoadKeys(3)] + []);
    RunCons(sha, Next(sha, s, SelectStale(3, 0)), LoadKeys(3), []);
  }

  lemma FinaleCommit(sha: Hash, now: nat, y: Session, store: Store, procs: map<ProcId, Process>, p: ProcId, x: Session,
      key: Key)
    requires p in procs && p != 3 && 3 in procs && procs[p] == Stored(0, x, Rows(sha), IMAGE, key)
    requires y.status == COMPLETING && Fit(sha, y, store) && ImageOf(key, 0)
    ensures var s' := Next(sha, World(sha, now, y, store, procs), CommitReceipt(p, Within, NoFault));
            0 in s'.t.receipts && s'.t.receipts[0].key == key && s'.t.tombstones == map[] && 3 in s'.procs
              && s'.procs[3] == procs[3]
  {
  }

  lemma FinaleDelete(sha: Hash, s: State, saw: Status, key: Key)
    requires 3 in s.procs && s.procs[3] == Cleaning(0, saw, [PartKey(0, 0), key])
    ensures var s' := Next(sha, Next(sha, s, DeleteKey(3)), DeleteKey(3));
            s'.t == s.t.(store := s'.t.store) && key !in s'.t.store
  {
    var s1 := Next(sha, s, DeleteKey(3));
    assert s1.procs[3] == Cleaning(0, saw, [key]);
  }

  lemma FinaleLoses(sha: Hash, now: nat, y: Session, store: Store, procs: map<ProcId, Process>, p: ProcId, x: Session,
      saw: Status, key: Key)
    requires p in procs && p != 3 && procs[p] == Stored(0, x, Rows(sha), IMAGE, key)
    requires 3 in procs && procs[3] == Cleaning(0, saw, [PartKey(0, 0), key])
    requires y.status == COMPLETING && Fit(sha, y, store) && ImageOf(key, 0)
    ensures ImageLost(Run(sha, World(sha, now, y, store, procs), Finale(p)).t, 0)
  {
    hide Next, World;
    var s := World(sha, now, y, store, procs);
    FinaleCommit(sha, now, y, store, procs, p, x, key);
    FinaleDelete(sha, Next(sha, s, CommitReceipt(p, Within, NoFault)), saw, key);
    RunThree(sha, s, CommitReceipt(p, Within, NoFault), DeleteKey(3), DeleteKey(3));
  }

  lemma Ticked(sha: Hash, now: nat, y: Session, store: Store, procs: map<ProcId, Process>, d: nat)
    ensures Run(sha, World(sha, now, y, store, procs), [Tick(d)]) == World(sha, now + d, y, store, procs)
  {
    RunCons(sha, World(sha, now, y, store, procs), Tick(d), []);
  }

  ghost function OverlapRun(sha: Hash): seq<Step> {
    Uploading(sha) + (Completing(2) + ([Tick(901)] + (Selecting() + Finale(2))))
  }

  /** A session stored, a pass begun beside it, and then the commit. */
  lemma OverlapTail(sha: Hash, y: Session, x: Session, store: Store, key: Key)
    requires Fit(sha, y, store) && y.image == Some(key) && ImageOf(key, 0) && y.status == COMPLETING && y.updated == 0
    ensures Loses(sha, World(sha, 901, y, store, map[][2 := Stored(0, x, Rows(sha), IMAGE, key)]),
            Selecting() + Finale(2), SelectClause)
  {
    hide Next, World, Fit;
    var procs: map<ProcId, Process> := map[][2 := Stored(0, x, Rows(sha), IMAGE, key)];
    var waiting := World(sha, 901, y, store, procs);
    var held := procs[3 := Cleaning(0, COMPLETING, [PartKey(0, 0), key])];
    PassBegins(sha, 901, y, store, procs, key);
    FinaleLoses(sha, 901, y, store, held, 2, x, COMPLETING, key);
    PlainRun(sha, World(sha, 901, y, store, held), Finale(2), SelectClause);
    ButOne(sha, waiting, SelectStale(3, 0), [LoadKeys(3)], SelectClause);
    assert [SelectStale(3, 0)] + [LoadKeys(3)] == Selecting();
    Chain(sha, waiting, Selecting(), World(sha, 901, y, store, held), Finale(2), SelectClause);
  }

  lemma OverlappingPassLosesImage(sha: Hash)
    ensures Init(Empty(0)) && Loses(sha, Empty(0), OverlapRun(sha), SelectClause)
  {
    hide Next, World, OrderlyBut, Run, ImageLost, Orderly;
    var clause := SelectClause;
    var x := Fresh(sha, 0);
    var key := ImageKey(0, 0);
    var store: Store := map[PartKey(0, 0) := Object(IMAGE, 0)];
    var y := x.(status := COMPLETING, image := Some(key), updated := 0);
    var store' := store[key := Object(IMAGE, 0)];
    var procs: map<ProcId, Process> := map[][2 := Stored(0, x, Rows(sha), IMAGE, key)];
    OverlapTail(sha, y, x, store', key);
    Ticked(sha, 0, y, store', procs, 901);
    PlainRun(sha, World(sha, 0, y, store', procs), [Tick(901)], clause);
    Chain(sha, World(sha, 0, y, store', procs), [Tick(901)], World(sha, 901, y, store', procs), Selecting() + Finale(2),
      clause);
    Attempt(sha, 0, x, store, map[], 2);
    FirstClaim(sha, 0, x, store, 2, clause);
    var rest := [Tick(901)] + (Selecting() + Finale(2));
    Chain(sha, World(sha, 0, x, store, map[]), Completing(2), World(sha, 0, y, store', procs), rest, clause);
    Uploaded(sha, 0);
    PlainRun(sha, Empty(0), Uploading(sha), clause);
    Chain(sha, Empty(0), Uploading(sha), World(sha, 0, x, store, map[]), Completing(2) + rest, clause);
  }

  /** With no other process about, an attempt is orderly. */
  lemma FirstClaim(sha: Hash, now: nat, x: Session, store: Store, p: ProcId, clause: Clause)
    ensures OrderlyBut(sha, World(sha, now, x, store, map[]), Completing(p), clause)
  {
    hide Next;
    ButOne(sha, World(sha, now, x, store, map[]), Completing(p)[0], Completing(p)[1..], clause);
    assert [Completing(p)[0]] + Completing(p)[1..] == Completing(p);
  }

  // A request claims a session a clean-up pass is already holding.

  ghost function GivingUp(): seq<Step> { [CommitReceipt(2, Within, Aborted), DeleteImage(2, true), Release(2)] }

  lemma GivenUpDelete(sha: Hash, now: nat, y: Session, x: Session, store: Store, key: Key)
    ensures Next(sha,
            Next(sha, World(sha, now, y, store, map[][2 := Stored(0, x, Rows(sha), IMAGE, key)]),
            CommitReceipt(2, Within, Aborted)), DeleteImage(2, true)) ==
            World(sha, now, y, store - {key}, map[2 := Releasing(0, OPEN)])
  {
    var s := World(sha, now, y, store, map[][2 := Stored(0, x, Rows(sha), IMAGE, key)]);
    var s1 := Next(sha, s, CommitReceipt(2, Within, Aborted));
    assert s1 == Set(s, 2, Compensating(0, key));
    var s2 := Next(sha, s1, DeleteImage(2, true));
    assert s2.procs == map[2 := Releasing(0, OPEN)];
  }

  lemma GivenUpRelease(sha: Hash, now: nat, y: Session, store: Store)
    requires y.status == COMPLETING
    ensures Next(sha, World(sha, now, y, store, map[2 := Releasing(0, OPEN)]), Release(2)) ==
            World(sha, now, y.(status := OPEN, updated := now), store, map[])
  {
    var s := Next(sha, World(sha, now, y, store, map[2 := Releasing(0, OPEN)]), Release(2));
    assert s.t.sessions == map[0 := y.(status := OPEN, updated := now)];
    assert s.procs == map[];
  }

  lemma GivenBack(sha: Hash, now: nat, y: Session, x: Session, store: Store, key: Key)
    requires y.status == COMPLETING
    ensures Run(sha, World(sha, now, y, store, map[][2 := Stored(0, x, Rows(sha), IMAGE, key)]), GivingUp()) ==
            World(sha, now, y.(status := OPEN, updated := now), store - {key}, map[])
  {
    hide Next, World, Run;
    GivenUpDelete(sha, now, y, x, store, key);
    GivenUpRelease(sha, now, y, store - {key});
    RunThree(sha, World(sha, now, y, store, map[][2 := Stored(0, x, Rows(sha), IMAGE, key)]),
             CommitReceipt(2, Within, Aborted), DeleteImage(2, true), Release(2));
  }

  ghost function LateClaimRun(sha: Hash): seq<Step> {
    Uploading(sha)
      + ([Tick(50_000)]
      + (Completing(2) + (GivingUp() + ([Tick(40_000)] + (Selecting() + (Completing(4) + Finale(4)))))))
  }

  /** A pass takes an expired session, a request claims it, and commits while the pass deletes. */
  lemma LateTail(sha: Hash, z: Session, store: Store, key: Key)
    requires Fit(sha, z, store) && z.image == Some(key) && key == ImageKey(0, 1) && z.status == OPEN
             && z.created + DAY < 133_200
    ensures Loses(sha, World(sha, 133_200, z, store, map[]), Selecting() + (Completing(4) + Finale(4)), ClaimClause)
  {
    hide Next, World;
    var clause := ClaimClause;
    assert 133_200 / DAY == 1;
    var held: map<ProcId, Process> := map[][3 := Cleaning(0, OPEN, [PartKey(0, 0), key])];
    var y := z.(status := COMPLETING, image := Some(key), updated := 133_200);
    var written := store[key := Object(IMAGE, 133_200)];
    var both := held[4 := Stored(0, z, Rows(sha), IMAGE, key)];
    FinaleLoses(sha, 133_200, y, written, both, 4, z, OPEN, key);
    PlainRun(sha, World(sha, 133_200, y, written, both), Finale(4), clause);
    Attempt(sha, 133_200, z, store, held, 4);
    ButOne(sha, World(sha, 133_200, z, store, held), Completing(4)[0], Completing(4)[1..], clause);
    assert [Completing(4)[0]] + Completing(4)[1..] == Completing(4);
    Chain(sha, World(sha, 133_200, z, store, held), Completing(4), World(sha, 133_200, y, written, both), Finale(4),
      clause);
    PassBegins(sha, 133_200, z, store, map[], key);
    FirstSelect(sha, 133_200, z, store, clause);
    Chain(sha, World(sha, 133_200, z, store, map[]), Selecting(), World(sha, 133_200, z, store, held),
      Completing(4) + Finale(4), clause);
  }

  lemma LateClaimLosesImage(sha: Hash)
    ensures Init(Empty(43_200)) && Loses(sha, Empty(43_200), LateClaimRun(sha), ClaimClause)
  {
    hide Next, World, OrderlyBut, Run, ImageLost, Orderly;
    var clause := ClaimClause;
    var x := Fresh(sha, 43_200);
    var key := ImageKey(0, 1);
    assert 93_200 / DAY == 1;
    var store: Store := map[PartKey(0, 0) := Object(IMAGE, 43_200)];
    var y := x.(status := COMPLETING, image := Some(key), updated := 93_200);
    var written := store[key := Object(IMAGE, 93_200)];
    assert written - {key} == store;
    var z := y.(status := OPEN, updated := 93_200);
    var stored := World(sha, 93_200, y, written, map[][2 := Stored(0, x, Rows(sha), IMAGE, key)]);
    var rest4 := Selecting() + (Completing(4) + Finale(4));
    LateTail(sha, z, store, key);
    Ticked(sha, 93_200, z, store, map[], 40_000);
    PlainRun(sha, World(sha, 93_200, z, store, map[]), [Tick(40_000)], clause);
    Chain(sha, World(sha, 93_200, z, store, map[]), [Tick(40_000)], World(sha, 133_200, z, store, map[]), rest4,
      clause);
    var rest3 := [Tick(40_000)] + rest4;
    GivenBack(sha, 93_200, y, x, written, key);
    PlainRun(sha, stored, GivingUp(), clause);
    Chain(sha, stored, GivingUp(), World(sha, 93_200, z, store, map[]), rest3, clause);
    var rest2 := GivingUp() + rest3;
    Attempt(sha, 93_200, x, store, map[], 2);
    FirstClaim(sha, 93_200, x, store, 2, clause);
    Chain(sha, World(sha, 93_200, x, store, map[]), Completing(2), stored, rest2, clause);
    var rest1 := Completing(2) + rest2;
    Ticked(sha, 43_200, x, store, map[], 50_000);
    PlainRun(sha, World(sha, 43_200, x, store, map[]), [Tick(50_000)], clause);
    Chain(sha, World(sha, 43_200, x, store, map[]), [Tick(50_000)], World(sha, 93_200, x, store, map[]), rest1, clause);
    Uploaded(sha, 43_200);
    PlainRun(sha, Empty(43_200), Uploading(sha), clause);
    Chain(sha, Empty(43_200), Uploading(sha), World(sha, 43_200, x, store, map[]), [Tick(50_000)] + rest1, clause);
  }

  lemma FirstSelect(sha: Hash, now: nat, z: Session, store: Store, clause: Clause)
    ensures OrderlyBut(sha, World(sha, now, z, store, map[]), Selecting(), clause)
  {
    hide Next;
    ButOne(sha, World(sha, now, z, store, map[]), SelectStale(3, 0), [LoadKeys(3)], clause);
    assert [SelectStale(3, 0)] + [LoadKeys(3)] == Selecting();
  }

  // A pass begins beside a live completion that then hands the session back.

  ghost function PartTakenRun(sha: Hash): seq<Step> {
    Uploading(sha)
      + ([ClaimSession(2, PHONE, 0)]
      + ([Tick(901)] + ([SelectStale(3, 0), LoadKeys(3)] + ([ReadPart(2, true)] + ([Release(2)] + [])))))
  }

  lemma PartlySelects(sha: Hash, y: Session, store: Store, procs: map<ProcId, Process>)
    requires 3 !in procs && y.status == COMPLETING && y.updated == 0 && y.image == None
    ensures var s := World(sha, 901, y, store, procs);
            Next(sha, s, SelectStale(3, 0)) == Set(s, 3, Selected(0, COMPLETING, None))
  {
  }

  lemma PartlyDooms(sha: Hash, t: Tables)
    requires t.parts == map[(0, 0) := Part(0, 12, sha(IMAGE), PartKey(0, 0))] && 0 in t.sessions
             && t.sessions[0].total == 12
    ensures Doomed(t, 0, COMPLETING, None) == [PartKey(0, 0)]
  {
    FirstRows(sha, t);
  }

  lemma PartlyLoads(sha: Hash, s: State, s1: State)
    requires s1 == Set(s, 3, Selected(0, COMPLETING, None))
    requires s.t.parts == map[(0, 0) := Part(0, 12, sha(IMAGE), PartKey(0, 0))] && 0 in s.t.sessions
             && s.t.sessions[0].total == 12
    ensures Next(sha, s1, LoadKeys(3)) == Set(s, 3, Cleaning(0, COMPLETING, [PartKey(0, 0)]))
  {
    PartlyDooms(sha, s1.t);
    hide Doomed;
    assert Next(sha, s1, LoadKeys(3)).procs == s.procs[3 := Cleaning(0, COMPLETING, [PartKey(0, 0)])];
  }

  lemma PassTakesUp(sha: Hash, y: Session, store: Store, procs: map<ProcId, Process>)
    requires 3 !in procs && y.status == COMPLETING && y.updated == 0 && y.image == None && y.total == 12
    ensures Run(sha, World(sha, 901, y, store, procs), [SelectStale(3, 0), LoadKeys(3)]) ==
            World(sha, 901, y, store, procs[3 := Cleaning(0, COMPLETING, [PartKey(0, 0)])])
  {
    var s := World(sha, 901, y, store, procs);
    var s1 := Set(s, 3, Selected(0, COMPLETING, None));
    PartlyLoads(sha, s, s1);
    hide Next;
    PartlySelects(sha, y, store, procs);
    assert [SelectStale(3, 0), LoadKeys(3)] == [SelectStale(3, 0)] + ([LoadKeys(3)] + []);
    RunCons(sha, s, SelectStale(3, 0), [LoadKeys(3)] + []);
    RunCons(sha, s1, LoadKeys(3), []);
  }

  lemma ReadFails(sha: Hash, s: State, x: Session)
    requires 2 in s.procs && s.procs[2] == Reading(0, x, Rows(sha), 0, [])
    ensures Next(sha, s, ReadPart(2, true)) == Set(s, 2, Releasing(0, OPEN))
  {
  }

  lemma HandsOver(sha: Hash, x: Session, y: Session, store: Store)
    requires y.status == COMPLETING
    ensures Run(sha,
            World(sha, 901, y, store,
            map[2 := Reading(0, x, Rows(sha), 0, [])][3 := Cleaning(0, COMPLETING, [PartKey(0, 0)])]),
                [ReadPart(2, true)] + ([Release(2)] + [])) ==
            World(sha, 901, y.(status := OPEN, updated := 901), store,
              map[3 := Cleaning(0, COMPLETING, [PartKey(0, 0)])])
  {
    var s := World(sha, 901, y, store,
      map[2 := Reading(0, x, Rows(sha), 0, [])][3 := Cleaning(0, COMPLETING, [PartKey(0, 0)])]);
    var s1 := Set(s, 2, Releasing(0, OPEN));
    var s2 := Next(sha, s1, Release(2));
    assert s2.procs == map[3 := Cleaning(0, COMPLETING, [PartKey(0, 0)])];
    assert s2.t.sessions == map[0 := y.(status := OPEN, updated := 901)];
    hide Next;
    ReadFails(sha, s, x);
    RunCons(sha, s, ReadPart(2, true), [Release(2)] + []);
    RunCons(sha, s1, Release(2), []);
  }

  lemma TakesPart(sha: Hash, z: Session, store: Store)
    requires z.status == OPEN && z.created == 0 && PartKey(0, 0) in store
    ensures var s := World(sha, 901, z, store, map[3 := Cleaning(0, COMPLETING, [PartKey(0, 0)])]);
            var s' := Next(sha, s, DeleteKey(3));
            Endangered(s, 3, 0) && PartKey(0, 0) in s.t.store && Young(s'.t, 0) && PartKey(0, 0) !in s'.t.store
  {
    var s := World(sha, 901, z, store, map[3 := Cleaning(0, COMPLETING, [PartKey(0, 0)])]);
    PartDeleted(sha, s);
    hide Next;
    assert PartOf(PartKey(0, 0), 0);
  }

  lemma PartDeleted(sha: Hash, s: State)
    requires 3 in s.procs && s.procs[3] == Cleaning(0, COMPLETING, [PartKey(0, 0)])
    ensures Next(sha, s, DeleteKey(3)).t == DeleteObject(s.t, PartKey(0, 0))
  {
  }

  /** From an empty deployment: a pass begins on a session that a live request has been completing
      for 15 minutes, the request hands the session back, and the pass deletes a part of it while it accepts parts. */
  lemma OverlappingPassTakesPart(sha: Hash)
    ensures var s := Run(sha, Empty(0), PartTakenRun(sha));
            var s' := Next(sha, s, DeleteKey(3));
            Init(Empty(0)) && Endangered(s, 3, 0) && PartKey(0, 0) in s.t.store && Young(s'.t, 0)
              && PartKey(0, 0) !in s'.t.store
  {
    hide Next, World, Run, Endangered, Young;
    var x := Fresh(sha, 0);
    var y := x.(status := COMPLETING, updated := 0);
    var store: Store := map[PartKey(0, 0) := Object(IMAGE, 0)];
    var reading: map<ProcId, Process> := map[][2 := Reading(0, x, Rows(sha), 0, [])];
    assert reading == map[2 := Reading(0, x, Rows(sha), 0, [])];
    var last := [ReadPart(2, true)] + ([Release(2)] + []);
    var pass := [SelectStale(3, 0), LoadKeys(3)];
    Uploaded(sha, 0);
    AttemptClaim(sha, 0, x, store, map[], 2);
    Ticked(sha, 0, y, store, reading, 901);
    PassTakesUp(sha, y, store, reading);
    HandsOver(sha, x, y, store);
    TakesPart(sha, y.(status := OPEN, updated := 901), store);
    RunAppend(sha, Empty(0), Uploading(sha), [ClaimSession(2, PHONE, 0)] + ([Tick(901)] + (pass + last)));
    RunCons(sha, World(sha, 0, x, store, map[]), ClaimSession(2, PHONE, 0), [Tick(901)] + (pass + last));
    RunAppend(sha, World(sha, 0, y, store, reading), [Tick(901)], pass + last);
    RunAppend(sha, World(sha, 901, y, store, reading), pass, last);
  }
}
