/** When the orphan clean-up can take a part of a session that still accepts parts. */
module UploadCleanup {
  import opened Basics
  import opened UploadTables
  import opened UploadProtocol
  import opened UploadProofs
  import opened UploadTheorems

  /** An open session within its 24 hours: it accepts parts. */
  ghost predicate Young(t: Tables, u: UploadId) {
    u in t.sessions && t.sessions[u].status == OPEN && t.now < t.sessions[u].created + DAY
  }

  /** A first pass that did not see its session complete. */
  predicate Passing(c: Process) { (c.Selected? || c.Cleaning?) && c.saw != COMPLETE }

  // ---------------------------------------------------------------- the second pass, and complete sessions

  /** In every run: the second pass holds only part objects of sessions older than 25 hours, even of
      parts whose row is not committed yet, and a first pass that saw a session complete holds
      nothing but its parts, and that session is complete or gone. */
  lemma SecondPassSparesYoung(sha: Hash, s: State, p: ProcId)
    requires Reachable(sha, s) && p in s.procs
    ensures match s.procs[p]
            case Listed(key) =>
              key.PartKey? && (key.upload in s.t.sessions ==> s.t.sessions[key.upload].created + 25 * HOUR < s.t.now)
            case Untracked(key) =>
              key.PartKey? && (key.upload in s.t.sessions ==> s.t.sessions[key.upload].created + 25 * HOUR < s.t.now)
            case Cleaning(u, saw, todo) =>
              saw == COMPLETE ==>
                (forall k :: k in todo ==> PartOf(k, u)) && (u in s.t.sessions ==> s.t.sessions[u].status == COMPLETE)
            case _ => true
  {
    hide Reachable, TablesInv;
    ReachableInv(sha, s);
    assert ProcOk(sha, s.t, s.procs[p]);
  }

  // ---------------------------------------------------------------- sessions that never open again

  /** The request that owns a completion can still hand the session back; it cannot once it has
      found a whole body of the wrong format or digest. */
  ghost predicate MayReopen(sha: Hash, c: Process) {
    Owner(c) && match c
                case Releasing(_, to) => to == OPEN
                case Reading(_, row, parts, next, body) =>
                  next < |parts| || |body| != row.total || (IsWebp(body) && sha(body) == row.digest)
                case _ => true
  }

  /** A live request can still hand session `u` back. */
  ghost predicate Reopener(sha: Hash, procs: map<ProcId, Process>, u: UploadId) {
    exists q :: q in procs && MayReopen(sha, procs[q]) && procs[q].upload == u
  }

  /** Session `u` accepts no part now and never will again: its day is over, or it is not open and
      nobody can hand it back. */
  ghost predicate NoReturn(sha: Hash, t: Tables, procs: map<ProcId, Process>, u: UploadId) {
    && u < t.nextUpload
    && (u in t.sessions ==>
          t.sessions[u].created + DAY <= t.now || (t.sessions[u].status != OPEN && !Reopener(sha, procs, u)))
  }

  /** Who can hand a session back could do so before. */
  ghost predicate ReopenersFrom(sha: Hash, a: map<ProcId, Process>, b: map<ProcId, Process>) {
    forall q :: q in b && MayReopen(sha, b[q]) ==> q in a && MayReopen(sha, a[q]) && a[q].upload == b[q].upload
  }

  /** One process starts, moves on or ends. */
  lemma OneReopens(sha: Hash, a: map<ProcId, Process>, b: map<ProcId, Process>, p: ProcId)
    requires b - {p} == a - {p}
    requires p in b && MayReopen(sha, b[p]) ==> p in a && MayReopen(sha, a[p]) && a[p].upload == b[p].upload
    ensures ReopenersFrom(sha, a, b)
  {
    forall q | q in b && MayReopen(sha, b[q]) ensures q in a && MayReopen(sha, a[q]) && a[q].upload == b[q].upload {
      if q != p {
        assert q in b - {p};
        assert (b - {p})[q] == b[q] && (a - {p})[q] == a[q];
      }
    }
  }

  predicate HasProcess(step: Step) { !step.OpenSession? && !step.SetQuota? && !step.Tick? && !step.PurgeReceipts? }

  /** Nothing happened; or only the process of the step differs, it can hand back no more than before, and it is
      a pass only if it was one, or has just begun. */
  ghost predicate OneMoves(sha: Hash, s: State, s': State, step: Step)
    requires HasProcess(step)
  {
    var p := step.p;
    || s' == s
    || (&& s'.procs - {p} == s.procs - {p}
        && (p in s'.procs && MayReopen(sha, s'.procs[p]) ==>
          p in s.procs && MayReopen(sha, s.procs[p]) && s.procs[p].upload == s'.procs[p].upload)
        && (p in s'.procs && Passing(s'.procs[p]) && !step.SelectStale? ==>
          p in s.procs && Passing(s.procs[p]) && s.procs[p].upload == s'.procs[p].upload))
  }

  lemma StartMoves(sha: Hash, s: State, step: Step)
    requires step.PutCheck? || step.SelectStale? || step.ListObject? || step.SelectImage? || step.Crash?
    ensures OneMoves(sha, s, Next(sha, s, step), step)
  {
    hide PartBusy, CheckPart, Stale, IsWebp;
  }

  lemma ReadMoves(sha: Hash, s: State, step: Step)
    requires step.ReadPart? || step.Inspect?
    ensures OneMoves(sha, s, Next(sha, s, step), step)
  {
    hide IsWebp;
  }

  lemma UploadMoves(sha: Hash, s: State, step: Step)
    requires step.PutWrite? || step.PutInsert? || step.RecordKey? || step.WriteImage? || step.CommitReceipt?
    ensures OneMoves(sha, s, Next(sha, s, step), step)
  {
    hide IsWebp, CommitError, Commit, PutObject, InsertPart, RecordImageKey;
  }

  lemma DeleteMoves(sha: Hash, s: State, step: Step)
    requires step.DeleteImage? || step.Release? || step.SweepPart? || step.SweepRows? || step.LoadKeys?
             || step.DeleteKey?
    ensures OneMoves(sha, s, Next(sha, s, step), step)
  {
    hide IsWebp, Doomed, DeleteObject, DeletePartRows, SetStatus;
  }

  lemma JobMoves(sha: Hash, s: State, step: Step)
    requires step.ExpireSession? || step.CheckTracked? || step.DeleteUntracked? || step.MarkImage? || step.DropImage?
             || step.FinishRetention?
    ensures OneMoves(sha, s, Next(sha, s, step), step)
  {
    hide IsWebp, Expire, DeleteObject, SetTombstone, FinishImage;
  }

  lemma TablesMove(sha: Hash, s: State, step: Step)
    requires step.OpenSession? || step.SetQuota? || step.Tick? || step.PurgeReceipts?
    ensures Next(sha, s, step).procs == s.procs
  {
    hide Create, Purge, LeakMore;
  }

  lemma StepMoves(sha: Hash, s: State, step: Step)
    requires HasProcess(step) && !step.ClaimSession?
    ensures OneMoves(sha, s, Next(sha, s, step), step)
  {
    hide Next, MayReopen, OneMoves;
    if step.PutCheck? || step.SelectStale? || step.ListObject? || step.SelectImage? || step.Crash? {
      StartMoves(sha, s, step);
    } else if step.ReadPart? || step.Inspect? { ReadMoves(sha, s, step); }
    else if step.PutWrite? || step.PutInsert? || step.RecordKey? || step.WriteImage? || step.CommitReceipt? {
      UploadMoves(sha, s, step);
    } else if step.DeleteImage? || step.Release? || step.SweepPart? || step.SweepRows? || step.LoadKeys?
      || step.DeleteKey? {
      DeleteMoves(sha, s, step);
    } else { JobMoves(sha, s, step); }
  }

  lemma StepReopeners(sha: Hash, s: State, step: Step)
    requires !step.ClaimSession?
    ensures ReopenersFrom(sha, s.procs, Next(sha, s, step).procs)
  {
    hide Next, MayReopen;
    if HasProcess(step) {
      StepMoves(sha, s, step);
      if Next(sha, s, step) != s { OneReopens(sha, s.procs, Next(sha, s, step).procs, step.p); }
    } else {
      TablesMove(sha, s, step);
    }
  }

  lemma ClaimReopens(sha: Hash, s: State, step: Step, u: UploadId)
    requires step.ClaimSession? && u in s.t.sessions && s.t.sessions[u].status != OPEN && !Reopener(sha, s.procs, u)
    ensures !Reopener(sha, Next(sha, s, step).procs, u)
  {
    hide RowsOf, Claim, IsWebp;
  }

  lemma FreedByReopener(sha: Hash, s: State, step: Step, u: UploadId)
    requires Freed(s, step) == Some(u)
    ensures Reopener(sha, s.procs, u)
  {
  }

  /** What will not open again will not open again, whoever does what. */
  lemma NoReturnStays(sha: Hash, s: State, step: Step, u: UploadId)
    requires Inv(sha, s) && NoReturn(sha, s.t, s.procs, u)
    ensures NoReturn(sha, Next(sha, s, step).t, Next(sha, s, step).procs, u)
  {
    hide Inv, Next, MayReopen;
    var s' := Next(sha, s, step);
    StepFollowsEdges(sha, s, step);
    if u in s'.t.sessions && !(s.t.sessions[u].created + DAY <= s.t.now) {
      if Freed(s, step) == Some(u) { FreedByReopener(sha, s, step, u); }
      hide Freed;
      if step.ClaimSession? { ClaimReopens(sha, s, step, u); } else { StepReopeners(sha, s, step); }
    }
  }

  lemma {:induction false} NeverYoungAgain(sha: Hash, s: State, steps: seq<Step>, u: UploadId)
    requires Inv(sha, s) && NoReturn(sha, s.t, s.procs, u)
    ensures !Young(Run(sha, s, steps).t, u)
    decreases |steps|
  {
    hide Inv, Next, Reopener;
    if steps != [] {
      hide NoReturn, Young;
      StepKeeps(sha, s, steps[0]);
      NoReturnStays(sha, s, steps[0], u);
      NeverYoungAgain(sha, Next(sha, s, steps[0]), steps[1..], u);
    }
  }

  // ---------------------------------------------------------------- a session that is handed back

  /** What the owner does to hand the session back. */
  function Backward(c: Process, q: ProcId): Step
    requires Owner(c)
  {
    match c
    case Reading(_, _, parts, next, _) => if next < |parts| then ReadPart(q, true) else Inspect(q)
    case Assembled(_, _, _, _) => RecordKey(q)
    case Keyed(_, _, _, _, _) => WriteImage(q)
    case Stored(_, _, _, _, _) => CommitReceipt(q, Within, Aborted)
    case Compensating(_, _) => DeleteImage(q, false)
    case Releasing(_, _) => Release(q)
  }

  ghost function Distance(c: Process): nat
    requires Owner(c)
  {
    match c
    case Reading(_, _, _, _, _) => 5
    case Assembled(_, _, _, _) => 4
    case Keyed(_, _, _, _, _) => 3
    case Stored(_, _, _, _, _) => 2
    case Compensating(_, _) => 1
    case Releasing(_, _) => 0
  }

  /** Only the image objects, the request `q` and the status of session `u` may differ. */
  ghost predicate Same(s: State, s': State, q: ProcId, u: UploadId) {
    && s'.procs - {q} == s.procs - {q} && s'.t.parts == s.t.parts && s'.t.now == s.t.now
    && u in s.t.sessions && u in s'.t.sessions
    && s'.t.sessions[u].created == s.t.sessions[u].created && s'.t.sessions[u].owner == s.t.sessions[u].owner
    && s'.t.sessions[u].total == s.t.sessions[u].total
  }

  /** One step nearer to handing session `u` back, or handed back. */
  ghost predicate Nearer(sha: Hash, s: State, s': State, q: ProcId, u: UploadId)
    requires q in s.procs && Owner(s.procs[q])
  {
    && Same(s, s', q, u)
    && if s.procs[q].Releasing? then q !in s'.procs && s'.t.sessions[u].status == OPEN
       else
         && q in s'.procs && MayReopen(sha, s'.procs[q]) && s'.procs[q].upload == u
           && s'.t.sessions[u].status == COMPLETING
         && Distance(s'.procs[q]) < Distance(s.procs[q])
  }

  ghost predicate OnTheWay(sha: Hash, s: State, q: ProcId, u: UploadId) {
    q in s.procs && MayReopen(sha, s.procs[q]) && s.procs[q].upload == u && u in s.t.sessions
      && s.t.sessions[u].status == COMPLETING
  }

  lemma BackReading(sha: Hash, s: State, q: ProcId, u: UploadId)
    requires OnTheWay(sha, s, q, u) && s.procs[q].Reading?
    ensures Nearer(sha, s, Next(sha, s, Backward(s.procs[q], q)), q, u)
  {
    hide IsWebp;
  }

  lemma BackKey(sha: Hash, s: State, q: ProcId, u: UploadId)
    requires OnTheWay(sha, s, q, u) && s.procs[q].Assembled?
    ensures Nearer(sha, s, Next(sha, s, Backward(s.procs[q], q)), q, u)
  {
    hide IsWebp;
  }

  lemma BackImage(sha: Hash, s: State, q: ProcId, u: UploadId)
    requires OnTheWay(sha, s, q, u) && s.procs[q].Keyed?
    ensures Nearer(sha, s, Next(sha, s, Backward(s.procs[q], q)), q, u)
  {
    hide IsWebp;
  }

  lemma BackCommit(sha: Hash, s: State, q: ProcId, u: UploadId)
    requires OnTheWay(sha, s, q, u) && !s.procs[q].Reading? && !s.procs[q].Assembled? && !s.procs[q].Keyed?
    ensures Nearer(sha, s, Next(sha, s, Backward(s.procs[q], q)), q, u)
  {
    hide IsWebp, CommitError, Commit;
  }

  lemma BackOne(sha: Hash, s: State, q: ProcId, u: UploadId)
    requires OnTheWay(sha, s, q, u)
    ensures Nearer(sha, s, Next(sha, s, Backward(s.procs[q], q)), q, u)
  {
    hide Next, Nearer;
    if s.procs[q].Reading? { BackReading(sha, s, q, u); }
    else if s.procs[q].Assembled? { BackKey(sha, s, q, u); }
    else if s.procs[q].Keyed? { BackImage(sha, s, q, u); }
    else { BackCommit(sha, s, q, u); }
  }

  lemma SameThen(a: State, b: State, c: State, q: ProcId, u: UploadId)
    requires Same(a, b, q, u) && Same(b, c, q, u)
    ensures Same(a, c, q, u)
  {
  }

  /** The owner hands the session back, and nobody else moves. */
  lemma {:induction false} HandsBack(sha: Hash, s: State, q: ProcId, u: UploadId) returns (steps: seq<Step>)
    requires OnTheWay(sha, s, q, u)
    ensures var s' := Run(sha, s, steps); Same(s, s', q, u) && q !in s'.procs && s'.t.sessions[u].status == OPEN
    decreases Distance(s.procs[q])
  {
    var step := Backward(s.procs[q], q);
    var s' := Next(sha, s, step);
    BackOne(sha, s, q, u);
    hide Next, MayReopen, Same;
    if s.procs[q].Releasing? { steps := []; } else { steps := HandsBack(sha, s', q, u); }
    RunCons(sha, s, step, steps);
    SameThen(s, s', Run(sha, s, [step] + steps), q, u);
    steps := [step] + steps;
  }

  // ---------------------------------------------------------------- exactly when a part is in danger

  /** Process `p` is a pass on session `u` and holds one of its parts, while the session accepts parts. */
  ghost predicate Endangered(s: State, p: ProcId, u: UploadId) {
    && Young(s.t, u) && p in s.procs && Passing(s.procs[p]) && s.procs[p].upload == u
    && s.procs[p].Cleaning? && exists k :: k in s.procs[p].todo && PartOf(k, u)
  }

  lemma FirstRowDoomed(t: Tables, u: UploadId, saw: Status, image: Option<Key>)
    requires u in t.sessions && t.sessions[u].total > 0 && (u, 0) in t.parts && t.parts[(u, 0)].key == PartKey(u, 0)
    ensures PartKey(u, 0) in Doomed(t, u, saw, image)
  {
    var rows := RowsOf(t, u);
    assert PartCount(t.sessions[u].total) >= 1;
    assert rows[0] == t.parts[(u, 0)];
    assert KeysOf(rows)[0] == PartKey(u, 0);
  }

  /** A pass that has taken up session `u` loads the keys of its parts. */
  lemma LoadsPart(sha: Hash, s: State, p: ProcId, u: UploadId)
    requires p in s.procs && s.procs[p].Selected? && Passing(s.procs[p]) && s.procs[p].upload == u && Young(s.t, u)
    requires s.t.sessions[u].total > 0 && (u, 0) in s.t.parts && s.t.parts[(u, 0)].key == PartKey(u, 0)
    ensures Endangered(Next(sha, s, LoadKeys(p)), p, u)
  {
    hide Doomed;
    FirstRowDoomed(s.t, u, s.procs[p].saw, s.procs[p].image);
    assert PartOf(PartKey(u, 0), u);
  }

  /** The first part of a session. */
  ghost function Filler(total: nat): Bytes
    requires total > 0
  {
    seq(PartLength(total, 0), _ => 0)
  }

  ghost function Uploading(sha: Hash, x: Session, q: ProcId, u: UploadId): seq<Step>
    requires x.total > 0
  {
    [PutCheck(q, x.owner, u, 0, Filler(x.total), sha(Filler(x.total)))] + ([PutWrite(q)] + ([PutInsert(q)] + []))
  }

  lemma UploadStarts(sha: Hash, s: State, q: ProcId, u: UploadId)
    requires q !in s.procs && Young(s.t, u) && s.t.sessions[u].total > 0 && (u, 0) !in s.t.parts && !PartBusy(s, u, 0)
    ensures var body := Filler(s.t.sessions[u].total);
            Next(sha, s, PutCheck(q, s.t.sessions[u].owner, u, 0, body, sha(body))) ==
              Set(s, q, Putting(u, 0, body, false))
  {
    hide PartBusy;
  }

  lemma UploadEnds(sha: Hash, s: State, q: ProcId, u: UploadId, body: Bytes)
    requires q in s.procs && s.procs[q] == Putting(u, 0, body, false) && u in s.t.sessions && (u, 0) !in s.t.parts
    ensures var s' := Next(sha, Next(sha, s, PutWrite(q)), PutInsert(q));
            && s'.t.sessions == s.t.sessions && s'.t.now == s.t.now && s'.procs == s.procs - {q}
            && (u, 0) in s'.t.parts && s'.t.parts[(u, 0)].key == PartKey(u, 0)
  {
    var s1 := Next(sha, s, PutWrite(q));
    assert s1 == Set(s, q, Putting(u, 0, body, true)).(t := PutObject(s.t, PartKey(u, 0), body));
    var s2 := Next(sha, s1, PutInsert(q));
    assert s2 == End(s1, q).(t := InsertPart(s1.t, sha, u, 0, body));
    assert s1.procs - {q} == s.procs - {q};
  }

  /** Its device uploads the first part of an open session. */
  lemma Uploads(sha: Hash, s: State, q: ProcId, u: UploadId)
    requires q !in s.procs && Young(s.t, u) && s.t.sessions[u].total > 0 && (u, 0) !in s.t.parts && !PartBusy(s, u, 0)
    ensures var s' := Run(sha, s, Uploading(sha, s.t.sessions[u], q, u));
            && s'.t.sessions == s.t.sessions && s'.t.now == s.t.now && s'.procs == s.procs
            && (u, 0) in s'.t.parts && s'.t.parts[(u, 0)].key == PartKey(u, 0)
  {
    var x := s.t.sessions[u];
    var body := Filler(x.total);
    var s1 := Set(s, q, Putting(u, 0, body, false));
    var s2 := Next(sha, s1, PutWrite(q));
    UploadStarts(sha, s, q, u);
    UploadEnds(sha, s1, q, u, body);
    assert s.procs[q := Putting(u, 0, body, false)] - {q} == s.procs;
    hide Next;
    RunCons(sha, s, PutCheck(q, x.owner, u, 0, body, sha(body)), [PutWrite(q)] + ([PutInsert(q)] + []));
    RunCons(sha, s1, PutWrite(q), [PutInsert(q)] + []);
    RunCons(sha, s2, PutInsert(q), []);
  }

  /** Whoever is writing the first part stops. */
  lemma Clears(sha: Hash, s: State, u: UploadId) returns (steps: seq<Step>, gone: set<ProcId>)
    requires Exclusive(s.procs)
    ensures var s' := Run(sha, s, steps); s' == s.(procs := s.procs - gone) && !PartBusy(s', u, 0)
    ensures forall p :: p in gone ==> p in s.procs && s.procs[p].Putting?
  {
    if b :| b in s.procs && s.procs[b].Putting? && s.procs[b].upload == u && s.procs[b].number == 0 {
      RunCons(sha, s, Crash(b), []);
      steps, gone := [Crash(b)] + [], {b};
      forall p | p in s.procs && p != b
        ensures !(s.procs[p].Putting? && s.procs[p].upload == u && s.procs[p].number == 0) {
        assert !Clash(s.procs[b], s.procs[p]);
      }
    } else {
      steps, gone := [], {};
      assert s.procs - {} == s.procs;
    }
  }

  /** A pass that has taken up a session now open again comes to hold one of its parts. */
  lemma ComesToHold(sha: Hash, s: State, p: ProcId, q: ProcId, u: UploadId) returns (steps: seq<Step>)
    requires p in s.procs && s.procs[p].Selected? && Passing(s.procs[p]) && s.procs[p].upload == u && Young(s.t, u)
    requires q !in s.procs && s.t.sessions[u].total > 0 && Exclusive(s.procs)
    requires (u, 0) in s.t.parts ==> s.t.parts[(u, 0)].key == PartKey(u, 0)
    ensures Endangered(Run(sha, s, steps), p, u)
  {
    hide Next, Endangered, PartBusy, Exclusive;
    var before: seq<Step> := [];
    if (u, 0) !in s.t.parts {
      var clearing, gone := Clears(sha, s, u);
      var s1 := Run(sha, s, clearing);
      Uploads(sha, s1, q, u);
      before := clearing + Uploading(sha, s.t.sessions[u], q, u);
      RunAppend(sha, s, clearing, Uploading(sha, s.t.sessions[u], q, u));
    }
    var s2 := Run(sha, s, before);
    LoadsPart(sha, s2, p, u);
    RunCons(sha, s2, LoadKeys(p), []);
    RunAppend(sha, s, before, [LoadKeys(p)] + []);
    steps := before + ([LoadKeys(p)] + []);
  }

  lemma Taken(sha: Hash, s: State, p: ProcId, u: UploadId)
    requires p !in s.procs && u in s.t.sessions && Stale(s.t, u)
    ensures Next(sha, s, SelectStale(p, u)) == Set(s, p, Selected(u, s.t.sessions[u].status, s.t.sessions[u].image))
  {
  }

  lemma FirstFacts(sha: Hash, s: State, u: UploadId)
    requires Inv(sha, s) && u in s.t.sessions
    ensures u < s.t.nextUpload && s.t.sessions[u].total > 0
            && ((u, 0) in s.t.parts ==> s.t.parts[(u, 0)].key == PartKey(u, 0))
  {
    hide ReceiptInv, AgeInv, OpeningInv, ChargeInv, StorageInv, OncePer, OrgInv, ProcInv, Exclusive;
    assert SessionOk(s.t.sessions[u], s.t.nextUpload, s.t.now, u);
  }

  /** A pass begins on a session it does not see complete. It can come to hold a part of that session
      while the session accepts parts exactly if, when it begins, the session is within its 24 hours
      and a live request can still hand it back. */
  lemma EndangeredExactly(sha: Hash, s: State, p: ProcId, u: UploadId)
    requires Inv(sha, s) && p !in s.procs && u in s.t.sessions && Stale(s.t, u) && s.t.sessions[u].status != COMPLETE
    ensures (exists steps: seq<Step> :: Endangered(Run(sha, Next(sha, s, SelectStale(p, u)), steps), p, u)) <==>
            s.t.now < s.t.sessions[u].created + DAY && Reopener(sha, s.procs, u)
  {
    var x := s.t.sessions[u];
    var s1 := Next(sha, s, SelectStale(p, u));
    Taken(sha, s, p, u);
    FirstFacts(sha, s, u);
    StepKeeps(sha, s, SelectStale(p, u));
    hide Inv, Next, Run, MayReopen;
    if s.t.now < x.created + DAY && Reopener(sha, s.procs, u) {
      StillReopener(sha, s.procs, p, u, s1.procs[p]);
      var steps := Endangers(sha, s1, p, u);
    } else {
      assert NoReturn(sha, s1.t, s1.procs, u) by { NotReopened(sha, s, p, u, Selected(u, x.status, x.image)); }
      forall steps: seq<Step> ensures !Endangered(Run(sha, s1, steps), p, u) { NeverYoungAgain(sha, s1, steps, u); }
    }
  }

  lemma NotReopened(sha: Hash, s: State, p: ProcId, u: UploadId, c: Process)
    requires u in s.t.sessions && u < s.t.nextUpload && Stale(s.t, u) && s.t.sessions[u].status != COMPLETE
             && c.Selected?
    requires !(s.t.now < s.t.sessions[u].created + DAY && Reopener(sha, s.procs, u))
    ensures NoReturn(sha, s.t, s.procs[p := c], u)
  {
    hide IsWebp;
    OneReopens(sha, s.procs, s.procs[p := c], p);
    hide MayReopen;
  }

  lemma StillReopener(sha: Hash, procs: map<ProcId, Process>, p: ProcId, u: UploadId, c: Process)
    requires p !in procs && Reopener(sha, procs, u)
    ensures Reopener(sha, procs[p := c], u)
  {
    hide IsWebp;
    var q :| q in procs && MayReopen(sha, procs[q]) && procs[q].upload == u;
    assert procs[p := c][q] == procs[q];
  }

  lemma Endangers(sha: Hash, s: State, p: ProcId, u: UploadId) returns (steps: seq<Step>)
    requires Inv(sha, s) && p in s.procs && s.procs[p].Selected? && Passing(s.procs[p]) && s.procs[p].upload == u
    requires u in s.t.sessions && s.t.sessions[u].status == COMPLETING && s.t.now < s.t.sessions[u].created + DAY
             && Reopener(sha, s.procs, u)
    ensures Endangered(Run(sha, s, steps), p, u)
  {
    FirstFacts(sha, s, u);
    assert Exclusive(s.procs);
    hide Inv, Next, Run, Endangered, IsWebp, Same, Young, Exclusive;
    var q :| q in s.procs && MayReopen(sha, s.procs[q]) && s.procs[q].upload == u;
    var back := HandsBack(sha, s, q, u);
    var s' := Run(sha, s, back);
    HandedBack(s, s', p, q, u);
    var rest := ComesToHold(sha, s', p, q, u);
    RunAppend(sha, s, back, rest);
    steps := back + rest;
  }

  /** The pass is where it was, and the session accepts parts again. */
  lemma HandedBack(s: State, s': State, p: ProcId, q: ProcId, u: UploadId)
    requires Exclusive(s.procs) && Same(s, s', q, u) && q !in s'.procs && s'.t.sessions[u].status == OPEN
    requires p in s.procs && p != q && s.t.now < s.t.sessions[u].created + DAY
    ensures p in s'.procs && s'.procs[p] == s.procs[p] && Exclusive(s'.procs) && Young(s'.t, u)
    ensures s'.t.parts == s.t.parts && s'.t.sessions[u].total == s.t.sessions[u].total
  {
    assert s'.procs == s'.procs - {q};
    assert p in s.procs - {q} && (s.procs - {q})[p] == s.procs[p];
  }

  // ---------------------------------------------------------------- over whole runs

  /** No pass begins on a session within its 24 hours that a live request can still hand back. */
  ghost predicate Considerate(sha: Hash, s: State, step: Step) {
    step.SelectStale? && step.u in s.t.sessions && s.t.sessions[step.u].status != COMPLETE
      && s.t.now < s.t.sessions[step.u].created + DAY ==>
      !Reopener(sha, s.procs, step.u)
  }

  ghost predicate ConsiderateRun(sha: Hash, s: State, steps: seq<Step>)
    decreases |steps|
  {
    steps != [] ==> Considerate(sha, s, steps[0]) && ConsiderateRun(sha, Next(sha, s, steps[0]), steps[1..])
  }

  ghost predicate PassesLate(sha: Hash, s: State) {
    forall p :: p in s.procs && Passing(s.procs[p]) ==> NoReturn(sha, s.t, s.procs, s.procs[p].upload)
  }

  /** A pass after the step was one before, on the same session, unless the step began it. */
  lemma PassesFrom(sha: Hash, s: State, step: Step, p: ProcId)
    requires p in Next(sha, s, step).procs && Passing(Next(sha, s, step).procs[p])
    ensures (p in s.procs && Passing(s.procs[p]) && s.procs[p].upload == Next(sha, s, step).procs[p].upload)
            || (step.SelectStale? && step.p == p)
  {
    hide Next, MayReopen;
    var s' := Next(sha, s, step);
    if !HasProcess(step) { TablesMove(sha, s, step); }
    else {
      if step.ClaimSession? { ClaimMoves(sha, s, step); } else { StepMoves(sha, s, step); }
      if p != step.p && s' != s {
        assert p in s'.procs - {step.p};
        assert (s'.procs - {step.p})[p] == s'.procs[p] && (s.procs - {step.p})[p] == s.procs[p];
      }
    }
  }

  lemma ClaimMoves(sha: Hash, s: State, step: Step)
    requires step.ClaimSession?
    ensures var s' := Next(sha, s, step);
            s' == s || (s'.procs - {step.p} == s.procs - {step.p} && (step.p in s'.procs ==> s'.procs[step.p].Reading?))
  {
    hide RowsOf, Claim;
  }

  lemma SelectedLate(sha: Hash, s: State, step: Step)
    requires Inv(sha, s) && Considerate(sha, s, step) && step.SelectStale? && step.p !in s.procs
    requires step.u in s.t.sessions && Stale(s.t, step.u) && s.t.sessions[step.u].status != COMPLETE
    ensures NoReturn(sha, Next(sha, s, step).t, Next(sha, s, step).procs, step.u)
  {
    Taken(sha, s, step.p, step.u);
    FirstFacts(sha, s, step.u);
    hide Inv, Next, Stale;
    NotReopened(sha, s, step.p, step.u, Selected(step.u, s.t.sessions[step.u].status, s.t.sessions[step.u].image));
  }

  lemma SelectsNothing(sha: Hash, s: State, step: Step)
    requires step.SelectStale? && !(step.p !in s.procs && step.u in s.t.sessions && Stale(s.t, step.u))
    ensures Next(sha, s, step) == s
  {
  }

  lemma LateStep(sha: Hash, s: State, step: Step)
    requires Inv(sha, s) && PassesLate(sha, s) && Considerate(sha, s, step)
    ensures PassesLate(sha, Next(sha, s, step))
  {
    hide Inv, Next, NoReturn, Considerate, Stale;
    var s' := Next(sha, s, step);
    forall p | p in s'.procs && Passing(s'.procs[p]) ensures NoReturn(sha, s'.t, s'.procs, s'.procs[p].upload) {
      if p in s.procs && Passing(s.procs[p]) && s.procs[p].upload == s'.procs[p].upload {
        NoReturnStays(sha, s, step, s.procs[p].upload);
      } else {
        PassesFrom(sha, s, step, p);
        if step.p !in s.procs && step.u in s.t.sessions && Stale(s.t, step.u) {
          Taken(sha, s, p, step.u);
          SelectedLate(sha, s, step);
        } else {
          SelectsNothing(sha, s, step);
        }
      }
    }
  }

  lemma {:induction false} LateRun(sha: Hash, s: State, steps: seq<Step>)
    requires Inv(sha, s) && PassesLate(sha, s) && ConsiderateRun(sha, s, steps)
    ensures PassesLate(sha, Run(sha, s, steps))
    decreases |steps|
  {
    hide Inv, PassesLate, Next, Considerate;
    if steps != [] {
      StepKeeps(sha, s, steps[0]);
      LateStep(sha, s, steps[0]);
      LateRun(sha, Next(sha, s, steps[0]), steps[1..]);
    }
  }

  /** In such a run no pass ever has a session that accepts parts, now or later. */
  lemma FirstPassSparesYoung(sha: Hash, s0: State, steps: seq<Step>, p: ProcId, u: UploadId)
    requires Init(s0) && ConsiderateRun(sha, s0, steps)
    ensures var s := Run(sha, s0, steps);
            p in s.procs && Passing(s.procs[p]) && s.procs[p].upload == u ==>
              !Young(s.t, u) && forall more: seq<Step> :: !Young(Run(sha, s, more).t, u)
  {
    hide Inv, Run, Init, NoReturn, Young;
    var s := Run(sha, s0, steps);
    InitHolds(sha, s0);
    assert PassesLate(sha, s0) by { NobodyPasses(s0); }
    RunKeeps(sha, s0, steps);
    LateRun(sha, s0, steps);
    if p in s.procs && Passing(s.procs[p]) && s.procs[p].upload == u {
      forall more: seq<Step> ensures !Young(Run(sha, s, more).t, u) { NeverYoungAgain(sha, s, more, u); }
      assert Run(sha, s, []) == s by { NoSteps(sha, s); }
    }
  }

  lemma NoSteps(sha: Hash, s: State)
    ensures Run(sha, s, []) == s
  {
  }

  lemma NobodyPasses(s: State)
    requires Init(s)
    ensures s.procs == map[]
  {
  }
}
