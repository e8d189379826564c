/** What a breach of the discipline in upload_durability.dfy leads to, in every state: for each
    clause, when the request concerned can still commit the image that a pass holds, some
    continuation loses that image. */
module UploadBreaches {
  import opened Basics
  import opened UploadTables
  import opened UploadProtocol
  import opened UploadProofs
  import opened UploadExposure
  import opened UploadDurability

  /** The parts from `next` on join `body` to one that passes the checks. */
  ghost predicate Joins(sha: Hash, store: Store, row: Session, parts: seq<Part>, next: nat, body: Bytes)
    requires next <= |parts|
    decreases |parts| - next
  {
    if next == |parts| then Checked(sha, row, body)
    else
      var part := parts[next];
      part.offset == |body| && part.key in store && |store[part.key].body| == part.length
      && Joins(sha, store, row, parts, next + 1, body + store[part.key].body)
  }

  /** Left alone, the request would commit its session now, with the image `key`. */
  ghost predicate Ready(sha: Hash, t: Tables, c: Process, key: Key) {
    && Committer(c) && CommitError(t, c.upload, c.row.total, Within) == None
    && match c
       case Reading(_, row, parts, next, body) =>
         key == ImageKey(row.receipt, t.now / DAY) && next <= |parts| && Joins(sha, t.store, row, parts, next, body)
       case Assembled(_, row, _, body) => key == ImageKey(row.receipt, t.now / DAY) && |body| == row.total
       case _ => c.key == key && |c.body| == c.row.total
  }

  /** The request moved on by one step, and nothing else did. */
  ghost predicate Onward(sha: Hash, s: State, s': State, q: ProcId, key: Key)
    requires q in s.procs && Committer(s.procs[q])
  {
    && q in s'.procs && s'.procs == s.procs[q := s'.procs[q]] && Ready(sha, s'.t, s'.procs[q], key)
    && s'.procs[q].row == s.procs[q].row
    && s'.t.tombstones == s.t.tombstones && s'.t.now == s.t.now
  }

  /** How far the request still is from its commit. */
  ghost function Distance(c: Process): nat
    requires Committer(c)
  {
    match c
    case Reading(_, _, parts, next, _) => if next <= |parts| then 4 + |parts| - next else 0
    case Assembled(_, _, _, _) => 2
    case Keyed(_, _, _, _, _) => 1
    case Stored(_, _, _, _, _) => 0
  }

  function Forward(c: Process, q: ProcId): Step
    requires Committer(c) && !c.Stored?
  {
    match c
    case Reading(_, _, parts, next, _) => if next < |parts| then ReadPart(q, false) else Inspect(q)
    case Assembled(_, _, _, _) => RecordKey(q)
    case Keyed(_, _, _, _, _) => WriteImage(q)
  }

  lemma SameRoom(t: Tables, t': Tables, u: UploadId, bytes: nat)
    requires CommitError(t, u, bytes, Within) == None && u in t'.sessions
    requires t'.sessions[u].status == t.sessions[u].status && t'.sessions[u].owner == t.sessions[u].owner
    requires t'.orgs == t.orgs && t'.sites == t.sites
    ensures CommitError(t', u, bytes, Within) == None
  {
  }

  lemma MovesOn(sha: Hash, s: State, q: ProcId, key: Key)
    requires q in s.procs && Committer(s.procs[q]) && !s.procs[q].Stored? && Ready(sha, s.t, s.procs[q], key)
    ensures var s' := Next(sha, s, Forward(s.procs[q], q));
            Onward(sha, s, s', q, key) && Distance(s'.procs[q]) < Distance(s.procs[q])
  {
    hide CommitError, IsWebp;
    var c := s.procs[q];
    var s' := Next(sha, s, Forward(c, q));
    assert c.upload in s.t.sessions && s.t.sessions[c.upload].status == COMPLETING by {
      NoErrorCompletes(s.t, c.upload, c.row.total);
    }
    SameRoom(s.t, s'.t, c.upload, c.row.total);
  }

  lemma NoErrorCompletes(t: Tables, u: UploadId, bytes: nat)
    requires CommitError(t, u, bytes, Within) == None
    ensures u in t.sessions && t.sessions[u].status == COMPLETING
  {
  }

  /** A request that is ready, beside somebody who means to delete its image: the image can be lost. */
  lemma {:induction false} ReadyBesideTaker(sha: Hash, s: State, q: ProcId, p: ProcId, key: Key)
      returns (steps: seq<Step>)
    requires Inv(sha, s) && q in s.procs && Ready(sha, s.t, s.procs[q], key)
             && s.procs[q].row.receipt !in s.t.tombstones
    requires p in s.procs && Takes(s.procs[p], key)
    ensures LostSince(sha, Run(sha, s, steps), s.procs[q].row.receipt, s.t.now)
    decreases Distance(s.procs[q])
  {
    hide Inv, Next, LostSince, Joins, CommitError;
    var c := s.procs[q];
    var step := if c.Stored? then CommitReceipt(q, Within, NoFault) else Forward(c, q);
    var s' := Next(sha, s, step);
    if c.Stored? {
      LostExactlyIfExposed(sha, s, q, Within, NoFault);
      steps :| LostSince(sha, Run(sha, s', steps), c.row.receipt, s.t.now);
    } else {
      MovesOn(sha, s, q, key);
      StepKeeps(sha, s, step);
      steps := ReadyBesideTaker(sha, s', q, p, key);
    }
    RunCons(sha, s, step, steps);
    steps := [step] + steps;
  }

  /** Some continuation loses the image of the receipt committed by it. */
  ghost predicate CanLose(sha: Hash, s: State, r: ReceiptId) {
    exists steps: seq<Step> :: LostSince(sha, Run(sha, s, steps), r, s.t.now)
  }

  lemma PassBegun(sha: Hash, s: State, p: ProcId, u: UploadId)
    requires p !in s.procs && u in s.t.sessions && Stale(s.t, u)
    ensures Next(sha, s, SelectStale(p, u)) == Set(s, p, Selected(u, s.t.sessions[u].status, s.t.sessions[u].image))
  {
  }

  /** The first clause: a pass takes up a session whose recorded image a request is ready to commit. */
  lemma SelectBreach(sha: Hash, s: State, p: ProcId, u: UploadId, q: ProcId)
    requires Inv(sha, s) && p !in s.procs && u in s.t.sessions && Stale(s.t, u) && s.t.sessions[u].status != COMPLETE
             && s.t.sessions[u].image.Some?
    requires q in s.procs && Ready(sha, s.t, s.procs[q], s.t.sessions[u].image.value)
             && s.procs[q].row.receipt !in s.t.tombstones
    ensures CanLose(sha, Next(sha, s, SelectStale(p, u)), s.procs[q].row.receipt)
  {
    var r := s.procs[q].row.receipt;
    var s' := Next(sha, s, SelectStale(p, u));
    hide Inv, Next, Stale, Ready, LostSince, Run;
    PassBegun(sha, s, p, u);
    StepKeeps(sha, s, SelectStale(p, u));
    var steps := ReadyBesideTaker(sha, s', q, p, s.t.sessions[u].image.value);
  }

  lemma Claiming(sha: Hash, s: State, q: ProcId, device: Device, u: UploadId)
    requires q !in s.procs && ClaimAnswerFor(s.t, device, u).Claimed?
    ensures u in s.t.sessions
    ensures var s' := Next(sha, s, ClaimSession(q, device, u));
            && s'.procs == s.procs[q := Reading(u, s.t.sessions[u], RowsOf(s.t, u), 0, [])]
            && s'.t.tombstones == s.t.tombstones
  {
    hide RowsOf;
  }

  /** The second clause: a request claims a session whose image a pass holds, and is ready to commit it. */
  lemma ClaimBreach(sha: Hash, s: State, q: ProcId, device: Device, u: UploadId, p: ProcId, key: Key)
    requires Inv(sha, s) && p in s.procs && Takes(s.procs[p], key) && q !in s.procs
             && ClaimAnswerFor(s.t, device, u).Claimed?
    requires var s' := Next(sha, s, ClaimSession(q, device, u)); q in s'.procs && Ready(sha, s'.t, s'.procs[q], key)
    requires s.t.sessions[u].receipt !in s.t.tombstones
    ensures CanLose(sha, Next(sha, s, ClaimSession(q, device, u)), s.t.sessions[u].receipt)
  {
    hide Inv, Next, Ready, LostSince, Run, RowsOf, ClaimAnswerFor;
    Claiming(sha, s, q, device, u);
    StepKeeps(sha, s, ClaimSession(q, device, u));
    var steps := ReadyBesideTaker(sha, Next(sha, s, ClaimSession(q, device, u)), q, p, key);
  }

  /** The third clause: the answer to a commit that takes effect is lost. */
  lemma ReplyBreach(sha: Hash, s: State, p: ProcId, day: DayVerdict)
    requires Inv(sha, s) && Effective(s, p, day, ReplyLost) && s.procs[p].row.receipt !in s.t.tombstones
    ensures CanLose(sha, Next(sha, s, CommitReceipt(p, day, ReplyLost)), s.procs[p].row.receipt)
  {
    hide Inv, Next, LostSince, Run, CommitError;
    LostExactlyIfExposed(sha, s, p, day, ReplyLost);
    CommitLeaves(sha, s, p, day, ReplyLost);
  }
}
