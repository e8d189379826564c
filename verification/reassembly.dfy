/** Reassembly is the identity. The device cuts an image into parts with a loop over offsets; the
    server joins the part objects it finds with another. Whatever the order, repetition or
    interruption of the uploads, and whatever else interleaves, a completion that gets as far as
    a body has exactly the device's bytes, and it needed ceil(total / 256,000) parts. No property
    of the hash is used. */
module Reassembly {
  import opened Basics
  import opened UploadTables
  import opened UploadProtocol
  import opened UploadProofs
  import opened UploadTheorems

  // ---------------------------------------------------------------- the device's slices

  function Slice(image: Bytes, n: nat): Bytes
    requires n * PART_SIZE < |image|
  {
    image[n * PART_SIZE..Min(n * PART_SIZE + PART_SIZE, |image|)]
  }

  /** The bytes of parts 0 to n - 1. */
  function Prefix(image: Bytes, n: nat): Bytes { image[..Min(n * PART_SIZE, |image|)] }

  lemma PrefixGrows(image: Bytes, n: nat)
    requires n * PART_SIZE < |image|
    ensures Prefix(image, n) + Slice(image, n) == Prefix(image, n + 1)
  {
  }

  lemma PrefixEnds(image: Bytes, n: nat)
    ensures (Prefix(image, n) == image) <==> PartCount(|image|) <= n
  {
    if PartCount(|image|) <= n {
      assert n * PART_SIZE >= |image|;
    } else {
      assert n * PART_SIZE < |image|;
      assert |Prefix(image, n)| < |image|;
    }
  }

  datatype Sent = Sent(number: nat, body: Bytes)

  predicate Confirmed(sha: Hash, image: Bytes, confirmed: map<nat, Digest>, n: nat)
    requires n * PART_SIZE < |image|
  {
    n in confirmed && confirmed[n] == sha(Slice(image, n))
  }

  /** The parts from number `n` on that the server has not confirmed with the same digest. */
  function Pending(sha: Hash, image: Bytes, confirmed: map<nat, Digest>, n: nat): seq<Sent>
    decreases |image| - n * PART_SIZE
  {
    if |image| <= n * PART_SIZE then []
    else (if Confirmed(sha, image, confirmed, n) then [] else [Sent(n, Slice(image, n))])
         + Pending(sha, image, confirmed, n + 1)
  }

  lemma {:induction false} PendingExact(sha: Hash, image: Bytes, confirmed: map<nat, Digest>, n: nat, part: Sent)
    ensures part in Pending(sha, image, confirmed, n) <==>
            n <= part.number && part.number * PART_SIZE < |image| && part.body == Slice(image, part.number)
            && !Confirmed(sha, image, confirmed, part.number)
    decreases |image| - n * PART_SIZE
  {
    if n * PART_SIZE < |image| { PendingExact(sha, image, confirmed, n + 1, part); }
  }

  function Join(parts: seq<Sent>): Bytes { if parts == [] then [] else parts[0].body + Join(parts[1..]) }

  lemma JoinCons(part: Sent, rest: seq<Sent>)
    ensures Join([part] + rest) == part.body + Join(rest)
  {
    assert ([part] + rest)[1..] == rest;
  }

  lemma PendingCons(sha: Hash, image: Bytes, n: nat)
    ensures Pending(sha, image, map[], n) ==
            if n * PART_SIZE < |image| then [Sent(n, Slice(image, n))] + Pending(sha, image, map[], n + 1) else []
    ensures Join([]) == []
  {
  }

  /** With nothing confirmed, ceil(total / 256,000) parts are sent, and joined they are the image. */
  lemma {:induction false} PendingJoins(sha: Hash, image: Bytes, n: nat)
    requires n <= PartCount(|image|)
    ensures |Pending(sha, image, map[], n)| == PartCount(|image|) - n
    ensures Prefix(image, n) + Join(Pending(sha, image, map[], n)) == image
    decreases |image| - n * PART_SIZE
  {
    hide Pending, Join, Prefix, Slice;
    PrefixEnds(image, n);
    PendingCons(sha, image, n);
    if n * PART_SIZE < |image| {
      PendingJoins(sha, image, n + 1);
      PrefixGrows(image, n);
      var rest := Pending(sha, image, map[], n + 1);
      JoinCons(Sent(n, Slice(image, n)), rest);
      assert Prefix(image, n) + (Slice(image, n) + Join(rest)) == (Prefix(image, n) + Slice(image, n)) + Join(rest);
    }
  }

  lemma PendingStep(sha: Hash, image: Bytes, confirmed: map<nat, Digest>, sent: seq<Sent>, n: nat)
    requires n * PART_SIZE < |image|
    ensures var sent' := if Confirmed(sha, image, confirmed, n) then sent else sent + [Sent(n, Slice(image, n))];
            sent + Pending(sha, image, confirmed, n) == sent' + Pending(sha, image, confirmed, n + 1)
  {
  }

  /** The upload loop: confirmed parts are skipped, the others sent in order until a request fails. */
  method SendParts(sha: Hash, image: Bytes, confirmed: map<nat, Digest>, answers: nat -> bool)
      returns (sent: seq<Sent>, done: bool)
    ensures sent <= Pending(sha, image, confirmed, 0)
    ensures if done then sent == Pending(sha, image, confirmed, 0) else sent != [] && !answers(sent[|sent| - 1].number)
  {
    sent := [];
    var offset, number := 0, 0;
    while offset < |image|
      invariant offset == number * PART_SIZE
      invariant sent + Pending(sha, image, confirmed, number) == Pending(sha, image, confirmed, 0)
      decreases |image| - offset
    {
      PendingStep(sha, image, confirmed, sent, number);
      var part := image[offset..Min(offset + PART_SIZE, |image|)];
      if !(number in confirmed && confirmed[number] == sha(part)) {
        sent := sent + [Sent(number, part)];
        if !answers(number) { return sent, false; }
      }
      offset, number := offset + PART_SIZE, number + 1;
    }
    done := true;
  }

  // ---------------------------------------------------------------- what a faithful device leaves behind

  /** Only slices of `image` are ever sent as parts of session `u`. */
  predicate Faithful(step: Step, u: UploadId, image: Bytes) {
    step.PutCheck? && step.u == u ==> step.n * PART_SIZE < |image| && step.body == Slice(image, step.n)
  }

  ghost predicate PartsFaithful(store: Store, u: UploadId, image: Bytes) {
    forall k :: k in store && PartOf(k, u) ==> k.number * PART_SIZE < |image| && store[k].body == Slice(image, k.number)
  }

  ghost predicate RowsFit(parts: seq<Part>, u: UploadId) {
    forall part :: part in parts ==> PartOf(part.key, u) && part.offset == part.key.number * PART_SIZE
  }

  ghost predicate ProcFaithful(c: Process, u: UploadId, image: Bytes) {
    match c
    case Putting(v, n, body, _) => v == u ==> n * PART_SIZE < |image| && body == Slice(image, n)
    case Reading(v, row, parts, next, body) =>
      v == u ==>
        && row.total == |image| && body == Prefix(image, next) && RowsFit(parts, u)
        && next <= |parts| <= PartCount(|image|)
    case Assembled(v, _, parts, body) => v == u ==> body == image && |parts| == PartCount(|image|)
    case Keyed(v, _, parts, body, _) => v == u ==> body == image && |parts| == PartCount(|image|)
    case Stored(v, _, parts, body, _) => v == u ==> body == image && |parts| == PartCount(|image|)
    case _ => true
  }

  ghost predicate FaithInv(s: State, u: UploadId, image: Bytes) {
    && u < s.t.nextUpload
    && (u in s.t.sessions ==> s.t.sessions[u].total == |image|)
    && PartsFaithful(s.t.store, u, image)
    && forall p :: p in s.procs ==> ProcFaithful(s.procs[p], u, image)
  }

  /** Steps that start nothing about parts or bodies and write no part object. */
  ghost predicate Plainly(s: State, s': State) {
    && (forall k :: k in s'.t.store && k.PartKey? ==> k in s.t.store && s'.t.store[k].body == s.t.store[k].body)
    && (forall p :: p in s'.procs ==> (p in s.procs && s'.procs[p] == s.procs[p]) || Dull(s'.procs[p]))
  }

  predicate Dull(c: Process) { !c.Putting? && !c.Reading? && !c.Assembled? && !c.Keyed? && !c.Stored? }

  predicate Telling(step: Step) {
    step.PutCheck? || step.PutWrite? || step.ClaimSession? || step.ReadPart? || step.Inspect? || step.RecordKey?
      || step.WriteImage?
  }

  lemma PlainOpen(sha: Hash, s: State, step: Step)
    requires step.OpenSession?
    ensures Plainly(s, Next(sha, s, step))
  {
    hide CreateAnswerFor;
  }

  lemma PlainPurge(sha: Hash, s: State, step: Step)
    requires step.PurgeReceipts?
    ensures Plainly(s, Next(sha, s, step))
  {
    hide Without, LeakMore;
  }

  lemma PlainClock(sha: Hash, s: State, step: Step)
    requires step.SetQuota? || step.Crash? || step.Tick?
    ensures Plainly(s, Next(sha, s, step))
  {
  }

  lemma PlainSelect(sha: Hash, s: State, step: Step)
    requires step.SelectStale? || step.SelectImage?
    ensures Plainly(s, Next(sha, s, step))
  {
    hide Stale;
  }

  lemma PlainLook(sha: Hash, s: State, step: Step)
    requires step.ListObject? || step.CheckTracked?
    ensures Plainly(s, Next(sha, s, step))
  {
  }

  lemma PlainLoad(sha: Hash, s: State, step: Step)
    requires step.LoadKeys? || step.PutInsert?
    ensures Plainly(s, Next(sha, s, step))
  {
    hide Doomed;
  }

  lemma PlainRows(sha: Hash, s: State, step: Step)
    requires step.SweepRows? || step.Release? || step.ExpireSession?
    ensures Plainly(s, Next(sha, s, step))
  {
  }

  lemma PlainDelete(sha: Hash, s: State, step: Step)
    requires step.DeleteImage? || step.SweepPart?
    ensures Plainly(s, Next(sha, s, step))
  {
  }

  lemma PlainDrop(sha: Hash, s: State, step: Step)
    requires step.DeleteKey? || step.DeleteUntracked?
    ensures Plainly(s, Next(sha, s, step))
  {
  }

  lemma PlainCommit(sha: Hash, s: State, step: Step)
    requires step.CommitReceipt?
    ensures Plainly(s, Next(sha, s, step))
  {
    hide CommitError;
  }

  lemma PlainMark(sha: Hash, s: State, step: Step)
    requires step.MarkImage? || step.DropImage?
    ensures Plainly(s, Next(sha, s, step))
  {
  }

  lemma PlainFinish(sha: Hash, s: State, step: Step)
    requires step.FinishRetention?
    ensures Plainly(s, Next(sha, s, step))
  {
  }

  lemma OtherStepsPlain(sha: Hash, s: State, step: Step)
    requires !Telling(step)
    ensures Plainly(s, Next(sha, s, step))
  {
    hide Next, Plainly;
    match step
    case OpenSession(_, _, _, _) => PlainOpen(sha, s, step);
    case PurgeReceipts(_, _) => PlainPurge(sha, s, step);
    case SetQuota(_, _) => PlainClock(sha, s, step);
    case Crash(_) => PlainClock(sha, s, step);
    case Tick(_) => PlainClock(sha, s, step);
    case SelectStale(_, _) => PlainSelect(sha, s, step);
    case SelectImage(_, _) => PlainSelect(sha, s, step);
    case ListObject(_, _) => PlainLook(sha, s, step);
    case CheckTracked(_) => PlainLook(sha, s, step);
    case LoadKeys(_) => PlainLoad(sha, s, step);
    case PutInsert(_) => PlainLoad(sha, s, step);
    case SweepRows(_) => PlainRows(sha, s, step);
    case Release(_) => PlainRows(sha, s, step);
    case ExpireSession(_) => PlainRows(sha, s, step);
    case DeleteImage(_, _) => PlainDelete(sha, s, step);
    case SweepPart(_, _) => PlainDelete(sha, s, step);
    case DeleteKey(_) => PlainDrop(sha, s, step);
    case DeleteUntracked(_) => PlainDrop(sha, s, step);
    case CommitReceipt(_, _, _) => PlainCommit(sha, s, step);
    case MarkImage(_) => PlainMark(sha, s, step);
    case DropImage(_, _) => PlainMark(sha, s, step);
    case FinishRetention(_) => PlainFinish(sha, s, step);
  }

  lemma PlainKeeps(s: State, s': State, u: UploadId, image: Bytes, freed: Option<UploadId>)
    requires FaithInv(s, u, image) && Plainly(s, s') && Moves(s.t, s'.t, freed)
    ensures FaithInv(s', u, image)
  {
  }

  /** One process moved, the part objects stayed and no row changed its size. */
  ghost predicate Stirred(s: State, s': State, p: ProcId, u: UploadId, image: Bytes) {
    && PartsFaithful(s'.t.store, u, image)
    && (forall q :: q in s'.procs && q != p ==> q in s.procs && s'.procs[q] == s.procs[q])
    && (p in s'.procs ==> ProcFaithful(s'.procs[p], u, image))
  }

  lemma StirredKeeps(s: State, s': State, p: ProcId, u: UploadId, image: Bytes, freed: Option<UploadId>)
    requires FaithInv(s, u, image) && Stirred(s, s', p, u, image) && Moves(s.t, s'.t, freed)
    ensures FaithInv(s', u, image)
  {
    hide PartsFaithful, ProcFaithful;
  }

  lemma CheckFaithful(sha: Hash, s: State, step: Step, u: UploadId, image: Bytes)
    requires FaithInv(s, u, image) && step.PutCheck? && Faithful(step, u, image)
    ensures Stirred(s, Next(sha, s, step), step.p, u, image)
  {
    hide CheckPart, PartBusy, PartsFaithful;
  }

  lemma WriteFaithful(sha: Hash, s: State, step: Step, u: UploadId, image: Bytes)
    requires FaithInv(s, u, image) && step.PutWrite?
    ensures Stirred(s, Next(sha, s, step), step.p, u, image)
  {
  }

  lemma {:induction false} RowsOfFit(sha: Hash, t: Tables, u: UploadId)
    requires PartInv(sha, t.sessions, t.parts, t.store)
    ensures RowsFit(RowsOf(t, u), u) && (u in t.sessions ==> |RowsOf(t, u)| <= PartCount(t.sessions[u].total))
  {
    if u in t.sessions { RowsFrom(sha, t, u, 0, PartCount(t.sessions[u].total)); }
  }

  lemma {:induction false} RowsFrom(sha: Hash, t: Tables, u: UploadId, n: nat, count: nat)
    requires n <= count && PartInv(sha, t.sessions, t.parts, t.store)
    ensures RowsFit(PartRows(t, u, n, count), u) && |PartRows(t, u, n, count)| <= count - n
    decreases count - n
  {
    if n < count {
      RowsFrom(sha, t, u, n + 1, count);
      if (u, n) in t.parts { assert PartOk(sha, t.sessions[u].total, t.parts[(u, n)], u, n, t.store); }
    }
  }

  lemma ClaimStarts(sha: Hash, s: State, step: Step)
    requires step.ClaimSession?
    ensures var s' := Next(sha, s, step);
            || s' == s
            || (s'.t.store == s.t.store && step.p !in s.procs && step.u in s.t.sessions
                && s'.procs == s.procs[step.p := Reading(step.u, s.t.sessions[step.u], RowsOf(s.t, step.u), 0, [])])
  {
    hide RowsOf;
  }

  lemma ClaimFaithful(sha: Hash, s: State, step: Step, u: UploadId, image: Bytes)
    requires FaithInv(s, u, image) && step.ClaimSession? && PartInv(sha, s.t.sessions, s.t.parts, s.t.store)
    ensures Stirred(s, Next(sha, s, step), step.p, u, image)
  {
    hide RowsOf, PartsFaithful, PartInv, Next, RowsFit;
    ClaimStarts(sha, s, step);
    RowsOfFit(sha, s.t, u);
    assert Prefix(image, 0) == [];
  }

  lemma ReadFaithful(sha: Hash, s: State, step: Step, u: UploadId, image: Bytes)
    requires FaithInv(s, u, image) && step.ReadPart?
    ensures Stirred(s, Next(sha, s, step), step.p, u, image)
  {
    var s' := Next(sha, s, step);
    if s' != s && s.procs[step.p].upload == u {
      var c := s.procs[step.p];
      var part := c.parts[c.next];
      assert ProcFaithful(c, u, image);
      assert part in c.parts && PartOf(part.key, u);
      if part.offset == |c.body| && part.key in s.t.store {
        AtBoundary(image, c.next, part.key.number);
        PrefixGrows(image, c.next);
      }
    }
  }

  /** A prefix that ends where a part begins ends on a part boundary before the end of the image. */
  lemma AtBoundary(image: Bytes, n: nat, m: nat)
    requires m * PART_SIZE < |image| && |Prefix(image, n)| == m * PART_SIZE
    ensures n == m
  {
  }

  lemma InspectFaithful(sha: Hash, s: State, step: Step, u: UploadId, image: Bytes)
    requires FaithInv(s, u, image) && step.Inspect?
    ensures Stirred(s, Next(sha, s, step), step.p, u, image)
  {
    hide IsWebp, PartsFaithful;
    var s' := Next(sha, s, step);
    if s' != s && s.procs[step.p].upload == u {
      var c := s.procs[step.p];
      assert ProcFaithful(c, u, image);
      if |c.body| == c.row.total {
        assert c.body == image;
        PrefixEnds(image, c.next);
      }
    }
  }

  lemma KeyFaithful(sha: Hash, s: State, step: Step, u: UploadId, image: Bytes)
    requires FaithInv(s, u, image) && step.RecordKey?
    ensures Stirred(s, Next(sha, s, step), step.p, u, image)
  {
    hide PartsFaithful;
  }

  lemma StoreFaithful(sha: Hash, s: State, step: Step, u: UploadId, image: Bytes)
    requires Inv(sha, s) && FaithInv(s, u, image) && step.WriteImage?
    ensures Stirred(s, Next(sha, s, step), step.p, u, image)
  {
    hide TablesInv, Checked, Held, PartsOf;
    if step.p in s.procs { assert ProcOk(sha, s.t, s.procs[step.p]); }
  }

  lemma StepFaithful(sha: Hash, s: State, step: Step, u: UploadId, image: Bytes)
    requires Inv(sha, s) && FaithInv(s, u, image) && Faithful(step, u, image)
    ensures FaithInv(Next(sha, s, step), u, image)
  {
    hide Next, FaithInv, Stirred, Moves, Plainly, ProcInv, Exclusive, IndexInv, PartInv, AgeInv, Faithful;
    StepFollowsEdges(sha, s, step);
    var s' := Next(sha, s, step);
    if !Telling(step) {
      OtherStepsPlain(sha, s, step);
      PlainKeeps(s, s', u, image, Freed(s, step));
    } else {
      if step.PutCheck? { CheckFaithful(sha, s, step, u, image); }
      else if step.PutWrite? { WriteFaithful(sha, s, step, u, image); }
      else if step.ClaimSession? { ClaimFaithful(sha, s, step, u, image); }
      else if step.ReadPart? { ReadFaithful(sha, s, step, u, image); }
      else if step.Inspect? { InspectFaithful(sha, s, step, u, image); }
      else if step.RecordKey? { KeyFaithful(sha, s, step, u, image); }
      else { StoreFaithful(sha, s, step, u, image); }
      StirredKeeps(s, s', step.p, u, image, Freed(s, step));
    }
  }

  predicate FaithfulAll(steps: seq<Step>, u: UploadId, image: Bytes) {
    forall step :: step in steps ==> Faithful(step, u, image)
  }

  lemma {:induction false} RunFaithful(sha: Hash, s: State, steps: seq<Step>, u: UploadId, image: Bytes)
    requires Inv(sha, s) && FaithInv(s, u, image) && FaithfulAll(steps, u, image)
    ensures FaithInv(Run(sha, s, steps), u, image)
    decreases |steps|
  {
    hide Inv, FaithInv, Next, Faithful;
    if steps != [] {
      assert steps[0] in steps;
      StepFaithful(sha, s, steps[0], u, image);
      StepKeeps(sha, s, steps[0]);
      RunFaithful(sha, Next(sha, s, steps[0]), steps[1..], u, image);
    }
  }

  /** The request opens a fresh session for an image of this size. */
  ghost predicate Opens(s: State, open: Step, image: Bytes) {
    && open.OpenSession? && open.request.total == |image| && open.request.receipt !in s.t.sessionOf
    && CreateAnswerFor(s.t, open.device, open.request, open.paused, open.vendorKnown) == Opened(s.t.nextUpload)
  }

  /** A session just opened has no parts and nobody works for it. */
  lemma OpensFaithful(sha: Hash, s: State, step: Step, image: Bytes)
    requires Inv(sha, s) && Opens(s, step, image)
    ensures FaithInv(Next(sha, s, step), s.t.nextUpload, image)
  {
    hide CreateAnswerFor, PartInv, ReceiptInv, OncePer, StorageInv, ChargeInv, OpeningInv;
    var u := s.t.nextUpload;
    forall p | p in s.procs ensures ProcFaithful(s.procs[p], u, image) { NotYet(sha, s.t, s.procs[p], image); }
  }

  lemma NotYet(sha: Hash, t: Tables, c: Process, image: Bytes)
    requires ProcOk(sha, t, c)
    ensures ProcFaithful(c, t.nextUpload, image)
  {
  }

  /** This state is reached after session `u` was opened for `image`, by a run in which only slices
      of `image` are ever sent as its parts. */
  ghost predicate SentFaithfully(sha: Hash, s: State, u: UploadId, image: Bytes) {
    exists s0: State, open: Step, steps: seq<Step> ::
      Reachable(sha, s0) && Opens(s0, open, image) && u == s0.t.nextUpload && FaithfulAll(steps, u, image)
      && Run(sha, Next(sha, s0, open), steps) == s
  }

  /** Whoever completes such a session, and whatever else went on, stores exactly `image`, joined
      from ceil(total / 256,000) parts. */
  lemma ReassemblyIsIdentity(sha: Hash, s: State, u: UploadId, image: Bytes, p: ProcId)
    requires SentFaithfully(sha, s, u, image)
    requires p in s.procs && (s.procs[p].Assembled? || s.procs[p].Keyed? || s.procs[p].Stored?)
             && s.procs[p].upload == u
    ensures s.procs[p].body == image && |s.procs[p].parts| == PartCount(|image|)
  {
    hide Inv, Next, FaithfulAll, Reachable;
    var s0: State, open: Step, steps: seq<Step> :|
      Reachable(sha, s0) && Opens(s0, open, image) && u == s0.t.nextUpload && FaithfulAll(steps, u, image)
      && Run(sha, Next(sha, s0, open), steps) == s;
    ReachableInv(sha, s0);
    OpensFaithful(sha, s0, open, image);
    StepKeeps(sha, s0, open);
    RunFaithful(sha, Next(sha, s0, open), steps, u, image);
  }

  /** Such a session cannot be refused for its checksum if it was opened with the digest of `image`. */
  lemma FaithfulNeverMismatches(sha: Hash, s: State, u: UploadId, image: Bytes, p: ProcId)
    requires Inv(sha, s) && FaithInv(s, u, image) && u in s.t.sessions && s.t.sessions[u].digest == sha(image)
             && IsWebp(image)
    requires p in s.procs && s.procs[p].Reading? && s.procs[p].upload == u && s.procs[p].next == |s.procs[p].parts|
    ensures var c := Next(sha, s, Inspect(p)).procs[p];
            if |s.procs[p].parts| == PartCount(|image|) then c.Assembled? && c.body == image
            else c == Releasing(u, OPEN)
  {
    hide TablesInv, IsWebp, PartsFaithful;
    var c := s.procs[p];
    assert ProcOk(sha, s.t, c) && ProcFaithful(c, u, image);
    PrefixEnds(image, c.next);
  }
}
