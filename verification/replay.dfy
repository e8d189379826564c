/** Replay protection and rate limiting of device requests. The timestamp is checked against the
    clock first; the nonce is inserted in a transaction that may begin later. Nonces are kept for
    ten minutes, so how long a request may stall between the two decides whether it can be replayed. */
module Replay {
  import opened Basics

  const WINDOW: int := 60
  const NONCE_SECONDS: real := 600.0

  type DeviceId = nat
  type Key = nat

  /** A device and a minute since the epoch. */
  type Window = (DeviceId, int)

  /** `key` is the hash of device and nonce; only the length of the nonce matters besides. */
  datatype Request = Request(device: DeviceId, timestamp: int, key: Key, nonceLength: nat)

  /** A request whose timestamp was found good at time `checked`. */
  datatype Pending = Pending(r: Request, checked: real)

  datatype Accepted = Accepted(r: Request, checked: real, at: real)

  /** `log` lists the accepted requests, `top` the largest limit that was in force in a minute. */
  datatype State = State(
    now: real,
    nonces: map<Key, real>,
    windows: map<Window, nat>,
    pending: map<nat, Pending>,
    log: seq<Accepted>,
    top: map<Window, nat>)

  datatype Step =
    | Check(p: nat, r: Request)
    | Commit(p: nat, limit: Option<nat>)
    | Abandon(p: nat)
    | CleanNonces
    | Tick(seconds: real)

  function Minute(t: real): int { (t / 60.0).Floor }

  predicate Timely(now: real, timestamp: int) { -WINDOW <= now.Floor - timestamp <= WINDOW }

  predicate WellFormed(r: Request) { 16 <= r.nonceLength <= 128 }

  // ---------------------------------------------------------------- the transaction

  function Fresh(nonces: map<Key, real>, now: real): map<Key, real> {
    map k | k in nonces && nonces[k] >= now :: nonces[k]
  }

  function Recent(windows: map<Window, nat>, now: real): map<Window, nat> {
    map w | w in windows && (60 * w.1) as real >= now - 600.0 :: windows[w]
  }

  datatype Tables = Tables(nonces: map<Key, real>, windows: map<Window, nat>)

  datatype Verdict = Ok | ReplayRejected | OrganizationInactive | RateLimited

  /** Both deletions, the nonce, the limit of the organization if it is active, the window. */
  function VerdictOf(t: Tables, r: Request, limit: Option<nat>, now: real): Verdict {
    var w := (r.device, Minute(now));
    if r.key in Fresh(t.nonces, now) then ReplayRejected
    else if limit.None? then OrganizationInactive
    else if w in Recent(t.windows, now) && Recent(t.windows, now)[w] >= limit.value then RateLimited
    else Ok
  }

  function AfterCommit(t: Tables, r: Request, limit: Option<nat>, now: real): Tables {
    if VerdictOf(t, r, limit, now) != Ok then t
    else
      var w := (r.device, Minute(now));
      var windows := Recent(t.windows, now);
      Tables(Fresh(t.nonces, now)[r.key := now + NONCE_SECONDS],
        windows[w := if w in windows then windows[w] + 1 else 1])
  }

  // ---------------------------------------------------------------- runs

  ghost function Next(s: State, step: Step): State {
    match step
    case Check(p, r) =>
      if p !in s.pending && Timely(s.now, r.timestamp) && WellFormed(r)
      then s.(pending := s.pending[p := Pending(r, s.now)]) else s
    case Commit(p, limit) => if p in s.pending then Committed(s, p, limit) else s
    case Abandon(p) => s.(pending := s.pending - {p})
    case CleanNonces => s.(nonces := Fresh(s.nonces, s.now))
    case Tick(seconds) => if seconds >= 0.0 then s.(now := s.now + seconds) else s
  }

  ghost function Committed(s: State, p: nat, limit: Option<nat>): State
    requires p in s.pending
  {
    var c := s.pending[p];
    var t := Tables(s.nonces, s.windows);
    var w := (c.r.device, Minute(s.now));
    var t' := AfterCommit(t, c.r, limit, s.now);
    s.(nonces := t'.nonces, windows := t'.windows, pending := s.pending - {p},
       log := if VerdictOf(t, c.r, limit, s.now) == Ok then s.log + [Accepted(c.r, c.checked, s.now)] else s.log,
       top := if limit.Some? then s.top[w := Max(limit.value, if w in s.top then s.top[w] else 0)] else s.top)
  }

  ghost function Run(s: State, steps: seq<Step>): State
    decreases |steps|
  {
    if steps == [] then s else Run(Next(s, steps[0]), steps[1..])
  }

  ghost predicate Init(s: State) {
    s.nonces == map[] && s.windows == map[] && s.pending == map[] && s.log == [] && s.top == map[] && s.now >= 0.0
  }

  /** The transaction begins at most `stall` seconds after the timestamp was checked. */
  ghost predicate Prompt(s: State, step: Step, stall: real) {
    step.Commit? && step.p in s.pending ==> s.now - s.pending[step.p].checked <= stall
  }

  ghost predicate PromptRun(s: State, steps: seq<Step>, stall: real)
    decreases |steps|
  {
    steps != [] ==> Prompt(s, steps[0], stall) && PromptRun(Next(s, steps[0]), steps[1..], stall)
  }

  // ---------------------------------------------------------------- acceptances of one nonce are ten minutes apart

  ghost predicate NonceInv(nonces: map<Key, real>, log: seq<Accepted>, now: real) {
    && (forall i :: 0 <= i < |log| ==> log[i].at <= now)
    && (forall i :: 0 <= i < |log| && log[i].at + NONCE_SECONDS >= now ==>
      log[i].r.key in nonces && nonces[log[i].r.key] >= log[i].at + NONCE_SECONDS)
    && (forall i, j :: 0 <= i < j < |log| && log[i].r.key == log[j].r.key ==> log[j].at > log[i].at + NONCE_SECONDS)
  }

  ghost predicate LogInv(s: State, stall: real) {
    && (forall p :: p in s.pending ==>
      Timely(s.pending[p].checked, s.pending[p].r.timestamp) && s.pending[p].checked <= s.now)
    && (forall i :: 0 <= i < |s.log| ==>
          Timely(s.log[i].checked, s.log[i].r.timestamp) && s.log[i].checked <= s.log[i].at <= s.log[i].checked + stall)
  }

  lemma NonceKept(nonces: map<Key, real>, log: seq<Accepted>, now: real, later: real)
    requires NonceInv(nonces, log, now) && now <= later
    ensures NonceInv(nonces, log, later) && NonceInv(Fresh(nonces, later), log, later)
  {
  }

  lemma NonceAdded(nonces: map<Key, real>, log: seq<Accepted>, now: real, a: Accepted)
    requires NonceInv(nonces, log, now) && a.r.key !in nonces && a.at == now
    ensures NonceInv(nonces[a.r.key := now + NONCE_SECONDS], log + [a], now)
  {
  }

  lemma StepNonces(s: State, step: Step)
    requires NonceInv(s.nonces, s.log, s.now)
    ensures var s' := Next(s, step); NonceInv(s'.nonces, s'.log, s'.now)
  {
    hide NonceInv, Recent;
    NonceKept(s.nonces, s.log, s.now, s.now);
    if step.Tick? && step.seconds >= 0.0 { NonceKept(s.nonces, s.log, s.now, s.now + step.seconds); }
    if step.Commit? && step.p in s.pending
      && VerdictOf(Tables(s.nonces, s.windows), s.pending[step.p].r, step.limit, s.now) == Ok {
      NonceAdded(Fresh(s.nonces, s.now), s.log, s.now, Accepted(s.pending[step.p].r, s.pending[step.p].checked, s.now));
    }
  }

  lemma StepLog(s: State, step: Step, stall: real)
    requires LogInv(s, stall) && Prompt(s, step, stall)
    ensures LogInv(Next(s, step), stall)
  {
    hide Timely, VerdictOf, AfterCommit;
    if step.Check? { CheckTimely(s, step); }
  }

  lemma CheckTimely(s: State, step: Step)
    requires step.Check?
    ensures var s' := Next(s, step);
            s' == s || (step.p !in s.pending && s' == s.(pending := s.pending[step.p := Pending(step.r, s.now)])
              && Timely(s.now, step.r.timestamp))
  {
  }

  lemma {:induction false} RunKeeps(s: State, steps: seq<Step>, stall: real)
    requires NonceInv(s.nonces, s.log, s.now) && LogInv(s, stall) && PromptRun(s, steps, stall)
    ensures var s' := Run(s, steps); NonceInv(s'.nonces, s'.log, s'.now) && LogInv(s', stall)
    decreases |steps|
  {
    hide NonceInv, LogInv, Next, Prompt;
    if steps != [] {
      StepNonces(s, steps[0]);
      StepLog(s, steps[0], stall);
      RunKeeps(Next(s, steps[0]), steps[1..], stall);
    }
  }

  /** No two accepted requests carry the same timestamp and nonce. */
  ghost predicate OnceEach(log: seq<Accepted>) {
    forall i, j :: 0 <= i < j < |log| ==> log[i].r.key != log[j].r.key || log[i].r.timestamp != log[j].r.timestamp
  }

  lemma WindowsApart(a: Accepted, b: Accepted, stall: real)
    requires a.r.timestamp == b.r.timestamp && Timely(a.checked, a.r.timestamp) && Timely(b.checked, b.r.timestamp)
    requires a.checked <= a.at && b.at <= b.checked + stall && stall <= 479.0
    ensures b.at <= a.at + NONCE_SECONDS
  {
    assert a.checked.Floor as real <= a.checked && b.checked < b.checked.Floor as real + 1.0;
  }

  lemma AcceptedOnce(s0: State, steps: seq<Step>, stall: real)
    requires Init(s0) && PromptRun(s0, steps, stall) && stall <= 479.0
    ensures OnceEach(Run(s0, steps).log)
  {
    hide Run, PromptRun, Timely;
    RunKeeps(s0, steps, stall);
    var log := Run(s0, steps).log;
    forall i, j | 0 <= i < j < |log| && log[i].r.key == log[j].r.key && log[i].r.timestamp == log[j].r.timestamp
      ensures false {
      WindowsApart(log[i], log[j], stall);
    }
  }

  // A request may be replayed if it can stall any longer than that.

  /** Accepted at the earliest moment its timestamp allows; checked again at the last, and stalled
      until the nonce is gone. `extra` is how much longer than 479 seconds. */
  ghost function Replayed(r: Request, extra: real): seq<Step> {
    [Check(1, r)]
      + ([Commit(1, Some(9))]
      + ([Tick(121.0 - extra / 2.0)] + ([Check(2, r)] + ([Tick(479.0 + extra)] + ([Commit(2, Some(9))] + [])))))
  }

  lemma RunCons(s: State, a: Step, rest: seq<Step>)
    ensures Run(s, [a] + rest) == Run(Next(s, a), rest)
  {
    hide Next;
    assert ([a] + rest)[1..] == rest;
  }

  lemma PromptCons(s: State, a: Step, rest: seq<Step>, stall: real)
    requires Prompt(s, a, stall) && PromptRun(Next(s, a), rest, stall)
    ensures PromptRun(s, [a] + rest, stall)
  {
    hide Next;
    assert ([a] + rest)[1..] == rest;
  }

  lemma FirstAccepted(s0: State, r: Request)
    requires Init(s0) && s0.now == 0.0 && r.timestamp == 60 && WellFormed(r)
    ensures var s2 := Next(Next(s0, Check(1, r)), Commit(1, Some(9)));
            && s2.now == 0.0 && s2.nonces == map[r.key := 600.0] && s2.windows == map[(r.device, 0) := 1]
            && s2.pending == map[] && s2.log == [Accepted(r, 0.0, 0.0)]
    ensures Prompt(Next(s0, Check(1, r)), Commit(1, Some(9)), 0.0)
  {
    var s1 := Next(s0, Check(1, r));
    assert s1.pending == map[1 := Pending(r, 0.0)];
    assert Minute(0.0) == 0;
    var s2 := Next(s1, Commit(1, Some(9)));
    assert s2.nonces == map[r.key := 600.0];
    assert s2.windows == map[(r.device, 0) := 1];
    assert s2.pending == map[];
  }

  lemma SecondAccepted(s2: State, r: Request, extra: real)
    requires s2.now == 0.0 && s2.nonces == map[r.key := 600.0] && s2.windows == map[(r.device, 0) := 1]
    requires s2.pending == map[] && s2.log == [Accepted(r, 0.0, 0.0)]
    requires 0.0 < extra <= 1.0 && r.timestamp == 60 && WellFormed(r)
    ensures var s5 := Next(Next(Next(s2, Tick(121.0 - extra / 2.0)), Check(2, r)), Tick(479.0 + extra));
            Prompt(s5, Commit(2, Some(9)), 479.0 + extra) && !OnceEach(Next(s5, Commit(2, Some(9))).log)
  {
    var s3 := Next(s2, Tick(121.0 - extra / 2.0));
    assert s3.now.Floor == 120;
    var s4 := Next(s3, Check(2, r));
    assert s4.pending == map[2 := Pending(r, s3.now)];
    var s5 := Next(s4, Tick(479.0 + extra));
    assert s5.now > 600.0;
    assert Fresh(s5.nonces, s5.now) == map[];
    TenMinutesOn(s5.now);
    var s6 := Next(s5, Commit(2, Some(9)));
    assert s6.log == [Accepted(r, 0.0, 0.0), Accepted(r, s3.now, s5.now)];
    assert s6.log[0].r == s6.log[1].r;
  }

  lemma TenMinutesOn(now: real)
    requires now > 600.0
    ensures Minute(now) > 0
  {
    assert now / 60.0 > 10.0;
  }

  lemma ReplayedTwice(s0: State, r: Request, extra: real)
    requires Init(s0) && s0.now == 0.0 && r.timestamp == 60 && WellFormed(r) && 0.0 < extra <= 1.0
    ensures PromptRun(s0, Replayed(r, extra), 479.0 + extra) && !OnceEach(Run(s0, Replayed(r, extra)).log)
  {
    hide Next, Prompt, OnceEach;
    var commit, again := Commit(2, Some(9)), Check(2, r);
    var s1 := Next(s0, Check(1, r));
    var s2 := Next(s1, Commit(1, Some(9)));
    var s3 := Next(s2, Tick(121.0 - extra / 2.0));
    var s4 := Next(s3, again);
    var s5 := Next(s4, Tick(479.0 + extra));
    FirstAccepted(s0, r);
    SecondAccepted(s2, r, extra);
    NotCommits(s0, s1, s2, s3, s4, s5, r, extra);
    var e5: seq<Step> := [commit] + [];
    var e4 := [Tick(479.0 + extra)] + e5;
    var e3 := [again] + e4;
    var e2 := [Tick(121.0 - extra / 2.0)] + e3;
    var e1 := [Commit(1, Some(9))] + e2;
    RunCons(s0, Check(1, r), e1);
    RunCons(s1, Commit(1, Some(9)), e2);
    RunCons(s2, Tick(121.0 - extra / 2.0), e3);
    RunCons(s3, again, e4);
    RunCons(s4, Tick(479.0 + extra), e5);
    RunCons(s5, commit, []);
    PromptCons(s5, commit, [], 479.0 + extra);
    PromptCons(s4, Tick(479.0 + extra), e5, 479.0 + extra);
    PromptCons(s3, again, e4, 479.0 + extra);
    PromptCons(s2, Tick(121.0 - extra / 2.0), e3, 479.0 + extra);
    PromptCons(s1, Commit(1, Some(9)), e2, 479.0 + extra);
    PromptCons(s0, Check(1, r), e1, 479.0 + extra);
  }

  lemma NotCommits(s0: State, s1: State, s2: State, s3: State, s4: State, s5: State, r: Request, extra: real)
    requires Prompt(s1, Commit(1, Some(9)), 0.0) && extra > 0.0
    ensures Prompt(s0, Check(1, r), 479.0 + extra) && Prompt(s1, Commit(1, Some(9)), 479.0 + extra)
    ensures Prompt(s2, Tick(121.0 - extra / 2.0), 479.0 + extra) && Prompt(s3, Check(2, r), 479.0 + extra)
    ensures Prompt(s4, Tick(479.0 + extra), 479.0 + extra)
  {
  }

  /** Every timestamp and nonce is accepted at most once in every run exactly when no request can
      stall for more than 479 seconds between its timestamp check and its transaction. */
  lemma ReplayProtectedExactly(stall: real)
    ensures stall <= 479.0 <==>
            forall s0: State, steps: seq<Step> :: Init(s0) && PromptRun(s0, steps, stall) ==>
              OnceEach(Run(s0, steps).log)
  {
    hide Run, OnceEach;
    if stall <= 479.0 {
      forall s0: State, steps: seq<Step> | Init(s0) && PromptRun(s0, steps, stall)
        ensures OnceEach(Run(s0, steps).log) {
        AcceptedOnce(s0, steps, stall);
      }
    } else {
      var extra := if stall - 479.0 < 1.0 then stall - 479.0 else 1.0;
      var s0 := State(0.0, map[], map[], map[], [], map[]);
      var r := Request(0, 60, 0, 16);
      ReplayedTwice(s0, r, extra);
      PromptWeaker(s0, Replayed(r, extra), 479.0 + extra, stall);
      assert Init(s0) && PromptRun(s0, Replayed(r, extra), stall) && !OnceEach(Run(s0, Replayed(r, extra)).log);
    }
  }

  lemma {:induction false} PromptWeaker(s: State, steps: seq<Step>, stall: real, more: real)
    requires PromptRun(s, steps, stall) && stall <= more
    ensures PromptRun(s, steps, more)
    decreases |steps|
  {
    hide Next;
    if steps != [] { PromptWeaker(Next(s, steps[0]), steps[1..], stall, more); }
  }

  // ---------------------------------------------------------------- requests per minute

  /** How many requests of the window's device were accepted in its minute. */
  function Count(log: seq<Accepted>, w: Window): nat {
    if log == [] then 0
    else Count(log[..|log| - 1], w) + if (log[|log| - 1].r.device, Minute(log[|log| - 1].at)) == w then 1 else 0
  }

  function TopOf(top: map<Window, nat>, w: Window): nat { if w in top then top[w] else 0 }

  ghost predicate RateInv(windows: map<Window, nat>, log: seq<Accepted>, top: map<Window, nat>, now: real) {
    && (forall w: Window :: w in windows ==> 1 <= windows[w] == Count(log, w))
    && (forall w: Window :: w.1 >= Minute(now) && w !in windows ==> Count(log, w) == 0)
    && (forall w: Window :: Count(log, w) <= Max(1, TopOf(top, w)))
  }

  lemma MinuteBounds(t: real)
    ensures (60 * Minute(t)) as real <= t < (60 * Minute(t)) as real + 60.0
  {
    var m := Minute(t);
    assert m as real <= t / 60.0 < m as real + 1.0;
  }

  lemma MinuteGrows(t: real, u: real)
    requires t <= u
    ensures Minute(t) <= Minute(u)
  {
    MinuteBounds(t);
    MinuteBounds(u);
  }

  lemma CountAdd(log: seq<Accepted>, a: Accepted, w: Window)
    ensures Count(log + [a], w) == Count(log, w) + if (a.r.device, Minute(a.at)) == w then 1 else 0
  {
    assert (log + [a])[..|log|] == log;
  }

  lemma RateLater(windows: map<Window, nat>, log: seq<Accepted>, top: map<Window, nat>, now: real, later: real)
    requires RateInv(windows, log, top, now) && now <= later
    ensures RateInv(windows, log, top, later) && RateInv(Recent(windows, later), log, top, later)
  {
    MinuteGrows(now, later);
    MinuteBounds(later);
    hide Minute, Count, Max;
  }

  lemma RateAdd(windows: map<Window, nat>, log: seq<Accepted>, top: map<Window, nat>, now: real, a: Accepted,
      limit: nat)
    requires RateInv(windows, log, top, now) && a.at == now
    requires var w := (a.r.device, Minute(now)); w in windows ==> windows[w] < limit
    ensures var w := (a.r.device, Minute(now));
            RateInv(windows[w := if w in windows then windows[w] + 1 else 1], log + [a],
              top[w := Max(limit, TopOf(top, w))], now)
  {
    var w := (a.r.device, Minute(now));
    forall v: Window ensures Count(log + [a], v) == Count(log, v) + if w == v then 1 else 0 { CountAdd(log, a, v); }
    hide Minute, Count;
  }

  lemma RateTop(windows: map<Window, nat>, log: seq<Accepted>, top: map<Window, nat>, now: real, w: Window, limit: nat)
    requires RateInv(windows, log, top, now)
    ensures RateInv(windows, log, top[w := Max(limit, TopOf(top, w))], now)
  {
    hide Minute, Count;
  }

  lemma StepRates(s: State, step: Step)
    requires RateInv(s.windows, s.log, s.top, s.now)
    ensures var s' := Next(s, step); RateInv(s'.windows, s'.log, s'.top, s'.now)
  {
    hide RateInv, Count, Minute, Fresh, Recent, Max;
    RateLater(s.windows, s.log, s.top, s.now, s.now);
    if step.Tick? && step.seconds >= 0.0 { RateLater(s.windows, s.log, s.top, s.now, s.now + step.seconds); }
    if step.Commit? && step.p in s.pending && step.limit.Some? {
      var c := s.pending[step.p];
      var w := (c.r.device, Minute(s.now));
      RateTop(s.windows, s.log, s.top, s.now, w, step.limit.value);
      if VerdictOf(Tables(s.nonces, s.windows), c.r, step.limit, s.now) == Ok {
        RateAdd(Recent(s.windows, s.now), s.log, s.top, s.now, Accepted(c.r, c.checked, s.now), step.limit.value);
      }
    }
  }

  lemma {:induction false} RatesKept(s: State, steps: seq<Step>)
    requires RateInv(s.windows, s.log, s.top, s.now)
    ensures var s' := Run(s, steps); RateInv(s'.windows, s'.log, s'.top, s'.now)
    decreases |steps|
  {
    hide RateInv, Next;
    if steps != [] {
      StepRates(s, steps[0]);
      RatesKept(Next(s, steps[0]), steps[1..]);
    }
  }

  /** In every run, stalled requests included, a device gets at most as many requests through in a
      minute as the largest limit in force in that minute, or one if that limit is zero. */
  lemma RateBound(s0: State, steps: seq<Step>, device: DeviceId, minute: int)
    requires Init(s0)
    ensures var s := Run(s0, steps); Count(s.log, (device, minute)) <= Max(1, TopOf(s.top, (device, minute)))
  {
    hide Run;
    RatesKept(s0, steps);
  }

  // ---------------------------------------------------------------- which requests are accepted

  /** Every nonce that is kept was accepted ten minutes before it runs out. */
  ghost predicate NonceMeans(nonces: map<Key, real>, log: seq<Accepted>) {
    forall k :: k in nonces ==> exists i :: 0 <= i < |log| && log[i].r.key == k && log[i].at + 600.0 == nonces[k]
  }

  lemma NonceMeansMore(nonces: map<Key, real>, log: seq<Accepted>, a: Accepted)
    requires NonceMeans(nonces, log)
    ensures NonceMeans(nonces[a.r.key := a.at + 600.0], log + [a])
  {
    var log' := log + [a];
    forall k | k in nonces && k != a.r.key
      ensures exists i :: 0 <= i < |log'| && log'[i].r.key == k && log'[i].at + 600.0 == nonces[k] {
      var i :| 0 <= i < |log| && log[i].r.key == k && log[i].at + 600.0 == nonces[k];
      assert log'[i] == log[i];
    }
    assert log'[|log|] == a;
  }

  lemma StepMeans(s: State, step: Step)
    requires NonceMeans(s.nonces, s.log)
    ensures var s' := Next(s, step); NonceMeans(s'.nonces, s'.log)
  {
    hide Recent, Minute, Timely, NonceMeans;
    assert NonceMeans(Fresh(s.nonces, s.now), s.log) by { FreshMeans(s.nonces, s.log, s.now); }
    if step.Commit? && step.p in s.pending {
      NonceMeansMore(Fresh(s.nonces, s.now), s.log, Accepted(s.pending[step.p].r, s.pending[step.p].checked, s.now));
    }
  }

  lemma FreshMeans(nonces: map<Key, real>, log: seq<Accepted>, now: real)
    requires NonceMeans(nonces, log)
    ensures NonceMeans(Fresh(nonces, now), log)
  {
  }

  lemma {:induction false} RunMeans(s: State, steps: seq<Step>)
    requires NonceMeans(s.nonces, s.log) && NonceInv(s.nonces, s.log, s.now)
    ensures var s' := Run(s, steps); NonceMeans(s'.nonces, s'.log) && NonceInv(s'.nonces, s'.log, s'.now)
    decreases |steps|
  {
    hide NonceMeans, NonceInv, Next;
    if steps != [] {
      StepMeans(s, steps[0]);
      StepNonces(s, steps[0]);
      RunMeans(Next(s, steps[0]), steps[1..]);
    }
  }

  /** In every run: a request passes the check exactly if its timestamp is within 60 whole seconds of the
      clock and its nonce has 16 to 128 characters. */
  lemma CheckedExactly(s: State, p: nat, r: Request)
    requires p !in s.pending
    ensures p in Next(s, Check(p, r)).pending <==>
              s.now.Floor - 60 <= r.timestamp <= s.now.Floor + 60 && 16 <= r.nonceLength <= 128
  {
  }

  /** In every run: a checked request is accepted exactly if its organization is active, its nonce was
      not accepted in the last 600 seconds, and the device had none accepted in this minute, or fewer
      than the limit. */
  lemma AcceptedExactly(s0: State, steps: seq<Step>, p: nat, limit: Option<nat>)
    requires Init(s0) && p in Run(s0, steps).pending
    ensures var s := Run(s0, steps);
            var r := s.pending[p].r;
            var log' := Next(s, Commit(p, limit)).log;
            var count := Count(s.log, (r.device, Minute(s.now)));
            && (log' == s.log || log' == s.log + [Accepted(r, s.pending[p].checked, s.now)])
            && (log' != s.log <==>
                  && limit.Some? && (count == 0 || count < limit.value)
                  && forall i :: 0 <= i < |s.log| && s.log[i].r.key == r.key ==> s.log[i].at + 600.0 < s.now)
  {
    var s := Run(s0, steps);
    hide Run;
    RunMeans(s0, steps);
    RatesKept(s0, steps);
    var r := s.pending[p].r;
    NonceKnown(s.nonces, s.log, s.now, r.key);
    WindowKnown(s.windows, s.log, s.top, s.now, r.device);
    hide Minute, Count, NonceMeans, NonceInv, RateInv, Fresh, Recent;
    assert s.log + [Accepted(r, s.pending[p].checked, s.now)] != s.log;
  }

  lemma NonceKnown(nonces: map<Key, real>, log: seq<Accepted>, now: real, key: Key)
    requires NonceMeans(nonces, log) && NonceInv(nonces, log, now)
    ensures key !in Fresh(nonces, now) <==>
              forall i :: 0 <= i < |log| && log[i].r.key == key ==> log[i].at + 600.0 < now
  {
  }

  lemma WindowKnown(windows: map<Window, nat>, log: seq<Accepted>, top: map<Window, nat>, now: real, device: DeviceId)
    requires RateInv(windows, log, top, now)
    ensures var w := (device, Minute(now));
            && (w in Recent(windows, now) ==> 1 <= Recent(windows, now)[w] == Count(log, w))
            && (w !in Recent(windows, now) ==> Count(log, w) == 0)
  {
    MinuteBounds(now);
    hide Minute, Count;
  }

  // ---------------------------------------------------------------- the store

  class DeviceRequests {
    var nonces: map<Key, real>
    var windows: map<Window, nat>

    ghost function View(): Tables
      reads this
    {
      Tables(nonces, windows)
    }

    /** The check and the transaction of one request; `checked` and `now` are when they happen. */
    method ConsumeDeviceNonce(r: Request, limit: Option<nat>, checked: real, now: real) returns (verdict: Verdict)
      requires checked <= now
      modifies this
      ensures verdict ==
              if Timely(checked, r.timestamp) && WellFormed(r) then VerdictOf(old(View()), r, limit, now)
              else ReplayRejected
      ensures View() == if verdict == Ok then AfterCommit(old(View()), r, limit, now) else old(View())
    {
      if checked.Floor - r.timestamp > WINDOW || checked.Floor - r.timestamp < -WINDOW || r.nonceLength < 16
        || r.nonceLength > 128 {
        return ReplayRejected;
      }
      var freshNonces := map k | k in nonces && nonces[k] >= now :: nonces[k];
      var recentWindows := map w | w in windows && (60 * w.1) as real >= now - 600.0 :: windows[w];
      if r.key in freshNonces { return ReplayRejected; }
      if limit.None? { return OrganizationInactive; }
      var w := (r.device, Minute(now));
      if w in recentWindows {
        if recentWindows[w] >= limit.value { return RateLimited; }
        recentWindows := recentWindows[w := recentWindows[w] + 1];
      } else {
        recentWindows := recentWindows[w := 1];
      }
      nonces := freshNonces[r.key := now + NONCE_SECONDS];
      windows := recentWindows;
      verdict := Ok;
    }
  }
}
