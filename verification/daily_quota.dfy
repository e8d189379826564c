/** The daily limits of a site and its organization. Completions of one organization count and
    insert under an advisory lock named by a date. The name is made from the clock before the
    transaction begins; the rows are counted and dated by the day the transaction began. The
    limits hold exactly as long as, wherever there is room left, the two days agree. */
module DailyQuota {
  import opened Basics
  import opened UploadTables

  type ProcId = nat

  /** A completion about to commit: the date in its lock's name, then also the day its transaction began. */
  datatype Completer =
    | Named(site: SiteId, lock: nat)
    | Begun(site: SiteId, lock: nat, day: nat)
    | Locked(site: SiteId, lock: nat, day: nat)
    | Counted(site: SiteId, lock: nat, day: nat, verdict: DayVerdict)

  /** A committed receipt of the organization. */
  datatype Row = Row(site: SiteId, day: nat)

  datatype Limits = Limits(site: map<SiteId, nat>, organization: nat)

  /** What has happened, for the statements only: the largest limit in force at any count that found
      room, by site and day and by day. */
  datatype Tops = Tops(site: map<(SiteId, nat), nat>, organization: map<nat, nat>)

  datatype State = State(now: nat, limits: Limits, rows: seq<Row>, completers: map<ProcId, Completer>, tops: Tops)

  datatype Step =
    | Name(p: ProcId, site: SiteId)
    | Begin(p: ProcId)
    | Lock(p: ProcId)
    | Count(p: ProcId)
    | Commit(p: ProcId)
    | Abort(p: ProcId)
    | SetLimits(limits: Limits)
    | Tick(seconds: nat)

  predicate Holds(c: Completer, lock: nat) { (c.Locked? || c.Counted?) && c.lock == lock }

  ghost predicate Free(completers: map<ProcId, Completer>, lock: nat) {
    forall p :: p in completers ==> !Holds(completers[p], lock)
  }

  /** SELECT COUNT(*) … WHERE created_at >= CURRENT_DATE. */
  function Since(rows: seq<Row>, day: nat): nat {
    if rows == [] then 0 else Since(rows[..|rows| - 1], day) + if rows[|rows| - 1].day >= day then 1 else 0
  }

  function SiteSince(rows: seq<Row>, site: SiteId, day: nat): nat {
    if rows == [] then 0
    else SiteSince(rows[..|rows| - 1], site, day) +
         if rows[|rows| - 1].site == site && rows[|rows| - 1].day >= day then 1 else 0
  }

  function VerdictOf(rows: seq<Row>, limits: Limits, site: SiteId, day: nat): DayVerdict {
    if site in limits.site && SiteSince(rows, site, day) >= limits.site[site] then SiteFull
    else if Since(rows, day) >= limits.organization then OrganizationFull
    else Within
  }

  function TopOf(tops: Tops, day: nat): nat { if day in tops.organization then tops.organization[day] else 0 }

  function SiteTopOf(tops: Tops, site: SiteId, day: nat): nat {
    if (site, day) in tops.site then tops.site[(site, day)] else 0
  }

  function Raised(tops: Tops, limits: Limits, site: SiteId, day: nat): Tops
    requires site in limits.site
  {
    Tops(tops.site[(site, day) := Max(SiteTopOf(tops, site, day), limits.site[site])],
         tops.organization[day := Max(TopOf(tops, day), limits.organization)])
  }

  /** Limits may change at any time, but sites do not vanish. */
  predicate Possible(s: State, limits: Limits) { s.limits.site.Keys <= limits.site.Keys }

  ghost function Next(s: State, step: Step): State {
    match step
    case Name(p, site) =>
      if p !in s.completers && site in s.limits.site then s.(completers := s.completers[p := Named(site, s.now / DAY)])
      else s
    case Tick(seconds) => s.(now := s.now + seconds)
    case SetLimits(limits) => if Possible(s, limits) then s.(limits := limits) else s
    case Abort(p) => s.(completers := s.completers - {p})
    case _ => if step.p in s.completers then Continue(s, step, s.completers[step.p]) else s
  }

  ghost function Continue(s: State, step: Step, c: Completer): State
    requires !step.Tick? && !step.SetLimits?
  {
    var p := step.p;
    match (step, c)
    case (Begin(_), Named(site, lock)) => s.(completers := s.completers[p := Begun(site, lock, s.now / DAY)])
    case (Lock(_), Begun(site, lock, day)) =>
      if Free(s.completers, lock) then s.(completers := s.completers[p := Locked(site, lock, day)]) else s
    case (Count(_), Locked(site, lock, day)) => AfterCount(s, p, site, lock, day)
    case (Commit(_), Counted(site, _, day, verdict)) =>
      s.(completers := s.completers - {p}, rows := if verdict == Within then s.rows + [Row(site, day)] else s.rows)
    case _ => s
  }

  ghost function AfterCount(s: State, p: ProcId, site: SiteId, lock: nat, day: nat): State {
    var verdict := VerdictOf(s.rows, s.limits, site, day);
    s.(completers := s.completers[p := Counted(site, lock, day, verdict)],
       tops := if verdict == Within && site in s.limits.site then Raised(s.tops, s.limits, site, day) else s.tops)
  }

  ghost function Run(s: State, steps: seq<Step>): State
    decreases |steps|
  {
    if steps == [] then s else Run(Next(s, steps[0]), steps[1..])
  }

  ghost predicate Init(s: State) { s.rows == [] && s.completers == map[] && s.tops == Tops(map[], map[]) }

  // ---------------------------------------------------------------- what the limits promise

  function OnDay(rows: seq<Row>, day: nat): nat {
    if rows == [] then 0 else OnDay(rows[..|rows| - 1], day) + if rows[|rows| - 1].day == day then 1 else 0
  }

  function SiteOnDay(rows: seq<Row>, site: SiteId, day: nat): nat {
    if rows == [] then 0
    else SiteOnDay(rows[..|rows| - 1], site, day) + if rows[|rows| - 1] == Row(site, day) then 1 else 0
  }

  /** On no day does a site or the organization have more receipts than the largest limit in force at a
      count of that day that found room. */
  ghost predicate Kept(tops: Tops, rows: seq<Row>) {
    && (forall day: nat :: OnDay(rows, day) <= TopOf(tops, day))
    && (forall site, day: nat :: SiteOnDay(rows, site, day) <= SiteTopOf(tops, site, day))
  }

  lemma {:induction false} DayIsSince(rows: seq<Row>, site: SiteId, day: nat)
    ensures OnDay(rows, day) <= Since(rows, day) && SiteOnDay(rows, site, day) <= SiteSince(rows, site, day)
  {
    if rows != [] { DayIsSince(rows[..|rows| - 1], site, day); }
  }

  lemma OneMore(rows: seq<Row>, row: Row, site: SiteId, day: nat)
    ensures OnDay(rows + [row], day) == OnDay(rows, day) + if row.day == day then 1 else 0
    ensures SiteOnDay(rows + [row], site, day) == SiteOnDay(rows, site, day) + if row == Row(site, day) then 1 else 0
    ensures Since(rows + [row], day) == Since(rows, day) + if row.day >= day then 1 else 0
    ensures SiteSince(rows + [row], site, day) == SiteSince(rows, site, day) +
            if row.site == site && row.day >= day then 1 else 0
  {
    assert (rows + [row])[..|rows|] == rows;
  }

  // ---------------------------------------------------------------- kept when the days agree

  /** Nothing is dated after today. */
  ghost predicate NoFuture(s: State) {
    && (forall row :: row in s.rows ==> row.day <= s.now / DAY)
    && forall p :: p in s.completers && !s.completers[p].Named? ==> s.completers[p].day <= s.now / DAY
  }

  /** A transaction that began under the lock of another day and has still to count. */
  predicate Astray(c: Completer) { (c.Begun? || c.Locked?) && c.lock != c.day }

  /** A transaction begins on the day its lock is named after, or on a day that has no room left; and no
      change of limits gives room to one that went astray. */
  ghost predicate Aligned(s: State, step: Step) {
    && (step.Begin? && step.p in s.completers && s.completers[step.p].Named? ==>
          || s.completers[step.p].lock == s.now / DAY
          || VerdictOf(s.rows, s.limits, s.completers[step.p].site, s.now / DAY) != Within)
    && (step.SetLimits? && Possible(s, step.limits) ==>
          forall p :: p in s.completers && Astray(s.completers[p]) ==>
            VerdictOf(s.rows, step.limits, s.completers[p].site, s.completers[p].day) != Within)
  }

  ghost predicate AlignedRun(s: State, steps: seq<Step>)
    decreases |steps|
  {
    steps != [] ==> Aligned(s, steps[0]) && AlignedRun(Next(s, steps[0]), steps[1..])
  }

  /** What a completer counted is still so for its own day: there is room for its receipt. */
  ghost predicate Room(tops: Tops, rows: seq<Row>, c: Completer) {
    c.Counted? && c.verdict == Within ==>
      OnDay(rows, c.day) < TopOf(tops, c.day) && SiteOnDay(rows, c.site, c.day) < SiteTopOf(tops, c.site, c.day)
  }

  /** A completer under the lock of another day finds no room, or found none. */
  ghost predicate Harmless(limits: Limits, rows: seq<Row>, c: Completer) {
    && (Astray(c) ==> VerdictOf(rows, limits, c.site, c.day) != Within)
    && (c.Counted? && c.lock != c.day ==> c.verdict != Within)
  }

  /** A lock has at most one holder. */
  ghost predicate OneHolder(completers: map<ProcId, Completer>) {
    forall p, q :: p in completers && q in completers && p != q && Holds(completers[p], completers[p].lock) ==>
      !Holds(completers[q], completers[p].lock)
  }

  ghost predicate QuotaInv(s: State) {
    && Kept(s.tops, s.rows) && NoFuture(s)
    && (forall p :: p in s.completers ==> s.completers[p].site in s.limits.site)
    && (forall p :: p in s.completers ==>
      Harmless(s.limits, s.rows, s.completers[p]) && Room(s.tops, s.rows, s.completers[p]))
    && OneHolder(s.completers)
  }

  lemma RaisedMore(tops: Tops, limits: Limits, site: SiteId, day: nat)
    requires site in limits.site
    ensures var tops' := Raised(tops, limits, site, day);
            && (forall d: nat :: TopOf(tops, d) <= TopOf(tops', d))
            && (forall x, d: nat :: SiteTopOf(tops, x, d) <= SiteTopOf(tops', x, d))
            && limits.organization <= TopOf(tops', day) && limits.site[site] <= SiteTopOf(tops', site, day)
  {
  }

  lemma CountRoom(s: State, step: Step)
    requires QuotaInv(s) && step.Count?
    ensures QuotaInv(Next(s, step))
  {
    if step.p in s.completers && s.completers[step.p].Locked? {
      var c := s.completers[step.p];
      DayIsSince(s.rows, c.site, c.day);
      RaisedMore(s.tops, s.limits, c.site, c.day);
    }
    hide OnDay, SiteOnDay, Since, SiteSince, Raised, TopOf, SiteTopOf;
  }

  lemma KeptMore(tops: Tops, rows: seq<Row>, row: Row)
    requires Kept(tops, rows) && OnDay(rows, row.day) < TopOf(tops, row.day)
    requires SiteOnDay(rows, row.site, row.day) < SiteTopOf(tops, row.site, row.day)
    ensures Kept(tops, rows + [row])
  {
    forall day: nat ensures OnDay(rows + [row], day) <= TopOf(tops, day) { OneMore(rows, row, 0, day); }
    forall site, day: nat ensures SiteOnDay(rows + [row], site, day) <= SiteTopOf(tops, site, day) {
      OneMore(rows, row, site, day);
    }
  }

  /** A full day stays full. */
  lemma StillFull(limits: Limits, rows: seq<Row>, row: Row, site: SiteId, day: nat)
    requires VerdictOf(rows, limits, site, day) != Within
    ensures VerdictOf(rows + [row], limits, site, day) != Within
  {
    OneMore(rows, row, site, day);
  }

  /** A receipt of another completer leaves `c` as harmless as it was, and leaves it its room. */
  lemma OthersKept(limits: Limits, tops: Tops, rows: seq<Row>, row: Row, c: Completer)
    requires Room(tops, rows, c) && Harmless(limits, rows, c)
             && (c.Counted? && c.verdict == Within ==> c.day != row.day)
    ensures Room(tops, rows + [row], c) && Harmless(limits, rows + [row], c)
  {
    if c.Counted? { OneMore(rows, row, c.site, c.day); }
    if Astray(c) { StillFull(limits, rows, row, c.site, c.day); }
  }

  lemma CommitKeeps(s: State, step: Step)
    requires QuotaInv(s) && step.Commit?
    ensures QuotaInv(Next(s, step))
  {
    hide Kept, OnDay, SiteOnDay, Since, SiteSince, VerdictOf, TopOf, SiteTopOf;
    var s' := Next(s, step);
    if step.p in s.completers && s.completers[step.p].Counted? && s.completers[step.p].verdict == Within {
      var c := s.completers[step.p];
      var row := Row(c.site, c.day);
      assert Room(s.tops, s.rows, c) && Harmless(s.limits, s.rows, c);
      forall p | p in s'.completers
        ensures Harmless(s.limits, s'.rows, s'.completers[p]) && Room(s.tops, s'.rows, s'.completers[p])
      {
        assert Holds(c, c.lock) && !Holds(s.completers[p], c.lock) && Harmless(s.limits, s.rows, s.completers[p]);
        OthersKept(s.limits, s.tops, s.rows, row, s.completers[p]);
      }
      KeptMore(s.tops, s.rows, row);
    }
  }

  lemma StepKeeps(s: State, step: Step)
    requires QuotaInv(s) && Aligned(s, step)
    ensures QuotaInv(Next(s, step))
  {
    if step.Count? { CountRoom(s, step); } else if step.Commit? { CommitKeeps(s, step); }
    hide Kept, OnDay, SiteOnDay, Since, SiteSince, VerdictOf, TopOf, SiteTopOf;
  }

  lemma {:induction false} AlignedKeeps(s: State, steps: seq<Step>)
    requires QuotaInv(s) && AlignedRun(s, steps)
    ensures QuotaInv(Run(s, steps))
    decreases |steps|
  {
    hide QuotaInv, Next, Aligned;
    if steps != [] {
      StepKeeps(s, steps[0]);
      AlignedKeeps(Next(s, steps[0]), steps[1..]);
    }
  }

  /** However many completions race and however limits change: on every day the counts of each site and
      of the organization stay within the largest limit in force at a count of that day, in every aligned run. */
  lemma LimitsKept(s0: State, steps: seq<Step>)
    requires Init(s0) && AlignedRun(s0, steps)
    ensures Kept(Run(s0, steps).tops, Run(s0, steps).rows)
  {
    hide Run, AlignedRun;
    AlignedKeeps(s0, steps);
  }

  /** While limits stay as they are, no count ever refers to a larger one. */
  ghost predicate TopsWithin(s: State, limits: Limits) {
    && s.limits == limits && (forall day: nat :: TopOf(s.tops, day) <= limits.organization)
    && (forall site, day: nat :: site in limits.site ==> SiteTopOf(s.tops, site, day) <= limits.site[site])
  }

  lemma FixedStep(s: State, step: Step, limits: Limits)
    requires TopsWithin(s, limits) && !step.SetLimits?
    ensures TopsWithin(Next(s, step), limits)
  {
    hide VerdictOf, Raised, TopOf, SiteTopOf;
    if step.Count? && step.p in s.completers && s.completers[step.p].Locked?
      && s.completers[step.p].site in limits.site {
      RaisedWithin(s.tops, limits, s.completers[step.p].site, s.completers[step.p].day);
    }
  }

  lemma RaisedWithin(tops: Tops, limits: Limits, site: SiteId, day: nat)
    requires site in limits.site
    ensures var tops' := Raised(tops, limits, site, day);
            && (forall d: nat :: TopOf(tops', d) <= Max(TopOf(tops, d), limits.organization))
            && (forall x, d: nat :: x in limits.site ==>
              SiteTopOf(tops', x, d) <= Max(SiteTopOf(tops, x, d), limits.site[x]))
  {
  }

  lemma {:induction false} FixedKeeps(s: State, steps: seq<Step>, limits: Limits)
    requires TopsWithin(s, limits) && forall step :: step in steps ==> !step.SetLimits?
    ensures TopsWithin(Run(s, steps), limits)
    decreases |steps|
  {
    hide TopsWithin, Next;
    if steps != [] {
      assert steps[0] in steps;
      FixedStep(s, steps[0], limits);
      FixedKeeps(Next(s, steps[0]), steps[1..], limits);
    }
  }

  /** In particular limits that never change are kept. */
  lemma FixedLimitsKept(s0: State, steps: seq<Step>, site: SiteId, day: nat)
    requires Init(s0) && AlignedRun(s0, steps) && site in s0.limits.site
             && forall step :: step in steps ==> !step.SetLimits?
    ensures OnDay(Run(s0, steps).rows, day) <= s0.limits.organization
    ensures SiteOnDay(Run(s0, steps).rows, site, day) <= s0.limits.site[site]
  {
    hide Run, AlignedRun;
    LimitsKept(s0, steps);
    FixedKeeps(s0, steps, s0.limits);
  }

  // ---------------------------------------------------------------- and only then

  lemma RunCons(s: State, a: Step, rest: seq<Step>)
    ensures Run(s, [a] + rest) == Run(Next(s, a), rest)
    ensures AlignedRun(s, [a] + rest) <==> Aligned(s, a) && AlignedRun(Next(s, a), rest)
  {
    hide Next, Aligned;
    assert ([a] + rest)[1..] == rest;
  }

  lemma {:induction false} RunAppend(s: State, a: seq<Step>, b: seq<Step>)
    ensures Run(s, a + b) == Run(Run(s, a), b)
    ensures AlignedRun(s, a + b) <==> AlignedRun(s, a) && AlignedRun(Run(s, a), b)
    decreases |a|
  {
    hide Next, Aligned;
    if a == [] {
      assert a + b == b;
    } else {
      assert (a + b)[1..] == a[1..] + b;
      RunAppend(Next(s, a[0]), a[1..], b);
    }
  }

  /** Everybody but `p` gives up. */
  lemma {:induction false} Alone(s: State, p: ProcId) returns (steps: seq<Step>)
    requires p in s.completers
    ensures AlignedRun(s, steps) && Run(s, steps) == s.(completers := map[p := s.completers[p]])
    decreases |s.completers|
  {
    if q :| q in s.completers && q != p {
      var rest := Alone(Next(s, Abort(q)), p);
      RunCons(s, Abort(q), rest);
      steps := [Abort(q)] + rest;
    } else {
      steps := [];
      assert s.completers == map[p := s.completers[p]];
    }
  }

  ghost function One(q: ProcId, site: SiteId, rest: seq<Step>): seq<Step> {
    [Name(q, site)] + ([Begin(q)] + ([Lock(q)] + ([Count(q)] + ([Commit(q)] + rest))))
  }

  ghost function WithRow(s: State, site: SiteId): State
    requires site in s.limits.site
  {
    s.(rows := s.rows + [Row(site, s.now / DAY)], tops := Raised(s.tops, s.limits, site, s.now / DAY))
  }

  /** One completion, while there is room, beside one that holds another lock. */
  lemma OneFills(s: State, q: ProcId, site: SiteId, rest: seq<Step>)
    requires q !in s.completers && site in s.limits.site && Free(s.completers, s.now / DAY)
    requires VerdictOf(s.rows, s.limits, site, s.now / DAY) == Within
    ensures Run(s, One(q, site, rest)) == Run(WithRow(s, site), rest)
    ensures AlignedRun(s, One(q, site, rest)) <==> AlignedRun(WithRow(s, site), rest)
  {
    hide VerdictOf, Raised;
    var day := s.now / DAY;
    var s1 := Next(s, Name(q, site));
    var s2 := Next(s1, Begin(q));
    var s3 := Next(s2, Lock(q));
    assert s3.completers[q] == Locked(site, day, day);
    var s4 := Next(s3, Count(q));
    assert s4.completers[q] == Counted(site, day, day, Within);
    var s5 := Next(s4, Commit(q));
    assert s5.completers == s.completers;
    RunCons(s, Name(q, site), [Begin(q)] + ([Lock(q)] + ([Count(q)] + ([Commit(q)] + rest))));
    RunCons(s1, Begin(q), [Lock(q)] + ([Count(q)] + ([Commit(q)] + rest)));
    RunCons(s2, Lock(q), [Count(q)] + ([Commit(q)] + rest));
    RunCons(s3, Count(q), [Commit(q)] + rest);
    RunCons(s4, Commit(q), rest);
  }

  /** The room left on a day. */
  ghost function Left(limits: Limits, rows: seq<Row>, site: SiteId, day: nat): int
    requires site in limits.site
  {
    Min(limits.site[site] - SiteSince(rows, site, day), limits.organization - Since(rows, day))
  }

  lemma LeftIsVerdict(limits: Limits, rows: seq<Row>, site: SiteId, day: nat)
    requires site in limits.site
    ensures Left(limits, rows, site, day) > 0 <==> VerdictOf(rows, limits, site, day) == Within
  {
  }

  /** With nothing dated later, the counts since a day are those of the day. */
  lemma {:induction false} SinceIsDay(rows: seq<Row>, site: SiteId, day: nat)
    requires forall row :: row in rows ==> row.day <= day
    ensures Since(rows, day) == OnDay(rows, day) && SiteSince(rows, site, day) == SiteOnDay(rows, site, day)
  {
    if rows != [] {
      assert rows[|rows| - 1] in rows;
      SinceIsDay(rows[..|rows| - 1], site, day);
    }
  }

  /** The limits in force are at least those of every earlier count of the day. */
  ghost predicate TopLimits(s: State, site: SiteId) {
    && site in s.limits.site && TopOf(s.tops, s.now / DAY) <= s.limits.organization
    && SiteTopOf(s.tops, site, s.now / DAY) <= s.limits.site[site]
  }

  /** Once the day is full, the straddler that counted before commits past a limit. */
  lemma StraddlerCommits(s: State, p: ProcId, site: SiteId, lock: nat)
    requires p in s.completers && s.completers[p] == Counted(site, lock, s.now / DAY, Within) && TopLimits(s, site)
    requires (forall row :: row in s.rows ==> row.day <= s.now / DAY)
    requires VerdictOf(s.rows, s.limits, site, s.now / DAY) != Within
    ensures var s' := Run(s, [Commit(p)] + []); !Kept(s'.tops, s'.rows)
    ensures AlignedRun(s, [Commit(p)] + [])
  {
    var day := s.now / DAY;
    RunCons(s, Commit(p), []);
    SinceIsDay(s.rows, site, day);
    OneMore(s.rows, Row(site, day), site, day);
    hide OnDay, SiteOnDay, Since, SiteSince, TopOf, SiteTopOf;
    var rows' := s.rows + [Row(site, day)];
    assert OnDay(rows', day) > TopOf(s.tops, day) || SiteOnDay(rows', site, day) > SiteTopOf(s.tops, site, day);
  }

  /** Others fill the day beside a straddler that has counted, and then it commits. */
  lemma {:induction false} FillsAndCommits(s: State, p: ProcId, site: SiteId, lock: nat) returns (steps: seq<Step>)
    requires s.completers == map[p := Counted(site, lock, s.now / DAY, Within)] && lock != s.now / DAY
             && TopLimits(s, site)
    requires forall row :: row in s.rows ==> row.day <= s.now / DAY
    ensures var s' := Run(s, steps); AlignedRun(s, steps) && !Kept(s'.tops, s'.rows)
    decreases Left(s.limits, s.rows, site, s.now / DAY)
  {
    var day := s.now / DAY;
    LeftIsVerdict(s.limits, s.rows, site, day);
    if VerdictOf(s.rows, s.limits, site, day) == Within {
      OneMore(s.rows, Row(site, day), site, day);
      hide Next, Kept, VerdictOf;
      var rest := FillsAndCommits(WithRow(s, site), p, site, lock);
      OneFills(s, p + 1, site, rest);
      steps := One(p + 1, site, rest);
    } else {
      hide Next, Kept, VerdictOf;
      StraddlerCommits(s, p, site, lock);
      steps := [Commit(p)] + [];
    }
  }

  /** The straddler, alone, takes its lock unless it has it, and counts. */
  lemma StraddlerCounts(s: State, p: ProcId) returns (steps: seq<Step>)
    requires p in s.completers && s.completers == map[p := s.completers[p]] && Astray(s.completers[p])
    requires s.completers[p].site in s.limits.site
    requires VerdictOf(s.rows, s.limits, s.completers[p].site, s.completers[p].day) == Within
    ensures var c := s.completers[p];
            && AlignedRun(s, steps)
            && Run(s, steps) == s.(completers := map[p := Counted(c.site, c.lock, c.day, Within)],
                                   tops := Raised(s.tops, s.limits, c.site, c.day))
  {
    hide VerdictOf, Raised;
    var c := s.completers[p];
    var locked := s.(completers := map[p := Locked(c.site, c.lock, c.day)]);
    RunCons(locked, Count(p), []);
    assert Next(locked, Count(p)).completers == map[p := Counted(c.site, c.lock, c.day, Within)];
    steps := [Count(p)] + [];
    if c.Begun? {
      assert Next(s, Lock(p)).completers == locked.completers;
      RunCons(s, Lock(p), steps);
      steps := [Lock(p)] + steps;
    }
  }

  /** A run without further disorder leads past every limit there was. */
  ghost predicate CanExceed(s: State) {
    exists steps: seq<Step> :: AlignedRun(s, steps) && !Kept(Run(s, steps).tops, Run(s, steps).rows)
  }

  /** One transaction begun today under the lock of another day, with room: everybody else gives up, it
      counts, limits are raised to the largest there were, others fill the day, and it commits. */
  lemma Straddles(s: State, p: ProcId) returns (steps: seq<Step>)
    requires p in s.completers && Astray(s.completers[p]) && s.completers[p].day == s.now / DAY
    requires s.completers[p].site in s.limits.site && forall row :: row in s.rows ==> row.day <= s.now / DAY
    requires VerdictOf(s.rows, s.limits, s.completers[p].site, s.now / DAY) == Within
    ensures var s' := Run(s, steps); AlignedRun(s, steps) && !Kept(s'.tops, s'.rows)
  {
    var c, day := s.completers[p], s.now / DAY;
    var leaving := Alone(s, p);
    var s1 := s.(completers := map[p := c]);
    var counting := StraddlerCounts(s1, p);
    var s2 := Run(s1, counting);
    var high := Limits(s.limits.site[c.site := Max(s.limits.site[c.site], SiteTopOf(s2.tops, c.site, day))],
                       Max(s.limits.organization, TopOf(s2.tops, day)));
    var s3 := Next(s2, SetLimits(high));
    assert s3 == s2.(limits := high) && Aligned(s2, SetLimits(high));
    var filling := FillsAndCommits(s3, p, c.site, c.lock);
    hide Next, Run, AlignedRun, Kept, Aligned;
    RunCons(s2, SetLimits(high), filling);
    RunAppend(s1, counting, [SetLimits(high)] + filling);
    RunAppend(s, leaving, counting + ([SetLimits(high)] + filling));
    steps := leaving + (counting + ([SetLimits(high)] + filling));
  }

  /** A transaction begins. It can lead past every limit there was, with no other disorder, exactly if its
      lock is named after another day and there is room left on the day it begins. */
  lemma StraddleExactly(s: State, p: ProcId)
    requires QuotaInv(s) && p in s.completers && s.completers[p].Named?
    ensures CanExceed(Next(s, Begin(p))) <==>
            s.completers[p].lock != s.now / DAY
              && VerdictOf(s.rows, s.limits, s.completers[p].site, s.now / DAY) == Within
  {
    var s' := Next(s, Begin(p));
    if Aligned(s, Begin(p)) {
      hide Next, Run, AlignedRun, VerdictOf;
      StepKeeps(s, Begin(p));
      forall steps: seq<Step> | AlignedRun(s', steps) ensures Kept(Run(s', steps).tops, Run(s', steps).rows) {
        AlignedKeeps(s', steps);
      }
    } else {
      var steps := Straddles(s', p);
    }
  }

  /** Limits that give room to a transaction of today under the lock of another day lead past them, too. */
  lemma RaiseExceeds(s: State, p: ProcId, limits: Limits)
    requires QuotaInv(s) && Possible(s, limits) && p in s.completers && Astray(s.completers[p])
    requires s.completers[p].day == s.now / DAY
             && VerdictOf(s.rows, limits, s.completers[p].site, s.now / DAY) == Within
    ensures CanExceed(Next(s, SetLimits(limits)))
  {
    var steps := Straddles(Next(s, SetLimits(limits)), p);
  }

  ghost function Midnight(limits: Limits): State { State(DAY - 1, limits, [], map[], Tops(map[], map[])) }

  /** For all limits of at least one there is such a beginning: a lock named in the last second of a day. */
  lemma StraddleExceeds(limits: Limits, site: SiteId)
    requires site in limits.site && limits.site[site] >= 1 && limits.organization >= 1
    ensures var steps := [Name(0, site)] + ([Tick(1)] + []);
            && Init(Midnight(limits)) && AlignedRun(Midnight(limits), steps)
            && CanExceed(Next(Run(Midnight(limits), steps), Begin(0)))
  {
    var s0 := Midnight(limits);
    var s1 := Next(s0, Name(0, site));
    var s2 := Next(s1, Tick(1));
    assert s2.completers == map[0 := Named(site, 0)];
    RunCons(s0, Name(0, site), [Tick(1)] + []);
    RunCons(s1, Tick(1), []);
    hide CanExceed;
    AlignedKeeps(s0, [Name(0, site)] + ([Tick(1)] + []));
    StraddleExactly(s2, 0);
  }

  // ---------------------------------------------------------------- who is admitted

  /** A transaction that counts on the day it began is admitted exactly if its site and its organization
      have each fewer receipts of that day than their limits; the site is named first. */
  lemma RoomExactly(s: State, p: ProcId)
    requires p in s.completers && s.completers[p].Locked? && s.completers[p].site in s.limits.site
    requires forall row :: row in s.rows ==> row.day <= s.completers[p].day
    ensures var c := s.completers[p];
            var site, day := SiteOnDay(s.rows, c.site, c.day), OnDay(s.rows, c.day);
            Next(s, Count(p)).completers[p] ==
              Counted(c.site, c.lock, c.day,
                      if site >= s.limits.site[c.site] then SiteFull
                      else if day >= s.limits.organization then OrganizationFull else Within)
  {
    SinceIsDay(s.rows, s.completers[p].site, s.completers[p].day);
  }
}
