/** Reviewer login: lockout after failures, one-time recovery codes and one session per user. Each
    attempt carries the time its request was received at, which need not follow the order in which
    attempts get the lock of the credential row. Whether the password, the TOTP and the stored
    secret are good is decided outside. */
module LocalAuth {
  import opened Basics

  const MAX_FAILED_ATTEMPTS: nat := 5
  const LOCKOUT_SECONDS: nat := 900

  type UserId = nat
  type CodeHash = string
  type Token = string

  datatype Credential = Credential(failed: nat, lockedUntil: Option<int>, recovery: seq<CodeHash>)

  datatype Session = Session(user: UserId, expires: int)

  datatype Tables = Tables(credentials: map<UserId, Credential>, sessions: map<Token, Session>)

  /** What was supplied as second factor: a TOTP of the moment, or anything else, by its hash. */
  datatype Factor = Totp | Supplied(hash: CodeHash)

  datatype Attempt = Attempt(now: int, passwordValid: bool, secretReadable: bool, factor: Factor)

  datatype Outcome = Unknown | Locked | SecretInvalid | Failed | TokenTaken | Succeeded(recoveryUsed: bool)

  // ---------------------------------------------------------------- one attempt on one credential

  function Without(codes: seq<CodeHash>, code: CodeHash): (left: seq<CodeHash>)
    ensures forall c :: c in left <==> c in codes && c != code
  {
    if codes == [] then []
    else (if codes[0] == code then [] else [codes[0]]) + Without(codes[1..], code)
  }

  /** A TOTP is tried first; only otherwise is a recovery code looked for, and then it is used up. */
  function VerifySecondFactor(factor: Factor, recovery: seq<CodeHash>): (r: (bool, seq<CodeHash>, bool))
    ensures r.0 <==> factor == Totp || factor.hash in recovery
    ensures r.2 ==> r.0 && factor.Supplied? && factor.hash !in r.1
    ensures !r.2 ==> r.1 == recovery
    ensures forall code :: code in recovery ==> code in r.1 || (r.2 && code == factor.hash)
  {
    if factor == Totp then (true, recovery, false)
    else if factor.hash in recovery then (true, Without(recovery, factor.hash), true)
    else (false, recovery, false)
  }

  function FactorValid(c: Credential, factor: Factor): bool { factor == Totp || factor.hash in c.recovery }

  function OutcomeOf(c: Credential, a: Attempt): Outcome {
    if c.lockedUntil.Some? && c.lockedUntil.value > a.now then Locked
    else if !a.secretReadable then SecretInvalid
    else if !a.passwordValid || !FactorValid(c, a.factor) then Failed
    else Succeeded(a.factor.Supplied?)
  }

  function After(c: Credential, a: Attempt): Credential {
    match OutcomeOf(c, a)
    case Failed =>
      c.(failed := c.failed + 1, lockedUntil :=
        if c.failed + 1 >= MAX_FAILED_ATTEMPTS then Some(a.now + LOCKOUT_SECONDS) else None)
    case Succeeded(recoveryUsed) =>
      Credential(0, None, if recoveryUsed then Without(c.recovery, a.factor.hash) else c.recovery)
    case _ => c
  }

  function AfterAll(c: Credential, attempts: seq<Attempt>): Credential
    decreases |attempts|
  {
    if attempts == [] then c else AfterAll(After(c, attempts[0]), attempts[1..])
  }

  // ---------------------------------------------------------------- the lockout bound

  /** How many of the attempts were evaluated and failed. */
  function Failures(c: Credential, attempts: seq<Attempt>): nat
    decreases |attempts|
  {
    if attempts == [] then 0
    else (if OutcomeOf(c, attempts[0]) == Failed then 1 else 0) + Failures(After(c, attempts[0]), attempts[1..])
  }

  predicate NoSuccess(c: Credential, attempts: seq<Attempt>)
    decreases |attempts|
  {
    attempts != [] ==> !OutcomeOf(c, attempts[0]).Succeeded? && NoSuccess(After(c, attempts[0]), attempts[1..])
  }

  predicate Begun(attempts: seq<Attempt>, start: int, seconds: nat) {
    forall a :: a in attempts ==> start <= a.now <= start + seconds
  }

  /** After the fifth failure each further one is 15 minutes after the one before. */
  predicate Spaced(c: Credential, start: int, seconds: nat) {
    c.failed >= MAX_FAILED_ATTEMPTS ==>
      && c.lockedUntil.Some?
      && start + LOCKOUT_SECONDS * (c.failed - MAX_FAILED_ATTEMPTS + 1) <= c.lockedUntil.value <=
        start + seconds + LOCKOUT_SECONDS
  }

  lemma {:induction false} FailuresSpaced(c: Credential, attempts: seq<Attempt>, start: int, seconds: nat)
    requires Spaced(c, start, seconds) && NoSuccess(c, attempts) && Begun(attempts, start, seconds)
    ensures var d := AfterAll(c, attempts); Spaced(d, start, seconds) && d.failed == c.failed + Failures(c, attempts)
    decreases |attempts|
  {
    if attempts != [] {
      assert attempts[0] in attempts;
      FailuresSpaced(After(c, attempts[0]), attempts[1..], start, seconds);
    }
  }

  /** Whatever the order in which attempts are served: of those begun within `seconds` of a
      success, with no success between, at most five and one more per 15 minutes are evaluated and fail. */
  lemma LockoutBound(c: Credential, attempts: seq<Attempt>, start: int, seconds: nat)
    requires c.failed == 0 && NoSuccess(c, attempts) && Begun(attempts, start, seconds)
    ensures Failures(c, attempts) <= MAX_FAILED_ATTEMPTS + seconds / LOCKOUT_SECONDS
  {
    FailuresSpaced(c, attempts, start, seconds);
  }

  /** The bound is reached: five failures at once, then one as each lock runs out. */
  function Patient(n: nat, now: int): seq<Attempt> {
    if n == 0 then [] else [Attempt(now, false, true, Totp)] + Patient(n - 1, now + LOCKOUT_SECONDS)
  }

  lemma {:induction false} PatientFails(c: Credential, n: nat, now: int)
    requires c.failed >= MAX_FAILED_ATTEMPTS - 1 && (c.lockedUntil.Some? ==> c.lockedUntil.value <= now)
    ensures Failures(c, Patient(n, now)) == n && NoSuccess(c, Patient(n, now))
    ensures n > 0 ==> Begun(Patient(n, now), now, (n - 1) * LOCKOUT_SECONDS)
    decreases n
  {
    if n > 0 {
      var a := Attempt(now, false, true, Totp);
      var rest := Patient(n - 1, now + LOCKOUT_SECONDS);
      assert ([a] + rest)[1..] == rest;
      PatientFails(After(c, a), n - 1, now + LOCKOUT_SECONDS);
    }
  }

  lemma {:induction false} BoundReached(k: nat)
    ensures var attempts :=
            [Attempt(0, false, true, Totp), Attempt(0, false, true, Totp), Attempt(0, false, true, Totp),
            Attempt(0, false, true, Totp)] + Patient(k + 1, 0);
            && Failures(Credential(0, None, []), attempts) == MAX_FAILED_ATTEMPTS + k
            && Begun(attempts, 0, k * LOCKOUT_SECONDS) && NoSuccess(Credential(0, None, []), attempts)
  {
    var a := Attempt(0, false, true, Totp);
    var rest := Patient(k + 1, 0);
    var c := Credential(0, None, []);
    PatientFails(c.(failed := 4), k + 1, 0);
    FailOnce(c.(failed := 3), a, rest);
    FailOnce(c.(failed := 2), a, [a] + rest);
    FailOnce(c.(failed := 1), a, [a] + ([a] + rest));
    FailOnce(c, a, [a] + ([a] + ([a] + rest)));
    assert [a, a, a, a] + rest == [a] + ([a] + ([a] + ([a] + rest)));
  }

  lemma FailOnce(c: Credential, a: Attempt, rest: seq<Attempt>)
    requires OutcomeOf(c, a) == Failed
    ensures Failures(c, [a] + rest) == 1 + Failures(After(c, a), rest)
    ensures NoSuccess(c, [a] + rest) == NoSuccess(After(c, a), rest)
  {
    assert ([a] + rest)[1..] == rest;
  }

  // ---------------------------------------------------------------- recovery codes

  /** The recovery codes that let an attempt in, in order. */
  function Used(c: Credential, attempts: seq<Attempt>): seq<CodeHash>
    decreases |attempts|
  {
    if attempts == [] then []
    else (if OutcomeOf(c, attempts[0]) == Succeeded(true) then [attempts[0].factor.hash] else [])
         + Used(After(c, attempts[0]), attempts[1..])
  }

  predicate Unique(codes: seq<CodeHash>) { forall i, j :: 0 <= i < j < |codes| ==> codes[i] != codes[j] }

  lemma {:induction false} WithoutOne(codes: seq<CodeHash>, code: CodeHash)
    requires Unique(codes)
    ensures Unique(Without(codes, code)) && |Without(codes, code)| == |codes| - (if code in codes then 1 else 0)
  {
    if codes != [] {
      WithoutOne(codes[1..], code);
      var left := Without(codes[1..], code);
      assert codes[0] !in codes[1..];
      assert forall j :: 0 <= j < |left| ==> left[j] in codes[1..];
    }
  }

  /** Each recovery code lets its user in at most once, and what is left and what was used are
      together the codes handed out. */
  lemma {:induction false} CodesOnce(c: Credential, attempts: seq<Attempt>)
    requires Unique(c.recovery)
    ensures var d := AfterAll(c, attempts);
            && Unique(Used(c, attempts)) && Unique(d.recovery)
            && |d.recovery| + |Used(c, attempts)| == |c.recovery|
            && forall code :: code in c.recovery <==> code in d.recovery || code in Used(c, attempts)
    ensures forall code :: code in Used(c, attempts) ==> code !in AfterAll(c, attempts).recovery
    decreases |attempts|
  {
    if attempts != [] {
      var a := attempts[0];
      if OutcomeOf(c, a) == Succeeded(true) { WithoutOne(c.recovery, a.factor.hash); }
      CodesOnce(After(c, a), attempts[1..]);
    }
  }

  // ---------------------------------------------------------------- sessions

  datatype Op =
    | Login(user: UserId, attempt: Attempt, token: Token, ttl: nat)
    | Enroll(user: UserId, codes: seq<CodeHash>)
    | Logout(token: Token)

  /** The sessions a successful login of the user leaves alone. */
  function KeptSessions(sessions: map<Token, Session>, user: UserId, now: int): map<Token, Session> {
    map k | k in sessions && !(sessions[k].expires < now || sessions[k].user == user) :: sessions[k]
  }

  /** A login that would insert a token that is already there raises on the primary key. */
  function LoginOutcome(t: Tables, user: UserId, a: Attempt, token: Token): Outcome {
    if user !in t.credentials then Unknown
    else
      var outcome := OutcomeOf(t.credentials[user], a);
      if outcome.Succeeded? && token in KeptSessions(t.sessions, user, a.now) then TokenTaken else outcome
  }

  function AfterLogin(t: Tables, user: UserId, a: Attempt, token: Token, ttl: nat): Tables {
    match LoginOutcome(t, user, a, token)
    case Failed => t.(credentials := t.credentials[user := After(t.credentials[user], a)])
    case Succeeded(_) =>
      Tables(t.credentials[user := After(t.credentials[user], a)],
        KeptSessions(t.sessions, user, a.now)[token := Session(user, a.now + ttl)])
    case _ => t
  }

  function AfterEnroll(t: Tables, user: UserId, codes: seq<CodeHash>): Tables {
    Tables(t.credentials[user := Credential(0, None, codes)],
      map k | k in t.sessions && t.sessions[k].user != user :: t.sessions[k])
  }

  function AfterOp(t: Tables, op: Op): Tables {
    match op
    case Login(user, a, token, ttl) => AfterLogin(t, user, a, token, ttl)
    case Enroll(user, codes) => AfterEnroll(t, user, codes)
    case Logout(token) => t.(sessions := t.sessions - {token})
  }

  function AfterOps(t: Tables, ops: seq<Op>): Tables
    decreases |ops|
  {
    if ops == [] then t else AfterOps(AfterOp(t, ops[0]), ops[1..])
  }

  /** No user has two sessions. */
  predicate OneSession(t: Tables) {
    forall k, l :: k in t.sessions && l in t.sessions && t.sessions[k].user == t.sessions[l].user ==> k == l
  }

  lemma {:induction false} NeverTwoSessions(t: Tables, ops: seq<Op>)
    requires OneSession(t)
    ensures OneSession(AfterOps(t, ops))
    decreases |ops|
  {
    if ops != [] {
      OneSessionKept(t, ops[0]);
      NeverTwoSessions(AfterOp(t, ops[0]), ops[1..]);
    }
  }

  lemma OneSessionKept(t: Tables, op: Op)
    requires OneSession(t)
    ensures OneSession(AfterOp(t, op))
  {
    hide OutcomeOf, After;
  }

  // ---------------------------------------------------------------- who gets in, and for how long

  /** Everything a login needs: a credential that is not locked, a secret that can be read, the password,
      the code of the moment or a recovery code that is left, and a token nobody else holds. */
  predicate MayEnter(t: Tables, user: UserId, a: Attempt, token: Token) {
    && user in t.credentials
    && (t.credentials[user].lockedUntil.Some? ==> t.credentials[user].lockedUntil.value <= a.now)
    && a.secretReadable && a.passwordValid
    && (a.factor.Supplied? ==> a.factor.hash in t.credentials[user].recovery)
    && (token in t.sessions ==> t.sessions[token].user == user || t.sessions[token].expires < a.now)
  }

  /** The attempt is evaluated: there is a credential, no lock is in force and the secret can be read. */
  predicate Evaluated(t: Tables, user: UserId, a: Attempt) {
    && user in t.credentials && a.secretReadable
    && (t.credentials[user].lockedUntil.Some? ==> t.credentials[user].lockedUntil.value <= a.now)
  }

  /** A login succeeds exactly if nothing of that is missing; it then clears the count, uses up its code
      and opens a session. An evaluated attempt whose password or second factor is wrong is counted, and
      locks for 900 seconds from the fifth on. Nothing else changes anything. */
  lemma LoginExactly(t: Tables, user: UserId, a: Attempt, token: Token, ttl: nat)
    ensures var outcome := LoginOutcome(t, user, a, token);
            var t' := AfterLogin(t, user, a, token, ttl);
            && (outcome.Succeeded? <==> MayEnter(t, user, a, token))
            && (outcome == Failed <==>
                  && Evaluated(t, user, a)
                  && !(a.passwordValid && (a.factor.Supplied? ==> a.factor.hash in t.credentials[user].recovery)))
            && (outcome == Locked <==>
                  && user in t.credentials && t.credentials[user].lockedUntil.Some?
                  && t.credentials[user].lockedUntil.value > a.now)
            && (outcome.Succeeded? ==>
                  && token in t'.sessions && t'.sessions[token] == Session(user, a.now + ttl)
                  && t'.credentials[user].failed == 0 && t'.credentials[user].lockedUntil == None
                  && (forall code :: code in t'.credentials[user].recovery <==>
                        code in t.credentials[user].recovery && a.factor != Supplied(code)))
            && (outcome == Failed ==>
                  && t'.sessions == t.sessions
                  && t'.credentials == t.credentials[user := t.credentials[user].(
                                         failed := t.credentials[user].failed + 1,
                                         lockedUntil := if t.credentials[user].failed >= 4 then Some(a.now + 900)
                                                        else None)])
            && (!outcome.Succeeded? && outcome != Failed ==> t' == t)
  {
  }

  /** Whoever was just enrolled gets in with the password and the code of the moment or any of the codes
      handed out, whatever failures, locks and sessions there were, unless the token is another's. */
  lemma EnrolledEnters(t: Tables, user: UserId, codes: seq<CodeHash>, a: Attempt, token: Token)
    ensures MayEnter(AfterEnroll(t, user, codes), user, a, token) <==>
              && a.secretReadable && a.passwordValid && (a.factor.Supplied? ==> a.factor.hash in codes)
              && (token in t.sessions ==> t.sessions[token].user == user || t.sessions[token].expires < a.now)
  {
  }

  /** The tables before operation `i`. */
  function At(t: Tables, ops: seq<Op>, i: nat): Tables
    requires i <= |ops|
  {
    AfterOps(t, ops[..i])
  }

  lemma {:induction false} AfterOneMore(t: Tables, ops: seq<Op>, op: Op)
    ensures AfterOps(t, ops + [op]) == AfterOp(AfterOps(t, ops), op)
    decreases |ops|
  {
    hide AfterOp;
    if ops == [] {
      assert [] + [op] == [op] && [op][1..] == [];
    } else {
      assert (ops + [op])[1..] == ops[1..] + [op];
      AfterOneMore(AfterOp(t, ops[0]), ops[1..], op);
    }
  }

  lemma AtNext(t: Tables, ops: seq<Op>, i: nat)
    requires i < |ops|
    ensures At(t, ops, i + 1) == AfterOp(At(t, ops, i), ops[i])
  {
    hide AfterOp;
    assert ops[..i + 1] == ops[..i] + [ops[i]];
    AfterOneMore(t, ops[..i], ops[i]);
  }

  /** The operation ends a session of this token, user and time of expiry. */
  predicate Ends(t: Tables, op: Op, token: Token, session: Session) {
    match op
    case Logout(other) => other == token
    case Enroll(user, _) => user == session.user
    case Login(user, a, other, _) => MayEnter(t, user, a, other) && (user == session.user || session.expires < a.now)
  }

  /** Operation `i` was a login that lacked nothing, and none of those up to `k` has ended its session. */
  ghost predicate Since(t: Tables, ops: seq<Op>, i: nat, k: nat, token: Token, session: Session)
    requires k <= |ops|
  {
    && i < k && ops[i].Login? && ops[i].token == token
    && session == Session(ops[i].user, ops[i].attempt.now + ops[i].ttl)
    && MayEnter(At(t, ops, i), ops[i].user, ops[i].attempt, token)
    && forall j: nat :: i < j < k ==> !Ends(At(t, ops, j), ops[j], token, session)
  }

  /** One operation opens the session, leaves it or ends it. */
  lemma OpSession(t: Tables, op: Op, token: Token, session: Session)
    ensures var t' := AfterOp(t, op);
            var opens := op.Login? && op.token == token && MayEnter(t, op.user, op.attempt, token)
                         && session == Session(op.user, op.attempt.now + op.ttl);
            var stays := token in t.sessions && t.sessions[token] == session && !Ends(t, op, token, session);
            (token in t'.sessions && t'.sessions[token] == session) <==> opens || stays
  {
    if op.Login? {
      LoginExactly(t, op.user, op.attempt, op.token, op.ttl);
      hide OutcomeOf, After;
    }
  }

  lemma {:induction false} SinceExactly(t: Tables, ops: seq<Op>, k: nat, token: Token, session: Session)
    requires t.sessions == map[] && k <= |ops|
    ensures (token in At(t, ops, k).sessions && At(t, ops, k).sessions[token] == session) <==>
            exists i: nat :: Since(t, ops, i, k, token, session)
    decreases k
  {
    if k > 0 {
      hide At, MayEnter, Ends, AfterOp;
      var t1 := At(t, ops, k - 1);
      var op := ops[k - 1];
      SinceExactly(t, ops, k - 1, token, session);
      AtNext(t, ops, k - 1);
      OpSession(t1, op, token, session);
      if i: nat :| Since(t, ops, i, k, token, session) {
        assert i == k - 1 || (Since(t, ops, i, k - 1, token, session) && !Ends(t1, op, token, session));
      } else {
        assert !Since(t, ops, k - 1, k, token, session);
        var m := k - 1;
        forall i: nat ensures Since(t, ops, i, m, token, session) ==> Ends(t1, op, token, session) {
          assert !Since(t, ops, i, k, token, session);
        }
      }
    }
  }

  /** Whom a token admits. */
  function Admitted(t: Tables, token: Token, now: int): Option<UserId> {
    if token in t.sessions && t.sessions[token].expires > now then Some(t.sessions[token].user) else None
  }

  /** From a database without sessions, over any logins, enrolments and logouts: a token admits a user
      exactly if some login of that user with that token lacked nothing, its time is not over, and no
      later logout of the token, enrolment or login of the user, or login after its time, has ended it. */
  lemma AdmittedExactly(t: Tables, ops: seq<Op>, token: Token, now: int, user: UserId)
    requires t.sessions == map[]
    ensures Admitted(AfterOps(t, ops), token, now) == Some(user) <==>
            exists i: nat, session: Session ::
              session.user == user && session.expires > now && Since(t, ops, i, |ops|, token, session)
  {
    hide Since;
    assert ops[..|ops|] == ops;
    var t' := AfterOps(t, ops);
    if token in t'.sessions { SinceExactly(t, ops, |ops|, token, t'.sessions[token]); }
    forall i: nat, session: Session | Since(t, ops, i, |ops|, token, session)
      ensures token in t'.sessions && t'.sessions[token] == session {
      SinceExactly(t, ops, |ops|, token, session);
    }
  }

  // ---------------------------------------------------------------- the store

  class LocalReviewers {
    var credentials: map<UserId, Credential>
    var sessions: map<Token, Session>

    ghost function View(): Tables
      reads this
    {
      Tables(credentials, sessions)
    }

    /** One transaction: what raises leaves nothing behind. */
    method Authenticate(user: UserId, a: Attempt, token: Token, ttl: nat) returns (outcome: Outcome)
      modifies this
      ensures outcome == LoginOutcome(old(View()), user, a, token)
      ensures View() == AfterLogin(old(View()), user, a, token, ttl)
    {
      if user !in credentials { return Unknown; }
      var c := credentials[user];
      if c.lockedUntil.Some? && c.lockedUntil.value > a.now { return Locked; }
      if !a.secretReadable { return SecretInvalid; }
      var (factorValid, left, recoveryUsed) := VerifySecondFactor(a.factor, c.recovery);
      if !a.passwordValid || !factorValid {
        var failed := c.failed + 1;
        var lockedUntil := if failed >= MAX_FAILED_ATTEMPTS then Some(a.now + LOCKOUT_SECONDS) else None;
        credentials := credentials[user := c.(failed := failed, lockedUntil := lockedUntil)];
        return Failed;
      }
      var kept := KeptSessions(sessions, user, a.now);
      if token in kept { return TokenTaken; }
      credentials := credentials[user := Credential(0, None, left)];
      sessions := kept[token := Session(user, a.now + ttl)];
      outcome := Succeeded(recoveryUsed);
    }

    method EnrollReviewer(user: UserId, codes: seq<CodeHash>)
      modifies this
      ensures View() == AfterEnroll(old(View()), user, codes)
    {
      credentials := credentials[user := Credential(0, None, codes)];
      sessions := map k | k in sessions && sessions[k].user != user :: sessions[k];
    }

    /** A request that writes must also carry the session's second secret. */
    method ValidateSession(token: Token, secretGood: bool, writes: bool, now: int) returns (user: Option<UserId>)
      ensures user == if writes && !secretGood then None else Admitted(View(), token, now)
    {
      if token !in sessions || sessions[token].expires <= now { return None; }
      if writes && !secretGood { return None; }
      user := Some(sessions[token].user);
    }

    method LogOut(token: Token)
      modifies this
      ensures View() == AfterOp(old(View()), Logout(token))
    {
      sessions := sessions - {token};
    }
  }
}
