/**
 Account lockout: the counters of the User aggregate and the login use case that reads and writes them.
 Times are milliseconds since the epoch; the password check itself is a parameter of the login step.
 */
module Lockout {
  import opened Prelude

  const LOCKOUT_ATTEMPTS := 5
  const LOCKOUT_MINUTES := 15
  const LOCKOUT_MS := LOCKOUT_MINUTES * 60 * 1000

  /** The part of a user row that login reads and writes. */
  datatype LoginState = LoginState(isActive: bool, failedAttempts: nat, lockedUntil: Option<int>,
                                   lastLoginAt: Option<int>)

  predicate LockedOut(s: LoginState, now: int) {
    s.lockedUntil.Some? && now < s.lockedUntil.value
  }

  function AfterFailure(s: LoginState, now: int): LoginState {
    var attempts := s.failedAttempts + 1;
    s.(failedAttempts := attempts,
       lockedUntil := if attempts >= LOCKOUT_ATTEMPTS then Some(now + LOCKOUT_MS) else s.lockedUntil)
  }

  function AfterSuccess(s: LoginState, now: int): LoginState {
    s.(failedAttempts := 0, lockedUntil := None, lastLoginAt := Some(now))
  }

  /** Why a login ended as it did. Every value but LoggedIn reaches the client as the same error. */
  datatype Outcome = UnknownUser | RejectedLocked | RejectedInactive | WrongPassword | LoggedIn

  function LoginOutcome(s: LoginState, now: int, passwordMatches: bool): Outcome {
    if LockedOut(s, now) then RejectedLocked
    else if !s.isActive then RejectedInactive
    else if !passwordMatches then WrongPassword
    else LoggedIn
  }

  function AfterLogin(s: LoginState, now: int, passwordMatches: bool): LoginState {
    match LoginOutcome(s, now, passwordMatches)
    case WrongPassword => AfterFailure(s, now)
    case LoggedIn => AfterSuccess(s, now)
    case _ => s
  }

  class User {
    var isActive: bool
    var failedLoginAttempts: nat
    var lockedUntil: Option<int>
    var lastLoginAt: Option<int>

    constructor (isActive: bool)
      ensures State() == LoginState(isActive, 0, None, None)
    {
      this.isActive := isActive;
      failedLoginAttempts := 0;
      lockedUntil := None;
      lastLoginAt := None;
    }

    function State(): LoginState
      reads this
    {
      LoginState(isActive, failedLoginAttempts, lockedUntil, lastLoginAt)
    }

    predicate IsLockedOut(now: int)
      reads this
    {
      lockedUntil.Some? && now < lockedUntil.value
    }

    method RecordFailedLogin(now: int)
      modifies this
      ensures State() == AfterFailure(old(State()), now)
    {
      var attempts := failedLoginAttempts + 1;
      if attempts >= LOCKOUT_ATTEMPTS {
        lockedUntil := Some(now + LOCKOUT_MS);
      }
      failedLoginAttempts := attempts;
    }

    method RecordSuccessfulLogin(now: int)
      modifies this
      ensures State() == AfterSuccess(old(State()), now)
    {
      failedLoginAttempts := 0;
      lockedUntil := None;
      lastLoginAt := Some(now);
    }

    method SetActive(active: bool)
      modifies this
      ensures State() == old(State()).(isActive := active)
    {
      isActive := active;
    }
  }

  /** AuthService.login on the row found by e-mail (null when there is none). */
  method Login(user: User?, now: int, passwordMatches: bool) returns (outcome: Outcome, lockoutNotified: bool)
    modifies user
    ensures user == null ==> outcome == UnknownUser && !lockoutNotified
    ensures user != null ==> outcome == LoginOutcome(old(user.State()), now, passwordMatches)
    ensures user != null ==> user.State() == AfterLogin(old(user.State()), now, passwordMatches)
    ensures lockoutNotified <==> outcome == WrongPassword && old(user.failedLoginAttempts) >= LOCKOUT_ATTEMPTS - 1
  {
    lockoutNotified := false;
    if user == null {
      return UnknownUser, false;
    }
    if user.IsLockedOut(now) {
      return RejectedLocked, false;
    }
    if !user.isActive {
      return RejectedInactive, false;
    }
    if !passwordMatches {
      var wasLocked := user.IsLockedOut(now);
      user.RecordFailedLogin(now);
      lockoutNotified := !wasLocked && user.IsLockedOut(now);
      return WrongPassword, lockoutNotified;
    }
    user.RecordSuccessfulLogin(now);
    return LoggedIn, false;
  }

  // ---- whole runs -------------------------------------------------------------------------------

  /** What can happen to one user: a login attempt, or an administrator switching the account on or off. */
  datatype Event = Attempt(now: int, passwordMatches: bool) | SetActive(active: bool)

  function Step(s: LoginState, e: Event): LoginState {
    match e
    case Attempt(now, ok) => AfterLogin(s, now, ok)
    case SetActive(b) => s.(isActive := b)
  }

  function Run(s: LoginState, es: seq<Event>): LoginState
    decreases es
  {
    if es == [] then s else Run(Step(s, es[0]), es[1..])
  }

  predicate Ends(s: LoginState, e: Event, outcome: Outcome) {
    e.Attempt? && LoginOutcome(s, e.now, e.passwordMatches) == outcome
  }

  /** The clock never runs backwards, starting from t. */
  predicate Clocked(es: seq<Event>, t: int) {
    es == [] ||
    match es[0]
    case Attempt(now, _) => t <= now && Clocked(es[1..], now)
    case SetActive(_) => Clocked(es[1..], t)
  }

  predicate NoSuccess(s: LoginState, es: seq<Event>)
    decreases es
  {
    es == [] || (!Ends(s, es[0], LoggedIn) && NoSuccess(Step(s, es[0]), es[1..]))
  }

  /** Failed password verifications processed at times in [lo, hi]. */
  function FailuresIn(s: LoginState, es: seq<Event>, lo: int, hi: int): nat
    decreases es
  {
    if es == [] then 0
    else (if Ends(s, es[0], WrongPassword) && lo <= es[0].now <= hi then 1 else 0)
         + FailuresIn(Step(s, es[0]), es[1..], lo, hi)
  }

  /** Failures that fit in [t, hi] once every failure is followed by a full lock. */
  function SpacedFrom(t: int, hi: int): nat {
    if t > hi then 0 else 1 + (hi - t) / LOCKOUT_MS
  }

  /** How many failures a user in state s can still have in [t, hi]. */
  function Remaining(s: LoginState, t: int, hi: int): nat {
    var free := if s.failedAttempts < LOCKOUT_ATTEMPTS - 1 then LOCKOUT_ATTEMPTS - 1 - s.failedAttempts else 0;
    free + SpacedFrom(if s.lockedUntil.Some? then Max(t, s.lockedUntil.value) else t, hi)
  }

  lemma SpacedFromAntitone(t: int, u: int, hi: int)
    requires t <= u
    ensures SpacedFrom(u, hi) <= SpacedFrom(t, hi)
    ensures t <= hi && u >= t + LOCKOUT_MS ==> SpacedFrom(u, hi) + 1 <= SpacedFrom(t, hi)
  {
  }

  lemma {:induction false} FailuresWithinRemaining(s: LoginState, es: seq<Event>, t: int, lo: int, hi: int)
    requires Clocked(es, t) && NoSuccess(s, es)
    ensures FailuresIn(s, es, lo, hi) <= Remaining(s, Max(t, lo), hi)
    decreases es
  {
    if es != [] {
      var e, s' := es[0], Step(s, es[0]);
      match e
      case SetActive(_) =>
        FailuresWithinRemaining(s', es[1..], t, lo, hi);
      case Attempt(now, _) =>
        FailuresWithinRemaining(s', es[1..], now, lo, hi);
        var from := if s.lockedUntil.Some? then Max(Max(t, lo), s.lockedUntil.value) else Max(t, lo);
        var from' := if s'.lockedUntil.Some? then Max(Max(now, lo), s'.lockedUntil.value) else Max(now, lo);
        SpacedFromAntitone(from, from', hi);
    }
  }

  /**
   The rate bound: from any state, with a clock that never runs backwards and no successful login in between,
   any interval [lo, hi] sees at most 5 + floor((hi - lo) / 15 min) failed password verifications.
   */
  lemma FailureRateBound(s: LoginState, es: seq<Event>, t: int, lo: int, hi: int)
    requires Clocked(es, t) && NoSuccess(s, es) && lo <= hi
    ensures FailuresIn(s, es, lo, hi) <= LOCKOUT_ATTEMPTS + (hi - lo) / LOCKOUT_MS
  {
    FailuresWithinRemaining(s, es, t, lo, hi);
    var from := if s.lockedUntil.Some? then Max(Max(t, lo), s.lockedUntil.value) else Max(t, lo);
    SpacedFromAntitone(lo, from, hi);
  }

  /** n further failures, each at the instant the previous lock runs out. */
  function Persistent(t: int, n: nat): seq<Event>
    decreases n
  {
    if n == 0 then [] else [Attempt(t, false)] + Persistent(t + LOCKOUT_MS, n - 1)
  }

  lemma {:induction false} PersistentFailures(s: LoginState, t: int, n: nat, lo: int, hi: int)
    requires s.isActive && s.failedAttempts >= LOCKOUT_ATTEMPTS && s.lockedUntil == Some(t)
    requires lo <= t && t + (n - 1) * LOCKOUT_MS <= hi
    ensures Clocked(Persistent(t, n), t) && NoSuccess(s, Persistent(t, n))
    ensures FailuresIn(s, Persistent(t, n), lo, hi) == n
    decreases n
  {
    if n > 0 {
      var es := Persistent(t, n);
      assert es[0] == Attempt(t, false) && es[1..] == Persistent(t + LOCKOUT_MS, n - 1);
      PersistentFailures(Step(s, es[0]), t + LOCKOUT_MS, n - 1, lo, hi);
      ClockedEarlier(es[1..], t + LOCKOUT_MS, t);
    }
  }

  lemma {:induction false} ClockedEarlier(es: seq<Event>, t: int, u: int)
    requires Clocked(es, t) && u <= t
    ensures Clocked(es, u)
  {
    if es != [] && es[0].SetActive? {
      ClockedEarlier(es[1..], t, u);
    }
  }

  /** The bound is attained: some run of a fresh active user has exactly 5 + n failures in [0, n * 15 min]. */
  lemma FailureRateBoundIsTight(n: nat) returns (es: seq<Event>)
    ensures Clocked(es, 0) && NoSuccess(LoginState(true, 0, None, None), es)
    ensures FailuresIn(LoginState(true, 0, None, None), es, 0, n * LOCKOUT_MS) == LOCKOUT_ATTEMPTS + n
  {
    var a := Attempt(0, false);
    var tail := Persistent(LOCKOUT_MS, n);
    var s4 := LoginState(true, 4, None, None);
    var s5 := AfterFailure(s4, 0);
    PersistentFailures(s5, LOCKOUT_MS, n, 0, n * LOCKOUT_MS);
    ClockedEarlier(tail, LOCKOUT_MS, 0);
    es := tail;
    var k, s := 5, s5;
    while k > 0
      invariant 0 <= k <= 5
      invariant s == if k == 5 then s5 else LoginState(true, k, None, None)
      invariant Clocked(es, 0) && NoSuccess(s, es)
      invariant FailuresIn(s, es, 0, n * LOCKOUT_MS) == n + 5 - k
    {
      var before := LoginState(true, k - 1, None, None);
      var longer := [a] + es;
      assert longer[1..] == es && Step(before, a) == s;
      es, s, k := longer, before, k - 1;
    }
  }

  /**
   While a lock is active no attempt is even verified: whatever is tried before the lock ends is rejected as
   locked (so no login succeeds), and neither the counter nor the lock moves.
   */
  lemma {:induction false} NothingPassesAnActiveLock(s: LoginState, es: seq<Event>, until: int, i: nat)
    requires s.lockedUntil == Some(until)
    requires forall e :: e in es && e.Attempt? ==> e.now < until
    ensures Run(s, es).lockedUntil == Some(until) && Run(s, es).failedAttempts == s.failedAttempts
    ensures i < |es| && es[i].Attempt? ==> Ends(Run(s, es[..i]), es[i], RejectedLocked)
    decreases es
  {
    if es != [] {
      var s' := Step(s, es[0]);
      assert s'.lockedUntil == Some(until);
      NothingPassesAnActiveLock(s', es[1..], until, if i > 0 then i - 1 else 0);
      if 0 < i < |es| {
        assert es[..i][0] == es[0] && es[..i][1..] == es[1..][..i - 1];
      }
    }
  }
}
