/** One model runner: its three counters, the retry loop of `init`, and `close`. */
module RunnerModel {
  import opened Common

  // ----- Counters -----

  datatype Counters = Counters(failures: nat, timeouts: nat, cooldown: int)

  const INITIAL_COUNTERS := Counters(0, 0, 0)

  function HalfUp(n: nat): nat { (n + 1) / 2 }

  /** `should_skip_for_timeout_reason`: the counters after it, and whether the call is skipped. */
  function SkipDecision(c: Counters): (Counters, bool) {
    if c.cooldown > 0 then (c.(cooldown := c.cooldown - 1), true)
    else if c.cooldown == 0 then (c.(cooldown := -1), false)
    else if c.timeouts > 0 then (c.(cooldown := HalfUp(c.timeouts) - 1), true)
    else (c, false)
  }

  // ----- The retry loop of init -----

  /** How one attempt goes: what it ends in, and whether someone closes the runner meanwhile. */
  datatype AttemptResult =
    | SetupReturned(ok: bool, error: ErrorType)
    | Unreachable(isTls: bool)   // AioRpcError or TimeoutError, and what the TLS probe then says
    | Misused                    // InvalidCoordinatorUsageError
    | Unauthenticated            // AuthError or TlsProbeError
    | Unexpected                 // any other exception

  datatype Attempt = Attempt(result: AttemptResult, closedDuring: bool, closedInBackoff: bool)

  /** A loop over no attempts at all returns nothing. */
  datatype Verdict = Ended(outcome: InitOutcome) | FellThrough

  datatype InitRun = InitRun(verdict: Verdict, attempts: nat, slept: int, closed: bool)

  function Pow(b: int, e: nat): int {
    if e == 0 then 1 else b * Pow(b, e - 1)
  }

  /** What an attempt decides; nothing if the loop is to try again. */
  function Decides(result: AttemptResult, secure: bool, closed: bool): Option<InitOutcome> {
    match result
    case SetupReturned(ok, error) => Some(if ok then Ready else Refused(error))
    case Unreachable(isTls) => if !secure && isTls then Some(Raised) else None
    case Misused => Some(Raised)
    case Unauthenticated => Some(Refused(AuthError))
    case Unexpected => if closed then Some(Refused(Aborted)) else None
  }

  /** The loop from a given attempt on. */
  function InitFrom(attempt: nat, n: nat, closed: bool, secure: bool, b: int, env: nat -> Attempt): InitRun
    requires 1 <= attempt <= n + 1
    decreases n + 1 - attempt
  {
    if attempt > n then InitRun(FellThrough, 0, 0, closed)
    else if closed then InitRun(Ended(Refused(Aborted)), 0, 0, closed)
    else
      var a := env(attempt);
      match Decides(a.result, secure, a.closedDuring)
      case Some(o) => InitRun(Ended(o), 1, 0, a.closedDuring)
      case None =>
        if attempt == n then InitRun(Ended(Refused(GrpcConnectionFailed)), 1, 0, a.closedDuring)
        else
          var rest := InitFrom(attempt + 1, n, a.closedDuring || a.closedInBackoff, secure, b, env);
          InitRun(rest.verdict, 1 + rest.attempts, Pow(b, attempt) + rest.slept, rest.closed)
  }

  /** `init` makes at most n attempts and, for n at least 1, ends in a verdict or an exception. */
  lemma {:induction false} AttemptsBounded(attempt: nat, n: nat, closed: bool, secure: bool, b: int,
          env: nat -> Attempt)
    requires 1 <= attempt <= n + 1
    ensures var run := InitFrom(attempt, n, closed, secure, b, env);
      run.attempts <= n + 1 - attempt && (run.verdict == FellThrough <==> attempt == n + 1)
    decreases n + 1 - attempt
  {
    if attempt <= n {
      AttemptsBounded(attempt + 1, n, env(attempt).closedDuring || env(attempt).closedInBackoff, secure, b, env);
    }
  }

  /** A run that uses all its attempts sleeps b^attempt + .. + b^(n-1) in total. */
  lemma {:induction false} BackoffFrom(attempt: nat, n: nat, closed: bool, secure: bool, b: int, env: nat -> Attempt)
    requires 1 <= attempt <= n
    requires InitFrom(attempt, n, closed, secure, b, env).attempts == n + 1 - attempt
    ensures (b - 1) * InitFrom(attempt, n, closed, secure, b, env).slept == Pow(b, n) - Pow(b, attempt)
    decreases n - attempt
  {
    if attempt < n {
      var rest := InitFrom(attempt + 1, n, env(attempt).closedDuring || env(attempt).closedInBackoff, secure, b, env);
      BackoffFrom(attempt + 1, n, env(attempt).closedDuring || env(attempt).closedInBackoff, secure, b, env);
      Distribute(b, Pow(b, attempt), rest.slept);
    }
  }

  lemma Distribute(b: int, p: int, s: int)
    ensures (b - 1) * (p + s) == b * p - p + (b - 1) * s
  {}

  /** The total backoff S of a run that uses all n attempts satisfies (b-1)*S = b^n - b. */
  lemma TotalBackoff(n: nat, closed: bool, secure: bool, b: int, env: nat -> Attempt)
    requires n >= 1 && InitFrom(1, n, closed, secure, b, env).attempts == n
    ensures (b - 1) * InitFrom(1, n, closed, secure, b, env).slept == Pow(b, n) - b
  {
    BackoffFrom(1, n, closed, secure, b, env);
    assert Pow(b, 1) == b * Pow(b, 0);
  }

  /** A close during attempt k or the backoff after it allows no further attempt. */
  lemma {:induction false} CloseStopsRetries(attempt: nat, n: nat, closed: bool, secure: bool, b: int,
          env: nat -> Attempt, k: nat)
    requires 1 <= attempt <= k <= n && (env(k).closedDuring || env(k).closedInBackoff)
    ensures InitFrom(attempt, n, closed, secure, b, env).attempts <= k + 1 - attempt
    ensures closed ==> InitFrom(attempt, n, closed, secure, b, env).attempts == 0
    decreases k - attempt
  {
    if attempt < k {
      CloseStopsRetries(attempt + 1, n, env(attempt).closedDuring || env(attempt).closedInBackoff, secure, b, env, k);
    }
  }

  /** An attempt after which the loop tries again, if there is an attempt left. */
  predicate Transient(a: Attempt, secure: bool) {
    && !a.closedDuring && !a.closedInBackoff
    && match a.result
       case Unreachable(isTls) => secure || !isTls
       case Unexpected => true
       case _ => false
  }

  /** Attempt k succeeds after nothing but transient attempts. */
  ghost predicate SucceedsAt(attempt: nat, n: nat, secure: bool, env: nat -> Attempt, k: nat) {
    && attempt <= k <= n && env(k).result.SetupReturned? && env(k).result.ok
    && forall j: nat | attempt <= j < k :: Transient(env(j), secure)
  }

  /** After an attempt that did not set up, success is left to the later attempts. */
  lemma NotYet(attempt: nat, later: nat, n: nat, secure: bool, env: nat -> Attempt)
    requires later == attempt + 1 && !env(attempt).result.SetupReturned?
    ensures (exists k: nat :: SucceedsAt(attempt, n, secure, env, k))
      <==> Transient(env(attempt), secure) && (exists k: nat :: SucceedsAt(later, n, secure, env, k))
  {
    if k: nat :| SucceedsAt(attempt, n, secure, env, k) {
      assert Transient(env(attempt), secure) && SucceedsAt(later, n, secure, env, k);
    }
    if Transient(env(attempt), secure) {
      if k: nat :| SucceedsAt(later, n, secure, env, k) {
        forall j: nat | attempt <= j < k ensures Transient(env(j), secure) {}
        assert SucceedsAt(attempt, n, secure, env, k);
      }
    }
  }

  /**
   `init` succeeds exactly when the runner is open at the start and some attempt within the limit
   sets up after transient attempts only. A close during that last attempt does not matter: the flag
   is read only before an attempt and after an unexpected exception.
   */
  lemma {:induction false} ReadyExactlyWhen(attempt: nat, n: nat, closed: bool, secure: bool, b: int,
          env: nat -> Attempt)
    requires 1 <= attempt <= n + 1
    ensures InitFrom(attempt, n, closed, secure, b, env).verdict == Ended(Ready)
      <==> !closed && exists k: nat :: SucceedsAt(attempt, n, secure, env, k)
    decreases n + 1 - attempt
  {
    if attempt <= n && !closed {
      var a := env(attempt);
      var closed' := a.closedDuring || a.closedInBackoff;
      ReadyExactlyWhen(attempt + 1, n, closed', secure, b, env);
      if a.result.SetupReturned? {
        if a.result.ok { assert SucceedsAt(attempt, n, secure, env, attempt); }
        assert !Transient(env(attempt), secure);
      } else {
        NotYet(attempt, attempt + 1, n, secure, env);
      }
    }
  }

  // ----- The end of init, in terms of its last attempt -----

  /** The connection failed, or something unexpected happened while the runner was open: no verdict yet. */
  predicate Undecided(a: Attempt, secure: bool) {
    || (a.result.Unreachable? && (secure || !a.result.isTls))
    || (a.result.Unexpected? && !a.closedDuring)
  }

  /** The loop makes attempts up to k and no further one. */
  ghost predicate LastAttempt(attempt: nat, n: nat, closed: bool, secure: bool, env: nat -> Attempt, k: nat) {
    && !closed && attempt <= k <= n && (forall j: nat | attempt <= j < k :: Transient(env(j), secure))
    && (k < n ==> !Transient(env(k), secure))
  }

  /** An open runner with an attempt left has a last attempt. */
  lemma {:induction false} HasLastAttempt(attempt: nat, n: nat, secure: bool, env: nat -> Attempt) returns (k: nat)
    requires 1 <= attempt <= n
    ensures LastAttempt(attempt, n, false, secure, env, k)
    decreases n - attempt
  {
    if attempt < n && Transient(env(attempt), secure) {
      k := HasLastAttempt(attempt + 1, n, secure, env);
    } else {
      k := attempt;
    }
  }

  /**
   What the last attempt k leaves behind. It ends `init` with what setup returned, or with the error or
   exception for its failure; an undecided one ends it because no attempt is left, or because a close is
   seen before the next one. The loop slept after every attempt before k, and after k if one was left.
   */
  lemma {:induction false} EndsAtLastAttempt(attempt: nat, n: nat, closed: bool, secure: bool, b: int,
                                             env: nat -> Attempt, k: nat)
    requires 1 <= attempt && LastAttempt(attempt, n, closed, secure, env, k)
    ensures var run, a := InitFrom(attempt, n, closed, secure, b, env), env(k);
      && run.attempts == k + 1 - attempt
      && (a.result.SetupReturned? && a.result.ok ==> run.verdict == Ended(Ready))
      && (a.result.SetupReturned? && !a.result.ok ==> run.verdict == Ended(Refused(a.result.error)))
      && (a.result.Unreachable? && !secure && a.result.isTls ==> run.verdict == Ended(Raised))
      && (a.result.Misused? ==> run.verdict == Ended(Raised))
      && (a.result.Unauthenticated? ==> run.verdict == Ended(Refused(AuthError)))
      && (a.result.Unexpected? && a.closedDuring ==> run.verdict == Ended(Refused(Aborted)))
      && (Undecided(a, secure) ==> run.verdict == Ended(Refused(if k == n then GrpcConnectionFailed else Aborted)))
      && (run.closed <==> a.closedDuring || (Undecided(a, secure) && k < n && a.closedInBackoff))
      && (b - 1) * run.slept == Pow(b, if Undecided(a, secure) && k < n then k + 1 else k) - Pow(b, attempt)
    decreases k - attempt
  {
    var a := env(attempt);
    if attempt < k {
      EndsAtLastAttempt(attempt + 1, n, a.closedDuring || a.closedInBackoff, secure, b, env, k);
      Distribute(b, Pow(b, attempt), InitFrom(attempt + 1, n, false, secure, b, env).slept);
    } else if Undecided(a, secure) && k < n {
      assert InitFrom(attempt + 1, n, true, secure, b, env) == InitRun(Ended(Refused(Aborted)), 0, 0, true);
      Distribute(b, Pow(b, attempt), 0);
    }
  }

  /**
   Which verdict `init` ends in, for at least one attempt, as an exact condition on the attempts.

   - It runs out, with GRPC_CONNECTION_FAILED, exactly when an open runner has transient attempts only
     and then an undecided last one. No other failure has that error, unless setup returned it.
   - ABORTED is a close seen before an attempt, an unexpected error while closed, or what setup returned.
   - AUTH_ERROR is a failed authentication, or what setup returned. Every other error is from setup.
   - It raises when it is misused, or when it finds TLS on the port of an insecure connection.
   */
  lemma VerdictExactlyWhen(n: nat, closed: bool, secure: bool, b: int, env: nat -> Attempt)
    requires n >= 1
    ensures var v := InitFrom(1, n, closed, secure, b, env).verdict;
      && (v == Ended(Ready) <==>
            exists k: nat :: LastAttempt(1, n, closed, secure, env, k) && SetUp(env(k)))
      && (v == Ended(Raised) <==>
            exists k: nat :: LastAttempt(1, n, closed, secure, env, k)
              && (env(k).result.Misused? || (env(k).result == Unreachable(true) && !secure)))
      && (v == Ended(Refused(GrpcConnectionFailed)) <==>
            exists k: nat :: LastAttempt(1, n, closed, secure, env, k)
              && ((k == n && Undecided(env(k), secure)) || SetupFailed(env(k), GrpcConnectionFailed)))
      && (v == Ended(Refused(Aborted)) <==>
            || closed
            || (exists k: nat :: LastAttempt(1, n, closed, secure, env, k)
                  && ((k < n && Undecided(env(k), secure))
                      || (env(k).result.Unexpected? && env(k).closedDuring) || SetupFailed(env(k), Aborted))))
      && (v == Ended(Refused(AuthError)) <==>
            exists k: nat :: LastAttempt(1, n, closed, secure, env, k)
              && (env(k).result.Unauthenticated? || SetupFailed(env(k), AuthError)))
      && (v == Ended(Refused(Failed)) <==>
            exists k: nat :: LastAttempt(1, n, closed, secure, env, k) && SetupFailed(env(k), Failed))
      && (v == Ended(Refused(BadImplementation)) <==>
            exists k: nat :: LastAttempt(1, n, closed, secure, env, k) && SetupFailed(env(k), BadImplementation))
  {
    if !closed {
      var last := HasLastAttempt(1, n, secure, env);
      EndsAtLastAttempt(1, n, closed, secure, b, env, last);
      forall k: nat | LastAttempt(1, n, closed, secure, env, k) ensures k == last {
        assert !(last < k) && !(k < last);
      }
    }
  }

  predicate SetUp(a: Attempt) { a.result.SetupReturned? && a.result.ok }

  predicate SetupFailed(a: Attempt, error: ErrorType) {
    a.result.SetupReturned? && !a.result.ok && a.result.error == error
  }

  // ----- The runner object -----

  class ModelRunner {
    const secure: bool           // secure_credentials are set
    const retryBackoffFactor: int
    const retryAttempts: nat
    var closed: bool
    var consecutiveFailures: nat
    var consecutiveTimeouts: nat
    var cooldownCallsRemaining: int

    function Value(): Counters
      reads this
    {
      Counters(consecutiveFailures, consecutiveTimeouts, cooldownCallsRemaining)
    }

    constructor (secure: bool, retryBackoffFactor: int)
      ensures Value() == INITIAL_COUNTERS && !closed && retryAttempts == 5
      ensures this.secure == secure && this.retryBackoffFactor == retryBackoffFactor
    {
      this.secure := secure;
      this.retryBackoffFactor := retryBackoffFactor;
      retryAttempts := 5;
      closed := false;
      consecutiveFailures := 0;
      consecutiveTimeouts := 0;
      cooldownCallsRemaining := 0;
    }

    method RegisterFailure()
      modifies this`consecutiveFailures
      ensures Value() == old(Value()).(failures := old(consecutiveFailures) + 1)
    {
      consecutiveFailures := consecutiveFailures + 1;
    }

    method RegisterTimeout()
      modifies this`consecutiveTimeouts
      ensures Value() == old(Value()).(timeouts := old(consecutiveTimeouts) + 1)
    {
      consecutiveTimeouts := consecutiveTimeouts + 1;
    }

    method ResetFailures()
      modifies this`consecutiveFailures
      ensures Value() == old(Value()).(failures := 0)
    {
      consecutiveFailures := 0;
    }

    method ResetTimeouts()
      modifies this`consecutiveTimeouts
      ensures Value() == old(Value()).(timeouts := 0)
    {
      consecutiveTimeouts := 0;
    }

    method ShouldSkipForTimeoutReason() returns (skip: bool)
      modifies this`cooldownCallsRemaining
      ensures (Value(), skip) == SkipDecision(old(Value()))
    {
      if cooldownCallsRemaining > 0 {
        cooldownCallsRemaining := cooldownCallsRemaining - 1;
        return true;
      }
      if cooldownCallsRemaining == 0 {
        cooldownCallsRemaining := -1;
        return false;
      }
      if consecutiveTimeouts > 0 {
        var cooldownCalls := HalfUp(consecutiveTimeouts);
        cooldownCallsRemaining := cooldownCalls;
        if cooldownCalls > 0 {
          cooldownCallsRemaining := cooldownCallsRemaining - 1;
          return true;
        }
      }
      return false;
    }

    /** The flag is set before the channels are closed, whatever they do. */
    method Close()
      modifies this`closed
      ensures closed
    {
      closed := true;
    }

    /** The retry loop; `env` says how each attempt goes and when somebody calls `Close` meanwhile. */
    method Init(env: nat -> Attempt) returns (verdict: Verdict, attempts: nat, slept: int)
      modifies this`closed
      ensures InitRun(verdict, attempts, slept, closed)
           == InitFrom(1, retryAttempts, old(closed), secure, retryBackoffFactor, env)
    {
      attempts, slept := 0, 0;
      ghost var whole := InitFrom(1, retryAttempts, closed, secure, retryBackoffFactor, env);
      for attempt := 1 to retryAttempts + 1
        invariant var rest := InitFrom(attempt, retryAttempts, closed, secure, retryBackoffFactor, env);
          whole == InitRun(rest.verdict, attempts + rest.attempts, slept + rest.slept, rest.closed)
      {
        if closed {
          return Ended(Refused(Aborted)), attempts, slept;
        }
        var a := env(attempt);
        attempts := attempts + 1;
        if a.closedDuring { Close(); }
        match a.result {
          case SetupReturned(ok, error) => return Ended(if ok then Ready else Refused(error)), attempts, slept;
          case Unreachable(isTls) =>
            if !secure && isTls { return Ended(Raised), attempts, slept; }
          case Misused => return Ended(Raised), attempts, slept;
          case Unauthenticated => return Ended(Refused(AuthError)), attempts, slept;
          case Unexpected =>
            if closed { return Ended(Refused(Aborted)), attempts, slept; }
        }
        if attempt < retryAttempts {
          slept := slept + Pow(retryBackoffFactor, attempt);
          if a.closedInBackoff { Close(); }
        } else {
          return Ended(Refused(GrpcConnectionFailed)), attempts, slept;
        }
      }
      verdict := FellThrough;
    }
  }
}
