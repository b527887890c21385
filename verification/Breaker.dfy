/** The circuit breaker: what sequential calls to one model do to its counters and what they schedule. */
module Breaker {
  import opened Common
  import opened RunnerModel

  /** The limits; 0 switches a limit off. */
  datatype Limits = Limits(failures: nat, timeouts: nat)

  /** What a call ends in if it is really made. */
  datatype Outcome =
    | Succeeds
    | ReturnsError(error: ErrorType)
    | DecodeFails      // ValueError, treated as FAILED
    | TimesOut         // asyncio.TimeoutError or any AioRpcError
    | AuthFails(message: string)
    | Breaks           // any other exception

  /** A call as the environment plays it: its outcome, and the answer of a health check if one is made. */
  datatype Call = Call(outcome: Outcome, serving: bool)

  /** The background tasks of a call: a failure report with its reason, if it has one, or a reconnect. */
  datatype Scheduled = Report(code: FailureCode, reason: Option<string>) | Reconnect

  datatype Status = SuccessStatus | FailedStatus | TimeoutStatus | NoResult

  datatype Effect = Effect(after: Counters, sent: bool, checked: bool, scheduled: seq<Scheduled>, status: Status)

  function Max(a: int, b: int): int { if a < b then b else a }

  /** Every 20% of the timeout limit, rounded down, but at least 1. */
  function CheckEvery(l: Limits): (k: nat)
    ensures k >= 1
  {
    Max(1, l.timeouts / 5)
  }

  function OnError(l: Limits, c: Counters, error: ErrorType): Effect {
    if error == BadImplementation then Effect(c, true, false, [Report(CodeBadImplementation, None)], FailedStatus)
    else
      var c1 := c.(failures := c.failures + 1);
      Effect(c1, true, false,
             if l.failures != 0 && c1.failures > l.failures then [Report(CodeMultipleFailed, None)] else [],
               FailedStatus)
  }

  /** The timeout handler, for real timeouts and for skipped calls alike. */
  function OnTimeout(l: Limits, c: Counters, sent: bool, serving: bool): Effect {
    var checked := c.timeouts > 0 && c.timeouts % CheckEvery(l) == 0;
    var healthy := checked ==> serving;
    var c1 := if healthy then c.(timeouts := c.timeouts + 1) else c;
    Effect(c1, sent, checked,
           (if healthy then [] else [Reconnect])
           + (if l.timeouts != 0 && c1.timeouts > l.timeouts then [Report(CodeMultipleTimeout, None)] else []),
           TimeoutStatus)
  }

  function Execute(l: Limits, c: Counters, call: Call): Effect {
    var (c1, skip) := SkipDecision(c);
    if skip then OnTimeout(l, c1, false, call.serving)
    else
      match call.outcome
      case Succeeds => Effect(c1.(failures := 0, timeouts := 0), true, false, [], SuccessStatus)
      case ReturnsError(error) => OnError(l, c1, error)
      case DecodeFails => OnError(l, c1, Failed)
      case TimesOut => OnTimeout(l, c1, true, call.serving)
      case AuthFails(message) => Effect(c1, true, false, [Report(CodeConnectionFailed, Some(message))], NoResult)
      case Breaks => Effect(c1, true, false, [], FailedStatus)
  }

  // ----- The object -----

  class ConcurrentRunner {
    const maxConsecutiveFailures: nat
    const maxConsecutiveTimeouts: nat
    const healthCheckThreshold: nat

    function Value(): Limits { Limits(maxConsecutiveFailures, maxConsecutiveTimeouts) }

    predicate Valid() { healthCheckThreshold == CheckEvery(Value()) }

    constructor (maxConsecutiveFailures: nat, maxConsecutiveTimeouts: nat)
      ensures Valid() && Value() == Limits(maxConsecutiveFailures, maxConsecutiveTimeouts)
    {
      this.maxConsecutiveFailures := maxConsecutiveFailures;
      this.maxConsecutiveTimeouts := maxConsecutiveTimeouts;
      healthCheckThreshold := Max(1, maxConsecutiveTimeouts / 5);
    }

    /** Penalise or reconnect after a timeout or a skipped call. */
    method HandleTimeout(model: ModelRunner, serving: bool) returns (checked: bool, scheduled: seq<Scheduled>)
      requires Valid()
      modifies model`consecutiveTimeouts
      ensures forall sent: bool ::
        OnTimeout(Value(), old(model.Value()), sent, serving)
          == Effect(model.Value(), sent, checked, scheduled, TimeoutStatus)
    {
      var healthServing := true;
      checked := false;
      scheduled := [];
      if model.consecutiveTimeouts > 0 && model.consecutiveTimeouts % healthCheckThreshold == 0 {
        checked := true;
        healthServing := serving;
      }
      if healthServing {
        model.RegisterTimeout();
      } else {
        scheduled := scheduled + [Reconnect];
      }
      if maxConsecutiveTimeouts != 0 && model.consecutiveTimeouts > maxConsecutiveTimeouts {
        scheduled := scheduled + [Report(CodeMultipleTimeout, None)];
      }
    }

    /** `_execute_model_method_with_timeout` for one call. */
    method ExecuteModelMethod(model: ModelRunner, call: Call)
        returns (sent: bool, checked: bool, scheduled: seq<Scheduled>, status: Status)
      requires Valid()
      modifies model`consecutiveFailures, model`consecutiveTimeouts, model`cooldownCallsRemaining
      ensures Effect(model.Value(), sent, checked, scheduled, status) == Execute(Value(), old(model.Value()), call)
    {
      sent, checked, scheduled := true, false, [];
      var skip := model.ShouldSkipForTimeoutReason();
      if skip || call.outcome == TimesOut {
        checked, scheduled := HandleTimeout(model, call.serving);
        return !skip, checked, scheduled, TimeoutStatus;
      }
      var error := Option.None;
      match call.outcome {
        case Succeeds =>
        case ReturnsError(e) => error := Some(e);
        case DecodeFails => error := Some(Failed);
        case AuthFails(message) => return true, false, [Report(CodeConnectionFailed, Some(message))], NoResult;
        case Breaks => return true, false, [], FailedStatus;
      }
      if error == None {
        model.ResetFailures();
        model.ResetTimeouts();
        return true, false, [], SuccessStatus;
      }
      if error == Some(BadImplementation) {
        scheduled := [Report(CodeBadImplementation, None)];
      } else {
        model.RegisterFailure();
        if maxConsecutiveFailures != 0 && model.consecutiveFailures > maxConsecutiveFailures {
          scheduled := [Report(CodeMultipleFailed, None)];
        }
      }
      status := FailedStatus;
    }
  }

  // ----- Sequential calls -----

  function After(l: Limits, c: Counters, calls: seq<Call>): Counters {
    if calls == [] then c
    else Execute(l, After(l, c, calls[..|calls| - 1]), calls[|calls| - 1]).after
  }

  /** The effect of the last of some calls. */
  function LastEffect(l: Limits, c: Counters, calls: seq<Call>): Effect
    requires calls != []
  {
    Execute(l, After(l, c, calls[..|calls| - 1]), calls[|calls| - 1])
  }

  function RealCalls(l: Limits, c: Counters, calls: seq<Call>): nat {
    if calls == [] then 0
    else RealCalls(l, c, calls[..|calls| - 1]) + (if LastEffect(l, c, calls).sent then 1 else 0)
  }

  function HealthChecks(l: Limits, c: Counters, calls: seq<Call>): nat {
    if calls == [] then 0
    else HealthChecks(l, c, calls[..|calls| - 1]) + (if LastEffect(l, c, calls).checked then 1 else 0)
  }

  function ScheduledBy(l: Limits, c: Counters, calls: seq<Call>): seq<Scheduled> {
    if calls == [] then []
    else ScheduledBy(l, c, calls[..|calls| - 1]) + LastEffect(l, c, calls).scheduled
  }

  // ----- What one call does, in any state that calls lead to -----

  /** A call that was skipped, or made and not answered in time. */
  predicate Slow(e: Effect, call: Call) {
    !e.sent || call.outcome == TimesOut
  }

  /**
   A slow call, after any other calls. A health check is made exactly when the number of timeouts counted
   is a positive multiple of a fifth of the limit (rounded down, at least 1). If it is made and the answer
   is not SERVING, a reconnect is scheduled and the count stays; otherwise the count goes up by one and
   nothing is reconnected. MULTIPLE_TIMEOUT is reported exactly when the limit is on and the count, after
   that, exceeds it. Nothing else is scheduled, and failures are not counted.
   */
  lemma SlowCall(l: Limits, before: seq<Call>, call: Call)
    requires Slow(LastEffect(l, INITIAL_COUNTERS, before + [call]), call)
    ensures HandlesTimeout(l, After(l, INITIAL_COUNTERS, before), call.serving,
                           LastEffect(l, INITIAL_COUNTERS, before + [call]))
  {
    assert (before + [call])[..|before|] == before;
    SlowEffect(l, After(l, INITIAL_COUNTERS, before), call);
  }

  /** What a slow call does to the counters c, with the answer of the health check if one is made. */
  predicate HandlesTimeout(l: Limits, c: Counters, serving: bool, e: Effect) {
    var due := c.timeouts > 0 && c.timeouts % (if l.timeouts < 5 then 1 else l.timeouts / 5) == 0;
    && (e.checked <==> due)
    && (Reconnect in e.scheduled <==> due && !serving)
    && e.after.timeouts == (if due && !serving then c.timeouts else c.timeouts + 1)
    && (Report(CodeMultipleTimeout, None) in e.scheduled <==> l.timeouts != 0 && e.after.timeouts > l.timeouts)
    && (forall x | x in e.scheduled :: x == Reconnect || x == Report(CodeMultipleTimeout, None))
    && Once(e.scheduled) && e.after.failures == c.failures && e.status == TimeoutStatus
  }

  lemma SlowEffect(l: Limits, c: Counters, call: Call)
    requires Slow(Execute(l, c, call), call)
    ensures HandlesTimeout(l, c, call.serving, Execute(l, c, call))
  {
    var c1 := SkipDecision(c).0;
    SameCounts(c);
    TimeoutEffect(l, c1, Execute(l, c, call).sent, call.serving);
    assert Execute(l, c, call) == OnTimeout(l, c1, Execute(l, c, call).sent, call.serving);
  }

  lemma TimeoutEffect(l: Limits, c: Counters, sent: bool, serving: bool)
    ensures HandlesTimeout(l, c, serving, OnTimeout(l, c, sent, serving))
  {}

  predicate Once(xs: seq<Scheduled>) {
    forall i, j | 0 <= i < j < |xs| :: xs[i] != xs[j]
  }

  /** Deciding on a skip changes the cooldown alone. */
  lemma SameCounts(c: Counters)
    ensures SkipDecision(c).0 == c.(cooldown := SkipDecision(c).0.cooldown)
  {}

  /** The error that an answer stands for: an answer that cannot be decoded counts as FAILED. */
  predicate AnswersError(call: Call, error: ErrorType) {
    call.outcome == ReturnsError(error) || (call.outcome == DecodeFails && error == Failed)
  }

  /**
   A call that was made and answered, after any other calls: no health check, no reconnect, and

   - a success clears both counts and schedules nothing;
   - BAD_IMPLEMENTATION is reported at once and counted nowhere;
   - any other error is counted as a failure, and MULTIPLE_FAILED is reported exactly when the limit is on
     and the count exceeds it;
   - a failed authentication is reported as CONNECTION_FAILED with its message, and counted nowhere;
   - any other exception is neither counted nor reported.
   */
  lemma AnsweredCall(l: Limits, before: seq<Call>, call: Call)
    requires !Slow(LastEffect(l, INITIAL_COUNTERS, before + [call]), call)
    ensures HandlesAnswer(l, After(l, INITIAL_COUNTERS, before), call, LastEffect(l, INITIAL_COUNTERS, before + [call]))
  {
    assert (before + [call])[..|before|] == before;
    AnsweredEffect(l, After(l, INITIAL_COUNTERS, before), call);
  }

  predicate HandlesAnswer(l: Limits, c: Counters, call: Call, e: Effect) {
    && !e.checked
    && (call.outcome == Succeeds ==>
          e.after.failures == 0 && e.after.timeouts == 0 && e.scheduled == [] && e.status == SuccessStatus)
    && (call.outcome != Succeeds ==> e.after.timeouts == c.timeouts && e.status != SuccessStatus)
    && (AnswersError(call, BadImplementation) ==>
          e.after.failures == c.failures && e.scheduled == [Report(CodeBadImplementation, None)]
          && e.status == FailedStatus)
    && (forall error | error in {GrpcConnectionFailed, Failed, Aborted, AuthError} && AnswersError(call, error) ::
          e.after.failures == c.failures + 1 && e.status == FailedStatus
          && e.scheduled == if l.failures != 0 && c.failures + 1 > l.failures
                            then [Report(CodeMultipleFailed, None)] else [])
    && (call.outcome.AuthFails? ==>
          e.after.failures == c.failures && e.status == NoResult
          && e.scheduled == [Report(CodeConnectionFailed, Some(call.outcome.message))])
    && (call.outcome == Breaks ==> e.after.failures == c.failures && e.scheduled == [] && e.status == FailedStatus)
  }

  lemma AnsweredEffect(l: Limits, c: Counters, call: Call)
    requires !Slow(Execute(l, c, call), call)
    ensures HandlesAnswer(l, c, call, Execute(l, c, call))
  {
    SameCounts(c);
  }

  // ----- Cooldown -----

  /** The cooldown is never below -1, and less than half of what the timeouts call for is left. */
  predicate CooldownOk(c: Counters) {
    c.cooldown >= -1 && (c.cooldown >= 0 && c.timeouts > 0 ==> 2 * (c.cooldown + 1) <= c.timeouts + 1)
  }

  lemma {:induction false} CooldownInvariant(l: Limits, calls: seq<Call>)
    ensures CooldownOk(After(l, INITIAL_COUNTERS, calls))
    decreases |calls|
  {
    if calls != [] { CooldownInvariant(l, calls[..|calls| - 1]); }
  }

  /** How many calls in state c are skipped before the next real one. */
  function SkipsAhead(c: Counters): int {
    if c.cooldown >= 0 then c.cooldown else if c.timeouts > 0 then HalfUp(c.timeouts) else 0
  }

  /** Whatever the environment does, exactly the next SkipsAhead calls are skipped, and then one is made. */
  lemma {:induction false} SkipsExactly(l: Limits, c: Counters, calls: seq<Call>)
    requires c.cooldown >= -1 && calls != [] && |calls| <= SkipsAhead(c) + 1
    ensures LastEffect(l, c, calls).sent <==> |calls| == SkipsAhead(c) + 1
    ensures |calls| <= SkipsAhead(c) ==> After(l, c, calls).cooldown == SkipsAhead(c) - |calls|
    decreases |calls|
  {
    if |calls| > 1 { SkipsExactly(l, c, calls[..|calls| - 1]); }
  }

  /** No starvation: after any calls with t timeouts counted, a call is made after at most ceil(t/2) skips. */
  lemma NoStarvation(l: Limits, before: seq<Call>, next: seq<Call>)
    requires var c := After(l, INITIAL_COUNTERS, before); |next| == SkipsAhead(c) + 1
    ensures var c := After(l, INITIAL_COUNTERS, before);
      0 <= SkipsAhead(c) <= HalfUp(c.timeouts) && LastEffect(l, c, next).sent
  {
    CooldownInvariant(l, before);
    SkipsExactly(l, After(l, INITIAL_COUNTERS, before), next);
    ZeroTimeouts(l, before);
  }

  /** With no timeouts counted there is no cooldown to wait for. */
  lemma {:induction false} ZeroTimeouts(l: Limits, calls: seq<Call>)
    ensures After(l, INITIAL_COUNTERS, calls).timeouts == 0 ==> After(l, INITIAL_COUNTERS, calls).cooldown <= 0
    decreases |calls|
  {
    if calls != [] { ZeroTimeouts(l, calls[..|calls| - 1]); }
  }

  lemma SuccessfulCall(l: Limits, c: Counters, success: Call)
    requires CooldownOk(c) && Execute(l, c, success).status == SuccessStatus
    ensures Execute(l, c, success).after == Counters(0, 0, -1)
  {}

  /** From cleared counters, calls that do not time out are all made and leave timeouts and cooldown clear. */
  lemma {:induction false} ClearStaysClear(l: Limits, calls: seq<Call>)
    requires forall i | 0 <= i < |calls| :: calls[i].outcome != TimesOut
    ensures var c := Counters(0, 0, -1);
      After(l, c, calls).timeouts == 0 && After(l, c, calls).cooldown == -1 && RealCalls(l, c, calls) == |calls|
    decreases |calls|
  {
    if calls != [] { ClearStaysClear(l, calls[..|calls| - 1]); }
  }

  /** A success clears everything, and no call is skipped until a new timeout is counted. */
  lemma {:induction false} SuccessClears(l: Limits, before: seq<Call>, success: Call, later: seq<Call>)
    requires LastEffect(l, INITIAL_COUNTERS, before + [success]).status == SuccessStatus
    requires forall i | 0 <= i < |later| :: later[i].outcome != TimesOut
    ensures After(l, INITIAL_COUNTERS, before + [success]) == Counters(0, 0, -1)
    ensures var c := After(l, INITIAL_COUNTERS, before + [success]);
      After(l, c, later).timeouts == 0 && After(l, c, later).cooldown == -1 && RealCalls(l, c, later) == |later|
  {
    CooldownInvariant(l, before);
    assert (before + [success])[..|before|] == before;
    SuccessfulCall(l, After(l, INITIAL_COUNTERS, before), success);
    ClearStaysClear(l, later);
  }

  // ----- All calls time out -----

  /** n calls that all time out, with healthy answers to every check. */
  function Timeouts(n: nat): seq<Call> {
    seq(n, _ => Call(TimesOut, true))
  }

  lemma TimeoutsSplit(n: nat)
    requires n > 0
    ensures Timeouts(n)[..n - 1] == Timeouts(n - 1) && Timeouts(n)[n - 1] == Call(TimesOut, true)
  {}

  lemma MulLe(a: int, b: int, k: nat)
    requires a <= b
    ensures a * k <= b * k
  {}

  /** The bounds on q, the timeouts counted just after the P-th real call, carried from one real call to the next. */
  predicate Bounds(q: nat, p: nat) {
    && p >= 1
    && Pow(3, p) <= (q + 2) * Pow(2, p - 1)
    && (q + 3) * Pow(2, p - 1) <= 4 * Pow(3, p - 1)
  }

  lemma LowerGrows(q: int, q': int, x: nat, z: int)
    requires z <= (q + 2) * x && 3 * (q + 2) <= 2 * (q' + 2)
    ensures 3 * z <= (q' + 2) * (2 * x)
  {
    MulLe(3 * (q + 2), 2 * (q' + 2), x);
    assert (3 * (q + 2)) * x == 3 * ((q + 2) * x);
    assert (2 * (q' + 2)) * x == (q' + 2) * (2 * x);
  }

  lemma UpperGrows(q: int, q': int, x: nat, y: int)
    requires (q + 3) * x <= 4 * y && 2 * (q' + 3) <= 3 * (q + 3)
    ensures (q' + 3) * (2 * x) <= 4 * (3 * y)
  {
    MulLe(2 * (q' + 3), 3 * (q + 3), x);
    assert (3 * (q + 3)) * x == 3 * ((q + 3) * x);
    assert (2 * (q' + 3)) * x == (q' + 3) * (2 * x);
  }

  lemma BoundsGrow(q: nat, p: nat)
    requires Bounds(q, p)
    ensures Bounds(q + HalfUp(q) + 1, p + 1)
  {
    var q' := q + HalfUp(q) + 1;
    PowPositive(p - 1);
    PowUnfold(p);
    LowerGrows(q, q', Pow(2, p - 1), Pow(3, p));
    UpperGrows(q, q', Pow(2, p - 1), Pow(3, p - 1));
  }

  lemma PowUnfold(p: nat)
    requires p >= 1
    ensures Pow(3, p + 1) == 3 * Pow(3, p) && Pow(3, p) == 3 * Pow(3, p - 1) && Pow(2, p) == 2 * Pow(2, p - 1)
  {}

  lemma {:induction false} PowPositive(e: nat)
    ensures Pow(2, e) >= 1 && Pow(3, e) >= 1
  {
    if e > 0 { PowPositive(e - 1); }
  }

  /** After n calls: q is the count just after the last real call, and the rest were skipped in its cooldown. */
  lemma {:induction false} BackoffState(l: Limits, n: nat) returns (q: nat)
    requires n >= 1
    ensures var c := After(l, INITIAL_COUNTERS, Timeouts(n));
      && c.timeouts == n && c.failures == 0
      && Bounds(q, RealCalls(l, INITIAL_COUNTERS, Timeouts(n))) && q <= n
      && (LastEffect(l, INITIAL_COUNTERS, Timeouts(n)).sent <==> q == n)
      && c.cooldown == (if q == n then -1 else q + HalfUp(q) - n)
      && c.cooldown >= -1
    decreases n
  {
    TimeoutsSplit(n);
    if n == 1 {
      q := 1;
      assert Timeouts(0) == [];
      assert Pow(3, 1) == 3 * Pow(3, 0) && Pow(2, 0) == 1;
    } else {
      q := BackoffState(l, n - 1);
      var p := RealCalls(l, INITIAL_COUNTERS, Timeouts(n - 1));
      if q < n - 1 && q + HalfUp(q) == n - 1 {
        BoundsGrow(q, p);
        q := n;
      }
    }
  }

  /**
   Exponential backing off. After n calls that all time out, with healthy checks, n timeouts are
   counted, and the number P of calls really sent satisfies 3^P <= (n+2) * 2^(P-1), so P grows only
   logarithmically; and right after the k-th real call (from 0) the count n satisfies
   (n+3) * 2^k <= 4 * 3^k, so real calls do keep coming.
   */
  lemma ExponentialBackoff(l: Limits, n: nat)
    requires n >= 1
    ensures var p := RealCalls(l, INITIAL_COUNTERS, Timeouts(n));
      && After(l, INITIAL_COUNTERS, Timeouts(n)).timeouts == n
      && p >= 1 && Pow(3, p) <= (n + 2) * Pow(2, p - 1)
      && (LastEffect(l, INITIAL_COUNTERS, Timeouts(n)).sent ==> (n + 3) * Pow(2, p - 1) <= 4 * Pow(3, p - 1))
  {
    var q := BackoffState(l, n);
    var p := RealCalls(l, INITIAL_COUNTERS, Timeouts(n));
    PowPositive(p - 1);
    MulLe(q + 2, n + 2, Pow(2, p - 1));
  }

  // ----- Health checks -----

  lemma DivStep(n: nat, k: nat)
    requires n >= 1 && k >= 1
    ensures n / k == (n - 1) / k + (if n % k == 0 then 1 else 0)
  {
    var q, r := n / k, n % k;
    assert n == q * k + r;
    if r == 0 {
      assert n - 1 == (q - 1) * k + (k - 1);
      DivUnique(n - 1, k, q - 1, k - 1);
    } else {
      DivUnique(n - 1, k, q, r - 1);
    }
  }

  lemma DivUnique(n: int, k: nat, q: int, r: nat)
    requires k >= 1 && n == q * k + r && r < k
    ensures n / k == q
  {
    var d := n / k - q;
    assert d * k == r - n % k;
    Multiples(d, k);
  }

  lemma Multiples(d: int, k: int)
    requires k >= 1
    ensures d >= 1 ==> d * k >= k
    ensures d <= -1 ==> d * k <= -k
  {}

  /** One more call that times out, up to one more than the limit. */
  lemma TimeoutCall(l: Limits, c: Counters)
    requires l.timeouts >= 1 && c.timeouts <= l.timeouts
    ensures var e := Execute(l, c, Call(TimesOut, true));
      && (e.checked <==> c.timeouts > 0 && c.timeouts % CheckEvery(l) == 0)
      && e.scheduled == if c.timeouts < l.timeouts then [] else [Report(CodeMultipleTimeout, None)]
  {}

  lemma OneMoreTimeout(l: Limits, n: nat)
    requires n >= 1
    ensures var e := Execute(l, After(l, INITIAL_COUNTERS, Timeouts(n - 1)), Call(TimesOut, true));
      && HealthChecks(l, INITIAL_COUNTERS, Timeouts(n))
           == HealthChecks(l, INITIAL_COUNTERS, Timeouts(n - 1)) + (if e.checked then 1 else 0)
      && ScheduledBy(l, INITIAL_COUNTERS, Timeouts(n))
           == ScheduledBy(l, INITIAL_COUNTERS, Timeouts(n - 1)) + e.scheduled
  {
    TimeoutsSplit(n);
  }

  lemma CountsTimeouts(l: Limits, n: nat)
    ensures After(l, INITIAL_COUNTERS, Timeouts(n)).timeouts == n
  {
    if n > 0 { var q := BackoffState(l, n); } else { assert Timeouts(0) == []; }
  }

  /**
   Over the first calls, up to the limit and one more: checks at the multiples of the threshold, one
   report at the end.
   */
  lemma {:induction false} ChecksSoFar(l: Limits, n: nat)
    requires l.timeouts >= 1 && 1 <= n <= l.timeouts + 1
    ensures HealthChecks(l, INITIAL_COUNTERS, Timeouts(n)) == (n - 1) / CheckEvery(l)
    ensures ScheduledBy(l, INITIAL_COUNTERS, Timeouts(n))
        == if n <= l.timeouts then [] else [Report(CodeMultipleTimeout, None)]
    decreases n
  {
    OneMoreTimeout(l, n);
    CountsTimeouts(l, n - 1);
    TimeoutCall(l, After(l, INITIAL_COUNTERS, Timeouts(n - 1)));
    if n == 1 {
      assert Timeouts(0) == [];
      DivUnique(0, CheckEvery(l), 0, 0);
    } else {
      ChecksSoFar(l, n - 1);
      DivStep(n - 1, CheckEvery(l));
    }
  }

  lemma ChecksBetween(m: nat)
    requires m >= 1
    ensures var k := Max(1, m / 5); (if m < 5 then m else 5) <= m / k <= 9
  {
    var k := m / 5;
    if k >= 2 {
      var r := m % 5;
      assert m == 5 * k + r;
      if r < k { DivUnique(m, k, 5, r); }
      else if r - k < k { DivUnique(m, k, 6, r - k); }
      else { DivUnique(m, k, 7, r - 2 * k); }
    }
  }

  /**
   Health-check count. For every limit m >= 1, calls that all time out with healthy answers schedule
   nothing up to call m and MULTIPLE_TIMEOUT at call m+1, after floor(m / max(1, floor(m/5))) health
   checks, which is between min(m, 5) and 9.
   */
  lemma HealthCheckCount(l: Limits)
    requires l.timeouts >= 1
    ensures var m := l.timeouts;
      && ScheduledBy(l, INITIAL_COUNTERS, Timeouts(m)) == []
      && ScheduledBy(l, INITIAL_COUNTERS, Timeouts(m + 1)) == [Report(CodeMultipleTimeout, None)]
      && HealthChecks(l, INITIAL_COUNTERS, Timeouts(m + 1)) == m / Max(1, m / 5)
      && (if m < 5 then m else 5) <= HealthChecks(l, INITIAL_COUNTERS, Timeouts(m + 1)) <= 9
  {
    ChecksSoFar(l, l.timeouts);
    ChecksSoFar(l, l.timeouts + 1);
    ChecksBetween(l.timeouts);
  }

  // ----- Bounded detection -----

  predicate NoSuccess(l: Limits, c: Counters, calls: seq<Call>) {
    calls != [] ==> NoSuccess(l, c, calls[..|calls| - 1]) && LastEffect(l, c, calls).status != SuccessStatus
  }

  /** The call was made and ended in an unexpected exception. */
  predicate BreaksOff(l: Limits, c: Counters, call: Call) {
    Execute(l, c, call).sent && call.outcome == Breaks
  }

  /** The calls other than those. */
  function CountedCalls(l: Limits, c: Counters, calls: seq<Call>): nat {
    if calls == [] then 0
    else
      var n := |calls| - 1;
      CountedCalls(l, c, calls[..n]) + (if BreaksOff(l, After(l, c, calls[..n]), calls[n]) then 0 else 1)
  }

  /** One call that schedules nothing is a success, an unexpected exception, or adds one to one of the counters. */
  lemma UndetectedCall(l: Limits, c: Counters, call: Call)
    requires l.failures >= 1 && l.timeouts >= 1 && c.failures <= l.failures && c.timeouts <= l.timeouts
    requires Execute(l, c, call).scheduled == [] && Execute(l, c, call).status != SuccessStatus
    ensures var d := Execute(l, c, call).after;
      && d.failures + d.timeouts == c.failures + c.timeouts + (if BreaksOff(l, c, call) then 0 else 1)
      && d.failures <= l.failures && d.timeouts <= l.timeouts
  {}

  /** As long as nothing is scheduled and nothing succeeds, the counters add up to the counted calls. */
  lemma {:induction false} UndetectedCount(l: Limits, calls: seq<Call>)
    requires l.failures >= 1 && l.timeouts >= 1
    requires NoSuccess(l, INITIAL_COUNTERS, calls) && ScheduledBy(l, INITIAL_COUNTERS, calls) == []
    ensures var c := After(l, INITIAL_COUNTERS, calls);
      && c.failures + c.timeouts == CountedCalls(l, INITIAL_COUNTERS, calls)
      && c.failures <= l.failures && c.timeouts <= l.timeouts
    decreases |calls|
  {
    if calls != [] {
      var n := |calls| - 1;
      UndetectedCount(l, calls[..n]);
      UndetectedCall(l, After(l, INITIAL_COUNTERS, calls[..n]), calls[n]);
    }
  }

  /** Bounded detection: without a success, F+T+1 counted calls on a fresh runner have scheduled something. */
  lemma BoundedDetection(l: Limits, calls: seq<Call>)
    requires l.failures >= 1 && l.timeouts >= 1 && NoSuccess(l, INITIAL_COUNTERS, calls)
    requires CountedCalls(l, INITIAL_COUNTERS, calls) >= l.failures + l.timeouts + 1
    ensures ScheduledBy(l, INITIAL_COUNTERS, calls) != []
  {
    if ScheduledBy(l, INITIAL_COUNTERS, calls) == [] { UndetectedCount(l, calls); }
  }

  /** Failures and then timeouts. */
  function Quietest(f: nat, t: nat): seq<Call> {
    seq(f + t, i => if i < f then Call(DecodeFails, true) else Call(TimesOut, true))
  }

  lemma QuietestSplit(f: nat, t: nat)
    ensures t > 0 ==> Quietest(f, t) == Quietest(f, t - 1) + [Call(TimesOut, true)]
    ensures t == 0 && f > 0 ==> Quietest(f, t) == Quietest(f - 1, 0) + [Call(DecodeFails, true)]
  {}

  /** One more call that neither succeeds, breaks off nor schedules anything. */
  lemma OneMoreCall(l: Limits, calls: seq<Call>, call: Call, more: seq<Call>)
    requires more == calls + [call] && ScheduledBy(l, INITIAL_COUNTERS, calls) == []
        && NoSuccess(l, INITIAL_COUNTERS, calls)
    requires call.outcome != Breaks
    requires var e := Execute(l, After(l, INITIAL_COUNTERS, calls), call);
        e.scheduled == [] && e.status != SuccessStatus
    ensures ScheduledBy(l, INITIAL_COUNTERS, more) == [] && NoSuccess(l, INITIAL_COUNTERS, more)
    ensures CountedCalls(l, INITIAL_COUNTERS, more) == CountedCalls(l, INITIAL_COUNTERS, calls) + 1
    ensures After(l, INITIAL_COUNTERS, more) == Execute(l, After(l, INITIAL_COUNTERS, calls), call).after
  {
    assert more[..|more| - 1] == calls && more[|more| - 1] == call;
  }

  lemma TimeoutStep(l: Limits, c: Counters)
    requires l.timeouts == 0 || c.timeouts < l.timeouts
    ensures var e := Execute(l, c, Call(TimesOut, true));
      e.scheduled == [] && e.status != SuccessStatus && e.after.timeouts == c.timeouts + 1
        && e.after.failures == c.failures
  {}

  lemma FailureStep(l: Limits, c: Counters)
    requires (l.failures == 0 || c.failures < l.failures) && c.timeouts == 0 && c.cooldown <= 0
    ensures var e := Execute(l, c, Call(DecodeFails, true));
      e.scheduled == [] && e.status != SuccessStatus && e.after.timeouts == 0 && e.after.failures == c.failures + 1
        && e.after.cooldown <= 0
  {}

  /** The run has neither a success nor anything scheduled, and leaves these counts. */
  predicate Unnoticed(l: Limits, calls: seq<Call>, failures: nat, timeouts: nat) {
    && ScheduledBy(l, INITIAL_COUNTERS, calls) == [] && NoSuccess(l, INITIAL_COUNTERS, calls)
    && CountedCalls(l, INITIAL_COUNTERS, calls) == failures + timeouts
    && After(l, INITIAL_COUNTERS, calls).failures == failures && After(l, INITIAL_COUNTERS, calls).timeouts == timeouts
  }

  lemma {:induction false} FailuresUnnoticed(l: Limits, f: nat)
    requires l.failures == 0 || f <= l.failures
    ensures Unnoticed(l, Quietest(f, 0), f, 0) && After(l, INITIAL_COUNTERS, Quietest(f, 0)).cooldown <= 0
    decreases f
  {
    if f == 0 {
      assert Quietest(0, 0) == [];
    } else {
      FailuresUnnoticed(l, f - 1);
      QuietestSplit(f, 0);
      FailureStep(l, After(l, INITIAL_COUNTERS, Quietest(f - 1, 0)));
      OneMoreCall(l, Quietest(f - 1, 0), Call(DecodeFails, true), Quietest(f, 0));
    }
  }

  /**
   The bound is tight: up to F failures and then up to T timeouts schedule nothing; a limit of 0 allows
   any number.
   */
  lemma {:induction false} DetectionIsTight(l: Limits, f: nat, t: nat)
    requires (l.failures == 0 || f <= l.failures) && (l.timeouts == 0 || t <= l.timeouts)
    ensures Unnoticed(l, Quietest(f, t), f, t)
    decreases t
  {
    if t == 0 {
      FailuresUnnoticed(l, f);
    } else {
      DetectionIsTight(l, f, t - 1);
      QuietestSplit(f, t);
      TimeoutStep(l, After(l, INITIAL_COUNTERS, Quietest(f, t - 1)));
      OneMoreCall(l, Quietest(f, t - 1), Call(TimesOut, true), Quietest(f, t));
    }
  }

  /**
   The exact bound. Every run without a success that has n counted calls has scheduled a report or a
   reconnect if and only if both limits are on and n is at least F+T+1.
   */
  lemma DetectionExactlyWhen(l: Limits, n: nat)
    ensures
      (forall calls: seq<Call> |
         NoSuccess(l, INITIAL_COUNTERS, calls) && CountedCalls(l, INITIAL_COUNTERS, calls) == n ::
         ScheduledBy(l, INITIAL_COUNTERS, calls) != [])
      <==> l.failures >= 1 && l.timeouts >= 1 && n >= l.failures + l.timeouts + 1
  {
    if l.failures >= 1 && l.timeouts >= 1 && n >= l.failures + l.timeouts + 1 {
      forall calls: seq<Call> | NoSuccess(l, INITIAL_COUNTERS, calls) && CountedCalls(l, INITIAL_COUNTERS, calls) == n
        ensures ScheduledBy(l, INITIAL_COUNTERS, calls) != []
      {
        BoundedDetection(l, calls);
      }
    } else {
      var f: nat :=
        if l.failures == 0 then n else if l.timeouts == 0 then 0 else if n <= l.failures then n else l.failures;
      DetectionIsTight(l, f, n - f);
      var calls := Quietest(f, n - f);
      assert NoSuccess(l, INITIAL_COUNTERS, calls) && CountedCalls(l, INITIAL_COUNTERS, calls) == n;
      assert ScheduledBy(l, INITIAL_COUNTERS, calls) == [];
    }
  }

  /** Unexpected exceptions are counted nowhere: any number of them goes undetected. */
  lemma {:induction false} BreaksGoUndetected(l: Limits, calls: seq<Call>)
    requires forall i | 0 <= i < |calls| :: calls[i].outcome == Breaks
    ensures ScheduledBy(l, INITIAL_COUNTERS, calls) == [] && After(l, INITIAL_COUNTERS, calls).failures == 0
        && After(l, INITIAL_COUNTERS, calls).timeouts == 0
    ensures After(l, INITIAL_COUNTERS, calls).cooldown <= 0
    decreases |calls|
  {
    if calls != [] { BreaksGoUndetected(l, calls[..|calls| - 1]); }
  }
}
