/** shared/pushward/client.go: the retry loop. Every way out of it reports to the breaker
    exactly once, and the time it spends asleep is bounded. */
module Retry {
  import opened Prelude
  import opened Clock
  import opened Breaker

  const MAX_RETRY_AFTER: nat := 120 * SECOND
  const MAX_BASE: nat := 30 * SECOND
  const MAX_ATTEMPTS: nat := 5
  const MILLISECOND: nat := 1_000_000

  // ---------- How long the server may ask for ----------

  /** n units, the bound applied before the product so that it cannot overflow. */
  function BoundedDelay(n: int, unit: nat): (r: nat)
    requires unit > 0
    ensures r == Max(0, Min(n * unit, MAX_RETRY_AFTER))
    ensures 0 < n <= MAX_RETRY_AFTER / unit ==> r == n * unit
  {
    if n <= 0 then
      NegativeProduct(n, unit);
      0
    else if n > MAX_RETRY_AFTER / unit then
      PastTheBound(n, unit, MAX_RETRY_AFTER);
      MAX_RETRY_AFTER
    else
      WithinTheBound(n, unit, MAX_RETRY_AFTER);
      n * unit
  }

  lemma NegativeProduct(n: int, unit: nat)
    requires n <= 0
    ensures n * unit <= 0
  {
  }

  lemma ProductOrder(a: int, b: int, unit: nat)
    requires a <= b
    ensures a * unit <= b * unit
  {
    assert (b - a) * unit >= 0;
  }

  lemma PastTheBound(n: int, unit: nat, bound: nat)
    requires unit > 0 && n > bound / unit
    ensures n * unit > bound
  {
    var q := bound / unit;
    ProductOrder(q + 1, n, unit);
    assert (q + 1) * unit == q * unit + unit;
  }

  lemma WithinTheBound(n: int, unit: nat, bound: nat)
    requires unit > 0 && n <= bound / unit
    ensures n * unit <= bound
  {
    ProductOrder(n, bound / unit, unit);
  }

  /** A Retry-After header: digits within int64, digits beyond it, a date that lies until
      nanoseconds ahead, or nothing usable. */
  datatype RetryAfter = NoHeader | Digits(n: int) | TooManyDigits(negative: bool) | Date(until: int) | Garbled

  function ParseRetryAfter(h: RetryAfter): nat {
    match h
    case Digits(n) => BoundedDelay(n, SECOND)
    case TooManyDigits(negative) => if negative then 0 else MAX_RETRY_AFTER
    case Date(until) => if until > 0 then until else 0
    case _ => 0
  }

  function ThrottleDelay(h: RetryAfter, retryAfterMs: int): (r: nat)
    ensures r <= MAX_RETRY_AFTER
    ensures h.Digits? && h.n > 0 ==> r == Min(h.n * SECOND, MAX_RETRY_AFTER)
    ensures h.Date? && h.until > 0 ==> r == Min(h.until, MAX_RETRY_AFTER)
    ensures h == NoHeader ==> r == Max(0, Min(retryAfterMs * MILLISECOND, MAX_RETRY_AFTER))
  {
    var d := ParseRetryAfter(h);
    var hinted := if d == 0 then BoundedDelay(retryAfterMs, MILLISECOND) else d;
    Min(hinted, MAX_RETRY_AFTER)
  }

  // ---------- One call ----------

  datatype Code = QuotaExceeded | AnswerWaitLimit | Other

  /** What one attempt meets. */
  datatype Reply =
    | Unbuildable
    | NoAnswer
    | Answer(status: int, code: Code, retryAfter: RetryAfter, retryAfterMs: int, decodes: bool, resolved: bool)

  /** The body does not marshal, a conflict handler is given, the retry budget (zero: none). */
  datatype Request = Request(marshals: bool, handlesConflict: bool, budget: nat)

  /** What the world does: the reply to attempt k and how long it took, and before attempt k
      the jitter drawn and whether the caller gave up during the pause. */
  datatype World = World(reply: nat -> Reply, took: nat -> nat, jitter: nat -> nat, cancelled: nat -> bool)

  datatype Result = NoError | CircuitOpen | Unsent | Cancelled | BadBody | ConflictResult | HttpError | MaxRetries | BudgetSpent

  predicate Is2xx(r: Reply) { r.Answer? && 200 <= r.status < 300 }

  predicate Throttled(r: Reply) { r.Answer? && r.status == 429 }

  predicate ResolvesConflict(q: Request, r: Reply) {
    r.Answer? && r.status == 409 && q.handlesConflict && r.resolved
  }

  /** A refusal that no retry can change. */
  predicate Refused(q: Request, r: Reply) {
    && r.Answer? && 400 <= r.status < 500
    && (r.status == 409 ==> !q.handlesConflict)
    && (r.status == 429 ==> r.code != Other)
  }

  /** The replies that the loop goes round again for. */
  predicate Retries(q: Request, r: Reply) {
    !r.Unbuildable? && !Is2xx(r) && !ResolvesConflict(q, r) && !Refused(q, r)
  }

  function Base(attempt: nat): nat
    requires 1 <= attempt < MAX_ATTEMPTS
  {
    Min(SECOND * (match attempt case 1 => 1 case 2 => 2 case 3 => 4 case _ => 8), MAX_BASE)
  }

  /** What the last reply asked for, if it throttled. */
  function Hint(r: Reply): nat {
    if Throttled(r) then ThrottleDelay(r.retryAfter, r.retryAfterMs) else 0
  }

  /** The wait before an attempt: the server's hint, else half the base plus jitter. */
  function Backoff(w: World, attempt: nat): (b: nat)
    requires 1 <= attempt < MAX_ATTEMPTS
    ensures b <= MAX_RETRY_AFTER
    ensures b > 0
  {
    var hint := Hint(w.reply(attempt - 1));
    var half := Base(attempt) / 2;
    if hint > 0 then hint else half + w.jitter(attempt) % half
  }

  /** What the call is asleep for before the first n attempts, and how long it has run
      once n of them were answered. */
  function Slept(w: World, n: nat): nat
    requires n <= MAX_ATTEMPTS
  {
    if n <= 1 then 0 else Slept(w, n - 1) + Backoff(w, n - 1)
  }

  function Elapsed(w: World, n: nat): nat
    requires n <= MAX_ATTEMPTS
  {
    if n == 0 then 0 else Elapsed(w, n - 1) + (if n == 1 then 0 else Backoff(w, n - 1)) + w.took(n - 1)
  }

  predicate OverBudget(q: Request, w: World, attempt: nat)
    requires 1 <= attempt < MAX_ATTEMPTS
  {
    q.budget > 0 && Elapsed(w, attempt) + Backoff(w, attempt) > q.budget
  }

  /** The first n attempts all came back retryable, and nothing stopped the pauses
      between them. */
  ghost predicate WentRound(q: Request, w: World, n: nat)
    requires n <= MAX_ATTEMPTS
  {
    && (forall k :: 0 <= k < n - 1 ==> Retries(q, w.reply(k)))
    && (forall k :: 1 <= k < n ==> !OverBudget(q, w, k) && !w.cancelled(k))
  }

  /** How one attempted call ends. */
  datatype Ending = Ending(result: Result, signal: Signal, attempts: nat)

  /** How the call ends, read off the world without running it: the last reply was final,
      or the pause after it did not lead to another attempt, or it was the fifth. */
  ghost predicate EndsWith(q: Request, w: World, e: Ending) {
    if !q.marshals then e == Ending(Unsent, Signal.Abort, 0)
    else
      && 1 <= e.attempts <= MAX_ATTEMPTS && WentRound(q, w, e.attempts)
      && var last := w.reply(e.attempts - 1);
      && (last.Unbuildable? ==> e.result == Unsent && e.signal == Signal.Abort)
      && (Is2xx(last) ==> e.result == (if last.decodes then NoError else BadBody) && e.signal == Success)
      && (ResolvesConflict(q, last) ==> e.result == ConflictResult && e.signal == Reachable)
      && (Refused(q, last) ==> e.result == HttpError && e.signal == Reachable)
      && (Retries(q, last) ==> GaveUp(q, w, e, last))
  }

  ghost predicate GaveUp(q: Request, w: World, e: Ending, last: Reply)
    requires 1 <= e.attempts <= MAX_ATTEMPTS
  {
    if e.attempts == MAX_ATTEMPTS then e.result == MaxRetries && e.signal == Exhausted(q, last)
    else if OverBudget(q, w, e.attempts) then e.result == BudgetSpent && e.signal == Exhausted(q, last)
    else w.cancelled(e.attempts) && e.result == Cancelled && e.signal == Signal.Abort
  }

  /** Being throttled to the end proves the backend is up; anything else is a fault. */
  function Exhausted(q: Request, last: Reply): Signal {
    if Throttled(last) then Reachable else Failure
  }

  // ---------- The loop ----------

  /** Whether a reply ends the call, and what the next pause has to know. */
  datatype Verdict = Final(result: Result, signal: Signal) | Again(throttled: bool, override: nat)

  ghost predicate Rules(q: Request, last: Reply, v: Verdict) {
    && (last.Unbuildable? ==> v == Final(Unsent, Signal.Abort))
    && (Is2xx(last) ==> v == Final(if last.decodes then NoError else BadBody, Success))
    && (ResolvesConflict(q, last) ==> v == Final(ConflictResult, Reachable))
    && (Refused(q, last) ==> v == Final(HttpError, Reachable))
    && (Retries(q, last) ==> v == Again(Throttled(last), Hint(last)))
  }

  /** The branches over one reply, in the program's order. */
  method Judge(q: Request, reply: Reply) returns (v: Verdict)
    ensures Rules(q, reply, v)
  {
    match reply {
      case Unbuildable => return Final(Unsent, Signal.Abort);
      case NoAnswer => return Again(false, 0);
      case Answer(status, code, retryAfter, retryAfterMs, decodes, resolved) =>
        if status == 409 && q.handlesConflict {
          return if resolved then Final(ConflictResult, Reachable) else Again(false, 0);
        }
        if 200 <= status < 300 {
          return Final(if decodes then NoError else BadBody, Success);
        }
        if status == 429 {
          return if code != Other then Final(HttpError, Reachable) else Again(true, ThrottleDelay(retryAfter, retryAfterMs));
        }
        return if 400 <= status < 500 then Final(HttpError, Reachable) else Again(false, 0);
    }
  }

  /** The wait before the next attempt, given what the last reply asked for. */
  method Pause(w: World, attempt: nat, override: nat) returns (backoff: nat)
    requires 1 <= attempt < MAX_ATTEMPTS && override == Hint(w.reply(attempt - 1))
    ensures backoff == Backoff(w, attempt)
  {
    backoff := override;
    if backoff == 0 {
      var half := Base(attempt) / 2;
      backoff := half + w.jitter(attempt) % half;
    }
  }

  lemma OneMoreRound(q: Request, w: World, n: nat)
    requires n < MAX_ATTEMPTS && WentRound(q, w, n)
    requires n > 0 ==> Retries(q, w.reply(n - 1)) && !OverBudget(q, w, n) && !w.cancelled(n)
    ensures WentRound(q, w, n + 1)
  {
    hide Retries, OverBudget;
  }

  /** The loop itself, for a call the breaker admitted. Each way out makes its own report,
      as the program does; the contract says they add up to exactly one, and which. */
  method Attempted(q: Request, w: World) returns (result: Result, attempts: nat, reports: seq<Signal>, slept: nat)
    ensures |reports| == 1 && EndsWith(q, w, Ending(result, reports[0], attempts))
    ensures attempts <= MAX_ATTEMPTS && slept == Slept(w, attempts)
  {
    hide WentRound, Retries, Hint, Throttled, Is2xx, ResolvesConflict, Refused, Backoff;
    reports, attempts, slept := [], 0, 0;
    if !q.marshals {
      return Unsent, 0, [Signal.Abort], 0;
    }
    var lastThrottled, budgetExhausted := false, false;
    var override: nat := 0;
    var elapsed: nat := 0;
    assert WentRound(q, w, 0) by { NoRound(q, w); }
    while attempts < MAX_ATTEMPTS
      invariant attempts <= MAX_ATTEMPTS && WentRound(q, w, attempts)
      invariant attempts > 0 ==> Rules(q, w.reply(attempts - 1), Again(lastThrottled, override)) && Retries(q, w.reply(attempts - 1))
      invariant elapsed == Elapsed(w, attempts) && slept == Slept(w, attempts)
      invariant !budgetExhausted && reports == []
    {
      if attempts > 0 {
        var backoff := Pause(w, attempts, override);
        if q.budget > 0 && elapsed + backoff > q.budget {
          budgetExhausted := true;
          break;
        }
        if w.cancelled(attempts) {
          return Cancelled, attempts, reports + [Signal.Abort], slept;
        }
        slept := slept + backoff;
        elapsed := elapsed + backoff;
      }
      OneMoreRound(q, w, attempts);
      elapsed := elapsed + w.took(attempts);
      var verdict := Judge(q, w.reply(attempts));
      attempts := attempts + 1;
      EveryReplyIsJudged(q, w.reply(attempts - 1), verdict);
      if verdict.Final? {
        return verdict.result, attempts, reports + [verdict.signal], slept;
      }
      lastThrottled, override := verdict.throttled, verdict.override;
    }
    result := if budgetExhausted then BudgetSpent else MaxRetries;
    reports := reports + [if lastThrottled then Reachable else Failure];
  }

  lemma NoRound(q: Request, w: World)
    ensures WentRound(q, w, 0)
  {
  }

  lemma EveryReplyIsJudged(q: Request, last: Reply, v: Verdict)
    requires Rules(q, last, v)
    ensures v.Again? <==> Retries(q, last)
  {
  }

  /** One call through a client, its breaker included when there is one. A call that was
      not admitted reports nothing. */
  method DoWithRetry(admitted: bool, q: Request, w: World) returns (result: Result, attempts: nat, reports: seq<Signal>, slept: nat)
    ensures |reports| == (if admitted then 1 else 0)
    ensures !admitted <==> result == CircuitOpen
    ensures admitted ==> EndsWith(q, w, Ending(result, reports[0], attempts))
    ensures attempts <= MAX_ATTEMPTS && slept == Slept(w, attempts)
  {
    if !admitted {
      return CircuitOpen, 0, [], 0;
    }
    result, attempts, reports, slept := Attempted(q, w);
  }

  // ---------- What the contract comes to ----------

  /** The specification leaves no choice: it names one ending for every world. */
  lemma OneEnding(q: Request, w: World, a: Ending, b: Ending)
    requires EndsWith(q, w, a) && EndsWith(q, w, b)
    ensures a == b
  {
    if q.marshals {
      NoFurther(q, w, a, b);
      NoFurther(q, w, b, a);
      OneVerdict(q, w.reply(a.attempts - 1));
    }
  }

  lemma OneVerdict(q: Request, r: Reply)
    ensures !r.Unbuildable? && !Is2xx(r) && !ResolvesConflict(q, r) && !Refused(q, r) <==> Retries(q, r)
    ensures Is2xx(r) ==> !ResolvesConflict(q, r) && !Refused(q, r)
  {
  }

  lemma Continued(q: Request, w: World, n: nat, m: nat)
    requires 1 <= n && m <= MAX_ATTEMPTS && WentRound(q, w, m)
    ensures n < m ==> Retries(q, w.reply(n - 1)) && !OverBudget(q, w, n) && !w.cancelled(n)
  {
  }

  lemma Stopped(q: Request, w: World, e: Ending)
    requires q.marshals && EndsWith(q, w, e)
    ensures e.attempts < MAX_ATTEMPTS ==> !Retries(q, w.reply(e.attempts - 1)) || OverBudget(q, w, e.attempts) || w.cancelled(e.attempts)
  {
  }

  lemma NoFurther(q: Request, w: World, a: Ending, b: Ending)
    requires q.marshals && EndsWith(q, w, a) && EndsWith(q, w, b)
    ensures a.attempts >= b.attempts
  {
    Stopped(q, w, a);
    Continued(q, w, a.attempts, b.attempts);
  }

  lemma {:induction false} SleepIsElapsed(w: World, n: nat)
    requires n <= MAX_ATTEMPTS
    ensures Slept(w, n) <= Elapsed(w, n)
    ensures Slept(w, n) <= (if n == 0 then 0 else n - 1) * MAX_RETRY_AFTER
  {
    hide Backoff;
    if n > 0 {
      SleepIsElapsed(w, n - 1);
    }
  }

  /** A budget bounds the time asleep, whatever the server asks for; without one it is at
      most four full waits. */
  lemma SleepIsBounded(q: Request, w: World, e: Ending)
    requires EndsWith(q, w, e)
    ensures e.attempts <= MAX_ATTEMPTS
    ensures q.budget > 0 ==> Slept(w, e.attempts) <= q.budget
    ensures Slept(w, e.attempts) <= 4 * MAX_RETRY_AFTER
  {
    var n := e.attempts;
    if n > 1 {
      SleepIsElapsed(w, n - 1);
      SleepIsElapsed(w, n);
      assert !OverBudget(q, w, n - 1);
    }
  }

  /** A call counts against the breaker exactly when it ran out of retries or of budget on
      something other than throttling. */
  lemma WhenACallIsAFault(q: Request, w: World, e: Ending)
    requires EndsWith(q, w, e)
    ensures e.signal == Failure <==>
      && q.marshals && Retries(q, w.reply(e.attempts - 1)) && !Throttled(w.reply(e.attempts - 1))
      && (e.attempts == MAX_ATTEMPTS || OverBudget(q, w, e.attempts))
  {
    if q.marshals {
      OneVerdict(q, w.reply(e.attempts - 1));
    }
  }

  /** A server that only ever answers 409, to a caller whose handler never resolves it. */
  const ALWAYS_409 := World(k => Answer(409, Other, NoHeader, 0, true, false), k => 0, k => 0, k => false)

  /** The failing input of "only 5xx and network exhaustion": such a call is a fault too. */
  lemma AConflictCanBeAFault(e: Ending)
    ensures EndsWith(Request(true, true, 0), ALWAYS_409, e) <==> e == Ending(MaxRetries, Failure, MAX_ATTEMPTS)
  {
    var q := Request(true, true, 0);
    if EndsWith(q, ALWAYS_409, e) {
      assert Retries(q, ALWAYS_409.reply(e.attempts - 1));
    }
  }

  /** The replies worth another attempt: none at all, a status outside 2xx and 4xx, throttling
      that is not for good, and a conflict its handler leaves open. */
  ghost predicate WorthAnother(q: Request, r: Reply) {
    || r.NoAnswer?
    || (r.Answer? && (r.status < 200 || 300 <= r.status < 400 || r.status >= 500))
    || (r.Answer? && r.status == 429 && r.code == Other)
    || (r.Answer? && r.status == 409 && q.handlesConflict && !r.resolved)
  }

  /** A call goes on exactly while such replies come back and attempts, budget and the caller's
      patience last; any other reply ends it at once with that reply's own result. */
  lemma WhenACallGoesOn(q: Request, w: World, e: Ending)
    requires EndsWith(q, w, e) && q.marshals
    ensures forall k :: 0 <= k < e.attempts - 1 ==> WorthAnother(q, w.reply(k))
    ensures var last := w.reply(e.attempts - 1);
      && (WorthAnother(q, last) <==> e.result in {MaxRetries, BudgetSpent, Cancelled})
      && (e.result == MaxRetries ==> e.attempts == 5)
      && (e.result == BudgetSpent ==> e.attempts < 5 && q.budget > 0 && Elapsed(w, e.attempts) + Backoff(w, e.attempts) > q.budget)
      && (e.result == Cancelled ==> e.attempts < 5 && w.cancelled(e.attempts))
      && (e.result == Unsent <==> last.Unbuildable?)
      && (e.result == NoError <==> last.Answer? && 200 <= last.status < 300 && last.decodes)
      && (e.result == BadBody <==> last.Answer? && 200 <= last.status < 300 && !last.decodes)
      && (e.result == ConflictResult <==> last.Answer? && last.status == 409 && q.handlesConflict && last.resolved)
  {
    hide Elapsed, Backoff;
  }

  /** A success is reported exactly for a 2xx, decoded or not. */
  lemma WhenACallSucceeds(q: Request, w: World, e: Ending)
    requires EndsWith(q, w, e)
    ensures e.signal == Success <==> q.marshals && Is2xx(w.reply(e.attempts - 1))
  {
    if q.marshals {
      OneVerdict(q, w.reply(e.attempts - 1));
    }
  }

  /** Sustained throttling never counts against the breaker, however long it lasts. */
  lemma ThrottlingIsNoFault(q: Request, w: World, e: Ending)
    requires EndsWith(q, w, e) && q.marshals
    requires forall k :: 0 <= k < MAX_ATTEMPTS ==> Throttled(w.reply(k))
    ensures e.signal != Failure && e.signal != Success
  {
    WhenACallIsAFault(q, w, e);
    WhenACallSucceeds(q, w, e);
  }

  /** A throttled reply's hint is waited out exactly; without one the wait lies between half
      of and a whole base, which doubles from one second. */
  lemma WaitsAsAsked(w: World, attempt: nat)
    requires 1 <= attempt < MAX_ATTEMPTS
    ensures var hint := Hint(w.reply(attempt - 1));
      && (hint > 0 ==> Backoff(w, attempt) == hint)
      && (hint == 0 ==> Base(attempt) / 2 <= Backoff(w, attempt) < Base(attempt))
    ensures Base(1) == SECOND && (attempt > 1 ==> Base(attempt) == 2 * Base(attempt - 1))
  {
    hide Hint;
  }

  lemma {:induction false} UnhintedSleep(w: World, n: nat)
    requires n <= MAX_ATTEMPTS && forall k :: 0 <= k < MAX_ATTEMPTS ==> Hint(w.reply(k)) == 0
    ensures n <= 1 ==> Slept(w, n) == 0
    ensures n > 1 ==> Base(n - 1) - SECOND / 2 <= Slept(w, n) < 2 * Base(n - 1) - SECOND
    decreases n
  {
    if n > 1 {
      UnhintedSleep(w, n - 1);
      WaitsAsAsked(w, n - 1);
      hide Hint, Backoff;
    }
  }

  /** Half of one, two, four or eight seconds, and what the jitter adds of another half. */
  ghost predicate Unhinted(w: World, attempt: nat, wait: nat) {
    var half := 500_000_000 * if attempt == 1 then 1 else if attempt == 2 then 2 else if attempt == 3 then 4 else 8;
    wait == half + w.jitter(attempt) % half
  }

  /** How long a throttled reply has the call wait: what its header asks for, up to two minutes,
      if that is anything; else what its body asks for, up to two minutes, if that is. Any other
      wait is the attempt's own. */
  lemma WhatAHintIs(w: World, attempt: nat)
    requires 1 <= attempt < MAX_ATTEMPTS
    ensures var r := w.reply(attempt - 1);
      && (r.Answer? && r.status == 429 ==>
          var header := match r.retryAfter
            case Digits(n) => Max(0, Min(n * 1_000_000_000, 120_000_000_000))
            case TooManyDigits(negative) => if negative then 0 else 120_000_000_000
            case Date(until) => Max(0, Min(until, 120_000_000_000))
            case _ => 0;
          var body := Max(0, Min(r.retryAfterMs * 1_000_000, 120_000_000_000));
          && (header > 0 ==> Backoff(w, attempt) == header)
          && (header == 0 && body > 0 ==> Backoff(w, attempt) == body)
          && (header == 0 && body == 0 ==> Unhinted(w, attempt, Backoff(w, attempt))))
      && (!(r.Answer? && r.status == 429) ==> Unhinted(w, attempt, Backoff(w, attempt)))
  {
    var r := w.reply(attempt - 1);
    if r.Answer? && r.retryAfter.Digits? {
      assert BoundedDelay(r.retryAfter.n, SECOND) == Max(0, Min(r.retryAfter.n * SECOND, MAX_RETRY_AFTER));
    }
    hide BoundedDelay;
  }

  /** Five attempts with no hint sleep between 7.5 and 15 seconds. */
  lemma ScheduleWithoutHints(w: World)
    requires forall k :: 0 <= k < MAX_ATTEMPTS ==> Hint(w.reply(k)) == 0
    ensures 15 * SECOND / 2 <= Slept(w, MAX_ATTEMPTS) < 15 * SECOND
  {
    UnhintedSleep(w, MAX_ATTEMPTS);
  }
}
