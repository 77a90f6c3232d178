/** Retries of failed jobs: the merged policy, the doubling delay in 64-bit arithmetic, and how
    many retries a job gets. Durations are nanosecond counts. */
module Retry {
  import opened Base

  const TWO63: int := 0x8000_0000_0000_0000
  const TWO64: int := 0x1_0000_0000_0000_0000

  /** Two's complement wrap-around of a 64-bit signed integer. */
  function Wrap(x: int): (r: int)
    ensures -TWO63 <= r < TWO63 && (x - r) % TWO64 == 0
  {
    (x + TWO63) % TWO64 - TWO63
  }

  function Pow2(n: nat): (r: int)
    ensures r >= 1
  {
    if n == 0 then 1 else 2 * Pow2(n - 1)
  }

  datatype Policy = Policy(maxAttempts: int, delay: int, maxDelay: int)

  predicate Representable(p: Policy) {
    -TWO63 <= p.delay < TWO63 && -TWO63 <= p.maxDelay < TWO63
  }

  /** mergeRetryPolicy. */
  function Merge(task: Policy, defaults: Policy): Policy {
    Policy(
      if task.maxAttempts == 0 then defaults.maxAttempts else task.maxAttempts,
      if task.delay == 0 then defaults.delay else task.delay,
      if task.maxDelay == 0 then defaults.maxDelay else task.maxDelay)
  }

  /** The policy handleJobError goes by; a task that cannot be looked up leaves the defaults. */
  function Effective(task: Option<Policy>, defaults: Policy): Policy {
    if task.Some? then Merge(task.value, defaults) else defaults
  }

  /** The task's own settings win wherever it has any, the defaults fill the rest. */
  lemma EffectivePolicy(task: Option<Policy>, defaults: Policy)
    ensures var p := Effective(task, defaults);
            && (task.Some? && task.value.maxAttempts != 0 ==> p.maxAttempts == task.value.maxAttempts)
            && (task.Some? && task.value.delay != 0 ==> p.delay == task.value.delay)
            && (task.Some? && task.value.maxDelay != 0 ==> p.maxDelay == task.value.maxDelay)
            && (task.None? || task.value.maxAttempts == 0 ==> p.maxAttempts == defaults.maxAttempts)
            && (task.None? || task.value.delay == 0 ==> p.delay == defaults.delay)
            && (task.None? || task.value.maxDelay == 0 ==> p.maxDelay == defaults.maxDelay)
  {
  }

  // ---- the delay ----

  /** The delay before any wrap-around: it doubles with every attempt after the first. */
  function Doubled(p: Policy, attempt: int): int {
    p.delay * Pow2(if attempt > 1 then attempt - 1 else 0)
  }

  function Capped(p: Policy, d: int): int {
    if p.maxDelay > 0 && d > p.maxDelay then p.maxDelay else d
  }

  /** Exponential backoff with a ceiling, over unbounded integers. */
  function Backoff(p: Policy, attempt: int): int {
    Capped(p, Doubled(p, attempt))
  }

  lemma ModUnique(a: int, m: int, q1: int, r1: int, q2: int, r2: int)
    requires m > 0 && a == q1 * m + r1 == q2 * m + r2 && 0 <= r1 < m && 0 <= r2 < m
    ensures r1 == r2
  {
    var d := q1 - q2;
    assert d * m == r2 - r1;
    assert d >= 1 ==> d * m >= m;
    assert d <= -1 ==> d * m <= -m;
  }

  lemma WrapIsModular(x: int, y: int, k: int)
    requires x == y + k * TWO64
    ensures Wrap(x) == Wrap(y)
  {
    var a, b := x + TWO63, y + TWO63;
    assert a == b + k * TWO64;
    ModUnique(a, TWO64, a / TWO64, a % TWO64, b / TWO64 + k, b % TWO64);
  }

  lemma WrapTwice(x: int)
    ensures Wrap(Wrap(x) * 2) == Wrap(x * 2)
  {
    var q := (x + TWO63) / TWO64;
    assert Wrap(x) == x - q * TWO64;
    WrapIsModular(Wrap(x) * 2, x * 2, -2 * q);
  }

  lemma DoubledNext(p: Policy, i: int)
    requires i >= 1
    ensures Doubled(p, i + 1) == Doubled(p, i) * 2
  {
  }

  /** The intended backoff: the base delay for the first retry, twice the last one for every further
      retry, and never above a ceiling. */
  lemma BackoffDoubles(p: Policy, attempt: int)
    requires p.delay > 0
    ensures attempt <= 1 ==> Backoff(p, attempt) == if 0 < p.maxDelay < p.delay then p.maxDelay else p.delay
    ensures attempt >= 1 ==>
            var twice := 2 * Backoff(p, attempt);
            Backoff(p, attempt + 1) == if 0 < p.maxDelay < twice then p.maxDelay else twice
  {
    if attempt >= 1 {
      DoubledNext(p, attempt);
    }
  }

  /** retryDelay, with the loop that doubles in 64 bits. */
  method RetryDelay(p: Policy, attempt: int) returns (delay: int)
    requires Representable(p)
    ensures delay == Capped(p, Wrap(Doubled(p, attempt)))
  {
    if p.delay == 0 {
      return 0;
    }
    delay := p.delay;
    var i := 1;
    while i < attempt
      invariant 1 <= i && (attempt >= 1 ==> i <= attempt) && (attempt < 1 ==> i == 1)
      invariant delay == Wrap(Doubled(p, i))
    {
      WrapTwice(Doubled(p, i));
      DoubledNext(p, i);
      delay := Wrap(delay * 2);
      i := i + 1;
    }
    if p.maxDelay > 0 && delay > p.maxDelay {
      delay := p.maxDelay;
    }
  }

  lemma Positive(a: int, b: int)
    requires a > 0 && b > 0
    ensures a * b >= a
  {
  }

  /** The computed delay is the intended backoff exactly if the doubled delay still fits, or what
      is left of it after wrapping happens to reach the ceiling. */
  lemma BackoffIff(p: Policy, attempt: int)
    requires Representable(p) && p.delay > 0
    ensures Capped(p, Wrap(Doubled(p, attempt))) == Backoff(p, attempt) <==>
            Doubled(p, attempt) < TWO63 || (p.maxDelay > 0 && Wrap(Doubled(p, attempt)) >= p.maxDelay)
  {
    var x := Doubled(p, attempt);
    assert x >= 1 by {
      Positive(p.delay, Pow2(if attempt > 1 then attempt - 1 else 0));
    }
    if x < TWO63 {
      assert Wrap(x) == x;
    }
  }

  /** While the largest delay a policy can ask for fits, no retry of a job sees a wrapped one:
      delays are the intended ones, never negative, and never shrink from one retry to the next. */
  lemma {:induction false} DelaysGrow(p: Policy, attempt: int, last: int)
    requires Representable(p) && p.delay > 0 && 1 <= attempt <= last && Doubled(p, last) < TWO63
    ensures Doubled(p, attempt) <= Doubled(p, last)
    ensures Capped(p, Wrap(Doubled(p, attempt))) == Backoff(p, attempt)
    ensures 0 < Backoff(p, attempt) <= Backoff(p, last)
    decreases last - attempt
  {
    Positive(p.delay, Pow2(if attempt > 1 then attempt - 1 else 0));
    if attempt < last {
      DelaysGrow(p, attempt + 1, last);
      DoubledNext(p, attempt);
    }
    BackoffIff(p, attempt);
  }

  lemma {:induction false} Pow2Add(a: nat, b: nat)
    ensures Pow2(a + b) == Pow2(a) * Pow2(b)
    decreases a
  {
    if a > 0 {
      Pow2Add(a - 1, b);
      assert Pow2(a + b) == 2 * Pow2(a - 1 + b);
    }
  }

  /** A one-second delay without ceiling turns negative at the 35th attempt. */
  lemma DelayGoesNegative()
    ensures var p := Policy(40, 1_000_000_000, 0);
            Representable(p) && Capped(p, Wrap(Doubled(p, 35))) < 0
  {
    var p := Policy(40, 1_000_000_000, 0);
    Pow2Add(8, 8);
    Pow2Add(16, 16);
    Pow2Add(32, 2);
    assert Pow2(8) == 256;
    assert Pow2(34) == 17179869184;
    assert Doubled(p, 35) == 17179869184 * 1_000_000_000;
  }

  // ---- the number of retries ----

  /** The exit codes after which a job is failed at once. */
  datatype NoRetry = NoRetry(panicCode: int, from: int, to: int)

  predicate Permanent(n: NoRetry, code: int) {
    code == n.panicCode || n.from <= code <= n.to
  }

  datatype Verdict = Retried(attempts: int) | FailedForGood(attempts: int)

  /** handleJobError for a job read with this many attempts. */
  function OnError(n: NoRetry, p: Policy, attempts: int, code: int): Verdict {
    if !Permanent(n, code) && attempts + 1 < p.maxAttempts then Retried(attempts + 1)
    else FailedForGood(attempts + 1)
  }

  /** Error reports for one job, each handled after the one before. */
  function AfterErrors(n: NoRetry, p: Policy, attempts: int, codes: seq<int>): Verdict
    requires codes != []
    decreases |codes|
  {
    var first := OnError(n, p, attempts, codes[0]);
    if |codes| == 1 || first.FailedForGood? then first
    else AfterErrors(n, p, first.attempts, codes[1..])
  }

  /** A job is still alive after its errors exactly if there were fewer than MaxAttempts of them
      and none was permanent; so it fails no later than at the MaxAttempts-th error, after at most
      MaxAttempts - 1 retries. */
  lemma {:induction false} RetryBound(n: NoRetry, p: Policy, attempts: nat, codes: seq<int>)
    requires codes != []
    ensures AfterErrors(n, p, attempts, codes).Retried? <==>
            attempts + |codes| < p.maxAttempts && forall i :: 0 <= i < |codes| ==> !Permanent(n, codes[i])
    ensures AfterErrors(n, p, attempts, codes).attempts <= attempts + |codes|
    ensures AfterErrors(n, p, attempts, codes).attempts <= attempts + 1
            || AfterErrors(n, p, attempts, codes).attempts <= p.maxAttempts
    decreases |codes|
  {
    if |codes| > 1 && OnError(n, p, attempts, codes[0]).Retried? {
      RetryBound(n, p, attempts + 1, codes[1..]);
      assert codes == [codes[0]] + codes[1..];
    }
  }

  /** A job's whole life: it fails at the first permanent error or at the MaxAttempts-th one,
      whichever comes first, and not before. */
  lemma FailsByMaxAttempts(n: NoRetry, task: Option<Policy>, defaults: Policy, codes: seq<int>)
    requires codes != []
    ensures var end := AfterErrors(n, Effective(task, defaults), 0, codes);
            var max := if task.Some? && task.value.maxAttempts != 0 then task.value.maxAttempts
                       else defaults.maxAttempts;
            && (end.FailedForGood? <==>
                  || |codes| >= max
                  || exists i :: 0 <= i < |codes| && (codes[i] == n.panicCode || n.from <= codes[i] <= n.to))
            && end.attempts <= (if max < 1 then 1 else max)
  {
    RetryBound(n, Effective(task, defaults), 0, codes);
    EffectivePolicy(task, defaults);
  }

  // ---- error reports that overlap ----

  /** A handler in flight: the attempt count it read, its exit code, and whether it has written the
      raised count back. */
  datatype Report = Report(attempts: int, code: int, recorded: bool)

  /** One job while its error reports are handled concurrently. */
  datatype Errors = Errors(stored: int, failed: bool, reports: seq<Report>, retries: nat)

  datatype Step =
    | Read(code: int)  // handleResultMessage reads the job
    | Record(i: nat)   // UpdateJob writes the attempts
    | Settle(i: nat)   // a retry is scheduled, or UpdateJob writes Failed

  predicate Low(p: Policy, attempts: int) {
    attempts + 1 < p.maxAttempts
  }

  predicate Can(e: Errors, step: Step) {
    match step
    case Read(_) => true
    case Record(i) => i < |e.reports| && !e.reports[i].recorded
    case Settle(i) => i < |e.reports| && e.reports[i].recorded
  }

  /** The report will end in a retry. */
  predicate Due(n: NoRetry, p: Policy, r: Report) {
    OnError(n, p, r.attempts, r.code).Retried?
  }

  /** A failed job is terminal: its later reports are ignored. */
  function Do(n: NoRetry, p: Policy, e: Errors, step: Step): Errors
    requires Can(e, step)
  {
    match step
    case Read(code) => if e.failed then e else e.(reports := e.reports + [Report(e.stored, code, false)])
    case Record(i) =>
      e.(stored := e.reports[i].attempts + 1, reports := e.reports[i := e.reports[i].(recorded := true)])
    case Settle(i) =>
      var retry := Due(n, p, e.reports[i]);
      e.(failed := e.failed || !retry, reports := e.reports[..i] + e.reports[i + 1..],
         retries := e.retries + One(retry))
  }

  predicate Runs(n: NoRetry, p: Policy, e: Errors, steps: seq<Step>)
    decreases |steps|
  {
    steps == [] || (Can(e, steps[0]) && Runs(n, p, Do(n, p, e, steps[0]), steps[1..]))
  }

  function After(n: NoRetry, p: Policy, e: Errors, steps: seq<Step>): Errors
    requires Runs(n, p, e, steps)
    decreases |steps|
  {
    if steps == [] then e else After(n, p, Do(n, p, e, steps[0]), steps[1..])
  }

  lemma {:induction false} RunsConcat(n: NoRetry, p: Policy, e: Errors, a: seq<Step>, b: seq<Step>)
    requires Runs(n, p, e, a) && Runs(n, p, After(n, p, e, a), b)
    ensures Runs(n, p, e, a + b) && After(n, p, e, a + b) == After(n, p, After(n, p, e, a), b)
    decreases |a|
  {
    hide Can, Do;
    if a == [] {
      assert a + b == b;
    } else {
      assert (a + b)[1..] == a[1..] + b;
      RunsConcat(n, p, Do(n, p, e, a[0]), a[1..], b);
    }
  }

  // ---- accounting over every interleaving ----

  /** How many reports in flight will end in a retry. */
  function Dues(n: NoRetry, p: Policy, reports: seq<Report>): nat {
    if reports == [] then 0
    else Dues(n, p, reports[..|reports| - 1]) + One(Due(n, p, reports[|reports| - 1]))
  }

  lemma {:induction false} DuesConcat(n: NoRetry, p: Policy, a: seq<Report>, b: seq<Report>)
    ensures Dues(n, p, a + b) == Dues(n, p, a) + Dues(n, p, b)
    decreases |b|
  {
    if b == [] {
      assert a + b == a;
    } else {
      var m := |b| - 1;
      DuesConcat(n, p, a, b[..m]);
      assert (a + b)[..|a + b| - 1] == a + b[..m];
    }
  }

  lemma DuesOf(n: NoRetry, p: Policy, r: Report)
    ensures Dues(n, p, [r]) == One(Due(n, p, r))
  {
    assert [r][..0] == [];
  }

  lemma DuesSplit(n: NoRetry, p: Policy, reports: seq<Report>, i: nat)
    requires i < |reports|
    ensures Dues(n, p, reports) == Dues(n, p, reports[..i]) + One(Due(n, p, reports[i])) + Dues(n, p, reports[i + 1..])
  {
    assert reports == reports[..i] + ([reports[i]] + reports[i + 1..]);
    DuesConcat(n, p, reports[..i], [reports[i]] + reports[i + 1..]);
    DuesConcat(n, p, [reports[i]], reports[i + 1..]);
    DuesOf(n, p, reports[i]);
  }

  /** The step admits a report that will end in a retry. */
  predicate Admits(n: NoRetry, p: Policy, e: Errors, step: Step) {
    step.Read? && !e.failed && Due(n, p, Report(e.stored, step.code, false))
  }

  function Admitted(n: NoRetry, p: Policy, e: Errors, steps: seq<Step>): nat
    requires Runs(n, p, e, steps)
    decreases |steps|
  {
    if steps == [] then 0
    else One(Admits(n, p, e, steps[0])) + Admitted(n, p, Do(n, p, e, steps[0]), steps[1..])
  }

  /** The retries there are and the retries to come. */
  function Total(n: NoRetry, p: Policy, e: Errors): nat {
    e.retries + Dues(n, p, e.reports)
  }

  lemma StepAccounts(n: NoRetry, p: Policy, e: Errors, step: Step)
    requires Can(e, step)
    ensures Total(n, p, Do(n, p, e, step)) == Total(n, p, e) + One(Admits(n, p, e, step))
  {
    match step
    case Read(code) => {
      var r := Report(e.stored, code, false);
      DuesConcat(n, p, e.reports, [r]);
      DuesOf(n, p, r);
    }
    case Record(i) => {
      var after := e.reports[i := e.reports[i].(recorded := true)];
      DuesSplit(n, p, e.reports, i);
      DuesSplit(n, p, after, i);
      assert after[..i] == e.reports[..i] && after[i + 1..] == e.reports[i + 1..];
    }
    case Settle(i) => {
      DuesSplit(n, p, e.reports, i);
      DuesConcat(n, p, e.reports[..i], e.reports[i + 1..]);
    }
  }

  /** Over every interleaving: a retry is scheduled for every report that was admitted with a count
      and an exit code worth one, no more and no fewer. */
  lemma {:induction false} RunAccounts(n: NoRetry, p: Policy, e: Errors, steps: seq<Step>)
    requires Runs(n, p, e, steps)
    ensures Total(n, p, After(n, p, e, steps)) == Total(n, p, e) + Admitted(n, p, e, steps)
    decreases |steps|
  {
    hide Total, Can, Do, Admits;
    if steps != [] {
      StepAccounts(n, p, e, steps[0]);
      RunAccounts(n, p, Do(n, p, e, steps[0]), steps[1..]);
    }
  }

  // ---- runs that bring the retries about ----

  /** Every report in flight is brought to its end. */
  lemma {:induction false} Finish(n: NoRetry, p: Policy, e: Errors) returns (steps: seq<Step>)
    ensures Runs(n, p, e, steps)
    ensures After(n, p, e, steps).reports == [] && After(n, p, e, steps).retries == Total(n, p, e)
    decreases |e.reports|, if e.reports != [] && !e.reports[0].recorded then 1 else 0
  {
    if e.reports == [] {
      steps := [];
    } else {
      var step := if e.reports[0].recorded then Settle(0) else Record(0);
      StepAccounts(n, p, e, step);
      var rest := Finish(n, p, Do(n, p, e, step));
      steps := [step] + rest;
      hide Total, Can, Do;
      assert steps[1..] == rest;
    }
  }

  function Reads(k: nat, code: int): seq<Step> {
    if k == 0 then [] else [Read(code)] + Reads(k - 1, code)
  }

  lemma {:induction false} ReadsAll(n: NoRetry, p: Policy, e: Errors, k: nat, code: int)
    requires !e.failed && Low(p, e.stored) && !Permanent(n, code)
    ensures Runs(n, p, e, Reads(k, code))
    ensures Total(n, p, After(n, p, e, Reads(k, code))) == Total(n, p, e) + k
    decreases k
  {
    if k > 0 {
      StepAccounts(n, p, e, Read(code));
      ReadsAll(n, p, Do(n, p, e, Read(code)), k - 1, code);
      assert Reads(k, code)[1..] == Reads(k - 1, code);
    }
  }

  /** Any number of reports read before one is recorded schedule a retry each, whatever MaxAttempts
      says, as long as one more attempt is allowed. */
  lemma OverlappingErrorsRetryEach(n: NoRetry, p: Policy, e: Errors, code: int, k: nat) returns (steps: seq<Step>)
    requires !e.failed && Low(p, e.stored) && !Permanent(n, code)
    ensures Runs(n, p, e, Reads(k, code) + steps)
    ensures var end := After(n, p, e, Reads(k, code) + steps);
            end.reports == [] && end.retries == Total(n, p, e) + k
  {
    ReadsAll(n, p, e, k, code);
    hide Total, Can, Do;
    var mid := After(n, p, e, Reads(k, code));
    steps := Finish(n, p, mid);
    RunsConcat(n, p, e, Reads(k, code), steps);
  }

  // ---- exactly when the bound holds ----

  /** No count that anybody can still read is worth a retry. */
  predicate Exhausted(p: Policy, e: Errors) {
    !Low(p, e.stored)
    && forall i :: 0 <= i < |e.reports| && !e.reports[i].recorded ==> !Low(p, e.reports[i].attempts + 1)
  }

  predicate Closed(p: Policy, e: Errors) {
    e.failed || Exhausted(p, e)
  }

  lemma ClosedStep(n: NoRetry, p: Policy, e: Errors, step: Step)
    requires Closed(p, e) && Can(e, step)
    ensures Closed(p, Do(n, p, e, step)) && Total(n, p, Do(n, p, e, step)) == Total(n, p, e)
  {
    StepAccounts(n, p, e, step);
    hide Total;
  }

  lemma {:induction false} ClosedRun(n: NoRetry, p: Policy, e: Errors, steps: seq<Step>)
    requires Closed(p, e) && Runs(n, p, e, steps)
    ensures After(n, p, e, steps).retries <= Total(n, p, e)
    decreases |steps|
  {
    if steps != [] {
      ClosedStep(n, p, e, steps[0]);
      hide Closed, Can, Do, Total;
      ClosedRun(n, p, Do(n, p, e, steps[0]), steps[1..]);
    }
  }

  /** The run schedules MaxAttempts retries or more. */
  predicate Exceeds(n: NoRetry, p: Policy, e: Errors, steps: seq<Step>) {
    Runs(n, p, e, steps) && After(n, p, e, steps).retries >= p.maxAttempts
  }

  lemma PrependExceeds(n: NoRetry, p: Policy, e: Errors, step: Step, steps: seq<Step>)
    requires Can(e, step) && Exceeds(n, p, Do(n, p, e, step), steps)
    ensures Exceeds(n, p, e, [step] + steps)
  {
    hide Can, Do;
    assert ([step] + steps)[1..] == steps;
  }

  function SomeRetryable(n: NoRetry): (code: int)
    ensures !Permanent(n, code)
  {
    if n.panicCode > n.to then n.panicCode + 1 else n.to + 1
  }

  lemma LowExceeds(n: NoRetry, p: Policy, e: Errors)
    requires !e.failed && Low(p, e.stored) && 0 <= p.maxAttempts
    ensures exists steps :: Exceeds(n, p, e, steps)
  {
    var code := SomeRetryable(n);
    var rest := OverlappingErrorsRetryEach(n, p, e, code, p.maxAttempts);
    assert Exceeds(n, p, e, Reads(p.maxAttempts, code) + rest);
  }

  lemma OpenExceeds(n: NoRetry, p: Policy, e: Errors)
    requires !Closed(p, e) && 0 <= p.maxAttempts
    ensures exists steps :: Exceeds(n, p, e, steps)
  {
    if Low(p, e.stored) {
      LowExceeds(n, p, e);
    } else {
      var i :| 0 <= i < |e.reports| && !e.reports[i].recorded && Low(p, e.reports[i].attempts + 1);
      var e1 := Do(n, p, e, Record(i));
      LowExceeds(n, p, e1);
      var steps :| Exceeds(n, p, e1, steps);
      PrependExceeds(n, p, e, Record(i), steps);
    }
  }

  /** From any state, whatever reports are still to come: the retries stay below MaxAttempts in every
      interleaving exactly if the retries made and due are below it, and the job has failed or no
      count that can still be read allows another retry. A handler that will fail the job reopens it
      like any other while its count is recorded and Failed is not yet written. */
  lemma BoundIff(n: NoRetry, p: Policy, e: Errors)
    ensures (forall steps :: Runs(n, p, e, steps) ==> After(n, p, e, steps).retries < p.maxAttempts)
            <==> Total(n, p, e) < p.maxAttempts && Closed(p, e)
  {
    var steps := Finish(n, p, e);
    assert After(n, p, e, steps).retries == Total(n, p, e);
    if Total(n, p, e) < p.maxAttempts {
      if Closed(p, e) {
        forall steps | Runs(n, p, e, steps) ensures After(n, p, e, steps).retries < p.maxAttempts {
          ClosedRun(n, p, e, steps);
        }
      } else {
        OpenExceeds(n, p, e);
        var more :| Exceeds(n, p, e, more);
        assert Runs(n, p, e, more) && After(n, p, e, more).retries >= p.maxAttempts;
      }
    }
  }

  // ---- one report after the other ----

  function Whole(code: int): seq<Step> {
    [Read(code), Record(0), Settle(0)]
  }

  function Settled(n: NoRetry, p: Policy, e: Errors, code: int): Errors {
    var v := OnError(n, p, e.stored, code);
    e.(stored := v.attempts, failed := e.failed || v.FailedForGood?, retries := e.retries + One(v.Retried?))
  }

  /** Each report settled before the next one is read; none is handled once the job has failed. */
  function InTurn(n: NoRetry, p: Policy, e: Errors, codes: seq<int>): seq<Step>
    requires e.reports == []
    decreases |codes|
  {
    if codes == [] || e.failed then []
    else
      var d := Settled(n, p, e, codes[0]);
      Whole(codes[0]) + InTurn(n, p, d, codes[1..])
  }

  lemma WholeReport(n: NoRetry, p: Policy, e: Errors, code: int)
    requires e.reports == [] && !e.failed
    ensures Runs(n, p, e, Whole(code)) && After(n, p, e, Whole(code)) == Settled(n, p, e, code)
  {
    var steps := Whole(code);
    var e1 := Do(n, p, e, Read(code));
    var e2 := Do(n, p, e1, Record(0));
    var e3 := Do(n, p, e2, Settle(0));
    assert steps[1..] == [Record(0), Settle(0)] && steps[1..][1..] == [Settle(0)] && steps[1..][1..][1..] == [];
    assert Runs(n, p, e3, []) && After(n, p, e3, []) == e3;
    assert Runs(n, p, e2, steps[1..][1..]) && After(n, p, e2, steps[1..][1..]) == e3;
    assert Runs(n, p, e1, steps[1..]) && After(n, p, e1, steps[1..]) == e3;
  }

  /** Every retry has raised the count, and the last one to a count within bounds. */
  predicate InStep(p: Policy, e: Errors, stored: int) {
    e.reports == [] && e.retries <= e.stored - stored && (e.retries > 0 ==> e.retries < p.maxAttempts - stored)
  }

  /** Reports in turn are a run of the steps, and schedule fewer retries than the stored count leaves
      attempts; the job has failed or its verdict is the one of AfterErrors. */
  lemma {:induction false} InTurnIsBounded(n: NoRetry, p: Policy, e: Errors, stored: int, codes: seq<int>)
    requires InStep(p, e, stored)
    ensures Runs(n, p, e, InTurn(n, p, e, codes))
    ensures InStep(p, After(n, p, e, InTurn(n, p, e, codes)), stored)
    ensures codes != [] && !e.failed ==>
            (After(n, p, e, InTurn(n, p, e, codes)).failed <==> AfterErrors(n, p, e.stored, codes).FailedForGood?)
    decreases |codes|
  {
    if codes != [] && !e.failed {
      var d := Settled(n, p, e, codes[0]);
      WholeReport(n, p, e, codes[0]);
      assert InStep(p, d, stored);
      hide InStep, Do, Can;
      InTurnIsBounded(n, p, d, stored, codes[1..]);
      RunsConcat(n, p, e, Whole(codes[0]), InTurn(n, p, d, codes[1..]));
    }
  }
}
