/** The token bucket of the rate limiter, over real numbers, and what it admits over whole traces
    of calls. */
module TokenBucket {
  import opened Base

  datatype Bucket = Bucket(rate: real, capacity: real, tokens: real, last: real)

  /** What a call reports: the verdict, whole tokens left, seconds until full (None: rate zero). */
  datatype Reply = Reply(allowed: bool, remaining: int, reset: Option<real>)

  function Full(rate: real, capacity: real, now: real): Bucket {
    Bucket(rate, capacity, capacity, now)
  }

  /** Tokens gained in a stretch of time. */
  function Gain(rate: real, time: real): real {
    time * rate
  }

  lemma GainAdds(rate: real, x: real, y: real)
    ensures Gain(rate, x) + Gain(rate, y) == Gain(rate, x + y)
  {
  }

  lemma GainNotNegative(rate: real, x: real)
    requires rate >= 0.0 && x >= 0.0
    ensures Gain(rate, x) >= 0.0
  {
  }

  /** Tokens at a later time, before a call takes one. */
  function Level(b: Bucket, now: real): real {
    var grown := b.tokens + Gain(b.rate, now - b.last);
    if grown > b.capacity then b.capacity else grown
  }

  /** One call of Allow or Attempt. */
  function Take(b: Bucket, now: real): Bucket {
    var level := Level(b, now);
    b.(tokens := if level >= 1.0 then level - 1.0 else level, last := now)
  }

  predicate Allowed(b: Bucket, now: real) {
    Level(b, now) >= 1.0
  }

  /** Conversion to an integer, towards zero. */
  function Trunc(x: real): int {
    if x >= 0.0 then x.Floor else -((-x).Floor)
  }

  function ReplyOf(b: Bucket, now: real): Reply {
    var after := Take(b, now);
    Reply(Allowed(b, now), Trunc(after.tokens),
          if b.rate == 0.0 then None else Some((b.capacity - after.tokens) / b.rate))
  }

  predicate Valid(b: Bucket) {
    b.rate >= 0.0 && 0.0 <= b.tokens <= b.capacity
  }

  lemma TakeKeepsValid(b: Bucket, now: real)
    requires Valid(b) && now >= b.last
    ensures Valid(Take(b, now))
  {
    GainNotNegative(b.rate, now - b.last);
    hide Gain;
  }

  // ---- what a reply promises ----

  /** The bucket after k more calls at the same instant. */
  function TakeMore(b: Bucket, now: real, k: nat): Bucket {
    if k == 0 then b else Take(TakeMore(b, now, k - 1), now)
  }

  lemma SameInstant(b: Bucket, now: real)
    requires b.last == now && b.tokens <= b.capacity
    ensures Level(b, now) == b.tokens
  {
    assert Gain(b.rate, now - b.last) == 0.0;
  }

  lemma {:induction false} TokensLeft(b: Bucket, now: real, k: nat)
    requires Valid(b) && b.last == now && k as real <= b.tokens
    ensures var a := TakeMore(b, now, k);
            a.tokens == b.tokens - k as real && a.last == now && a.capacity == b.capacity && a.rate == b.rate
    decreases k
  {
    if k > 0 {
      TokensLeft(b, now, k - 1);
      SameInstant(TakeMore(b, now, k - 1), now);
    }
  }

  /** remaining is the number of further calls that would be admitted at the same instant. */
  lemma RemainingIsExact(b: Bucket, now: real, k: nat)
    requires Valid(b) && now >= b.last && k <= ReplyOf(b, now).remaining
    ensures Allowed(TakeMore(Take(b, now), now, k), now) <==> k < ReplyOf(b, now).remaining
  {
    var after := Take(b, now);
    TakeKeepsValid(b, now);
    assert after.last == now && after.tokens >= 0.0;
    assert k as real <= after.tokens;
    hide Take, Level;
    TokensLeft(after, now, k);
    SameInstant(TakeMore(after, now, k), now);
  }

  lemma QuotientIff(x: real, rate: real, time: real)
    requires rate > 0.0
    ensures time >= x / rate <==> Gain(rate, time) >= x
  {
    var q := x / rate;
    assert q * rate == x;
    assert time >= q ==> time * rate >= q * rate;
    assert time < q ==> time * rate < q * rate;
  }

  /** reset is the time until the bucket is full again, not a moment earlier or later; without a rate
      there is none. */
  lemma ResetIsExact(b: Bucket, now: real, time: real)
    requires Valid(b) && now >= b.last && time >= 0.0
    ensures ReplyOf(b, now).reset.None? <==> b.rate == 0.0
    ensures b.rate > 0.0 ==>
            (Level(Take(b, now), now + time) == b.capacity <==> time >= ReplyOf(b, now).reset.value)
  {
    if b.rate > 0.0 {
      QuotientIff(b.capacity - Take(b, now).tokens, b.rate, time);
      assert now + time - now == time;
    }
  }

  class Limiter {
    const rate: real
    const capacity: real
    var tokens: real
    var lastUpdated: real

    constructor (rate: real, capacity: real, now: real)
      ensures View() == Full(rate, capacity, now)
    {
      this.rate, this.capacity, tokens, lastUpdated := rate, capacity, capacity, now;
    }

    function View(): Bucket
      reads this
    {
      Bucket(rate, capacity, tokens, lastUpdated)
    }

    method Allow(now: real) returns (allowed: bool)
      modifies this
      ensures View() == Take(old(View()), now) && allowed == Allowed(old(View()), now)
      ensures old(Valid(View())) && now >= old(lastUpdated) ==> Valid(View())
    {
      ghost var before := View();
      hide Gain;
      tokens := tokens + Gain(rate, now - lastUpdated);
      if tokens > capacity {
        tokens := capacity;
      }
      lastUpdated := now;
      allowed := tokens >= 1.0;
      if allowed {
        tokens := tokens - 1.0;
      }
      if Valid(before) && now >= before.last {
        TakeKeepsValid(before, now);
      }
    }

    method Attempt(now: real) returns (reply: Reply)
      modifies this
      ensures View() == Take(old(View()), now) && reply == ReplyOf(old(View()), now)
      ensures old(Valid(View())) && now >= old(lastUpdated) ==> Valid(View())
    {
      ghost var before := View();
      hide Gain;
      tokens := tokens + Gain(rate, now - lastUpdated);
      if tokens > capacity {
        tokens := capacity;
      }
      lastUpdated := now;
      var allowed := tokens >= 1.0;
      if allowed {
        tokens := tokens - 1.0;
      }
      reply := Reply(allowed, Trunc(tokens), if rate == 0.0 then None else Some((capacity - tokens) / rate));
      if Valid(before) && now >= before.last {
        TakeKeepsValid(before, now);
      }
    }
  }

  // ---- traces ----

  predicate Clock(start: real, times: seq<real>) {
    && (times != [] ==> start <= times[0])
    && forall i :: 0 <= i < |times| - 1 ==> times[i] <= times[i + 1]
  }

  lemma {:induction false} ClockOrder(start: real, times: seq<real>, j: nat, k: nat)
    requires Clock(start, times) && j <= k < |times|
    ensures start <= times[j] <= times[k]
    decreases j + k
  {
    if j < k {
      ClockOrder(start, times, j, k - 1);
    } else if j > 0 {
      ClockOrder(start, times, j - 1, j - 1);
    }
  }

  /** The bucket after the first k calls. */
  function After(b: Bucket, times: seq<real>, k: nat): (r: Bucket)
    requires k <= |times|
    ensures r.rate == b.rate && r.capacity == b.capacity
    ensures k > 0 ==> r.last == times[k - 1]
    ensures k == 0 ==> r == b
  {
    if k == 0 then b else Take(After(b, times, k - 1), times[k - 1])
  }

  predicate AllowedAt(b: Bucket, times: seq<real>, k: nat)
    requires k < |times|
  {
    Allowed(After(b, times, k), times[k])
  }

  /** How many of the calls j, ..., k - 1 were allowed. */
  function Count(b: Bucket, times: seq<real>, j: nat, k: nat): nat
    requires j <= k <= |times|
    decreases k
  {
    if j == k then 0 else Count(b, times, j, k - 1) + if AllowedAt(b, times, k - 1) then 1 else 0
  }

  function LevelAt(b: Bucket, times: seq<real>, k: nat): real
    requires k < |times|
  {
    Level(After(b, times, k), times[k])
  }

  /** What a window from call j to call k leaves for call k. */
  function Allowance(b: Bucket, times: seq<real>, j: nat, k: nat): real
    requires j <= k < |times|
  {
    b.capacity + Gain(b.rate, times[k] - times[j]) - Count(b, times, j, k) as real
  }

  /** Every reachable bucket holds between zero and capacity tokens. */
  lemma {:induction false} TokensInRange(b: Bucket, times: seq<real>, k: nat)
    requires Valid(b) && Clock(b.last, times) && k <= |times|
    ensures Valid(After(b, times, k))
  {
    if k > 0 {
      TokensInRange(b, times, k - 1);
      ClockOrder(b.last, times, k - 1, k - 1);
      if k > 1 {
        ClockOrder(b.last, times, k - 2, k - 1);
      }
      TakeKeepsValid(After(b, times, k - 1), times[k - 1]);
    }
  }

  /** From one call to the next the level is the allowance's recurrence, cut at capacity. */
  lemma LevelNext(b: Bucket, times: seq<real>, k: nat)
    requires 0 < k < |times|
    ensures var grown := LevelAt(b, times, k - 1) - (if AllowedAt(b, times, k - 1) then 1.0 else 0.0)
                         + Gain(b.rate, times[k] - times[k - 1]);
            LevelAt(b, times, k) == if grown > b.capacity then b.capacity else grown
  {
  }

  lemma AllowanceNext(b: Bucket, times: seq<real>, j: nat, k: nat)
    requires j < k < |times|
    ensures Allowance(b, times, j, k) ==
            Allowance(b, times, j, k - 1) - (if AllowedAt(b, times, k - 1) then 1.0 else 0.0)
            + Gain(b.rate, times[k] - times[k - 1])
  {
    GainAdds(b.rate, times[k - 1] - times[j], times[k] - times[k - 1]);
    hide Gain, AllowedAt;
  }

  lemma {:induction false} LevelBelow(b: Bucket, times: seq<real>, j: nat, k: nat)
    requires j <= k < |times|
    ensures LevelAt(b, times, k) <= Allowance(b, times, j, k)
    decreases k
  {
    if j == k {
      assert Gain(b.rate, 0.0) == 0.0;
    } else {
      LevelBelow(b, times, j, k - 1);
      LevelNext(b, times, k);
      AllowanceNext(b, times, j, k);
      hide Gain, LevelAt, Allowance, AllowedAt;
    }
  }

  /** The level is the tightest of the window allowances. */
  lemma {:induction false} LevelAttained(b: Bucket, times: seq<real>, k: nat) returns (j: nat)
    requires b.tokens == b.capacity && b.rate >= 0.0 && Clock(b.last, times) && k < |times|
    ensures j <= k && LevelAt(b, times, k) == Allowance(b, times, j, k)
    decreases k
  {
    assert Gain(b.rate, 0.0) == 0.0;
    if k == 0 {
      j := 0;
      GainNotNegative(b.rate, times[0] - b.last);
    } else {
      j := LevelAttained(b, times, k - 1);
      LevelNext(b, times, k);
      if LevelAt(b, times, k) == b.capacity {
        j := k;
      } else {
        AllowanceNext(b, times, j, k);
        hide Gain, LevelAt, Allowance, AllowedAt;
      }
    }
  }

  /** A full bucket admits a call exactly if every window ending in it, with it, stays within
      capacity plus rate times the window's length. */
  lemma AdmitsIff(b: Bucket, times: seq<real>, k: nat)
    requires b.tokens == b.capacity && b.rate >= 0.0 && Clock(b.last, times) && k < |times|
    ensures AllowedAt(b, times, k) <==>
            forall j :: 0 <= j <= k ==>
              Count(b, times, j, k) as real + 1.0 <= b.capacity + Gain(b.rate, times[k] - times[j])
  {
    hide Gain, Count, Clock, Level, After;
    forall j | 0 <= j <= k ensures LevelAt(b, times, k) <= Allowance(b, times, j, k) {
      LevelBelow(b, times, j, k);
    }
    var tight := LevelAttained(b, times, k);
    assert AllowedAt(b, times, k) <==> Allowance(b, times, tight, k) >= 1.0;
    assert Allowance(b, times, tight, k) >= 1.0 <==>
           Count(b, times, tight, k) as real + 1.0 <= b.capacity + Gain(b.rate, times[k] - times[tight]);
    if AllowedAt(b, times, k) {
      forall j | 0 <= j <= k
        ensures Count(b, times, j, k) as real + 1.0 <= b.capacity + Gain(b.rate, times[k] - times[j])
      {
        assert LevelAt(b, times, k) <= Allowance(b, times, j, k);
      }
    }
  }

  /** In any window of calls j, ..., k of any trace from any valid bucket, no more than capacity
      plus rate times the window's length are allowed. */
  lemma WindowBound(b: Bucket, times: seq<real>, j: nat, k: nat)
    requires Valid(b) && Clock(b.last, times) && j <= k < |times|
    ensures Count(b, times, j, k + 1) as real <= b.capacity + Gain(b.rate, times[k] - times[j])
  {
    TokensInRange(b, times, k + 1);
    LevelBelow(b, times, j, k);
    hide Gain, Level, Clock;
  }
}
