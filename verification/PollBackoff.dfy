/** The delay between polls of a remote task: the arithmetic of one delay, and the
    failure count along a run of polls. */
module PollBackoff {
  import opened Messages
  import opened TaskStatus
  import opened TaskController
  import Int64

  /** The intended delay: the base doubled per failure up to sixteen times, between floor and cap. */
  function IntendedBackoff(failures: int, base: int, rateLimited: bool): int {
    var product := base * Power2(if failures < 0 then 0 else if failures > 16 then 16 else failures);
    var capped := if product > MAX_POLL_BACKOFF then MAX_POLL_BACKOFF else product;
    if rateLimited && capped < RATE_LIMIT_FLOOR then RATE_LIMIT_FLOOR else capped
  }

  lemma {:induction false} Power2Monotone(m: nat, n: nat)
    requires m <= n
    ensures Power2(m) <= Power2(n)
    decreases n
  {
    if m < n {
      Power2Monotone(m, n - 1);
    }
  }

  lemma Power2At16()
    ensures Power2(16) == 0x1_0000
  {
    assert Power2(4) == 16;
    assert Power2(8) == 256;
    assert Power2(12) == 4096;
  }

  lemma ScaledMonotone(base: int, m: nat, n: nat)
    requires base > 0 && m <= n
    ensures base <= base * Power2(m) <= base * Power2(n)
  {
    Power2Monotone(m, n);
    MulMonotone(base, 1, Power2(m));
    MulMonotone(base, Power2(m), Power2(n));
  }

  lemma MulMonotone(a: int, x: int, y: int)
    requires a > 0 && x <= y
    ensures a * x <= a * y
  {
  }

  /** The delay differs from the intended one exactly when the product leaves int64
      and the remainder that is kept happens to lie below the cap. */
  lemma BackoffExact(failures: int, base: int, rateLimited: bool)
    requires base > 0
    ensures var product := base * Power2(if failures < 0 then 0 else if failures > 16 then 16 else failures);
      PollBackoff(failures, base, rateLimited) == IntendedBackoff(failures, base, rateLimited)
      <==> !(product >= Int64.LIMIT && 0 < product % Int64.MODULUS < MAX_POLL_BACKOFF)
  {
    var product := base * Power2(Exponent(failures));
    ScaledMonotone(base, 0, Exponent(failures));
    assert Power2(0) == 1;
    Int64.WrapResidue(product);
  }

  /** A base under 2^47 ns never overflows: the delay is the intended one, lies
      between min(base, cap) and the cap, respects the rate-limit floor, and never
      shrinks when the failure count grows. */
  lemma BackoffBounds(failures: int, more: int, base: int, rateLimited: bool)
    requires 0 < base < 0x8000_0000_0000 && failures <= more
    ensures var d := PollBackoff(failures, base, rateLimited);
      && d == IntendedBackoff(failures, base, rateLimited)
      && (if base < MAX_POLL_BACKOFF then base else MAX_POLL_BACKOFF) <= d <= MAX_POLL_BACKOFF
      && (rateLimited ==> RATE_LIMIT_FLOOR <= d)
      && d <= PollBackoff(more, base, rateLimited)
  {
    ScaledMonotone(base, Exponent(failures), Exponent(more));
    ScaledMonotone(base, Exponent(more), 16);
    Power2At16();
    assert base * Power2(Exponent(more)) < Int64.LIMIT;
    BackoffExact(failures, base, rateLimited);
    BackoffExact(more, base, rateLimited);
  }

  function Least(a: int, b: int): int {
    if a < b then a else b
  }

  /** The delays one by one: the base, then twice the one before for each failure up to
      sixteen, never more than five minutes; after that the same; without failures the
      base; and at least thirty seconds when rate limited. A base that is not positive
      counts as five seconds. */
  lemma DelayDoubles(failures: int, base: int)
    requires base < 0x8000_0000_0000
    ensures var b, cap := if base > 0 then base else 5_000_000_000, 300_000_000_000;
      && PollBackoff(0, base, false) == Least(b, cap)
      && (failures < 0 ==> PollBackoff(failures, base, false) == PollBackoff(0, base, false))
      && (0 <= failures < 16 ==>
            PollBackoff(failures + 1, base, false) == Least(2 * PollBackoff(failures, base, false), cap))
      && (failures >= 16 ==> PollBackoff(failures, base, false) == PollBackoff(16, base, false))
      && var d := PollBackoff(failures, base, false);
         PollBackoff(failures, base, true) == if d < 30_000_000_000 then 30_000_000_000 else d
  {
    var b := if base > 0 then base else 5_000_000_000;
    DelayIs(0, base);
    DelayIs(failures, base);
    assert b * Power2(0) == b;
    if 0 <= failures < 16 {
      DelayIs(failures + 1, base);
      Doubled(b, failures);
    } else if failures >= 16 {
      DelayIs(16, base);
    }
  }

  lemma DelayIs(failures: int, base: int)
    requires base < 0x8000_0000_0000
    ensures var b := if base > 0 then base else 5_000_000_000;
      var exponent := if failures < 0 then 0 else if failures > 16 then 16 else failures;
      var d := Least(b * Power2(exponent), 300_000_000_000);
      && PollBackoff(failures, base, false) == d
      && PollBackoff(failures, base, true) == if d < 30_000_000_000 then 30_000_000_000 else d
  {
    var b := if base > 0 then base else 5_000_000_000;
    BackoffBounds(failures, failures, b, false);
    BackoffBounds(failures, failures, b, true);
  }

  lemma Doubled(base: int, n: nat)
    ensures Power2(0) == 1 && base * Power2(n + 1) == 2 * (base * Power2(n))
  {
  }

  /** A base a little over 2^48 ns wraps to a delay of 65536 ns. */
  lemma BackoffWraps()
    ensures PollBackoff(16, 0x1_0000_0000_0001, false) == 65536
  {
    Power2At16();
    Int64.WrapResidue(0x1_0000_0000_0001 * 0x1_0000);
  }

  /** Polls that failed since the last one that succeeded, `streak` before the run. */
  function Streak(fmt: Formats, t: Task, envs: seq<Env>, streak: int): int
    decreases |envs|
  {
    if envs == [] then streak
    else
      var u := Reconcile(fmt, t, envs[0]).stored;
      var now := if !Polls(fmt, t, envs[0]) then streak else if envs[0].poll.PollFailed? then streak + 1 else 0;
      if u.None? then now else Streak(fmt, u.value, envs[1..], now)
  }

  /** The task after a run of wakes. */
  function AfterWakes(fmt: Formats, t: Task, envs: seq<Env>): Option<Task>
    decreases |envs|
  {
    if envs == [] then Some(t)
    else
      var u := Reconcile(fmt, t, envs[0]).stored;
      if u.None? then None else AfterWakes(fmt, u.value, envs[1..])
  }

  lemma WakeNote(fmt: Formats, t: Task, env: Env)
    requires env.noteWriteOk && Failures(t.note) >= 0
    ensures var u := Reconcile(fmt, t, env);
      var polled := Polls(fmt, t, env);
      && (u.stored.Some? && t.spec.hasServer ==>
            Failures(u.stored.value.note) ==
              if !polled then Failures(t.note) else if env.poll.PollFailed? then Failures(t.note) + 1 else 0)
      && (u.stored.Some? ==> u.stored.value.spec == t.spec)
      && (polled && env.poll.PollFailed? ==>
            u.requeue == Some(PollBackoff(Failures(t.note) + 1, PollInterval(t.spec), env.poll.rateLimited)))
      && (polled && env.poll.PollReplied? && u.requeue.Some? ==> u.requeue == Some(PollInterval(t.spec)))
  {
  }

  /** Along any run of wakes whose annotation writes succeed, the stored failure
      count is the length of the current streak of failed polls. */
  lemma {:induction false} CountIsStreak(fmt: Formats, t: Task, envs: seq<Env>)
    requires t.spec.hasServer && Failures(t.note) >= 0
    requires forall env | env in envs :: env.noteWriteOk
    ensures var u := AfterWakes(fmt, t, envs);
      u.Some? ==> Failures(u.value.note) == Streak(fmt, t, envs, Failures(t.note)) >= 0
    decreases |envs|
  {
    if envs != [] {
      WakeNote(fmt, t, envs[0]);
      var u := Reconcile(fmt, t, envs[0]).stored;
      if u.Some? {
        CountIsStreak(fmt, u.value, envs[1..]);
      }
    }
  }

  /** Every wake of the run polls, fails, is rate limited as stated, and records the failure. */
  ghost predicate FailsThroughout(fmt: Formats, t: Task, envs: seq<Env>, rateLimited: bool)
    decreases |envs|
  {
    envs != [] ==>
      && Polls(fmt, t, envs[0]) && envs[0].poll == PollFailed(rateLimited) && envs[0].noteWriteOk
      && FailsThroughout(fmt, t.(note := Count(Failures(t.note) + 1)), envs[1..], rateLimited)
  }

  /** The delays the wakes of a run ask for. */
  function Delays(fmt: Formats, t: Task, envs: seq<Env>): seq<Option<int>>
    decreases |envs|
  {
    if envs == [] then []
    else
      var u := Reconcile(fmt, t, envs[0]);
      [u.requeue] + if u.stored.Some? then Delays(fmt, u.stored.value, envs[1..]) else []
  }

  /** The k-th delay is the backoff of the count `count + k`. */
  predicate AreBackoffs(delays: seq<Option<int>>, count: int, base: int, rateLimited: bool) {
    forall k | 0 <= k < |delays| :: delays[k] == Some(PollBackoff(count + k, base, rateLimited))
  }

  /** Along a whole streak of failed polls that are rate limited alike, the k-th delay
      is the backoff of the count so far, and no delay is shorter than one before it. */
  lemma DelaysDoNotShrink(fmt: Formats, t: Task, envs: seq<Env>, rateLimited: bool)
    requires Failures(t.note) >= 0 && 0 < PollInterval(t.spec) < 0x8000_0000_0000
    requires FailsThroughout(fmt, t, envs, rateLimited)
    ensures var delays := Delays(fmt, t, envs);
      && |delays| == |envs|
      && AreBackoffs(delays, Failures(t.note) + 1, PollInterval(t.spec), rateLimited)
      && (forall j, k | 0 <= j <= k < |delays| :: delays[j].value <= delays[k].value)
  {
    DelaysAlongStreak(fmt, t, envs, rateLimited);
    var delays, n := Delays(fmt, t, envs), Failures(t.note) + 1;
    forall j, k | 0 <= j <= k < |delays| ensures delays[j].value <= delays[k].value {
      BackoffGrows(n + j, n + k, PollInterval(t.spec), rateLimited);
    }
  }

  lemma BackoffGrows(failures: int, more: int, base: int, rateLimited: bool)
    requires 0 < base < 0x8000_0000_0000 && failures <= more
    ensures PollBackoff(failures, base, rateLimited) <= PollBackoff(more, base, rateLimited)
  {
    BackoffBounds(failures, more, base, rateLimited);
  }

  lemma {:induction false} DelaysAlongStreak(fmt: Formats, t: Task, envs: seq<Env>, rateLimited: bool)
    requires Failures(t.note) >= 0 && FailsThroughout(fmt, t, envs, rateLimited)
    ensures var delays := Delays(fmt, t, envs);
      |delays| == |envs| && AreBackoffs(delays, Failures(t.note) + 1, PollInterval(t.spec), rateLimited)
    decreases |envs|
  {
    if envs != [] {
      var u := t.(note := Count(Failures(t.note) + 1));
      FailedWake(fmt, t, envs[0]);
      DelaysAlongStreak(fmt, u, envs[1..], rateLimited);
      AreBackoffsCons(Delays(fmt, u, envs[1..]), Failures(t.note) + 1, PollInterval(t.spec), rateLimited);
    }
  }

  lemma AreBackoffsCons(rest: seq<Option<int>>, count: int, base: int, rateLimited: bool)
    requires AreBackoffs(rest, count + 1, base, rateLimited)
    ensures AreBackoffs([Some(PollBackoff(count, base, rateLimited))] + rest, count, base, rateLimited)
  {
    var delays := [Some(PollBackoff(count, base, rateLimited))] + rest;
    forall k | 0 <= k < |delays| ensures delays[k] == Some(PollBackoff(count + k, base, rateLimited)) {
      if k > 0 {
        assert delays[k] == rest[k - 1];
      }
    }
  }

  lemma FailedWake(fmt: Formats, t: Task, env: Env)
    requires Polls(fmt, t, env) && env.poll.PollFailed? && env.noteWriteOk
    ensures Reconcile(fmt, t, env).stored == Some(t.(note := Count(Failures(t.note) + 1)))
    ensures Reconcile(fmt, t, env).requeue
      == Some(PollBackoff(Failures(t.note) + 1, PollInterval(t.spec), env.poll.rateLimited))
  {
  }
}
