// The cadence arithmetic behind `_poll_cron_kwargs` and `_resume_sweep_cron_kwargs`:
// a period in minutes becomes a set of minutes, or of hours plus minute 0, on which
// the scheduler fires.
module CronCadence {
  import opened Common

  // `hours == None` means every hour.
  datatype CronSpec = CronSpec(hours: Option<set<int>>, minutes: set<int>)

  const SUPPORTED_POLL_MINUTES: set<int> :=
    {1, 2, 3, 4, 5, 6, 10, 12, 15, 20, 30, 60, 120, 180, 240, 360, 720, 1440}

  const FALLBACK_POLL_MINUTES := 15

  // range(start, stop, step) as a set.
  function RangeSet(start: int, stop: int, step: int): set<int>
    requires step >= 1
    decreases stop - start
  {
    if start >= stop then {} else {start} + RangeSet(start + step, stop, step)
  }

  // The two-branch translation, for any period.
  function CronFor(n: int): CronSpec
    requires n >= 1
  {
    if n <= 60 then CronSpec(None, RangeSet(0, 60, n))
    else CronSpec(Some(RangeSet(0, 24, n / 60)), {0})
  }

  // Unsupported configured values fall back before the translation.
  function EffectivePeriod(configured: int): (n: int)
    ensures n in SUPPORTED_POLL_MINUTES
    ensures configured in SUPPORTED_POLL_MINUTES ==> n == configured
  {
    if configured in SUPPORTED_POLL_MINUTES then configured else FALLBACK_POLL_MINUTES
  }

  function PollCron(configured: int): CronSpec {
    CronFor(EffectivePeriod(configured))
  }

  // Whether the scheduler fires at absolute minute t (t == 0 is a midnight).
  predicate Fires(c: CronSpec, t: nat) {
    t % 60 in c.minutes && (c.hours.None? || (t / 60) % 24 in c.hours.value)
  }

  ghost predicate FiresEvery(c: CronSpec, n: int)
    requires n >= 1
  {
    forall t: nat :: Fires(c, t) <==> t % n == 0
  }

  // The periods for which the translation is exact.
  predicate Expressible(n: int)
    requires n >= 1
  {
    60 % n == 0 || (n % 60 == 0 && 1440 % n == 0)
  }

  lemma {:induction false} RangeSetMembers(start: int, stop: int, step: int, m: int)
    requires step >= 1
    ensures m in RangeSet(start, stop, step) <==> start <= m < stop && (m - start) % step == 0
    decreases stop - start
  {
    if start < stop {
      RangeSetMembers(start + step, stop, step, m);
      StepOnce(m - start, step);
    }
  }

  // From one multiple of step to the next.
  lemma StepOnce(a: int, step: int)
    requires step >= 1
    ensures a % step == (a - step) % step
    ensures 0 <= a < step ==> (a % step == 0 <==> a == 0)
  {
    ModPlusMultiple(a - step, 1, step);
    if 0 <= a < step { ModSmall(a, step); }
  }

  lemma ModPlusMultiple(a: int, k: int, d: int)
    requires d >= 1
    ensures (a + k * d) % d == a % d
  {
    var q, r := a / d, a % d;
    assert a + k * d == (q + k) * d + r;
    DivModUnique(a + k * d, d, q + k, r);
  }

  lemma DivModUnique(a: int, d: int, q: int, r: int)
    requires d >= 1 && 0 <= r < d && a == q * d + r
    ensures a / d == q && a % d == r
  {
    assert (q - a / d) * d == a % d - r;
    SmallMultiple(q - a / d, d);
  }

  lemma SmallMultiple(k: int, d: int)
    requires -d < k * d < d
    ensures k == 0
  {
    if k >= 1 {
      MulMono(1, k, d);
    } else if k <= -1 {
      MulMono(k, -1, d);
    }
  }

  lemma MulMono(a: int, b: int, d: int)
    requires a <= b && d >= 0
    ensures a * d <= b * d
  {
  }

  lemma ModSmall(a: int, d: int)
    requires 0 <= a < d
    ensures a % d == a && a / d == 0
  {
    DivModUnique(a, d, 0, a);
  }

  // d divides n, n divides a: then d divides a.
  lemma DividesTrans(a: int, n: int, d: int)
    requires d >= 1 && n >= 1 && a % n == 0 && n % d == 0
    ensures a % d == 0
  {
    var k, l := a / n, n / d;
    assert a == k * n && n == l * d;
    assert a == (k * l) * d + 0;
    DivModUnique(a, d, k * l, 0);
  }

  // Both summands count: if d divides n then a and a + k*n leave the same remainder by d.
  lemma ModThroughMultiple(a: int, n: int, d: int)
    requires d >= 1 && n >= 1 && n % d == 0
    ensures (a % n) % d == a % d
  {
    var l := n / d;
    var q := a / n;
    assert a == a % n + (q * l) * d;
    ModPlusMultiple(a % n, q * l, d);
  }

  lemma SubHourlyExact(n: int, t: nat)
    requires 1 <= n <= 60 && 60 % n == 0
    ensures Fires(CronFor(n), t) <==> t % n == 0
  {
    RangeSetMembers(0, 60, n, t % 60);
    ModThroughMultiple(t, 60, n);
  }

  lemma HourlyExact(h: int, t: nat)
    requires 2 <= h && 24 % h == 0
    ensures Fires(CronFor(60 * h), t) <==> t % (60 * h) == 0
  {
    var n := 60 * h;
    DivModUnique(n, 60, h, 0);
    RangeSetMembers(0, 24, h, (t / 60) % 24);
    ModThroughMultiple(t / 60, 24, h);
    var q, m := t / 60, t % 60;
    var a, b := q / h, q % h;
    assert t == a * n + (60 * b + m);
    DivModUnique(t, n, a, 60 * b + m);
  }

  lemma DivisorOfDay(n: int)
    requires n >= 61 && n % 60 == 0 && 1440 % n == 0
    ensures n == 60 * (n / 60) && 2 <= n / 60 && 24 % (n / 60) == 0
  {
    var h := n / 60;
    var k := 1440 / n;
    assert 1440 == k * n && n == 60 * h;
    assert 1440 == 60 * (k * h);
    DivModUnique(24, h, k, 0);
  }

  lemma ExpressibleIsExact(n: int)
    requires n >= 1 && Expressible(n)
    ensures FiresEvery(CronFor(n), n)
  {
    if n <= 60 {
      if 60 % n != 0 { DividesTrans(60, 60, n); }
      forall t: nat ensures Fires(CronFor(n), t) <==> t % n == 0 { SubHourlyExact(n, t); }
    } else {
      ModSmall(60, n);
      DivisorOfDay(n);
      forall t: nat ensures Fires(CronFor(n), t) <==> t % n == 0 { HourlyExact(n / 60, t); }
    }
  }

  // A period the translation cannot express misfires on a concrete minute.
  lemma InexpressibleMisfires(n: int) returns (t: nat)
    requires n >= 1 && !Expressible(n)
    ensures Fires(CronFor(n), t) != (t % n == 0)
  {
    if n <= 60 {
      t := 60;
      RangeSetMembers(0, 60, n, 0);
    } else {
      var h := n / 60;
      RangeSetMembers(0, 24, h, 0);
      if n % 60 != 0 && h < 24 {
        t := 60 * h;
        DivModUnique(t, 60, h, 0);
        DivModUnique(h, 24, 0, h);
        RangeSetMembers(0, 24, h, h);
        DivModUnique(h, h, 1, 0);
        ModSmall(t, n);
      } else {
        t := 1440;
      }
    }
  }

  // The translation fires exactly on the multiples of n, at every minute of every day,
  // precisely for the expressible periods.
  lemma CadenceExactIff(n: int)
    requires n >= 1
    ensures FiresEvery(CronFor(n), n) <==> Expressible(n)
  {
    if Expressible(n) {
      ExpressibleIsExact(n);
    } else {
      var t := InexpressibleMisfires(n);
    }
  }

  // The whitelist is sound, and complete except for one period: eight hours.
  lemma WhitelistMissesOnlyEightHours(n: int)
    requires n >= 1
    ensures Expressible(n) <==> n in SUPPORTED_POLL_MINUTES || n == 480
  {
    if n > 60 {
      ModSmall(60, n);
      if Expressible(n) {
        DivisorOfDay(n);
        var h := n / 60;
        if h > 24 { ModSmall(24, h); }
      }
    }
  }

  // Whatever value is configured, the registered job runs exactly every EffectivePeriod minutes.
  lemma PollCronKeepsItsPeriod(configured: int, t: nat)
    ensures Fires(PollCron(configured), t) <==> t % EffectivePeriod(configured) == 0
  {
    var n := EffectivePeriod(configured);
    WhitelistMissesOnlyEightHours(n);
    ExpressibleIsExact(n);
  }
}
