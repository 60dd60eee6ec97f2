// The periodic sweep that re-enqueues stuck judgment lists under a per-day cap, with the
// cap kept in expiring Redis counters.
module ResumeSweep {
  import opened Common

  // ---------------------------------------------------------------------------
  // Clocks, keys, counters
  // ---------------------------------------------------------------------------

  const SECONDS_PER_DAY := 24 * 60 * 60

  const TTL_SECONDS := 26 * 60 * 60

  // Seconds on a wall clock, with or without a known distance from UTC.
  datatype DateTime = Naive(wall: int) | Aware(wall: int, utcOffset: int)

  function UtcSeconds(t: DateTime): int {
    match t
    case Naive(wall) => wall
    case Aware(wall, utcOffset) => wall - utcOffset
  }

  // The counter key: the UTC date and the list id.
  datatype CounterKey = CounterKey(day: int, listId: string)

  function ResumeCounterKey(now: DateTime, listId: string): CounterKey {
    CounterKey(UtcSeconds(now) / SECONDS_PER_DAY, listId)
  }

  // A Redis counter; `expiresAt == None` is a key without a TTL.
  datatype Counter = Counter(count: nat, expiresAt: Option<int>)

  predicate LiveAt(store: map<CounterKey, Counter>, key: CounterKey, clock: int) {
    key in store && (store[key].expiresAt.None? || clock < store[key].expiresAt.value)
  }

  // INCR: a missing or expired key restarts at 1 without a TTL.
  function Incremented(store: map<CounterKey, Counter>, key: CounterKey, clock: int): Counter {
    if LiveAt(store, key, clock) then store[key].(count := store[key].count + 1) else Counter(1, None)
  }

  // EXPIRE: a no-op on a missing key.
  function Expiring(store: map<CounterKey, Counter>, key: CounterKey, clock: int): map<CounterKey, Counter> {
    if LiveAt(store, key, clock) then store[key := store[key].(expiresAt := Some(clock + TTL_SECONDS))] else store
  }

  // ---------------------------------------------------------------------------
  // One visit, one tick, many ticks as functions of the state
  // ---------------------------------------------------------------------------

  // What may go wrong while one id is handled; `applied` says whether the call took
  // effect on the server although the client saw an error.
  datatype Fault = NoFault | IncrRaises(applied: bool) | ExpireRaises(applied: bool) | EnqueueRaises(applied: bool)

  // What the environment supplies for one id: the worker's clock reading, the server's
  // clock at the two commands, and the fault.
  datatype Visit = Visit(now: DateTime, incrClock: int, expireClock: int, fault: Fault)

  datatype Outcome = Enqueued | Capped | Errored

  // `handed` logs the enqueue calls that reached the queue, by list id and UTC day.
  datatype Sweep = Sweep(store: map<CounterKey, Counter>, clock: int, handed: seq<CounterKey>)

  datatype Summary = Summary(candidates: nat, enqueued: nat, capped: nat, errored: nat)

  function AfterIncr(s: Sweep, key: CounterKey, v: Visit): Sweep {
    s.(store := s.store[key := Incremented(s.store, key, v.incrClock)], clock := v.incrClock)
  }

  function AfterExpire(s: Sweep, key: CounterKey, v: Visit): Sweep {
    s.(store := Expiring(s.store, key, v.expireClock), clock := v.expireClock)
  }

  // The two commands of a visit, whatever their fault.
  function Counted(s: Sweep, key: CounterKey, v: Visit): Sweep {
    match v.fault
    case IncrRaises(applied) => if applied then AfterIncr(s, key, v) else s.(clock := v.incrClock)
    case ExpireRaises(applied) =>
      if applied then AfterExpire(AfterIncr(s, key, v), key, v) else AfterIncr(s, key, v).(clock := v.expireClock)
    case _ => AfterExpire(AfterIncr(s, key, v), key, v)
  }

  function VisitSpec(s: Sweep, cap: int, listId: string, v: Visit): (Sweep, Outcome) {
    var key := ResumeCounterKey(v.now, listId);
    var t := Counted(s, key, v);
    if v.fault.IncrRaises? || v.fault.ExpireRaises? then (t, Errored)
    else if Incremented(s.store, key, v.incrClock).count > cap then (t, Capped)
    else if v.fault == EnqueueRaises(false) then (t, Errored)
    else (t.(handed := t.handed + [key]), if v.fault.NoFault? then Enqueued else Errored)
  }

  // The state and counts after the first n ids of a tick.
  function TickSpec(s: Sweep, cap: int, ids: seq<string>, visits: seq<Visit>, n: nat): (Sweep, Summary)
    requires n <= |ids| == |visits|
  {
    if n == 0 then (s, Summary(|ids|, 0, 0, 0))
    else
      var (t, sum) := TickSpec(s, cap, ids, visits, n - 1);
      var (u, o) := VisitSpec(t, cap, ids[n - 1], visits[n - 1]);
      (u, match o
          case Enqueued => sum.(enqueued := sum.enqueued + 1)
          case Capped => sum.(capped := sum.capped + 1)
          case Errored => sum.(errored := sum.errored + 1))
  }

  // A run of the sweep, flattened: the ids visited over any number of ticks, in order.
  datatype Step = Step(listId: string, visit: Visit)

  function RunSpec(s: Sweep, cap: int, steps: seq<Step>): Sweep {
    if steps == [] then s
    else VisitSpec(RunSpec(s, cap, steps[..|steps| - 1]), cap, steps[|steps| - 1].listId, steps[|steps| - 1].visit).0
  }

  function Fresh(clock: int): Sweep { Sweep(map[], clock, []) }

  // The server clock never runs backwards and stays within `skew` seconds of the clock
  // the worker read (which covers drift and the delay between the reading and the INCR).
  predicate WellTimed(clock: int, v: Visit, skew: nat) {
    && clock <= v.incrClock <= v.expireClock
    && 0 - skew <= v.incrClock - UtcSeconds(v.now) <= skew
  }

  predicate WellTimedRun(clock: int, steps: seq<Step>, skew: nat) {
    steps == [] ||
    var last := |steps| - 1;
    WellTimedRun(clock, steps[..last], skew) &&
    WellTimed(if last == 0 then clock else ClockAfter(steps[last - 1].visit), steps[last].visit, skew)
  }

  function ClockAfter(v: Visit): int {
    if v.fault.IncrRaises? then v.incrClock else v.expireClock
  }

  // ---------------------------------------------------------------------------
  // The worker
  // ---------------------------------------------------------------------------

  class RedisServer {
    var store: map<CounterKey, Counter>
    var clock: int

    constructor (clock: int)
      ensures store == map[] && this.clock == clock
    {
      store, this.clock := map[], clock;
    }

    method Incr(key: CounterKey, at: int) returns (count: nat)
      modifies this
      ensures clock == at
      ensures store == old(store)[key := Incremented(old(store), key, at)]
      ensures count == store[key].count
    {
      clock := at;
      var counter := if LiveAt(store, key, clock) then store[key].(count := store[key].count + 1) else Counter(1, None);
      store := store[key := counter];
      count := counter.count;
    }

    method Expire(key: CounterKey, at: int)
      modifies this
      ensures clock == at
      ensures store == Expiring(old(store), key, at)
    {
      clock := at;
      if LiveAt(store, key, clock) {
        store := store[key := store[key].(expiresAt := Some(clock + TTL_SECONDS))];
      }
    }
  }

  class JobQueue {
    var handed: seq<CounterKey>

    constructor ()
      ensures handed == []
    {
      handed := [];
    }

    method EnqueueJob(key: CounterKey)
      modifies this
      ensures handed == old(handed) + [key]
    {
      handed := handed + [key];
    }
  }

  function View(redis: RedisServer, queue: JobQueue): Sweep
    reads redis, queue
  {
    Sweep(redis.store, redis.clock, queue.handed)
  }

  // INCR then EXPIRE; `None` when one of the two commands raises.
  method IncrementAndCheckCap(redis: RedisServer, listId: string, cap: int, v: Visit)
    returns (result: Option<(nat, bool)>)
    modifies redis
    ensures result.None? <==> v.fault.IncrRaises? || v.fault.ExpireRaises?
    ensures result.Some? ==>
              result.value.0 == Incremented(old(redis.store), ResumeCounterKey(v.now, listId), v.incrClock).count
    ensures result.Some? ==> (result.value.1 <==> result.value.0 > cap)
    ensures Sweep(redis.store, redis.clock, []) ==
            Counted(Sweep(old(redis.store), old(redis.clock), []), ResumeCounterKey(v.now, listId), v)
  {
    var key := ResumeCounterKey(v.now, listId);
    if v.fault.IncrRaises? && !v.fault.applied {
      redis.clock := v.incrClock;
      return None;
    }
    var count := redis.Incr(key, v.incrClock);
    if v.fault.IncrRaises? {
      return None;
    }
    if v.fault.ExpireRaises? && !v.fault.applied {
      redis.clock := v.expireClock;
      return None;
    }
    redis.Expire(key, v.expireClock);
    if v.fault.ExpireRaises? {
      return None;
    }
    return Some((count, count > cap));
  }

  // One tick over the ids selected at its start.
  method ResumeStuckJudgmentLists(
    redis: RedisServer, queue: JobQueue, cap: int, ids: seq<string>, visits: seq<Visit>)
    returns (summary: Summary)
    requires |ids| == |visits|
    modifies redis, queue
    ensures (View(redis, queue), summary) == TickSpec(old(View(redis, queue)), cap, ids, visits, |ids|)
    ensures summary.candidates == |ids| == summary.enqueued + summary.capped + summary.errored
    ensures |queue.handed| >= |old(queue.handed)| + summary.enqueued
  {
    summary := Summary(|ids|, 0, 0, 0);
    ghost var start := View(redis, queue);
    for i := 0 to |ids|
      invariant (View(redis, queue), summary) == TickSpec(start, cap, ids, visits, i)
      invariant summary.candidates == |ids| && summary.enqueued + summary.capped + summary.errored == i
      invariant |queue.handed| >= |start.handed| + summary.enqueued
    {
      var v := visits[i];
      var r := IncrementAndCheckCap(redis, ids[i], cap, v);
      if r.None? {
        summary := summary.(errored := summary.errored + 1);
      } else if r.value.1 {
        summary := summary.(capped := summary.capped + 1);
      } else if v.fault.EnqueueRaises? {
        if v.fault.applied {
          queue.EnqueueJob(ResumeCounterKey(v.now, ids[i]));
        }
        summary := summary.(errored := summary.errored + 1);
      } else {
        queue.EnqueueJob(ResumeCounterKey(v.now, ids[i]));
        summary := summary.(enqueued := summary.enqueued + 1);
      }
    }
  }

  // ---------------------------------------------------------------------------
  // Properties of every run
  // ---------------------------------------------------------------------------

  // A tick is a run: its ids paired with their visits.
  function TickSteps(ids: seq<string>, visits: seq<Visit>, n: nat): (steps: seq<Step>)
    requires n <= |ids| == |visits|
  {
    seq(n, i requires 0 <= i < n => Step(ids[i], visits[i]))
  }

  lemma {:induction false} TickIsRun(s: Sweep, cap: int, ids: seq<string>, visits: seq<Visit>, n: nat)
    requires n <= |ids| == |visits|
    ensures TickSpec(s, cap, ids, visits, n).0 == RunSpec(s, cap, TickSteps(ids, visits, n))
  {
    if n > 0 {
      TickIsRun(s, cap, ids, visits, n - 1);
      assert TickSteps(ids, visits, n)[..n - 1] == TickSteps(ids, visits, n - 1);
    }
  }

  // Consecutive ticks compose into one run.
  lemma {:induction false} RunsCompose(s: Sweep, cap: int, a: seq<Step>, b: seq<Step>)
    ensures RunSpec(s, cap, a + b) == RunSpec(RunSpec(s, cap, a), cap, b)
  {
    if b == [] {
      assert a + b == a;
    } else {
      var c, init, last := a + b, b[..|b| - 1], b[|b| - 1];
      RunsCompose(s, cap, a, init);
      assert c[..|c| - 1] == a + init && c[|c| - 1] == last;
      assert RunSpec(s, cap, c) == VisitSpec(RunSpec(s, cap, a + init), cap, last.listId, last.visit).0;
    }
  }

  // The key only depends on the instant and the list, not on the zone it is expressed in.
  lemma KeyIsTheUtcDay(a: DateTime, b: DateTime, id: string, id': string)
    ensures ResumeCounterKey(a, id) == ResumeCounterKey(b, id') <==>
            id == id' && UtcSeconds(a) / SECONDS_PER_DAY == UtcSeconds(b) / SECONDS_PER_DAY
  {
  }

  function Handed(s: Sweep, key: CounterKey): nat { multiset(s.handed)[key] }

  // Every hand-over of a key is backed by its counter, and the counter cannot expire before
  // every clock within `skew` has left the key's day.
  ghost predicate Backed(s: Sweep, cap: int, skew: nat, key: CounterKey) {
    && Handed(s, key) <= Max(cap, 0)
    && (Handed(s, key) > 0 ==> key in s.store && Handed(s, key) <= s.store[key].count)
    && (key in s.store && s.store[key].expiresAt.Some? ==>
          s.store[key].expiresAt.value >= key.day * SECONDS_PER_DAY - skew + TTL_SECONDS)
  }

  ghost predicate AllBacked(s: Sweep, cap: int, skew: nat) {
    forall key :: Backed(s, cap, skew, key)
  }

  // A counter present for the visited day is still live when it is incremented again.
  lemma NotExpiredWithinItsDay(s: Sweep, cap: int, skew: nat, id: string, v: Visit)
    requires 2 * skew <= TTL_SECONDS - SECONDS_PER_DAY
    requires AllBacked(s, cap, skew) && WellTimed(s.clock, v, skew)
    ensures var key := ResumeCounterKey(v.now, id);
            key in s.store ==> LiveAt(s.store, key, v.incrClock)
  {
    var key := ResumeCounterKey(v.now, id);
    assert Backed(s, cap, skew, key);
  }

  lemma IncrKeepsBacked(s: Sweep, cap: int, skew: nat, key: CounterKey, v: Visit)
    requires AllBacked(s, cap, skew) && (key in s.store ==> LiveAt(s.store, key, v.incrClock))
    ensures AllBacked(AfterIncr(s, key, v), cap, skew)
    ensures Handed(s, key) < AfterIncr(s, key, v).store[key].count
  {
    var t := AfterIncr(s, key, v);
    assert Backed(s, cap, skew, key);
    forall k ensures Backed(t, cap, skew, k) {
      assert Backed(s, cap, skew, k);
    }
  }

  lemma ExpireKeepsBacked(s: Sweep, cap: int, skew: nat, key: CounterKey, v: Visit)
    requires AllBacked(s, cap, skew)
    requires key.day * SECONDS_PER_DAY - skew <= v.expireClock
    ensures AllBacked(AfterExpire(s, key, v), cap, skew)
    ensures key in s.store ==> key in AfterExpire(s, key, v).store && AfterExpire(s, key, v).store[key].count == s.store[key].count
  {
    var t := AfterExpire(s, key, v);
    forall k ensures Backed(t, cap, skew, k) {
      assert Backed(s, cap, skew, k);
    }
  }

  lemma HandingKeepsBacked(s: Sweep, cap: int, skew: nat, key: CounterKey)
    requires AllBacked(s, cap, skew)
    requires key in s.store && Handed(s, key) < s.store[key].count <= cap
    ensures AllBacked(s.(handed := s.handed + [key]), cap, skew)
  {
    var t := s.(handed := s.handed + [key]);
    forall k ensures Backed(t, cap, skew, k) {
      assert Backed(s, cap, skew, k);
      assert Handed(t, k) == Handed(s, k) + if k == key then 1 else 0;
    }
  }

  lemma ClockKeepsBacked(s: Sweep, cap: int, skew: nat, clock: int)
    requires AllBacked(s, cap, skew)
    ensures AllBacked(s.(clock := clock), cap, skew)
  {
    forall k ensures Backed(s.(clock := clock), cap, skew, k) {
      assert Backed(s, cap, skew, k);
    }
  }

  lemma CountedKeepsBacked(s: Sweep, cap: int, skew: nat, id: string, v: Visit)
    requires 2 * skew <= TTL_SECONDS - SECONDS_PER_DAY
    requires AllBacked(s, cap, skew) && WellTimed(s.clock, v, skew)
    ensures AllBacked(Counted(s, ResumeCounterKey(v.now, id), v), cap, skew)
    ensures !v.fault.IncrRaises? && !v.fault.ExpireRaises? ==>
              var key := ResumeCounterKey(v.now, id);
              var t := Counted(s, key, v);
              key in t.store && t.handed == s.handed && Handed(t, key) < t.store[key].count
              && t.store[key].count == Incremented(s.store, key, v.incrClock).count
  {
    var key := ResumeCounterKey(v.now, id);
    NotExpiredWithinItsDay(s, cap, skew, id, v);
    IncrKeepsBacked(s, cap, skew, key, v);
    var t := AfterIncr(s, key, v);
    ExpireKeepsBacked(t, cap, skew, key, v);
    ClockKeepsBacked(s, cap, skew, v.incrClock);
    ClockKeepsBacked(t, cap, skew, v.expireClock);
  }

  lemma VisitKeepsBacked(s: Sweep, cap: int, skew: nat, id: string, v: Visit)
    requires 2 * skew <= TTL_SECONDS - SECONDS_PER_DAY
    requires AllBacked(s, cap, skew) && WellTimed(s.clock, v, skew)
    ensures AllBacked(VisitSpec(s, cap, id, v).0, cap, skew)
    ensures VisitSpec(s, cap, id, v).0.clock == ClockAfter(v)
  {
    var key := ResumeCounterKey(v.now, id);
    CountedKeepsBacked(s, cap, skew, id, v);
    var t := Counted(s, key, v);
    if !v.fault.IncrRaises? && !v.fault.ExpireRaises? && t.store[key].count <= cap {
      HandingKeepsBacked(t, cap, skew, key);
    }
  }

  lemma {:induction false} RunKeepsBacked(clock: int, cap: int, skew: nat, steps: seq<Step>)
    requires 2 * skew <= TTL_SECONDS - SECONDS_PER_DAY
    requires WellTimedRun(clock, steps, skew)
    ensures AllBacked(RunSpec(Fresh(clock), cap, steps), cap, skew)
    ensures RunSpec(Fresh(clock), cap, steps).clock ==
            if steps == [] then clock else ClockAfter(steps[|steps| - 1].visit)
  {
    if steps != [] {
      var last := |steps| - 1;
      RunKeepsBacked(clock, cap, skew, steps[..last]);
      VisitKeepsBacked(RunSpec(Fresh(clock), cap, steps[..last]), cap, skew, steps[last].listId, steps[last].visit);
    }
  }

  ghost predicate CapHolds(skew: nat) {
    forall clock: int, cap: int, steps: seq<Step>, key: CounterKey |
      WellTimedRun(clock, steps, skew) ::
      Handed(RunSpec(Fresh(clock), cap, steps), key) <= Max(cap, 0)
  }

  // Two visits of one UTC day, one by a worker whose server is `skew` behind, one by a worker
  // whose server is `skew` ahead.
  function SkewedDay(skew: nat): seq<Step> {
    var first := Visit(Naive(0), 0 - skew, 0 - skew, NoFault);
    var second := Visit(Naive(SECONDS_PER_DAY - 1), SECONDS_PER_DAY - 1 + skew, SECONDS_PER_DAY - 1 + skew, NoFault);
    [Step("jl", first), Step("jl", second)]
  }

  lemma SkewedDayBreaksTheCap(skew: nat)
    requires 2 * skew > TTL_SECONDS - SECONDS_PER_DAY
    ensures WellTimedRun(0 - skew, SkewedDay(skew), skew)
    ensures Handed(RunSpec(Fresh(0 - skew), 1, SkewedDay(skew)), CounterKey(0, "jl")) == 2
  {
    var steps := SkewedDay(skew);
    var key := CounterKey(0, "jl");
    var none: seq<Step> := [];
    assert steps[..1] == [steps[0]] && steps[..1][..0] == none;
    assert WellTimedRun(0 - skew, none, skew) && WellTimedRun(0 - skew, [steps[0]], skew);
    var one := RunSpec(Fresh(0 - skew), 1, [steps[0]]);
    assert one == VisitSpec(RunSpec(Fresh(0 - skew), 1, none), 1, "jl", steps[0].visit).0;
    assert one.store[key] == Counter(1, Some(0 - skew + TTL_SECONDS)) && one.handed == [key];
    var two := RunSpec(Fresh(0 - skew), 1, steps);
    assert two == VisitSpec(one, 1, "jl", steps[1].visit).0;
    assert two.handed == [key, key];
  }

  // The 26-hour expiry caps hand-overs per list and UTC day in every run exactly when the two
  // clocks stay within one hour of each other.
  lemma CapHoldsIff(skew: nat)
    ensures CapHolds(skew) <==> skew <= 3600
  {
    if skew <= 3600 {
      forall clock: int, cap: int, steps: seq<Step>, key: CounterKey | WellTimedRun(clock, steps, skew)
        ensures Handed(RunSpec(Fresh(clock), cap, steps), key) <= Max(cap, 0)
      {
        RunKeepsBacked(clock, cap, skew, steps);
        assert Backed(RunSpec(Fresh(clock), cap, steps), cap, skew, key);
      }
    } else {
      SkewedDayBreaksTheCap(skew);
    }
  }

  // How often a run visits a key.
  function Visits(steps: seq<Step>, key: CounterKey): nat {
    if steps == [] then 0
    else
      var last := steps[|steps| - 1];
      Visits(steps[..|steps| - 1], key) + if ResumeCounterKey(last.visit.now, last.listId) == key then 1 else 0
  }

  predicate FaultFree(steps: seq<Step>) {
    forall i :: 0 <= i < |steps| ==> steps[i].visit.fault == NoFault
  }

  function Count(s: Sweep, key: CounterKey): nat {
    if key in s.store then s.store[key].count else 0
  }

  lemma FaultFreeVisit(s: Sweep, cap: nat, id: string, v: Visit, key: CounterKey)
    requires v.fault == NoFault
    requires ResumeCounterKey(v.now, id) in s.store ==> LiveAt(s.store, ResumeCounterKey(v.now, id), v.incrClock)
    requires Handed(s, key) == Min(Count(s, key), cap)
    ensures var t := VisitSpec(s, cap, id, v).0;
            Count(t, key) == Count(s, key) + (if ResumeCounterKey(v.now, id) == key then 1 else 0)
            && Handed(t, key) == Min(Count(t, key), cap)
  {
    var t := VisitSpec(s, cap, id, v).0;
    var own := ResumeCounterKey(v.now, id);
    if t.handed != s.handed {
      assert Handed(t, key) == Handed(s, key) + if own == key then 1 else 0;
    }
  }

  // Without faults nothing is lost either: each key is handed over on its first `cap` visits
  // and on no other.
  lemma {:induction false} FaultFreeRunsHandOverFirstVisits(
    clock: int, cap: nat, skew: nat, steps: seq<Step>, key: CounterKey)
    requires skew <= 3600
    requires WellTimedRun(clock, steps, skew) && FaultFree(steps)
    ensures Handed(RunSpec(Fresh(clock), cap, steps), key) == Min(Visits(steps, key), cap)
    ensures Count(RunSpec(Fresh(clock), cap, steps), key) == Visits(steps, key)
  {
    if steps != [] {
      var last := |steps| - 1;
      FaultFreeRunsHandOverFirstVisits(clock, cap, skew, steps[..last], key);
      RunKeepsBacked(clock, cap, skew, steps[..last]);
      var s := RunSpec(Fresh(clock), cap, steps[..last]);
      NotExpiredWithinItsDay(s, cap, skew, steps[last].listId, steps[last].visit);
      FaultFreeVisit(s, cap, steps[last].listId, steps[last].visit, key);
    }
  }
}
