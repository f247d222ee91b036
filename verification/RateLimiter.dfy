/**
 The request limiter: one token bucket per key, kept in a map that is trimmed
 of idle entries from time to time.

 Bucket levels are integers. One request costs `REQUEST` units and a bucket
 gains `rpm` units every nanosecond, which is the rate of `rpm` requests a
 minute without any rounding.
 */
module RateLimiter {
  import opened Prelude

  const REQUEST: int := 60 * SECOND
  const TRIM_EVERY: int := 5 * MINUTE
  const IDLE_LIMIT: int := 10 * MINUTE

  datatype Rules = Rules(rpm: int, burst: int) {
    ghost predicate Valid() {
      rpm > 0 && burst > 0
    }

    /** A bucket idle for longer than the limit, by a nanosecond at least, is full. */
    ghost predicate IdleFills() {
      burst * REQUEST <= (IDLE_LIMIT + 1) * rpm
    }
  }

  datatype Bucket = Bucket(level: int, last: int)

  datatype State = State(buckets: map<string, Bucket>, lastTrim: int)

  // ---- What one call does -------------------------------------------------

  /** The units gained between two instants. */
  function Gained(r: Rules, from: int, to: int): int {
    (to - from) * r.rpm
  }

  lemma GainedSplits(r: Rules, a: int, b: int, c: int)
    ensures Gained(r, a, b) + Gained(r, b, c) == Gained(r, a, c)
  {
  }

  lemma GainedNonnegative(r: Rules, a: int, b: int)
    requires r.Valid() && a <= b
    ensures Gained(r, a, b) >= 0
  {
  }

  function Refill(r: Rules, b: Bucket, now: int): int {
    Min(r.burst * REQUEST, b.level + Gained(r, b.last, now))
  }

  /** One request against one bucket, or against a key that has none. */
  function Take(r: Rules, b: Option<Bucket>, now: int): (Bucket, bool) {
    match b
    case None => (Bucket((r.burst - 1) * REQUEST, now), true)
    case Some(b) =>
      var level := Refill(r, b, now);
      if level < REQUEST then (Bucket(level, now), false)
      else (Bucket(level - REQUEST, now), true)
  }

  function Lookup(buckets: map<string, Bucket>, key: string): Option<Bucket> {
    if key in buckets then Some(buckets[key]) else None
  }

  function Trim(s: State, now: int): State {
    if now - s.lastTrim > TRIM_EVERY then
      State(map k | k in s.buckets && now - s.buckets[k].last <= IDLE_LIMIT :: s.buckets[k], now)
    else
      s
  }

  function Allow(r: Rules, s: State, key: string, now: int): (State, bool) {
    var trimmed := Trim(s, now);
    var (b, ok) := Take(r, Lookup(trimmed.buckets, key), now);
    (trimmed.(buckets := trimmed.buckets[key := b]), ok)
  }

  /** The limiter object. Its map is updated and trimmed in place. */
  class Limiter {
    var clients: map<string, Bucket>
    var lastTrim: int
    const rules: Rules

    ghost function Contents(): State
      reads this
    {
      State(clients, lastTrim)
    }

    /** `epoch` is the zero clock value, earlier than every call by more than the trim interval. */
    constructor (requestsPerMinute: int, burst: int, epoch: int)
      ensures rules.Valid()
      ensures rules.rpm == if requestsPerMinute <= 0 then 60 else requestsPerMinute
      ensures rules.burst == if burst <= 0 then 20 else burst
      ensures Contents() == State(map[], epoch)
    {
      rules := Rules(if requestsPerMinute <= 0 then 60 else requestsPerMinute, if burst <= 0 then 20 else burst);
      clients := map[];
      lastTrim := epoch;
    }

    method Admit(key: string, now: int) returns (ok: bool)
      modifies this
      ensures (Contents(), ok) == Allow(rules, old(Contents()), key, now)
    {
      if now - lastTrim > TRIM_EVERY {
        var pending := clients.Keys;
        ghost var before := clients;
        while pending != {}
          invariant pending <= before.Keys
          invariant clients == map k | k in before && (k in pending || now - before[k].last <= IDLE_LIMIT) :: before[k]
          invariant lastTrim == old(lastTrim)
        {
          var k :| k in pending;
          if now - clients[k].last > IDLE_LIMIT {
            clients := clients - {k};
          }
          pending := pending - {k};
        }
        lastTrim := now;
      }
      ghost var trimmed := Trim(old(Contents()), now);
      assert Contents() == trimmed;
      if key !in clients {
        clients := clients[key := Bucket((rules.burst - 1) * REQUEST, now)];
        return true;
      }
      var b := clients[key];
      var elapsed := now - b.last;
      b := b.(level := Min(rules.burst * REQUEST, b.level + elapsed * rules.rpm));
      assert b.level == Refill(rules, trimmed.buckets[key], now);
      b := b.(last := now);
      if b.level < REQUEST {
        clients := clients[key := b];
        return false;
      }
      clients := clients[key := b.(level := b.level - REQUEST)];
      return true;
    }
  }

  // ---- Sequences of calls -------------------------------------------------

  datatype Call = Call(key: string, at: int)

  /** The calls arrive in clock order, none before `start`. */
  ghost predicate InOrder(calls: seq<Call>, start: int) {
    && (forall i :: 0 <= i < |calls| ==> start <= calls[i].at)
    && (forall i, j :: 0 <= i < j < |calls| ==> calls[i].at <= calls[j].at)
  }

  /** The shared limiter after serving `calls`, from an empty map last trimmed at `start`. */
  function After(r: Rules, start: int, calls: seq<Call>): State {
    if calls == [] then State(map[], start)
    else
      var n := |calls| - 1;
      Allow(r, After(r, start, calls[..n]), calls[n].key, calls[n].at).0
  }

  /** The shared limiter's answer to the last of `calls`. */
  function Decision(r: Rules, start: int, calls: seq<Call>): bool
    requires calls != []
  {
    var n := |calls| - 1;
    Allow(r, After(r, start, calls[..n]), calls[n].key, calls[n].at).1
  }

  /** The instants at which `key` itself called. */
  function TimesOf(calls: seq<Call>, key: string): seq<int> {
    if calls == [] then []
    else
      var n := |calls| - 1;
      TimesOf(calls[..n], key) + (if calls[n].key == key then [calls[n].at] else [])
  }

  /** A private bucket that is never trimmed, after calls at `times`. */
  function SoloAfter(r: Rules, times: seq<int>): Option<Bucket> {
    if times == [] then None
    else Some(Take(r, SoloAfter(r, times[..|times| - 1]), times[|times| - 1]).0)
  }

  /** The private bucket's answer to the last of `times`. */
  function SoloDecision(r: Rules, times: seq<int>): bool
    requires times != []
  {
    Take(r, SoloAfter(r, times[..|times| - 1]), times[|times| - 1]).1
  }

  /** How many of the calls from position `from` on were `key`'s and were admitted. */
  function Admitted(r: Rules, start: int, calls: seq<Call>, key: string, from: nat): nat {
    if |calls| <= from then 0
    else
      var n := |calls| - 1;
      Admitted(r, start, calls[..n], key, from) +
      if calls[n].key == key && Decision(r, start, calls) then 1 else 0
  }

  // ---- The trimmed shared map refines private untrimmed buckets -----------

  lemma InOrderPrefix(calls: seq<Call>, start: int)
    requires calls != [] && InOrder(calls, start)
    ensures InOrder(calls[..|calls| - 1], start)
  {
  }

  /**
   A key's entry in the shared map is its private bucket; a key without an entry
   never called, or its private bucket was idle beyond the limit at the last trim.
   */
  ghost predicate Agrees(s: State, key: string, solo: Option<Bucket>) {
    if key in s.buckets then solo == Some(s.buckets[key])
    else solo.Some? ==> s.lastTrim - solo.value.last > IDLE_LIMIT
  }

  ghost predicate LevelOk(r: Rules, solo: Option<Bucket>) {
    solo.Some? ==> 0 <= solo.value.level <= r.burst * REQUEST
  }

  /** A deleted and recreated bucket ends in the state of one refilled after a long idle time. */
  lemma RecreatedIsRefilled(r: Rules, b: Bucket, now: int)
    requires r.Valid() && r.IdleFills()
    requires 0 <= b.level && now - b.last > IDLE_LIMIT
    ensures Take(r, None, now) == Take(r, Some(b), now)
  {
    LongerGainsMore(now - b.last, IDLE_LIMIT + 1, r.rpm);
    OneLess(r.burst);
  }

  lemma LongerGainsMore(a: int, b: int, rate: nat)
    requires a >= b
    ensures a * rate >= b * rate
  {
  }

  lemma OneLess(burst: int)
    ensures burst * REQUEST - REQUEST == (burst - 1) * REQUEST
  {
  }

  lemma TakeLevelOk(r: Rules, b: Option<Bucket>, now: int)
    requires r.Valid() && LevelOk(r, b) && (b.Some? ==> b.value.last <= now)
    ensures LevelOk(r, Some(Take(r, b, now).0))
  {
    if b.Some? {
      assert (now - b.value.last) * r.rpm >= 0;
    }
  }

  /** What relates the shared map to one key's private bucket at clock value `now`. */
  ghost predicate Related(r: Rules, s: State, key: string, solo: Option<Bucket>, now: int) {
    && Agrees(s, key, solo) && LevelOk(r, solo)
    && s.lastTrim <= now && (solo.Some? ==> solo.value.last <= now)
  }

  lemma RelatedStep(r: Rules, s: State, key: string, solo: Option<Bucket>, earlier: int, call: Call)
    requires r.Valid() && r.IdleFills()
    requires Related(r, s, key, solo, earlier) && earlier <= call.at
    ensures Related(r, Allow(r, s, call.key, call.at).0, key,
                    if call.key == key then Some(Take(r, solo, call.at).0) else solo, call.at)
  {
    if call.key == key {
      TakeLevelOk(r, solo, call.at);
      StepAgrees(r, s, key, call.at, solo);
    }
  }

  /** The clock after `calls`. */
  function Clock(start: int, calls: seq<Call>): int {
    if calls == [] then start else calls[|calls| - 1].at
  }

  lemma {:induction false} Simulation(r: Rules, start: int, calls: seq<Call>, key: string)
    requires r.Valid() && r.IdleFills() && InOrder(calls, start)
    ensures Related(r, After(r, start, calls), key, SoloAfter(r, TimesOf(calls, key)), Clock(start, calls))
  {
    hide Allow, Take, Related;
    if calls == [] {
      SimulationStart(r, start, key);
    } else {
      var n := |calls| - 1;
      InOrderPrefix(calls, start);
      Simulation(r, start, calls[..n], key);
      var times := TimesOf(calls, key);
      if calls[n].key == key {
        assert times[..|times| - 1] == TimesOf(calls[..n], key);
      } else {
        assert times == TimesOf(calls[..n], key);
      }
      RelatedStep(r, After(r, start, calls[..n]), key, SoloAfter(r, TimesOf(calls[..n], key)), Clock(start, calls[..n]), calls[n]);
    }
  }

  lemma SimulationStart(r: Rules, start: int, key: string)
    ensures Related(r, State(map[], start), key, None, start)
  {
  }

  lemma StepAgrees(r: Rules, s: State, key: string, now: int, solo: Option<Bucket>)
    requires r.Valid() && r.IdleFills()
    requires Agrees(s, key, solo) && LevelOk(r, solo) && s.lastTrim <= now
    ensures Allow(r, s, key, now).1 == Take(r, solo, now).1
    ensures Allow(r, s, key, now).0.buckets[key] == Take(r, solo, now).0
  {
    if Lookup(Trim(s, now).buckets, key) != solo {
      RecreatedIsRefilled(r, solo.value, now);
    }
  }

  /** Every answer of the shared, trimmed limiter is the answer of the key's own untrimmed bucket. */
  lemma SharedRefinesSolo(r: Rules, start: int, calls: seq<Call>)
    requires r.Valid() && r.IdleFills() && InOrder(calls, start) && calls != []
    ensures var times := TimesOf(calls, calls[|calls| - 1].key);
            times != [] && Decision(r, start, calls) == SoloDecision(r, times)
  {
    var n := |calls| - 1;
    var key := calls[n].key;
    InOrderPrefix(calls, start);
    Simulation(r, start, calls[..n], key);
    var times := TimesOf(calls, key);
    assert times[..|times| - 1] == TimesOf(calls[..n], key);
    StepAgrees(r, After(r, start, calls[..n]), key, calls[n].at, SoloAfter(r, TimesOf(calls[..n], key)));
  }

  // ---- The hypothesis on the burst is exactly what is needed ---------------

  ghost predicate AlwaysAgree(r: Rules) {
    forall start: int, calls: seq<Call> {:trigger InOrder(calls, start)} :: InOrder(calls, start) && calls != [] && TimesOf(calls, calls[|calls| - 1].key) != [] ==>
      Decision(r, start, calls) == SoloDecision(r, TimesOf(calls, calls[|calls| - 1].key))
  }

  /** `m` calls of one key at one instant, after `first`. */
  function Repeat(first: seq<Call>, at: int, m: nat): seq<Call> {
    if m == 0 then first else Repeat(first, at, m - 1) + [Call("k", at)]
  }

  lemma {:induction false} RepeatInOrder(first: seq<Call>, start: int, at: int, m: nat)
    requires InOrder(first, start) && start <= at && forall i :: 0 <= i < |first| ==> first[i].at <= at
    ensures var calls := Repeat(first, at, m);
            && InOrder(calls, start) && (m > 0 ==> calls != [])
            && forall i :: 0 <= i < |calls| ==> calls[i].at <= at
  {
    if m > 0 {
      RepeatInOrder(first, start, at, m - 1);
    }
  }

  lemma TakeAtOnce(r: Rules, level: int, at: int)
    requires level <= r.burst * REQUEST
    ensures Take(r, Some(Bucket(level, at)), at) ==
            if level < REQUEST then (Bucket(level, at), false) else (Bucket(level - REQUEST, at), true)
  {
    assert Gained(r, at, at) == 0;
  }

  /** `m <= burst` calls at once on a key without an entry: all admitted, `burst - m` left. */
  lemma {:induction false} FreshBurst(r: Rules, start: int, first: seq<Call>, at: int, m: nat)
    requires r.Valid() && 1 <= m <= r.burst
    requires "k" !in Trim(After(r, start, first), at).buckets
    ensures var calls := Repeat(first, at, m);
            && Decision(r, start, calls)
            && After(r, start, calls).lastTrim == Trim(After(r, start, first), at).lastTrim
            && "k" in After(r, start, calls).buckets
            && After(r, start, calls).buckets["k"] == Bucket((r.burst - m) * REQUEST, at)
  {
    var calls := Repeat(first, at, m);
    assert calls[..|calls| - 1] == Repeat(first, at, m - 1);
    if m > 1 {
      FreshBurst(r, start, first, at, m - 1);
      AllowAtOnce(r, After(r, start, Repeat(first, at, m - 1)), (r.burst - (m - 1)) * REQUEST, at);
    }
  }

  lemma AllowAtOnce(r: Rules, s: State, level: int, at: int)
    requires "k" in s.buckets && s.buckets["k"] == Bucket(level, at) && REQUEST <= level <= r.burst * REQUEST
    requires at - s.lastTrim <= TRIM_EVERY
    ensures Allow(r, s, "k", at) == (s.(buckets := s.buckets["k" := Bucket(level - REQUEST, at)]), true)
  {
    TakeAtOnce(r, level, at);
  }

  lemma {:induction false} RepeatTimes(first: seq<Call>, at: int, m: nat)
    ensures TimesOf(Repeat(first, at, m), "k") == TimesOf(first, "k") + seq(m, i => at)
  {
    if m > 0 {
      RepeatTimes(first, at, m - 1);
      var calls := Repeat(first, at, m);
      assert calls[..|calls| - 1] == Repeat(first, at, m - 1);
      assert seq(m, i => at) == seq(m - 1, i => at) + [at];
    }
  }

  /** The private bucket over `burst` calls at 0 and then `m` calls at `at`. */
  lemma {:induction false} SoloSecondBurst(r: Rules, at: int, m: nat)
    requires r.Valid() && 0 <= at && Gained(r, 0, at) <= r.burst * REQUEST && m * REQUEST <= Gained(r, 0, at)
    ensures SoloAfter(r, seq(r.burst, i => 0) + seq(m, i => at)) ==
            Some(if m == 0 then Bucket(0, 0) else Bucket(Gained(r, 0, at) - m * REQUEST, at))
  {
    var times := seq(r.burst, i => 0) + seq(m, i => at);
    if m == 0 {
      assert times == seq(r.burst, i => 0);
      SoloFirstBurst(r, r.burst);
    } else {
      SoloSecondBurst(r, at, m - 1);
      assert times[..|times| - 1] == seq(r.burst, i => 0) + seq(m - 1, i => at);
      if m > 1 {
        TakeAtOnce(r, Gained(r, 0, at) - (m - 1) * REQUEST, at);
      }
    }
  }

  lemma {:induction false} SoloFirstBurst(r: Rules, m: nat)
    requires r.Valid() && 1 <= m <= r.burst
    ensures SoloAfter(r, seq(m, i => 0)) == Some(Bucket((r.burst - m) * REQUEST, 0))
  {
    var times := seq(m, i => 0);
    assert times[..m - 1] == seq(m - 1, i => 0);
    if m > 1 {
      SoloFirstBurst(r, m - 1);
      TakeAtOnce(r, (r.burst - (m - 1)) * REQUEST, 0);
    }
  }

  /** The requests paid for by the shortest idle time that is over the limit. */
  function IdlePays(r: Rules): int {
    (IDLE_LIMIT + 1) * r.rpm / REQUEST
  }

  lemma IdlePaysLess(r: Rules)
    requires r.Valid() && !r.IdleFills()
    ensures var m, gained := IdlePays(r), Gained(r, 0, IDLE_LIMIT + 1);
            1 <= m < r.burst && m * REQUEST <= gained < (m + 1) * REQUEST && gained <= r.burst * REQUEST
  {
    LongerGainsMore(IDLE_LIMIT + 1, REQUEST, r.rpm);
  }

  /**
   With a larger burst the two disagree: drain the bucket, wait just over the idle limit, and
   the shared limiter admits one call more than a private bucket would have refilled for.
   */
  lemma LargeBurstDisagrees(r: Rules)
    requires r.Valid() && !r.IdleFills()
    ensures !AlwaysAgree(r)
  {
    hide Decision, SoloDecision, Repeat, TimesOf;
    IdlePaysLess(r);
    var at, m := IDLE_LIMIT + 1, IdlePays(r);
    var first := Repeat([], 0, r.burst);
    var calls := Repeat(first, at, m + 1);
    RepeatInOrder([], 0, 0, r.burst);
    RepeatInOrder(first, 0, at, m + 1);
    SharedAdmits(r, at, m + 1);
    SoloRefuses(r, at, m);
    assert InOrder(calls, 0);
  }

  lemma SharedAdmits(r: Rules, at: int, m: nat)
    requires r.Valid() && 1 <= m <= r.burst && at > IDLE_LIMIT
    ensures Decision(r, 0, Repeat(Repeat([], 0, r.burst), at, m))
  {
    var first := Repeat([], 0, r.burst);
    FreshBurst(r, 0, [], 0, r.burst);
    FreshBurst(r, 0, first, at, m);
  }

  lemma SoloRefuses(r: Rules, at: int, m: nat)
    requires r.Valid() && at == IDLE_LIMIT + 1 && m == IdlePays(r) && !r.IdleFills()
    ensures var calls := Repeat(Repeat([], 0, r.burst), at, m + 1);
            calls[|calls| - 1].key == "k" && TimesOf(calls, "k") != [] && !SoloDecision(r, TimesOf(calls, "k"))
  {
    RepeatTimes([], 0, r.burst);
    RepeatTimes(Repeat([], 0, r.burst), at, m + 1);
    assert [] + seq(r.burst, i => 0) == seq(r.burst, i => 0);
    SoloRefusesAtOnce(r, at, m);
  }

  lemma SoloRefusesAtOnce(r: Rules, at: int, m: nat)
    requires r.Valid() && at == IDLE_LIMIT + 1 && m == IdlePays(r) && !r.IdleFills()
    ensures !SoloDecision(r, seq(r.burst, i => 0) + seq(m + 1, i => at))
  {
    hide IdlePays, Gained;
    var times := seq(r.burst, i => 0) + seq(m + 1, i => at);
    assert times[..|times| - 1] == seq(r.burst, i => 0) + seq(m, i => at);
    IdlePaysLess(r);
    SoloSecondBurst(r, at, m);
    TakeAtOnce(r, Gained(r, 0, at) - m * REQUEST, at);
  }

  /**
   Agreement over every run holds exactly when the shortest idle time over the limit, which is one
   nanosecond longer, fills a bucket.
   */
  lemma RefinementExact(r: Rules)
    requires r.Valid()
    ensures AlwaysAgree(r) <==> r.burst * REQUEST <= (IDLE_LIMIT + 1) * r.rpm
  {
    if r.IdleFills() {
      forall start, calls: seq<Call> | InOrder(calls, start) && calls != []
        ensures TimesOf(calls, calls[|calls| - 1].key) != [] &&
                Decision(r, start, calls) == SoloDecision(r, TimesOf(calls, calls[|calls| - 1].key))
      {
        SharedRefinesSolo(r, start, calls);
      }
    } else {
      LargeBurstDisagrees(r);
    }
  }

  /** In requests a minute: ten minutes' worth is always enough, and below a request a nanosecond it is the most there can be. */
  lemma TenMinutesWorth(r: Rules)
    requires r.Valid()
    ensures r.burst <= 10 * r.rpm ==> AlwaysAgree(r)
    ensures r.rpm < REQUEST ==> (AlwaysAgree(r) <==> r.burst <= 10 * r.rpm)
  {
    RefinementExact(r);
  }

  // ---- Window bound ---------------------------------------------------------

  /** `count` admitted requests and the remaining level are paid for by the burst and the refill since `from`. */
  ghost predicate Paid(r: Rules, count: int, b: Bucket, from: int) {
    count * REQUEST + b.level <= r.burst * REQUEST + Gained(r, from, b.last)
  }

  lemma PaidAtFirst(r: Rules, b: Option<Bucket>, now: int)
    requires r.Valid()
    ensures var (next, ok) := Take(r, b, now); Paid(r, if ok then 1 else 0, next, now)
  {
  }

  lemma PaidStep(r: Rules, count: int, b: Bucket, from: int, now: int)
    requires Paid(r, count, b, from)
    ensures var (next, ok) := Take(r, Some(b), now); Paid(r, count + if ok then 1 else 0, next, from)
  {
    GainedSplits(r, from, b.last, now);
  }

  lemma PaidBound(r: Rules, count: int, b: Bucket, from: int, now: int)
    requires r.Valid() && Paid(r, count, b, from) && 0 <= b.level && b.last <= now
    ensures count * REQUEST <= r.burst * REQUEST + Gained(r, from, now)
  {
    GainedSplits(r, from, b.last, now);
    GainedNonnegative(r, b.last, now);
  }

  lemma {:induction false} Potential(r: Rules, start: int, calls: seq<Call>, i: nat)
    requires r.Valid() && r.IdleFills() && InOrder(calls, start) && i < |calls|
    ensures var key := calls[i].key; var solo := SoloAfter(r, TimesOf(calls, key));
            && solo.Some? && solo.value.last <= calls[|calls| - 1].at
            && Paid(r, Admitted(r, start, calls, key, i), solo.value, calls[i].at)
  {
    var n := |calls| - 1;
    var key := calls[i].key;
    var times, earlier := TimesOf(calls, key), TimesOf(calls[..n], key);
    InOrderPrefix(calls, start);
    if i < n {
      Potential(r, start, calls[..n], i);
    }
    if calls[n].key == key {
      assert times[..|times| - 1] == earlier;
      SharedRefinesSolo(r, start, calls);
      if i == n {
        PaidAtFirst(r, SoloAfter(r, earlier), calls[n].at);
      } else {
        PaidStep(r, Admitted(r, start, calls[..n], key, i), SoloAfter(r, earlier).value, calls[i].at, calls[n].at);
      }
    } else {
      assert times == earlier;
    }
  }

  /**
   The requests admitted for one key between any two of its calls, both included, number at
   most the burst plus the rate times the time between them.
   */
  lemma WindowBound(r: Rules, start: int, calls: seq<Call>, i: nat)
    requires r.Valid() && r.IdleFills() && InOrder(calls, start)
    requires i < |calls| && calls[|calls| - 1].key == calls[i].key
    ensures Admitted(r, start, calls, calls[i].key, i) * REQUEST
            <= r.burst * REQUEST + Gained(r, calls[i].at, calls[|calls| - 1].at)
  {
    var key := calls[i].key;
    Potential(r, start, calls, i);
    Simulation(r, start, calls, key);
    PaidBound(r, Admitted(r, start, calls, key, i), SoloAfter(r, TimesOf(calls, key)).value, calls[i].at, calls[|calls| - 1].at);
  }

  // ---- Staleness and steady service, for every burst -------------------------

  lemma {:induction false} MapFacts(r: Rules, start: int, calls: seq<Call>, key: string)
    requires r.Valid() && InOrder(calls, start)
    ensures var s := After(r, start, calls); var times := TimesOf(calls, key);
            && (calls == [] ==> s == State(map[], start))
            && (calls != [] ==> s.lastTrim <= calls[|calls| - 1].at <= s.lastTrim + TRIM_EVERY)
            && (key in s.buckets ==>
                  && times != [] && s.buckets[key].last == times[|times| - 1]
                  && s.buckets[key].last <= calls[|calls| - 1].at
                  && LevelOk(r, Some(s.buckets[key]))
                  && s.lastTrim - s.buckets[key].last <= IDLE_LIMIT)
  {
    if calls != [] {
      var n := |calls| - 1;
      InOrderPrefix(calls, start);
      MapFacts(r, start, calls[..n], key);
      var s := After(r, start, calls[..n]);
      var now := calls[n].at;
      var b := Lookup(Trim(s, now).buckets, key);
      TakeLevelOk(r, b, now);
    }
  }

  /** After every call, each bucket still in the map was touched within the last fifteen minutes. */
  lemma BoundedStaleness(r: Rules, start: int, calls: seq<Call>)
    requires r.Valid() && InOrder(calls, start) && calls != []
    ensures var s := After(r, start, calls);
            forall key :: key in s.buckets ==> calls[|calls| - 1].at - s.buckets[key].last <= TRIM_EVERY + IDLE_LIMIT
  {
    forall key | key in After(r, start, calls).buckets
      ensures calls[|calls| - 1].at - After(r, start, calls).buckets[key].last <= TRIM_EVERY + IDLE_LIMIT
    {
      MapFacts(r, start, calls, key);
    }
  }

  /** The key's last call came at least one request's refill time after its previous one, if any. */
  ghost predicate LastCallSpaced(r: Rules, times: seq<int>) {
    |times| >= 2 ==> Gained(r, times[|times| - 2], times[|times| - 1]) >= REQUEST
  }

  lemma AllowSpaced(r: Rules, s: State, key: string, now: int)
    requires r.Valid()
    requires key in s.buckets ==> 0 <= s.buckets[key].level && Gained(r, s.buckets[key].last, now) >= REQUEST
    ensures Allow(r, s, key, now).1
  {
  }

  /** A key that keeps to the rate is never refused, whatever the other keys do and whatever the burst. */
  lemma SteadyService(r: Rules, start: int, calls: seq<Call>)
    requires r.Valid() && InOrder(calls, start) && calls != []
    requires LastCallSpaced(r, TimesOf(calls, calls[|calls| - 1].key))
    ensures Decision(r, start, calls)
  {
    var n := |calls| - 1;
    var key := calls[n].key;
    InOrderPrefix(calls, start);
    MapFacts(r, start, calls[..n], key);
    var times, earlier := TimesOf(calls, key), TimesOf(calls[..n], key);
    assert times == earlier + [calls[n].at];
    var s := After(r, start, calls[..n]);
    if key in s.buckets {
      assert times[|times| - 2] == s.buckets[key].last;
    }
    AllowSpaced(r, s, key, calls[n].at);
  }
}
