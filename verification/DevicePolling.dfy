/** The pace of device polling (internal/oauth/coordinator.go, StartDevice and scheduleDevicePoll). */
module DevicePolling {
  import opened Wrappers

  // Durations are 64-bit counts of nanoseconds.
  const SECOND := 1_000_000_000
  const DEFAULT_INTERVAL := 5 * SECOND
  const MAX_INTERVAL := 60 * SECOND
  const INT64 := 0x1_0000_0000_0000_0000
  const MAX_INT64 := 0x7fff_ffff_ffff_ffff

  /** Two's complement wrap-around of a product of durations. */
  function Wrap(n: int): int {
    var m := n % INT64;
    if m > MAX_INT64 then m - INT64 else m
  }

  /** An answer of the token endpoint that is an error. Other: not a TokenExchangeError. */
  datatype PollError = Exchange(code: string, httpStatus: int) | Other

  predicate Transient(e: PollError) {
    e.Exchange? && ((e.code == "http_403" && e.httpStatus == 403) || (e.code == "http_404" && e.httpStatus == 404))
  }

  /** nextDevicePollInterval: None when polling stops. */
  function NextInterval(current: int, e: PollError): (r: Option<int>) {
    if e.Other? then None
    else if e.code == "authorization_pending" then Some(current)
    else if e.code == "slow_down" then
      var doubled := Wrap(current * 2);
      var kept := if doubled <= 0 then current else doubled;
      var raised := if kept < DEFAULT_INTERVAL then DEFAULT_INTERVAL else kept;
      Some(if raised > MAX_INTERVAL then MAX_INTERVAL else raised)
    else if Transient(e) then Some(current)
    else None
  }

  /** The interval StartDevice schedules the first poll with; None: the provider's answer is refused. */
  function FirstInterval(interval: int): Option<int> {
    if interval < 0 then None else if interval == 0 then Some(DEFAULT_INTERVAL) else Some(interval)
  }

  function Min(a: int, b: int): int { if a < b then a else b }
  function Max(a: int, b: int): int { if a < b then b else a }

  /** The overflow guard makes the wrap-around invisible: slow_down doubles and clamps. */
  lemma SlowDownDoubles(current: int, httpStatus: int)
    requires 0 < current <= MAX_INT64
    ensures NextInterval(current, Exchange("slow_down", httpStatus))
            == Some(Min(MAX_INTERVAL, Max(DEFAULT_INTERVAL, 2 * current)))
  {
    if current * 2 > MAX_INT64 {
      assert Wrap(current * 2) == current * 2 - INT64;
    }
  }

  // ---------------------------------------------------------------- a whole flow's intervals

  /** The interval before the poll that follows these answers; None when one of them ends polling. */
  function Interval(first: int, answers: seq<PollError>): Option<int> {
    if answers == [] then Some(first)
    else
      var before := Interval(first, answers[..|answers| - 1]);
      if before.None? then None else NextInterval(before.value, answers[|answers| - 1])
  }

  /** Every scheduled interval is positive and at least the smaller of the first one and 60 s, and
      while the first is at most 60 s no answer makes the interval shrink. */
  lemma {:induction false} IntervalBounds(first: int, answers: seq<PollError>)
    requires 0 < first <= MAX_INT64 && Interval(first, answers).Some?
    ensures Min(first, MAX_INTERVAL) <= Interval(first, answers).value <= Max(first, MAX_INTERVAL)
    ensures first <= MAX_INTERVAL && answers != [] ==>
              var before := Interval(first, answers[..|answers| - 1]);
              before.Some? && before.value <= Interval(first, answers).value <= MAX_INTERVAL
  {
    if answers != [] {
      var last := answers[|answers| - 1];
      IntervalBounds(first, answers[..|answers| - 1]);
      if last.Exchange? && last.code == "slow_down" {
        SlowDownDoubles(Interval(first, answers[..|answers| - 1]).value, last.httpStatus);
      }
    }
  }

  function SlowDowns(answers: seq<PollError>): nat {
    if answers == [] then 0
    else
      var last := answers[|answers| - 1];
      SlowDowns(answers[..|answers| - 1]) + (if last.Exchange? && last.code == "slow_down" then 1 else 0)
  }

  function Pow2(n: nat): int { if n == 0 then 1 else 2 * Pow2(n - 1) }

  lemma {:induction false} Pow2Grows(n: nat)
    ensures Pow2(n) >= 1
  {
    if n > 0 { Pow2Grows(n - 1); }
  }

  /** The interval depends only on how many answers said slow_down: from the second on each doubles
      it, the first raises it to at least 5 s, and 60 s is the ceiling. */
  lemma {:induction false} IntervalFormula(first: int, answers: seq<PollError>)
    requires 0 < first <= MAX_INT64 && Interval(first, answers).Some?
    ensures Interval(first, answers).value ==
            (var n := SlowDowns(answers);
             if n == 0 then first else Min(MAX_INTERVAL, Max(DEFAULT_INTERVAL, 2 * first) * Pow2(n - 1)))
  {
    if answers != [] {
      var before := answers[..|answers| - 1];
      var last := answers[|answers| - 1];
      IntervalFormula(first, before);
      if last.Exchange? && last.code == "slow_down" {
        IntervalBounds(first, before);
        SlowDownDoubles(Interval(first, before).value, last.httpStatus);
        var n := SlowDowns(before);
        if n > 0 {
          Pow2Grows(n - 1);
          Doubled(Max(DEFAULT_INTERVAL, 2 * first), Pow2(n - 1));
        }
      }
    }
  }

  lemma Doubled(base: int, p: int)
    requires base >= DEFAULT_INTERVAL && p >= 1
    ensures base * (2 * p) == 2 * (base * p) && base * p >= DEFAULT_INTERVAL
  {
    calc { base * (2 * p); 2 * (base * p); }
  }

  // ---------------------------------------------------------------- the number of polls

  /** times[k] is when the callback of poll k passed its expiry test and asked the provider: a timer
      never fires early, the clock never runs backwards, and poll k+1 is scheduled after poll k's
      answer. */
  ghost predicate Polls(start: int, expiresAt: int, first: int, answers: seq<PollError>, times: seq<int>) {
    && |times| <= |answers| + 1
    && forall k :: 0 <= k < |times| ==>
         && Interval(first, answers[..k]).Some?
         && times[k] < expiresAt
         && times[k] >= (if k == 0 then start else times[k - 1]) + Interval(first, answers[..k]).value
  }

  lemma {:induction false} PollsAreSpread(start: int, expiresAt: int, first: int, answers: seq<PollError>,
                                          times: seq<int>, k: nat)
    requires 0 < first <= MAX_INT64 && Polls(start, expiresAt, first, answers, times) && k < |times|
    ensures times[k] >= start + (k + 1) * Min(first, MAX_INTERVAL)
  {
    hide Min, Max;
    var m := Min(first, MAX_INTERVAL);
    IntervalBounds(first, answers[..k]);
    assert times[k] >= (if k == 0 then start else times[k - 1]) + m;
    if k == 0 {
      assert (k + 1) * m == m;
    } else {
      PollsAreSpread(start, expiresAt, first, answers, times, k - 1);
      assert times[k - 1] >= start + k * m;
      OneMore(k, m);
    }
  }

  lemma OneMore(k: nat, m: int)
    ensures (k + 1) * m == k * m + m && 0 * m == 0
  {
  }

  /** A device flow asks the provider fewer than TTL / min(first interval, 60 s) times. */
  lemma PollsAreBounded(start: int, expiresAt: int, interval: int, answers: seq<PollError>, times: seq<int>)
    requires interval <= MAX_INT64 && FirstInterval(interval).Some? && times != []
    requires Polls(start, expiresAt, FirstInterval(interval).value, answers, times)
    ensures |times| * Min(FirstInterval(interval).value, MAX_INTERVAL) < expiresAt - start
  {
    PollsAreSpread(start, expiresAt, FirstInterval(interval).value, answers, times, |times| - 1);
  }
}
