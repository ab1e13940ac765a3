/** The token bucket: one Redis script per call, one bucket per task kind. Tokens are exact
    reals here, where the script has doubles; times are milliseconds. */
module RateLimit {
  import opened Wrappers
  import Backoff

  const MILLI := 1_000_000

  /** max tokens per interval (in milliseconds). */
  datatype Rate = Rate(max: int, interval: int) {
    predicate Valid() { max >= 1 && interval >= 1 }

    function AsFlow(): Flow
      requires interval != 0
    {
      Flow(max as real, max as real / interval as real)
    }
  }

  /** The tokens a bucket holds when full, and those it gains in a millisecond. */
  datatype Flow = Flow(cap: real, refill: real) {
    predicate Positive() { cap >= 1.0 && refill > 0.0 }
  }

  datatype Bucket = Bucket(tokens: real, last: int)

  /** Refused: denied, with a hint that is no finite number. */
  datatype Result = Allowed(remaining: int) | Denied(retryMs: int) | Refused

  function Min(x: real, y: real): real {
    if y < x then y else x
  }

  function Ceil(x: real): int {
    -((-x).Floor)
  }

  /** The tokens there would be at a time with no cap. */
  function Level(f: Flow, b: Bucket, now: int): real {
    b.tokens + (now - b.last) as real * f.refill
  }

  /** The tokens a call finds. */
  function Tokens(f: Flow, b: Option<Bucket>, now: int): real {
    if b.None? then f.cap else Min(f.cap, Level(f, b.value, now))
  }

  /** What a call leaves of the tokens it finds. */
  function Left(tokens: real): real {
    if tokens >= 1.0 then tokens - 1.0 else tokens
  }

  /** The answer of a call that finds these tokens. */
  function Reply(f: Flow, tokens: real): Result {
    if tokens >= 1.0 then Allowed((tokens - 1.0).Floor)
    else if f.refill == 0.0 then Refused
    else Denied(Ceil((1.0 - tokens) / f.refill))
  }

  function Next(f: Flow, b: Option<Bucket>, now: int): Bucket {
    Bucket(Left(Tokens(f, b, now)), now)
  }

  function Take(f: Flow, b: Option<Bucket>, now: int): (Bucket, Result) {
    (Next(f, b, now), Reply(f, Tokens(f, b, now)))
  }

  /** One call at any rate. An expiry that is not positive deletes the key. With a zero
      interval the refill is infinite: the bucket is full unless the clock went back. */
  function Answer(r: Rate, b: Option<Bucket>, now: int): (Option<Bucket>, Result) {
    if r.interval == 0 then
      (None, if r.max >= 1 && (b.None? || now >= b.value.last) then Allowed(r.max - 1) else Refused)
    else
      var (bucket, result) := Take(r.AsFlow(), b, now);
      (if r.interval > 0 then Some(bucket) else None, result)
  }

  /** PEXPIRE: a bucket is gone twice the interval after its last call. */
  function Unexpired(b: Option<(Bucket, int)>, now: int): Option<Bucket> {
    if b.Some? && now < b.value.1 then Some(b.value.0) else None
  }

  /** Refill the bucket and take a token, if there is one. A missing bucket is a full one
      whose last call is now. */
  method Spend(f: Flow, ghost b: Option<Bucket>, have: real, last: int, nowMs: int) returns (left: real, res: Result)
    requires if b.None? then have == f.cap && last == nowMs else have == b.value.tokens && last == b.value.last
    ensures (Bucket(left, nowMs), res) == Take(f, b, nowMs)
  {
    var elapsed := nowMs - last;
    var added := elapsed as real * f.refill;
    left := Min(f.cap, have + added);
    if left >= 1.0 {
      left := left - 1.0;
      res := Allowed(left.Floor);
    } else {
      res := if f.refill == 0.0 then Refused else Denied(Ceil((1.0 - left) / f.refill));
    }
  }

  class Limiter {
    var tokens: map<string, real>
    var last: map<string, int>
    var expireAt: map<string, int>

    ghost predicate Valid()
      reads this
    {
      tokens.Keys == last.Keys == expireAt.Keys
    }

    /** What Redis holds for a kind: its bucket, and when the key expires. */
    ghost function Stored(kind: string): Option<(Bucket, int)>
      requires Valid()
      reads this
    {
      if kind in tokens then Some((Bucket(tokens[kind], last[kind]), expireAt[kind])) else None
    }

    constructor ()
      ensures Valid() && forall k :: Stored(k).None?
    {
      tokens, last, expireAt := map[], map[], map[];
    }

    /** per is in nanoseconds, and loses what is below a millisecond. */
    method Allow(kind: string, max: int, per: int, nowMs: int) returns (res: Result)
      requires Valid()
      modifies this
      ensures Valid()
      ensures var r, was := Rate(max, Backoff.TruncDiv(per, MILLI)), old(Unexpired(Stored(kind), nowMs));
              var (bucket, result) := Answer(r, was, nowMs);
              && res == result
              && Stored(kind) == if bucket.None? then None else Some((bucket.value, nowMs + 2 * r.interval))
      ensures forall k | k != kind :: Stored(k) == old(Stored(k))
    {
      var intervalMs := Backoff.TruncDiv(per, MILLI);
      var stored := kind in tokens && nowMs < expireAt[kind];
      if intervalMs == 0 {
        res := if max >= 1 && (!stored || nowMs >= last[kind]) then Allowed(max - 1) else Refused;
        tokens, last, expireAt := tokens - {kind}, last - {kind}, expireAt - {kind};
        return;
      }
      var have, lastRefill := max as real, nowMs;
      if stored {
        have, lastRefill := tokens[kind], last[kind];
      }
      var refillRate := max as real / intervalMs as real;
      have, res := Spend(Flow(max as real, refillRate), Unexpired(Stored(kind), nowMs), have, lastRefill, nowMs);
      if intervalMs > 0 {
        tokens, last, expireAt := tokens[kind := have], last[kind := nowMs], expireAt[kind := nowMs + intervalMs * 2];
      } else {
        tokens, last, expireAt := tokens - {kind}, last - {kind}, expireAt - {kind};
      }
    }
  }

  // ---- rates the limiter accepts but cannot keep ----

  /** The answers to calls at one rate, whatever it is, from an empty Redis; an expired bucket
      is one that Unexpired does not return. */
  function Answers(r: Rate, times: seq<int>): (Option<(Bucket, int)>, seq<Result>) {
    if times == [] then (None, [])
    else
      var (was, results) := Answers(r, times[..|times| - 1]);
      var now := times[|times| - 1];
      var (bucket, result) := Answer(r, Unexpired(was, now), now);
      (if bucket.None? then None else Some((bucket.value, now + 2 * r.interval)), results + [result])
  }

  /** Main result: a maximum below one lets nothing through; a maximum of one or more with an
      interval below a millisecond lets everything through. */
  lemma {:induction false} DegenerateRates(r: Rate, times: seq<int>)
    requires !r.Valid()
    ensures var results := Answers(r, times).1;
            |results| == |times| && forall k | 0 <= k < |times| :: results[k].Allowed? <==> r.max >= 1
    ensures r.max >= 1 ==> Answers(r, times).0 == None
  {
    if times != [] {
      DegenerateRates(r, times[..|times| - 1]);
    }
  }

  // ---- runs of calls on one bucket ----

  function State(f: Flow, b: Option<Bucket>, times: seq<int>): Option<Bucket> {
    if times == [] then b else Some(Next(f, State(f, b, times[..|times| - 1]), times[|times| - 1]))
  }

  /** The answer to each call. */
  function Results(f: Flow, b: Option<Bucket>, times: seq<int>): (results: seq<Result>)
    ensures |results| == |times|
  {
    if times == [] then []
    else
      var rest, now := times[..|times| - 1], times[|times| - 1];
      Results(f, b, rest) + [Reply(f, Tokens(f, State(f, b, rest), now))]
  }

  function One(x: Result): nat {
    if x.Allowed? then 1 else 0
  }

  function AllowedIn(results: seq<Result>): nat {
    if results == [] then 0
    else AllowedIn(results[..|results| - 1]) + One(results[|results| - 1])
  }

  lemma AllowedSnoc(results: seq<Result>, x: Result)
    ensures AllowedIn(results + [x]) == AllowedIn(results) + One(x)
  {
    assert (results + [x])[..|results|] == results;
  }

  lemma {:induction false} AllowedAtMost(results: seq<Result>)
    ensures AllowedIn(results) <= |results|
  {
    if results != [] { AllowedAtMost(results[..|results| - 1]); }
  }

  ghost predicate Ordered(times: seq<int>) {
    forall i, j | 0 <= i < j < |times| :: times[i] <= times[j]
  }

  lemma {:induction false} RunSplit(f: Flow, b: Option<Bucket>, xs: seq<int>, ys: seq<int>)
    ensures State(f, b, xs + ys) == State(f, State(f, b, xs), ys)
    ensures Results(f, b, xs + ys) == Results(f, b, xs) + Results(f, State(f, b, xs), ys)
  {
    if ys == [] {
      assert xs + ys == xs;
    } else {
      var rest := ys[..|ys| - 1];
      RunSplit(f, b, xs, rest);
      assert (xs + ys)[..|xs + ys| - 1] == xs + rest;
    }
  }

  // ---- arithmetic of the refill ----

  lemma Splits(x: int, y: int, rate: real)
    ensures (x + y) as real * rate == x as real * rate + y as real * rate
  {}

  lemma Grows(x: int, y: int, rate: real)
    requires x <= y && rate > 0.0
    ensures x as real * rate <= y as real * rate
  {
    Splits(x, y - x, rate);
    assert (y - x) as real * rate >= 0.0;
  }

  lemma FlowMeans(r: Rate)
    requires r.Valid()
    ensures r.AsFlow().Positive() && r.AsFlow().cap == r.max as real
    ensures r.AsFlow().refill * r.interval as real == r.max as real
  {}

  /** The tokens of a span of time, counted whole. */
  lemma Scaled(n: int, max: nat, interval: nat, span: int, refill: real)
    requires interval >= 1 && refill * interval as real == max as real
    ensures n as real <= max as real + span as real * refill <==> n * interval <= max * interval + span * max
  {
    var i, s, m := interval as real, span as real, max as real;
    var gap := m + s * refill - n as real;
    assert gap * i == m * i + s * (refill * i) - n as real * i;
    assert (n * interval) as real == n as real * i;
    assert (max * interval + span * max) as real == m * i + s * m;
    ScaleSign(gap, i);
  }

  lemma ScaleSign(gap: real, i: real)
    requires i > 0.0
    ensures gap >= 0.0 <==> gap * i >= 0.0
  {}

  /** Refills over two spans add up to the refill over both. */
  lemma LevelMoves(f: Flow, b: Bucket, x: int, y: int)
    ensures Level(f, b, y) == Level(f, b, x) + (y - x) as real * f.refill
  {
    Splits(x - b.last, y - x, f.refill);
    assert (x - b.last) + (y - x) == y - b.last;
  }

  // ---- exactly which calls are allowed ----

  /** What a capped account gains and loses between its entries i and k. */
  function Net(steps: seq<real>, i: nat, k: nat): real
    requires i <= k <= |steps|
  {
    if i == k then 0.0 else Net(steps, i, k - 1) + steps[k - 1]
  }

  /** An account that starts full and is cut back to the cap at every entry. */
  predicate Capped(cap: real, found: seq<real>, steps: seq<real>) {
    && |found| == |steps| + 1 && found[0] == cap
    && forall j | 0 <= j < |steps| :: found[j + 1] == Min(cap, found[j] + steps[j])
  }

  /** Such an account holds the least of what it would hold had it last been full at each
      entry so far. */
  lemma {:induction false} LeastNet(cap: real, found: seq<real>, steps: seq<real>, k: nat) returns (full: nat)
    requires Capped(cap, found, steps) && k < |found|
    ensures full <= k && found[k] == cap + Net(steps, full, k)
    ensures forall i: nat | i <= k :: found[k] <= cap + Net(steps, i, k)
  {
    if k == 0 {
      full := 0;
    } else {
      var before := LeastNet(cap, found, steps, k - 1);
      var j := k - 1;
      assert found[j + 1] == Min(cap, found[j] + steps[j]);
      full := if found[k] == cap then k else before;
      forall i: nat | i <= k ensures found[k] <= cap + Net(steps, i, k) {
        assert i < k ==> Net(steps, i, k) == Net(steps, i, k - 1) + steps[k - 1];
      }
    }
  }

  /** What call k finds. */
  function Found(f: Flow, times: seq<int>, k: nat): real
    requires k < |times|
  {
    Tokens(f, State(f, None, times[..k]), times[k])
  }

  lemma FoundMoves(f: Flow, times: seq<int>, j: nat)
    requires j + 1 < |times|
    ensures Found(f, times, j + 1)
            == Min(f.cap, Left(Found(f, times, j)) + Gain(times, f.refill, j))
  {
    assert times[..j + 1][..j] == times[..j];
  }

  lemma AllowedAt(f: Flow, times: seq<int>, k: nat)
    requires k < |times|
    ensures Results(f, None, times)[k] == Reply(f, Found(f, times, k))
  {
    var before, after := times[..k + 1], times[k + 1..];
    assert times == before + after && before[..k] == times[..k];
    RunSplit(f, None, before, after);
    assert Results(f, None, times)[k] == Results(f, None, before)[k];
  }

  function Sum(xs: seq<real>, i: nat, k: nat): real
    requires i <= k <= |xs|
  {
    if i == k then 0.0 else Sum(xs, i, k - 1) + xs[k - 1]
  }

  /** What an account gains less the calls allowed. */
  lemma {:induction false} NetIs(steps: seq<real>, gains: seq<real>, results: seq<Result>, i: nat, k: nat)
    requires |steps| == |gains| && i <= k <= |gains| && k <= |results|
    requires forall j | 0 <= j < k :: steps[j] == gains[j] - One(results[j]) as real
    ensures Net(steps, i, k) == Sum(gains, i, k) - AllowedIn(results[i..k]) as real
  {
    if i == k {
      assert results[i..k] == [];
    } else {
      var j := k - 1;
      NetIs(steps, gains, results, i, j);
      assert results[i..k] == results[i..j] + [results[j]];
      AllowedSnoc(results[i..j], results[j]);
    }
  }

  /** What the calls of a run find, and gain until the next. */
  predicate Traces(cap: real, results: seq<Result>, found: seq<real>, gains: seq<real>) {
    && |found| == |results| == |gains| + 1
    && found[0] == cap
    && (forall j | 0 <= j < |gains| :: found[j + 1] == Min(cap, Left(found[j]) + gains[j]))
    && (forall j | 0 <= j < |found| :: results[j].Allowed? <==> found[j] >= 1.0)
  }

  function FoundOf(f: Flow, times: seq<int>): (found: seq<real>)
    ensures |found| == |times| && forall j | 0 <= j < |times| :: found[j] == Found(f, times, j)
  {
    seq(|times|, j requires 0 <= j < |times| => Found(f, times, j))
  }

  function Gain(times: seq<int>, refill: real, j: nat): real
    requires j + 1 < |times|
  {
    (times[j + 1] - times[j]) as real * refill
  }

  function GainsOf(times: seq<int>, refill: real): (gains: seq<real>)
    requires times != []
    ensures |gains| == |times| - 1 && forall j | 0 <= j < |gains| :: gains[j] == Gain(times, refill, j)
  {
    seq(|times| - 1, j requires 0 <= j < |times| - 1 => Gain(times, refill, j))
  }

  lemma TraceMoves(f: Flow, times: seq<int>, j: nat)
    requires j + 1 < |times|
    ensures FoundOf(f, times)[j + 1] == Min(f.cap, Left(FoundOf(f, times)[j]) + GainsOf(times, f.refill)[j])
  {
    FoundMoves(f, times, j);
    assert FoundOf(f, times)[j] == Found(f, times, j) && FoundOf(f, times)[j + 1] == Found(f, times, j + 1);
    assert GainsOf(times, f.refill)[j] == Gain(times, f.refill, j);
  }

  lemma FirstFinds(f: Flow, times: seq<int>)
    requires times != []
    ensures FoundOf(f, times)[0] == f.cap
  {
    assert times[..0] == [];
  }

  lemma TraceOf(f: Flow, times: seq<int>)
    requires times != []
    ensures Traces(f.cap, Results(f, None, times), FoundOf(f, times), GainsOf(times, f.refill))
  {
    FirstFinds(f, times);
    forall j | 0 <= j < |times| - 1
      ensures FoundOf(f, times)[j + 1] == Min(f.cap, Left(FoundOf(f, times)[j]) + GainsOf(times, f.refill)[j])
    {
      TraceMoves(f, times, j);
    }
    forall j | 0 <= j < |times| ensures Results(f, None, times)[j].Allowed? <==> FoundOf(f, times)[j] >= 1.0 {
      AllowedAt(f, times, j);
    }
  }

  /** A traced call is allowed if and only if a token is left counted from each call so far. */
  lemma TracedIff(cap: real, results: seq<Result>, found: seq<real>, gains: seq<real>, k: nat)
    requires Traces(cap, results, found, gains) && k < |found|
    ensures results[k].Allowed? <==>
            forall i: nat | i <= k :: cap + Sum(gains, i, k) - AllowedIn(results[i..k]) as real >= 1.0
  {
    var steps := seq(|gains|, j requires 0 <= j < |gains| => gains[j] - One(results[j]) as real);
    forall j | 0 <= j < |steps| ensures found[j + 1] == Min(cap, found[j] + steps[j]) {
      assert Left(found[j]) == found[j] - One(results[j]) as real;
    }
    var full := LeastNet(cap, found, steps, k);
    forall i: nat | i <= k ensures Net(steps, i, k) == Sum(gains, i, k) - AllowedIn(results[i..k]) as real {
      NetIs(steps, gains, results, i, k);
    }
  }

  /** One more call fits, counted from call i: the calls allowed since and itself are no more
      than a full bucket and the refill of the time between. */
  predicate FitsFrom(r: Rate, times: seq<int>, results: seq<Result>, i: nat, k: nat)
    requires i <= k < |times| && k <= |results|
  {
    (AllowedIn(results[i..k]) + 1) * r.interval <= r.max * r.interval + (times[k] - times[i]) * r.max
  }

  /** Refills over consecutive spans add up to the refill over all of them. */
  lemma {:induction false} GainsAddUp(times: seq<int>, refill: real, i: nat, k: nat)
    requires i <= k < |times|
    ensures Sum(GainsOf(times, refill), i, k) == (times[k] - times[i]) as real * refill
  {
    if i < k {
      var j := k - 1;
      GainsAddUp(times, refill, i, j);
      Joined(refill, times[i], times[j], times[k], Sum(GainsOf(times, refill), i, j), GainsOf(times, refill)[j]);
    }
  }

  lemma Joined(refill: real, first: int, mid: int, last: int, x: real, y: real)
    requires x == (mid - first) as real * refill && y == (last - mid) as real * refill
    ensures x + y == (last - first) as real * refill
  {
    Splits(mid - first, last - mid, refill);
    assert (mid - first) + (last - mid) == last - first;
  }

  lemma GainScaled(r: Rate, refill: real, n: nat, gain: real, span: int)
    requires r.Valid() && refill * r.interval as real == r.max as real && gain == span as real * refill
    ensures r.max as real + gain - n as real >= 1.0 <==> (n + 1) * r.interval <= r.max * r.interval + span * r.max
  {
    Scaled(n + 1, r.max, r.interval, span, refill);
  }

  lemma GainFits(r: Rate, refill: real, times: seq<int>, results: seq<Result>, i: nat, k: nat)
    requires r.Valid() && refill * r.interval as real == r.max as real
    requires i <= k < |times| && k <= |results|
    ensures r.max as real + Sum(GainsOf(times, refill), i, k) - AllowedIn(results[i..k]) as real >= 1.0
            <==> FitsFrom(r, times, results, i, k)
  {
    GainsAddUp(times, refill, i, k);
    GainScaled(r, refill, AllowedIn(results[i..k]), Sum(GainsOf(times, refill), i, k), times[k] - times[i]);
  }

  lemma TracedFits(r: Rate, refill: real, times: seq<int>, results: seq<Result>, found: seq<real>, k: nat)
    requires r.Valid() && refill * r.interval as real == r.max as real && k < |times|
    requires Traces(r.max as real, results, found, GainsOf(times, refill))
    ensures results[k].Allowed? <==> forall i: nat | i <= k :: FitsFrom(r, times, results, i, k)
  {
    TracedIff(r.max as real, results, found, GainsOf(times, refill), k);
    forall i: nat | i <= k
      ensures r.max as real + Sum(GainsOf(times, refill), i, k) - AllowedIn(results[i..k]) as real >= 1.0
              <==> FitsFrom(r, times, results, i, k)
    {
      GainFits(r, refill, times, results, i, k);
    }
  }

  /** Main result, whatever the clocks: a call is allowed exactly when it fits, counted from
      every call up to it. */
  lemma AllowedIff(r: Rate, times: seq<int>, k: nat)
    requires r.Valid() && k < |times|
    ensures var results := Results(r.AsFlow(), None, times);
            results[k].Allowed? <==> forall i: nat | i <= k :: FitsFrom(r, times, results, i, k)
  {
    FlowMeans(r);
    AllowedAtFlow(r, r.AsFlow(), times, k);
  }

  lemma AllowedAtFlow(r: Rate, f: Flow, times: seq<int>, k: nat)
    requires r.Valid() && f.cap == r.max as real && f.refill * r.interval as real == r.max as real && k < |times|
    ensures var results := Results(f, None, times);
            results[k].Allowed? <==> forall i: nat | i <= k :: FitsFrom(r, times, results, i, k)
  {
    TraceOf(f, times);
    TracedFits(r, f.refill, times, Results(f, None, times), FoundOf(f, times), k);
  }

  // ---- what follows from it ----

  lemma FitsWithout(n: nat, max: nat, interval: nat, span: nat)
    requires n <= max
    ensures n * interval <= max * interval + span * max
  {
    assert (max - n) * interval >= 0 && span * max >= 0;
  }

  /** The full burst: the first max calls are allowed, however close together. */
  lemma FullBurst(r: Rate, times: seq<int>, k: nat)
    requires r.Valid() && Ordered(times) && k < |times| && k < r.max
    ensures Results(r.AsFlow(), None, times)[k].Allowed?
  {
    var results := Results(r.AsFlow(), None, times);
    AllowedIff(r, times, k);
    forall i: nat | i <= k ensures FitsFrom(r, times, results, i, k) {
      AllowedAtMost(results[i..k]);
      FitsWithout(AllowedIn(results[i..k]) + 1, r.max, r.interval, times[k] - times[i]);
    }
  }

  /** From the last call allowed on, none is. */
  lemma {:induction false} LastAllowed(results: seq<Result>) returns (k: nat)
    requires AllowedIn(results) > 0
    ensures k < |results| && results[k].Allowed? && AllowedIn(results) == AllowedIn(results[..k]) + 1
  {
    var n := |results| - 1;
    if results[n].Allowed? {
      k := n;
    } else {
      k := LastAllowed(results[..n]);
      assert results[..n][..k] == results[..k];
    }
  }

  /** Calls up to an allowed one, whatever the clocks of their callers, are bounded by the time
      its caller's clock shows after any of them. */
  lemma BoundUnderSkew(r: Rate, times: seq<int>, i: nat, k: nat)
    requires r.Valid() && i <= k < |times| && Results(r.AsFlow(), None, times)[k].Allowed?
    ensures var n := AllowedIn(Results(r.AsFlow(), None, times)[i..k + 1]);
            n * r.interval <= r.max * r.interval + (times[k] - times[i]) * r.max
  {
    AllowedIff(r, times, k);
    FittingBounds(r, times, Results(r.AsFlow(), None, times), i, k);
  }

  lemma FittingBounds(r: Rate, times: seq<int>, results: seq<Result>, i: nat, k: nat)
    requires i <= k < |times| == |results| && results[k].Allowed? && FitsFrom(r, times, results, i, k)
    ensures AllowedIn(results[i..k + 1]) * r.interval <= r.max * r.interval + (times[k] - times[i]) * r.max
  {
    assert results[i..k + 1] == results[i..k] + [results[k]];
    AllowedSnoc(results[i..k], results[k]);
  }

  /** Main result: of the calls that fall in a window of time, at most
      max + (length of the window) * max / interval are allowed. */
  lemma WindowBound(r: Rate, times: seq<int>, i: nat, j: nat, from: int, to: int)
    requires r.Valid() && i <= j <= |times| && from <= to
    requires forall k | i <= k < j :: from <= times[k] <= to
    ensures var n := AllowedIn(Results(r.AsFlow(), None, times)[i..j]);
            n * r.interval <= r.max * r.interval + (to - from) * r.max
  {
    var results := Results(r.AsFlow(), None, times);
    forall k | i <= k < j && results[k].Allowed? ensures FitsFrom(r, times, results, i, k) {
      AllowedIff(r, times, k);
    }
    FittingWindow(r, times, results, i, j, from, to);
  }

  lemma FittingWindow(r: Rate, times: seq<int>, results: seq<Result>, i: nat, j: nat, from: int, to: int)
    requires r.Valid() && i <= j <= |times| == |results| && from <= to
    requires forall k | i <= k < j :: from <= times[k] <= to
    requires forall k | i <= k < j && results[k].Allowed? :: FitsFrom(r, times, results, i, k)
    ensures AllowedIn(results[i..j]) * r.interval <= r.max * r.interval + (to - from) * r.max
  {
    if AllowedIn(results[i..j]) > 0 {
      var k := LastAllowed(results[i..j]);
      FittingBounds(r, times, results, i, i + k);
      LastCounts(results, i, j, k);
      WiderWindow(r, AllowedIn(results[i..i + k + 1]), AllowedIn(results[i..j]), times[i + k] - times[i], to - from);
    } else {
      NothingFits(r, AllowedIn(results[i..j]), to - from);
    }
  }

  lemma WiderWindow(r: Rate, m: nat, n: nat, span: int, wider: int)
    requires r.Valid() && m * r.interval <= r.max * r.interval + span * r.max && m == n && span <= wider
    ensures n * r.interval <= r.max * r.interval + wider * r.max
  {
    WiderSpan(n, r.max, r.interval, span, wider);
  }

  lemma NothingFits(r: Rate, n: nat, span: nat)
    requires r.Valid() && n == 0
    ensures n * r.interval <= r.max * r.interval + span * r.max
  {
    FitsWithout(0, r.max, r.interval, span);
  }

  lemma LastCounts(results: seq<Result>, i: nat, j: nat, k: nat)
    requires i + k < j <= |results| && results[i + k].Allowed?
    requires AllowedIn(results[i..j]) == AllowedIn(results[i..j][..k]) + 1
    ensures AllowedIn(results[i..i + k + 1]) == AllowedIn(results[i..j])
  {
    assert results[i..j][..k] == results[i..i + k];
    assert results[i..i + k + 1] == results[i..i + k] + [results[i + k]];
    AllowedSnoc(results[i..i + k], results[i + k]);
  }

  lemma WiderSpan(n: nat, max: nat, interval: nat, span: int, wider: int)
    requires n * interval <= max * interval + span * max && span <= wider
    ensures n * interval <= max * interval + wider * max
  {
    assert (wider - span) * max >= 0;
  }

  /** The remaining count is how many more calls the same instant has room for. */
  lemma RemainingIsExact(f: Flow, b: Option<Bucket>, now: int)
    requires f.Positive() && Take(f, b, now).1.Allowed?
    ensures var n, next := Take(f, b, now).1.remaining, Take(f, Some(Take(f, b, now).0), now).1;
            n >= 0 && if n == 0 then next.Denied? else next == Allowed(n - 1)
  {
    var left := Take(f, b, now).0;
    assert Tokens(f, Some(left), now) == left.tokens;
    assert (left.tokens - 1.0).Floor == left.tokens.Floor - 1;
  }

  // ---- denied calls ----

  lemma DeniedKeepsLevel(f: Flow, b: Option<Bucket>, now: int, t: int)
    requires f.Positive() && Take(f, b, now).1.Denied?
    ensures b.Some? && Level(f, Take(f, b, now).0, t) == Level(f, b.value, t)
  {
    LevelMoves(f, b.value, now, t);
  }

  /** Main result: a denied call changes the answer of no other call, whatever the clocks. */
  lemma DeniedLeavesNoTrace(f: Flow, b: Option<Bucket>, before: seq<int>, d: int, after: seq<int>)
    requires f.Positive() && Take(f, State(f, b, before), d).1.Denied?
    ensures var all := Results(f, b, before + [d] + after);
            Results(f, b, before + after) == all[..|before|] + all[|before| + 1..]
  {
    ResultsAround(f, b, before, d, after);
    RunSplit(f, b, before, after);
    DeniedThen(f, State(f, b, before), d, after);
  }

  lemma ResultsAround(f: Flow, b: Option<Bucket>, before: seq<int>, d: int, after: seq<int>)
    ensures var s := State(f, b, before);
            Results(f, b, before + [d] + after) ==
            Results(f, b, before) + [Take(f, s, d).1] + Results(f, Some(Take(f, s, d).0), after)
  {
    RunSplit(f, b, before + [d], after);
    assert (before + [d])[..|before|] == before;
  }

  lemma DeniedThen(f: Flow, s: Option<Bucket>, d: int, after: seq<int>)
    requires f.Positive() && Take(f, s, d).1.Denied?
    ensures Results(f, Some(Take(f, s, d).0), after) == Results(f, s, after)
  {
    forall t ensures s.Some? && Level(f, Take(f, s, d).0, t) == Level(f, s.value, t) {
      DeniedKeepsLevel(f, s, d, t);
    }
    SameLevelSameResults(f, s.value, Take(f, s, d).0, after);
  }

  lemma {:induction false} SameLevelSameResults(f: Flow, b: Bucket, c: Bucket, times: seq<int>)
    requires forall t :: Level(f, c, t) == Level(f, b, t)
    ensures Results(f, Some(b), times) == Results(f, Some(c), times)
    ensures times != [] ==> State(f, Some(b), times) == State(f, Some(c), times)
  {
    if times != [] {
      SameLevelSameResults(f, b, c, times[..|times| - 1]);
    }
  }

  // ---- the retry hint ----

  /** The hint is the first whole number of milliseconds after which a token is there. */
  lemma HintIsLeast(f: Flow, b: Bucket, wait: int)
    requires f.Positive() && b.tokens < 1.0
    ensures Ceil((1.0 - b.tokens) / f.refill) >= 1
    ensures Level(f, b, b.last + wait) >= 1.0 <==> wait >= Ceil((1.0 - b.tokens) / f.refill)
  {
    var need := 1.0 - b.tokens;
    var q := need / f.refill;
    assert q * f.refill == need && q > 0.0;
    if wait as real >= q {
      assert (wait as real - q) * f.refill >= 0.0;
    } else {
      assert (q - wait as real) * f.refill > 0.0;
    }
  }

  /** Main result: after a denial with hint h, every call before now + h is denied, and the
      first one at now + h or later is allowed, however many calls are denied in between and
      in whatever order they come. */
  lemma {:induction false} RetryHintIsExact(f: Flow, b: Option<Bucket>, now: int, between: seq<int>, t: int)
    requires f.Positive() && Take(f, b, now).1.Denied?
    requires var h := Take(f, b, now).1.retryMs; forall k | 0 <= k < |between| :: between[k] < now + h
    ensures var h, s := Take(f, b, now).1.retryMs, State(f, Some(Take(f, b, now).0), between);
            && h >= 1
            && (forall k | 0 <= k < |between| :: Results(f, Some(Take(f, b, now).0), between)[k].Denied?)
            && s.Some? && Level(f, s.value, t) == Level(f, Take(f, b, now).0, t)
            && (Take(f, s, t).1.Allowed? <==> t >= now + h)
  {
    var b0 := Take(f, b, now).0;
    HintIsLeast(f, b0, t - now);
    assert b0.last + (t - now) == t;
    if between != [] {
      var rest, last := between[..|between| - 1], between[|between| - 1];
      RetryHintIsExact(f, b, now, rest, last);
      DeniedKeepsLevel(f, State(f, Some(b0), rest), last, t);
      RetryHintIsExact(f, b, now, rest, t);
    }
  }

  // ---- expiry ----

  /** No debt: under a clock that does not go back, tokens never fall below zero. */
  lemma {:induction false} NoDebt(f: Flow, times: seq<int>)
    requires f.Positive() && Ordered(times) && times != []
    ensures State(f, None, times).Some?
    ensures State(f, None, times).value.last == times[|times| - 1] && State(f, None, times).value.tokens >= 0.0
  {
    var rest := times[..|times| - 1];
    if rest != [] {
      NoDebt(f, rest);
      Grows(0, times[|times| - 1] - State(f, None, rest).value.last, f.refill);
    }
  }

  /** A bucket left alone for the interval is full, which is what a missing one counts as. */
  lemma IdleIsFull(r: Rate, b: Bucket, now: int)
    requires r.Valid() && b.tokens >= 0.0 && now >= b.last + r.interval
    ensures Take(r.AsFlow(), Some(b), now) == Take(r.AsFlow(), None, now)
  {
    FlowMeans(r);
    Grows(r.interval, now - b.last, r.AsFlow().refill);
  }

  lemma FlowPositive(r: Rate)
    requires r.Valid()
    ensures r.AsFlow().Positive()
  {}

  lemma AnswerSnoc(r: Rate, times: seq<int>, was: Option<(Bucket, int)>, now: int)
    requires r.Valid() && Answers(r, times).0 == was
    ensures var x := Take(r.AsFlow(), Unexpired(was, now), now);
            Answers(r, times + [now]) == (Some((x.0, now + 2 * r.interval)), Answers(r, times).1 + [x.1])
  {
    assert (times + [now])[..|times|] == times;
  }

  lemma ResultSnoc(f: Flow, b: Option<Bucket>, times: seq<int>, now: int)
    ensures var x := Take(f, State(f, b, times), now);
            && State(f, b, times + [now]) == Some(x.0) && Results(f, b, times + [now]) == Results(f, b, times) + [x.1]
  {
    assert (times + [now])[..|times|] == times;
  }

  /** Main result: the expiry changes no answer: a bucket that never expires gives the same. */
  lemma {:induction false} ExpiryChangesNothing(r: Rate, times: seq<int>)
    requires r.Valid() && Ordered(times)
    ensures Answers(r, times).1 == Results(r.AsFlow(), None, times)
    ensures var was := Answers(r, times).0;
            if times == [] then was == None
            else was.Some? && State(r.AsFlow(), None, times) == Some(was.value.0)
                 && was.value.1 == times[|times| - 1] + 2 * r.interval
  {
    if times != [] {
      var rest, now := times[..|times| - 1], times[|times| - 1];
      ExpiryChangesNothing(r, rest);
      assert times == rest + [now];
      AnswerSnoc(r, rest, Answers(r, rest).0, now);
      ResultSnoc(r.AsFlow(), None, rest, now);
      SameTake(r, rest, now);
    }
  }

  lemma SameTake(r: Rate, rest: seq<int>, now: int)
    requires r.Valid() && Ordered(rest + [now])
    requires var was := Answers(r, rest).0;
             if rest == [] then was == None
             else was.Some? && State(r.AsFlow(), None, rest) == Some(was.value.0)
                  && was.value.1 == rest[|rest| - 1] + 2 * r.interval
    ensures Take(r.AsFlow(), Unexpired(Answers(r, rest).0, now), now) == Take(r.AsFlow(), State(r.AsFlow(), None, rest), now)
  {
    if rest != [] {
      assert Ordered(rest) by { assert forall i | 0 <= i < |rest| :: (rest + [now])[i] == rest[i]; }
      FlowPositive(r);
      NoDebt(r.AsFlow(), rest);
      var b := State(r.AsFlow(), None, rest).value;
      if now >= b.last + 2 * r.interval { IdleIsFull(r, b, now); }
    }
  }
}
