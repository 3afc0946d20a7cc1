/**
 When the pool grows and shrinks: the scaling decision, its hysteresis and its cooldown.
 */
module Scaling {
  import opened Wire

  datatype Config = Config(minConns: int, maxConns: int, up: int, down: int,
                           latency: int, cooldown: int, interval: int)

  datatype Action = ScaleNone | ScaleUp | ScaleDown

  const DEFAULT_UP := 800
  const DEFAULT_DOWN := 200
  const DEFAULT_COOLDOWN := 30_000_000_000
  const DEFAULT_INTERVAL := 10_000_000_000

  /** A value that is given is kept; one that is not is filled in. */
  predicate KeptOr(value: int, given: int, default: int) {
    if given == 0 then value == default else value == given
  }

  /** Fills in defaults and keeps what is given; refuses exactly thresholds that are not in order. */
  function Validate(c: Config): (r: Option<Config>)
    ensures r.Some? ==> 1 <= r.value.minConns <= r.value.maxConns && r.value.down < r.value.up
    ensures r.Some? ==> r.value.cooldown != 0 && r.value.interval != 0
    ensures r.None? <==> (if c.down == 0 then DEFAULT_DOWN else c.down) >= (if c.up == 0 then DEFAULT_UP else c.up)
    ensures r.Some? ==> r.value.minConns == if c.minConns >= 1 then c.minConns else 1
    ensures r.Some? && c.maxConns >= r.value.minConns ==> r.value.maxConns == c.maxConns
    ensures r.Some? && c.maxConns < r.value.minConns ==> r.value.maxConns == r.value.minConns
    ensures r.Some? ==> KeptOr(r.value.up, c.up, DEFAULT_UP) && KeptOr(r.value.down, c.down, DEFAULT_DOWN)
    ensures r.Some? ==> KeptOr(r.value.cooldown, c.cooldown, DEFAULT_COOLDOWN)
    ensures r.Some? ==> KeptOr(r.value.interval, c.interval, DEFAULT_INTERVAL) && r.value.latency == c.latency
  {
    var lo := if c.minConns < 1 then 1 else c.minConns;
    var hi := if c.maxConns < lo then lo else c.maxConns;
    var up := if c.up == 0 then DEFAULT_UP else c.up;
    var down := if c.down == 0 then DEFAULT_DOWN else c.down;
    if down >= up then None
    else Some(Config(lo, hi, up, down, c.latency,
                     if c.cooldown == 0 then DEFAULT_COOLDOWN else c.cooldown,
                     if c.interval == 0 then DEFAULT_INTERVAL else c.interval))
  }

  /** Division that drops the fraction, towards zero. */
  function Quotient(a: int, b: int): int
    requires b > 0
  {
    if a >= 0 then a / b else -(-a / b)
  }

  /** What the pool's metrics say at one moment. */
  datatype Snapshot = Snapshot(conns: nat, streams: int, avgLatency: int)

  function Decide(c: Config, sinceLast: int, m: Snapshot): Action {
    if sinceLast < c.cooldown then ScaleNone
    else if m.conns == 0 then if c.minConns > 0 then ScaleUp else ScaleNone
    else
      var avg := Quotient(m.streams, m.conns);
      if m.conns < c.maxConns && (avg > c.up || (c.latency > 0 && m.avgLatency > c.latency)) then ScaleUp
      else if m.conns > c.minConns && avg < c.down && (c.latency == 0 || m.avgLatency < Quotient(c.latency, 2))
      then ScaleDown
      else ScaleNone
  }

  class AutoScaler {
    const config: Config
    var lastScaleTime: int

    constructor (config: Config, now: int)
      ensures this.config == config && lastScaleTime == now
    {
      this.config, lastScaleTime := config, now;
    }

    method Evaluate(now: int, m: Snapshot) returns (a: Action)
      ensures a == Decide(config, now - lastScaleTime, m)
    {
      if now - lastScaleTime < config.cooldown {
        return ScaleNone;
      }
      if m.conns == 0 {
        return if config.minConns > 0 then ScaleUp else ScaleNone;
      }
      var avg := Quotient(m.streams, m.conns);
      if m.conns < config.maxConns {
        if avg > config.up {
          return ScaleUp;
        }
        if config.latency > 0 && m.avgLatency > config.latency {
          return ScaleUp;
        }
      }
      if m.conns > config.minConns {
        if avg < config.down {
          if config.latency == 0 || m.avgLatency < Quotient(config.latency, 2) {
            return ScaleDown;
          }
        }
      }
      return ScaleNone;
    }

    method RecordScale(now: int)
      modifies this
      ensures lastScaleTime == now
    {
      lastScaleTime := now;
    }
  }

  // ---------- hysteresis ----------

  predicate Validated(c: Config) {
    1 <= c.minConns <= c.maxConns && c.down < c.up
  }

  /** The decision past the cooldown, at a constant load and without latency samples. */
  function Choice(c: Config, streams: nat, n: nat): Action {
    Decide(c, c.cooldown, Snapshot(n, streams, 0))
  }

  function Step(c: Config, streams: nat, n: nat): nat
    requires Validated(c)
  {
    match Choice(c, streams, n)
    case ScaleNone => n
    case ScaleUp => n + 1
    case ScaleDown => n - 1
  }

  /** With a latency threshold of one, or a negative one, no latency is low enough to shrink. */
  predicate CanShrink(c: Config) {
    c.latency == 0 || c.latency >= 2
  }

  /** The average latency is below half the threshold, where halving drops the fraction. */
  predicate LatencyAllows(c: Config, avgLatency: int) {
    c.latency == 0 || (if c.latency > 0 then 2 * (avgLatency + 1) <= c.latency else 2 * avgLatency + 1 <= c.latency)
  }

  predicate Overloaded(c: Config, m: Snapshot) {
    m.streams >= (c.up + 1) * m.conns || (c.latency > 0 && m.avgLatency > c.latency)
  }

  /**
   The decision without its divisions, at any time and any latency: growing needs room and an
   average above the upper threshold or a high latency; shrinking needs that there is no cause to
   grow, an average below the lower threshold and a low latency; within the cooldown neither happens.
   */
  lemma DecisionMeans(c: Config, since: int, m: Snapshot)
    requires Validated(c) && m.streams >= 0
    ensures Decide(c, since, m) == ScaleUp <==>
              since >= c.cooldown && (m.conns == 0 || (m.conns < c.maxConns && Overloaded(c, m)))
    ensures Decide(c, since, m) == ScaleDown <==>
              && since >= c.cooldown && m.conns > c.minConns && !(m.conns < c.maxConns && Overloaded(c, m))
              && m.streams < c.down * m.conns && LatencyAllows(c, m.avgLatency)
  {
    if m.conns > 0 {
      DivisionBounds(m.streams, m.conns, c.up + 1);
      DivisionBounds(m.streams, m.conns, c.down);
      HalfMeans(c.latency, m.avgLatency);
    }
  }

  lemma HalfMeans(latency: int, avg: int)
    ensures avg < Quotient(latency, 2) <==> if latency >= 0 then 2 * (avg + 1) <= latency else 2 * avg + 1 <= latency
  {
  }

  /** Past the cooldown and without latency samples, at most one of the two thresholds is crossed. */
  lemma ChoiceMeans(c: Config, streams: nat, n: nat)
    requires Validated(c) && 1 <= n <= c.maxConns
    ensures Choice(c, streams, n) == ScaleUp <==> n < c.maxConns && streams >= (c.up + 1) * n
    ensures Choice(c, streams, n) == ScaleDown <==> n > c.minConns && streams < c.down * n && CanShrink(c)
  {
    DecisionMeans(c, c.cooldown, Snapshot(n, streams, 0));
    ThresholdsApart(c, streams, n);
  }

  lemma ThresholdsApart(c: Config, streams: nat, n: nat)
    requires c.down < c.up
    ensures streams >= (c.up + 1) * n ==> streams >= c.down * n
  {
    Product(c.up + 1, c.down, n);
  }

  lemma DivisionBounds(a: nat, n: nat, k: int)
    requires n > 0
    ensures a / n >= k <==> a >= k * n
  {
    var q, r := a / n, a % n;
    assert a == q * n + r && 0 <= r < n;
    Product(q, k, n);
  }

  lemma Product(q: int, k: int, n: nat)
    ensures q >= k ==> q * n >= k * n
    ensures q < k ==> q * n + n <= k * n
  {
    Distribute(q, k, n);
    Distribute(k, q, n);
    if q >= k {
      NotNegative(q - k, n);
    } else {
      Distribute(k - q, 1, n);
      NotNegative(k - q - 1, n);
    }
  }

  lemma Distribute(a: int, b: int, n: int)
    ensures (a - b) * n == a * n - b * n
  {
  }

  lemma NotNegative(a: nat, n: nat)
    ensures a * n >= 0
  {
  }

  /** Scaling one way is never followed at once by scaling the other way, whatever the constant load. */
  ghost predicate NeverReverses(c: Config)
    requires Validated(c)
  {
    forall streams: nat, n: nat :: 1 <= n <= c.maxConns ==> !Reverses(c, streams, n)
  }

  predicate Reverses(c: Config, streams: nat, n: nat)
    requires Validated(c)
  {
    var n' := Step(c, streams, n);
    && Choice(c, streams, n) != ScaleNone && Choice(c, streams, n') != ScaleNone
    && Choice(c, streams, n') != Choice(c, streams, n)
  }

  /** The thresholds are far enough apart for the smallest pool that can grow and shrink. */
  predicate Spread(c: Config) {
    c.minConns == c.maxConns || !CanShrink(c) || c.down * (c.minConns + 1) <= (c.up + 1) * c.minConns
  }

  lemma SpreadScales(c: Config, n: nat)
    requires Validated(c) && n >= c.minConns && c.down * (c.minConns + 1) <= (c.up + 1) * c.minConns
    ensures c.down * (n + 1) <= (c.up + 1) * n
  {
    var gap := c.up + 1 - c.down;
    Distribute(c.up + 1, c.down, c.minConns);
    Distribute(c.up + 1, c.down, n);
    Distribute(n, c.minConns, gap);
    NotNegative(n - c.minConns, gap);
  }

  lemma NoReversal(c: Config, streams: nat, n: nat)
    requires Validated(c) && Spread(c) && 1 <= n <= c.maxConns
    ensures !Reverses(c, streams, n)
  {
    ChoiceMeans(c, streams, n);
    var n' := Step(c, streams, n);
    if Choice(c, streams, n) == ScaleUp {
      ChoiceMeans(c, streams, n + 1);
      if n >= c.minConns && CanShrink(c) {
        SpreadScales(c, n);
      }
    } else if Choice(c, streams, n) == ScaleDown {
      ChoiceMeans(c, streams, n - 1);
      SpreadScales(c, n - 1);
    }
  }

  lemma LowThresholdsAreSpread(c: Config)
    requires Validated(c) && c.up <= 0
    ensures c.down * (c.minConns + 1) <= (c.up + 1) * c.minConns
  {
    assert (c.up + 1 - c.down) * c.minConns >= 0;
    assert c.down * (c.minConns + 1) == c.down * c.minConns + c.down;
  }

  /**
   The exact condition: scaling never reverses direction, at any constant load and from any
   size, if and only if the thresholds are spread for the minimum size.
   */
  lemma NeverReversesIff(c: Config)
    requires Validated(c)
    ensures NeverReverses(c) <==> Spread(c)
  {
    if Spread(c) {
      forall streams: nat, n: nat | 1 <= n <= c.maxConns
        ensures !Reverses(c, streams, n)
      {
        NoReversal(c, streams, n);
      }
    } else {
      var n := c.minConns;
      if c.up <= 0 {
        LowThresholdsAreSpread(c);
      }
      var streams := (c.up + 1) * n;
      ChoiceMeans(c, streams, n);
      ChoiceMeans(c, streams, n + 1);
      assert Reverses(c, streams, n);
    }
  }

  /** Twice the lower threshold within one of the upper is enough for every minimum, and needed for a minimum of one. */
  lemma TwiceIsEnough(c: Config)
    requires Validated(c)
    ensures 2 * c.down <= c.up + 1 ==> Spread(c)
    ensures c.minConns == 1 < c.maxConns && CanShrink(c) && Spread(c) ==> 2 * c.down <= c.up + 1
  {
    var m, gap := c.minConns, c.up + 1 - c.down;
    if 2 * c.down <= c.up + 1 {
      Product(gap, 0, m - 1);
      Distribute(m, 1, gap);
      Distribute(c.up + 1, c.down, m);
    }
  }

  /** `Validate` does not rule reversal out: with these thresholds 801 streams move the pool up and down for ever. */
  lemma ValidatedCanFlap(c: Config, k: nat)
    requires c == Config(1, 10, 800, 799, 0, 1, 1)
    ensures Validate(c) == Some(c) && Validated(c)
    ensures Sizes(c, 801, 1, 2 * k) == 1 && Sizes(c, 801, 1, 2 * k + 1) == 2
  {
    assert Step(c, 801, 1) == 2 && Step(c, 801, 2) == 1;
    if k > 0 {
      ValidatedCanFlap(c, k - 1);
    }
  }

  /** The size of the pool after `k` decisions. */
  function Sizes(c: Config, streams: nat, n: nat, k: nat): nat
    requires Validated(c)
  {
    if k == 0 then n else Step(c, streams, Sizes(c, streams, n, k - 1))
  }

  // ---------- convergence ----------

  predicate AtRest(c: Config, streams: nat, n: nat) {
    Choice(c, streams, n) == ScaleNone
  }

  /** From a size that does not shrink, the pool only grows, and is at rest within `maxConns - n` steps. */
  lemma {:induction false} GrowsToRest(c: Config, streams: nat, n: nat, k: nat)
    requires Validated(c) && Spread(c) && 1 <= n <= c.maxConns && Choice(c, streams, n) != ScaleDown
    ensures n <= Sizes(c, streams, n, k) <= c.maxConns
    ensures Choice(c, streams, Sizes(c, streams, n, k)) != ScaleDown
    ensures AtRest(c, streams, Sizes(c, streams, n, k)) || Sizes(c, streams, n, k) == n + k
    decreases k
  {
    if k > 0 {
      GrowsToRest(c, streams, n, k - 1);
      var m := Sizes(c, streams, n, k - 1);
      NoReversal(c, streams, m);
      ChoiceMeans(c, streams, m);
    }
  }

  lemma {:induction false} ShrinksToRest(c: Config, streams: nat, n: nat, k: nat)
    requires Validated(c) && Spread(c) && 1 <= n <= c.maxConns && Choice(c, streams, n) != ScaleUp
    ensures 1 <= Sizes(c, streams, n, k) <= n && (n >= c.minConns ==> Sizes(c, streams, n, k) >= c.minConns)
    ensures Choice(c, streams, Sizes(c, streams, n, k)) != ScaleUp
    ensures AtRest(c, streams, Sizes(c, streams, n, k)) || Sizes(c, streams, n, k) == n - k
    decreases k
  {
    if k > 0 {
      ShrinksToRest(c, streams, n, k - 1);
      var m := Sizes(c, streams, n, k - 1);
      NoReversal(c, streams, m);
      ChoiceMeans(c, streams, m);
    }
  }

  function Distance(c: Config, n: nat): nat
    requires Validated(c) && n <= c.maxConns
  {
    if c.maxConns - n >= n - c.minConns then c.maxConns - n else n - c.minConns
  }

  /**
   With spread thresholds and a constant load, scaling goes one way only and is at rest after
   at most as many decisions as the pool is away from its bounds, for ever.
   */
  lemma Converges(c: Config, streams: nat, n: nat, k: nat)
    requires Validated(c) && Spread(c) && 1 <= n <= c.maxConns && k >= Distance(c, n)
    ensures AtRest(c, streams, Sizes(c, streams, n, k))
    ensures forall i, j :: 0 <= i <= j ==>
              if Choice(c, streams, n) == ScaleDown then Sizes(c, streams, n, i) >= Sizes(c, streams, n, j)
              else Sizes(c, streams, n, i) <= Sizes(c, streams, n, j)
  {
    ChoiceMeans(c, streams, n);
    if Choice(c, streams, n) == ScaleDown {
      ShrinksToRest(c, streams, n, k);
      ChoiceMeans(c, streams, Sizes(c, streams, n, k));
      forall i, j | 0 <= i <= j
        ensures Sizes(c, streams, n, i) >= Sizes(c, streams, n, j)
      {
        OneWay(c, streams, n, i, j);
      }
    } else {
      GrowsToRest(c, streams, n, k);
      ChoiceMeans(c, streams, Sizes(c, streams, n, k));
      forall i, j | 0 <= i <= j
        ensures Sizes(c, streams, n, i) <= Sizes(c, streams, n, j)
      {
        OneWay(c, streams, n, i, j);
      }
    }
  }

  lemma {:induction false} OneWay(c: Config, streams: nat, n: nat, i: nat, j: nat)
    requires Validated(c) && Spread(c) && 1 <= n <= c.maxConns && i <= j
    ensures if Choice(c, streams, n) == ScaleDown then Sizes(c, streams, n, i) >= Sizes(c, streams, n, j)
            else Sizes(c, streams, n, i) <= Sizes(c, streams, n, j)
    decreases j
  {
    if i < j {
      OneWay(c, streams, n, i, j - 1);
      if Choice(c, streams, n) == ScaleDown {
        ShrinksToRest(c, streams, n, j - 1);
      } else {
        GrowsToRest(c, streams, n, j - 1);
      }
    }
  }

  // ---------- cooldown ----------

  /**
   One evaluation by the monitor: when it was made, on what metrics, whether the action was
   carried out, and when it had been.
   */
  datatype Tick = Tick(at: int, metrics: Snapshot, succeeded: bool, done: int)

  predicate Recorded(c: Config, last: int, t: Tick) {
    Decide(c, t.at - last, t.metrics) != ScaleNone && t.succeeded
  }

  /** The times at which scale actions are recorded. */
  function Records(c: Config, last: int, ticks: seq<Tick>): seq<int>
    decreases |ticks|
  {
    if ticks == [] then []
    else if Recorded(c, last, ticks[0]) then [ticks[0].done] + Records(c, ticks[0].done, ticks[1..])
    else Records(c, last, ticks[1..])
  }

  /** The clock does not run backwards within an evaluation. */
  predicate Monotone(ticks: seq<Tick>) {
    forall t :: t in ticks ==> t.at <= t.done
  }

  /**
   However many evaluations are made and however many fail, the `i`-th recorded action comes at
   least `i + 1` cooldowns after the start, and any two are a cooldown per action between them apart.
   */
  lemma {:induction false} RecordsAreSpaced(c: Config, last: int, ticks: seq<Tick>, i: nat, k: nat)
    requires c.cooldown > 0 && Monotone(ticks) && i <= k < |Records(c, last, ticks)|
    ensures Records(c, last, ticks)[i] - last >= (i + 1) * c.cooldown
    ensures Records(c, last, ticks)[k] - Records(c, last, ticks)[i] >= (k - i) * c.cooldown
    decreases |ticks|
  {
    if !Recorded(c, last, ticks[0]) {
      RecordsAreSpaced(c, last, ticks[1..], i, k);
    } else {
      var first := ticks[0].done;
      assert ticks[0] in ticks && first - last >= c.cooldown;
      if i > 0 {
        RecordsAreSpaced(c, first, ticks[1..], i - 1, k - 1);
        assert (i + 1) * c.cooldown == i * c.cooldown + c.cooldown;
      } else if k > 0 {
        RecordsAreSpaced(c, first, ticks[1..], k - 1, k - 1);
      }
    }
  }

  /** So the actions recorded in any window of length `t` number at most one more than the cooldowns in it. */
  lemma WindowBound(c: Config, last: int, ticks: seq<Tick>, i: nat, k: nat, t: nat)
    requires c.cooldown > 0 && Monotone(ticks)
    requires i <= k < |Records(c, last, ticks)|
    requires Records(c, last, ticks)[k] - Records(c, last, ticks)[i] <= t
    ensures k - i + 1 <= 1 + t / c.cooldown
  {
    RecordsAreSpaced(c, last, ticks, i, k);
    DivisionBounds(t, c.cooldown, k - i);
  }
}
