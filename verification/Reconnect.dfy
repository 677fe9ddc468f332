/**
 * The monitor's stream driver loop: call, report, back off, give up
 * (`run_stream_driver` of wacp-console/crates/console-core/src/session_monitor.rs).
 * Durations are counted in nanoseconds.
 */
module Reconnect {
  import opened Words

  /** `Duration::MAX`; doubling beyond it panics. */
  const DURATION_MAX: nat := 0xFFFF_FFFF_FFFF_FFFF * 1_000_000_000 + 999_999_999

  datatype Config = Config(initial: nat, max: nat, cap: U32)

  /** What one call of the driver returns: the stream ended, or an error. */
  datatype Result = Ended | Errored(reason: string)

  datatype StreamEvent =
    | Lag(attempt: nat, reason: string)
    | Fatal(failures: nat)

  /** `events` sent, `sleeps` slept, after `calls` driver calls. */
  datatype Outcome = Outcome(panicked: bool, calls: nat, events: seq<StreamEvent>, sleeps: seq<nat>)

  function Min(a: nat, b: nat): nat {
    if a < b then a else b
  }

  /** The k-th backoff in closed form. */
  function Backoff(cfg: Config, k: nat): nat {
    if k == 0 then cfg.initial else Min(cfg.initial * Pow2(k), cfg.max)
  }

  /** One Lag per error among the first `n` calls, carrying the call's index. */
  function Lags(driver: nat -> Result, n: nat): seq<StreamEvent> {
    if n == 0 then []
    else
      var before := Lags(driver, n - 1);
      match driver(n - 1)
      case Ended => before
      case Errored(reason) => before + [Lag(n - 1, reason)]
  }

  /** The number of calls an undisturbed loop makes. */
  function Calls(cfg: Config): nat {
    if cfg.cap == 0 then 1 else cfg.cap
  }

  /** Doubling the k-th backoff stays below `Duration::MAX`. */
  predicate Doubles(cfg: Config, k: nat) {
    2 * Backoff(cfg, k) <= DURATION_MAX
  }

  lemma DoublingClamps(cfg: Config, k: nat)
    ensures Min(2 * Backoff(cfg, k), cfg.max) == Backoff(cfg, k + 1)
  {
    assert cfg.initial * Pow2(k + 1) == 2 * (cfg.initial * Pow2(k));
    assert Pow2(1) == 2;
  }

  /**
   * The loop calls the driver max(1, cap) times, sends one Lag per error and
   * then one Fatal, and its k-th sleep is the k-th backoff; it stops short, by
   * a panic, exactly at the first backoff that cannot be doubled.
   */
  method RunStreamDriver(cfg: Config, driver: nat -> Result) returns (o: Outcome)
    ensures 1 <= o.calls <= Calls(cfg)
    ensures |o.sleeps| == if o.panicked then o.calls else o.calls - 1
    ensures forall k :: 0 <= k < |o.sleeps| ==> o.sleeps[k] == Backoff(cfg, k)
    ensures o.events == Lags(driver, o.calls) + if o.panicked then [] else [Fatal(o.calls)]
    ensures !o.panicked ==> o.calls == Calls(cfg)
    ensures o.panicked ==> !Doubles(cfg, o.calls - 1) && o.calls < Calls(cfg)
    ensures forall k :: 0 <= k < o.calls - 1 ==> Doubles(cfg, k)
    ensures o.panicked <==> exists k :: 0 <= k < Calls(cfg) - 1 && !Doubles(cfg, k)
  {
    var backoff, failures, attempts := cfg.initial, 0, 0;
    var events: seq<StreamEvent>, sleeps: seq<nat> := [], [];
    while true
      invariant failures == attempts == |sleeps| < Calls(cfg)
      invariant backoff == Backoff(cfg, failures)
      invariant forall k :: 0 <= k < |sleeps| ==> sleeps[k] == Backoff(cfg, k)
      invariant events == Lags(driver, attempts)
      invariant forall k :: 0 <= k < |sleeps| ==> Doubles(cfg, k)
      decreases Calls(cfg) - failures
    {
      match driver(attempts) {
        case Ended =>
        case Errored(reason) => events := events + [Lag(attempts, reason)];
      }
      failures := failures + 1;
      attempts := attempts + 1;
      if failures >= cfg.cap {
        return Outcome(false, attempts, events + [Fatal(failures)], sleeps);
      }
      sleeps := sleeps + [backoff];
      if backoff * 2 > DURATION_MAX {
        return Outcome(true, attempts, events, sleeps);
      }
      DoublingClamps(cfg, failures - 1);
      backoff := Min(backoff * 2, cfg.max);
    }
  }

  /** The first `n` sleeps together. */
  function Total(cfg: Config, n: nat): nat {
    if n == 0 then 0 else Total(cfg, n - 1) + Backoff(cfg, n - 1)
  }

  lemma BackoffBounds(cfg: Config, k: nat)
    requires cfg.initial <= cfg.max
    ensures Backoff(cfg, k) == Min(cfg.initial * Pow2(k), cfg.max)
    ensures cfg.initial <= Backoff(cfg, k) <= cfg.max
  {
    assert cfg.initial * Pow2(k) >= cfg.initial * 1;
  }

  /** With initial <= max <= Duration::MAX / 2 the loop never panics. */
  lemma SaneConfigNeverPanics(cfg: Config, k: nat)
    requires cfg.initial <= cfg.max && 2 * cfg.max <= DURATION_MAX
    ensures Doubles(cfg, k)
  {
    BackoffBounds(cfg, k);
  }

  /** A configuration whose first doubling panics: one that starts at the greatest duration. */
  lemma HugeBackoffPanics()
    ensures var cfg := Config(DURATION_MAX, DURATION_MAX, 2); 0 < Calls(cfg) - 1 && !Doubles(cfg, 0)
  {
  }

  /** The total wait is bounded by both ends of the clamp, */
  lemma {:induction false} TotalWait(cfg: Config, n: nat)
    requires cfg.initial <= cfg.max
    ensures n * cfg.initial <= Total(cfg, n) <= n * cfg.max
  {
    if n > 0 {
      TotalWait(cfg, n - 1);
      BackoffBounds(cfg, n - 1);
      assert n * cfg.max == (n - 1) * cfg.max + cfg.max;
      assert n * cfg.initial == (n - 1) * cfg.initial + cfg.initial;
    }
  }

  /** and by the unclamped doubling. */
  lemma {:induction false} TotalWaitDoubling(cfg: Config, n: nat)
    requires cfg.initial <= cfg.max
    ensures Total(cfg, n) + cfg.initial <= cfg.initial * Pow2(n)
  {
    if n > 0 {
      TotalWaitDoubling(cfg, n - 1);
      BackoffBounds(cfg, n - 1);
      TwiceTimes(cfg.initial, Pow2(n - 1));
    }
  }

  lemma TwiceTimes(a: nat, b: nat)
    ensures a * (2 * b) == 2 * (a * b)
  {
  }

  /** `MonitorConfig::default()`. */
  const DEFAULT := Config(200_000_000, 30_000_000_000, 30)

  /** From the eighth on, every default backoff is the 30 seconds of the clamp. */
  lemma {:induction false} DefaultTail(n: nat)
    requires n >= 8
    ensures Backoff(DEFAULT, n) == DEFAULT.max && Pow2(n) >= 256
    ensures Total(DEFAULT, n) == 51_000_000_000 + (n - 8) * 30_000_000_000
  {
    if n == 8 {
      DefaultHead();
    } else {
      DefaultTail(n - 1);
    }
  }

  lemma DefaultHead()
    ensures Pow2(8) == 256 && Total(DEFAULT, 8) == 51_000_000_000
  {
    assert Pow2(1) == 2 && Pow2(2) == 4 && Pow2(3) == 8;
    assert Pow2(4) == 16 && Pow2(5) == 32;
    assert Pow2(6) == 64 && Pow2(7) == 128;
    assert Total(DEFAULT, 2) == 600_000_000;
    assert Total(DEFAULT, 4) == 3_000_000_000;
    assert Total(DEFAULT, 6) == 12_600_000_000;
  }

  /** The default configuration gives up after exactly 681 seconds of waiting. */
  lemma DefaultGivesUpAfter681Seconds()
    ensures Total(DEFAULT, Calls(DEFAULT) - 1) == 681_000_000_000
  {
    DefaultTail(29);
  }
}
