/**
 * The hybrid logical clock: the update rules of Kulkarni et al., "Logical
 * Physical Clocks", with a saturating 16-bit counter
 * (wacp/crates/wacp-clock/src/lib.rs). A reading of the time source is a
 * parameter.
 */
module HybridClock {
  import opened Timestamps
  import opened Words

  function Max(a: U64, b: U64): U64 {
    if a < b then b else a
  }

  predicate Le(a: Timestamp, b: Timestamp) {
    Cmp(a, b) != Greater
  }

  predicate Lt(a: Timestamp, b: Timestamp) {
    Cmp(a, b) == Less
  }

  /** The physical part of a tick: the latest time known from the reading and the two timestamps. */
  function Front(reading: U64, a: Timestamp, b: Timestamp): U64 {
    Max(reading, Max(a.physical, b.physical))
  }

  /** One more than the greatest counter already used at physical time `p`, before saturation. */
  function NextCount(p: U64, a: Timestamp, b: Timestamp): nat {
    var x := if a.physical == p then a.logical + 1 else 0;
    var y := if b.physical == p then b.logical + 1 else 0;
    if x < y then y else x
  }

  /** A tick that has seen timestamps `a` and `b`. */
  function Tick(reading: U64, a: Timestamp, b: Timestamp): Timestamp {
    var p := Front(reading, a, b);
    var n := NextCount(p, a, b);
    Timestamp(p, if n <= U16_MAX then n else U16_MAX)
  }

  /** The tick had to increment a counter that was already at 65535. */
  predicate Saturates(reading: U64, a: Timestamp, b: Timestamp) {
    NextCount(Front(reading, a, b), a, b) > U16_MAX
  }

  function SaturatingAdd(x: U16): U16 {
    if x == U16_MAX then U16_MAX else x + 1
  }

  class Clock {
    var last: Timestamp

    /** `Clock::with_initial`; `Clock::new` starts from ZERO. */
    constructor (initial: Timestamp)
      ensures last == initial
    {
      last := initial;
    }

    /** Rule 1, a local event; also rule 2, `send`. */
    method Now(reading: U64) returns (t: Timestamp)
      modifies this
      ensures t == last == Tick(reading, old(last), old(last))
    {
      last := if reading > last.physical then Timestamp(reading, 0)
              else Timestamp(last.physical, SaturatingAdd(last.logical));
      t := last;
    }

    /** Rule 3: take in a remote timestamp. */
    method Recv(reading: U64, remote: Timestamp) returns (t: Timestamp)
      modifies this
      ensures t == last == Tick(reading, old(last), remote)
    {
      var front := Max(Max(reading, last.physical), remote.physical);
      var logical: U16;
      if front > last.physical && front > remote.physical {
        logical := 0;
      } else if front == last.physical && front == remote.physical {
        logical := SaturatingAdd(Max(last.logical, remote.logical));
      } else if front == last.physical {
        logical := SaturatingAdd(last.logical);
      } else {
        logical := SaturatingAdd(remote.logical);
      }
      last := Timestamp(front, logical);
      t := last;
    }
  }

  /**
   * "Strictly greater than both local and remote" holds exactly when no
   * counter saturates; ticks never go backwards in any case.
   */
  lemma TickIsAfterWhatItSaw(reading: U64, a: Timestamp, b: Timestamp)
    ensures Le(a, Tick(reading, a, b)) && Le(b, Tick(reading, a, b))
    ensures Lt(a, Tick(reading, a, b)) && Lt(b, Tick(reading, a, b)) <==> !Saturates(reading, a, b)
  {
  }

  /** A receive that returns the clock's own last timestamp again. */
  lemma SaturatedReceiveRepeats()
    ensures var full := Timestamp(5, U16_MAX); Tick(5, full, full) == full
  {
  }
}
