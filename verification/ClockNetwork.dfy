/**
 * Any number of hybrid logical clocks that exchange messages, over every run:
 * causality, the counter's bound, and what the physical part means.
 */
module ClockNetwork {
  import opened Options
  import opened Timestamps
  import opened Words
  import opened HybridClock

  /**
   * An event of process `who` whose time source reads `reading`: a local event
   * or a send, or the receipt of the message sent by event `source`. Messages
   * may be lost, delayed, reordered and duplicated.
   */
  datatype Event =
    | Local(who: nat, reading: U64)
    | Receive(who: nat, reading: U64, source: nat)

  /** A message is received after it is sent. */
  predicate WellFormed(h: seq<Event>) {
    forall i :: 0 <= i < |h| && h[i].Receive? ==> h[i].source < i && h[h[i].source].Local?
  }

  /** The latest event of `who` before event `i`. */
  function Previous(h: seq<Event>, who: nat, i: nat): (p: Option<nat>)
    requires i <= |h|
    ensures p.Some? ==> p.value < i && h[p.value].who == who
    ensures p.Some? ==> forall k :: p.value < k < i ==> h[k].who != who
    ensures p.None? ==> forall k :: 0 <= k < i ==> h[k].who != who
  {
    if i == 0 then None
    else if h[i - 1].who == who then Some(i - 1)
    else Previous(h, who, i - 1)
  }

  /** The timestamp of event `i`, for clocks that start at `init`. */
  function Stamp(h: seq<Event>, init: nat -> Timestamp, i: nat): Timestamp
    requires WellFormed(h) && i < |h|
    decreases i, 1
  {
    Tick(h[i].reading, Head(h, init, h[i].who, i), Seen(h, init, i))
  }

  /** The clock of process `who` before event `i`. */
  function Head(h: seq<Event>, init: nat -> Timestamp, who: nat, i: nat): Timestamp
    requires WellFormed(h) && i <= |h|
    decreases i, 0
  {
    var p := Previous(h, who, i);
    if p.None? then init(who) else Stamp(h, init, p.value)
  }

  /** The timestamp that event `i` takes in: its clock's own, or the received one. */
  function Seen(h: seq<Event>, init: nat -> Timestamp, i: nat): Timestamp
    requires WellFormed(h) && i < |h|
    decreases i, 0
  {
    if h[i].Receive? then Stamp(h, init, h[i].source)
    else
      var p := Previous(h, h[i].who, i);
      if p.None? then init(h[i].who) else Stamp(h, init, p.value)
  }

  predicate Saturated(h: seq<Event>, init: nat -> Timestamp, i: nat)
    requires WellFormed(h) && i < |h|
  {
    Saturates(h[i].reading, Head(h, init, h[i].who, i), Seen(h, init, i))
  }

  /** The latest time event `i` knows of when it ticks: its reading, its clock's and what it takes in. */
  function Known(h: seq<Event>, init: nat -> Timestamp, i: nat): U64
    requires WellFormed(h) && i < |h|
  {
    Front(h[i].reading, Head(h, init, h[i].who, i), Seen(h, init, i))
  }

  // The clocks themselves compute these timestamps

  /** One clock for each process met so far, standing at the given timestamps. */
  ghost predicate Stand(clocks: map<nat, Clock>, heads: map<nat, Timestamp>)
    reads clocks.Values
  {
    && clocks.Keys == heads.Keys
    && (forall p, q :: p in clocks && q in clocks && clocks[p] == clocks[q] ==> p == q)
    && (forall p :: p in clocks ==> clocks[p].last == heads[p])
  }

  /** The clock of process `who` before event `i`, from the timestamps of the events so far. */
  function HeadIn(h: seq<Event>, init: nat -> Timestamp, stamps: seq<Timestamp>, who: nat, i: nat): Timestamp
    requires i <= |h| && i <= |stamps|
  {
    var p := Previous(h, who, i);
    if p.None? then init(who) else stamps[p.value]
  }

  /** Event `k` is stamped by one tick of its process's clock. */
  predicate StampedAt(h: seq<Event>, init: nat -> Timestamp, stamps: seq<Timestamp>, k: nat)
    requires WellFormed(h) && k < |stamps| <= |h|
  {
    var head := HeadIn(h, init, stamps, h[k].who, k);
    stamps[k] == Tick(h[k].reading, head, if h[k].Receive? then stamps[h[k].source] else head)
  }

  predicate Stamped(h: seq<Event>, init: nat -> Timestamp, stamps: seq<Timestamp>)
    requires WellFormed(h)
  {
    |stamps| <= |h| && forall k :: 0 <= k < |stamps| ==> StampedAt(h, init, stamps, k)
  }

  /** The timestamps are those of the processes met so far. */
  predicate HeadsOf(h: seq<Event>, init: nat -> Timestamp, stamps: seq<Timestamp>, heads: map<nat, Timestamp>)
    requires |stamps| <= |h|
  {
    && (forall p :: p in heads ==> heads[p] == HeadIn(h, init, stamps, p, |stamps|))
    && (forall k :: 0 <= k < |stamps| ==> h[k].who in heads)
  }

  lemma PreviousAfter(h: seq<Event>, p: nat, i: nat)
    requires i < |h|
    ensures Previous(h, p, i + 1) == if p == h[i].who then Some(i) else Previous(h, p, i)
  {
  }

  lemma HeadsStart(h: seq<Event>, init: nat -> Timestamp, stamps: seq<Timestamp>, heads: map<nat, Timestamp>, p: nat)
    requires |stamps| <= |h| && HeadsOf(h, init, stamps, heads) && p !in heads
    ensures HeadsOf(h, init, stamps, heads[p := init(p)])
  {
  }

  lemma HeadsAfter(h: seq<Event>, init: nat -> Timestamp, stamps: seq<Timestamp>, heads: map<nat, Timestamp>,
                   t: Timestamp)
    requires |stamps| < |h| && HeadsOf(h, init, stamps, heads) && h[|stamps|].who in heads
    ensures HeadsOf(h, init, stamps + [t], heads[h[|stamps|].who := t])
  {
    forall p | p in heads
      ensures HeadIn(h, init, stamps + [t], p, |stamps| + 1) == if p == h[|stamps|].who then t else heads[p]
    {
      PreviousAfter(h, p, |stamps|);
    }
  }

  /** What the clock of the next event yields is that event's timestamp. */
  lemma StampedNext(h: seq<Event>, init: nat -> Timestamp, stamps: seq<Timestamp>, heads: map<nat, Timestamp>,
                    t: Timestamp)
    requires WellFormed(h) && Stamped(h, init, stamps) && |stamps| < |h|
    requires HeadsOf(h, init, stamps, heads) && h[|stamps|].who in heads
    requires var e := h[|stamps|];
      t == Tick(e.reading, heads[e.who], if e.Receive? then stamps[e.source] else heads[e.who])
    ensures Stamped(h, init, stamps + [t])
  {
    HeadInPrefix(h, init, stamps, t, h[|stamps|].who, |stamps|);
    forall k | 0 <= k < |stamps|
      ensures StampedAt(h, init, stamps + [t], k)
    {
      StampedStays(h, init, stamps, t, k);
    }
  }

  lemma HeadInPrefix(h: seq<Event>, init: nat -> Timestamp, stamps: seq<Timestamp>, t: Timestamp, who: nat, i: nat)
    requires i <= |stamps| < |h|
    ensures HeadIn(h, init, stamps + [t], who, i) == HeadIn(h, init, stamps, who, i)
  {
  }

  lemma StampedStays(h: seq<Event>, init: nat -> Timestamp, stamps: seq<Timestamp>, t: Timestamp, k: nat)
    requires WellFormed(h) && k < |stamps| < |h| && StampedAt(h, init, stamps, k)
    ensures StampedAt(h, init, stamps + [t], k)
  {
    HeadInPrefix(h, init, stamps, t, h[k].who, k);
  }

  /** A local event takes in its own clock's timestamp, a receipt the sender's. */
  lemma SeenIs(h: seq<Event>, init: nat -> Timestamp, i: nat)
    requires WellFormed(h) && i < |h|
    ensures Seen(h, init, i) == if h[i].Receive? then Stamp(h, init, h[i].source) else Head(h, init, h[i].who, i)
  {
  }

  /** Timestamps given tick by tick are those of the recursive definition. */
  lemma {:induction false} StampedIsStamp(h: seq<Event>, init: nat -> Timestamp, stamps: seq<Timestamp>, i: nat)
    requires WellFormed(h) && Stamped(h, init, stamps) && i < |stamps|
    ensures stamps[i] == Stamp(h, init, i)
    decreases i
  {
    assert StampedAt(h, init, stamps, i);
    var p := Previous(h, h[i].who, i);
    if p.Some? {
      StampedIsStamp(h, init, stamps, p.value);
    }
    if h[i].Receive? {
      StampedIsStamp(h, init, stamps, h[i].source);
    }
    SeenIs(h, init, i);
  }

  /** One event on the clock of its process. */
  method Fire(clock: Clock, e: Event, seen: Timestamp) returns (t: Timestamp)
    modifies clock
    ensures t == clock.last == Tick(e.reading, old(clock.last), if e.Receive? then seen else old(clock.last))
  {
    if e.Receive? {
      t := clock.Recv(e.reading, seen);
    } else {
      t := clock.Now(e.reading);
    }
  }

  /** One event of the network. */
  method Happen(clocks: map<nat, Clock>, ghost heads: map<nat, Timestamp>, e: Event, seen: Timestamp)
    returns (t: Timestamp)
    requires Stand(clocks, heads) && e.who in clocks
    modifies clocks[e.who]
    ensures t == Tick(e.reading, heads[e.who], if e.Receive? then seen else heads[e.who])
    ensures Stand(clocks, heads[e.who := t])
  {
    var clock := clocks[e.who];
    t := Fire(clock, e, seen);
    assert forall p :: p in clocks && p != e.who ==> clocks[p] != clock;
  }

  /** A network of clocks run through a history yields its timestamps. */
  method Replay(h: seq<Event>, init: nat -> Timestamp) returns (stamps: seq<Timestamp>)
    requires WellFormed(h)
    ensures |stamps| == |h|
    ensures forall i :: 0 <= i < |h| ==> stamps[i] == Stamp(h, init, i)
  {
    stamps := TickThrough(h, init);
    forall i | 0 <= i < |h|
      ensures stamps[i] == Stamp(h, init, i)
    {
      StampedIsStamp(h, init, stamps, i);
    }
  }

  method StartClock(clocks: map<nat, Clock>, ghost heads: map<nat, Timestamp>, who: nat, initial: Timestamp)
    returns (more: map<nat, Clock>, ghost moreHeads: map<nat, Timestamp>)
    requires Stand(clocks, heads) && who !in clocks
    ensures who in more && fresh(more[who]) && more == clocks[who := more[who]]
    ensures moreHeads == heads[who := initial] && Stand(more, moreHeads)
  {
    var started := new Clock(initial);
    more, moreHeads := clocks[who := started], heads[who := initial];
  }

  ghost predicate Progress(h: seq<Event>, init: nat -> Timestamp, stamps: seq<Timestamp>, heads: map<nat, Timestamp>)
    requires WellFormed(h)
  {
    Stamped(h, init, stamps) && HeadsOf(h, init, stamps, heads)
  }

  lemma ProgressNext(h: seq<Event>, init: nat -> Timestamp, stamps: seq<Timestamp>, heads: map<nat, Timestamp>,
                     t: Timestamp)
    requires WellFormed(h) && Progress(h, init, stamps, heads) && |stamps| < |h| && h[|stamps|].who in heads
    requires var e := h[|stamps|];
      t == Tick(e.reading, heads[e.who], if e.Receive? then stamps[e.source] else heads[e.who])
    ensures Progress(h, init, stamps + [t], heads[h[|stamps|].who := t])
  {
    StampedNext(h, init, stamps, heads, t);
    HeadsAfter(h, init, stamps, heads, t);
  }

  /** The next event of the history, on a clock started for its process if need be. */
  method TickNext(h: seq<Event>, init: nat -> Timestamp, stamps: seq<Timestamp>, clocks0: map<nat, Clock>,
                  ghost heads0: map<nat, Timestamp>)
    returns (t: Timestamp, clocks: map<nat, Clock>, ghost heads: map<nat, Timestamp>)
    requires WellFormed(h) && |stamps| < |h| && Stand(clocks0, heads0) && Progress(h, init, stamps, heads0)
    modifies clocks0.Values
    ensures Stand(clocks, heads) && Progress(h, init, stamps + [t], heads)
    ensures forall p :: p in clocks ==> fresh(clocks[p]) || (p in clocks0 && clocks[p] == clocks0[p])
  {
    var e := h[|stamps|];
    clocks, heads := clocks0, heads0;
    if e.who !in clocks {
      HeadsStart(h, init, stamps, heads, e.who);
      clocks, heads := StartClock(clocks, heads, e.who, init(e.who));
    }
    t := Happen(clocks, heads, e, if e.Receive? then stamps[e.source] else ZERO);
    ProgressNext(h, init, stamps, heads, t);
    heads := heads[e.who := t];
  }

  method TickThrough(h: seq<Event>, init: nat -> Timestamp) returns (stamps: seq<Timestamp>)
    requires WellFormed(h)
    ensures |stamps| == |h| && Stamped(h, init, stamps)
  {
    var clocks: map<nat, Clock> := map[];
    ghost var heads: map<nat, Timestamp> := map[];
    stamps := [];
    for i := 0 to |h|
      invariant |stamps| == i && Stand(clocks, heads) && Progress(h, init, stamps, heads)
      invariant forall p :: p in clocks ==> fresh(clocks[p])
    {
      var t: Timestamp;
      t, clocks, heads := TickNext(h, init, stamps, clocks, heads);
      stamps := stamps + [t];
    }
  }

  // Causality

  /** Event `d` is what event `f` directly builds on: its process's previous event, or the send it receives. */
  predicate Direct(h: seq<Event>, d: nat, f: nat)
    requires WellFormed(h) && f < |h|
  {
    Previous(h, h[f].who, f) == Some(d) || (h[f].Receive? && h[f].source == d)
  }

  /** Lamport's happens-before: a chain of direct links. */
  ghost predicate HappensBefore(h: seq<Event>, e: nat, f: nat)
    requires WellFormed(h) && f < |h|
    decreases f
  {
    exists d :: 0 <= d < f && Direct(h, d, f) && (d == e || HappensBefore(h, e, d))
  }

  /** All earlier events of the same process happen before. */
  lemma {:induction false} ProcessOrderIsCausal(h: seq<Event>, e: nat, f: nat)
    requires WellFormed(h) && e < f < |h| && h[e].who == h[f].who
    ensures HappensBefore(h, e, f)
    decreases f
  {
    var p := Previous(h, h[f].who, f);
    var d := p.value;
    assert Direct(h, d, f);
    if d != e {
      ProcessOrderIsCausal(h, e, d);
    }
  }

  lemma {:induction false} HappensBeforeIsTransitive(h: seq<Event>, e: nat, f: nat, g: nat)
    requires WellFormed(h) && f < |h| && g < |h| && HappensBefore(h, e, f) && HappensBefore(h, f, g)
    ensures HappensBefore(h, e, g)
    decreases g
  {
    var d :| 0 <= d < g && Direct(h, d, g) && (d == f || HappensBefore(h, f, d));
    if d != f {
      HappensBeforeIsTransitive(h, e, f, d);
    }
  }

  lemma DirectIsBefore(h: seq<Event>, init: nat -> Timestamp, d: nat, f: nat)
    requires WellFormed(h) && d < f < |h| && Direct(h, d, f)
    ensures Le(Stamp(h, init, d), Stamp(h, init, f))
    ensures !Saturated(h, init, f) ==> Lt(Stamp(h, init, d), Stamp(h, init, f))
  {
    TickIsAfterWhatItSaw(h[f].reading, Head(h, init, h[f].who, f), Seen(h, init, f));
  }

  /** Timestamps respect causality; they do so strictly if the later event does not saturate. */
  lemma {:induction false} Causality(h: seq<Event>, init: nat -> Timestamp, e: nat, f: nat)
    requires WellFormed(h) && e < |h| && f < |h| && HappensBefore(h, e, f)
    ensures Le(Stamp(h, init, e), Stamp(h, init, f))
    ensures !Saturated(h, init, f) ==> Lt(Stamp(h, init, e), Stamp(h, init, f))
    decreases f
  {
    var d :| 0 <= d < f && Direct(h, d, f) && (d == e || HappensBefore(h, e, d));
    DirectIsBefore(h, init, d, f);
    if d != e {
      Causality(h, init, e, d);
      LeThenLt(Stamp(h, init, e), Stamp(h, init, d), Stamp(h, init, f));
    }
  }

  lemma LeThenLt(a: Timestamp, b: Timestamp, c: Timestamp)
    requires Le(a, b) && Le(b, c)
    ensures Le(a, c) && (Lt(b, c) ==> Lt(a, c))
  {
  }

  /**
   * Causality is not strict exactly when the earlier event carries the greatest counter and the later one,
   * when it ticks, knows of no later time.
   */
  lemma CausalityIsStrictIff(h: seq<Event>, init: nat -> Timestamp, e: nat, f: nat)
    requires WellFormed(h) && e < |h| && f < |h| && HappensBefore(h, e, f)
    ensures Lt(Stamp(h, init, e), Stamp(h, init, f)) <==>
      !(Stamp(h, init, e).logical == U16_MAX && Known(h, init, f) == Stamp(h, init, e).physical)
  {
    Causality(h, init, e, f);
    TickRepeatsIff(h[f].reading, Head(h, init, h[f].who, f), Seen(h, init, f), Stamp(h, init, e));
  }

  /** A tick that is not before `s`, and after it unless saturated, repeats `s` exactly if `s` is full and current. */
  lemma TickRepeatsIff(reading: U64, a: Timestamp, b: Timestamp, s: Timestamp)
    requires Le(s, Tick(reading, a, b)) && (!Saturates(reading, a, b) ==> Lt(s, Tick(reading, a, b)))
    ensures Lt(s, Tick(reading, a, b)) <==> !(s.logical == U16_MAX && Front(reading, a, b) == s.physical)
  {
  }

  // The counter

  const ZEROS: nat -> Timestamp := _ => ZERO

  /** How many of the first `n` events carry physical time `p`. */
  function Sharing(h: seq<Event>, p: U64, n: nat): nat
    requires WellFormed(h) && n <= |h|
  {
    if n == 0 then 0
    else Sharing(h, p, n - 1) + if Stamp(h, ZEROS, n - 1).physical == p then 1 else 0
  }

  lemma {:induction false} SharingGrows(h: seq<Event>, p: U64, m: nat, n: nat)
    requires WellFormed(h) && m <= n <= |h|
    ensures Sharing(h, p, m) <= Sharing(h, p, n)
    decreases n
  {
    if m < n {
      SharingGrows(h, p, m, n - 1);
    }
  }

  /** The counters an event builds on are bounded by the events before it. */
  lemma CountBeforeEvent(h: seq<Event>, f: nat, d: nat)
    requires WellFormed(h) && d < f < |h|
    requires Stamp(h, ZEROS, d).logical <= Sharing(h, Stamp(h, ZEROS, d).physical, d + 1)
    ensures Stamp(h, ZEROS, d).logical <= Sharing(h, Stamp(h, ZEROS, d).physical, f)
  {
    SharingGrows(h, Stamp(h, ZEROS, d).physical, d + 1, f);
  }

  /** A counter never exceeds the number of events so far, itself included, that share its physical time. */
  lemma {:induction false} CounterBound(h: seq<Event>, f: nat)
    requires WellFormed(h) && f < |h|
    ensures var t := Stamp(h, ZEROS, f); t.logical <= Sharing(h, t.physical, f + 1)
    ensures Saturated(h, ZEROS, f) ==> Sharing(h, Stamp(h, ZEROS, f).physical, f + 1) > U16_MAX
    decreases f
  {
    var p := Previous(h, h[f].who, f);
    if p.Some? {
      CounterBound(h, p.value);
      CountBeforeEvent(h, f, p.value);
    }
    if h[f].Receive? {
      CounterBound(h, h[f].source);
      CountBeforeEvent(h, f, h[f].source);
    }
  }

  /** If no physical time is shared by more than 65535 events, no counter saturates and causality is strict. */
  lemma StrictCausality(h: seq<Event>, e: nat, f: nat)
    requires WellFormed(h) && e < |h| && f < |h| && HappensBefore(h, e, f)
    requires forall p: U64 :: Sharing(h, p, |h|) <= U16_MAX
    ensures Lt(Stamp(h, ZEROS, e), Stamp(h, ZEROS, f))
  {
    CounterBound(h, f);
    SharingGrows(h, Stamp(h, ZEROS, f).physical, f + 1, |h|);
    Causality(h, ZEROS, e, f);
  }

  // The physical part

  ghost predicate CausalPast(h: seq<Event>, e: nat, f: nat)
    requires WellFormed(h) && f < |h|
  {
    e == f || HappensBefore(h, e, f)
  }

  /** The physical part is the greatest reading in the event's causal past, its own included. */
  lemma {:induction false} PhysicalIsLatestReading(h: seq<Event>, f: nat)
    requires WellFormed(h) && f < |h|
    ensures forall e :: 0 <= e < |h| && CausalPast(h, e, f) ==> h[e].reading <= Stamp(h, ZEROS, f).physical
    ensures exists e :: 0 <= e < |h| && CausalPast(h, e, f) && h[e].reading == Stamp(h, ZEROS, f).physical
    decreases f
  {
    var t := Stamp(h, ZEROS, f);
    forall e | 0 <= e < |h| && CausalPast(h, e, f)
      ensures h[e].reading <= t.physical
    {
      if e != f {
        var d :| 0 <= d < f && Direct(h, d, f) && (d == e || HappensBefore(h, e, d));
        PhysicalIsLatestReading(h, d);
        assert CausalPast(h, e, d);
        DirectIsBefore(h, ZEROS, d, f);
      }
    }
    var p := Previous(h, h[f].who, f);
    PhysicalComesFrom(h, f);
    if t.physical == h[f].reading {
      assert CausalPast(h, f, f);
    } else if p.Some? && t.physical == Stamp(h, ZEROS, p.value).physical {
      LatestReadingFrom(h, p.value, f);
    } else {
      LatestReadingFrom(h, h[f].source, f);
    }
  }

  /** The physical part is the event's reading, or that of the event before it, or that of the message. */
  lemma PhysicalComesFrom(h: seq<Event>, f: nat)
    requires WellFormed(h) && f < |h|
    ensures var t := Stamp(h, ZEROS, f);
      var p := Previous(h, h[f].who, f);
      || t.physical == h[f].reading
      || (p.Some? && t.physical == Stamp(h, ZEROS, p.value).physical)
      || (h[f].Receive? && t.physical == Stamp(h, ZEROS, h[f].source).physical)
  {
    SeenIs(h, ZEROS, f);
    var p := Previous(h, h[f].who, f);
    assert Head(h, ZEROS, h[f].who, f) == if p.None? then ZERO else Stamp(h, ZEROS, p.value);
  }

  lemma LatestReadingFrom(h: seq<Event>, d: nat, f: nat)
    requires WellFormed(h) && d < f < |h| && Direct(h, d, f)
    requires Stamp(h, ZEROS, d).physical == Stamp(h, ZEROS, f).physical
    ensures exists e :: 0 <= e < |h| && CausalPast(h, e, f) && h[e].reading == Stamp(h, ZEROS, f).physical
    decreases f, 0
  {
    PhysicalIsLatestReading(h, d);
    var e :| 0 <= e < |h| && CausalPast(h, e, d) && h[e].reading == Stamp(h, ZEROS, d).physical;
    assert CausalPast(h, e, f);
  }
}
