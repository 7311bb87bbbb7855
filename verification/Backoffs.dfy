/**
 * Exponential backoff in int64 nanoseconds (pkg/queue/backoff.go) and the two
 * loops that wait by it: the consumer's pop loop and the forwarder.
 */
module Backoffs {

  const SECOND := 1_000_000_000
  const TWO62 := 0x4000_0000_0000_0000
  const TWO63 := 0x8000_0000_0000_0000
  const TWO64 := 0x1_0000_0000_0000_0000

  /** An int64 result wraps around. */
  function Wrap64(x: int): int {
    (x + TWO63) % TWO64 - TWO63
  }

  predicate IsInt64(x: int) {
    -TWO63 <= x < TWO63
  }

  function Pow2(n: nat): nat {
    if n == 0 then 1 else 2 * Pow2(n - 1)
  }

  function Min(a: int, b: int): int {
    if a <= b then a else b
  }

  /** One Advance. */
  function Advanced(current: int, max: int): int {
    if current <= 0 then max
    else
      var next := Wrap64(current * 2);
      if next > max then max else next
  }

  /** The current value after n Advances since the last reset. */
  function CurrentAfter(initial: int, max: int, n: nat): int {
    if n == 0 then initial else Advanced(CurrentAfter(initial, max, n - 1), max)
  }

  class Backoff {
    var initial: int
    var max: int
    var current: int

    ghost predicate Valid()
      reads this
    {
      0 < initial <= max && IsInt64(max)
    }

    constructor (first: int, limit: int)
      requires IsInt64(first) && IsInt64(limit)
      ensures Valid() && current == initial
      ensures initial == if first <= 0 then 1_000_000_000 else first
      ensures max == if limit < initial then initial else limit
    {
      var i, m := first, limit;
      if i <= 0 {
        i := SECOND;
      }
      if m <= 0 || m < i {
        m := i;
      }
      initial, max, current := i, m, i;
    }

    method Advance()
      modifies this`current
      ensures current == Advanced(old(current), max)
      ensures old(current) <= 0 ==> current == max
      ensures 0 < old(current) < 0x4000_0000_0000_0000 ==> current == Min(2 * old(current), max)
      ensures 0x4000_0000_0000_0000 <= old(current) < 0x8000_0000_0000_0000 ==>
                current == Min(2 * old(current) - 0x1_0000_0000_0000_0000, max)
    {
      if current <= 0 {
        current := max;
        return;
      }
      var next := Wrap64(current * 2);
      if next > max {
        next := max;
      }
      current := next;
    }

    method Reset()
      modifies this`current
      ensures current == initial
    {
      current := initial;
    }
  }

  // ----- closed form -----

  /** Below 2^62 an Advance doubles and clamps. */
  lemma AdvanceDoubles(c: int, max: int)
    requires 0 < c <= max < TWO62
    ensures Advanced(c, max) == Min(2 * c, max)
  {
    assert 0 <= c * 2 + TWO63 < TWO64;
  }

  lemma Doubled(a: int, b: int)
    ensures a * (2 * b) == 2 * (a * b)
  {
  }

  lemma {:induction false} ClosedForm(initial: int, max: int, n: nat)
    requires 0 < initial <= max < TWO62
    ensures CurrentAfter(initial, max, n) == Min(initial * Pow2(n), max)
  {
    if n > 0 {
      ClosedForm(initial, max, n - 1);
      ScaledPositive(initial, n - 1);
      var q := initial * Pow2(n - 1);
      AdvanceDoubles(Min(q, max), max);
      Doubled(initial, Pow2(n - 1));
    }
  }

  lemma {:induction false} ScaledPositive(a: int, n: nat)
    requires a > 0
    ensures a * Pow2(n) >= Pow2(n) >= 1
  {
    if n > 0 {
      ScaledPositive(a, n - 1);
      Doubled(a, Pow2(n - 1));
    }
  }

  lemma {:induction false} Pow2Sum(a: nat, b: nat)
    ensures Pow2(a + b) == Pow2(a) * Pow2(b)
  {
    if b > 0 {
      Pow2Sum(a, b - 1);
      Doubled(Pow2(a), Pow2(b - 1));
    }
  }

  lemma Pow62()
    ensures Pow2(62) == TWO62
  {
    assert Pow2(8) == 256;
    assert Pow2(15) == 32768;
    Pow2Sum(8, 8);
    Pow2Sum(16, 15);
    Pow2Sum(31, 31);
  }

  /** Doubling a value of 2^62 or more wraps to a negative wait. */
  lemma OverflowIsNegative(c: int, max: int)
    requires TWO62 <= c <= max < TWO63
    ensures Advanced(c, max) < 0
  {
    assert Wrap64(c * 2) == c * 2 - TWO64;
  }

  /**
   * The waits are min(initial * 2^n, max) for every n exactly when max is below 2^62; above that, a
   * doubling overflows within 63 Advances and the wait comes out negative.
   */
  lemma ClosedFormExactlyWhen(initial: int, max: int)
    requires 0 < initial <= max < TWO63
    ensures (forall n: nat :: CurrentAfter(initial, max, n) == Min(initial * Pow2(n), max)) <==> max < TWO62
  {
    if max < TWO62 {
      forall n: nat ensures CurrentAfter(initial, max, n) == Min(initial * Pow2(n), max) {
        ClosedForm(initial, max, n);
      }
    } else {
      Pow62();
      ScaledPositive(initial, 62);
      ScaledPositive(initial, 63);
      var c := CurrentAfter(initial, max, 62);
      if c == Min(initial * Pow2(62), max) {
        OverflowIsNegative(c, max);
        assert CurrentAfter(initial, max, 63) != Min(initial * Pow2(63), max);
      }
    }
  }

  // ----- the loops -----

  /** One round of the consumer's pop loop: a retryable error, or a pop that returned (with or without a message). */
  datatype PopEvent = PopFailed | PopReturned

  /** Consecutive failures just before round i. */
  function PopFailures(events: seq<PopEvent>, i: nat): nat
    requires i <= |events|
  {
    if i == 0 || events[i - 1].PopReturned? then 0 else 1 + PopFailures(events, i - 1)
  }

  /** So many rounds just before round i failed, and the one before them, if any, did not. */
  lemma {:induction false} PopStreak(events: seq<PopEvent>, i: nat)
    requires i <= |events|
    ensures var n := PopFailures(events, i);
            && n <= i && (n < i ==> events[i - n - 1].PopReturned?)
            && forall j :: i - n <= j < i ==> events[j].PopFailed?
    decreases i
  {
    if i > 0 && events[i - 1].PopFailed? {
      PopStreak(events, i - 1);
    }
  }

  /** The backoff value on entering round i. */
  function PopBackoff(events: seq<PopEvent>, i: nat, initial: int, max: int): int
    requires i <= |events|
  {
    CurrentAfter(initial, max, PopFailures(events, i))
  }

  lemma PopBackoffNext(events: seq<PopEvent>, i: nat, initial: int, max: int)
    requires i < |events|
    ensures PopBackoff(events, i + 1, initial, max)
         == if events[i].PopFailed? then Advanced(PopBackoff(events, i, initial, max), max) else initial
  {
  }

  /**
   * The waits of the pop loop: before retry number k of a streak, the backoff after k - 1 Advances,
   * which is min(initial * 2^(k - 1), max) if the limit is below 2^62.
   */
  method PopLoopWaits(first: int, limit: int, events: seq<PopEvent>) returns (waits: seq<int>)
    requires IsInt64(first) && IsInt64(limit)
    ensures |waits| == |events|
    ensures var initial := if first <= 0 then 1_000_000_000 else first;
            var max := if limit < initial then initial else limit;
            forall i :: 0 <= i < |events| ==>
              && waits[i] == (if events[i].PopFailed? then CurrentAfter(initial, max, PopFailures(events, i)) else 0)
              && (max < TWO62 && events[i].PopFailed? ==> waits[i] == Min(initial * Pow2(PopFailures(events, i)), max))
  {
    var b := new Backoff(first, limit);
    ghost var initial, max := b.initial, b.max;
    waits := [];
    for i := 0 to |events|
      invariant b.Valid() && b.initial == initial && b.max == max
      invariant fresh(b) && b.current == PopBackoff(events, i, initial, max)
      invariant |waits| == i
      invariant forall j :: 0 <= j < i ==>
        waits[j] == if events[j].PopFailed? then PopBackoff(events, j, initial, max) else 0
    {
      PopBackoffNext(events, i, initial, max);
      if events[i].PopFailed? {
        waits := waits + [b.current];
        b.Advance();
      } else {
        b.Reset();
        waits := waits + [0];
      }
    }
    if max < TWO62 {
      forall i | 0 <= i < |events|
        ensures PopBackoff(events, i, initial, max) == Min(initial * Pow2(PopFailures(events, i)), max)
      {
        ClosedForm(initial, max, PopFailures(events, i));
      }
    }
  }

  /** One round of the forwarder: an error, or the number of ids it moved. */
  datatype ForwardEvent = ForwardFailed | Forwarded(moved: nat)

  function ForwardFailures(events: seq<ForwardEvent>, i: nat): nat
    requires i <= |events|
  {
    if i == 0 || events[i - 1].Forwarded? then 0 else 1 + ForwardFailures(events, i - 1)
  }

  /** So many rounds just before round i failed, and the one before them, if any, did not. */
  lemma {:induction false} ForwardStreak(events: seq<ForwardEvent>, i: nat)
    requires i <= |events|
    ensures var n := ForwardFailures(events, i);
            && n <= i && (n < i ==> events[i - n - 1].Forwarded?)
            && forall j :: i - n <= j < i ==> events[j].ForwardFailed?
    decreases i
  {
    if i > 0 && events[i - 1].ForwardFailed? {
      ForwardStreak(events, i - 1);
    }
  }

  function ForwardBackoff(events: seq<ForwardEvent>, i: nat, initial: int, max: int): int
    requires i <= |events|
  {
    CurrentAfter(initial, max, ForwardFailures(events, i))
  }

  lemma ForwardBackoffNext(events: seq<ForwardEvent>, i: nat, initial: int, max: int)
    requires i < |events|
    ensures ForwardBackoff(events, i + 1, initial, max)
         == if events[i].ForwardFailed? then Advanced(ForwardBackoff(events, i, initial, max), max) else initial
  {
  }

  class Forwarder {
    var idlePoll: int
    var busyPoll: int
    var errorBackoff: int
    var errorMaxBackoff: int

    predicate Normal()
      reads this
    {
      idlePoll > 0 && busyPoll > 0 && 0 < errorBackoff <= errorMaxBackoff
    }

    constructor (idle: int, busy: int, first: int, limit: int)
      ensures idlePoll == idle && busyPoll == busy && errorBackoff == first && errorMaxBackoff == limit
    {
      idlePoll, busyPoll, errorBackoff, errorMaxBackoff := idle, busy, first, limit;
    }

    method NormalizeIntervals()
      modifies this
      ensures Normal()
      ensures idlePoll == if old(idlePoll) <= 0 then 1_000_000_000 else old(idlePoll)
      ensures busyPoll == if old(busyPoll) <= 0 then 1_000_000_000 else old(busyPoll)
      ensures errorBackoff == if old(errorBackoff) <= 0 then 2_000_000_000 else old(errorBackoff)
      ensures errorMaxBackoff == if old(errorMaxBackoff) < errorBackoff then errorBackoff else old(errorMaxBackoff)
    {
      if idlePoll <= 0 {
        idlePoll := SECOND;
      }
      if busyPoll <= 0 {
        busyPoll := SECOND;
      }
      if errorBackoff <= 0 {
        errorBackoff := 2 * SECOND;
      }
      if errorMaxBackoff <= 0 || errorMaxBackoff < errorBackoff {
        errorMaxBackoff := errorBackoff;
      }
    }

    /** What the timer is set to after each round, until the context is canceled. */
    method Run(events: seq<ForwardEvent>) returns (timers: seq<int>)
      requires IsInt64(errorBackoff) && IsInt64(errorMaxBackoff)
      modifies this
      ensures Normal() && |timers| == |events|
      ensures forall i :: 0 <= i < |events| ==>
                timers[i] == if events[i].ForwardFailed?
                             then CurrentAfter(errorBackoff, errorMaxBackoff, ForwardFailures(events, i))
                             else if events[i].moved > 0 then busyPoll
                             else idlePoll
      ensures errorMaxBackoff < TWO62 ==>
                forall i :: 0 <= i < |events| && events[i].ForwardFailed? ==>
                  timers[i] == Min(errorBackoff * Pow2(ForwardFailures(events, i)), errorMaxBackoff)
    {
      NormalizeIntervals();
      var b := new Backoff(errorBackoff, errorMaxBackoff);
      var initial, max, busy, idle := errorBackoff, errorMaxBackoff, busyPoll, idlePoll;
      timers := [];
      label Loop:
      for i := 0 to |events|
        invariant unchanged@Loop(this) && fresh(b) && b.initial == initial && b.max == max
        invariant b.current == ForwardBackoff(events, i, initial, max)
        invariant |timers| == i
        invariant forall j :: 0 <= j < i ==>
          timers[j] == if events[j].ForwardFailed? then ForwardBackoff(events, j, initial, max)
                       else if events[j].moved > 0 then busy
                       else idle
      {
        ForwardBackoffNext(events, i, initial, max);
        if events[i].ForwardFailed? {
          timers := timers + [b.current];
          b.Advance();
        } else {
          b.Reset();
          timers := timers + [if events[i].moved > 0 then busy else idle];
        }
      }
      if max < TWO62 {
        forall i | 0 <= i < |events|
          ensures ForwardBackoff(events, i, initial, max) == Min(initial * Pow2(ForwardFailures(events, i)), max)
        {
          ClosedForm(initial, max, ForwardFailures(events, i));
        }
      }
    }
  }
}
