/**
 * The driver's Reload: rounds of a hundred until a round puts nothing back.
 */
module Reloading {
  import opened Messages
  import opened Lists
  import opened SortedSets
  import opened Scripts
  import opened Channels

  // ----- rounds join up -----

  /** Index of the last occurrence. */
  function LastAt(ids: seq<Id>, x: Id): (k: nat)
    requires x in ids
    ensures k < |ids| && ids[k] == x && forall j :: k < j < |ids| ==> ids[j] != x
  {
    if ids[|ids| - 1] == x then |ids| - 1
    else
      assert forall j :: 0 <= j < |ids| - 1 ==> ids[..|ids| - 1][j] == ids[j];
      LastAt(ids[..|ids| - 1], x)
  }

  lemma LastAtConcat(a: seq<Id>, b: seq<Id>, x: Id)
    ensures x in b ==> LastAt(a + b, x) == |a| + LastAt(b, x)
    ensures x !in b && x in a ==> LastAt(a + b, x) == LastAt(a, x)
  {
    var ids := a + b;
    if x in b {
      assert ids[|a| + LastAt(b, x)] == x && forall j :: 0 <= j < |b| ==> ids[|a| + j] == b[j];
    } else if x in a {
      assert ids[LastAt(a, x)] == x && forall j :: |a| <= j < |ids| ==> ids[j] == b[j - |a|];
    }
  }

  /**
   * `m'` is `m` with the listed accepted entities reopened, each stamped by the clock of the last round
   * of a hundred that took its id.
   */
  ghost predicate ReopenedInRounds(m: map<Id, Record>, m': map<Id, Record>, ids: seq<Id>, src: Source,
                                   clock: nat -> int)
  {
    && m'.Keys == m.Keys
    && forall x :: x in m ==>
         m'[x] == if x in ids && Accepts(m, src, x)
                  then Live(Stamp(m[x].entity, Waiting, clock(LastAt(ids, x) / 100)))
                  else m[x]
  }

  /** What a reload accepts does not change while it runs. */
  lemma AcceptanceStable(m: map<Id, Record>, m': map<Id, Record>, ids: seq<Id>, src: Source, clock: nat -> int, x: Id)
    requires ReopenedInRounds(m, m', ids, src, clock)
    ensures Accepts(m', src, x) == Accepts(m, src, x)
  {
  }

  lemma RejectedStable(m: map<Id, Record>, m': map<Id, Record>, ids: seq<Id>, src: Source, clock: nat -> int,
                       more: seq<Id>)
    requires ReopenedInRounds(m, m', ids, src, clock)
    ensures Rejected(more, m', src) == Rejected(more, m, src)
  {
    forall x ensures Accepts(m', src, x) == Accepts(m, src, x) { AcceptanceStable(m, m', ids, src, clock, x); }
  }

  /** Round q reopens the ids `b` that follow the first q hundreds `a`. */
  lemma ReopenedJoin(m: map<Id, Record>, m': map<Id, Record>, a: seq<Id>, b: seq<Id>, src: Source,
                     clock: nat -> int, q: nat)
    requires ReopenedInRounds(m, m', a, src, clock)
    requires b == [] || (|a| == BATCH * q && |b| <= BATCH)
    ensures ReopenedInRounds(m, Reopened(m', b, src, clock(q)), a + b, src, clock)
  {
    forall x | x in m
      ensures Reopened(m', b, src, clock(q))[x]
           == if x in a + b && Accepts(m, src, x)
              then Live(Stamp(m[x].entity, Waiting, clock(LastAt(a + b, x) / 100)))
              else m[x]
    {
      AcceptanceStable(m, m', a, src, clock, x);
      LastAtConcat(a, b, x);
    }
  }

  lemma RemovalsJoin(w: seq<Id>, a: seq<Id>, b: seq<Id>, na: set<Id>, nb: set<Id>)
    ensures Without(Without(w, na) + Without(a, na), nb) + Without(b, nb)
         == Without(w, na + nb) + (Without(a, na + nb) + Without(b, nb))
  {
    WithoutConcat(Without(w, na), Without(a, na), nb);
    WithoutTwice(w, na, nb);
    WithoutTwice(a, na, nb);
  }

  lemma ListsJoin(w: seq<Id>, a: seq<Id>, b: seq<Id>, m: map<Id, Record>, src: Source)
    ensures ReloadedInto(ReloadedInto(w, a, m, src), b, m, src) == ReloadedInto(w, a + b, m, src)
    ensures AcceptedCount(a + b, m, src) == AcceptedCount(a, m, src) + AcceptedCount(b, m, src)
  {
    var na, nb, nab := Rejected(a, m, src), Rejected(b, m, src), Rejected(a + b, m, src);
    assert nab == na + nb;
    RemovalsJoin(w, a, b, na, nb);
    WithoutConcat(a, b, nab);
    WithoutAgree(b, nab, nb);
    WithoutAgree(a, nab, na);
  }

  // ----- how far a reload gets -----

  /** The round that starts at position `from`. */
  function RoundAt(all: seq<Id>, from: nat): seq<Id>
    requires from <= |all|
  {
    Take(all[from..])
  }

  /** The source position after the first round from `from` on that puts nothing back. */
  function Extent(all: seq<Id>, m: map<Id, Record>, src: Source, from: nat): (n: nat)
    requires from <= |all|
    ensures from <= n <= |all|
    decreases |all| - from
  {
    var round := RoundAt(all, from);
    if AcceptedCount(round, m, src) == 0 then from + |round|
    else Extent(all, m, src, from + |round|)
  }

  datatype ReloadResult = Reloaded(total: nat) | Unsupported

  /** What a completed reload leaves, having consumed the first n ids of the source list. */
  ghost predicate ReloadedTo(s: Store, s': Store, src: Source, clock: nat -> int, n: nat) {
    && n <= |SourceList(s, src)|
    && s' == WithSource(s, src, SourceList(s, src)[n..]).(waiting := s'.waiting, messages := s'.messages)
    && s'.waiting == ReloadedInto(s.waiting, SourceList(s, src)[..n], s.messages, src)
    && ReopenedInRounds(s.messages, s'.messages, SourceList(s, src)[..n], src, clock)
  }

  /** The source position after one more round. */
  function ConsumedAfter(all: seq<Id>, n: nat): nat {
    if n <= |all| then n + |RoundAt(all, n)| else n
  }

  lemma RoundSplits(all: seq<Id>, n: nat)
    requires n <= |all|
    ensures n <= ConsumedAfter(all, n) <= |all|
    ensures all[..ConsumedAfter(all, n)] == all[..n] + RoundAt(all, n)
    ensures all[n..][|RoundAt(all, n)|..] == all[ConsumedAfter(all, n)..]
    ensures all[n..][..RoundSize(all[n..])] == RoundAt(all, n) && RoundSize(all[n..]) == |RoundAt(all, n)|
  {
  }

  /** Round q starts at the q-th hundred, or at the end. */
  predicate InRound(all: seq<Id>, n: nat, q: nat) {
    n == BATCH * q || n == |all|
  }

  lemma RoundJoins(s: Store, s1: Store, src: Source, clock: nat -> int, n: nat, q: nat)
    requires ReloadedTo(s, s1, src, clock, n) && InRound(SourceList(s, src), n, q)
    ensures ReloadedTo(s, Scripts.Reload(s1, src, clock(q)), src, clock, ConsumedAfter(SourceList(s, src), n))
  {
    var all, m := SourceList(s, src), s.messages;
    var round := RoundAt(all, n);
    assert SourceList(s1, src) == all[n..];
    RoundSplits(all, n);
    RejectedStable(m, s1.messages, all[..n], src, clock, round);
    ListsJoin(s.waiting, all[..n], round, m, src);
    ReopenedJoin(m, s1.messages, all[..n], round, src, clock, q);
    var s2 := Scripts.Reload(s1, src, clock(q));
    assert s2.messages == Reopened(s1.messages, round, src, clock(q));
    assert s2.waiting == ReloadedInto(s1.waiting, round, s1.messages, src);
    assert SourceList(s2, src) == all[ConsumedAfter(all, n)..];
  }

  /** What a round reports is what it accepts, and the counts of consecutive rounds add up. */
  lemma RoundCounts(s: Store, s1: Store, src: Source, clock: nat -> int, n: nat)
    requires ReloadedTo(s, s1, src, clock, n)
    ensures var all, m := SourceList(s, src), s.messages;
            && ReloadCount(s1, src) == AcceptedCount(RoundAt(all, n), m, src)
            && AcceptedCount(all[..ConsumedAfter(all, n)], m, src)
               == AcceptedCount(all[..n], m, src) + AcceptedCount(RoundAt(all, n), m, src)
  {
    var all, m := SourceList(s, src), s.messages;
    assert SourceList(s1, src) == all[n..];
    RoundSplits(all, n);
    RejectedStable(m, s1.messages, all[..n], src, clock, RoundAt(all, n));
    ListsJoin([], all[..n], RoundAt(all, n), m, src);
  }

  /**
   * Reload. The clock is read anew in every round. Nothing else touches the channel meanwhile.
   */
  method Reload(ch: Channel, queue: string, clock: nat -> int) returns (result: ReloadResult)
    modifies ch
    ensures queue == "timeout" ==>
              && result.Reloaded? && ch.failed == old(ch.failed)
              && ReloadOutcome(old(ch.Contents()), ch.Contents(), TimeoutList, clock, result.total)
    ensures queue == "" || queue == "failed" ==>
              && result.Reloaded? && ch.timeout == old(ch.timeout)
              && ReloadOutcome(old(ch.Contents()), ch.Contents(), FailedList, clock, result.total)
    ensures queue != "timeout" && queue != "" && queue != "failed" ==>
              result == Unsupported && ch.Contents() == old(ch.Contents())
  {
    var src := FailedList;
    if queue != "" {
      if queue != "timeout" && queue != "failed" {
        return Unsupported;
      }
      if queue == "timeout" {
        src := TimeoutList;
      }
    }
    var total := ReloadFrom(ch, src, clock);
    return ReloadResult.Reloaded(total);
  }

  /** What the loop of Reload keeps: q rounds took n ids, `total` of them put back, the end not passed yet. */
  ghost predicate Progress(s: Store, s1: Store, src: Source, clock: nat -> int, n: nat, q: nat, total: nat) {
    && ReloadedTo(s, s1, src, clock, n) && InRound(SourceList(s, src), n, q)
    && total == AcceptedCount(SourceList(s, src)[..n], s.messages, src)
    && Extent(SourceList(s, src), s.messages, src, n) == Extent(SourceList(s, src), s.messages, src, 0)
  }

  /** The outcome of a reload of `src` from `s`; the clock showed clock(q) in round q. */
  ghost predicate ReloadOutcome(s: Store, s': Store, src: Source, clock: nat -> int, total: nat) {
    var n := Extent(SourceList(s, src), s.messages, src, 0);
    ReloadedTo(s, s', src, clock, n) && total == AcceptedCount(SourceList(s, src)[..n], s.messages, src)
  }

  lemma ExtentStep(all: seq<Id>, m: map<Id, Record>, src: Source, n: nat)
    requires n <= |all|
    ensures var round := RoundAt(all, n);
            && n + |round| <= |all|
            && Extent(all, m, src, n) == (if AcceptedCount(round, m, src) == 0 then n + |round|
                                          else Extent(all, m, src, n + |round|))
            && (AcceptedCount(round, m, src) > 0 ==> |round| > 0)
  {
    if RoundAt(all, n) == [] {
      NoneAccepted([], m, src);
    }
  }

  /** One round of the loop: progress if it put something back, otherwise the outcome. */
  lemma RoundProgresses(s: Store, s1: Store, src: Source, clock: nat -> int, n: nat, q: nat, total: nat)
    requires Progress(s, s1, src, clock, n, q, total)
    ensures var moved, s2 := ReloadCount(s1, src), Scripts.Reload(s1, src, clock(q));
            if moved > 0
            then n < ConsumedAfter(SourceList(s, src), n) <= |SourceList(s, src)|
              && Progress(s, s2, src, clock, ConsumedAfter(SourceList(s, src), n), q + 1, total + moved)
            else ReloadOutcome(s, s2, src, clock, total)
  {
    RoundJoins(s, s1, src, clock, n, q);
    RoundCounts(s, s1, src, clock, n);
    ExtentStep(SourceList(s, src), s.messages, src, n);
  }

  /** The loop of Reload. */
  method ReloadFrom(ch: Channel, src: Source, clock: nat -> int) returns (total: nat)
    modifies ch
    ensures ReloadOutcome(old(ch.Contents()), ch.Contents(), src, clock, total)
  {
    ghost var s := ch.Contents();
    ghost var n := 0;
    total := 0;
    var round := 0;
    NothingReloaded(s, src, clock);
    while true
      invariant Progress(s, ch.Contents(), src, clock, n, round, total)
      decreases |SourceList(s, src)| - n
    {
      RoundProgresses(s, ch.Contents(), src, clock, n, round, total);
      var moved := ch.ReloadScript(src, clock(round));
      if moved <= 0 {
        return;
      }
      total := total + moved;
      round := round + 1;
      n := ConsumedAfter(SourceList(s, src), n);
    }
  }

  lemma NothingReloaded(s: Store, src: Source, clock: nat -> int)
    ensures ReloadedTo(s, s, src, clock, 0) && AcceptedCount(SourceList(s, src)[..0], s.messages, src) == 0
  {
    WithoutNothing(s.waiting, Rejected([], s.messages, src));
    assert SourceList(s, src)[0..] == SourceList(s, src);
  }

  // ----- where a reload stops -----

  lemma {:induction false} NoneAccepted(ids: seq<Id>, m: map<Id, Record>, src: Source)
    ensures AcceptedCount(ids, m, src) == 0 <==> forall k :: 0 <= k < |ids| ==> !Accepts(m, src, ids[k])
  {
    if forall k :: 0 <= k < |ids| ==> !Accepts(m, src, ids[k]) {
      WithoutEverything(ids, Rejected(ids, m, src));
    } else {
      var k :| 0 <= k < |ids| && Accepts(m, src, ids[k]);
      WithoutCount(ids, Rejected(ids, m, src), ids[k]);
      CountMember(ids, ids[k]);
    }
  }

  lemma {:induction false} ExtentStops(all: seq<Id>, m: map<Id, Record>, src: Source, from: nat)
    requires from <= |all|
    ensures var n := Extent(all, m, src, from);
            n == |all| || (n >= from + BATCH && forall k :: n - BATCH <= k < n ==> !Accepts(m, src, all[k]))
    decreases |all| - from
  {
    var round := RoundAt(all, from);
    NoneAccepted(round, m, src);
    if AcceptedCount(round, m, src) == 0 {
      forall k | from <= k < from + |round| ensures !Accepts(m, src, all[k]) {
        assert all[k] == round[k - from];
      }
    } else {
      ExtentStops(all, m, src, from + |round|);
    }
  }

  /** Some id of the q-th hundred is accepted. */
  predicate RoundHasWork(all: seq<Id>, m: map<Id, Record>, src: Source, q: nat) {
    exists k :: 100 * q <= k < 100 * q + 100 && k < |all| && Accepts(m, src, all[k])
  }

  /** A reload that starts at the q-th hundred empties the source iff every later full round but the last has work. */
  lemma {:induction false} DrainsFrom(all: seq<Id>, m: map<Id, Record>, src: Source, q: nat)
    requires BATCH * q <= |all|
    ensures Extent(all, m, src, BATCH * q) == |all|
       <==> forall p: nat :: q <= p && BATCH * p + BATCH < |all| ==> RoundHasWork(all, m, src, p)
    decreases |all| - BATCH * q
  {
    var round := RoundAt(all, BATCH * q);
    NoneAccepted(round, m, src);
    assert forall k :: 0 <= k < |round| ==> round[k] == all[BATCH * q + k];
    if BATCH * q + BATCH < |all| {
      assert RoundHasWork(all, m, src, q) <==> AcceptedCount(round, m, src) > 0 by {
        if RoundHasWork(all, m, src, q) {
          var k :| BATCH * q <= k < BATCH * q + BATCH && k < |all| && Accepts(m, src, all[k]);
          assert round[k - BATCH * q] == all[k];
        }
      }
      DrainsFrom(all, m, src, q + 1);
    } else if AcceptedCount(round, m, src) > 0 {
      assert BATCH * q + |round| == |all|;
      assert RoundAt(all, |all|) == [];
      NoneAccepted([], m, src);
    }
  }

  /** A completed reload leaves the part of the source behind its extent. */
  lemma ReloadLeaves(s: Store, s': Store, src: Source, clock: nat -> int, total: nat)
    requires ReloadOutcome(s, s', src, clock, total)
    ensures SourceList(s', src) == SourceList(s, src)[Extent(SourceList(s, src), s.messages, src, 0)..]
  {
  }

  /** A reload stops at the end of the source, or right after a full round of rejected ids. */
  lemma ReloadStops(s: Store, s': Store, src: Source, clock: nat -> int, total: nat)
    requires ReloadOutcome(s, s', src, clock, total)
    ensures var all, rest := SourceList(s, src), SourceList(s', src);
            || rest == []
            || (exists n :: 100 <= n < |all| && rest == all[n..]
                  && forall k :: n - 100 <= k < n ==> !Accepts(s.messages, src, all[k]))
  {
    ReloadLeaves(s, s', src, clock, total);
    ExtentStops(SourceList(s, src), s.messages, src, 0);
  }

  /**
   * A reload empties its source exactly when no full round before the last consists of rejected ids
   * only; otherwise it stops there and leaves whatever follows.
   */
  lemma ReloadDrainsExactlyWhen(s: Store, s': Store, src: Source, clock: nat -> int, total: nat)
    requires ReloadOutcome(s, s', src, clock, total)
    ensures SourceList(s', src) == []
       <==> forall p: nat :: 100 * p + 100 < |SourceList(s, src)| ==>
              RoundHasWork(SourceList(s, src), s.messages, src, p)
  {
    ReloadLeaves(s, s', src, clock, total);
    DrainsFrom(SourceList(s, src), s.messages, src, 0);
  }

  /** A hundred rejected ids ahead of the rest keep all of it from being reloaded. */
  lemma StaleHeadBlocks(s: Store, s': Store, src: Source, clock: nat -> int, total: nat)
    requires ReloadOutcome(s, s', src, clock, total)
    requires |SourceList(s, src)| > 100
    requires forall k :: 0 <= k < 100 ==> !Accepts(s.messages, src, SourceList(s, src)[k])
    ensures total == 0 && SourceList(s', src) == SourceList(s, src)[100..]
  {
    var all := SourceList(s, src);
    var round := RoundAt(all, 0);
    assert forall k :: 0 <= k < |round| ==> round[k] == all[k];
    assert all[..BATCH] == round;
    NoneAccepted(round, s.messages, src);
    ReloadLeaves(s, s', src, clock, total);
  }

  /** One call of a series: a reload of `src` with some clock and some total. */
  ghost predicate ReloadCall(s: Store, s': Store, src: Source) {
    exists clock: nat -> int, total: nat :: ReloadOutcome(s, s', src, clock, total)
  }

  /** One call may stop early, but repeated calls empty the source: every call takes at least a hundred ids or all. */
  lemma {:induction false} RepeatedReloadsDrain(calls: seq<Store>, src: Source, i: nat)
    requires i < |calls| && forall k :: 0 <= k < |calls| - 1 ==> ReloadCall(calls[k], calls[k + 1], src)
    ensures |SourceList(calls[i], src)| <= |SourceList(calls[0], src)|
    ensures SourceList(calls[i], src) == [] || |SourceList(calls[i], src)| <= |SourceList(calls[0], src)| - 100 * i
    ensures 100 * i >= |SourceList(calls[0], src)| ==> SourceList(calls[i], src) == []
  {
    if i > 0 {
      RepeatedReloadsDrain(calls, src, i - 1);
      var s, s' := calls[i - 1], calls[i];
      assert ReloadCall(s, calls[(i - 1) + 1], src);
      var clock, total :| ReloadOutcome(s, s', src, clock, total);
      ReloadLeaves(s, s', src, clock, total);
      ExtentStops(SourceList(s, src), s.messages, src, 0);
    }
  }

  /** If no source id is waiting as well, waiting grows by exactly the accepted ids consumed, in order. */
  lemma ReloadAppends(s: Store, s': Store, src: Source, clock: nat -> int, n: nat)
    requires ReloadedTo(s, s', src, clock, n)
    requires forall x :: x in SourceList(s, src) ==> x !in s.waiting
    ensures var ids := SourceList(s, src)[..n];
            s'.waiting == s.waiting + Without(ids, Rejected(ids, s.messages, src))
  {
    WithoutNothing(s.waiting, Rejected(SourceList(s, src)[..n], s.messages, src));
  }
}
