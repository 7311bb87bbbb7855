/**
 * Forwarding a hundred ids at a time is the same as forwarding them all: the
 * batches join up in (score, id) order, and repeated polls drain what is due.
 */
module Forwarding {
  import opened Messages
  import opened Lists
  import opened SortedSets
  import opened Scripts
  import opened Channels

  /** ForwardMessages: one batch of each kind, with the clock read once. */
  method ForwardMessages(ch: Channel, now: int) returns (forwardedDelayed: nat, forwardedTimeout: nat)
    modifies ch
    ensures ch.Contents() == MoveTimeout(Move(old(ch.Contents()), now + 1), now)
    ensures forwardedDelayed == |old(ch.delayed)| - |ch.delayed|
    ensures forwardedTimeout == |ch.timeout| - |old(ch.timeout)|
  {
    FirstDueFacts(ch.delayed, now + 1);
    RemovalCount(ch.delayed, FirstDue(ch.delayed, now + 1));
    forwardedDelayed := ch.MoveScript(now + 1);
    forwardedTimeout := ch.MoveTimeoutScript(now);
  }

  // ----- joining batches -----

  lemma EntitiesJoin(m: map<Id, Record>, a: seq<Id>, b: seq<Id>, status: Status, at: int)
    requires Distinct(a + b)
    ensures Restamped(Restamped(m, a, status, at), b, status, at) == Restamped(m, a + b, status, at)
  {
    DistinctParts(a, b);
  }

  lemma DistinctParts(a: seq<Id>, b: seq<Id>)
    requires Distinct(a + b)
    ensures forall x :: x in b ==> x !in a
  {
    var s := a + b;
    forall i, j | 0 <= i < |a| && 0 <= j < |b| ensures a[i] != b[j] {
      assert a[i] == s[i] && b[j] == s[|a| + j];
    }
  }

  lemma {:induction false} ListsJoin(w: seq<Id>, m: map<Id, Record>, a: seq<Id>, b: seq<Id>, status: Status, at: int)
    requires Distinct(a + b)
    ensures MovedInto(MovedInto(w, a, m), b, Restamped(m, a, status, at)) == MovedInto(w, a + b, m)
  {
    var m' := Restamped(m, a, status, at);
    if b == [] {
      assert a + b == a;
      WithoutNothing(MovedInto(w, a, m), Unstored([], m'));
    } else {
      var id, front := b[|b| - 1], b[..|b| - 1];
      assert b == front + [id] && a + b == (a + front) + [id];
      DistinctParts(a + front, [id]);
      assert id in [id];
      assert Distinct(a + front) by { assert a + front == (a + b)[..|a + front|]; }
      ListsJoin(w, m, a, front, status, at);
      MoveOneWaiting(MovedInto(w, a, m), front, id, m');
      MoveOneWaiting(w, a + front, id, m);
    }
  }

  lemma MovesJoin(s: Store, a: seq<Id>, b: seq<Id>, at: int)
    requires Distinct(a + b)
    ensures MoveIds(MoveIds(s, a, at), b, at) == MoveIds(s, a + b, at)
  {
    EntitiesJoin(s.messages, a, b, Waiting, at);
    ListsJoin(s.waiting, s.messages, a, b, Waiting, at);
    assert Elements(a + b) == Elements(a) + Elements(b);
    assert s.delayed - Elements(a) - Elements(b) == s.delayed - Elements(a + b);
  }

  // ----- polling until nothing is due -----

  /** The store after polling at the same second until a batch is empty, and the total count reported. */
  ghost function Polled(s: Store, now: int): (Store, nat)
    decreases |s.delayed|
  {
    FirstDueFacts(s.delayed, now);
    RemovalCount(s.delayed, FirstDue(s.delayed, now));
    var n := |FirstDue(s.delayed, now)|;
    if n == 0 then (s, 0)
    else
      var (s', rest) := Polled(Move(s, now), now);
      (s', n + rest)
  }

  /**
   * Batching is invisible: polling until idle does exactly what one unlimited move of everything due
   * would do, in any state, and the reported counts add up to the number of ids that left delayed.
   */
  lemma {:induction false} BatchesAreTransparent(s: Store, now: int)
    ensures Polled(s, now).0 == MoveIds(s, Due(s.delayed, now), now)
    ensures Polled(s, now).1 == |Due(s.delayed, now)| == |s.delayed| - |Polled(s, now).0.delayed|
    decreases |s.delayed|
  {
    FirstDueFacts(s.delayed, now);
    RemovalCount(s.delayed, FirstDue(s.delayed, now));
    if FirstDue(s.delayed, now) == [] {
      MoveNothing(s, now);
    } else {
      BatchesAreTransparent(Move(s, now), now);
      BatchJoins(s, now);
    }
  }

  /** Everything due is this batch followed by everything due after it. */
  lemma BatchJoins(s: Store, now: int)
    ensures MoveIds(Move(s, now), Due(Move(s, now).delayed, now), now) == MoveIds(s, Due(s.delayed, now), now)
    ensures |Due(s.delayed, now)| == |FirstDue(s.delayed, now)| + |Due(Move(s, now).delayed, now)|
  {
    var due, batch := Due(s.delayed, now), FirstDue(s.delayed, now);
    DueFacts(s.delayed, now);
    DueAfterBatch(s.delayed, now);
    var rest := due[|batch|..];
    assert due == batch + rest;
    assert Due(Move(s, now).delayed, now) == rest;
    MovesJoin(s, batch, rest, now);
  }

  /**
   * From a store whose due ids are not waiting, the waiting list grows by the due ids that decode, in
   * listing order, and by nothing else.
   */
  lemma PolledWaiting(s: Store, now: int)
    requires forall x :: x in s.delayed ==> x !in s.waiting
    ensures Polled(s, now).0.waiting
         == s.waiting + Without(Due(s.delayed, now), Undecodable(Due(s.delayed, now), s.messages))
    ensures forall x :: x in Due(s.delayed, now) <==> x in s.delayed && s.delayed[x] <= now
  {
    BatchesAreTransparent(s, now);
    DueFacts(s.delayed, now);
    WithoutNothing(s.waiting, Unstored(Due(s.delayed, now), s.messages));
  }

  /**
   * And in any state: of two readable due ids the lower score waits first; at equal scores, the id that
   * is a proper prefix of the other, or that has the smaller character where they first differ, at k.
   */
  lemma PolledInOrder(s: Store, now: int, a: Id, b: Id, k: nat)
    requires a in s.delayed && s.delayed[a] <= now && IsLive(s.messages, a)
    requires b in s.delayed && s.delayed[b] <= now && IsLive(s.messages, b)
    requires || s.delayed[a] < s.delayed[b]
             || (s.delayed[a] == s.delayed[b] && k <= |a| && k < |b| && a[..k] == b[..k] && (k == |a| || a[k] < b[k]))
    ensures Earlier(Polled(s, now).0.waiting, a, b)
  {
    var due := Due(s.delayed, now);
    BatchesAreTransparent(s, now);
    if s.delayed[a] == s.delayed[b] {
      assert DiffersAt(a, b, k);
    }
    DueInOrder(s.delayed, now, a, b);
    WithoutKeepsOrder(due, Undecodable(due, s.messages), a, b);
    EarlierBehind(Without(s.waiting, Unstored(due, s.messages)), Without(due, Undecodable(due, s.messages)), a, b);
  }
}
