/** The pop script as a search: first in, first out, over the waiting ids that still have an entity. */
module Claiming {
  import opened Messages
  import opened Scripts

  /** Position i of the waiting list is the oldest id with a readable entity. */
  predicate OldestReadable(s: Store, i: nat) {
    i < |s.waiting| && IsLive(s.messages, s.waiting[i]) && forall j :: 0 <= j < i ==> !IsLive(s.messages, s.waiting[j])
  }

  /**
   * A pop claims the oldest readable id and keeps everything behind it in order; it claims nothing
   * exactly when no waiting id is readable. Exactly the unreadable ids ahead of the claim are thrown away,
   * their garbage deleted, and no readable entity is lost or changed except the claimed one, which becomes
   * reserved.
   */
  lemma PopIsFifoSearch(s: Store, now: int, deadline: int)
    ensures Claimed(s) == None <==> forall x :: x in s.waiting ==> !IsLive(s.messages, x)
    ensures Claimed(s) == None ==> Pop(s, now, deadline).waiting == [] && Pop(s, now, deadline).reserved == s.reserved
    ensures Claimed(s).Some? ==>
              exists i: nat :: OldestReadable(s, i) && s.waiting[i] == Claimed(s).value
                       && Pop(s, now, deadline).waiting == s.waiting[i + 1..]
    ensures Claimed(s).Some? ==>
              && Pop(s, now, deadline).reserved == s.reserved[Claimed(s).value := deadline]
              && var e := s.messages[Claimed(s).value].entity;
                 Lookup(Pop(s, now, deadline).messages, Claimed(s).value)
                   == Some(Live(Entity(Reserved, e.attempts, e.maxAttempts, now)))
    ensures forall x :: IsLive(s.messages, x) && Claimed(s) != Some(x) ==>
              Lookup(Pop(s, now, deadline).messages, x) == Lookup(s.messages, x)
    ensures exists i: nat :: (OldestReadable(s, i) || (i == |s.waiting| && Claimed(s) == None))
                       && forall x :: x in s.messages ==>
                            (x !in Pop(s, now, deadline).messages <==> x in s.waiting[..i] && s.messages[x].Garbage?)
    ensures var s' := Pop(s, now, deadline);
            s' == s.(waiting := s'.waiting, reserved := s'.reserved, messages := s'.messages)
  {
    var i := FirstLive(s.waiting, s.messages);
    assert i < |s.waiting| ==> OldestReadable(s, i);
  }
}
