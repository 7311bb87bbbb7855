/**
 * What the looping scripts do, told id by id: which ids a round takes, what becomes of
 * their entities, how often and in which order they are listed afterwards. Statuses,
 * stamps and limits are spelled out here rather than taken from module Scripts.
 */
module Effects {
  import opened Messages
  import opened Lists
  import opened SortedSets
  import opened Scripts
  import opened Projection

  // ----- forwarding -----

  /** Due, and among the first hundred in listing order. */
  ghost predicate Taken(z: map<Id, int>, now: int, x: Id) {
    x in z && z[x] <= now && |Ahead(z, x)| < 100
  }

  lemma TakenIsListed(z: map<Id, int>, now: int, x: Id)
    ensures x in FirstDue(z, now) <==> Taken(z, now, x)
  {
    FirstDueFacts(z, now);
    if x in z {
      FirstDueExactly(z, now, x);
    }
  }

  lemma EntityEffect(m: map<Id, Record>, ids: seq<Id>, now: int, x: Id)
    ensures Lookup(Restamped(m, ids, Waiting, now), x)
         == match Lookup(m, x)
            case Some(Live(e)) => Some(Live(if x in ids then Entity(Waiting, e.attempts, e.maxAttempts, now) else e))
            case other => if x in ids then None else other
  {
  }

  /** A round takes exactly those ids out of delayed and touches neither reserved, timeout nor failed. */
  lemma MoveEffect(s: Store, now: int, x: Id)
    ensures var s', taken := Move(s, now), Taken(s.delayed, now, x);
            && Score(s'.delayed, x) == (if taken then None else Score(s.delayed, x))
            && s' == s.(delayed := s'.delayed, waiting := s'.waiting, messages := s'.messages)
  {
    TakenIsListed(s.delayed, now, x);
  }

  /** A taken readable entity gets the status waiting and the stamp, taken garbage is deleted, nothing else changes. */
  lemma MoveEntities(s: Store, now: int, x: Id)
    ensures Lookup(Move(s, now).messages, x)
         == var taken := Taken(s.delayed, now, x);
            match Lookup(s.messages, x)
            case Some(Live(e)) => Some(Live(if taken then Entity(Waiting, e.attempts, e.maxAttempts, now) else e))
            case other => if taken then None else other
  {
    TakenIsListed(s.delayed, now, x);
    EntityEffect(s.messages, FirstDue(s.delayed, now), now, x);
  }

  /** A taken readable id waits once more; one without an entity leaves waiting; garbage stays where it is listed. */
  lemma MoveWaiting(s: Store, now: int, x: Id)
    ensures Count(Move(s, now).waiting, x)
         == if !Taken(s.delayed, now, x) then Count(s.waiting, x)
            else if x !in s.messages then 0
            else Count(s.waiting, x) + if s.messages[x].Live? then 1 else 0
  {
    TakenIsListed(s.delayed, now, x);
    FirstDueFacts(s.delayed, now);
    MoveCounts(s.waiting, FirstDue(s.delayed, now), s.messages, x);
  }

  /** Released ids come after everything that waited and follow each other by score and then by id. */
  lemma MoveOrder(s: Store, now: int, a: Id, b: Id)
    requires Taken(s.delayed, now, b) && IsLive(s.messages, a) && IsLive(s.messages, b)
    ensures a in s.waiting ==> Earlier(Move(s, now).waiting, a, b)
    ensures Taken(s.delayed, now, a) && ListedBefore(s.delayed, a, b) ==> Earlier(Move(s, now).waiting, a, b)
  {
    var ids := FirstDue(s.delayed, now);
    var gone, dead := Unstored(ids, s.messages), Undecodable(ids, s.messages);
    FirstDueExactly(s.delayed, now, b);
    Joined(s.waiting, gone, ids, dead, a, b);
    if Taken(s.delayed, now, a) && ListedBefore(s.delayed, a, b) {
      FirstDueExactly(s.delayed, now, a);
      FirstDueInOrder(s.delayed, now, a, b);
    }
  }

  /** Where ids end up when a listed batch joins a list, both with some ids removed. */
  lemma Joined(w: seq<Id>, gone: set<Id>, ids: seq<Id>, dead: set<Id>, a: Id, b: Id)
    requires a !in gone && a !in dead && b !in dead && b in ids
    ensures a in w ==> Earlier(Without(w, gone) + Without(ids, dead), a, b)
    ensures Earlier(ids, a, b) ==> Earlier(Without(w, gone) + Without(ids, dead), a, b)
  {
    var front, back := Without(w, gone), Without(ids, dead);
    if a in w {
      Kept(w, gone, a);
      Kept(ids, dead, b);
      var i :| 0 <= i < |front| && front[i] == a;
      var j :| 0 <= j < |back| && back[j] == b;
      assert (front + back)[i] == a && (front + back)[|front| + j] == b;
    }
    if Earlier(ids, a, b) {
      WithoutKeepsOrder(ids, dead, a, b);
      EarlierBehind(front, back, a, b);
    }
  }

  lemma Kept(s: seq<Id>, gone: set<Id>, x: Id)
    requires x in s && x !in gone
    ensures x in Without(s, gone)
  {
    WithoutCount(s, gone, x);
    CountMember(s, x);
    CountMember(Without(s, gone), x);
  }

  /** A round takes exactly those ids out of reserved; the ones with an entity join timeout, nothing else changes. */
  lemma ExpireEffect(s: Store, now: int, x: Id)
    ensures var s', taken := MoveTimeout(s, now), Taken(s.reserved, now, x);
            && Score(s'.reserved, x) == (if taken then None else Score(s.reserved, x))
            && Count(s'.timeout, x) == Count(s.timeout, x) + (if taken && x in s.messages then 1 else 0)
            && s' == s.(reserved := s'.reserved, timeout := s'.timeout)
  {
    var ids, m := FirstDue(s.reserved, now), s.messages;
    FirstDueFacts(s.reserved, now);
    TakenIsListed(s.reserved, now, x);
    CountDistinct(ids, x);
    WithoutCount(ids, Unstored(ids, m), x);
    assert Count(s.timeout + Without(ids, Unstored(ids, m)), x)
        == Count(s.timeout, x) + Count(Without(ids, Unstored(ids, m)), x);
  }

  /** Expired ids come after everything that was in timeout and follow each other by deadline and then by id. */
  lemma ExpireOrder(s: Store, now: int, a: Id, b: Id)
    requires Taken(s.reserved, now, b) && a in s.messages && b in s.messages
    ensures s.timeout <= MoveTimeout(s, now).timeout
    ensures a in s.timeout ==> Earlier(MoveTimeout(s, now).timeout, a, b)
    ensures Taken(s.reserved, now, a) && ListedBefore(s.reserved, a, b) ==> Earlier(MoveTimeout(s, now).timeout, a, b)
  {
    var ids := FirstDue(s.reserved, now);
    FirstDueExactly(s.reserved, now, b);
    WithoutNothing(s.timeout, {});
    Joined(s.timeout, {}, ids, Unstored(ids, s.messages), a, b);
    if Taken(s.reserved, now, a) && ListedBefore(s.reserved, a, b) {
      FirstDueExactly(s.reserved, now, a);
      FirstDueInOrder(s.reserved, now, a, b);
    }
  }

  // ----- reloading -----

  /** A reload puts a readable id back, from timeout only while its status is not final. */
  predicate PutBack(s: Store, src: Source, x: Id) {
    && x in s.messages && s.messages[x].Live?
    && (src == FailedList || s.messages[x].entity.status !in {Done, Dropped, Canceled})
  }

  function FirstHundred(s: seq<Id>): seq<Id> {
    if |s| <= 100 then s else s[..100]
  }

  /** A round takes the first hundred ids; the ones to be put back wait afterwards, the others do not. */
  lemma ReloadEffect(s: Store, src: Source, now: int, x: Id)
    ensures var s', all := Scripts.Reload(s, src, now), SourceList(s, src);
            var round := FirstHundred(all);
            && s' == WithSource(s, src, all[|round|..]).(waiting := s'.waiting, messages := s'.messages)
            && Count(s'.waiting, x) == (if x !in round then Count(s.waiting, x)
                                        else if PutBack(s, src, x) then Count(s.waiting, x) + Count(round, x)
                                        else 0)
  {
    var all := SourceList(s, src);
    var round := FirstHundred(all);
    assert all[..RoundSize(all)] == round;
    ReloadCounts(s.waiting, round, s.messages, src, x);
  }

  /** An entity put back gets the status waiting and the stamp; no other entity changes. */
  lemma ReloadEntities(s: Store, src: Source, now: int, x: Id)
    ensures Lookup(Scripts.Reload(s, src, now).messages, x)
         == if x in FirstHundred(SourceList(s, src)) && PutBack(s, src, x)
            then var e := s.messages[x].entity; Some(Live(Entity(Waiting, e.attempts, e.maxAttempts, now)))
            else Lookup(s.messages, x)
  {
    var all := SourceList(s, src);
    assert all[..RoundSize(all)] == FirstHundred(all);
  }

  /** A round reports how many of its ids it puts back. */
  lemma ReloadReports(s: Store, src: Source)
    ensures var round := FirstHundred(SourceList(s, src));
            ReloadCount(s, src) == |set k | 0 <= k < |round| && PutBack(s, src, round[k])|
  {
    var round := FirstHundred(SourceList(s, src));
    var no := Rejected(round, s.messages, src);
    CountedByPlace(round, no);
    assert (set k | 0 <= k < |round| && PutBack(s, src, round[k])) == set k | 0 <= k < |round| && round[k] !in no;
  }

  lemma {:induction false} CountedByPlace(ids: seq<Id>, gone: set<Id>)
    ensures |Without(ids, gone)| == |set k | 0 <= k < |ids| && ids[k] !in gone|
  {
    if ids != [] {
      var front, n := ids[..|ids| - 1], |ids| - 1;
      CountedByPlace(front, gone);
      var before := set k | 0 <= k < n && front[k] !in gone;
      assert (set k | 0 <= k < |ids| && ids[k] !in gone) == before + if ids[n] in gone then {} else {n};
    }
  }

  /** Reloaded ids come after everything that waited and keep the order of the source. */
  lemma ReloadOrder(s: Store, src: Source, now: int, a: Id, b: Id)
    requires PutBack(s, src, a) && PutBack(s, src, b) && b in FirstHundred(SourceList(s, src))
    ensures a in s.waiting || Earlier(FirstHundred(SourceList(s, src)), a, b) ==>
              Earlier(Scripts.Reload(s, src, now).waiting, a, b)
  {
    var all := SourceList(s, src);
    var round := FirstHundred(all);
    assert all[..RoundSize(all)] == round;
    var no := Rejected(round, s.messages, src);
    Joined(s.waiting, no, round, no, a, b);
  }

  // ----- retrying -----

  /** A retry of an id in no bucket changes nothing. */
  lemma RetryMisses(s: Store, id: Id, raw: Entity, toWaiting: bool, score: int)
    requires id !in s.waiting && id !in s.delayed && id !in s.reserved && id !in s.timeout && id !in s.failed
    ensures Retry(s, id, raw, toWaiting, score) == s
  {
  }

  /**
   * A retry of an id in some bucket stores the entity and ends the reservation; without a reservation it
   * takes the id out of the four other buckets; then the id joins waiting at the end, or delayed.
   */
  lemma RetryEffect(s: Store, id: Id, raw: Entity, toWaiting: bool, score: int)
    requires id in s.waiting || id in s.delayed || id in s.reserved || id in s.timeout || id in s.failed
    ensures var s', fast := Retry(s, id, raw, toWaiting, score), id in s.reserved;
            && s'.messages == s.messages[id := Live(raw)] && s'.reserved == s.reserved - {id}
            && s'.waiting == (if fast then s.waiting else Without(s.waiting, {id})) + (if toWaiting then [id] else [])
            && s'.delayed == (var z := if fast then s.delayed else s.delayed - {id};
                              if toWaiting then z else z[id := score])
            && s'.timeout == (if fast then s.timeout else Without(s.timeout, {id}))
            && s'.failed == (if fast then s.failed else Without(s.failed, {id}))
  {
    assert id !in s.reserved ==> s.reserved - {id} == s.reserved;
  }
}
