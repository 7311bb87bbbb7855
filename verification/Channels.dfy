/**
 * The Lua scripts of pkg/queue/lua.go and the driver methods around them, as
 * they run: one channel whose keys are updated in place. Every method is proved
 * to have the effect that module Scripts gives in closed form.
 */
module Channels {
  import opened Messages
  import opened Lists
  import opened SortedSets
  import opened Scripts

  class Channel {
    var waiting: seq<Id>
    var delayed: map<Id, int>
    var reserved: map<Id, int>
    var timeout: seq<Id>
    var failed: seq<Id>
    var messages: map<Id, Record>

    function Contents(): Store
      reads this
    {
      Store(waiting, delayed, reserved, timeout, failed, messages)
    }

    constructor ()
      ensures Contents() == EMPTY
    {
      waiting, delayed, reserved, timeout, failed, messages := [], map[], map[], [], [], map[];
    }

    method PushScript(id: Id, raw: Entity, toWaiting: bool, score: int)
      modifies this
      ensures Contents() == Push(old(Contents()), id, raw, toWaiting, score)
      ensures messages == old(messages)[id := Live(raw)] && unchanged(`reserved, `timeout, `failed)
      ensures waiting == old(waiting) + if toWaiting then [id] else []
      ensures delayed == if toWaiting then old(delayed) else old(delayed)[id := score]
    {
      messages := messages[id := Live(raw)];
      if toWaiting {
        waiting := waiting + [id];
      } else {
        delayed := delayed[id := score];
      }
    }

    /** delayed -> waiting; returns the number of ids taken out of delayed. */
    method MoveScript(now: int) returns (count: nat)
      modifies this
      ensures Contents() == Move(old(Contents()), now)
      ensures count == |FirstDue(old(delayed), now)|
    {
      var ids := FirstDue(delayed, now);
      FirstDueFacts(delayed, now);
      MoveListed(ids, now);
      count := |ids|;
    }

    /** The loop of the move script. */
    method MoveListed(ids: seq<Id>, now: int)
      requires Distinct(ids)
      modifies this
      ensures Contents() == MoveIds(old(Contents()), ids, now)
    {
      ghost var s := Contents();
      MoveNothing(s, now);
      for i := 0 to |ids|
        invariant unchanged(`reserved, `timeout, `failed)
        invariant delayed == s.delayed - Elements(ids[..i])
        invariant waiting == MovedInto(s.waiting, ids[..i], s.messages)
        invariant messages == Restamped(s.messages, ids[..i], Waiting, now)
      {
        MoveOne(ids[i], now, s.waiting, s.messages, ids[..i]);
        assert ids[..i + 1] == ids[..i] + [ids[i]];
      }
      assert ids[..|ids|] == ids;
    }

    /** The body of the move loop for `id`, after the ids `pre`, from waiting list `w` and entities `m`. */
    method MoveOne(id: Id, now: int, ghost w: seq<Id>, ghost m: map<Id, Record>, ghost pre: seq<Id>)
      requires id !in pre
      requires waiting == MovedInto(w, pre, m) && messages == Restamped(m, pre, Waiting, now)
      modifies this`delayed, this`waiting, this`messages
      ensures delayed == old(delayed) - {id}
      ensures waiting == MovedInto(w, pre + [id], m)
      ensures messages == Restamped(m, pre + [id], Waiting, now)
    {
      MoveOneWaiting(w, pre, id, m);
      MoveOneEntity(m, pre, id, Waiting, now);
      delayed := delayed - {id};
      if id in messages {
        if messages[id].Live? {
          messages := messages[id := Live(Stamp(messages[id].entity, Waiting, now))];
          waiting := waiting + [id];
        } else {
          messages := messages - {id};
        }
      } else {
        waiting := Without(waiting, {id});
      }
    }

    /** reserved -> timeout; returns the number of ids put into timeout. */
    method MoveTimeoutScript(now: int) returns (moved: nat)
      modifies this
      ensures Contents() == MoveTimeout(old(Contents()), now)
      ensures moved == |timeout| - |old(timeout)|
    {
      var ids := FirstDue(reserved, now);
      ghost var s := Contents();
      FirstDueFacts(reserved, now);
      moved := 0;
      assert ExpireIds(s, ids[..0]) == s by {
        assert s.reserved - Elements(ids[..0]) == s.reserved;
      }
      for i := 0 to |ids|
        invariant Contents() == ExpireIds(s, ids[..i])
        invariant moved == |timeout| - |s.timeout|
      {
        var id := ids[i];
        ExpireOneMore(s, ids, i);
        reserved := reserved - {id};
        if id in messages {
          timeout := timeout + [id];
          moved := moved + 1;
        }
        assert reserved == ExpireIds(s, ids[..i + 1]).reserved;
      }
      assert ids[..|ids|] == ids;
    }

    /** Claims the oldest waiting id with a readable entity, throwing dead ids away. */
    method PopScript(now: int, deadline: int) returns (claimed: Option<Id>)
      modifies this
      ensures Contents() == Pop(old(Contents()), now, deadline)
      ensures claimed == Claimed(old(Contents()))
    {
      ghost var w, m := waiting, messages;
      ghost var i := 0;
      assert m - Elements(w[..0]) == m;
      while waiting != []
        invariant 0 <= i <= |w| && waiting == w[i..]
        invariant forall j :: 0 <= j < i ==> !IsLive(m, w[j])
        invariant messages == m - Elements(w[..i])
        invariant unchanged(`delayed, `reserved, `timeout, `failed)
        decreases |waiting|
      {
        var id := waiting[0];
        SweepOneMore(w, m, i);
        waiting := waiting[1..];
        if id in messages {
          if messages[id].Live? {
            FirstLiveIs(w, m, i);
            messages := messages[id := Live(Stamp(messages[id].entity, Reserved, now))];
            reserved := reserved[id := deadline];
            return Some(id);
          }
          messages := messages - {id};
        }
        i := i + 1;
      }
      FirstLiveIs(w, m, i);
      return None;
    }

    method AckScript(id: Id, now: int)
      modifies this
      ensures Contents() == Commit(old(Contents()), id, Ack, now)
      ensures reserved == old(reserved) - {id} && unchanged(`waiting, `delayed, `timeout, `failed)
      ensures messages == if !IsLive(old(messages), id) then old(messages)
                          else
                            var e := old(messages)[id].entity;
                            old(messages)[id := Live(Entity(Done, e.attempts, e.maxAttempts, now))]
    {
      reserved := reserved - {id};
      if id !in messages || messages[id].Garbage? {
        return;
      }
      messages := messages[id := Live(Stamp(messages[id].entity, Done, now))];
    }

    method FailScript(id: Id, now: int)
      modifies this
      ensures Contents() == Commit(old(Contents()), id, Fail, now)
      ensures reserved == old(reserved) - {id} && unchanged(`waiting, `delayed, `timeout)
      ensures failed == old(failed) + if IsLive(old(messages), id) then [id] else []
      ensures messages == if !IsLive(old(messages), id) then old(messages)
                          else
                            var e := old(messages)[id].entity;
                            old(messages)[id := Live(Entity(Failed, e.attempts, e.maxAttempts, now))]
    {
      reserved := reserved - {id};
      if id !in messages || messages[id].Garbage? {
        return;
      }
      messages := messages[id := Live(Stamp(messages[id].entity, Failed, now))];
      failed := failed + [id];
    }

    method DropScript(id: Id, now: int)
      modifies this
      ensures Contents() == Commit(old(Contents()), id, Drop, now)
      ensures reserved == old(reserved) - {id} && unchanged(`waiting, `delayed, `timeout, `failed)
      ensures messages == if !IsLive(old(messages), id) then old(messages)
                          else
                            var e := old(messages)[id].entity;
                            old(messages)[id := Live(Entity(Dropped, e.attempts, e.maxAttempts, now))]
    {
      reserved := reserved - {id};
      if id !in messages || messages[id].Garbage? {
        return;
      }
      messages := messages[id := Live(Stamp(messages[id].entity, Dropped, now))];
    }

    method RequeueScript(id: Id, now: int)
      modifies this
      ensures Contents() == Commit(old(Contents()), id, Requeue, now)
      ensures reserved == old(reserved) - {id} && unchanged(`delayed, `timeout, `failed)
      ensures waiting == old(waiting) + if IsLive(old(messages), id) then [id] else []
      ensures messages == if !IsLive(old(messages), id) then old(messages)
                          else
                            var e := old(messages)[id].entity;
                            old(messages)[id := Live(Entity(Waiting, e.attempts, e.maxAttempts, now))]
    {
      reserved := reserved - {id};
      if id !in messages || messages[id].Garbage? {
        return;
      }
      messages := messages[id := Live(Stamp(messages[id].entity, Waiting, now))];
      waiting := waiting + [id];
    }

    /** Returns whether the id was found in some bucket. */
    method RetryScript(id: Id, raw: Entity, toWaiting: bool, score: int) returns (found: bool)
      modifies this
      ensures Contents() == Retry(old(Contents()), id, raw, toWaiting, score)
      ensures found == Queued(old(Contents()), id)
    {
      if id in reserved {
        reserved := reserved - {id};
        messages := messages[id := Live(raw)];
        if toWaiting { waiting := waiting + [id]; } else { delayed := delayed[id := score]; }
        return true;
      }
      RemovalNoticed(waiting, id);
      RemovalNoticed(timeout, id);
      RemovalNoticed(failed, id);
      assert id !in delayed ==> delayed - {id} == delayed;
      var removed := |waiting| - |Without(waiting, {id})|;
      waiting := Without(waiting, {id});
      removed := removed + if id in delayed then 1 else 0;
      delayed := delayed - {id};
      removed := removed + |timeout| - |Without(timeout, {id})|;
      timeout := Without(timeout, {id});
      removed := removed + |failed| - |Without(failed, {id})|;
      failed := Without(failed, {id});
      if removed == 0 {
        return false;
      }
      messages := messages[id := Live(raw)];
      if toWaiting { waiting := waiting + [id]; } else { delayed := delayed[id := score]; }
      return true;
    }

    /**
     * Result codes as in the script: 1 canceled, -2 in execution, -1 ready for dispatch, 0 not found.
     * `lposMissIsNil` says how Redis hands a missing list position to Lua: as nil, or as false, which
     * the script takes for a position.
     */
    method CancelScript(id: Id, now: int, lposMissIsNil: bool) returns (code: int)
      modifies this
      ensures Contents() == Cancel(old(Contents()), id, now)
      ensures delayed == old(delayed) - {id} && unchanged(`waiting, `reserved, `timeout, `failed)
      ensures messages == if id !in old(delayed) then old(messages)
                          else if !IsLive(old(messages), id) then old(messages) - {id}
                          else
                            var e := old(messages)[id].entity;
                            old(messages)[id := Live(Entity(Canceled, e.attempts, e.maxAttempts, now))]
      ensures code in {1, 0, -1, -2}
      ensures code == 1 <==> id in old(delayed)
      ensures code == -2 <==> id !in old(delayed) && id in old(reserved)
      ensures code == 0 <==> id !in old(delayed) && id !in old(reserved) && id !in old(waiting) && lposMissIsNil
    {
      if id in delayed {
        delayed := delayed - {id};
        if id in messages {
          if messages[id].Live? {
            messages := messages[id := Live(Stamp(messages[id].entity, Canceled, now))];
          } else {
            messages := messages - {id};
          }
        }
        assert messages == Restamped(old(messages), [id], Canceled, now);
        return 1;
      }
      if id in reserved {
        return -2;
      }
      if id in waiting || !lposMissIsNil {
        return -1;
      }
      return 0;
    }

    /** One round of at most a hundred ids; returns how many were put back into waiting. */
    method ReloadScript(src: Source, now: int) returns (count: nat)
      modifies this
      ensures Contents() == Reload(old(Contents()), src, now)
      ensures count == ReloadCount(old(Contents()), src)
    {
      ghost var s := Contents();
      ghost var all := SourceList(s, src);
      count := 0;
      ReloadNothing(s, src, now);
      var i := 0;
      while i < BATCH && SourceList(Contents(), src) != []
        invariant 0 <= i <= BATCH && i <= |all|
        invariant Contents() == ReloadFirst(s, src, i, now) && SourceList(Contents(), src) == all[i..]
        invariant count == AcceptedCount(all[..i], s.messages, src)
        decreases BATCH - i
      {
        var accepted := ReloadNext(src, now, s, i);
        if accepted {
          count := count + 1;
        }
        i := i + 1;
      }
      RoundEnds(all, i);
    }

    /** The body of the reload loop after i ids of a round that started from `s`. */
    method ReloadNext(src: Source, now: int, ghost s: Store, ghost i: nat) returns (accepted: bool)
      requires i < |SourceList(s, src)| && Contents() == ReloadFirst(s, src, i, now)
      modifies this
      ensures Contents() == ReloadFirst(s, src, i + 1, now)
      ensures SourceList(Contents(), src) == SourceList(s, src)[i + 1..]
      ensures AcceptedCount(SourceList(s, src)[..i + 1], s.messages, src)
           == AcceptedCount(SourceList(s, src)[..i], s.messages, src) + if accepted then 1 else 0
    {
      ghost var all := SourceList(s, src);
      assert SourceList(Contents(), src) == all[i..];
      var id := TakeOldest(src);
      accepted := ReloadOne(id, src, now, s.waiting, s.messages, all[..i]);
      assert all[..i + 1] == all[..i] + [id];
    }

    /** RPOP from a source list. */
    method TakeOldest(src: Source) returns (id: Id)
      requires SourceList(Contents(), src) != []
      modifies this`timeout, this`failed
      ensures id == SourceList(old(Contents()), src)[0]
      ensures Contents() == WithSource(old(Contents()), src, SourceList(old(Contents()), src)[1..])
    {
      match src {
        case TimeoutList =>
          id := timeout[0];
          timeout := timeout[1..];
        case FailedList =>
          id := failed[0];
          failed := failed[1..];
      }
    }

    /**
     * The rest of the reload loop's body for `id`, when the ids `pre` were handled before it
     * and the round started from waiting list `w` and entities `m`.
     */
    method ReloadOne(id: Id, src: Source, now: int,
                     ghost w: seq<Id>, ghost m: map<Id, Record>, ghost pre: seq<Id>)
      returns (accepted: bool)
      requires waiting == ReloadedInto(w, pre, m, src) && messages == Reopened(m, pre, src, now)
      modifies this`waiting, this`messages
      ensures waiting == ReloadedInto(w, pre + [id], m, src)
      ensures messages == Reopened(m, pre + [id], src, now)
      ensures AcceptedCount(pre + [id], m, src) == AcceptedCount(pre, m, src) + if accepted then 1 else 0
    {
      ReloadOneWaiting(w, pre, id, m, src);
      ReloadOneEntity(m, pre, id, src, now);
      waiting := waiting + [id];
      accepted := false;
      if id !in messages {
        waiting := Without(waiting, {id});
      } else if messages[id].Live? {
        if src.TimeoutList? && Finished(messages[id].entity.status) {
          waiting := Without(waiting, {id});
        } else {
          messages := messages[id := Live(Stamp(messages[id].entity, Waiting, now))];
          accepted := true;
        }
      } else {
        waiting := Without(waiting, {id});
      }
    }
  }

  // ----- one more id -----

  lemma MoveNothing(s: Store, now: int)
    ensures MoveIds(s, [], now) == s
  {
    assert s.delayed - Elements([]) == s.delayed;
    WithoutNothing(s.waiting, Unstored([], s.messages));
    assert Restamped(s.messages, [], Waiting, now) == s.messages;
  }

  /** One pass of the move loop, on the waiting list. */
  lemma MoveOneWaiting(w: seq<Id>, pre: seq<Id>, id: Id, m: map<Id, Record>)
    requires id !in pre
    ensures MovedInto(w, pre + [id], m)
         == if id !in m then Without(MovedInto(w, pre, m), {id})
            else if IsLive(m, id) then MovedInto(w, pre, m) + [id]
            else MovedInto(w, pre, m)
  {
    var gone, dead := Unstored(pre, m), Undecodable(pre, m);
    var gone', dead' := Unstored(pre + [id], m), Undecodable(pre + [id], m);
    WithoutSnoc(pre, id, dead');
    WithoutAgree(pre, dead', dead);
    if id !in m {
      assert gone' == gone + {id};
      MoveOneAbsent(w, pre, id, gone, dead);
    } else {
      assert gone' == gone;
    }
  }

  lemma MoveOneAbsent(w: seq<Id>, pre: seq<Id>, id: Id, gone: set<Id>, dead: set<Id>)
    requires id !in pre
    ensures Without(Without(w, gone) + Without(pre, dead), {id}) == Without(w, gone + {id}) + Without(pre, dead)
  {
    WithoutTwice(w, gone, {id});
    WithoutConcat(Without(w, gone), Without(pre, dead), {id});
    WithoutTwice(pre, dead, {id});
    WithoutAgree(pre, dead + {id}, dead);
  }

  /** One pass of the move loop, on the entities. */
  lemma MoveOneEntity(m: map<Id, Record>, pre: seq<Id>, id: Id, status: Status, at: int)
    requires id !in pre
    ensures var before := Restamped(m, pre, status, at);
            && Lookup(before, id) == Lookup(m, id)
            && Restamped(m, pre + [id], status, at) ==
               (if id !in m then before
                else if m[id].Live? then before[id := Live(Stamp(m[id].entity, status, at))]
                else before - {id})
  {
  }

  lemma ExpireOneMore(s: Store, ids: seq<Id>, i: nat)
    requires i < |ids|
    ensures ExpireIds(s, ids[..i + 1]).reserved == ExpireIds(s, ids[..i]).reserved - {ids[i]}
    ensures ExpireIds(s, ids[..i + 1]).timeout
         == ExpireIds(s, ids[..i]).timeout + (if ids[i] in s.messages then [ids[i]] else [])
  {
    var id, pre, m := ids[i], ids[..i], s.messages;
    assert ids[..i + 1] == pre + [id];
    WithoutSnoc(pre, id, Unstored(pre + [id], m));
    WithoutAgree(pre, Unstored(pre + [id], m), Unstored(pre, m));
  }

  lemma SweepOneMore(w: seq<Id>, m: map<Id, Record>, i: nat)
    requires i < |w|
    ensures m - Elements(w[..i + 1]) == m - Elements(w[..i]) - {w[i]}
    ensures (forall j :: 0 <= j < i ==> !IsLive(m, w[j])) && IsLive(m, w[i]) ==> w[i] !in w[..i]
    ensures w[i] !in m - Elements(w[..i]) ==> !IsLive(m, w[i]) || w[i] in w[..i]
  {
    assert w[..i + 1] == w[..i] + [w[i]];
  }

  lemma {:induction false} FirstLiveIs(w: seq<Id>, m: map<Id, Record>, i: nat)
    requires i <= |w| && (i < |w| ==> IsLive(m, w[i]))
    requires forall j :: 0 <= j < i ==> !IsLive(m, w[j])
    ensures FirstLive(w, m) == i
  {
  }

  /** An LREM that finds the id shortens the list. */
  lemma {:induction false} RemovalNoticed(s: seq<Id>, id: Id)
    ensures |Without(s, {id})| <= |s|
    ensures |Without(s, {id})| == |s| <==> id !in s
    ensures id !in s ==> Without(s, {id}) == s
  {
    if s != [] {
      var front := s[..|s| - 1];
      assert s == front + [s[|s| - 1]];
      RemovalNoticed(front, id);
    }
  }

  lemma ReloadNothing(s: Store, src: Source, now: int)
    ensures ReloadFirst(s, src, 0, now) == s && SourceList(s, src)[0..] == SourceList(s, src)
    ensures AcceptedCount(SourceList(s, src)[..0], s.messages, src) == 0
  {
    WithoutNothing(s.waiting, Rejected([], s.messages, src));
    assert Reopened(s.messages, [], src, now) == s.messages;
  }

  /** A round ends after a hundred ids or with the list. */
  lemma RoundEnds(all: seq<Id>, i: nat)
    requires i <= |all| && i <= BATCH && (i == BATCH || all[i..] == [])
    ensures i == RoundSize(all) && all[..i] == Take(all)
  {
  }

  /** One pass of the reload loop, on the waiting list. */
  lemma ReloadOneWaiting(w: seq<Id>, pre: seq<Id>, id: Id, m: map<Id, Record>, src: Source)
    ensures ReloadedInto(w, pre + [id], m, src)
         == if Accepts(m, src, id) then ReloadedInto(w, pre, m, src) + [id]
            else Without(ReloadedInto(w, pre, m, src) + [id], {id})
    ensures AcceptedCount(pre + [id], m, src)
         == AcceptedCount(pre, m, src) + if Accepts(m, src, id) then 1 else 0
  {
    var no, no' := Rejected(pre, m, src), Rejected(pre + [id], m, src);
    assert no' == if Accepts(m, src, id) then no else no + {id};
    ReloadOneListed(pre, id, no, no');
    if !Accepts(m, src, id) {
      ReloadOneRejected(w, pre, id, no);
    }
  }

  lemma ReloadOneListed(pre: seq<Id>, id: Id, no: set<Id>, no': set<Id>)
    requires (forall x :: x in pre ==> (x in no' <==> x in no))
    ensures Without(pre + [id], no') == Without(pre, no) + (if id in no' then [] else [id])
    ensures Without(pre, no') == Without(pre, no)
  {
    WithoutSnoc(pre, id, no');
    WithoutAgree(pre, no', no);
  }

  lemma ReloadOneRejected(w: seq<Id>, pre: seq<Id>, id: Id, no: set<Id>)
    ensures Without(Without(w, no) + Without(pre, no) + [id], {id}) == Without(w, no + {id}) + Without(pre, no + {id})
  {
    WithoutTwice(w, no, {id});
    WithoutTwice(pre, no, {id});
    WithoutConcat(Without(w, no), Without(pre, no), {id});
    WithoutSnoc(Without(w, no) + Without(pre, no), id, {id});
  }

  /** One pass of the reload loop, on the entities. */
  lemma ReloadOneEntity(m: map<Id, Record>, pre: seq<Id>, id: Id, src: Source, at: int)
    ensures var before := Reopened(m, pre, src, at);
            && Accepts(before, src, id) == Accepts(m, src, id)
            && Reopened(m, pre + [id], src, at) ==
               (if Accepts(m, src, id) then before[id := Live(Stamp(before[id].entity, Waiting, at))] else before)
  {
  }
}
