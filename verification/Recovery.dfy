/**
 * Nothing gets stuck: from any state whatever, forwarding, reloading and popping
 * alone can bring a message to a consumer again, exactly if it has a readable
 * entity and a place from which the scripts still put it back.
 */
module Recovery {
  import opened Messages
  import opened Lists
  import opened SortedSets
  import opened Scripts
  import opened Protocol
  import opened Projection
  import opened Guarantees

  /** What the forwarder, an operator's reload and an idle consumer do, each reading the clock as it is. */
  predicate Routine(s: System, step: Step) {
    && (step.Tick? || step.ForwardDelayed? || step.ForwardTimeout? || step.Reload? || step.Pop?)
    && ReadsClock(s, step)
  }

  /** `r` continues from `s` by routine steps, the last of which claims `x`. */
  ghost predicate LeadsToClaim(c: Config, s: System, r: Run, x: Id) {
    && Leads(c, r) && r.states[0] == s && r.steps != []
    && (forall k :: 0 <= k < |r.steps| ==> Routine(r.states[k], r.steps[k]))
    && Happens(r.states[|r.steps| - 1], r.steps[|r.steps| - 1], x, ClaimEvent)
  }

  /** Readable, and in a bucket that leads back to waiting: a reload of timeout passes over finished messages. */
  predicate Claimable(s: Store, x: Id) {
    && IsLive(s.messages, x)
    && (x in s.waiting || x in s.delayed || x in s.failed
        || ((x in s.timeout || x in s.reserved) && s.messages[x].entity.status !in {Done, Dropped, Canceled}))
  }

  // ----- putting runs together -----

  function Prepend(s: System, step: Step, r: Run): Run {
    Run([s] + r.states, [step] + r.steps)
  }

  lemma PrependLeads(c: Config, s: System, step: Step, r: Run, x: Id)
    requires Enabled(s, step) && Routine(s, step) && LeadsToClaim(c, Apply(c, s, step), r, x)
    ensures LeadsToClaim(c, s, Prepend(s, step, r), x)
  {
    var r' := Prepend(s, step, r);
    forall k | 0 <= k < |r'.steps|
      ensures StepAt(c, r', k) && Routine(r'.states[k], r'.steps[k])
    {
      assert k > 0 ==> StepAt(c, r, k - 1);
      assert k > 0 ==> r'.states[k] == r.states[k - 1] && r'.steps[k] == r.steps[k - 1];
      assert k > 0 ==> r'.states[k + 1] == r.states[k];
    }
  }

  // ----- bucket by bucket -----

  lemma {:induction false} FreshKey(work: map<nat, Work>) returns (k: nat)
    ensures k !in work && forall j :: j in work ==> j < k
    decreases |work|
  {
    if work == map[] {
      k := 0;
    } else {
      var j :| j in work;
      assert work.Keys == (work - {j}).Keys + {j};
      var k' := FreshKey(work - {j});
      k := if j < k' then k' else j + 1;
    }
  }

  /** A pop that claims something else brings a waiting message nearer to the head. */
  lemma PopAdvances(s: Store, now: int, deadline: int, x: Id)
    requires IsLive(s.messages, x) && x in s.waiting && Claimed(s) != Some(x)
    ensures var s' := Scripts.Pop(s, now, deadline);
            IsLive(s'.messages, x) && x in s'.waiting && |s'.waiting| < |s.waiting|
  {
    var i := FirstLive(s.waiting, s.messages);
    var j :| 0 <= j < |s.waiting| && s.waiting[j] == x;
    assert i <= j && i != j;
    assert s.waiting[i + 1..][j - i - 1] == x;
  }

  lemma {:induction false} FromWaiting(c: Config, s: System, x: Id) returns (r: Run)
    requires IsLive(s.store.messages, x) && x in s.store.waiting
    ensures LeadsToClaim(c, s, r, x)
    decreases |s.store.waiting|
  {
    var k := FreshKey(s.work);
    var pop := Pop(k, s.now, s.now);
    var s' := Apply(c, s, pop);
    if Claimed(s.store) == Some(x) {
      r := Run([s, s'], [pop]);
    } else {
      PopAdvances(s.store, s.now, s.now, x);
      assert s'.store == Scripts.Pop(s.store, s.now, s.now);
      var r' := FromWaiting(c, s', x);
      PrependLeads(c, s, pop, r', x);
      r := Prepend(s, pop, r');
    }
  }

  /** A reload round puts the message back, or shortens the list ahead of it. */
  lemma ReloadAdvances(c: Config, s: System, src: Source, x: Id)
    requires Accepts(s.store.messages, src, x) && x in SourceList(s.store, src)
    ensures var s' := Apply(c, s, Reload(src, s.now));
            && Accepts(s'.store.messages, src, x)
            && (x in s'.store.waiting || x in SourceList(s'.store, src))
            && |SourceList(s'.store, src)| < |SourceList(s.store, src)|
  {
    var all := SourceList(s.store, src);
    StepProjects(c, s, Reload(src, s.now), x);
    ReloadBrings(LocalOf(s, x), src, Count(Take(all), x), s.now);
    CountMember(all, x);
    var s' := Apply(c, s, Reload(src, s.now)).store;
    assert SourceList(s', src) == all[RoundSize(all)..];
    CountMember(s'.waiting, x);
    CountMember(SourceList(s', src), x);
    assert Lookup(s'.messages, x) == LocalOf(Apply(c, s, Reload(src, s.now)), x).record;
  }

  lemma ReloadBrings(l: Local, src: Source, n: nat, at: int)
    requires Reloadable(l, src)
    ensures var l' := MoveLocal(if n > 0 then Reloaded(src, n, at) else Untouched, l);
            && Reloadable(l', src)
            && (if n > 0 then l'.waiting > 0 else l' == l)
  {
  }

  lemma {:induction false} FromSource(c: Config, s: System, src: Source, x: Id) returns (r: Run)
    requires Accepts(s.store.messages, src, x) && x in SourceList(s.store, src)
    ensures LeadsToClaim(c, s, r, x)
    decreases |SourceList(s.store, src)|
  {
    var reload := Reload(src, s.now);
    var s' := Apply(c, s, reload);
    ReloadAdvances(c, s, src, x);
    var r';
    if x in s'.store.waiting {
      r' := FromWaiting(c, s', x);
    } else {
      r' := FromSource(c, s', src, x);
    }
    PrependLeads(c, s, reload, r', x);
    r := Prepend(s, reload, r');
  }

  /** Released to waiting, or still delayed with the same score but in a shorter set. */
  predicate Forwarded(s: Store, s': Store, x: Id) {
    && IsLive(s'.messages, x)
    && (x in s'.waiting || Score(s'.delayed, x) == Score(s.delayed, x))
    && |s'.delayed| < |s.delayed|
  }

  lemma ForwardAdvances(s: Store, at: int, x: Id)
    requires IsLive(s.messages, x) && x in s.delayed && s.delayed[x] <= at
    ensures Forwarded(s, Move(s, at + 1), x)
  {
    var l' := LocalIn(Move(s, at + 1), UNSEEN, x);
    MoveProjects(s, at, UNSEEN, x);
    ReleaseBrings(LocalIn(s, UNSEEN, x), at);
    CountMember(Move(s, at + 1).waiting, x);
    assert Readable(l') && (l'.waiting > 0 || l'.delayed == Score(s.delayed, x));
    BatchShrinks(s.delayed, at + 1, x);
  }

  lemma ReleaseBrings(l: Local, at: int)
    requires Readable(l)
    ensures Readable(MoveLocal(Released(at), l)) && MoveLocal(Released(at), l).waiting > 0
  {
  }

  lemma {:induction false} FromDelayed(c: Config, s: System, x: Id) returns (r: Run)
    requires IsLive(s.store.messages, x) && x in s.store.delayed && s.store.delayed[x] <= s.now
    ensures LeadsToClaim(c, s, r, x)
    decreases |s.store.delayed|, 0
  {
    ForwardAdvances(s.store, s.now, x);
    var r' := FromForwarded(c, s, Move(s.store, s.now + 1), x);
    PrependLeads(c, s, ForwardDelayed(s.now), r', x);
    r := Prepend(s, ForwardDelayed(s.now), r');
  }

  lemma {:induction false} FromForwarded(c: Config, s: System, after: Store, x: Id) returns (r: Run)
    requires x in s.store.delayed && s.store.delayed[x] <= s.now && Forwarded(s.store, after, x)
    ensures LeadsToClaim(c, s.(store := after), r, x)
    decreases |after.delayed|, 1
  {
    if x in after.waiting {
      r := FromWaiting(c, s.(store := after), x);
    } else {
      r := FromDelayed(c, s.(store := after), x);
    }
  }

  /** A timeout round expires a due reservation, or shortens the list ahead of it. */
  lemma ExpiryAdvances(c: Config, s: System, x: Id)
    requires Accepts(s.store.messages, TimeoutList, x) && x in s.store.reserved && s.store.reserved[x] <= s.now
    ensures var s' := Apply(c, s, ForwardTimeout(s.now));
            && Accepts(s'.store.messages, TimeoutList, x)
            && (x in s'.store.timeout || (Score(s'.store.reserved, x) == Score(s.store.reserved, x)))
            && |s'.store.reserved| < |s.store.reserved| && s'.now == s.now
  {
    var z, s' := s.store.reserved, Apply(c, s, ForwardTimeout(s.now));
    BatchShrinks(z, s.now, x);
    StepProjects(c, s, ForwardTimeout(s.now), x);
    CountMember(s'.store.timeout, x);
  }

  lemma {:induction false} FromReserved(c: Config, s: System, x: Id) returns (r: Run)
    requires Accepts(s.store.messages, TimeoutList, x) && x in s.store.reserved && s.store.reserved[x] <= s.now
    ensures LeadsToClaim(c, s, r, x)
    decreases |s.store.reserved|
  {
    var s' := Apply(c, s, ForwardTimeout(s.now));
    ExpiryAdvances(c, s, x);
    var r';
    if x in s'.store.timeout {
      r' := FromSource(c, s', TimeoutList, x);
    } else {
      r' := FromReserved(c, s', x);
    }
    PrependLeads(c, s, ForwardTimeout(s.now), r', x);
    r := Prepend(s, ForwardTimeout(s.now), r');
  }

  function Later(a: int, b: int): int {
    if a < b then b else a
  }

  /** The second by which a sorted-set entry of `x` is due. */
  function DueBy(s: Store, x: Id): int {
    Later(if x in s.delayed then s.delayed[x] else 0, if x in s.reserved then s.reserved[x] else 0)
  }

  lemma RoutineReaches(c: Config, s: System, x: Id) returns (r: Run)
    requires Claimable(s.store, x)
    ensures LeadsToClaim(c, s, r, x)
  {
    var tick := Tick(Later(s.now, DueBy(s.store, x)));
    var s' := Apply(c, s, tick);
    var r';
    if x in s.store.waiting {
      r' := FromWaiting(c, s', x);
    } else if x in s.store.delayed {
      r' := FromDelayed(c, s', x);
    } else if x in s.store.failed {
      r' := FromSource(c, s', FailedList, x);
    } else if x in s.store.timeout {
      r' := FromSource(c, s', TimeoutList, x);
    } else {
      r' := FromReserved(c, s', x);
    }
    PrependLeads(c, s, tick, r', x);
    r := Prepend(s, tick, r');
  }

  // ----- and nothing else comes back -----

  predicate ClaimableLocal(l: Local) {
    && Readable(l)
    && (l.waiting > 0 || l.delayed.Some? || l.failed > 0
        || ((l.timeout > 0 || l.reserved.Some?) && !Finished(l.record.value.entity.status)))
  }

  lemma ClaimableIsLocal(s: System, x: Id)
    ensures Claimable(s.store, x) <==> ClaimableLocal(LocalOf(s, x))
  {
    CountMember(s.store.waiting, x);
    CountMember(s.store.timeout, x);
    CountMember(s.store.failed, x);
  }

  predicate RoutineMove(tag: Label) {
    tag.Untouched? || tag.Released? || tag.Expired? || tag.Claim? || tag.Purged? || tag.Reloaded?
  }

  lemma UnclaimableMove(l: Local, tag: Label)
    requires !ClaimableLocal(l) && Possible(l, tag) && RoutineMove(tag)
    ensures !tag.Claim? && !ClaimableLocal(MoveLocal(tag, l))
  {
  }

  lemma UnclaimableStep(c: Config, s: System, step: Step, x: Id)
    requires !ClaimableLocal(LocalOf(s, x)) && Enabled(s, step) && Routine(s, step)
    ensures !Happens(s, step, x, ClaimEvent) && !ClaimableLocal(LocalOf(Apply(c, s, step), x))
  {
    StepProjects(c, s, step, x);
    StepPossible(s, step, x);
    HappensSignals(s, step, x, ClaimEvent);
    UnclaimableMove(LocalOf(s, x), LabelOf(s, step, x));
  }

  lemma {:induction false} StaysUnclaimable(c: Config, r: Run, i: nat, x: Id)
    requires Leads(c, r) && i < |r.states| && !ClaimableLocal(LocalOf(r.states[0], x))
    requires forall k :: 0 <= k < |r.steps| ==> Routine(r.states[k], r.steps[k])
    ensures !ClaimableLocal(LocalOf(r.states[i], x))
  {
    if i > 0 {
      StaysUnclaimable(c, r, i - 1, x);
      assert StepAt(c, r, i - 1);
      UnclaimableStep(c, r.states[i - 1], r.steps[i - 1], x);
    }
  }

  /** In any state at all, routine steps can bring a message to a consumer if and only if it is claimable. */
  lemma ClaimedAgainExactlyWhen(c: Config, s: System, x: Id)
    ensures (exists r :: LeadsToClaim(c, s, r, x)) <==> Claimable(s.store, x)
  {
    if Claimable(s.store, x) {
      var r := RoutineReaches(c, s, x);
    } else {
      ClaimableIsLocal(s, x);
      forall r ensures !LeadsToClaim(c, s, r, x) {
        if LeadsToClaim(c, s, r, x) {
          StaysUnclaimable(c, r, |r.steps| - 1, x);
          assert StepAt(c, r, |r.steps| - 1);
          UnclaimableStep(c, r.states[|r.steps| - 1], r.steps[|r.steps| - 1], x);
          assert false;
        }
      }
    }
  }

  /**
   * Nothing entrusted to the queue is ever stuck: at every point of every run, a pushed, undamaged and
   * unfinished message has a finite continuation that delivers it.
   */
  lemma NeverStuck(c: Config, r: Run, i: nat, x: Id) returns (more: Run)
    requires IsRun(c, r) && CollisionFree(c, r) && i < |r.states| && Entrusted(r, i, x)
    requires IsLive(r.states[i].store.messages, x) ==>
               r.states[i].store.messages[x].entity.status !in {Done, Dropped, Canceled}
    ensures LeadsToClaim(c, r.states[i], more, x)
  {
    NoSilentLoss(c, r, i, x);
    more := RoutineReaches(c, r.states[i], x);
  }
}
