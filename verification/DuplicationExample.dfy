/**
 * Late commits happen, and each one can add a copy: runs that attain the bound on
 * duplicates, and a run that shows which status an expired reservation keeps. Every
 * step of these runs reads the clock as it stands.
 */
module DuplicationExample {
  import opened Messages
  import opened Lists
  import opened Scripts
  import opened Protocol
  import opened Guarantees
  import opened Exclusivity
  import opened Statuses
  import opened Scenes

  /** The clock is read truthfully, claims get a deadline ahead of it, and every commit comes after its deadline. */
  predicate TooLate(s: System, step: Step) {
    ReadsClock(s, step) && (step.Pop? ==> step.deadline > s.now) && (step.Commit? ==> !Active(s, step.k))
  }

  ghost predicate LateRun(c: Config, r: Run) {
    ClockedRun(c, r) && forall i :: 0 <= i < |r.steps| ==> TooLate(r.states[i], r.steps[i])
  }

  /** The deadline has passed and the reservation has expired; the delivery still holds the message. */
  predicate AloneExpired(s: System, x: Id, e: Entity, deadline: int, t: seq<Id>) {
    && s.store == Store([], map[], map[], t + [x], [], map[x := Live(e)])
    && s.work == map[0 := Work(x, Some(deadline), Held(Decoded(e)))]
    && s.now >= deadline
  }

  lemma ExpireOnly(x: Id, e: Entity, deadline: int, t: seq<Id>)
    ensures MoveTimeout(Store([], map[], map[x := deadline], t, [], map[x := Live(e)]), deadline)
         == Store([], map[], map[], t + [x], [], map[x := Live(e)])
  {
    OnlyDue(x, deadline, deadline);
    assert map[x := deadline] - Elements([x]) == map[];
    WithoutNothing([x], Unstored([x], map[x := Live(e)]));
  }

  lemma ExpireAlone(c: Config, s: System, x: Id, e: Entity, t: seq<Id>)
    requires AloneClaimed(s, x, e, s.now, Held(Decoded(e)), t)
    ensures AloneExpired(Apply(c, s, ForwardTimeout(s.now)), x, e, s.now, t)
  {
    ExpireOnly(x, e, s.now, t);
  }

  lemma RequeueAlone(c: Config, s: System, x: Id, e: Entity, deadline: int, t: seq<Id>)
    requires AloneExpired(s, x, e, deadline, t)
    ensures Alone(Apply(c, s, Commit(0, Requeue, s.now)), x, Stamp(e, Waiting, s.now), t + [x])
    ensures Happens(s, Commit(0, Requeue, s.now), x, LateInsertEvent)
  {
    assert s.store.reserved - {x} == map[];
    assert s.work - {0} == map[];
    assert WorkAt(s, 0).id == x;
  }

  /** One more step, after the deadline if it is a commit, and without a new text. */
  lemma GoOn(c: Config, r: Run, step: Step, x: Id) returns (r': Run)
    requires LateRun(c, r) && Enabled(Last(r), step) && TooLate(Last(r), step) && !step.Generate?
    ensures LateRun(c, r') && Last(r') == Apply(c, Last(r), step) && Last(r').texts == Last(r).texts
    ensures Times(r', 0, |r'.steps|, x, LateInsertEvent)
         == Times(r, 0, |r.steps|, x, LateInsertEvent) + if Happens(Last(r), step, x, LateInsertEvent) then 1 else 0
  {
    r' := Extend(c, r, step);
    ExtendRuns(c, r, step);
    ExtendTimes(c, r, step, x, LateInsertEvent);
    forall i | 0 <= i < |r'.steps| ensures TooLate(r'.states[i], r'.steps[i]) { ExtendKeeps(c, r, step, i); }
  }

  /** Claim for one second, and load. */
  lemma ClaimAndLoad(c: Config, r: Run, x: Id, e: Entity, t: seq<Id>) returns (r': Run)
    requires LateRun(c, r) && Alone(Last(r), x, e, t)
    ensures LateRun(c, r') && Last(r').texts == Last(r).texts && Last(r').now == Last(r).now
    ensures var now, claimed := Last(r).now, Stamp(e, Reserved, Last(r).now);
            AloneClaimed(Last(r'), x, claimed, now + 1, Held(Decoded(claimed)), t)
    ensures Times(r', 0, |r'.steps|, x, LateInsertEvent) == Times(r, 0, |r.steps|, x, LateInsertEvent)
  {
    var now := Last(r).now;
    PopAlone(c, Last(r), x, e, now + 1, t);
    var r1 := GoOn(c, r, Pop(0, now, now + 1), x);
    LoadAlone(c, Last(r1), x, Stamp(e, Reserved, now), now + 1, t);
    r' := GoOn(c, r1, Load(0), x);
  }

  /** Claim for one second, load, and let the reservation expire. */
  lemma LetExpire(c: Config, r: Run, x: Id, e: Entity, t: seq<Id>) returns (r': Run)
    requires LateRun(c, r) && Alone(Last(r), x, e, t)
    ensures LateRun(c, r') && Last(r').texts == Last(r).texts && Last(r').now == Last(r).now + 1
    ensures AloneExpired(Last(r'), x, Stamp(e, Reserved, Last(r).now), Last(r').now, t)
    ensures Times(r', 0, |r'.steps|, x, LateInsertEvent) == Times(r, 0, |r.steps|, x, LateInsertEvent)
  {
    var now, claimed := Last(r).now, Stamp(e, Reserved, Last(r).now);
    var r1 := ClaimAndLoad(c, r, x, e, t);
    var r2 := GoOn(c, r1, Tick(now + 1), x);
    ExpireAlone(c, Last(r2), x, claimed, t);
    r' := GoOn(c, r2, ForwardTimeout(now + 1), x);
  }

  /** One late Requeue: one more copy. */
  lemma AddCopy(c: Config, r: Run, x: Id, e: Entity, t: seq<Id>) returns (r': Run, e': Entity)
    requires LateRun(c, r) && Alone(Last(r), x, e, t)
    ensures LateRun(c, r') && Last(r').texts == Last(r).texts
    ensures Alone(Last(r'), x, e', t + [x]) && e'.status == Waiting
    ensures Times(r', 0, |r'.steps|, x, LateInsertEvent) == Times(r, 0, |r.steps|, x, LateInsertEvent) + 1
  {
    var r1 := LetExpire(c, r, x, e, t);
    var now, claimed := Last(r1).now, Stamp(e, Reserved, Last(r).now);
    RequeueAlone(c, Last(r1), x, claimed, now, t);
    r' := GoOn(c, r1, Commit(0, Requeue, now), x);
    e' := Stamp(claimed, Waiting, now);
  }

  lemma {:induction false} AddCopies(c: Config, n: nat) returns (r: Run, x: Id, e: Entity, t: seq<Id>)
    ensures LateRun(c, r) && |Last(r).texts| == 1
    ensures Alone(Last(r), x, e, t) && e.status == Waiting && |t| == n && (forall k :: 0 <= k < n ==> t[k] == x)
    ensures Times(r, 0, |r.steps|, x, LateInsertEvent) == n
  {
    if n == 0 {
      r, x := Opening(c, 0, 1, 0);
      e, t := PushedEntity(0, 1, 0, 0), [];
      OpeningIsOnTime(r, x);
    } else {
      var r1, x1, e1, t1 := AddCopies(c, n - 1);
      r, e := AddCopy(c, r1, x1, e1, t1);
      x, t := x1, t1 + [x1];
    }
  }

  lemma OpeningIsOnTime(r: Run, x: Id)
    requires |r.states| == 3 && r.steps == [Generate, Push(x, 0, 1, 0, 0)]
    ensures Times(r, 0, |r.steps|, x, LateInsertEvent) == 0
  {
    assert Times(r, 0, 0, x, LateInsertEvent) == 0;
    assert Times(r, 0, 1, x, LateInsertEvent) == 0;
  }

  lemma {:induction false} CountCopies(t: seq<Id>, x: Id)
    requires forall k :: 0 <= k < |t| ==> t[k] == x
    ensures Count(t, x) == |t|
  {
    if t != [] {
      CountCopies(t[..|t| - 1], x);
      assert t == t[..|t| - 1] + [x];
    }
  }

  /**
   * The bound on duplicates is attained: for every n there is a run, true to the clock, in which n commits
   * come after their deadlines and n + 1 copies are left; and one such commit is enough to part status and position.
   */
  lemma DuplicationIsReached(c: Config, n: nat) returns (r: Run, x: Id)
    ensures LateRun(c, r) && CollisionFree(c, r)
    ensures Times(r, 0, |r.steps|, x, LateInsertEvent) == n
    ensures Occurrences(Last(r).store, x) == n + 1
    ensures StatusInPlace(Last(r), x) <==> n == 0
  {
    var e, t;
    r, x, e, t := AddCopies(c, n);
    OneTextIsCollisionFree(c, r);
    CountCopies(t, x);
  }

  /** An id reaches timeout, its deadline passed, with status reserved and not timeout. */
  lemma ExpiredStaysReserved(c: Config) returns (r: Run, x: Id)
    ensures LateRun(c, r) && CollisionFree(c, r)
    ensures x in Last(r).store.timeout && IsLive(Last(r).store.messages, x)
    ensures Last(r).store.messages[x].entity.status == Reserved
  {
    var r0, x0 := Opening(c, 0, 1, 0);
    x := x0;
    r := LetExpire(c, r0, x, PushedEntity(0, 1, 0, 0), []);
    OneTextIsCollisionFree(c, r);
    assert x in [x];
  }
}
