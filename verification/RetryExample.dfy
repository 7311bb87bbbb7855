/**
 * The retry budget is used up: wherever an always-failing message is, some continuation
 * of the run, true to the clock, fails it through all its retries and into failed.
 */
module RetryExample {
  import opened Messages
  import opened SortedSets
  import opened Scripts
  import opened Protocol
  import opened Projection
  import opened Safety
  import opened Guarantees
  import opened RetryBudget
  import opened Scenes
  import Claiming
  import Recovery

  /** A failing run that has pushed the message. */
  ghost predicate Driven(c: Config, r: Run, x: Id, schedule: seq<int>) {
    FailingRun(c, r, x, schedule) && CollisionFree(c, r) && TrackOf(Last(r), x).pushed
  }

  lemma DrivenFacts(c: Config, r: Run, x: Id, schedule: seq<int>)
    requires Driven(c, r, x, schedule)
    ensures Inv(c, Last(r)) && Budgeted(Last(r), x, schedule)
  {
    RunsAreSound(c, r, |r.states| - 1);
    FailingRunsStayBudgeted(c, r, |r.states| - 1, x, schedule);
  }

  /** `r'` goes on where `r` ends, by steps that read the clock as it stands. */
  predicate Continues(r: Run, r': Run) {
    && |r.states| == |r.steps| + 1 && |r'.states| == |r'.steps| + 1
    && r.states <= r'.states && r.steps <= r'.steps
    && forall k :: |r.steps| <= k < |r'.steps| ==> ReadsClock(r'.states[k], r'.steps[k])
  }

  lemma ContinuesFurther(r: Run, r1: Run, r2: Run)
    requires Continues(r, r1) && Continues(r1, r2)
    ensures Continues(r, r2)
  {
    forall k | |r.steps| <= k < |r2.steps| ensures ReadsClock(r2.states[k], r2.steps[k]) {
      assert k < |r1.steps| ==> r1.states[k] == r2.states[k] && r1.steps[k] == r2.steps[k];
    }
  }

  lemma ExtendFails(c: Config, r: Run, step: Step, x: Id, schedule: seq<int>)
    requires FailingRun(c, r, x, schedule) && Enabled(Last(r), step) && Failing(Last(r), step, x, schedule)
    ensures FailingRun(c, Extend(c, r, step), x, schedule)
  {
    var r' := Extend(c, r, step);
    ExtendRuns(c, r, step);
    forall i | 0 <= i < |r'.steps| ensures Failing(r'.states[i], r'.steps[i], x, schedule) {
      ExtendKeeps(c, r, step, i);
    }
  }

  lemma ExtendContinues(c: Config, r: Run, step: Step)
    requires |r.states| == |r.steps| + 1 && ReadsClock(Last(r), step)
    ensures Continues(r, Extend(c, r, step)) && Last(Extend(c, r, step)) == Apply(c, Last(r), step)
  {
    ExtendKeeps(c, r, step, |r.steps|);
  }

  /** Once pushed, always pushed. */
  lemma StaysPushed(c: Config, r: Run, step: Step, x: Id)
    requires IsRun(c, r) && CollisionFree(c, r) && Enabled(Last(r), step) && TrackOf(Last(r), x).pushed
    ensures TrackOf(Apply(c, Last(r), step), x).pushed
  {
    RunsAreSound(c, r, |r.states| - 1);
    StepRecords(c, Last(r), step, x);
  }

  /** One more failing step. */
  lemma Go(c: Config, r: Run, step: Step, x: Id, schedule: seq<int>) returns (r': Run)
    requires Driven(c, r, x, schedule) && Enabled(Last(r), step) && Failing(Last(r), step, x, schedule)
    requires ReadsClock(Last(r), step) && !step.Generate?
    ensures Driven(c, r', x, schedule) && Continues(r, r') && Last(r') == Apply(c, Last(r), step)
  {
    r' := Extend(c, r, step);
    ExtendRuns(c, r, step);
    ExtendFails(c, r, step, x, schedule);
    ExtendContinues(c, r, step);
    StaysPushed(c, r, step, x);
  }

  /** The retries the stored entity still allows. */
  function Remaining(s: Store, x: Id): nat {
    if IsLive(s.messages, x) then Retries(s.messages[x].entity.attempts, s.messages[x].entity.maxAttempts) else 0
  }

  /** Goes on to failed. */
  ghost predicate Arrives(c: Config, r: Run, r': Run, x: Id, schedule: seq<int>) {
    Driven(c, r', x, schedule) && Continues(r, r') && x in Last(r').store.failed
  }

  lemma ArrivesVia(c: Config, r: Run, r1: Run, r': Run, x: Id, schedule: seq<int>)
    requires Continues(r, r1) && Arrives(c, r1, r', x, schedule)
    ensures Arrives(c, r, r', x, schedule)
  {
    ContinuesFurther(r, r1, r');
  }

  // ----- waiting -----

  lemma ClaimEffect(c: Config, s: System, k: nat, x: Id)
    requires k !in s.work && Claimed(s.store) == Some(x)
    ensures var s' := Apply(c, s, Pop(k, s.now, s.now + 1));
            && Delivers(s', x, k) && s'.work[k].phase.Fresh?
            && Remaining(s'.store, x) == Remaining(s.store, x)
  {
  }

  lemma PassEffect(c: Config, s: System, k: nat, x: Id)
    requires IsLive(s.store.messages, x) && x in s.store.waiting && Claimed(s.store) != Some(x)
    ensures var s' := Apply(c, s, Pop(k, s.now, s.now + 1));
            && IsLive(s'.store.messages, x) && x in s'.store.waiting && |s'.store.waiting| < |s.store.waiting|
            && Remaining(s'.store, x) == Remaining(s.store, x)
  {
    Recovery.PopAdvances(s.store, s.now, s.now + 1, x);
    Claiming.PopIsFifoSearch(s.store, s.now, s.now + 1);
    assert Apply(c, s, Pop(k, s.now, s.now + 1)).store == Scripts.Pop(s.store, s.now, s.now + 1);
  }

  lemma {:induction false} FromWaiting(c: Config, r: Run, x: Id, schedule: seq<int>) returns (r': Run)
    requires Driven(c, r, x, schedule) && IsLive(Last(r).store.messages, x) && x in Last(r).store.waiting
    ensures Arrives(c, r, r', x, schedule)
    decreases Remaining(Last(r).store, x), 5, |Last(r).store.waiting|
  {
    var s := Last(r);
    var k := Recovery.FreshKey(s.work);
    var r1 := Go(c, r, Pop(k, s.now, s.now + 1), x, schedule);
    if Claimed(s.store) == Some(x) {
      ClaimEffect(c, s, k, x);
      r' := FromFresh(c, r1, x, schedule, k);
    } else {
      PassEffect(c, s, k, x);
      r' := FromWaiting(c, r1, x, schedule);
    }
    ArrivesVia(c, r, r1, r', x, schedule);
  }

  // ----- delayed -----

  /** Released to waiting, or still delayed with the same score; as many retries left either way. */
  predicate ForwardedOn(s: Store, s': Store, x: Id) {
    && IsLive(s'.messages, x) && Remaining(s', x) == Remaining(s, x)
    && (x in s'.waiting || Score(s'.delayed, x) == Score(s.delayed, x))
  }

  lemma ReleaseKeepsRetries(l: Local, tag: Label)
    requires Readable(l) && (tag.Released? || tag.Untouched?)
    ensures var l' := MoveLocal(tag, l);
            && Readable(l') && (l'.waiting > 0 || l'.delayed == l.delayed)
            && l'.record.value.entity.attempts == l.record.value.entity.attempts
            && l'.record.value.entity.maxAttempts == l.record.value.entity.maxAttempts
  {
  }

  lemma ForwardStep(c: Config, s: System, x: Id)
    requires IsLive(s.store.messages, x)
    ensures ForwardedOn(s.store, Apply(c, s, ForwardDelayed(s.now)).store, x)
  {
    var l' := LocalOf(Apply(c, s, ForwardDelayed(s.now)), x);
    StepProjects(c, s, ForwardDelayed(s.now), x);
    ReleaseKeepsRetries(LocalOf(s, x), LabelOf(s, ForwardDelayed(s.now), x));
    LocalForwardedOn(s.store, Apply(c, s, ForwardDelayed(s.now)).store, TrackOf(s, x), l'.track, x);
  }

  /** The same read off the message's own part of the two stores. */
  lemma LocalForwardedOn(s: Store, s': Store, t: Track, t': Track, x: Id)
    requires var l, l' := LocalIn(s, t, x), LocalIn(s', t', x);
             && Readable(l) && Readable(l') && (l'.waiting > 0 || l'.delayed == l.delayed)
             && l'.record.value.entity.attempts == l.record.value.entity.attempts
             && l'.record.value.entity.maxAttempts == l.record.value.entity.maxAttempts
    ensures ForwardedOn(s, s', x)
  {
  }

  lemma ForwardShrinks(c: Config, s: System, x: Id)
    requires x in s.store.delayed && s.store.delayed[x] <= s.now
    ensures |Apply(c, s, ForwardDelayed(s.now)).store.delayed| < |s.store.delayed|
    ensures Apply(c, s, ForwardDelayed(s.now)).now == s.now
  {
    BatchShrinks(s.store.delayed, s.now + 1, x);
  }

  lemma GoForward(c: Config, r: Run, x: Id, schedule: seq<int>) returns (r': Run)
    requires Driven(c, r, x, schedule) && IsLive(Last(r).store.messages, x)
    requires x in Last(r).store.delayed && Last(r).store.delayed[x] <= Last(r).now
    ensures Driven(c, r', x, schedule) && Continues(r, r')
    ensures ForwardedOn(Last(r).store, Last(r').store, x) && Last(r').now == Last(r).now
    ensures |Last(r').store.delayed| < |Last(r).store.delayed|
  {
    ForwardStep(c, Last(r), x);
    ForwardShrinks(c, Last(r), x);
    r' := Go(c, r, ForwardDelayed(Last(r).now), x, schedule);
  }

  lemma {:induction false} FromDelayed(c: Config, r: Run, x: Id, schedule: seq<int>) returns (r': Run)
    requires Driven(c, r, x, schedule) && IsLive(Last(r).store.messages, x)
    requires x in Last(r).store.delayed && Last(r).store.delayed[x] <= Last(r).now
    ensures Arrives(c, r, r', x, schedule)
    decreases Remaining(Last(r).store, x), 6, |Last(r).store.delayed|
  {
    var r1 := GoForward(c, r, x, schedule);
    if x in Last(r1).store.waiting {
      r' := FromWaiting(c, r1, x, schedule);
    } else {
      r' := FromDelayed(c, r1, x, schedule);
    }
    ArrivesVia(c, r, r1, r', x, schedule);
  }

  // ----- in a delivery -----

  /** Work k delivers the message and its reservation stands. */
  predicate Delivers(s: System, x: Id, k: nat) {
    k in s.work && s.work[k].id == x && x in s.store.reserved
  }

  lemma DeliveryInStep(s: System, x: Id, schedule: seq<int>, k: nat)
    requires Budgeted(s, x, schedule) && TrackOf(s, x).pushed && Delivers(s, x, k)
    ensures IsLive(s.store.messages, x) && InStep(s.work[k].phase, s.store.messages[x].entity, schedule)
  {
    assert Readable(LocalOf(s, x));
  }

  lemma LoadEffect(c: Config, s: System, x: Id, k: nat)
    requires Delivers(s, x, k) && IsLive(s.store.messages, x)
    ensures var s' := Apply(c, s, Load(k));
            s'.store == s.store && Delivers(s', x, k) && s'.work[k].phase.Held?
  {
  }

  lemma BeginEffect(c: Config, s: System, x: Id, k: nat, delay: int)
    requires Delivers(s, x, k) && IsLive(s.store.messages, x)
    ensures var s' := Apply(c, s, BeginRetry(k, delay, s.now));
            s'.store == s.store && Delivers(s', x, k) && s'.work[k].phase.Loaded?
  {
  }

  lemma FinishEffect(c: Config, s: System, x: Id, k: nat, schedule: seq<int>)
    requires Delivers(s, x, k) && s.work[k].phase.Loaded?
    requires IsLive(s.store.messages, x) && InStep(s.work[k].phase, s.store.messages[x].entity, schedule)
    ensures Remaining(Apply(c, s, FinishRetry(k, s.now)).store, x) < Remaining(s.store, x)
  {
  }

  lemma FailEffect(c: Config, s: System, x: Id, k: nat)
    requires Delivers(s, x, k) && IsLive(s.store.messages, x)
    ensures x in Apply(c, s, Commit(k, Fail, s.now)).store.failed
  {
  }

  lemma DeliveryFacts(c: Config, r: Run, x: Id, schedule: seq<int>, k: nat)
    requires Driven(c, r, x, schedule) && Delivers(Last(r), x, k)
    ensures IsLive(Last(r).store.messages, x)
    ensures InStep(Last(r).work[k].phase, Last(r).store.messages[x].entity, schedule)
  {
    DrivenFacts(c, r, x, schedule);
    DeliveryInStep(Last(r), x, schedule, k);
  }

  lemma {:induction false} FromLoaded(c: Config, r: Run, x: Id, schedule: seq<int>, k: nat) returns (r': Run)
    requires Driven(c, r, x, schedule) && Delivers(Last(r), x, k) && Last(r).work[k].phase.Loaded?
    ensures Arrives(c, r, r', x, schedule)
    decreases Remaining(Last(r).store, x), 1, 0
  {
    var s := Last(r);
    DeliveryFacts(c, r, x, schedule, k);
    FinishEffect(c, s, x, k, schedule);
    var r1 := Go(c, r, FinishRetry(k, s.now), x, schedule);
    r' := FromAnywhere(c, r1, x, schedule);
    ArrivesVia(c, r, r1, r', x, schedule);
  }

  lemma {:induction false} FromHeld(c: Config, r: Run, x: Id, schedule: seq<int>, k: nat) returns (r': Run)
    requires Driven(c, r, x, schedule) && Delivers(Last(r), x, k) && Last(r).work[k].phase.Held?
    ensures Arrives(c, r, r', x, schedule)
    decreases Remaining(Last(r).store, x), 2, 0
  {
    var s := Last(r);
    var local := s.work[k].phase.local;
    DeliveryFacts(c, r, x, schedule, k);
    if local.maxAttempts > local.attempts {
      var delay := RetrySeconds(schedule, local.attempts + 1);
      BeginEffect(c, s, x, k, delay);
      var r1 := Go(c, r, BeginRetry(k, delay, s.now), x, schedule);
      r' := FromLoaded(c, r1, x, schedule, k);
      ArrivesVia(c, r, r1, r', x, schedule);
    } else {
      FailEffect(c, s, x, k);
      r' := Go(c, r, Commit(k, Fail, s.now), x, schedule);
    }
  }

  lemma {:induction false} FromFresh(c: Config, r: Run, x: Id, schedule: seq<int>, k: nat) returns (r': Run)
    requires Driven(c, r, x, schedule) && Delivers(Last(r), x, k) && Last(r).work[k].phase.Fresh?
    ensures Arrives(c, r, r', x, schedule)
    decreases Remaining(Last(r).store, x), 3, 0
  {
    DeliveryFacts(c, r, x, schedule, k);
    LoadEffect(c, Last(r), x, k);
    var r1 := Go(c, r, Load(k), x, schedule);
    r' := FromHeld(c, r1, x, schedule, k);
    ArrivesVia(c, r, r1, r', x, schedule);
  }

  lemma {:induction false} FromDelivery(c: Config, r: Run, x: Id, schedule: seq<int>, k: nat) returns (r': Run)
    requires Driven(c, r, x, schedule) && Delivers(Last(r), x, k)
    ensures Arrives(c, r, r', x, schedule)
    decreases Remaining(Last(r).store, x), 4, 0
  {
    DeliveryFacts(c, r, x, schedule, k);
    match Last(r).work[k].phase
    case Fresh => r' := FromFresh(c, r, x, schedule, k);
    case Held(_) => r' := FromHeld(c, r, x, schedule, k);
    case Loaded(_, _) => r' := FromLoaded(c, r, x, schedule, k);
  }

  // ----- anywhere -----

  lemma Position(s: System, x: Id, schedule: seq<int>)
    requires Budgeted(s, x, schedule) && TrackOf(s, x).pushed
    ensures IsLive(s.store.messages, x)
    ensures x in s.store.failed || x in s.store.waiting || x in s.store.delayed || x in s.store.reserved
  {
    assert Readable(LocalOf(s, x)) && Copies(LocalOf(s, x)) == 1;
    QueuedMeansCopies(s.store, TrackOf(s, x), x);
    OccurrencesAreCopies(s, x);
  }

  lemma {:induction false} FromAnywhere(c: Config, r: Run, x: Id, schedule: seq<int>) returns (r': Run)
    requires Driven(c, r, x, schedule)
    ensures Arrives(c, r, r', x, schedule)
    decreases Remaining(Last(r).store, x), 7, 0
  {
    var s := Last(r);
    DrivenFacts(c, r, x, schedule);
    Position(s, x, schedule);
    if x in s.store.failed {
      r' := r;
    } else if x in s.store.waiting {
      r' := FromWaiting(c, r, x, schedule);
    } else if x in s.store.delayed {
      var tick := Tick(Recovery.Later(s.now, s.store.delayed[x]));
      var r1 := Go(c, r, tick, x, schedule);
      r' := FromDelayed(c, r1, x, schedule);
      ArrivesVia(c, r, r1, r', x, schedule);
    } else {
      var k :| SoleDelivery(s, x, k);
      r' := FromDelivery(c, r, x, schedule, k);
    }
  }

  // ----- the budget -----

  /** The run up to state i. */
  function UpToState(r: Run, i: nat): Run
    requires i < |r.states| == |r.steps| + 1
  {
    Run(r.states[..i + 1], r.steps[..i])
  }

  lemma UpToStateFails(c: Config, r: Run, i: nat, x: Id, schedule: seq<int>)
    requires FailingRun(c, r, x, schedule) && CollisionFree(c, r) && i < |r.states|
    ensures FailingRun(c, UpToState(r, i), x, schedule) && CollisionFree(c, UpToState(r, i))
  {
    var r' := UpToState(r, i);
    forall k | 0 <= k < |r'.steps| ensures StepAt(c, r', k) { assert StepAt(c, r, k); }
    forall k | 0 <= k < |r'.steps| ensures Failing(r'.states[k], r'.steps[k], x, schedule) {
      assert Failing(r.states[k], r.steps[k], x, schedule);
    }
    TextsAccumulate(c, r, i, |r.states| - 1);
  }

  /**
   * The budget is always reached: every state i of every failing run, after the push at step j, has a
   * failing continuation, true to the clock, in which the message ends in failed, delivered exactly once
   * more often than its retries allow.
   */
  lemma BudgetIsAlwaysReached(c: Config, r: Run, j: nat, i: nat, x: Id, schedule: seq<int>) returns (whole: Run)
    requires FailingRun(c, r, x, schedule) && CollisionFree(c, r) && j < i < |r.states|
    requires Happens(r.states[j], r.steps[j], x, PushEvent)
    ensures FailingRun(c, whole, x, schedule) && CollisionFree(c, whole) && Continues(UpToState(r, i), whole)
    ensures x in Last(whole).store.failed
    ensures var push := r.steps[j];
            var limit := if push.maxAttempts <= 0 then 1 else push.maxAttempts;
            Times(whole, 0, |whole.steps|, x, ClaimEvent)
              == if push.attempts < limit then limit - push.attempts + 1 else 1
  {
    var start := UpToState(r, i);
    UpToStateFails(c, r, i, x, schedule);
    StartIsPush(c, r, j, i, x);
    whole := FromAnywhere(c, start, x, schedule);
    assert whole.states[j] == start.states[j] && whole.steps[j] == start.steps[j];
    ExactRetryBudget(c, whole, j, |whole.states| - 1, x, schedule);
  }

  /** In particular from the push on, whatever the schedule, the attempts made so far and the retry limit. */
  lemma BudgetIsReached(c: Config, attempts: int, maxAttempts: int, schedule: seq<int>) returns (r: Run, x: Id)
    ensures FailingRun(c, r, x, schedule) && ClockedRun(c, r) && CollisionFree(c, r)
    ensures |r.steps| >= 2 && r.steps[1] == Push(x, attempts, maxAttempts, 0, 0)
    ensures x in Last(r).store.failed
    ensures var limit := if maxAttempts <= 0 then 1 else maxAttempts;
            Times(r, 0, |r.steps|, x, ClaimEvent) == if attempts < limit then limit - attempts + 1 else 1
  {
    var r0, x0 := Opening(c, attempts, maxAttempts, 0);
    x := x0;
    forall i | 0 <= i < |r0.steps| ensures Failing(r0.states[i], r0.steps[i], x, schedule) { }
    r := BudgetIsAlwaysReached(c, r0, 1, 2, x, schedule);
    assert UpToState(r0, 2) == r0;
    forall i | 0 <= i < |r.steps| ensures ReadsClock(r.states[i], r.steps[i]) {
      assert i < 2 ==> r.states[i] == r0.states[i] && r.steps[i] == r0.steps[i];
    }
    assert r.steps[1] == r0.steps[1];
  }
}
