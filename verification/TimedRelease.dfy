/**
 * When the forwarder may act: a delayed message is released no earlier than one
 * second before it is due, and a reservation expires no earlier than its deadline.
 */
module TimedRelease {
  import opened Messages
  import opened Lists
  import opened SortedSets
  import opened Scripts
  import opened Protocol
  import opened Projection
  import opened Guarantees

  /** The step puts `x` into delayed: a push with a delay, or a retry with a positive delay that takes effect. */
  predicate Schedules(s: System, step: Step, x: Id) {
    || (step.Push? && step.id == x && step.delay != 0)
    || (step.FinishRetry? && WorkAt(s, step.k).id == x && WorkAt(s, step.k).phase.Loaded?
        && WorkAt(s, step.k).phase.delay > 0 && Queued(s.store, x))
  }

  /** The second the clock showed plus the delay asked for. */
  function DueSecond(s: System, step: Step): int
    requires step.Push? || (step.FinishRetry? && WorkAt(s, step.k).phase.Loaded?)
  {
    step.at + if step.Push? then step.delay else WorkAt(s, step.k).phase.delay
  }

  /** When `x` is due, according to the latest step that scheduled it. */
  function LatestDue(r: Run, i: nat, x: Id): Option<int>
    requires i <= |r.steps| < |r.states|
  {
    if i == 0 then None
    else if Schedules(r.states[i - 1], r.steps[i - 1], x) then Some(DueSecond(r.states[i - 1], r.steps[i - 1]))
    else LatestDue(r, i - 1, x)
  }

  /** The deadline that the latest claim of `x` set. */
  function LatestDeadline(r: Run, i: nat, x: Id): Option<int>
    requires i <= |r.steps| < |r.states|
  {
    if i == 0 then None
    else if Happens(r.states[i - 1], r.steps[i - 1], x, ClaimEvent) then Some(r.steps[i - 1].deadline)
    else LatestDeadline(r, i - 1, x)
  }

  /** The score that a move leaves in delayed. */
  function ScoreAfter(l: Local, tag: Label): Option<int> {
    match tag
    case Pushed(_, delay, at) => if delay != 0 then Some(at + delay) else l.delayed
    case Retried(_, delay, at) => if delay > 0 && Copies(l) > 0 then Some(at + delay) else l.delayed
    case _ => l.delayed
  }

  lemma DelayedMove(l: Local, tag: Label)
    ensures MoveLocal(tag, l).delayed.Some? ==> MoveLocal(tag, l).delayed == ScoreAfter(l, tag)
  {
  }

  lemma ReservedMove(l: Local, tag: Label)
    ensures MoveLocal(tag, l).reserved.Some? ==>
              MoveLocal(tag, l).reserved == if tag.Claim? then Some(tag.deadline) else l.reserved
  {
  }

  lemma ScoreOfSchedule(s: System, step: Step, x: Id)
    ensures var l, tag := LocalOf(s, x), LabelOf(s, step, x);
            ScoreAfter(l, tag) == if Schedules(s, step, x) then Some(DueSecond(s, step)) else l.delayed
  {
    QueuedMeansCopies(s.store, TrackOf(s, x), x);
  }

  lemma StepDelayed(c: Config, s: System, step: Step, x: Id)
    requires x in Apply(c, s, step).store.delayed
    ensures if Schedules(s, step, x) then Apply(c, s, step).store.delayed[x] == DueSecond(s, step)
            else x in s.store.delayed && Apply(c, s, step).store.delayed[x] == s.store.delayed[x]
  {
    StepProjects(c, s, step, x);
    DelayedMove(LocalOf(s, x), LabelOf(s, step, x));
    ScoreOfSchedule(s, step, x);
    assert Score(Apply(c, s, step).store.delayed, x).Some?;
  }

  lemma StepReserved(c: Config, s: System, step: Step, x: Id)
    requires x in Apply(c, s, step).store.reserved
    ensures if Happens(s, step, x, ClaimEvent) then Apply(c, s, step).store.reserved[x] == step.deadline
            else x in s.store.reserved && Apply(c, s, step).store.reserved[x] == s.store.reserved[x]
  {
    StepProjects(c, s, step, x);
    ReservedMove(LocalOf(s, x), LabelOf(s, step, x));
    HappensSignals(s, step, x, ClaimEvent);
    assert Score(Apply(c, s, step).store.reserved, x).Some?;
  }

  lemma {:induction false} DelayedScoreIsDue(c: Config, r: Run, i: nat, x: Id)
    requires IsRun(c, r) && i < |r.states| && x in r.states[i].store.delayed
    ensures LatestDue(r, i, x) == Some(r.states[i].store.delayed[x])
  {
    if i > 0 {
      assert StepAt(c, r, i - 1);
      StepDelayed(c, r.states[i - 1], r.steps[i - 1], x);
      if !Schedules(r.states[i - 1], r.steps[i - 1], x) {
        DelayedScoreIsDue(c, r, i - 1, x);
      }
    }
  }

  lemma {:induction false} ReservedScoreIsDeadline(c: Config, r: Run, i: nat, x: Id)
    requires IsRun(c, r) && i < |r.states| && x in r.states[i].store.reserved
    ensures LatestDeadline(r, i, x) == Some(r.states[i].store.reserved[x])
  {
    if i > 0 {
      assert StepAt(c, r, i - 1);
      StepReserved(c, r.states[i - 1], r.steps[i - 1], x);
      if !Happens(r.states[i - 1], r.steps[i - 1], x, ClaimEvent) {
        ReservedScoreIsDeadline(c, r, i - 1, x);
      }
    }
  }

  /**
   * The forwarder reads the clock before its scripts run: `at` is never ahead of the clock.
   * Then a delayed message moves to waiting at the earliest one second before its due second.
   */
  lemma ReleasedWhenDue(c: Config, r: Run, i: nat, x: Id)
    requires IsRun(c, r) && i < |r.steps|
    requires r.steps[i].ForwardDelayed? && r.steps[i].at <= r.states[i].now
    requires x in r.states[i].store.delayed && x !in r.states[i + 1].store.delayed
    ensures LatestDue(r, i, x).Some? && r.states[i].now >= LatestDue(r, i, x).value - 1
  {
    DelayedScoreIsDue(c, r, i, x);
    assert StepAt(c, r, i);
    StepProjects(c, r.states[i], r.steps[i], x);
    StepPossible(r.states[i], r.steps[i], x);
    assert Score(r.states[i + 1].store.delayed, x).None?;
  }

  /**
   * The one-second slack is real: a delayed message leaves delayed exactly if it is due by the second
   * after the one the forwarder read and fewer than a batch of delayed messages are listed before it.
   */
  lemma ReleasedExactlyWhen(c: Config, s: System, at: int, x: Id)
    requires x in s.store.delayed
    ensures x !in Apply(c, s, ForwardDelayed(at)).store.delayed
       <==> s.store.delayed[x] <= at + 1 && |Ahead(s.store.delayed, x)| < 100
  {
    FirstDueExactly(s.store.delayed, at + 1, x);
  }

  /** When everything due fits in a batch, nothing but the due second matters. */
  lemma ReleasedWithinBatch(c: Config, s: System, at: int, x: Id)
    requires x in s.store.delayed && |Due(s.store.delayed, at + 1)| <= 100
    ensures x !in Apply(c, s, ForwardDelayed(at)).store.delayed <==> s.store.delayed[x] <= at + 1
  {
    var due := Due(s.store.delayed, at + 1);
    ReleasedExactlyWhen(c, s, at, x);
    DueFacts(s.store.delayed, at + 1);
    if s.store.delayed[x] <= at + 1 {
      var k :| 0 <= k < |due| && due[k] == x;
      PositionIsRank(s.store.delayed, at + 1, k);
    }
  }

  /** And a reservation moves to timeout no earlier than its deadline. */
  lemma ExpiredAtDeadline(c: Config, r: Run, i: nat, x: Id)
    requires IsRun(c, r) && i < |r.steps|
    requires r.steps[i].ForwardTimeout? && r.steps[i].at <= r.states[i].now
    requires x in r.states[i].store.reserved && x !in r.states[i + 1].store.reserved
    ensures LatestDeadline(r, i, x).Some? && r.states[i].now >= LatestDeadline(r, i, x).value
  {
    ReservedScoreIsDeadline(c, r, i, x);
    assert StepAt(c, r, i);
    StepProjects(c, r.states[i], r.steps[i], x);
    StepPossible(r.states[i], r.steps[i], x);
    assert Score(r.states[i + 1].store.reserved, x).None?;
  }

  /**
   * A reservation ends at a timeout round exactly if its deadline is reached and fewer than a batch are
   * listed before it.
   */
  lemma ExpiredExactlyWhen(c: Config, s: System, at: int, x: Id)
    requires x in s.store.reserved
    ensures x !in Apply(c, s, ForwardTimeout(at)).store.reserved
       <==> s.store.reserved[x] <= at && |Ahead(s.store.reserved, x)| < 100
  {
    FirstDueExactly(s.store.reserved, at, x);
  }

  /** The forwarder is the only step that moves a message out of reserved into timeout. */
  lemma OnlyForwarderExpires(c: Config, s: System, step: Step, x: Id)
    requires Count(Apply(c, s, step).store.timeout, x) > Count(s.store.timeout, x)
    ensures step.ForwardTimeout? && x in s.store.reserved && x !in Apply(c, s, step).store.reserved
  {
    StepProjects(c, s, step, x);
    var tag := LabelOf(s, step, x);
    TimeoutMove(LocalOf(s, x), tag);
    StepPossible(s, step, x);
    assert Score(Apply(c, s, step).store.reserved, x).None?;
  }

  lemma TimeoutMove(l: Local, tag: Label)
    ensures MoveLocal(tag, l).timeout > l.timeout ==> tag.Expired?
  {
  }
}
