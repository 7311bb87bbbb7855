/**
 * Persisted status against position. The guide's transition table gives every
 * bucket a status; the code keeps to it except in timeout, where it never does,
 * and after commits that arrive too late, which are characterised step by step.
 */
module Statuses {
  import opened Messages
  import opened Lists
  import opened SortedSets
  import opened Scripts
  import opened Protocol
  import opened Projection
  import opened Safety
  import opened Guarantees

  /** The status that the transition table gives to the message's position; a missing entity has none. */
  predicate AsDocumented(s: Store, x: Id) {
    IsLive(s.messages, x) ==>
      var status := s.messages[x].entity.status;
      && (x in s.waiting ==> status == Waiting)
      && (x in s.delayed ==> status == Delayed)
      && (x in s.reserved ==> status == Reserved)
      && (x in s.timeout ==> status == Timeout)
      && (x in s.failed ==> status == Failed)
  }

  // ----- nothing ever stores the status timeout -----

  predicate NotTimeout(r: Option<Record>) {
    r.Some? && r.value.Live? ==> r.value.entity.status != Timeout
  }

  /** No stored entity, and none about to be written by a retry, has the status timeout. */
  ghost predicate TimeoutFree(s: System) {
    && (forall x :: NotTimeout(Lookup(s.store.messages, x)))
    && (forall k :: k in s.work && s.work[k].phase.Loaded? ==> s.work[k].phase.raw.status != Timeout)
  }

  lemma MoveStoresNoTimeout(l: Local, tag: Label)
    requires NotTimeout(l.record)
    requires tag.Pushed? ==> tag.e.status != Timeout
    requires tag.Retried? ==> tag.raw.status != Timeout
    ensures NotTimeout(MoveLocal(tag, l).record)
  {
  }

  lemma StepStoresNoTimeout(c: Config, s: System, step: Step, x: Id)
    requires TimeoutFree(s) && Enabled(s, step)
    ensures NotTimeout(Lookup(Apply(c, s, step).store.messages, x))
  {
    StepProjects(c, s, step, x);
    assert NotTimeout(Lookup(s.store.messages, x));
    MoveStoresNoTimeout(LocalOf(s, x), LabelOf(s, step, x));
  }

  lemma StepKeepsTimeoutFree(c: Config, s: System, step: Step)
    requires TimeoutFree(s) && Enabled(s, step)
    ensures TimeoutFree(Apply(c, s, step))
  {
    var s' := Apply(c, s, step);
    forall x ensures NotTimeout(Lookup(s'.store.messages, x)) { StepStoresNoTimeout(c, s, step, x); }
    forall k | k in s'.work && s'.work[k].phase.Loaded? ensures s'.work[k].phase.raw.status != Timeout {
      StepWork(c, s, step, k);
    }
  }

  lemma {:induction false} RunsAreTimeoutFree(c: Config, r: Run, i: nat)
    requires IsRun(c, r) && i < |r.states|
    ensures TimeoutFree(r.states[i])
  {
    if i > 0 {
      RunsAreTimeoutFree(c, r, i - 1);
      assert StepAt(c, r, i - 1);
      StepKeepsTimeoutFree(c, r.states[i - 1], r.steps[i - 1]);
    }
  }

  /**
   * In every state of every run no stored entity has the status timeout; so an id in the timeout list
   * has the documented status if and only if it has no readable entity at all.
   */
  lemma TimeoutStatusNeverStored(c: Config, r: Run, i: nat, x: Id)
    requires IsRun(c, r) && i < |r.states|
    ensures var s := r.states[i].store;
            && (IsLive(s.messages, x) ==> s.messages[x].entity.status != Timeout)
            && (x in s.timeout ==> (AsDocumented(s, x) <==> !IsLive(s.messages, x)))
  {
    RunsAreTimeoutFree(c, r, i);
    assert NotTimeout(Lookup(r.states[i].store.messages, x));
  }

  /** As long as no commit for a message came too late, its status is the documented one exactly outside timeout. */
  lemma DocumentedExactlyOutsideTimeout(c: Config, r: Run, i: nat, x: Id)
    requires IsRun(c, r) && CollisionFree(c, r) && i < |r.states|
    requires Times(r, 0, i, x, LateEvent) == 0 && IsLive(r.states[i].store.messages, x)
    ensures AsDocumented(r.states[i].store, x) <==> x !in r.states[i].store.timeout
  {
    StatusMatchesPosition(c, r, i, x);
  }

  // ----- a final status was earned -----

  /** No entity about to be written by a retry has a final status. */
  ghost predicate RetriesReschedule(s: System) {
    forall k :: k in s.work && s.work[k].phase.Loaded? ==> s.work[k].phase.raw.status in {Waiting, Delayed}
  }

  lemma StepReschedules(c: Config, s: System, step: Step)
    requires RetriesReschedule(s) && Enabled(s, step)
    ensures RetriesReschedule(Apply(c, s, step))
  {
    var s' := Apply(c, s, step);
    forall k | k in s'.work && s'.work[k].phase.Loaded? ensures s'.work[k].phase.raw.status in {Waiting, Delayed} {
      StepWork(c, s, step, k);
    }
  }

  lemma {:induction false} RunsReschedule(c: Config, r: Run, i: nat)
    requires IsRun(c, r) && i < |r.states|
    ensures RetriesReschedule(r.states[i])
  {
    if i > 0 {
      RunsReschedule(c, r, i - 1);
      assert StepAt(c, r, i - 1);
      StepReschedules(c, r.states[i - 1], r.steps[i - 1]);
    }
  }

  /** The step that gives a message a final status. */
  predicate Finisher(status: Status, ev: Event) {
    || (status == Done && ev == AckEvent)
    || (status == Dropped && ev == DropEvent)
    || (status == Failed && ev == FailEvent)
    || (status == Canceled && ev == CancelEvent)
  }

  predicate HasStatus(r: Option<Record>, status: Status) {
    r.Some? && r.value.Live? && r.value.entity.status == status
  }

  lemma MoveEarns(l: Local, tag: Label, status: Status, ev: Event)
    requires Finisher(status, ev) && HasStatus(MoveLocal(tag, l).record, status)
    requires tag.Pushed? ==> tag.e.status in {Waiting, Delayed}
    requires tag.Retried? ==> tag.raw.status in {Waiting, Delayed}
    ensures HasStatus(l.record, status) || Signals(l, tag, ev)
  {
  }

  lemma StepEarns(c: Config, s: System, step: Step, x: Id, status: Status, ev: Event)
    requires RetriesReschedule(s) && Enabled(s, step) && Finisher(status, ev)
    requires HasStatus(Lookup(Apply(c, s, step).store.messages, x), status)
    ensures HasStatus(Lookup(s.store.messages, x), status) || Happens(s, step, x, ev)
  {
    StepProjects(c, s, step, x);
    HappensSignals(s, step, x, ev);
    MoveEarns(LocalOf(s, x), LabelOf(s, step, x), status, ev);
  }

  lemma {:induction false} EarnedOnce(c: Config, r: Run, i: nat, x: Id, status: Status, ev: Event)
    requires IsRun(c, r) && i < |r.states| && Finisher(status, ev)
    requires HasStatus(Lookup(r.states[i].store.messages, x), status)
    ensures Times(r, 0, i, x, ev) > 0
  {
    if i > 0 {
      RunsReschedule(c, r, i - 1);
      assert StepAt(c, r, i - 1);
      StepEarns(c, r.states[i - 1], r.steps[i - 1], x, status, ev);
      if !Happens(r.states[i - 1], r.steps[i - 1], x, ev) {
        EarnedOnce(c, r, i - 1, x, status, ev);
      }
    }
  }

  /** In every run a message is done only after an Ack, dropped only after a Drop, failed only after a Fail. */
  lemma StatusIsEarned(c: Config, r: Run, i: nat, x: Id)
    requires IsRun(c, r) && i < |r.states| && IsLive(r.states[i].store.messages, x)
    ensures var status := r.states[i].store.messages[x].entity.status;
            && (status == Done ==> Times(r, 0, i, x, AckEvent) > 0)
            && (status == Dropped ==> Times(r, 0, i, x, DropEvent) > 0)
            && (status == Failed ==> Times(r, 0, i, x, FailEvent) > 0)
            && (status == Canceled ==> Times(r, 0, i, x, CancelEvent) > 0)
  {
    var status := r.states[i].store.messages[x].entity.status;
    match status
    case Done => EarnedOnce(c, r, i, x, status, AckEvent);
    case Dropped => EarnedOnce(c, r, i, x, status, DropEvent);
    case Failed => EarnedOnce(c, r, i, x, status, FailEvent);
    case Canceled => EarnedOnce(c, r, i, x, status, CancelEvent);
    case _ =>
  }

  // ----- which step makes status and position disagree -----

  /** What the code keeps: the documented status, with reserved in the place of timeout. */
  ghost predicate StatusInPlace(s: System, x: Id) {
    IsLive(s.store.messages, x) ==> StatusFits(LocalOf(s, x))
  }

  /** Some copy of the message is not in reserved. */
  predicate Elsewhere(s: Store, x: Id) {
    x in s.waiting || x in s.delayed || x in s.timeout || x in s.failed
  }

  /**
   * The steps that part status and position: a claim or a reload round that leaves copies behind, a
   * commit or a retry on a reservation while another copy exists, a late commit for a queued message;
   * but not a Requeue of a message that waits already, nor a Fail of one that has failed already.
   */
  ghost predicate Unsettles(s: System, step: Step, x: Id) {
    match step
    case Pop(_, _, _) => Claimed(s.store) == Some(x) && Count(s.store.waiting, x) > 1
    case Commit(k, o, _) =>
      && WorkAt(s, k).id == x && Elsewhere(s.store, x)
      && !(o.Requeue? && x in s.store.waiting) && !(o.Fail? && x in s.store.failed)
    case FinishRetry(k, _) =>
      WorkAt(s, k).id == x && WorkAt(s, k).phase.Loaded? && x in s.store.reserved && x in s.store.timeout
    case Reload(src, _) =>
      var all := SourceList(s.store, src);
      x in Take(all) && (Count(Take(all), x) < Count(all, x) || (src.TimeoutList? && x in s.store.reserved))
    case _ => false
  }

  /** The same, read off a local move. */
  predicate UnsettlingMove(l: Local, tag: Label) {
    match tag
    case Claim(_, _) => l.waiting > 1
    case Committed(o, _) =>
      && (l.waiting > 0 || l.delayed.Some? || l.timeout > 0 || l.failed > 0)
      && !(o.Requeue? && l.waiting > 0) && !(o.Fail? && l.failed > 0)
    case Retried(_, _, _) => l.reserved.Some? && l.timeout > 0
    case Reloaded(TimeoutList, n, _) => n < l.timeout || l.reserved.Some?
    case Reloaded(FailedList, n, _) => n < l.failed
    case _ => false
  }

  lemma UnsettlesIsLocal(s: System, step: Step, x: Id)
    ensures Unsettles(s, step, x) <==> UnsettlingMove(LocalOf(s, x), LabelOf(s, step, x))
  {
    CountMember(s.store.waiting, x);
    CountMember(s.store.timeout, x);
    CountMember(s.store.failed, x);
    if step.Reload? {
      CountMember(Take(SourceList(s.store, step.source)), x);
    }
  }

  /** In every sound state, however many copies a message has, its status leaves its position exactly by those steps. */
  lemma StatusLeftExactlyWhen(c: Config, s: System, step: Step, x: Id)
    requires Inv(c, s) && Enabled(s, step) && StatusInPlace(s, x) && IsLive(s.store.messages, x)
    ensures !StatusInPlace(Apply(c, s, step), x) <==> Unsettles(s, step, x)
  {
    StepKeepsMessage(c, s, step, x);
    UnsettlesIsLocal(s, step, x);
    FitLeftExactly(LocalOf(s, x), LabelOf(s, step, x));
  }

  lemma FitLeftExactly(l: Local, tag: Label)
    requires CanMove(l, tag) && Readable(l) && StatusFits(l)
    ensures (Readable(MoveLocal(tag, l)) && !StatusFits(MoveLocal(tag, l))) <==> UnsettlingMove(l, tag)
  {
  }

  /**
   * So a message on its own in one bucket falls out of step with its status exactly by a late commit
   * while it is queued, unless the commit repeats where it already is.
   */
  lemma StatusLeftExactlyByLateCommit(c: Config, s: System, step: Step, x: Id)
    requires Inv(c, s) && Enabled(s, step) && Occurrences(s.store, x) <= 1 && StatusInPlace(s, x)
    requires IsLive(s.store.messages, x)
    ensures !StatusInPlace(Apply(c, s, step), x)
       <==> && Happens(s, step, x, LateEvent) && Queued(s.store, x)
            && !(step.outcome.Requeue? && x in s.store.waiting)
            && !(step.outcome.Fail? && x in s.store.failed)
  {
    StatusLeftExactlyWhen(c, s, step, x);
    AloneUnsettles(s, step, x);
  }

  lemma AloneUnsettles(s: System, step: Step, x: Id)
    requires Occurrences(s.store, x) <= 1
    ensures Unsettles(s, step, x)
       <==> && Happens(s, step, x, LateEvent) && Queued(s.store, x)
            && !(step.outcome.Requeue? && x in s.store.waiting)
            && !(step.outcome.Fail? && x in s.store.failed)
  {
    CountMember(s.store.waiting, x);
    CountMember(s.store.timeout, x);
    CountMember(s.store.failed, x);
    if step.Reload? {
      var all := SourceList(s.store, step.source);
      CountMember(Take(all), x);
      CountSplit(all, |Take(all)|, x);
      assert all[..|Take(all)|] == Take(all);
    }
  }
}
