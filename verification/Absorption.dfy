/**
 * Finished means finished: a message that has left every bucket stays out, and
 * a delivery that finishes after its reservation expired cannot be brought back
 * by reloading the timeout list.
 */
module Absorption {
  import opened Messages
  import opened Lists
  import opened SortedSets
  import opened Scripts
  import opened Protocol
  import opened Projection
  import opened Safety
  import opened Guarantees

  // ----- left all buckets -----

  lemma AbsentStaysAbsent(l: Local, tag: Label)
    requires CanMove(l, tag) && l.track.pushed && Copies(l) == 0 && !Signals(l, tag, LateInsertEvent)
    ensures Copies(MoveLocal(tag, l)) == 0 && !tag.Claim?
  {
  }

  /** Pushed and in no bucket. */
  predicate Out(s: System, x: Id) {
    TrackOf(s, x).pushed && !Queued(s.store, x)
  }

  /** The message is out from state i to state j, if no step in between inserts it late. */
  lemma {:induction false} StaysOut(c: Config, r: Run, i: nat, j: nat, x: Id)
    requires IsRun(c, r) && CollisionFree(c, r) && i <= j < |r.states| && Out(r.states[i], x)
    requires forall k :: i <= k < j ==> !Happens(r.states[k], r.steps[k], x, LateInsertEvent)
    ensures Out(r.states[j], x)
    decreases j
  {
    if i < j {
      StaysOut(c, r, i, j - 1, x);
      StepStaysOut(c, r, j - 1, x);
    }
  }

  /**
   * A pushed message that is in no bucket is in no bucket ever after and is never claimed again,
   * as long as no late Requeue or Fail inserts it; retries that read it earlier change nothing.
   */
  lemma OutOfBucketsStaysOut(c: Config, r: Run, i: nat, j: nat, x: Id)
    requires IsRun(c, r) && CollisionFree(c, r) && i <= j < |r.states|
    requires Times(r, 0, i, x, PushEvent) > 0 && !Queued(r.states[i].store, x)
    requires Times(r, i, j, x, LateInsertEvent) == 0
    ensures !Queued(r.states[j].store, x)
    ensures Times(r, i, j, x, ClaimEvent) == 0
  {
    HistoryIsWhatHappened(c, r, i, x);
    TimesZero(r, i, j, x, LateInsertEvent);
    StaysOut(c, r, i, j, x);
    forall k | i <= k < j ensures !Happens(r.states[k], r.steps[k], x, ClaimEvent) {
      StaysOut(c, r, i, k, x);
      StepStaysOut(c, r, k, x);
    }
    TimesZero(r, i, j, x, ClaimEvent);
  }

  lemma StepStaysOut(c: Config, r: Run, i: nat, x: Id)
    requires IsRun(c, r) && CollisionFree(c, r) && i < |r.steps|
    requires Out(r.states[i], x) && !Happens(r.states[i], r.steps[i], x, LateInsertEvent)
    ensures Out(r.states[i + 1], x)
    ensures !Happens(r.states[i], r.steps[i], x, ClaimEvent)
  {
    assert StepAt(c, r, i);
    var s, step := r.states[i], r.steps[i];
    StateFacts(c, r, i, x);
    StateFacts(c, r, i + 1, x);
    RunsAreSound(c, r, i);
    StepKeepsMessage(c, s, step, x);
    HappensSignals(s, step, x, LateInsertEvent);
    HappensSignals(s, step, x, ClaimEvent);
    AbsentStaysAbsent(LocalOf(s, x), LabelOf(s, step, x));
  }

  /** The step finishes `x`: Ack or Drop on its reservation, or a successful cancellation. */
  predicate Finishes(s: System, step: Step, x: Id) {
    || (step.Commit? && WorkAt(s, step.k).id == x && x in s.store.reserved && (step.outcome.Ack? || step.outcome.Drop?))
    || Happens(s, step, x, CancelEvent)
  }

  lemma FinishEmpties(l: Local, tag: Label)
    requires CanMove(l, tag) && l.track.lateInserts == 0
    requires (tag.Committed? && l.reserved.Some? && (tag.outcome.Ack? || tag.outcome.Drop?))
          || (tag.Cancelled? && l.delayed.Some?)
    ensures Copies(MoveLocal(tag, l)) == 0
  {
  }

  lemma FinishLeavesBuckets(c: Config, r: Run, i: nat, x: Id)
    requires IsRun(c, r) && CollisionFree(c, r) && i < |r.steps|
    requires Finishes(r.states[i], r.steps[i], x) && Times(r, 0, i, x, LateInsertEvent) == 0
    ensures Out(r.states[i + 1], x)
  {
    assert StepAt(c, r, i);
    var s, step := r.states[i], r.steps[i];
    HistoryIsWhatHappened(c, r, i, x);
    RunsAreSound(c, r, i);
    StepKeepsMessage(c, s, step, x);
    OccurrencesAreCopies(r.states[i + 1], x);
    FinishEmpties(LocalOf(s, x), LabelOf(s, step, x));
  }

  /**
   * In a run where no late commit inserts `x`, once an Ack, a Drop or a cancellation finishes it,
   * it is in no bucket and is never delivered again.
   */
  lemma FinishedStaysFinished(c: Config, r: Run, i: nat, j: nat, x: Id)
    requires IsRun(c, r) && CollisionFree(c, r) && i < j < |r.states|
    requires Finishes(r.states[i], r.steps[i], x)
    requires Times(r, 0, i, x, LateInsertEvent) == 0 && Times(r, i + 1, j, x, LateInsertEvent) == 0
    ensures !Queued(r.states[j].store, x)
    ensures Times(r, i + 1, j, x, ClaimEvent) == 0
  {
    FinishLeavesBuckets(c, r, i, x);
    HistoryIsWhatHappened(c, r, i + 1, x);
    OutOfBucketsStaysOut(c, r, i + 1, j, x);
  }

  // ----- finishing after the reservation expired -----

  /** The only copy sits in timeout and the stored status is final: what a late Ack or Drop leaves behind. */
  predicate StaleTimeout(l: Local) {
    && l.track.pushed
    && l.waiting == 0 && l.delayed.None? && l.reserved.None? && l.failed == 0 && l.timeout == 1
    && Readable(l) && Finished(StatusOf(l))
  }

  /** A step that addresses `x` by its id: a commit, a retry, a discard or damage. */
  predicate Addresses(s: System, step: Step, x: Id) {
    || (Ends(step) && WorkAt(s, step.k).id == x)
    || Happens(s, step, x, DamageEvent)
  }

  lemma LateFinishMove(l: Local, o: Outcome, at: int)
    requires Copies(l) == 1 && l.timeout == 1 && Readable(l) && l.track.pushed && (o.Ack? || o.Drop?)
    ensures StaleTimeout(MoveLocal(Committed(o, at), l))
  {
  }

  lemma StaleMove(l: Local, tag: Label)
    requires CanMove(l, tag) && StaleTimeout(l)
    requires !tag.Committed? && !tag.Retried? && !tag.Discarded? && !tag.Damaged?
    ensures if tag.Reloaded? && tag.source.TimeoutList? then Copies(MoveLocal(tag, l)) == 0 else MoveLocal(tag, l) == l
  {
  }

  lemma AddressedLabel(s: System, step: Step, x: Id)
    requires !Addresses(s, step, x)
    ensures var tag := LabelOf(s, step, x);
            !tag.Committed? && !tag.Retried? && !tag.Discarded? && !tag.Damaged?
  {
  }

  /** Stale, or already swept out of every bucket. */
  ghost predicate Harmless(s: System, x: Id) {
    StaleTimeout(LocalOf(s, x)) || (TrackOf(s, x).pushed && Copies(LocalOf(s, x)) == 0)
  }

  lemma HarmlessStep(c: Config, s: System, step: Step, x: Id)
    requires Inv(c, s) && Enabled(s, step) && Harmless(s, x) && !Addresses(s, step, x)
    ensures Harmless(Apply(c, s, step), x)
    ensures !Happens(s, step, x, ClaimEvent)
    ensures ReloadTakes(s, step, x) ==> Copies(LocalOf(Apply(c, s, step), x)) == 0
  {
    var l, tag := LocalOf(s, x), LabelOf(s, step, x);
    StepKeepsMessage(c, s, step, x);
    AddressedLabel(s, step, x);
    HappensSignals(s, step, x, ClaimEvent);
    CountMember(Take(s.store.timeout), x);
    if StaleTimeout(l) {
      StaleMove(l, tag);
    } else {
      AbsentStaysAbsent(l, tag);
    }
  }

  lemma {:induction false} StaysHarmless(c: Config, r: Run, i: nat, j: nat, x: Id)
    requires IsRun(c, r) && CollisionFree(c, r) && i <= j < |r.states| && Harmless(r.states[i], x)
    requires forall k :: i <= k < j ==> !Addresses(r.states[k], r.steps[k], x)
    ensures Harmless(r.states[j], x)
    decreases j
  {
    if i < j {
      StaysHarmless(c, r, i, j - 1, x);
      HarmlessAt(c, r, j - 1, x);
    }
  }

  lemma HarmlessNeverClaimed(c: Config, r: Run, i: nat, j: nat, x: Id)
    requires IsRun(c, r) && CollisionFree(c, r) && i <= j < |r.states| && Harmless(r.states[i], x)
    requires forall k :: i <= k < j ==> !Addresses(r.states[k], r.steps[k], x)
    ensures Times(r, i, j, x, ClaimEvent) == 0
  {
    forall k | i <= k < j ensures !Happens(r.states[k], r.steps[k], x, ClaimEvent) {
      StaysHarmless(c, r, i, k, x);
      HarmlessAt(c, r, k, x);
    }
    TimesZero(r, i, j, x, ClaimEvent);
  }

  lemma HarmlessAt(c: Config, r: Run, i: nat, x: Id)
    requires IsRun(c, r) && CollisionFree(c, r) && i < |r.steps|
    requires Harmless(r.states[i], x) && !Addresses(r.states[i], r.steps[i], x)
    ensures Harmless(r.states[i + 1], x)
    ensures !Happens(r.states[i], r.steps[i], x, ClaimEvent)
    ensures ReloadTakes(r.states[i], r.steps[i], x) ==> !Queued(r.states[i + 1].store, x)
  {
    RunsAreSound(c, r, i);
    assert StepAt(c, r, i);
    HarmlessStep(c, r.states[i], r.steps[i], x);
    OccurrencesAreCopies(r.states[i + 1], x);
  }

  /** The step acks or drops `x` after its reservation expired: the only copy sits in timeout. */
  ghost predicate LateFinish(s: System, step: Step, x: Id) {
    && Occurrences(s.store, x) == 1 && x in s.store.timeout && IsLive(s.store.messages, x)
    && step.Commit? && WorkAt(s, step.k).id == x && (step.outcome.Ack? || step.outcome.Drop?)
  }

  lemma LateFinishIsHarmless(c: Config, r: Run, i: nat, x: Id)
    requires IsRun(c, r) && CollisionFree(c, r) && i < |r.steps| && LateFinish(r.states[i], r.steps[i], x)
    ensures Harmless(r.states[i + 1], x)
  {
    assert StepAt(c, r, i);
    var s, step := r.states[i], r.steps[i];
    StateFacts(c, r, i, x);
    RunsAreSound(c, r, i);
    CountMember(s.store.timeout, x);
    StepKeepsMessage(c, s, step, x);
    LateFinishMove(LocalOf(s, x), step.outcome, step.at);
  }

  /** The reload round takes `x` out of timeout. */
  predicate ReloadTakes(s: System, step: Step, x: Id) {
    step.Reload? && step.source.TimeoutList? && x in Take(s.store.timeout)
  }

  /**
   * A consumer acks or drops a message whose only copy has moved to timeout. Whatever the others do,
   * if nobody addresses the message again, it is never redelivered, and the first reload round of
   * timeout that takes it leaves it in no bucket.
   */
  lemma LateFinishIsSafeForReload(c: Config, r: Run, i: nat, j: nat, x: Id)
    requires IsRun(c, r) && CollisionFree(c, r) && i < j < |r.steps| && LateFinish(r.states[i], r.steps[i], x)
    requires forall k :: i < k <= j ==> !Addresses(r.states[k], r.steps[k], x)
    ensures Times(r, i + 1, j + 1, x, ClaimEvent) == 0
    ensures ReloadTakes(r.states[j], r.steps[j], x) ==> !Queued(r.states[j + 1].store, x)
  {
    LateFinishIsHarmless(c, r, i, x);
    HarmlessNeverClaimed(c, r, i + 1, j + 1, x);
    HarmlessSwept(c, r, i + 1, j, x);
  }

  lemma HarmlessSwept(c: Config, r: Run, i: nat, j: nat, x: Id)
    requires IsRun(c, r) && CollisionFree(c, r) && i <= j < |r.steps| && Harmless(r.states[i], x)
    requires forall k :: i <= k <= j ==> !Addresses(r.states[k], r.steps[k], x)
    ensures ReloadTakes(r.states[j], r.steps[j], x) ==> !Queued(r.states[j + 1].store, x)
  {
    StaysHarmless(c, r, i, j, x);
    HarmlessAt(c, r, j, x);
  }
}
