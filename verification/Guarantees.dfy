/**
 * The queue's promises over whole runs, stated on the run itself: the steps
 * taken so far and the store they lead to.
 */
module Guarantees {
  import opened Messages
  import opened Lists
  import opened Scripts
  import opened Protocol
  import opened Projection
  import opened Safety

  /** Things that can happen to a message in one step. */
  datatype Event =
    | PushEvent          // it is pushed
    | DamageEvent        // its entity expires or is changed from outside
    | ClaimEvent         // a consumer claims it
    | CancelEvent        // it is canceled while delayed
    | LateEvent          // a commit for it finds no reservation
    | LateInsertEvent    // such a commit also enqueues it
    | AckEvent           // a consumer acks it
    | DropEvent          // a consumer drops it
    | FailEvent          // a consumer gives it up

  predicate Happens(s: System, step: Step, x: Id, ev: Event) {
    match ev
    case PushEvent => step.Push? && step.id == x
    case DamageEvent => step.Damage? && step.id == x
    case ClaimEvent => step.Pop? && Claimed(s.store) == Some(x)
    case CancelEvent => step.Cancel? && step.id == x && x in s.store.delayed
    case LateEvent => step.Commit? && WorkAt(s, step.k).id == x && x !in s.store.reserved
    case LateInsertEvent =>
      step.Commit? && WorkAt(s, step.k).id == x && x !in s.store.reserved
      && IsLive(s.store.messages, x) && (step.outcome.Fail? || step.outcome.Requeue?)
    case AckEvent => step.Commit? && WorkAt(s, step.k).id == x && step.outcome == Ack
    case DropEvent => step.Commit? && WorkAt(s, step.k).id == x && step.outcome == Drop
    case FailEvent => step.Commit? && WorkAt(s, step.k).id == x && step.outcome == Fail
  }

  /** How often an event happened to `x` in steps lo to hi - 1. */
  function Times(r: Run, lo: nat, hi: nat, x: Id, ev: Event): nat
    requires lo <= hi <= |r.steps| < |r.states|
  {
    if lo == hi then 0
    else Times(r, lo, hi - 1, x, ev) + if Happens(r.states[hi - 1], r.steps[hi - 1], x, ev) then 1 else 0
  }

  /** An event was counted zero times exactly if no step in between is one. */
  lemma {:induction false} TimesZero(r: Run, lo: nat, hi: nat, x: Id, ev: Event)
    requires lo <= hi <= |r.steps| < |r.states|
    ensures Times(r, lo, hi, x, ev) == 0 <==> forall k :: lo <= k < hi ==> !Happens(r.states[k], r.steps[k], x, ev)
    decreases hi
  {
    if lo < hi {
      TimesZero(r, lo, hi - 1, x, ev);
    }
  }

  /** Bucket entries that name `x`, counted over all five buckets. */
  ghost function Occurrences(s: Store, x: Id): nat {
    Count(s.waiting, x) + Count(s.timeout, x) + Count(s.failed, x)
    + (if x in s.delayed then 1 else 0) + (if x in s.reserved then 1 else 0)
  }

  lemma OccurrencesAreCopies(s: System, x: Id)
    ensures Occurrences(s.store, x) == Copies(LocalOf(s, x))
    ensures Queued(s.store, x) <==> Occurrences(s.store, x) > 0
  {
    QueuedMeansCopies(s.store, TrackOf(s, x), x);
  }

  // ----- every state of every run -----

  lemma {:induction false} TextsAccumulate(c: Config, r: Run, i: nat, j: nat)
    requires IsRun(c, r) && i <= j < |r.states|
    ensures r.states[i].texts <= r.states[j].texts
    decreases j
  {
    if i < j {
      TextsAccumulate(c, r, i, j - 1);
      assert StepAt(c, r, j - 1);
      StepTexts(c, r.states[j - 1], r.steps[j - 1]);
    }
  }

  lemma {:induction false} RunsAreSound(c: Config, r: Run, i: nat)
    requires IsRun(c, r) && CollisionFree(c, r) && i < |r.states|
    ensures Inv(c, r.states[i])
  {
    if i == 0 {
      InitIsSound(c, r.states[0]);
    } else {
      RunsAreSound(c, r, i - 1);
      TextsAccumulate(c, r, i, |r.states| - 1);
      assert StepAt(c, r, i - 1);
      StepKeepsInv(c, r.states[i - 1], r.steps[i - 1]);
    }
  }

  lemma InitIsSound(c: Config, s: System)
    requires Init(s)
    ensures Inv(c, s)
  {
    forall x ensures LocalOf(s, x) == BLANK { }
  }

  /** The history is what happened. */
  predicate Records(t: Track, pushes: nat, damages: nat, claims: nat, cancels: nat, lates: nat, inserts: nat) {
    && (t.pushed <==> pushes > 0)
    && (t.damaged <==> damages > 0)
    && t.delivered == claims
    && t.canceled == cancels
    && t.unmatched == lates
    && t.lateInserts == inserts
  }

  /** The same events, read off a local move. */
  predicate Signals(l: Local, tag: Label, ev: Event) {
    match ev
    case PushEvent => tag.Pushed?
    case DamageEvent => tag.Damaged?
    case ClaimEvent => tag.Claim?
    case CancelEvent => tag.Cancelled? && l.delayed.Some?
    case LateEvent => tag.Committed? && l.reserved.None?
    case LateInsertEvent =>
      tag.Committed? && l.reserved.None? && Readable(l) && (tag.outcome.Fail? || tag.outcome.Requeue?)
    case AckEvent => tag.Committed? && tag.outcome == Ack
    case DropEvent => tag.Committed? && tag.outcome == Drop
    case FailEvent => tag.Committed? && tag.outcome == Fail
  }

  lemma HappensSignals(s: System, step: Step, x: Id, ev: Event)
    ensures Happens(s, step, x, ev) <==> Signals(LocalOf(s, x), LabelOf(s, step, x), ev)
  {
  }

  lemma MoveRecords(l: Local, tag: Label)
    requires CanMove(l, tag)
    ensures var t, t' := l.track, MoveLocal(tag, l).track;
            && (t'.pushed <==> t.pushed || Signals(l, tag, PushEvent))
            && (t'.damaged <==> t.damaged || Signals(l, tag, DamageEvent))
            && t'.delivered == t.delivered + (if Signals(l, tag, ClaimEvent) then 1 else 0)
            && t'.canceled == t.canceled + (if Signals(l, tag, CancelEvent) then 1 else 0)
            && t'.unmatched == t.unmatched + (if Signals(l, tag, LateEvent) then 1 else 0)
            && t'.lateInserts == t.lateInserts + (if Signals(l, tag, LateInsertEvent) then 1 else 0)
  {
  }

  lemma StepRecords(c: Config, s: System, step: Step, x: Id)
    requires Inv(c, s) && Enabled(s, step)
    ensures var t, t' := TrackOf(s, x), TrackOf(Apply(c, s, step), x);
            && (t'.pushed <==> t.pushed || Happens(s, step, x, PushEvent))
            && (t'.damaged <==> t.damaged || Happens(s, step, x, DamageEvent))
            && t'.delivered == t.delivered + (if Happens(s, step, x, ClaimEvent) then 1 else 0)
            && t'.canceled == t.canceled + (if Happens(s, step, x, CancelEvent) then 1 else 0)
            && t'.unmatched == t.unmatched + (if Happens(s, step, x, LateEvent) then 1 else 0)
            && t'.lateInserts == t.lateInserts + (if Happens(s, step, x, LateInsertEvent) then 1 else 0)
  {
    StepKeepsMessage(c, s, step, x);
    MoveRecords(LocalOf(s, x), LabelOf(s, step, x));
    forall ev ensures Happens(s, step, x, ev) <==> Signals(LocalOf(s, x), LabelOf(s, step, x), ev) {
      HappensSignals(s, step, x, ev);
    }
  }

  lemma {:induction false} HistoryIsWhatHappened(c: Config, r: Run, i: nat, x: Id)
    requires IsRun(c, r) && CollisionFree(c, r) && i < |r.states|
    ensures Records(TrackOf(r.states[i], x),
                    Times(r, 0, i, x, PushEvent), Times(r, 0, i, x, DamageEvent), Times(r, 0, i, x, ClaimEvent),
                    Times(r, 0, i, x, CancelEvent), Times(r, 0, i, x, LateEvent), Times(r, 0, i, x, LateInsertEvent))
  {
    if i > 0 {
      HistoryIsWhatHappened(c, r, i - 1, x);
      RunsAreSound(c, r, i - 1);
      assert StepAt(c, r, i - 1);
      StepRecords(c, r.states[i - 1], r.steps[i - 1], x);
    }
  }

  /** The message was pushed by now, and nothing outside touched its entity. */
  predicate Entrusted(r: Run, i: nat, x: Id)
    requires i <= |r.steps| < |r.states|
  {
    Times(r, 0, i, x, PushEvent) > 0 && Times(r, 0, i, x, DamageEvent) == 0
  }

  lemma StateFacts(c: Config, r: Run, i: nat, x: Id)
    requires IsRun(c, r) && CollisionFree(c, r) && i < |r.states|
    ensures SafeLocal(LocalOf(r.states[i], x))
    ensures Occurrences(r.states[i].store, x) == Copies(LocalOf(r.states[i], x))
    ensures Queued(r.states[i].store, x) <==> Occurrences(r.states[i].store, x) > 0
  {
    RunsAreSound(c, r, i);
    OccurrencesAreCopies(r.states[i], x);
  }

  /**
   * No silent loss: at every point of every run, a pushed message still has its entity and is
   * in a bucket, unless a commit or a cancellation finished it.
   */
  lemma NoSilentLoss(c: Config, r: Run, i: nat, x: Id)
    requires IsRun(c, r) && CollisionFree(c, r) && i < |r.states|
    requires Entrusted(r, i, x)
    ensures IsLive(r.states[i].store.messages, x)
    ensures r.states[i].store.messages[x].entity.status in {Done, Dropped, Canceled} || Queued(r.states[i].store, x)
  {
    StateFacts(c, r, i, x);
    HistoryIsWhatHappened(c, r, i, x);
  }

  /**
   * At-least-once: a pushed message is still in a bucket, or was canceled, or was claimed by a
   * consumer; and it is done or dropped only after a claim, canceled only after a cancellation.
   */
  lemma AtLeastOnce(c: Config, r: Run, i: nat, x: Id)
    requires IsRun(c, r) && CollisionFree(c, r) && i < |r.states|
    requires Entrusted(r, i, x)
    ensures Queued(r.states[i].store, x) || Times(r, 0, i, x, CancelEvent) > 0 || Times(r, 0, i, x, ClaimEvent) > 0
    ensures IsLive(r.states[i].store.messages, x)
    ensures r.states[i].store.messages[x].entity.status in {Done, Dropped} ==> Times(r, 0, i, x, ClaimEvent) > 0
    ensures r.states[i].store.messages[x].entity.status == Canceled ==> Times(r, 0, i, x, CancelEvent) > 0
  {
    StateFacts(c, r, i, x);
    HistoryIsWhatHappened(c, r, i, x);
  }

  /** Each extra copy of a message was put there by its own late Requeue or Fail. */
  lemma BoundedDuplication(c: Config, r: Run, i: nat, x: Id)
    requires IsRun(c, r) && CollisionFree(c, r) && i < |r.states|
    ensures Occurrences(r.states[i].store, x) <= 1 + Times(r, 0, i, x, LateInsertEvent)
  {
    StateFacts(c, r, i, x);
    HistoryIsWhatHappened(c, r, i, x);
  }

  /** The five buckets of `s` name every id at most once in all. */
  ghost predicate DisjointBuckets(s: Store) {
    forall x :: Occurrences(s, x) <= 1
  }

  /** Without late inserts the buckets are disjoint and free of duplicates. */
  lemma NoLateInsertsNoDuplicates(c: Config, r: Run, i: nat)
    requires IsRun(c, r) && CollisionFree(c, r) && i < |r.states|
    requires forall x :: Times(r, 0, i, x, LateInsertEvent) == 0
    ensures DisjointBuckets(r.states[i].store)
  {
    forall x ensures Occurrences(r.states[i].store, x) <= 1 {
      BoundedDuplication(c, r, i, x);
    }
  }

  /** If every commit for a message found a reservation, its status is the one its position calls for. */
  lemma StatusMatchesPosition(c: Config, r: Run, i: nat, x: Id)
    requires IsRun(c, r) && CollisionFree(c, r) && i < |r.states|
    requires Times(r, 0, i, x, LateEvent) == 0
    requires IsLive(r.states[i].store.messages, x)
    ensures var s, status := r.states[i].store, r.states[i].store.messages[x].entity.status;
            && (x in s.waiting ==> status == Waiting)
            && (x in s.delayed ==> status == Delayed)
            && (x in s.reserved ==> status == Reserved)
            && (x in s.timeout ==> status == Reserved)
            && (x in s.failed ==> status == Failed)
  {
    StateFacts(c, r, i, x);
    HistoryIsWhatHappened(c, r, i, x);
    CountMember(r.states[i].store.waiting, x);
    CountMember(r.states[i].store.timeout, x);
    CountMember(r.states[i].store.failed, x);
  }

  /**
   * Stored attempts never pass the larger of the retry limit and the pushed value, and never fall
   * below the pushed value, however retries race.
   */
  lemma AttemptsStayBounded(c: Config, r: Run, j: nat, i: nat, x: Id)
    requires IsRun(c, r) && CollisionFree(c, r) && j < i < |r.states|
    requires Happens(r.states[j], r.steps[j], x, PushEvent)
    requires IsLive(r.states[i].store.messages, x)
    ensures var e, push := r.states[i].store.messages[x].entity, r.steps[j];
            && push.attempts <= e.attempts
            && (e.attempts <= push.attempts || e.attempts <= if push.maxAttempts <= 0 then 1 else push.maxAttempts)
            && (e.maxAttempts == push.maxAttempts || (e.maxAttempts == 1 && push.maxAttempts <= 0))
  {
    StateFacts(c, r, i, x);
    StartIsPush(c, r, j, i, x);
  }

  lemma StepStarts(c: Config, s: System, step: Step, x: Id)
    requires Inv(c, s) && Enabled(s, step)
    ensures var start, start' := TrackOf(s, x).start, TrackOf(Apply(c, s, step), x).start;
            if Happens(s, step, x, PushEvent)
            then start' == PushedEntity(step.attempts, step.maxAttempts, step.delay, step.at)
            else TrackOf(s, x).pushed ==> start' == start
  {
    StepKeepsMessage(c, s, step, x);
    HappensSignals(s, step, x, PushEvent);
  }

  /** The entity that `x` was pushed with had these attempts and this limit. */
  predicate StartedWith(s: System, x: Id, attempts: int, maxAttempts: int) {
    TrackOf(s, x).pushed && TrackOf(s, x).start.attempts == attempts && TrackOf(s, x).start.maxAttempts == maxAttempts
  }

  lemma PushStarts(c: Config, s: System, step: Step, x: Id)
    requires Inv(c, s) && Enabled(s, step) && Happens(s, step, x, PushEvent)
    ensures StartedWith(Apply(c, s, step), x, step.attempts, step.maxAttempts)
  {
    StepStarts(c, s, step, x);
    StepRecords(c, s, step, x);
  }

  lemma StartStays(c: Config, s: System, step: Step, x: Id, attempts: int, maxAttempts: int)
    requires Inv(c, s) && Enabled(s, step) && StartedWith(s, x, attempts, maxAttempts)
    ensures StartedWith(Apply(c, s, step), x, attempts, maxAttempts)
  {
    StepStarts(c, s, step, x);
    StepRecords(c, s, step, x);
    OnlyOnePush(c, s, step, x);
  }

  lemma {:induction false} StartIsPush(c: Config, r: Run, j: nat, i: nat, x: Id)
    requires IsRun(c, r) && CollisionFree(c, r) && j < i < |r.states|
    requires Happens(r.states[j], r.steps[j], x, PushEvent)
    ensures StartedWith(r.states[i], x, r.steps[j].attempts, r.steps[j].maxAttempts)
  {
    RunsAreSound(c, r, i - 1);
    if j < i - 1 {
      StartIsPush(c, r, j, i - 1, x);
      assert StepAt(c, r, i - 1);
      StartStays(c, r.states[i - 1], r.steps[i - 1], x, r.steps[j].attempts, r.steps[j].maxAttempts);
    } else {
      assert StepAt(c, r, j);
      PushStarts(c, r.states[j], r.steps[j], x);
    }
  }

  lemma OnlyOnePush(c: Config, s: System, step: Step, x: Id)
    requires Inv(c, s) && Enabled(s, step) && TrackOf(s, x).pushed
    ensures !Happens(s, step, x, PushEvent)
  {
  }

  /**
   * However many copies there are, the only steps that add one are the push and a late Requeue or Fail,
   * and they add exactly one.
   */
  lemma CopiesGrowExactly(c: Config, s: System, step: Step, x: Id)
    requires Inv(c, s) && Enabled(s, step)
    ensures Occurrences(Apply(c, s, step).store, x) > Occurrences(s.store, x)
       <==> Happens(s, step, x, PushEvent) || Happens(s, step, x, LateInsertEvent)
    ensures Occurrences(Apply(c, s, step).store, x) <= Occurrences(s.store, x) + 1
  {
    StepKeepsMessage(c, s, step, x);
    OccurrencesAreCopies(s, x);
    OccurrencesAreCopies(Apply(c, s, step), x);
    HappensSignals(s, step, x, PushEvent);
    HappensSignals(s, step, x, LateInsertEvent);
    MoveAddsCopy(LocalOf(s, x), LabelOf(s, step, x));
  }

  lemma MoveAddsCopy(l: Local, tag: Label)
    requires CanMove(l, tag)
    ensures Copies(MoveLocal(tag, l)) > Copies(l) <==> Signals(l, tag, PushEvent) || Signals(l, tag, LateInsertEvent)
    ensures Copies(MoveLocal(tag, l)) <= Copies(l) + 1
  {
  }

  /** The only step that duplicates a message is a late Requeue or Fail for a message still queued. */
  lemma DuplicatesExactlyByLateInsert(c: Config, s: System, step: Step, x: Id)
    requires Inv(c, s) && Enabled(s, step) && Occurrences(s.store, x) <= 1
    ensures Occurrences(Apply(c, s, step).store, x) > 1
       <==> Queued(s.store, x) && Happens(s, step, x, LateInsertEvent)
  {
    CopiesGrowExactly(c, s, step, x);
    OccurrencesAreCopies(s, x);
    if Queued(s.store, x) {
      assert SafeLocal(LocalOf(s, x));
      OnlyOnePush(c, s, step, x);
    }
  }
}
