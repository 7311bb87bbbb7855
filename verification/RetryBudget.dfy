/**
 * The retry budget. A message whose handler always fails, delivered in time and
 * left alone by operators, is retried until its attempts reach the limit, delivered
 * once more often than it is retried, and then rests in failed. Its attempts, which
 * start where the push set them, pick the entries of the retry schedule.
 */
module RetryBudget {
  import opened Messages
  import opened Lists
  import opened SortedSets
  import opened Scripts
  import opened Protocol
  import opened Projection
  import opened Safety
  import opened Guarantees

  /** The step is a step of the delivery of `x`. */
  predicate WorksOn(s: System, step: Step, x: Id) {
    (step.Load? || step.Discard? || step.Abandon? || step.Commit? || step.BeginRetry? || step.FinishRetry?)
    && WorkAt(s, step.k).id == x
  }

  /** What the consumer decides for its local copy when the handler fails. */
  function Decision(s: System, k: nat, schedule: seq<int>): Verdict {
    match WorkAt(s, k).phase
    case Held(local) => OnFailure(local, schedule)
    case _ => GiveUp
  }

  /**
   * The handler of `x` fails every time: deliveries of `x` end by the consumer's failure policy, none
   * crashes or times out, and nobody cancels, reloads, retries or damages `x` from outside.
   */
  predicate Failing(s: System, step: Step, x: Id, schedule: seq<int>) {
    && (WorksOn(s, step, x) ==>
          && !step.Abandon?
          && (step.Commit? ==> step.outcome.Fail? && Decision(s, step.k, schedule) == GiveUp)
          && (step.BeginRetry? ==> Decision(s, step.k, schedule) == RetryAfter(step.delay)))
    && (step.BeginOutsideRetry? ==> step.id != x)
    && !Happens(s, step, x, DamageEvent)
    && !Happens(s, step, x, CancelEvent)
    && (step.Reload? ==> x !in SourceList(s.store, step.source))
    && (step.ForwardTimeout? && x in s.store.reserved ==> s.store.reserved[x] > step.at)
  }

  // ----- the message -----

  function Stored(l: Local): Entity
    requires Readable(l)
  {
    l.record.value.entity
  }

  /** The retries raised the attempts from `first` one by one, each with the delay for its count. */
  predicate OnSchedule(delays: seq<int>, schedule: seq<int>, first: int) {
    forall k :: 0 <= k < |delays| ==> delays[k] == RetrySeconds(schedule, first + k + 1)
  }

  /** Deliveries, attempts and retries so far, by position. */
  predicate Metered(l: Local, schedule: seq<int>) {
    l.track.pushed ==>
      && Readable(l) && !l.track.damaged && l.track.unmatched == 0
      && Copies(l) == 1 && l.timeout == 0
      && l.track.start.attempts + |l.track.delays| == Stored(l).attempts
      && OnSchedule(l.track.delays, schedule, l.track.start.attempts)
      && l.track.delivered == |l.track.delays| + (if l.reserved.Some? || l.failed > 0 then 1 else 0)
      && (l.failed > 0 ==> Stored(l).attempts >= RetryLimit(Stored(l).maxAttempts))
  }

  /** The moves a failing message makes. */
  predicate FailingMove(l: Local, tag: Label, schedule: seq<int>) {
    match tag
    case Committed(o, _) =>
      o.Fail? && l.reserved.Some? && Readable(l) && Stored(l).attempts >= RetryLimit(Stored(l).maxAttempts)
    case Retried(raw, delay, _) =>
      && l.reserved.Some? && Readable(l)
      && Stored(l).attempts < RetryLimit(Stored(l).maxAttempts)
      && raw.attempts == Stored(l).attempts + 1
      && RetryLimit(raw.maxAttempts) == RetryLimit(Stored(l).maxAttempts)
      && delay == RetrySeconds(schedule, raw.attempts)
    case Cancelled(_) => l.delayed.None?
    case Expired => false
    case Discarded => false
    case Reloaded(_, _, _) => false
    case Damaged(_) => false
    case _ => true
  }

  lemma MeteredMove(l: Local, tag: Label, schedule: seq<int>)
    requires CanMove(l, tag) && Metered(l, schedule) && FailingMove(l, tag, schedule)
    ensures Metered(MoveLocal(tag, l), schedule)
  {
  }

  // ----- its delivery -----

  predicate NoDelivery(s: System, x: Id) {
    forall k :: k in s.work ==> s.work[k].id != x
  }

  predicate SoleDelivery(s: System, x: Id, k: nat) {
    k in s.work && s.work[k].id == x && forall j :: j in s.work && s.work[j].id == x ==> j == k
  }

  /** The local copy, or the entity about to be written, agrees with the stored entity. */
  predicate InStep(p: Phase, e: Entity, schedule: seq<int>) {
    match p
    case Fresh => true
    case Held(local) => local.attempts == e.attempts && local.maxAttempts == RetryLimit(e.maxAttempts)
    case Missing => false
    case Loaded(raw, delay) =>
      && e.attempts < RetryLimit(e.maxAttempts)
      && raw.attempts == e.attempts + 1
      && RetryLimit(raw.maxAttempts) == RetryLimit(e.maxAttempts)
      && delay == RetrySeconds(schedule, raw.attempts)
  }

  ghost predicate Attended(s: System, x: Id, schedule: seq<int>) {
    if IsLive(s.store.messages, x) && x in s.store.reserved
    then exists k :: SoleDelivery(s, x, k) && InStep(s.work[k].phase, s.store.messages[x].entity, schedule)
    else NoDelivery(s, x)
  }

  ghost predicate Budgeted(s: System, x: Id, schedule: seq<int>) {
    Metered(LocalOf(s, x), schedule) && Attended(s, x, schedule)
  }

  // ----- one step -----

  /** The delivery of `x` ends by the failure policy, on its own reservation. */
  lemma EndingStepMoves(c: Config, s: System, step: Step, x: Id, schedule: seq<int>)
    requires Inv(c, s) && Enabled(s, step) && Budgeted(s, x, schedule) && Failing(s, step, x, schedule)
    requires WorksOn(s, step, x) && Ends(step)
    ensures FailingMove(LocalOf(s, x), LabelOf(s, step, x), schedule)
  {
    assert IsLive(s.store.messages, x) && x in s.store.reserved;
    assert InStep(s.work[step.k].phase, s.store.messages[x].entity, schedule);
  }

  lemma OtherStepMoves(s: System, step: Step, x: Id, schedule: seq<int>)
    requires Enabled(s, step) && Failing(s, step, x, schedule) && !(WorksOn(s, step, x) && Ends(step))
    ensures FailingMove(LocalOf(s, x), LabelOf(s, step, x), schedule)
  {
    StepPossible(s, step, x);
    if step.Reload? {
      CountMember(Take(SourceList(s.store, step.source)), x);
    }
  }

  lemma FailingStepMoves(c: Config, s: System, step: Step, x: Id, schedule: seq<int>)
    requires Inv(c, s) && Enabled(s, step) && Budgeted(s, x, schedule) && Failing(s, step, x, schedule)
    ensures FailingMove(LocalOf(s, x), LabelOf(s, step, x), schedule)
  {
    if WorksOn(s, step, x) && Ends(step) {
      EndingStepMoves(c, s, step, x, schedule);
    } else {
      OtherStepMoves(s, step, x, schedule);
    }
  }

  lemma StepStaysMetered(c: Config, s: System, step: Step, x: Id, schedule: seq<int>)
    requires Inv(c, s) && Enabled(s, step) && Budgeted(s, x, schedule) && Failing(s, step, x, schedule)
    ensures Metered(LocalOf(Apply(c, s, step), x), schedule)
  {
    StepKeepsMessage(c, s, step, x);
    FailingStepMoves(c, s, step, x, schedule);
    MeteredMove(LocalOf(s, x), LabelOf(s, step, x), schedule);
  }

  /** Work that the step does not name stays as it is. */
  lemma OtherWorkStays(c: Config, s: System, step: Step, k: nat)
    requires Enabled(s, step) && k in s.work
    requires !((step.Load? || step.Discard? || step.Abandon? || step.Commit? || step.BeginRetry? || step.FinishRetry?)
               && step.k == k)
    ensures k in Apply(c, s, step).work && Apply(c, s, step).work[k] == s.work[k]
  {
  }

  lemma BystanderWork(c: Config, s: System, step: Step, x: Id, k: nat)
    requires Enabled(s, step) && !WorksOn(s, step, x) && !Happens(s, step, x, ClaimEvent)
    requires step.BeginOutsideRetry? ==> step.id != x
    requires (k in s.work && s.work[k].id == x) || (k in Apply(c, s, step).work && Apply(c, s, step).work[k].id == x)
    ensures k in s.work && k in Apply(c, s, step).work && Apply(c, s, step).work[k] == s.work[k]
  {
    if k in s.work && s.work[k].id == x {
      OtherWorkStays(c, s, step, k);
    } else {
      StepWork(c, s, step, k);
    }
  }

  lemma BystanderMove(l: Local, tag: Label, schedule: seq<int>)
    requires CanMove(l, tag) && Metered(l, schedule) && FailingMove(l, tag, schedule)
    requires !tag.Claim? && !tag.Committed? && !tag.Retried?
    ensures MoveLocal(tag, l).reserved == l.reserved
    ensures l.reserved.Some? ==> MoveLocal(tag, l).record == l.record
  {
  }

  /** Steps elsewhere leave the reservation of `x` and, while it is reserved, its record as they are. */
  lemma BystanderStore(c: Config, s: System, step: Step, x: Id, schedule: seq<int>)
    requires Inv(c, s) && Enabled(s, step) && Budgeted(s, x, schedule) && Failing(s, step, x, schedule)
    requires !WorksOn(s, step, x) && !Happens(s, step, x, ClaimEvent)
    ensures var l, l' := LocalOf(s, x), LocalOf(Apply(c, s, step), x);
            l'.reserved == l.reserved && (l.reserved.Some? ==> l'.record == l.record)
  {
    StepKeepsMessage(c, s, step, x);
    FailingStepMoves(c, s, step, x, schedule);
    BystanderLabel(s, step, x);
    BystanderMove(LocalOf(s, x), LabelOf(s, step, x), schedule);
  }

  lemma BystanderLabel(s: System, step: Step, x: Id)
    requires !WorksOn(s, step, x) && !Happens(s, step, x, ClaimEvent)
    ensures var tag := LabelOf(s, step, x);
            !tag.Claim? && !tag.Committed? && !tag.Retried?
  {
  }

  /** A message without a delivery gets none from steps elsewhere. */
  lemma BystanderAddsNone(c: Config, s: System, step: Step, x: Id)
    requires Enabled(s, step) && !WorksOn(s, step, x) && !Happens(s, step, x, ClaimEvent)
    requires (step.BeginOutsideRetry? ==> step.id != x) && NoDelivery(s, x)
    ensures NoDelivery(Apply(c, s, step), x)
  {
    var s' := Apply(c, s, step);
    forall j | j in s'.work ensures s'.work[j].id != x {
      if s'.work[j].id == x { BystanderWork(c, s, step, x, j); assert false; }
    }
  }

  /** The one delivery of a message stays the only one and in its phase. */
  lemma BystanderKeepsSole(c: Config, s: System, step: Step, x: Id, k: nat)
    requires Enabled(s, step) && !WorksOn(s, step, x) && !Happens(s, step, x, ClaimEvent)
    requires (step.BeginOutsideRetry? ==> step.id != x) && SoleDelivery(s, x, k)
    ensures SoleDelivery(Apply(c, s, step), x, k) && Apply(c, s, step).work[k] == s.work[k]
  {
    var s' := Apply(c, s, step);
    BystanderWork(c, s, step, x, k);
    forall j | j in s'.work && s'.work[j].id == x ensures j == k { BystanderWork(c, s, step, x, j); }
  }

  /** Steps elsewhere leave the delivery of `x` as it is. */
  lemma BystanderAttends(c: Config, s: System, step: Step, x: Id, schedule: seq<int>)
    requires Inv(c, s) && Enabled(s, step) && Budgeted(s, x, schedule) && Failing(s, step, x, schedule)
    requires !WorksOn(s, step, x) && !Happens(s, step, x, ClaimEvent)
    ensures Attended(Apply(c, s, step), x, schedule)
  {
    BystanderStore(c, s, step, x, schedule);
    assert Score(Apply(c, s, step).store.reserved, x) == Score(s.store.reserved, x);
    if x in s.store.reserved && IsLive(s.store.messages, x) {
      var k :| SoleDelivery(s, x, k) && InStep(s.work[k].phase, s.store.messages[x].entity, schedule);
      BystanderKeepsSole(c, s, step, x, k);
    } else {
      BystanderAddsNone(c, s, step, x);
    }
  }

  /** A claim reserves a message that was not reserved, and starts a delivery. */
  lemma ClaimReserves(c: Config, s: System, step: Step, x: Id, schedule: seq<int>)
    requires Inv(c, s) && Enabled(s, step) && Budgeted(s, x, schedule) && Happens(s, step, x, ClaimEvent)
    ensures var s' := Apply(c, s, step);
            && x !in s.store.reserved && x in s'.store.reserved && IsLive(s'.store.messages, x)
            && s'.work == s.work[step.k := Work(x, Some(step.deadline), Fresh)]
  {
    assert SafeLocal(LocalOf(s, x));
    CountMember(s.store.waiting, x);
    assert Readable(LocalOf(s, x)) && LocalOf(s, x).waiting > 0;
    assert Score(s.store.reserved, x).None?;
  }

  lemma ClaimAttends(c: Config, s: System, step: Step, x: Id, schedule: seq<int>)
    requires Inv(c, s) && Enabled(s, step) && Budgeted(s, x, schedule) && Happens(s, step, x, ClaimEvent)
    ensures Attended(Apply(c, s, step), x, schedule)
  {
    ClaimReserves(c, s, step, x, schedule);
    assert SoleDelivery(Apply(c, s, step), x, step.k);
  }

  /** A delivery that ends leaves the message unreserved. */
  lemma EndingReleases(c: Config, s: System, step: Step, x: Id, schedule: seq<int>)
    requires Inv(c, s) && Enabled(s, step) && Budgeted(s, x, schedule) && WorksOn(s, step, x) && Ends(step)
    ensures x !in Apply(c, s, step).store.reserved && SoleDelivery(s, x, step.k)
  {
    StepProjects(c, s, step, x);
    assert WorkFits(s.work[step.k], TrackOf(s, x));
    EndingMove(LocalOf(s, x), LabelOf(s, step, x));
    assert Score(Apply(c, s, step).store.reserved, x).None?;
  }

  lemma EndingMove(l: Local, tag: Label)
    requires tag.Committed? || tag.Discarded? || (tag.Retried? && Copies(l) > 0)
    ensures MoveLocal(tag, l).reserved.None?
  {
  }

  /** And unattended. */
  lemma EndingAttends(c: Config, s: System, step: Step, x: Id, schedule: seq<int>)
    requires Inv(c, s) && Enabled(s, step) && Budgeted(s, x, schedule) && WorksOn(s, step, x) && Ends(step)
    ensures Attended(Apply(c, s, step), x, schedule)
  {
    var s' := Apply(c, s, step);
    EndingReleases(c, s, step, x, schedule);
    forall j | j in s'.work ensures s'.work[j].id != x { StepWork(c, s, step, j); }
  }

  lemma DeliveryAttends(c: Config, s: System, step: Step, x: Id, schedule: seq<int>)
    requires Inv(c, s) && Enabled(s, step) && Budgeted(s, x, schedule) && Failing(s, step, x, schedule)
    requires WorksOn(s, step, x) && !Ends(step)
    ensures Attended(Apply(c, s, step), x, schedule)
  {
    var s', k := Apply(c, s, step), step.k;
    assert s'.store == s.store;
    assert SoleDelivery(s, x, k) && InStep(s.work[k].phase, s.store.messages[x].entity, schedule);
    forall j | j in s'.work && s'.work[j].id == x ensures j == k { StepWork(c, s, step, j); }
    SoleStepInStep(c, s, step, x, schedule);
    assert SoleDelivery(s', x, k);
  }

  /** Loading the entity, for the handler or for the retry, keeps the copies in step. */
  lemma SoleStepInStep(c: Config, s: System, step: Step, x: Id, schedule: seq<int>)
    requires Enabled(s, step) && Failing(s, step, x, schedule) && WorksOn(s, step, x) && !Ends(step)
    requires IsLive(s.store.messages, x)
    requires InStep(s.work[step.k].phase, s.store.messages[x].entity, schedule)
    ensures var s' := Apply(c, s, step);
            && step.k in s'.work && s'.work[step.k].id == x
            && InStep(s'.work[step.k].phase, s.store.messages[x].entity, schedule)
  {
  }

  lemma StepStaysBudgeted(c: Config, s: System, step: Step, x: Id, schedule: seq<int>)
    requires Inv(c, s) && Enabled(s, step) && Budgeted(s, x, schedule) && Failing(s, step, x, schedule)
    ensures Budgeted(Apply(c, s, step), x, schedule)
  {
    StepStaysMetered(c, s, step, x, schedule);
    if WorksOn(s, step, x) && Ends(step) {
      EndingAttends(c, s, step, x, schedule);
    } else if WorksOn(s, step, x) {
      DeliveryAttends(c, s, step, x, schedule);
    } else if Happens(s, step, x, ClaimEvent) {
      ClaimAttends(c, s, step, x, schedule);
    } else {
      BystanderAttends(c, s, step, x, schedule);
    }
  }

  // ----- whole runs -----

  ghost predicate FailingRun(c: Config, r: Run, x: Id, schedule: seq<int>) {
    IsRun(c, r) && forall i :: 0 <= i < |r.steps| ==> Failing(r.states[i], r.steps[i], x, schedule)
  }

  lemma {:induction false} FailingRunsStayBudgeted(c: Config, r: Run, i: nat, x: Id, schedule: seq<int>)
    requires FailingRun(c, r, x, schedule) && CollisionFree(c, r) && i < |r.states|
    ensures Budgeted(r.states[i], x, schedule)
  {
    if i > 0 {
      FailingRunsStayBudgeted(c, r, i - 1, x, schedule);
      RunsAreSound(c, r, i - 1);
      assert Failing(r.states[i - 1], r.steps[i - 1], x, schedule);
      assert StepAt(c, r, i - 1);
      StepStaysBudgeted(c, r.states[i - 1], r.steps[i - 1], x, schedule);
    }
  }

  /** The delays of the retries of `x` that took effect, in order. */
  function RetryDelays(r: Run, i: nat, x: Id): seq<int>
    requires i <= |r.steps| < |r.states|
  {
    if i == 0 then []
    else RetryDelays(r, i - 1, x) + StepDelay(r.states[i - 1], r.steps[i - 1], x)
  }

  function StepDelay(s: System, step: Step, x: Id): seq<int> {
    if step.FinishRetry? && WorkAt(s, step.k).id == x && WorkAt(s, step.k).phase.Loaded? && Queued(s.store, x)
    then [WorkAt(s, step.k).phase.delay]
    else []
  }

  lemma StepRecordsDelay(c: Config, s: System, step: Step, x: Id)
    requires Inv(c, s) && Enabled(s, step)
    ensures TrackOf(Apply(c, s, step), x).delays == TrackOf(s, x).delays + StepDelay(s, step, x)
  {
    StepProjects(c, s, step, x);
    StepBacked(c, s, step, x);
    assert SafeLocal(LocalOf(s, x));
    DelayOfLabel(s, step, x);
    DelaysMove(LocalOf(s, x), LabelOf(s, step, x));
  }

  function LabelDelay(l: Local, tag: Label): seq<int> {
    if tag.Retried? && Copies(l) > 0 then [tag.delay] else []
  }

  lemma DelayOfLabel(s: System, step: Step, x: Id)
    ensures StepDelay(s, step, x) == LabelDelay(LocalOf(s, x), LabelOf(s, step, x))
  {
    QueuedMeansCopies(s.store, TrackOf(s, x), x);
  }

  lemma DelaysMove(l: Local, tag: Label)
    requires (!l.track.pushed ==> l == BLANK) && (tag.Pushed? ==> !l.track.pushed)
    ensures MoveLocal(tag, l).track.delays == l.track.delays + LabelDelay(l, tag)
  {
  }

  lemma {:induction false} DelaysAreRecorded(c: Config, r: Run, i: nat, x: Id)
    requires IsRun(c, r) && CollisionFree(c, r) && i < |r.states|
    ensures TrackOf(r.states[i], x).delays == RetryDelays(r, i, x)
  {
    if i > 0 {
      DelaysAreRecorded(c, r, i - 1, x);
      RunsAreSound(c, r, i - 1);
      assert StepAt(c, r, i - 1);
      StepRecordsDelay(c, r.states[i - 1], r.steps[i - 1], x);
    }
  }

  /** The retries that a message pushed with these attempts and this limit is allowed. */
  function Retries(attempts: int, maxAttempts: int): (n: nat)
    ensures attempts + n >= RetryLimit(maxAttempts)
    ensures n > 0 ==> attempts + n == RetryLimit(maxAttempts)
  {
    if attempts < RetryLimit(maxAttempts) then RetryLimit(maxAttempts) - attempts else 0
  }

  /**
   * A message pushed at step j with n retries allowed is delivered at most n + 1 times. As long as it
   * is not in failed it is waiting, delayed or reserved; once in failed, it was delivered exactly
   * n + 1 times and retried exactly n times.
   */
  lemma ExactRetryBudget(c: Config, r: Run, j: nat, i: nat, x: Id, schedule: seq<int>)
    requires FailingRun(c, r, x, schedule) && CollisionFree(c, r) && j < i < |r.states|
    requires Happens(r.states[j], r.steps[j], x, PushEvent)
    ensures var s, push, deliveries := r.states[i].store, r.steps[j], Times(r, 0, i, x, ClaimEvent);
            var limit := if push.maxAttempts <= 0 then 1 else push.maxAttempts;
            var n := if push.attempts < limit then limit - push.attempts else 0;
            && deliveries <= n + 1
            && (x in s.failed ==> deliveries == n + 1 && |RetryDelays(r, i, x)| == n)
            && (x !in s.failed ==> x in s.waiting || x in s.delayed || x in s.reserved)
            && (deliveries == n + 1 ==> x in s.failed || x in s.reserved)
  {
    FailingRunsStayBudgeted(c, r, i, x, schedule);
    StartIsPush(c, r, j, i, x);
    StateFacts(c, r, i, x);
    HistoryIsWhatHappened(c, r, i, x);
    DelaysAreRecorded(c, r, i, x);
    CountMember(r.states[i].store.failed, x);
    CountMember(r.states[i].store.waiting, x);
  }

  lemma FailedMove(l: Local, tag: Label, schedule: seq<int>)
    requires CanMove(l, tag) && Metered(l, schedule) && FailingMove(l, tag, schedule) && l.failed > 0
    ensures MoveLocal(tag, l) == l
  {
  }

  lemma FailedStep(c: Config, s: System, step: Step, x: Id, schedule: seq<int>)
    requires Inv(c, s) && Enabled(s, step) && Budgeted(s, x, schedule) && Failing(s, step, x, schedule)
    requires x in s.store.failed
    ensures LocalOf(Apply(c, s, step), x) == LocalOf(s, x)
  {
    StepKeepsMessage(c, s, step, x);
    FailingStepMoves(c, s, step, x, schedule);
    CountMember(s.store.failed, x);
    FailedMove(LocalOf(s, x), LabelOf(s, step, x), schedule);
  }

  /** In failed, with this record. */
  predicate RestsInFailed(s: System, x: Id, record: Option<Record>) {
    x in s.store.failed && Lookup(s.store.messages, x) == record
  }

  lemma FailedAt(c: Config, r: Run, i: nat, x: Id, schedule: seq<int>, record: Option<Record>)
    requires FailingRun(c, r, x, schedule) && CollisionFree(c, r) && i < |r.steps|
    requires RestsInFailed(r.states[i], x, record)
    ensures RestsInFailed(r.states[i + 1], x, record)
  {
    RunsAreSound(c, r, i);
    FailingRunsStayBudgeted(c, r, i, x, schedule);
    assert StepAt(c, r, i);
    FailedStep(c, r.states[i], r.steps[i], x, schedule);
    CountMember(r.states[i].store.failed, x);
    CountMember(r.states[i + 1].store.failed, x);
  }

  /** Once in failed, the message stays there, its entity untouched, to the end of the run. */
  lemma {:induction false} FailedIsFinal(c: Config, r: Run, i: nat, j: nat, x: Id, schedule: seq<int>,
                                         record: Option<Record>)
    requires FailingRun(c, r, x, schedule) && CollisionFree(c, r) && i <= j < |r.states|
    requires RestsInFailed(r.states[i], x, record)
    ensures RestsInFailed(r.states[j], x, record)
    decreases j
  {
    if i < j {
      FailedIsFinal(c, r, i, j - 1, x, schedule, record);
      FailedAt(c, r, j - 1, x, schedule, record);
    }
  }

  /**
   * A message pushed with `first` attempts starts at that entry of the schedule (the first entry if the
   * number is negative) and takes the entries in turn; the last one serves all later retries.
   */
  predicate UsesSchedule(delays: seq<int>, schedule: seq<int>, first: int) {
    forall k :: 0 <= k < |delays| ==>
      delays[k] == if schedule == [] then 10
                   else if first + k < 0 then schedule[0]
                   else if first + k < |schedule| then schedule[first + k]
                   else schedule[|schedule| - 1]
  }

  lemma OnScheduleUses(delays: seq<int>, schedule: seq<int>, first: int)
    requires OnSchedule(delays, schedule, first)
    ensures UsesSchedule(delays, schedule, first)
  {
  }

  /** The stored attempts count the retries, and each retry waits for its entry of the schedule. */
  lemma RetriesFollowSchedule(c: Config, r: Run, j: nat, i: nat, x: Id, schedule: seq<int>)
    requires FailingRun(c, r, x, schedule) && CollisionFree(c, r) && j < i < |r.states|
    requires Happens(r.states[j], r.steps[j], x, PushEvent)
    ensures IsLive(r.states[i].store.messages, x)
    ensures r.steps[j].attempts + |RetryDelays(r, i, x)| == r.states[i].store.messages[x].entity.attempts
    ensures UsesSchedule(RetryDelays(r, i, x), schedule, r.steps[j].attempts)
  {
    FailingRunsStayBudgeted(c, r, i, x, schedule);
    StartIsPush(c, r, j, i, x);
    DelaysAreRecorded(c, r, i, x);
    OnScheduleUses(TrackOf(r.states[i], x).delays, schedule, r.steps[j].attempts);
  }

  /** Whenever a retry is about to be written, the handler's copy and the store agree on the attempts. */
  lemma LocalAndStoredAgree(c: Config, r: Run, i: nat, x: Id, schedule: seq<int>, k: nat)
    requires FailingRun(c, r, x, schedule) && CollisionFree(c, r) && i < |r.states|
    requires k in r.states[i].work && r.states[i].work[k].id == x
    ensures IsLive(r.states[i].store.messages, x)
    ensures var e, p := r.states[i].store.messages[x].entity, r.states[i].work[k].phase;
            && (p.Held? ==> p.local.attempts == e.attempts)
            && (p.Loaded? ==> p.raw.attempts == e.attempts + 1)
  {
    FailingRunsStayBudgeted(c, r, i, x, schedule);
  }
}
