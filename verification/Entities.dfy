/**
 * What each step writes: the entity of a message after any step of the queue, and the
 * copies a consumer or a retry reads, spelled out field by field.
 */
module Entities {
  import opened Messages
  import opened Lists
  import opened SortedSets
  import opened Scripts
  import opened Protocol
  import opened Projection
  import opened Effects

  /** The limit of an entity as a reader sees it: a limit that is not positive counts as 1. */
  function LimitRead(maxAttempts: int): int {
    if maxAttempts >= 1 then maxAttempts else 1
  }

  /** The entity of a readable message after a step; None if it is not readable any more. */
  ghost function EntityAfter(s: System, step: Step, x: Id): Option<Entity>
    requires IsLive(s.store.messages, x)
  {
    var e := s.store.messages[x].entity;
    match step
    case Push(id, a, m, delay, at) =>
      Some(if id == x then Entity(if delay == 0 then Waiting else Delayed, a, m, at) else e)
    case ForwardDelayed(at) =>
      Some(if Taken(s.store.delayed, at + 1, x) then Entity(Waiting, e.attempts, e.maxAttempts, at + 1) else e)
    case Pop(_, at, _) =>
      Some(if Claimed(s.store) == Some(x) then Entity(Reserved, e.attempts, e.maxAttempts, at) else e)
    case Commit(k, o, at) =>
      var status := match o case Ack => Done case Drop => Dropped case Fail => Failed case Requeue => Waiting;
      Some(if WorkAt(s, k).id == x then Entity(status, e.attempts, e.maxAttempts, at) else e)
    case FinishRetry(k, _) =>
      var w := WorkAt(s, k);
      Some(if w.id == x && w.phase.Loaded? && Queued(s.store, x) then w.phase.raw else e)
    case Cancel(id, at) =>
      Some(if id == x && x in s.store.delayed then Entity(Canceled, e.attempts, e.maxAttempts, at) else e)
    case Reload(src, at) =>
      var round := FirstHundred(SourceList(s.store, src));
      Some(if x in round && PutBack(s.store, src, x) then Entity(Waiting, e.attempts, e.maxAttempts, at) else e)
    case Damage(id, _) => if id == x then None else Some(e)
    case _ => Some(e)
  }

  /** The same, read off a local move. */
  function EntityMoved(l: Local, tag: Label): Option<Entity>
    requires Readable(l)
  {
    var e := l.record.value.entity;
    match tag
    case Pushed(raw, _, _) => Some(raw)
    case Released(at) => Some(Entity(Waiting, e.attempts, e.maxAttempts, at + 1))
    case Claim(at, _) => Some(Entity(Reserved, e.attempts, e.maxAttempts, at))
    case Committed(Ack, at) => Some(Entity(Done, e.attempts, e.maxAttempts, at))
    case Committed(Drop, at) => Some(Entity(Dropped, e.attempts, e.maxAttempts, at))
    case Committed(Fail, at) => Some(Entity(Failed, e.attempts, e.maxAttempts, at))
    case Committed(Requeue, at) => Some(Entity(Waiting, e.attempts, e.maxAttempts, at))
    case Retried(raw, _, _) => Some(if Copies(l) > 0 then raw else e)
    case Cancelled(at) => Some(if l.delayed.Some? then Entity(Canceled, e.attempts, e.maxAttempts, at) else e)
    case Reloaded(src, _, at) =>
      var stays := src == TimeoutList && e.status in {Done, Dropped, Canceled};
      Some(if stays then e else Entity(Waiting, e.attempts, e.maxAttempts, at))
    case Damaged(_) => None
    case _ => Some(e)
  }

  lemma MoveWrites(l: Local, tag: Label)
    requires Readable(l) && Possible(l, tag)
    ensures match EntityMoved(l, tag)
            case Some(e) => MoveLocal(tag, l).record == Some(Live(e))
            case None => !Readable(MoveLocal(tag, l))
  {
  }

  lemma ForwardWrites(s: System, step: Step, x: Id)
    requires IsLive(s.store.messages, x) && step.ForwardDelayed?
    ensures EntityAfter(s, step, x) == EntityMoved(LocalOf(s, x), LabelOf(s, step, x))
  {
    TakenIsListed(s.store.delayed, step.at + 1, x);
  }

  lemma ReloadWrites(s: System, step: Step, x: Id)
    requires IsLive(s.store.messages, x) && step.Reload?
    ensures EntityAfter(s, step, x) == EntityMoved(LocalOf(s, x), LabelOf(s, step, x))
  {
    CountMember(Take(SourceList(s.store, step.source)), x);
  }

  lemma RetryWrites(s: System, step: Step, x: Id)
    requires IsLive(s.store.messages, x) && step.FinishRetry?
    ensures EntityAfter(s, step, x) == EntityMoved(LocalOf(s, x), LabelOf(s, step, x))
  {
    QueuedMeansCopies(s.store, TrackOf(s, x), x);
  }

  lemma OtherWrites(s: System, step: Step, x: Id)
    requires IsLive(s.store.messages, x) && !step.ForwardDelayed? && !step.Reload? && !step.FinishRetry?
    ensures EntityAfter(s, step, x) == EntityMoved(LocalOf(s, x), LabelOf(s, step, x))
  {
  }

  lemma WritesAreLocal(s: System, step: Step, x: Id)
    requires IsLive(s.store.messages, x)
    ensures EntityAfter(s, step, x) == EntityMoved(LocalOf(s, x), LabelOf(s, step, x))
  {
    match step
    case ForwardDelayed(_) => ForwardWrites(s, step, x);
    case Reload(_, _) => ReloadWrites(s, step, x);
    case FinishRetry(_, _) => RetryWrites(s, step, x);
    case _ => OtherWrites(s, step, x);
  }

  /** Every step writes exactly that entity, whatever state it starts from. */
  lemma StepWrites(c: Config, s: System, step: Step, x: Id)
    requires Enabled(s, step) && IsLive(s.store.messages, x)
    ensures match EntityAfter(s, step, x)
            case Some(e) => Lookup(Apply(c, s, step).store.messages, x) == Some(Live(e))
            case None => !IsLive(Apply(c, s, step).store.messages, x)
  {
    StepProjects(c, s, step, x);
    StepPossible(s, step, x);
    WritesAreLocal(s, step, x);
    MoveWrites(LocalOf(s, x), LabelOf(s, step, x));
    assert Lookup(Apply(c, s, step).store.messages, x) == LocalOf(Apply(c, s, step), x).record;
  }

  /** A consumer gets the stored entity, its limit as read. */
  lemma LoadReads(c: Config, s: System, k: nat)
    requires k in s.work && IsLive(s.store.messages, s.work[k].id)
    ensures var e, s' := s.store.messages[s.work[k].id].entity, Apply(c, s, Load(k));
            var local := Entity(e.status, e.attempts, LimitRead(e.maxAttempts), e.updatedAt);
            s'.store == s.store && s'.work == s.work[k := s.work[k].(phase := Held(local))]
  {
  }

  /** Without a readable entity: a vanished one is noted, garbage ends the delivery. */
  lemma LoadMisses(c: Config, s: System, k: nat)
    requires k in s.work && !IsLive(s.store.messages, s.work[k].id)
    ensures var s' := Apply(c, s, Load(k));
            && s'.store == s.store
            && s'.work == if s.work[k].id in s.store.messages then s.work - {k}
                          else s.work[k := s.work[k].(phase := Missing)]
  {
  }

  /** A retry counts one more attempt if the limit allows, and reschedules by the sign of the delay. */
  lemma RetryReads(c: Config, s: System, k: nat, delay: int, at: int)
    requires k in s.work && IsLive(s.store.messages, s.work[k].id)
    ensures var e, s' := s.store.messages[s.work[k].id].entity, Apply(c, s, BeginRetry(k, delay, at));
            var raw := Entity(if delay <= 0 then Waiting else Delayed,
                              if e.attempts < LimitRead(e.maxAttempts) then e.attempts + 1 else e.attempts,
                              LimitRead(e.maxAttempts), at);
            && s'.store == s.store
            && s'.work == s.work[k := s.work[k].(phase := Loaded(raw, delay))]
  {
  }
}
