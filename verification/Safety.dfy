/**
 * What every interleaving keeps: nothing is lost, nothing finishes undelivered,
 * copies and attempts stay bounded, and status agrees with position.
 */
module Safety {
  import opened Messages
  import opened Scripts
  import opened Identity
  import opened Protocol
  import opened Projection

  // ----- what holds of one message -----

  const BLANK := Local(0, None, None, 0, 0, None, UNSEEN)

  function StatusOf(l: Local): Status
    requires Readable(l)
  {
    l.record.value.entity.status
  }

  /** A pushed message whose entity was left alone still has one, and is queued unless it is finished. */
  predicate NotLost(l: Local) {
    l.track.pushed && !l.track.damaged ==> Readable(l) && (Finished(StatusOf(l)) || Copies(l) > 0)
  }

  /** A message leaves the buckets only by being claimed or canceled; finishing needs a claim. */
  predicate Accounted(l: Local) {
    && (l.track.pushed && !l.track.damaged ==> Copies(l) > 0 || l.track.canceled > 0 || l.track.delivered > 0)
    && (Readable(l) && (StatusOf(l) == Done || StatusOf(l) == Dropped) ==> l.track.delivered > 0)
    && (Readable(l) && StatusOf(l) == Canceled ==> l.track.canceled > 0)
  }

  predicate FewCopies(l: Local) {
    Copies(l) <= 1 + l.track.lateInserts && l.track.lateInserts <= l.track.unmatched
  }

  function AttemptsCap(start: Entity): int {
    if RetryLimit(start.maxAttempts) < start.attempts then start.attempts else RetryLimit(start.maxAttempts)
  }

  predicate WithinCap(start: Entity, e: Entity) {
    && start.attempts <= e.attempts <= AttemptsCap(start)
    && (e.maxAttempts == start.maxAttempts || (start.maxAttempts <= 0 && e.maxAttempts == 1))
  }

  predicate AttemptsBounded(l: Local) {
    Readable(l) ==> WithinCap(l.track.start, l.record.value.entity)
  }

  /** The statuses the position allows. */
  predicate StatusFits(l: Local)
    requires Readable(l)
  {
    && (l.waiting > 0 ==> StatusOf(l) == Waiting)
    && (l.delayed.Some? ==> StatusOf(l) == Delayed)
    && (l.reserved.Some? ==> StatusOf(l) == Reserved)
    && (l.timeout > 0 ==> StatusOf(l) == Reserved)
    && (l.failed > 0 ==> StatusOf(l) == Failed)
  }

  predicate StatusAgrees(l: Local) {
    l.track.unmatched == 0 && Readable(l) ==> StatusFits(l)
  }

  predicate SafeLocal(l: Local) {
    && (!l.track.pushed ==> l == BLANK)
    && NotLost(l) && Accounted(l) && FewCopies(l) && AttemptsBounded(l) && StatusAgrees(l)
  }

  // ----- what holds of work in progress -----

  predicate RawFits(start: Entity, raw: Entity, delay: int) {
    raw.status == (if delay <= 0 then Waiting else Delayed) && WithinCap(start, raw)
  }

  predicate WorkFits(w: Work, t: Track) {
    && t.pushed
    && (w.deadline.Some? ==> t.delivered > 0)
    && (!w.phase.Loaded? ==> w.deadline.Some?)
    && (w.phase.Missing? ==> t.damaged)
    && (w.phase.Loaded? ==> RawFits(t.start, w.phase.raw, w.phase.delay))
  }

  /** The text belongs to a counter value that is not ahead of `upTo`. */
  ghost predicate Composed(c: Config, upTo: Counter, text: string) {
    exists n :: !Before(upTo, n) && text == Payload(c.channel, n)
  }

  /** The id is the digest of one of the texts. */
  ghost predicate Issued(c: Config, texts: set<string>, id: Id) {
    exists text :: text in texts && c.digest(text) == id
  }

  ghost predicate IdsSound(c: Config, s: System) {
    && (forall text :: text in s.texts ==> Composed(c, s.counter, text))
    && (forall id :: id in s.drafts ==> Issued(c, s.texts, id))
    && (forall x :: x in s.tracks && s.tracks[x].pushed ==> Issued(c, s.texts, x) && x !in s.drafts)
  }

  ghost predicate WorkSound(s: System) {
    forall k :: k in s.work ==> WorkFits(s.work[k], TrackOf(s, s.work[k].id))
  }

  ghost predicate MessagesSafe(s: System) {
    forall x :: SafeLocal(LocalOf(s, x))
  }

  ghost predicate Inv(c: Config, s: System) {
    IdsSound(c, s) && WorkSound(s) && MessagesSafe(s)
  }

  // ----- one local move -----

  /** What the rest of the system guarantees when a move happens. */
  predicate Backed(l: Local, tag: Label) {
    match tag
    case Pushed(e, delay, _) => !l.track.pushed && e.status == if delay == 0 then Waiting else Delayed
    case Committed(_, _) => l.track.pushed && l.track.delivered > 0
    case Discarded => l.track.damaged
    case Retried(raw, delay, _) => l.track.pushed && RawFits(l.track.start, raw, delay)
    case _ => true
  }

  predicate Allowed(l: Local, tag: Label) {
    (!l.track.pushed ==> l == BLANK) && Possible(l, tag) && Backed(l, tag)
  }

  predicate CanMove(l: Local, tag: Label) {
    SafeLocal(l) && Allowed(l, tag)
  }

  lemma MoveKeepsBlank(l: Local, tag: Label)
    requires CanMove(l, tag)
    ensures !MoveLocal(tag, l).track.pushed ==> MoveLocal(tag, l) == BLANK
  {
  }

  lemma MoveKeepsMessage(l: Local, tag: Label)
    requires Allowed(l, tag) && NotLost(l) && Accounted(l)
    ensures NotLost(MoveLocal(tag, l)) && Accounted(MoveLocal(tag, l))
  {
  }

  lemma RetryKeepsCopies(l: Local, raw: Entity, delay: int, at: int)
    requires FewCopies(l)
    ensures FewCopies(RetryMove(l, raw, delay, at))
  {
  }

  lemma ReloadKeepsCopies(l: Local, src: Source, n: nat, at: int)
    requires FewCopies(l) && Possible(l, Reloaded(src, n, at))
    ensures FewCopies(ReloadMove(l, src, n, at))
  {
  }

  lemma MoveKeepsCopies(l: Local, tag: Label)
    requires Allowed(l, tag) && FewCopies(l)
    ensures FewCopies(MoveLocal(tag, l))
  {
    match tag
    case Retried(raw, delay, at) => RetryKeepsCopies(l, raw, delay, at);
    case Reloaded(src, n, at) => ReloadKeepsCopies(l, src, n, at);
    case _ =>
  }

  lemma MoveKeepsAttempts(l: Local, tag: Label)
    requires Allowed(l, tag) && AttemptsBounded(l)
    ensures AttemptsBounded(MoveLocal(tag, l))
  {
  }

  lemma MoveKeepsStatus(l: Local, tag: Label)
    requires Allowed(l, tag) && NotLost(l) && FewCopies(l) && StatusAgrees(l)
    ensures StatusAgrees(MoveLocal(tag, l))
  {
  }

  lemma MoveKeepsSafe(l: Local, tag: Label)
    requires CanMove(l, tag)
    ensures SafeLocal(MoveLocal(tag, l))
  {
    MoveKeepsBlank(l, tag);
    MoveKeepsMessage(l, tag);
    MoveKeepsCopies(l, tag);
    MoveKeepsAttempts(l, tag);
    MoveKeepsStatus(l, tag);
  }

  /** History only grows. */
  predicate Grows(t: Track, t': Track) {
    && (t.pushed ==> t'.pushed && t'.start == t.start)
    && t.delivered <= t'.delivered && t.canceled <= t'.canceled
    && t.lateInserts <= t'.lateInserts && t.unmatched <= t'.unmatched
    && (t.damaged ==> t'.damaged)
    && |t.delays| <= |t'.delays|
  }

  lemma MoveGrows(l: Local, tag: Label)
    requires CanMove(l, tag)
    ensures Grows(l.track, MoveLocal(tag, l).track)
  {
  }

  // ----- one step -----

  lemma StepBacked(c: Config, s: System, step: Step, x: Id)
    requires Inv(c, s) && Enabled(s, step)
    ensures Backed(LocalOf(s, x), LabelOf(s, step, x))
  {
    assert SafeLocal(LocalOf(s, x));
    match step
    case Push(id, _, _, _, _) =>
    case Discard(k) => assert WorkFits(s.work[k], TrackOf(s, s.work[k].id));
    case Commit(k, _, _) => assert WorkFits(s.work[k], TrackOf(s, s.work[k].id));
    case FinishRetry(k, _) => assert WorkFits(s.work[k], TrackOf(s, s.work[k].id));
    case _ =>
  }

  lemma StepKeepsMessage(c: Config, s: System, step: Step, x: Id)
    requires Inv(c, s) && Enabled(s, step)
    ensures var l, l' := LocalOf(s, x), LocalOf(Apply(c, s, step), x);
            && CanMove(l, LabelOf(s, step, x))
            && l' == MoveLocal(LabelOf(s, step, x), l)
            && SafeLocal(l') && Grows(l.track, l'.track)
  {
    StepProjects(c, s, step, x);
    StepPossible(s, step, x);
    StepBacked(c, s, step, x);
    MoveKeepsSafe(LocalOf(s, x), LabelOf(s, step, x));
    MoveGrows(LocalOf(s, x), LabelOf(s, step, x));
  }

  /** Where a piece of work after the step comes from. */
  predicate WorkOrigin(s: System, step: Step, k: nat, w: Work) {
    || (k in s.work && w == s.work[k])
    || (step.Pop? && step.k == k && Claimed(s.store).Some?
        && w == Work(Claimed(s.store).value, Some(step.deadline), Fresh))
    || (step.Load? && step.k == k && k in s.work && w.id == s.work[k].id && w.deadline == s.work[k].deadline
        && match Lookup(s.store.messages, w.id)
           case None => w.phase == Missing
           case Some(Garbage) => false
           case Some(Live(e)) => w.phase == Held(Decoded(e)))
    || ((step.BeginRetry? || step.BeginOutsideRetry?) && step.k == k && IsLive(s.store.messages, w.id)
        && w.phase == Loaded(Bumped(s.store.messages[w.id].entity, step.delay, step.at), step.delay)
        && (if step.BeginRetry? then k in s.work && w.id == s.work[k].id && w.deadline == s.work[k].deadline
            else w.id == step.id && w.deadline == None))
  }

  /** Steps that finish a piece of work by a script on its message's reservation. */
  predicate Ends(step: Step) {
    step.Commit? || step.FinishRetry? || step.Discard?
  }

  lemma StepWork(c: Config, s: System, step: Step, k: nat)
    requires Enabled(s, step) && k in Apply(c, s, step).work
    ensures WorkOrigin(s, step, k, Apply(c, s, step).work[k])
    ensures Ends(step) ==> k != step.k
  {
  }

  lemma StepKeepsWork(c: Config, s: System, step: Step)
    requires Inv(c, s) && Enabled(s, step)
    ensures WorkSound(Apply(c, s, step))
  {
    var s' := Apply(c, s, step);
    forall k | k in s'.work ensures WorkFits(s'.work[k], TrackOf(s', s'.work[k].id)) {
      StepWork(c, s, step, k);
      var x := s'.work[k].id;
      StepKeepsMessage(c, s, step, x);
      OriginFits(s, step, k, s'.work[k], TrackOf(s', x));
    }
  }

  lemma OriginFits(s: System, step: Step, k: nat, w: Work, t': Track)
    requires WorkSound(s) && Enabled(s, step) && WorkOrigin(s, step, k, w)
    requires SafeLocal(LocalOf(s, w.id)) && Grows(TrackOf(s, w.id), t')
    requires step.Pop? && Claimed(s.store) == Some(w.id) ==> t'.delivered > 0
    ensures WorkFits(w, t')
  {
  }

  /** The next id was never issued before, unless its text collides with an earlier one. */
  lemma FreshId(c: Config, s: System)
    requires IdsSound(c, s)
    requires InjectiveOn(c.digest, s.texts + {Payload(c.channel, Advance(s.counter, c.maxSequence))})
    ensures !Issued(c, s.texts, c.digest(Payload(c.channel, Advance(s.counter, c.maxSequence))))
  {
    var next := Advance(s.counter, c.maxSequence);
    if Issued(c, s.texts, c.digest(Payload(c.channel, next))) {
      var text :| text in s.texts && c.digest(text) == c.digest(Payload(c.channel, next));
      assert Composed(c, s.counter, text);
      var n :| !Before(s.counter, n) && text == Payload(c.channel, n);
      PayloadInjective(c.channel, n, c.channel, next);
      assert false;
    }
  }

  lemma GenerateKeepsTexts(c: Config, s: System, text: string)
    requires IdsSound(c, s) && text in ApplyGenerate(c, s).texts
    ensures Composed(c, ApplyGenerate(c, s).counter, text)
  {
    var next := Advance(s.counter, c.maxSequence);
    if text in s.texts {
      assert Composed(c, s.counter, text);
      var n :| !Before(s.counter, n) && text == Payload(c.channel, n);
      assert !Before(next, n);
    } else {
      assert !Before(next, next);
    }
  }

  lemma StepIds(c: Config, s: System, step: Step)
    requires !step.Generate?
    ensures var s' := Apply(c, s, step);
            && s'.counter == s.counter && s'.texts == s.texts
            && s'.drafts == if step.Push? then s.drafts - {step.id} else s.drafts
  {
  }

  lemma StepTexts(c: Config, s: System, step: Step)
    ensures s.texts <= Apply(c, s, step).texts
  {
    if !step.Generate? {
      StepIds(c, s, step);
    }
  }

  lemma MoreTexts(c: Config, a: set<string>, b: set<string>, id: Id)
    requires a <= b && Issued(c, a, id)
    ensures Issued(c, b, id)
  {
    var text :| text in a && c.digest(text) == id;
    assert text in b;
  }

  /** Only a push makes a message pushed. */
  lemma StepPushes(c: Config, s: System, step: Step, x: Id)
    requires Inv(c, s) && Enabled(s, step)
    ensures TrackOf(Apply(c, s, step), x).pushed ==> TrackOf(s, x).pushed || (step.Push? && step.id == x)
  {
    StepKeepsMessage(c, s, step, x);
  }

  lemma GenerateKeepsIds(c: Config, s: System)
    requires IdsSound(c, s) && InjectiveOn(c.digest, ApplyGenerate(c, s).texts)
    ensures IdsSound(c, ApplyGenerate(c, s))
  {
    var s' := ApplyGenerate(c, s);
    FreshId(c, s);
    forall text | text in s'.texts ensures Composed(c, s'.counter, text) { GenerateKeepsTexts(c, s, text); }
    forall id | Issued(c, s.texts, id) ensures Issued(c, s'.texts, id) { MoreTexts(c, s.texts, s'.texts, id); }
    assert Payload(c.channel, s'.counter) in s'.texts;
  }

  lemma StepKeepsIds(c: Config, s: System, step: Step)
    requires Inv(c, s) && Enabled(s, step) && InjectiveOn(c.digest, Apply(c, s, step).texts)
    ensures IdsSound(c, Apply(c, s, step))
  {
    var s' := Apply(c, s, step);
    if step.Generate? {
      GenerateKeepsIds(c, s);
    } else {
      StepIds(c, s, step);
      forall x | x in s'.tracks && s'.tracks[x].pushed ensures Issued(c, s'.texts, x) && x !in s'.drafts {
        StepPushes(c, s, step, x);
      }
    }
  }

  lemma StepKeepsInv(c: Config, s: System, step: Step)
    requires Inv(c, s) && Enabled(s, step) && InjectiveOn(c.digest, Apply(c, s, step).texts)
    ensures Inv(c, Apply(c, s, step))
  {
    StepKeepsIds(c, s, step);
    StepKeepsWork(c, s, step);
    forall x ensures SafeLocal(LocalOf(Apply(c, s, step), x)) {
      StepKeepsMessage(c, s, step, x);
    }
  }
}
