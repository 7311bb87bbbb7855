/**
 * The whole queue as a state machine: producers, consumers, the forwarder and
 * operators interleave freely, one script or one read at a time. A driver method
 * that reads before or after its script is two steps.
 */
module Protocol {
  import opened Messages
  import opened Scripts
  import opened Identity

  datatype Config = Config(channel: string, digest: string -> Id, maxSequence: nat)

  /** How far a delivery, or an operator's retry, has come. */
  datatype Phase =
    | Fresh                              // the pop script has run, the entity is not loaded yet
    | Held(local: Entity)                // the handler works on this copy
    | Missing                            // the load found no entity; the reservation is to be removed
    | Loaded(raw: Entity, delay: int)    // a retry has read the entity and will write `raw`

  /** Work in progress. Only a delivery has a deadline; an operator's retry has none. */
  datatype Work = Work(id: Id, deadline: Option<int>, phase: Phase)

  /** History kept about one message; no step reads it. */
  datatype Track = Track(
    pushed: bool,
    start: Entity,         // the entity as pushed
    delivered: nat,        // claims by the pop script
    canceled: nat,         // successful cancellations
    lateInserts: nat,      // Requeue and Fail commits that found no reservation and enqueued the id
    unmatched: nat,        // commits of any kind that found no reservation
    damaged: bool,         // the entity expired, was deleted or was overwritten from outside
    delays: seq<int>)      // delays of the retries that took effect

  datatype System = System(
    store: Store,
    now: int,
    counter: Counter,
    texts: set<string>,      // every text digested so far, one for each generated id
    drafts: set<Id>,         // generated, not pushed
    work: map<nat, Work>,
    tracks: map<Id, Track>)

  datatype Step =
    | Tick(to: int)
    | Generate
    | Push(id: Id, attempts: int, maxAttempts: int, delay: int, at: int)
    | ForwardDelayed(at: int)
    | ForwardTimeout(at: int)
    | Pop(k: nat, at: int, deadline: int)
    | Load(k: nat)
    | Discard(k: nat)
    | Abandon(k: nat)                              // a crash, or an error that ends the work
    | Commit(k: nat, outcome: Outcome, at: int)
    | BeginRetry(k: nat, delay: int, at: int)
    | BeginOutsideRetry(k: nat, id: Id, delay: int, at: int)
    | FinishRetry(k: nat, at: int)
    | Cancel(id: Id, at: int)
    | Reload(source: Source, at: int)
    | Damage(id: Id, garbled: bool)                // expiry, deletion or overwriting from outside

  const UNSEEN := Track(false, Entity(Waiting, 0, 0, 0), 0, 0, 0, 0, false, [])

  function TrackOf(s: System, id: Id): Track {
    if id in s.tracks then s.tracks[id] else UNSEEN
  }

  predicate Init(s: System) {
    s == System(EMPTY, s.now, Counter(0, 0), {}, {}, map[], map[])
  }

  predicate Enabled(s: System, step: Step) {
    match step
    case Tick(to) => to >= s.now
    case Push(id, _, _, _, _) => id in s.drafts
    case Pop(k, _, _) => k !in s.work
    case Load(k) => k in s.work && s.work[k].phase.Fresh?
    case Discard(k) => k in s.work && s.work[k].phase.Missing?
    case Abandon(k) => k in s.work
    case Commit(k, _, _) => k in s.work && s.work[k].phase.Held?
    case BeginRetry(k, _, _) => k in s.work && s.work[k].phase.Held?
    case BeginOutsideRetry(k, _, _, _) => k !in s.work
    case FinishRetry(k, _) => k in s.work && s.work[k].phase.Loaded?
    case Damage(id, _) => id in s.store.messages
    case _ => true
  }

  // ----- effects -----

  function ApplyGenerate(c: Config, s: System): System {
    var n := Advance(s.counter, c.maxSequence);
    var text := Payload(c.channel, n);
    s.(counter := n, texts := s.texts + {text}, drafts := s.drafts + {c.digest(text)})
  }

  function PushedEntity(attempts: int, maxAttempts: int, delay: int, at: int): Entity {
    Entity(if delay == 0 then Waiting else Delayed, attempts, maxAttempts, at)
  }

  function ApplyPush(s: System, id: Id, e: Entity, delay: int, at: int): System {
    s.(store := Scripts.Push(s.store, id, e, delay == 0, at + delay),
       drafts := s.drafts - {id},
       tracks := s.tracks[id := UNSEEN.(pushed := true, start := e)])
  }

  function ApplyPop(s: System, k: nat, at: int, deadline: int): System {
    var s1 := s.(store := Scripts.Pop(s.store, at, deadline));
    match Scripts.Claimed(s.store)
    case None => s1
    case Some(id) =>
      var t := TrackOf(s, id);
      s1.(work := s.work[k := Work(id, Some(deadline), Fresh)],
          tracks := s.tracks[id := t.(delivered := t.delivered + 1)])
  }

  function ApplyLoad(s: System, k: nat, w: Work): System {
    match Lookup(s.store.messages, w.id)
    case None => s.(work := s.work[k := w.(phase := Missing)])
    case Some(Garbage) => s.(work := s.work - {k})
    case Some(Live(e)) => s.(work := s.work[k := w.(phase := Held(Decoded(e)))])
  }

  function ApplyDiscard(s: System, k: nat, id: Id): System {
    s.(store := s.store.(reserved := s.store.reserved - {id}), work := s.work - {k})
  }

  function NoteCommit(t: Track, matched: bool, inserts: bool): Track {
    if matched then t
    else t.(unmatched := t.unmatched + 1, lateInserts := t.lateInserts + if inserts then 1 else 0)
  }

  function ApplyCommit(s: System, k: nat, id: Id, o: Outcome, at: int): System {
    s.(store := Scripts.Commit(s.store, id, o, at),
       work := s.work - {k},
       tracks := s.tracks[id := NoteCommit(TrackOf(s, id), id in s.store.reserved,
                                           IsLive(s.store.messages, id) && (o.Fail? || o.Requeue?))])
  }

  function ApplyBeginRetry(s: System, k: nat, w: Work, delay: int, at: int): System {
    match Lookup(s.store.messages, w.id)
    case Some(Live(e)) => s.(work := s.work[k := w.(phase := Loaded(Bumped(e, delay, at), delay))])
    case _ => s.(work := s.work - {k})
  }

  function ApplyFinishRetry(s: System, k: nat, id: Id, raw: Entity, delay: int, at: int): System {
    var t := TrackOf(s, id);
    s.(store := Scripts.Retry(s.store, id, raw, delay <= 0, at + delay),
       work := s.work - {k},
       tracks := if !Queued(s.store, id) then s.tracks
                 else s.tracks[id := t.(delays := t.delays + [delay])])
  }

  function ApplyCancel(s: System, id: Id, at: int): System {
    var t := TrackOf(s, id);
    s.(store := Scripts.Cancel(s.store, id, at),
       tracks := if id in s.store.delayed then s.tracks[id := t.(canceled := t.canceled + 1)] else s.tracks)
  }

  function ApplyDamage(s: System, id: Id, garbled: bool): System {
    s.(store := s.store.(messages := if garbled then s.store.messages[id := Garbage] else s.store.messages - {id}),
       tracks := s.tracks[id := TrackOf(s, id).(damaged := true)])
  }

  /** Work that does not exist, which no enabled step refers to. */
  const IDLE := Work("", None, Fresh)

  function WorkAt(s: System, k: nat): Work {
    if k in s.work then s.work[k] else IDLE
  }

  /** The state after a step; meant for enabled steps. */
  function Apply(c: Config, s: System, step: Step): System {
    match step
    case Tick(to) => s.(now := to)
    case Generate => ApplyGenerate(c, s)
    case Push(id, a, m, delay, at) => ApplyPush(s, id, PushedEntity(a, m, delay, at), delay, at)
    case ForwardDelayed(at) => s.(store := Move(s.store, at + 1))
    case ForwardTimeout(at) => s.(store := MoveTimeout(s.store, at))
    case Pop(k, at, deadline) => ApplyPop(s, k, at, deadline)
    case Load(k) => ApplyLoad(s, k, WorkAt(s, k))
    case Discard(k) => ApplyDiscard(s, k, WorkAt(s, k).id)
    case Abandon(k) => s.(work := s.work - {k})
    case Commit(k, o, at) => ApplyCommit(s, k, WorkAt(s, k).id, o, at)
    case BeginRetry(k, delay, at) => ApplyBeginRetry(s, k, WorkAt(s, k), delay, at)
    case BeginOutsideRetry(k, id, delay, at) => ApplyBeginRetry(s, k, Work(id, None, Fresh), delay, at)
    case FinishRetry(k, at) =>
      (match WorkAt(s, k)
       case Work(id, _, Loaded(raw, delay)) => ApplyFinishRetry(s, k, id, raw, delay, at)
       case _ => s)
    case Cancel(id, at) => ApplyCancel(s, id, at)
    case Reload(src, at) => s.(store := Scripts.Reload(s.store, src, at))
    case Damage(id, garbled) => ApplyDamage(s, id, garbled)
  }

  // ----- runs -----

  /** states[i] --steps[i]--> states[i + 1] */
  datatype Run = Run(states: seq<System>, steps: seq<Step>)

  ghost predicate StepAt(c: Config, r: Run, i: nat)
    requires i < |r.steps| < |r.states|
  {
    Enabled(r.states[i], r.steps[i]) && r.states[i + 1] == Apply(c, r.states[i], r.steps[i])
  }

  ghost predicate Leads(c: Config, r: Run) {
    |r.states| == |r.steps| + 1 && forall i :: 0 <= i < |r.steps| ==> StepAt(c, r, i)
  }

  ghost predicate IsRun(c: Config, r: Run) {
    Leads(c, r) && Init(r.states[0])
  }

  /** The step uses the second that the clock shows. */
  predicate ReadsClock(s: System, step: Step) {
    match step
    case Push(_, _, _, _, at) => at == s.now
    case ForwardDelayed(at) => at == s.now
    case ForwardTimeout(at) => at == s.now
    case Pop(_, at, _) => at == s.now
    case Commit(_, _, at) => at == s.now
    case BeginRetry(_, _, at) => at == s.now
    case BeginOutsideRetry(_, _, _, at) => at == s.now
    case FinishRetry(_, at) => at == s.now
    case Cancel(_, at) => at == s.now
    case Reload(_, at) => at == s.now
    case _ => true
  }

  /** A run in which every step reads the clock as it stands. */
  ghost predicate ClockedRun(c: Config, r: Run) {
    IsRun(c, r) && forall i :: 0 <= i < |r.steps| ==> ReadsClock(r.states[i], r.steps[i])
  }

  /** The digest does not collide on the texts that this run digests. */
  ghost predicate CollisionFree(c: Config, r: Run) {
    r.states != [] ==> InjectiveOn(c.digest, r.states[|r.states| - 1].texts)
  }
}
