/**
 * What one step of the queue means to one message. Every step of the machine
 * moves each message by exactly one local move, and the moves depend on nothing
 * but that message's own buckets, entity and history.
 */
module Projection {
  import opened Messages
  import opened Lists
  import opened SortedSets
  import opened Scripts
  import opened Protocol

  /** One message: how often it is in each bucket, its record, its history. */
  datatype Local = Local(
    waiting: nat, delayed: Option<int>, reserved: Option<int>, timeout: nat, failed: nat,
    record: Option<Record>,
    track: Track)

  datatype Label =
    | Untouched
    | Pushed(e: Entity, delay: int, at: int)
    | Released(at: int)                          // delayed -> waiting
    | Expired                                    // reserved -> timeout
    | Claim(at: int, deadline: int)              // waiting -> reserved
    | Purged(n: nat)                             // dead copies thrown out of waiting
    | Committed(outcome: Outcome, at: int)
    | Discarded
    | Retried(raw: Entity, delay: int, at: int)
    | Cancelled(at: int)
    | Reloaded(source: Source, n: nat, at: int)  // n copies taken from a source list
    | Damaged(garbled: bool)

  function Score(z: map<Id, int>, x: Id): Option<int> {
    if x in z then Some(z[x]) else None
  }

  ghost function LocalIn(s: Store, t: Track, x: Id): Local {
    Local(Count(s.waiting, x), Score(s.delayed, x), Score(s.reserved, x),
          Count(s.timeout, x), Count(s.failed, x), Lookup(s.messages, x), t)
  }

  ghost function LocalOf(s: System, x: Id): Local {
    LocalIn(s.store, TrackOf(s, x), x)
  }

  predicate Readable(l: Local) {
    l.record.Some? && l.record.value.Live?
  }

  /** The number of buckets entries that name the message. */
  function Copies(l: Local): nat {
    l.waiting + l.timeout + l.failed
    + (if l.delayed.Some? then 1 else 0) + (if l.reserved.Some? then 1 else 0)
  }

  // ----- local moves -----

  function Restatus(l: Local, status: Status, at: int): Local {
    if Readable(l) then l.(record := Some(Live(Stamp(l.record.value.entity, status, at)))) else l
  }

  function Enqueue(l: Local, toWaiting: bool, score: int): Local {
    if toWaiting then l.(waiting := l.waiting + 1) else l.(delayed := Some(score))
  }

  function Minus(a: nat, b: nat): nat {
    if a < b then 0 else a - b
  }

  function ReleaseMove(l: Local, at: int): Local {
    var out := l.(delayed := None);
    if l.record.None? then out.(waiting := 0)
    else if Readable(l) then Restatus(out.(waiting := l.waiting + 1), Waiting, at + 1)
    else out.(record := None)
  }

  function CommitMove(l: Local, o: Outcome, at: int): Local {
    var out := l.(reserved := None,
                  track := NoteCommit(l.track, l.reserved.Some?, Readable(l) && (o.Fail? || o.Requeue?)));
    if !Readable(l) then out
    else
      var stamped := Restatus(out, FinalStatus(o), at);
      match o
      case Ack => stamped
      case Drop => stamped
      case Fail => stamped.(failed := l.failed + 1)
      case Requeue => stamped.(waiting := l.waiting + 1)
  }

  function RetryMove(l: Local, raw: Entity, delay: int, at: int): Local {
    if Copies(l) == 0 then l
    else
      var noted := l.(track := l.track.(delays := l.track.delays + [delay]),
                      record := Some(Live(raw)));
      var out := if l.reserved.Some? then noted.(reserved := None)
                 else noted.(waiting := 0, delayed := None, timeout := 0, failed := 0);
      Enqueue(out, delay <= 0, at + delay)
  }

  function CancelMove(l: Local, at: int): Local {
    if l.delayed.None? then l
    else
      var out := l.(delayed := None, track := l.track.(canceled := l.track.canceled + 1));
      if Readable(l) then Restatus(out, Canceled, at) else out.(record := None)
  }

  predicate Reloadable(l: Local, src: Source) {
    Readable(l) && !(src.TimeoutList? && Finished(l.record.value.entity.status))
  }

  function ReloadMove(l: Local, src: Source, n: nat, at: int): Local {
    var out := match src
               case TimeoutList => l.(timeout := Minus(l.timeout, n))
               case FailedList => l.(failed := Minus(l.failed, n));
    if Reloadable(l, src) then Restatus(out.(waiting := l.waiting + n), Waiting, at)
    else out.(waiting := 0)
  }

  function MoveLocal(tag: Label, l: Local): Local {
    match tag
    case Untouched => l
    case Pushed(e, delay, at) =>
      Enqueue(l.(record := Some(Live(e)), track := UNSEEN.(pushed := true, start := e)),
              delay == 0, at + delay)
    case Released(at) => ReleaseMove(l, at)
    case Expired => l.(reserved := None, timeout := l.timeout + if l.record.Some? then 1 else 0)
    case Claim(at, deadline) =>
      Restatus(l.(waiting := Minus(l.waiting, 1), reserved := Some(deadline),
                  track := l.track.(delivered := l.track.delivered + 1)), Reserved, at)
    case Purged(n) => l.(waiting := Minus(l.waiting, n), record := None)
    case Committed(o, at) => CommitMove(l, o, at)
    case Discarded => l.(reserved := None)
    case Retried(raw, delay, at) => RetryMove(l, raw, delay, at)
    case Cancelled(at) => CancelMove(l, at)
    case Reloaded(src, n, at) => ReloadMove(l, src, n, at)
    case Damaged(garbled) =>
      l.(record := if garbled then Some(Garbage) else None, track := l.track.(damaged := true))
  }

  // ----- which move a step is -----

  ghost function ReleaseLabel(s: Store, at: int, x: Id): Label {
    if x in FirstDue(s.delayed, at + 1) then Released(at) else Untouched
  }

  ghost function ExpiryLabel(s: Store, at: int, x: Id): Label {
    if x in FirstDue(s.reserved, at) then Expired else Untouched
  }

  ghost function PopLabel(s: Store, at: int, deadline: int, x: Id): Label {
    var n := Count(s.waiting[..FirstLive(s.waiting, s.messages)], x);
    if Claimed(s) == Some(x) then Claim(at, deadline)
    else if n > 0 then Purged(n)
    else Untouched
  }

  ghost function ReloadLabel(s: Store, src: Source, at: int, x: Id): Label {
    var n := Count(Take(SourceList(s, src)), x);
    if n > 0 then Reloaded(src, n, at) else Untouched
  }

  function RetryLabel(w: Work, at: int, x: Id): Label {
    match w
    case Work(id, _, Loaded(raw, delay)) => if id == x then Retried(raw, delay, at) else Untouched
    case _ => Untouched
  }

  /** The local move that `step` makes for message `x`. */
  ghost function LabelOf(s: System, step: Step, x: Id): Label {
    match step
    case Push(id, a, m, delay, at) => if id == x then Pushed(PushedEntity(a, m, delay, at), delay, at) else Untouched
    case ForwardDelayed(at) => ReleaseLabel(s.store, at, x)
    case ForwardTimeout(at) => ExpiryLabel(s.store, at, x)
    case Pop(_, at, deadline) => PopLabel(s.store, at, deadline, x)
    case Discard(k) => if WorkAt(s, k).id == x then Discarded else Untouched
    case Commit(k, o, at) => if WorkAt(s, k).id == x then Committed(o, at) else Untouched
    case FinishRetry(k, at) => RetryLabel(WorkAt(s, k), at, x)
    case Cancel(id, at) => if id == x then Cancelled(at) else Untouched
    case Reload(src, at) => ReloadLabel(s.store, src, at, x)
    case Damage(id, garbled) => if id == x then Damaged(garbled) else Untouched
    case _ => Untouched
  }

  /** From s to s' message `x` makes the move named by `tag`. */
  ghost predicate Moves(s: System, s': System, tag: Label, x: Id) {
    LocalOf(s', x) == MoveLocal(tag, LocalOf(s, x))
  }

  // ----- script by script -----

  lemma CountSnoc(s: seq<Id>, id: Id, x: Id)
    ensures Count(s + [id], x) == Count(s, x) + if id == x then 1 else 0
  {
  }

  lemma MoveCounts(w: seq<Id>, ids: seq<Id>, m: map<Id, Record>, x: Id)
    requires Distinct(ids)
    ensures Count(MovedInto(w, ids, m), x)
         == if x !in ids then Count(w, x)
            else if x !in m then 0
            else if m[x].Live? then Count(w, x) + 1
            else Count(w, x)
  {
    var gone, dead := Unstored(ids, m), Undecodable(ids, m);
    WithoutCount(w, gone, x);
    WithoutCount(ids, dead, x);
    CountDistinct(ids, x);
    assert Count(Without(w, gone) + Without(ids, dead), x) == Count(Without(w, gone), x) + Count(Without(ids, dead), x);
  }

  lemma ReleaseHere(s: Store, ids: seq<Id>, at: int, t: Track, x: Id)
    requires Distinct(ids) && x in ids
    ensures LocalIn(MoveIds(s, ids, at + 1), t, x) == ReleaseMove(LocalIn(s, t, x), at)
  {
    MoveCounts(s.waiting, ids, s.messages, x);
  }

  lemma ReleaseElsewhere(s: Store, ids: seq<Id>, at: int, t: Track, x: Id)
    requires Distinct(ids) && x !in ids
    ensures LocalIn(MoveIds(s, ids, at), t, x) == LocalIn(s, t, x)
  {
    MoveCounts(s.waiting, ids, s.messages, x);
  }

  lemma MoveProjects(s: Store, at: int, t: Track, x: Id)
    ensures LocalIn(Move(s, at + 1), t, x) == MoveLocal(ReleaseLabel(s, at, x), LocalIn(s, t, x))
  {
    var ids := FirstDue(s.delayed, at + 1);
    FirstDueFacts(s.delayed, at + 1);
    if x in ids {
      ReleaseHere(s, ids, at, t, x);
    } else {
      ReleaseElsewhere(s, ids, at + 1, t, x);
    }
  }

  lemma ExpireProjects(s: Store, ids: seq<Id>, t: Track, x: Id)
    requires Distinct(ids)
    ensures LocalIn(ExpireIds(s, ids), t, x)
         == MoveLocal(if x in ids then Expired else Untouched, LocalIn(s, t, x))
  {
    var kept := Without(ids, Unstored(ids, s.messages));
    WithoutCount(ids, Unstored(ids, s.messages), x);
    CountDistinct(ids, x);
    assert Count(s.timeout + kept, x) == Count(s.timeout, x) + Count(kept, x);
  }

  lemma MoveTimeoutProjects(s: Store, at: int, t: Track, x: Id)
    ensures LocalIn(MoveTimeout(s, at), t, x) == MoveLocal(ExpiryLabel(s, at, x), LocalIn(s, t, x))
  {
    FirstDueFacts(s.reserved, at);
    ExpireProjects(s, FirstDue(s.reserved, at), t, x);
  }

  lemma CountAround(w: seq<Id>, i: nat, x: Id)
    requires i < |w|
    ensures Count(w, x) == Count(w[..i], x) + (if w[i] == x then 1 else 0) + Count(w[i + 1..], x)
  {
    CountSplit(w, i, x);
    assert w[i..] == [w[i]] + w[i + 1..];
  }

  lemma PopHere(s: Store, at: int, deadline: int, t: Track, t': Track, x: Id)
    requires Claimed(s) == Some(x)
    requires t' == t.(delivered := t.delivered + 1)
    ensures LocalIn(Scripts.Pop(s, at, deadline), t', x) == MoveLocal(Claim(at, deadline), LocalIn(s, t, x))
  {
    var i, s' := FirstLive(s.waiting, s.messages), Scripts.Pop(s, at, deadline);
    CountAround(s.waiting, i, x);
    CountMember(s.waiting[..i], x);
    assert s'.waiting == s.waiting[i + 1..];
    assert Lookup(s'.messages, x) == Some(Live(Stamp(s.messages[x].entity, Reserved, at)));
  }

  /** A pop that claims another id takes only dead copies of `x` out of waiting. */
  lemma PopElsewhereCounts(s: Store, at: int, deadline: int, x: Id)
    requires Claimed(s) != Some(x)
    ensures Count(s.waiting, x)
         == Count(s.waiting[..FirstLive(s.waiting, s.messages)], x) + Count(Scripts.Pop(s, at, deadline).waiting, x)
  {
    var i := FirstLive(s.waiting, s.messages);
    if i < |s.waiting| {
      CountAround(s.waiting, i, x);
    } else {
      assert s.waiting[..i] == s.waiting;
    }
  }

  lemma PopElsewhere(s: Store, at: int, deadline: int, t: Track, x: Id)
    requires Claimed(s) != Some(x)
    ensures LocalIn(Scripts.Pop(s, at, deadline), t, x)
         == MoveLocal(PopLabel(s, at, deadline, x), LocalIn(s, t, x))
  {
    var dead := s.waiting[..FirstLive(s.waiting, s.messages)];
    PopElsewhereCounts(s, at, deadline, x);
    CountMember(dead, x);
    assert Lookup(Scripts.Pop(s, at, deadline).messages, x) == if x in dead then None else Lookup(s.messages, x);
  }

  lemma PushProjects(s: System, id: Id, e: Entity, delay: int, at: int, x: Id)
    ensures Moves(s, ApplyPush(s, id, e, delay, at), if id == x then Pushed(e, delay, at) else Untouched, x)
  {
    CountSnoc(s.store.waiting, id, x);
  }

  lemma CommitHere(s: Store, id: Id, o: Outcome, at: int, t: Track, t': Track)
    requires t' == NoteCommit(t, id in s.reserved, IsLive(s.messages, id) && (o.Fail? || o.Requeue?))
    ensures LocalIn(Scripts.Commit(s, id, o, at), t', id) == CommitMove(LocalIn(s, t, id), o, at)
  {
    CountSnoc(s.failed, id, id);
    CountSnoc(s.waiting, id, id);
  }

  lemma CommitElsewhere(s: Store, id: Id, o: Outcome, at: int, t: Track, x: Id)
    requires id != x
    ensures LocalIn(Scripts.Commit(s, id, o, at), t, x) == LocalIn(s, t, x)
  {
    CountSnoc(s.failed, id, x);
    CountSnoc(s.waiting, id, x);
  }

  lemma PlaceElsewhere(s: Store, id: Id, toWaiting: bool, score: int, t: Track, x: Id)
    requires x != id
    ensures LocalIn(Place(s, id, toWaiting, score), t, x) == LocalIn(s, t, x)
  {
    CountSnoc(s.waiting, id, x);
  }

  lemma PurgeElsewhere(s: Store, id: Id, raw: Entity, t: Track, x: Id)
    requires x != id
    ensures var s' := s.(waiting := Without(s.waiting, {id}), delayed := s.delayed - {id},
                         timeout := Without(s.timeout, {id}), failed := Without(s.failed, {id}),
                         messages := s.messages[id := Live(raw)]);
            LocalIn(s', t, x) == LocalIn(s, t, x)
  {
    WithoutCount(s.waiting, {id}, x);
    WithoutCount(s.timeout, {id}, x);
    WithoutCount(s.failed, {id}, x);
  }

  /** A retry leaves other ids alone. */
  lemma RetryElsewhere(s: Store, id: Id, raw: Entity, toWaiting: bool, score: int, t: Track, x: Id)
    requires x != id
    ensures LocalIn(Scripts.Retry(s, id, raw, toWaiting, score), t, x) == LocalIn(s, t, x)
  {
    if id in s.reserved {
      var s1 := s.(reserved := s.reserved - {id}, messages := s.messages[id := Live(raw)]);
      PlaceElsewhere(s1, id, toWaiting, score, t, x);
    } else if Queued(s, id) {
      var s1 := s.(waiting := Without(s.waiting, {id}), delayed := s.delayed - {id},
                   timeout := Without(s.timeout, {id}), failed := Without(s.failed, {id}),
                   messages := s.messages[id := Live(raw)]);
      PurgeElsewhere(s, id, raw, t, x);
      PlaceElsewhere(s1, id, toWaiting, score, t, x);
    }
  }

  lemma QueuedMeansCopies(s: Store, t: Track, id: Id)
    ensures Queued(s, id) <==> Copies(LocalIn(s, t, id)) > 0
  {
    CountMember(s.waiting, id);
    CountMember(s.timeout, id);
    CountMember(s.failed, id);
  }

  lemma RetryHere(s: Store, id: Id, raw: Entity, delay: int, at: int, t: Track, t': Track)
    requires t' == if Queued(s, id) then t.(delays := t.delays + [delay]) else t
    ensures LocalIn(Scripts.Retry(s, id, raw, delay <= 0, at + delay), t', id)
         == RetryMove(LocalIn(s, t, id), raw, delay, at)
  {
    QueuedMeansCopies(s, t, id);
    if id in s.reserved {
      CountSnoc(s.waiting, id, id);
    } else if Queued(s, id) {
      WithoutCount(s.waiting, {id}, id);
      WithoutCount(s.timeout, {id}, id);
      WithoutCount(s.failed, {id}, id);
      CountSnoc(Without(s.waiting, {id}), id, id);
    }
  }

  lemma FinishRetryProjects(s: System, k: nat, id: Id, raw: Entity, delay: int, at: int, x: Id)
    ensures Moves(s, ApplyFinishRetry(s, k, id, raw, delay, at),
                  if id == x then Retried(raw, delay, at) else Untouched, x)
  {
    var s' := ApplyFinishRetry(s, k, id, raw, delay, at);
    assert s'.store == Scripts.Retry(s.store, id, raw, delay <= 0, at + delay);
    assert TrackOf(s', x)
        == var t := TrackOf(s, x); if id == x && Queued(s.store, x) then t.(delays := t.delays + [delay]) else t;
    if id == x {
      RetryHere(s.store, x, raw, delay, at, TrackOf(s, x), TrackOf(s', x));
    } else {
      RetryElsewhere(s.store, id, raw, delay <= 0, at + delay, TrackOf(s, x), x);
    }
  }

  lemma ReloadHere(s: Store, src: Source, n: nat, at: int, t: Track, x: Id)
    requires n <= |SourceList(s, src)| && x in SourceList(s, src)[..n]
    ensures LocalIn(ReloadFirst(s, src, n, at), t, x)
         == ReloadMove(LocalIn(s, t, x), src, Count(SourceList(s, src)[..n], x), at)
  {
    var all, m := SourceList(s, src), s.messages;
    CountSplit(all, n, x);
    ReloadCounts(s.waiting, all[..n], m, src, x);
    match src
    case TimeoutList => assert ReloadFirst(s, src, n, at).timeout == all[n..];
    case FailedList => assert ReloadFirst(s, src, n, at).failed == all[n..];
  }

  lemma ReloadElsewhere(s: Store, src: Source, n: nat, at: int, t: Track, x: Id)
    requires n <= |SourceList(s, src)| && x !in SourceList(s, src)[..n]
    ensures LocalIn(ReloadFirst(s, src, n, at), t, x) == LocalIn(s, t, x)
  {
    var all, m := SourceList(s, src), s.messages;
    CountSplit(all, n, x);
    CountMember(all[..n], x);
    ReloadCounts(s.waiting, all[..n], m, src, x);
    match src
    case TimeoutList => assert ReloadFirst(s, src, n, at).timeout == all[n..];
    case FailedList => assert ReloadFirst(s, src, n, at).failed == all[n..];
  }

  lemma ReloadProjects(s: Store, src: Source, at: int, t: Track, x: Id)
    ensures LocalIn(Scripts.Reload(s, src, at), t, x) == MoveLocal(ReloadLabel(s, src, at, x), LocalIn(s, t, x))
  {
    var all := SourceList(s, src);
    var n := RoundSize(all);
    assert all[..n] == Take(all);
    CountMember(all[..n], x);
    assert Scripts.Reload(s, src, at) == ReloadFirst(s, src, n, at);
    if x in all[..n] {
      ReloadHere(s, src, n, at, t, x);
    } else {
      ReloadElsewhere(s, src, n, at, t, x);
    }
  }

  lemma ReloadCounts(w: seq<Id>, ids: seq<Id>, m: map<Id, Record>, src: Source, x: Id)
    ensures Count(ReloadedInto(w, ids, m, src), x)
         == if x !in ids then Count(w, x)
            else if Accepts(m, src, x) then Count(w, x) + Count(ids, x)
            else 0
  {
    var no := Rejected(ids, m, src);
    WithoutCount(w, no, x);
    WithoutCount(ids, no, x);
    CountMember(ids, x);
    assert Count(Without(w, no) + Without(ids, no), x) == Count(Without(w, no), x) + Count(Without(ids, no), x);
  }

  lemma CancelProjects(s: System, id: Id, at: int, x: Id)
    ensures Moves(s, ApplyCancel(s, id, at), if id == x then Cancelled(at) else Untouched, x)
  {
  }

  /** Steps that change neither the store nor the history. */
  predicate Silent(step: Step) {
    step.Tick? || step.Generate? || step.Load? || step.Abandon? || step.BeginRetry? || step.BeginOutsideRetry?
  }

  ghost predicate Projects(c: Config, s: System, step: Step, x: Id) {
    Moves(s, Apply(c, s, step), LabelOf(s, step, x), x)
  }

  lemma OnPush(c: Config, s: System, id: Id, a: int, m: int, delay: int, at: int, x: Id)
    ensures Projects(c, s, Push(id, a, m, delay, at), x)
  {
    PushProjects(s, id, PushedEntity(a, m, delay, at), delay, at, x);
  }

  /** A step that changes nothing but the store moves a message as the new store says. */
  lemma StoreMoves(s: System, after: Store, tag: Label, x: Id)
    requires LocalIn(after, TrackOf(s, x), x) == MoveLocal(tag, LocalOf(s, x))
    ensures Moves(s, s.(store := after), tag, x)
  {
  }

  lemma OnForwardDelayed(c: Config, s: System, at: int, x: Id)
    ensures Projects(c, s, ForwardDelayed(at), x)
  {
    var step := ForwardDelayed(at);
    assert Apply(c, s, step) == s.(store := Move(s.store, at + 1));
    assert LabelOf(s, step, x) == ReleaseLabel(s.store, at, x);
    MoveProjects(s.store, at, TrackOf(s, x), x);
    StoreMoves(s, Move(s.store, at + 1), ReleaseLabel(s.store, at, x), x);
  }

  lemma OnForwardTimeout(c: Config, s: System, at: int, x: Id)
    ensures Projects(c, s, ForwardTimeout(at), x)
  {
    MoveTimeoutProjects(s.store, at, TrackOf(s, x), x);
    StoreMoves(s, MoveTimeout(s.store, at), ExpiryLabel(s.store, at, x), x);
  }

  lemma OnPop(c: Config, s: System, k: nat, at: int, deadline: int, x: Id)
    ensures Projects(c, s, Pop(k, at, deadline), x)
  {
    var s' := ApplyPop(s, k, at, deadline);
    if Claimed(s.store) == Some(x) {
      PopHere(s.store, at, deadline, TrackOf(s, x), TrackOf(s', x), x);
    } else {
      PopElsewhere(s.store, at, deadline, TrackOf(s, x), x);
      assert TrackOf(s', x) == TrackOf(s, x);
    }
  }

  lemma OnDiscard(c: Config, s: System, k: nat, x: Id)
    ensures Projects(c, s, Discard(k), x)
  {
  }

  lemma OnCommit(c: Config, s: System, k: nat, o: Outcome, at: int, x: Id)
    ensures Projects(c, s, Commit(k, o, at), x)
  {
    var id := WorkAt(s, k).id;
    var s' := ApplyCommit(s, k, id, o, at);
    assert Apply(c, s, Commit(k, o, at)) == s' && s'.store == Scripts.Commit(s.store, id, o, at);
    assert LabelOf(s, Commit(k, o, at), x) == if id == x then Committed(o, at) else Untouched;
    if id == x {
      CommitHere(s.store, x, o, at, TrackOf(s, x), TrackOf(s', x));
    } else {
      assert TrackOf(s', x) == TrackOf(s, x);
      CommitElsewhere(s.store, id, o, at, TrackOf(s, x), x);
    }
  }

  lemma OnFinishRetry(c: Config, s: System, k: nat, at: int, x: Id)
    ensures Projects(c, s, FinishRetry(k, at), x)
  {
    var w := WorkAt(s, k);
    if w.phase.Loaded? {
      FinishRetryProjects(s, k, w.id, w.phase.raw, w.phase.delay, at, x);
    }
  }

  lemma OnCancel(c: Config, s: System, id: Id, at: int, x: Id)
    ensures Projects(c, s, Cancel(id, at), x)
  {
    CancelProjects(s, id, at, x);
  }

  lemma OnReload(c: Config, s: System, src: Source, at: int, x: Id)
    ensures Projects(c, s, Reload(src, at), x)
  {
    ReloadProjects(s.store, src, at, TrackOf(s, x), x);
    StoreMoves(s, Scripts.Reload(s.store, src, at), ReloadLabel(s.store, src, at, x), x);
  }

  lemma OnDamage(c: Config, s: System, id: Id, garbled: bool, x: Id)
    ensures Projects(c, s, Damage(id, garbled), x)
  {
  }

  lemma OnSilent(c: Config, s: System, step: Step, x: Id)
    requires Silent(step)
    ensures Projects(c, s, step, x)
  {
    assert Apply(c, s, step).store == s.store && Apply(c, s, step).tracks == s.tracks;
  }

  /** Every step moves every message by exactly the local move named by LabelOf. */
  lemma StepProjects(c: Config, s: System, step: Step, x: Id)
    ensures Projects(c, s, step, x)
  {
    match step
    case Push(id, a, m, delay, at) => OnPush(c, s, id, a, m, delay, at, x);
    case ForwardDelayed(at) => OnForwardDelayed(c, s, at, x);
    case ForwardTimeout(at) => OnForwardTimeout(c, s, at, x);
    case Pop(k, at, deadline) => OnPop(c, s, k, at, deadline, x);
    case Discard(k) => OnDiscard(c, s, k, x);
    case Commit(k, o, at) => OnCommit(c, s, k, o, at, x);
    case FinishRetry(k, at) => OnFinishRetry(c, s, k, at, x);
    case Cancel(id, at) => OnCancel(c, s, id, at, x);
    case Reload(src, at) => OnReload(c, s, src, at, x);
    case Damage(id, garbled) => OnDamage(c, s, id, garbled, x);
    case _ => OnSilent(c, s, step, x);
  }

  /** When each local move can happen. */
  predicate Possible(l: Local, tag: Label) {
    match tag
    case Released(at) => l.delayed.Some? && l.delayed.value <= at + 1
    case Expired => l.reserved.Some?
    case Claim(_, _) => l.waiting > 0 && Readable(l)
    case Purged(n) => 0 < n <= l.waiting && !Readable(l)
    case Reloaded(TimeoutList, n, _) => 0 < n <= l.timeout
    case Reloaded(FailedList, n, _) => 0 < n <= l.failed
    case Damaged(_) => l.record.Some?
    case _ => true
  }

  lemma StepPossible(s: System, step: Step, x: Id)
    requires Enabled(s, step)
    ensures Possible(LocalOf(s, x), LabelOf(s, step, x))
    ensures step.ForwardTimeout? && LabelOf(s, step, x).Expired? ==> s.store.reserved[x] <= step.at
  {
    match step
    case ForwardDelayed(at) => FirstDueFacts(s.store.delayed, at + 1);
    case ForwardTimeout(at) => FirstDueFacts(s.store.reserved, at);
    case Pop(_, _, _) =>
      var w, i := s.store.waiting, FirstLive(s.store.waiting, s.store.messages);
      CountSplit(w, i, x);
      CountMember(w[..i], x);
      CountMember(w, x);
    case Reload(src, _) =>
      var all := SourceList(s.store, src);
      CountSplit(all, |Take(all)|, x);
      assert all[..|Take(all)|] == Take(all);
    case _ =>
  }
}
