/**
 * One channel of the queue as a value, and what each Lua script of
 * pkg/queue/lua.go does to it, in closed form: no script here is described by
 * a loop, although four of them are loops in the source. Module Channels holds
 * the loops and proves that they compute these functions.
 */
module Scripts {
  import opened Messages
  import opened Lists
  import opened SortedSets

  datatype Store = Store(
    waiting: seq<Id>,            // oldest first
    delayed: map<Id, int>,       // id -> release second
    reserved: map<Id, int>,      // id -> reservation deadline
    timeout: seq<Id>,            // oldest first
    failed: seq<Id>,             // oldest first
    messages: map<Id, Record>)

  const EMPTY := Store([], map[], map[], [], [], map[])

  predicate IsLive(m: map<Id, Record>, id: Id) {
    id in m && m[id].Live?
  }

  /** The record under a message key, if any. */
  function Lookup(m: map<Id, Record>, id: Id): Option<Record> {
    if id in m then Some(m[id]) else None
  }

  /** Enqueue by mode: waiting when the delay is not positive, otherwise delayed. */
  function Place(s: Store, id: Id, toWaiting: bool, score: int): Store {
    if toWaiting then s.(waiting := s.waiting + [id]) else s.(delayed := s.delayed[id := score])
  }

  function Push(s: Store, id: Id, e: Entity, toWaiting: bool, score: int): Store {
    Place(s.(messages := s.messages[id := Live(e)]), id, toWaiting, score)
  }

  // ----- forwarding -----

  function Unstored(ids: seq<Id>, m: map<Id, Record>): set<Id> {
    set x | x in ids && x !in m
  }

  function Undecodable(ids: seq<Id>, m: map<Id, Record>): set<Id> {
    set x | x in ids && !IsLive(m, x)
  }

  /** Listed live entities get the status and the stamp; listed garbage is deleted. */
  function Restamped(m: map<Id, Record>, ids: seq<Id>, status: Status, at: int): map<Id, Record> {
    map x | x in m && !(x in ids && m[x].Garbage?) ::
      if x in ids && m[x].Live? then Live(Stamp(m[x].entity, status, at)) else m[x]
  }

  /** Listed ids that decode join the list; a listed id without an entity leaves it. */
  function MovedInto(w: seq<Id>, ids: seq<Id>, m: map<Id, Record>): seq<Id> {
    Without(w, Unstored(ids, m)) + Without(ids, Undecodable(ids, m))
  }

  /** Moves the listed ids from delayed to waiting. */
  function MoveIds(s: Store, ids: seq<Id>, at: int): Store {
    s.(delayed := s.delayed - Elements(ids),
       waiting := MovedInto(s.waiting, ids, s.messages),
       messages := Restamped(s.messages, ids, Waiting, at))
  }

  function Move(s: Store, now: int): Store {
    MoveIds(s, FirstDue(s.delayed, now), now)
  }

  /** Moves the listed ids from reserved to timeout; the entities are not touched. */
  function ExpireIds(s: Store, ids: seq<Id>): Store {
    s.(reserved := s.reserved - Elements(ids),
       timeout := s.timeout + Without(ids, Unstored(ids, s.messages)))
  }

  function MoveTimeout(s: Store, now: int): Store {
    ExpireIds(s, FirstDue(s.reserved, now))
  }

  // ----- claiming -----

  /** Index of the oldest waiting id whose entity decodes; |w| if there is none. */
  function FirstLive(w: seq<Id>, m: map<Id, Record>): (i: nat)
    ensures i <= |w|
    ensures i < |w| ==> IsLive(m, w[i])
    ensures forall j :: 0 <= j < i ==> !IsLive(m, w[j])
  {
    if w == [] then 0
    else if IsLive(m, w[0]) then 0
    else
      var k := FirstLive(w[1..], m);
      assert forall j :: 1 <= j < k + 1 ==> w[j] == w[1..][j - 1];
      1 + k
  }

  function Claimed(s: Store): Option<Id> {
    var i := FirstLive(s.waiting, s.messages);
    if i < |s.waiting| then Some(s.waiting[i]) else None
  }

  function Pop(s: Store, now: int, deadline: int): Store {
    var i := FirstLive(s.waiting, s.messages);
    var swept := s.messages - Elements(s.waiting[..i]);
    if i == |s.waiting| then s.(waiting := [], messages := swept)
    else
      var id := s.waiting[i];
      s.(waiting := s.waiting[i + 1..],
         reserved := s.reserved[id := deadline],
         messages := swept[id := Live(Stamp(s.messages[id].entity, Reserved, now))])
  }

  // ----- committing -----

  datatype Outcome = Ack | Drop | Fail | Requeue

  function FinalStatus(o: Outcome): Status {
    match o
    case Ack => Done
    case Drop => Dropped
    case Fail => Failed
    case Requeue => Waiting
  }

  function Commit(s: Store, id: Id, o: Outcome, now: int): Store {
    var s1 := s.(reserved := s.reserved - {id});
    if !IsLive(s.messages, id) then s1
    else
      var s2 := s1.(messages := s.messages[id := Live(Stamp(s.messages[id].entity, FinalStatus(o), now))]);
      match o
      case Ack => s2
      case Drop => s2
      case Fail => s2.(failed := s.failed + [id])
      case Requeue => s2.(waiting := s.waiting + [id])
  }

  /** The id sits in one of the five buckets. */
  predicate Queued(s: Store, id: Id) {
    id in s.waiting || id in s.delayed || id in s.reserved || id in s.timeout || id in s.failed
  }

  function Retry(s: Store, id: Id, raw: Entity, toWaiting: bool, score: int): Store {
    if id in s.reserved then
      Place(s.(reserved := s.reserved - {id}, messages := s.messages[id := Live(raw)]), id, toWaiting, score)
    else if !Queued(s, id) then s
    else
      Place(s.(waiting := Without(s.waiting, {id}), delayed := s.delayed - {id},
               timeout := Without(s.timeout, {id}), failed := Without(s.failed, {id}),
               messages := s.messages[id := Live(raw)]), id, toWaiting, score)
  }

  function Cancel(s: Store, id: Id, now: int): Store {
    if id !in s.delayed then s
    else
      s.(delayed := s.delayed - {id}, messages := Restamped(s.messages, [id], Canceled, now))
  }

  // ----- reloading -----

  datatype Source = TimeoutList | FailedList

  function SourceList(s: Store, src: Source): seq<Id> {
    match src case TimeoutList => s.timeout case FailedList => s.failed
  }

  function WithSource(s: Store, src: Source, ids: seq<Id>): Store {
    match src case TimeoutList => s.(timeout := ids) case FailedList => s.(failed := ids)
  }

  /** A reload passes over an id that has no entity, or (for timeout) a finished one. */
  predicate Accepts(m: map<Id, Record>, src: Source, id: Id) {
    IsLive(m, id) && !(src.TimeoutList? && Finished(m[id].entity.status))
  }

  function Rejected(ids: seq<Id>, m: map<Id, Record>, src: Source): set<Id> {
    set x | x in ids && !Accepts(m, src, x)
  }

  /** Listed accepted entities become waiting. */
  function Reopened(m: map<Id, Record>, ids: seq<Id>, src: Source, at: int): map<Id, Record> {
    map x | x in m :: if x in ids && Accepts(m, src, x) then Live(Stamp(m[x].entity, Waiting, at)) else m[x]
  }

  /** Listed ids join the list, and then every rejected one leaves it. */
  function ReloadedInto(w: seq<Id>, ids: seq<Id>, m: map<Id, Record>, src: Source): seq<Id> {
    var no := Rejected(ids, m, src);
    Without(w, no) + Without(ids, no)
  }

  /** Moves the first n source ids to waiting and takes the rejected ones out again. */
  function ReloadFirst(s: Store, src: Source, n: nat, now: int): Store
    requires n <= |SourceList(s, src)|
  {
    var ids := SourceList(s, src)[..n];
    WithSource(s, src, SourceList(s, src)[n..]).(
      waiting := ReloadedInto(s.waiting, ids, s.messages, src),
      messages := Reopened(s.messages, ids, src, now))
  }

  function RoundSize(ids: seq<Id>): (n: nat)
    ensures n <= |ids| && n <= BATCH
    ensures n < BATCH ==> n == |ids|
  {
    |Take(ids)|
  }

  function Reload(s: Store, src: Source, now: int): Store {
    ReloadFirst(s, src, RoundSize(SourceList(s, src)), now)
  }

  /** How many of the listed ids a reload accepts. */
  function AcceptedCount(ids: seq<Id>, m: map<Id, Record>, src: Source): nat {
    |Without(ids, Rejected(ids, m, src))|
  }

  /** The number a reload round reports. */
  function ReloadCount(s: Store, src: Source): nat {
    AcceptedCount(Take(SourceList(s, src)), s.messages, src)
  }
}
