/**
 * The stored message entity, its statuses, and the retry schedule
 * (pkg/core/message.go, pkg/core/retry_policy.go).
 */
module Messages {

  type Id = string

  datatype Option<+T> = None | Some(value: T)

  datatype Status = Waiting | Reserved | Delayed | Timeout | Failed | Canceled | Dropped | Done

  /** The fields of the entity that the queue itself reads or rewrites. */
  datatype Entity = Entity(status: Status, attempts: int, maxAttempts: int, updatedAt: int)

  /** What a message key holds: text no decoder accepts, or an entity. */
  datatype Record = Garbage | Live(entity: Entity)

  /** A status after which the message is not supposed to be delivered again. */
  predicate Finished(s: Status) {
    s == Done || s == Dropped || s == Canceled
  }

  function Stamp(e: Entity, status: Status, at: int): Entity {
    e.(status := status, updatedAt := at)
  }

  /** The default that decoding fills in for a missing retry limit. */
  function RetryLimit(maxAttempts: int): (limit: int)
    ensures limit >= 1
  {
    if maxAttempts <= 0 then 1 else maxAttempts
  }

  /** Loading an entity through the driver: decoding normalises the retry limit. */
  function Decoded(e: Entity): Entity {
    e.(maxAttempts := RetryLimit(e.maxAttempts))
  }

  /** The entity a Retry writes back: rescheduled, one more attempt if the limit allows. */
  function Bumped(e: Entity, delay: int, at: int): Entity {
    var d := Decoded(e);
    Entity(if delay <= 0 then Waiting else Delayed,
           if d.attempts < d.maxAttempts then d.attempts + 1 else d.attempts,
           d.maxAttempts,
           at)
  }

  /** The wait, in seconds, before the retry that raises the attempt count to `attempts`. */
  function RetrySeconds(schedule: seq<int>, attempts: int): int {
    if schedule == [] then 10
    else
      var n := if attempts <= 0 then 1 else attempts;
      if n - 1 >= |schedule| then schedule[|schedule| - 1] else schedule[n - 1]
  }

  /** What the consumer does with a delivery whose handler failed. */
  datatype Verdict = RetryAfter(seconds: int) | GiveUp

  function OnFailure(local: Entity, schedule: seq<int>): Verdict {
    if local.maxAttempts > local.attempts
    then RetryAfter(RetrySeconds(schedule, local.attempts + 1))
    else GiveUp
  }

  /** The consumer's in-memory copy of a claimed message. */
  class Message {
    var attempts: int
    var maxAttempts: int
    var status: Status
    var createdAt: int
    var updatedAt: int

    constructor (e: Entity, created: int)
      ensures attempts == e.attempts && maxAttempts == e.maxAttempts
      ensures status == e.status && createdAt == created && updatedAt == e.updatedAt
    {
      attempts, maxAttempts := e.attempts, e.maxAttempts;
      status, createdAt, updatedAt := e.status, created, e.updatedAt;
    }

    function View(): Entity
      reads this
    {
      Entity(status, attempts, maxAttempts, updatedAt)
    }

    /** Counts the attempt either way, and says whether another one is allowed. */
    method AttemptsAllowed() returns (allowed: bool)
      modifies this`attempts
      ensures attempts == old(attempts) + 1
      ensures allowed <==> attempts <= maxAttempts
    {
      if maxAttempts > attempts {
        attempts := attempts + 1;
        return true;
      }
      attempts := attempts + 1;
      return false;
    }

    method SetStatus(s: Status, now: int)
      modifies this
      ensures status == s && updatedAt == now && unchanged(`attempts, `maxAttempts)
      ensures createdAt == if old(createdAt) <= 0 then now else old(createdAt)
    {
      if createdAt <= 0 {
        createdAt := now;
      }
      status := s;
      updatedAt := now;
    }
  }
}
