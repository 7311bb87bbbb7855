/**
 * One delivery as the consumer handles it (handleOne and handleError in
 * pkg/queue/consumer.go): exactly one commit call to the driver, and exactly one
 * counter, unless a panic's recovery commit fails.
 */
module Consumers {
  import opened Messages

  datatype Result = AckResult | RetryResult | RequeueResult | DropResult | OtherResult

  /** How the handler ended. */
  datatype Ending = Panicked | Errored | Returned(result: Result)

  /** What the driver answered to the commit call. */
  datatype Answer = Refused | Accepted(found: bool)

  datatype Call =
    | AckCall(id: Id)
    | FailCall(id: Id)
    | DropCall(id: Id)
    | RequeueCall(id: Id)
    | RetryCall(id: Id, delay: int)

  /** Where the delivery is counted. Swallowed: a panic whose recovery commit failed is only logged. */
  datatype Bin = Acked | Retried | Requeued | GivenUp | Discarded | Erred | Swallowed

  /** The handler asks for another attempt, by error, panic or RETRY. */
  predicate WantsRetry(e: Ending) {
    !e.Returned? || e.result.RetryResult?
  }

  /** The one commit call for a delivery. */
  function CallFor(local: Entity, id: Id, e: Ending, schedule: seq<int>): Call {
    if WantsRetry(e) then
      match OnFailure(local, schedule)
      case RetryAfter(seconds) => RetryCall(id, seconds)
      case GiveUp => FailCall(id)
    else
      match e.result
      case RequeueResult => RequeueCall(id)
      case DropResult => DropCall(id)
      case _ => AckCall(id)
  }

  /** The call went through. A retry must also have found the message. */
  predicate Succeeds(c: Call, a: Answer) {
    a.Accepted? && (c.RetryCall? ==> a.found)
  }

  function BinFor(c: Call, e: Ending, a: Answer): Bin {
    if !Succeeds(c, a) then (if e.Panicked? then Swallowed else Erred)
    else
      match c
      case AckCall(_) => Acked
      case FailCall(_) => GivenUp
      case DropCall(_) => Discarded
      case RequeueCall(_) => Requeued
      case RetryCall(_, _) => Retried
  }

  datatype Counters = Counters(acked: nat, retried: nat, requeued: nat, failed: nat, dropped: nat, errors: nat)

  function Counted(c: Counters, b: Bin): Counters {
    match b
    case Acked => c.(acked := c.acked + 1)
    case Retried => c.(retried := c.retried + 1)
    case Requeued => c.(requeued := c.requeued + 1)
    case GivenUp => c.(failed := c.failed + 1)
    case Discarded => c.(dropped := c.dropped + 1)
    case Erred => c.(errors := c.errors + 1)
    case Swallowed => c
  }

  function Total(c: Counters): nat {
    c.acked + c.retried + c.requeued + c.failed + c.dropped + c.errors
  }

  lemma EveryBinCountsOnce(c: Counters, b: Bin)
    ensures Total(Counted(c, b)) == Total(c) + if b.Swallowed? then 0 else 1
  {
  }

  class Consumer {
    const retrySeconds: seq<int>
    var acked: nat
    var retried: nat
    var requeued: nat
    var failed: nat
    var dropped: nat
    var errors: nat
    var calls: seq<Call>     // commit calls made to the driver

    function Counts(): Counters
      reads this
    {
      Counters(acked, retried, requeued, failed, dropped, errors)
    }

    constructor (schedule: seq<int>)
      ensures retrySeconds == schedule && Counts() == Counters(0, 0, 0, 0, 0, 0) && calls == []
    {
      retrySeconds := schedule;
      acked, retried, requeued, failed, dropped, errors, calls := 0, 0, 0, 0, 0, 0, [];
    }

    /** Retry if attempts remain, otherwise fail. Returns whether the commit failed. */
    method HandleError(id: Id, m: Message, answer: Answer, now: int) returns (err: bool)
      modifies this, m
      ensures old(m.attempts) < m.maxAttempts ==>
                var delay := RetrySeconds(retrySeconds, old(m.attempts) + 1);
                && calls == old(calls) + [RetryCall(id, delay)] && err == (answer != Accepted(true))
                && Counts() == (if err then old(Counts()) else old(Counts()).(retried := old(retried) + 1))
                && (!err ==> m.status == if delay <= 0 then Waiting else Delayed)
      ensures old(m.attempts) >= m.maxAttempts ==>
                && calls == old(calls) + [FailCall(id)] && err == answer.Refused?
                && Counts() == (if err then old(Counts()) else old(Counts()).(failed := old(failed) + 1))
                && (!err ==> m.status == Failed)
      ensures m.attempts == old(m.attempts) + 1 && m.maxAttempts == old(m.maxAttempts)
    {
      var allowed := m.AttemptsAllowed();
      if allowed {
        var delay := RetrySeconds(retrySeconds, m.attempts);
        calls := calls + [RetryCall(id, delay)];
        if answer.Refused? {
          return true;
        }
        if !answer.found {
          return true;
        }
        if delay <= 0 {
          m.SetStatus(Waiting, now);
        } else {
          m.SetStatus(Delayed, now);
        }
        retried := retried + 1;
        return false;
      }
      calls := calls + [FailCall(id)];
      if answer.Refused? {
        return true;
      }
      m.SetStatus(Failed, now);
      failed := failed + 1;
      return false;
    }

    /** The commit that follows the handler. Returns whether handleOne reports an error. */
    method HandleOne(id: Id, m: Message, ending: Ending, answer: Answer, now: int) returns (err: bool)
      modifies this, m
      ensures ending == Returned(RequeueResult) ==>
                && calls == old(calls) + [RequeueCall(id)] && err == answer.Refused?
                && Counts() == (if err then old(Counts()) else old(Counts()).(requeued := old(requeued) + 1))
                && (!err ==> m.status == Waiting)
      ensures ending == Returned(DropResult) ==>
                && calls == old(calls) + [DropCall(id)] && err == answer.Refused?
                && Counts() == (if err then old(Counts()) else old(Counts()).(dropped := old(dropped) + 1))
                && (!err ==> m.status == Dropped)
      ensures ending == Returned(AckResult) || ending == Returned(OtherResult) ==>
                && calls == old(calls) + [AckCall(id)] && err == answer.Refused?
                && Counts() == (if err then old(Counts()) else old(Counts()).(acked := old(acked) + 1))
                && (!err ==> m.status == Done)
      ensures ending == Panicked || ending == Errored || ending == Returned(RetryResult) ==>
                if old(m.attempts) < m.maxAttempts then
                  && calls == old(calls) + [RetryCall(id, RetrySeconds(retrySeconds, old(m.attempts) + 1))]
                  && err == (ending != Panicked && answer != Accepted(true))
                  && Counts() == (if answer != Accepted(true) then old(Counts())
                                  else old(Counts()).(retried := old(retried) + 1))
                else
                  && calls == old(calls) + [FailCall(id)]
                  && err == (ending != Panicked && answer.Refused?)
                  && Counts() == (if answer.Refused? then old(Counts()) else old(Counts()).(failed := old(failed) + 1))
      ensures var b := BinFor(CallFor(old(m.View()), id, ending, retrySeconds), ending, answer);
              && calls == old(calls) + [CallFor(old(m.View()), id, ending, retrySeconds)]
              && err == b.Erred?
              && Counts() == if b.Erred? then old(Counts()) else Counted(old(Counts()), b)
      ensures m.attempts == old(m.attempts) + if WantsRetry(ending) then 1 else 0
      ensures m.maxAttempts == old(m.maxAttempts)
    {
      match ending {
        case Panicked =>
          var lost := HandleError(id, m, answer, now);
          return false;
        case Errored =>
          err := HandleError(id, m, answer, now);
        case Returned(result) =>
          match result {
            case RequeueResult =>
              calls := calls + [RequeueCall(id)];
              if answer.Refused? {
                return true;
              }
              m.SetStatus(Waiting, now);
              requeued := requeued + 1;
              return false;
            case RetryResult =>
              err := HandleError(id, m, answer, now);
            case DropResult =>
              calls := calls + [DropCall(id)];
              if answer.Refused? {
                return true;
              }
              m.SetStatus(Dropped, now);
              dropped := dropped + 1;
              return false;
            case _ =>
              calls := calls + [AckCall(id)];
              if answer.Refused? {
                return true;
              }
              m.SetStatus(Done, now);
              acked := acked + 1;
              return false;
          }
      }
    }

    /** The goroutine around handleOne: a reported error is counted. */
    method Handle(id: Id, m: Message, ending: Ending, answer: Answer, now: int)
      modifies this, m
      ensures calls == old(calls) + [CallFor(old(m.View()), id, ending, retrySeconds)]
      ensures Counts()
           == Counted(old(Counts()), BinFor(CallFor(old(m.View()), id, ending, retrySeconds), ending, answer))
      ensures var retries := (ending == Errored || ending == Returned(RetryResult)) && old(m.attempts) < m.maxAttempts;
              errors == old(errors)
                        + if ending != Panicked && (answer.Refused? || (retries && !answer.found)) then 1 else 0
    {
      var err := HandleOne(id, m, ending, answer, now);
      if err {
        errors := errors + 1;
      }
    }
  }
}
