/**
 * Driver calls that are more than one script (pkg/queue/redis_driver.go), as they
 * run when nothing interferes, and as the steps of the protocol they consist of.
 */
module Drivers {
  import opened Messages
  import opened Scripts
  import opened Channels
  import opened Identity
  import opened Protocol

  /** The errors of the driver; a failed connection is not modelled. */
  datatype Error = NoMessage | EmptyId | Unreadable | ReadyForDispatch | InExecution

  datatype Reply<+T> = Ok(value: T) | Bad(error: Error)

  class Driver {
    const name: string
    const digest: string -> Id
    const channel: Channel
    const sequence: Sequence

    constructor (name: string, digest: string -> Id)
      ensures this.name == name && this.digest == digest
      ensures fresh(channel) && fresh(sequence)
      ensures channel.Contents() == EMPTY && sequence.Stored() == Counter(0, 0)
    {
      this.name, this.digest := name, digest;
      channel := new Channel();
      sequence := new Sequence();
    }

    /** Push: a fresh id, the status that fits the delay, then the script. No message is an error. */
    method PushMessage(m: Message?, delay: int, now: int) returns (reply: Reply<Id>)
      modifies channel, sequence, m
      ensures m == null ==> reply == Bad(NoMessage) && channel.Contents() == old(channel.Contents())
      ensures m != null ==>
                && sequence.Stored() == Advance(old(sequence.Stored()), MAX_SEQUENCE)
                && reply == Ok(digest(Payload(name, sequence.Stored())))
                && m.View() == Entity(if delay == 0 then Waiting else Delayed, old(m.attempts), old(m.maxAttempts), now)
                && channel.Contents()
                   == Scripts.Push(old(channel.Contents()), reply.value, m.View(), delay == 0, now + delay)
    {
      if m == null {
        return Bad(NoMessage);
      }
      var id := sequence.GenerateId(name, digest);
      if delay == 0 {
        m.SetStatus(Waiting, now);
      } else {
        m.SetStatus(Delayed, now);
      }
      channel.PushScript(id, m.View(), delay == 0, now + delay);
      return Ok(id);
    }

    /** Retry: load, bump, then the script. An empty id and an unreadable entity are errors. */
    method RetryMessage(id: Id, delay: int, now: int) returns (reply: Reply<bool>)
      modifies channel
      ensures var s := old(channel.Contents());
              if id == "" then reply == Bad(EmptyId) && channel.Contents() == s
              else
                match Lookup(s.messages, id)
                case None => reply == Ok(false) && channel.Contents() == s
                case Some(Garbage) => reply == Bad(Unreadable) && channel.Contents() == s
                case Some(Live(e)) =>
                  var limit := if e.maxAttempts <= 0 then 1 else e.maxAttempts;
                  var raw := Entity(if delay <= 0 then Waiting else Delayed,
                                    if e.attempts < limit then e.attempts + 1 else e.attempts, limit, now);
                  && reply == Ok(Queued(s, id))
                  && channel.Contents() == Scripts.Retry(s, id, raw, delay <= 0, now + delay)
    {
      if id == "" {
        return Bad(EmptyId);
      }
      if id !in channel.messages {
        return Ok(false);
      }
      if channel.messages[id].Garbage? {
        return Bad(Unreadable);
      }
      var m := Decoded(channel.messages[id].entity);
      m := if delay <= 0 then Stamp(m, Waiting, now) else Stamp(m, Delayed, now);
      if m.attempts < m.maxAttempts {
        m := m.(attempts := m.attempts + 1);
      }
      var found := channel.RetryScript(id, m, delay <= 0, now + delay);
      return Ok(found);
    }

    /**
     * Pop: the script, then the entity is loaded. `found` is what the message key holds by then; if it has
     * vanished the reservation is removed, if it cannot be read the call fails and the reservation stays.
     */
    method PopMessage(now: int, deadline: int, found: Option<Record>) returns (reply: Reply<Option<(Id, Entity)>>)
      modifies channel
      ensures var s := old(channel.Contents());
              var popped := Scripts.Pop(s, now, deadline);
              match Scripts.Claimed(s)
              case None => reply == Ok(None) && channel.Contents() == popped
              case Some(id) =>
                match found
                case None => reply == Ok(None) && channel.Contents() == popped.(reserved := popped.reserved - {id})
                case Some(Garbage) => reply == Bad(Unreadable) && channel.Contents() == popped
                case Some(Live(e)) =>
                  var limit := if e.maxAttempts <= 0 then 1 else e.maxAttempts;
                  && reply == Ok(Some((id, Entity(e.status, e.attempts, limit, e.updatedAt))))
                  && channel.Contents() == popped
    {
      var claimed := channel.PopScript(now, deadline);
      if claimed.None? {
        return Ok(None);
      }
      if found.None? {
        channel.reserved := channel.reserved - {claimed.value};
        return Ok(None);
      }
      if found.value.Garbage? {
        return Bad(Unreadable);
      }
      return Ok(Some((claimed.value, Decoded(found.value.entity))));
    }

    /** Cancel: the script's codes as the driver reports them. */
    method CancelMessage(id: Id, now: int, lposMissIsNil: bool) returns (reply: Reply<bool>)
      modifies channel
      ensures id == "" ==> reply == Bad(EmptyId) && channel.Contents() == old(channel.Contents())
      ensures id != "" ==>
                var s := old(channel.Contents());
                && channel.Contents() == Scripts.Cancel(s, id, now)
                && (reply == Ok(true) <==> id in s.delayed)
                && (reply == Bad(InExecution) <==> id !in s.delayed && id in s.reserved)
                && (reply == Ok(false) <==> id !in s.delayed && id !in s.reserved && id !in s.waiting && lposMissIsNil)
                && (reply in {Ok(true), Ok(false), Bad(InExecution), Bad(ReadyForDispatch)})
    {
      if id == "" {
        return Bad(EmptyId);
      }
      var code := channel.CancelScript(id, now, lposMissIsNil);
      if code == 1 {
        return Ok(true);
      } else if code == 0 {
        return Ok(false);
      } else if code == -1 {
        return Bad(ReadyForDispatch);
      }
      return Bad(InExecution);
    }
  }

  /** An undisturbed Retry is the two protocol steps of a retry from outside, one right after the other. */
  lemma RetryIsTwoSteps(c: Config, s: System, k: nat, id: Id, delay: int, at: int)
    requires k !in s.work && IsLive(s.store.messages, id)
    ensures Apply(c, Apply(c, s, BeginOutsideRetry(k, id, delay, at)), FinishRetry(k, at)).store
         == Scripts.Retry(s.store, id, Bumped(s.store.messages[id].entity, delay, at), delay <= 0, at + delay)
    ensures Apply(c, Apply(c, s, BeginOutsideRetry(k, id, delay, at)), FinishRetry(k, at)).work == s.work
  {
    var s1 := Apply(c, s, BeginOutsideRetry(k, id, delay, at));
    assert s1.store == s.store;
    assert WorkAt(s1, k) == Work(id, None, Loaded(Bumped(s.store.messages[id].entity, delay, at), delay));
    assert s1.work - {k} == s.work;
  }
}
