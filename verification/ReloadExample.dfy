/**
 * The early stop of Reload is reached: commits after their deadlines leave copies of one
 * message in timeout, an ack in time finishes it, and a reload gives up after the first
 * hundred of them.
 */
module ReloadExample {
  import opened Messages
  import opened SortedSets
  import opened Scripts
  import opened Protocol
  import opened Scenes
  import opened DuplicationExample
  import Reloading

  /** The message is finished; timeout holds `t`. */
  predicate AloneDone(s: System, x: Id, t: seq<Id>) {
    s.store.timeout == t && IsLive(s.store.messages, x) && s.store.messages[x].entity.status == Done
  }

  lemma AckAlone(c: Config, s: System, x: Id, e: Entity, deadline: int, t: seq<Id>)
    requires AloneClaimed(s, x, e, deadline, Held(Decoded(e)), t)
    ensures AloneDone(Apply(c, s, Commit(0, Ack, s.now)), x, t)
  {
    assert WorkAt(s, 0).id == x;
  }

  /** Claim, load and ack in the same second. */
  lemma Finish(c: Config, r: Run, x: Id, e: Entity, t: seq<Id>) returns (r': Run)
    requires LateRun(c, r) && Alone(Last(r), x, e, t)
    ensures ClockedRun(c, r') && Last(r').texts == Last(r).texts && AloneDone(Last(r'), x, t)
  {
    var r1 := ClaimAndLoad(c, r, x, e, t);
    AckAlone(c, Last(r1), x, Stamp(e, Reserved, Last(r).now), Last(r).now + 1, t);
    r' := GoClocked(c, r1, Commit(0, Ack, Last(r1).now));
  }

  /** For every n above a hundred: a run after which any reload of timeout reports 0 and leaves n - 100 ids there. */
  lemma EarlyStopIsReached(c: Config, n: nat) returns (r: Run, x: Id)
    requires n > 100
    ensures ClockedRun(c, r) && CollisionFree(c, r) && |Last(r).store.timeout| == n
    ensures forall after, clock, total :: Reloading.ReloadOutcome(Last(r).store, after, TimeoutList, clock, total) ==>
              total == 0 && |after.timeout| == n - 100
  {
    var r0, x0, e, t := AddCopies(c, n);
    x := x0;
    r := Finish(c, r0, x, e, t);
    OneTextIsCollisionFree(c, r);
    var s := Last(r).store;
    forall after, clock, total | Reloading.ReloadOutcome(s, after, TimeoutList, clock, total)
      ensures total == 0 && |after.timeout| == n - BATCH
    {
      Reloading.StaleHeadBlocks(s, after, TimeoutList, clock, total);
    }
  }
}
