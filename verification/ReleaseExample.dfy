/** The early release is reached: for every delay, a run that releases its message one second before it is due. */
module ReleaseExample {
  import opened Messages
  import opened Lists
  import opened Scripts
  import opened Protocol
  import opened TimedRelease
  import opened Scenes

  /** A move of the only delayed message. */
  lemma MoveOnly(x: Id, e: Entity, due: int, at: int)
    requires due <= at
    ensures Move(Store([], map[x := due], map[], [], [], map[x := Live(e)]), at)
         == Store([x], map[], map[], [], [], map[x := Live(Stamp(e, Waiting, at))])
  {
    var m := map[x := Live(e)];
    OnlyDue(x, due, at);
    WithoutNothing([x], Undecodable([x], m));
    assert Restamped(m, [x], Waiting, at) == map[x := Live(Stamp(e, Waiting, at))];
    assert map[x := due] - Elements([x]) == map[];
  }

  /** Pushed with a delay and forwarded one second before its due second, the message is waiting already. */
  lemma EarlyReleaseIsReached(c: Config, delay: int) returns (r: Run, x: Id)
    requires delay > 0
    ensures ClockedRun(c, r) && CollisionFree(c, r)
    ensures r.steps == [Generate, Push(x, 0, 1, delay, 0), Tick(delay - 1), ForwardDelayed(delay - 1)]
    ensures LatestDue(r, |r.steps|, x) == Some(delay) && Last(r).now == delay - 1
    ensures x in Last(r).store.waiting
  {
    var r0, x0 := Opening(c, 0, 1, delay);
    x := x0;
    var e := PushedEntity(0, 1, delay, 0);
    ExtendRuns(c, r0, Tick(delay - 1));
    var r1 := Extend(c, r0, Tick(delay - 1));
    assert Last(r1).store == Store([], map[x := delay], map[], [], [], map[x := Live(e)]);
    MoveOnly(x, e, delay, delay);
    ExtendRuns(c, r1, ForwardDelayed(delay - 1));
    r := Extend(c, r1, ForwardDelayed(delay - 1));
    OneTextIsCollisionFree(c, r);
    assert Last(r).store.waiting == [x];
    assert LatestDue(r, 2, x) == Some(delay);
    assert LatestDue(r, 3, x) == Some(delay);
  }
}
