/**
 * Building runs step by step, and the small scenes the example runs are made of:
 * one message, alone in the queue except for copies of itself in timeout.
 */
module Scenes {
  import opened Messages
  import opened Lists
  import opened SortedSets
  import opened Scripts
  import opened Identity
  import opened Protocol
  import opened Safety
  import opened Guarantees

  function Last(r: Run): System
    requires r.states != []
  {
    r.states[|r.states| - 1]
  }

  function Extend(c: Config, r: Run, step: Step): Run
    requires r.states != []
  {
    Run(r.states + [Apply(c, Last(r), step)], r.steps + [step])
  }

  lemma ExtendRuns(c: Config, r: Run, step: Step)
    requires IsRun(c, r) && Enabled(Last(r), step)
    ensures IsRun(c, Extend(c, r, step))
    ensures ClockedRun(c, r) && ReadsClock(Last(r), step) ==> ClockedRun(c, Extend(c, r, step))
    ensures !step.Generate? ==> Last(Extend(c, r, step)).texts == Last(r).texts
  {
    var r' := Extend(c, r, step);
    forall i | 0 <= i < |r'.steps| ensures StepAt(c, r', i) {
      ExtendKeeps(c, r, step, i);
      assert i < |r.steps| ==> StepAt(c, r, i);
    }
    if ClockedRun(c, r) && ReadsClock(Last(r), step) {
      forall i | 0 <= i < |r'.steps| ensures ReadsClock(r'.states[i], r'.steps[i]) { ExtendKeeps(c, r, step, i); }
    }
    if !step.Generate? {
      StepIds(c, Last(r), step);
    }
  }

  /** One more step that reads the clock and digests nothing. */
  lemma GoClocked(c: Config, r: Run, step: Step) returns (r': Run)
    requires ClockedRun(c, r) && Enabled(Last(r), step) && ReadsClock(Last(r), step) && !step.Generate?
    ensures ClockedRun(c, r') && Last(r') == Apply(c, Last(r), step) && Last(r').texts == Last(r).texts
  {
    ExtendRuns(c, r, step);
    r' := Extend(c, r, step);
  }

  /** The first i steps and their states are those of the shorter run; the new step comes last. */
  lemma ExtendKeeps(c: Config, r: Run, step: Step, i: nat)
    requires |r.states| == |r.steps| + 1 && i <= |r.steps|
    ensures var r' := Extend(c, r, step);
            && r'.states[i] == r.states[i]
            && (i < |r.steps| ==> r'.steps[i] == r.steps[i] && r'.states[i + 1] == r.states[i + 1])
            && (i == |r.steps| ==> r'.steps[i] == step && r'.states[i + 1] == Apply(c, Last(r), step))
  {
  }

  lemma {:induction false} ExtendTimesPrefix(c: Config, r: Run, step: Step, i: nat, x: Id, ev: Event)
    requires |r.states| == |r.steps| + 1 && i <= |r.steps|
    ensures Times(Extend(c, r, step), 0, i, x, ev) == Times(r, 0, i, x, ev)
  {
    if i > 0 {
      ExtendTimesPrefix(c, r, step, i - 1, x, ev);
      ExtendKeeps(c, r, step, i - 1);
    }
  }

  lemma ExtendTimes(c: Config, r: Run, step: Step, x: Id, ev: Event)
    requires |r.states| == |r.steps| + 1
    ensures Times(Extend(c, r, step), 0, |r.steps| + 1, x, ev)
         == Times(r, 0, |r.steps|, x, ev) + if Happens(Last(r), step, x, ev) then 1 else 0
  {
    ExtendTimesPrefix(c, r, step, |r.steps|, x, ev);
    ExtendKeeps(c, r, step, |r.steps|);
  }

  // ----- scenes -----

  /** The message waits, with entity `e`; timeout holds `t`. */
  predicate Alone(s: System, x: Id, e: Entity, t: seq<Id>) {
    s.store == Store([x], map[], map[], t, [], map[x := Live(e)]) && s.work == map[]
  }

  /** The message is claimed until `deadline` by work 0, in phase `p`. */
  predicate AloneClaimed(s: System, x: Id, e: Entity, deadline: int, p: Phase, t: seq<Id>) {
    && s.store == Store([], map[], map[x := deadline], t, [], map[x := Live(e)])
    && s.work == map[0 := Work(x, Some(deadline), p)]
  }

  lemma PopAlone(c: Config, s: System, x: Id, e: Entity, deadline: int, t: seq<Id>)
    requires Alone(s, x, e, t)
    ensures AloneClaimed(Apply(c, s, Pop(0, s.now, deadline)), x, Stamp(e, Reserved, s.now), deadline, Fresh, t)
  {
    assert FirstLive(s.store.waiting, s.store.messages) == 0;
    assert s.store.messages - Elements(s.store.waiting[..0]) == s.store.messages;
    assert s.store.waiting[1..] == [];
  }

  lemma LoadAlone(c: Config, s: System, x: Id, e: Entity, deadline: int, t: seq<Id>)
    requires AloneClaimed(s, x, e, deadline, Fresh, t)
    ensures AloneClaimed(Apply(c, s, Load(0)), x, e, deadline, Held(Decoded(e)), t)
  {
  }

  /** The only member of a sorted set is the whole of what is due. */
  lemma OnlyDue(x: Id, score: int, now: int)
    requires score <= now
    ensures FirstDue(map[x := score], now) == [x]
  {
    var z := map[x := score];
    assert UpTo(z, now) == z;
    RankedMembers(z);
    var ids := FirstDue(z, now);
    assert ids[0] in ids;
  }

  /** A run that generates an id and pushes one message under it at second 0. */
  lemma Opening(c: Config, attempts: int, maxAttempts: int, delay: int) returns (r: Run, x: Id)
    ensures ClockedRun(c, r) && CollisionFree(c, r) && |Last(r).texts| == 1
    ensures r.steps == [Generate, Push(x, attempts, maxAttempts, delay, 0)]
    ensures r.states[0].store == EMPTY && r.states[0].tracks == map[] && r.states[1].store == EMPTY
    ensures Last(r).now == 0 && Last(r).work == map[]
    ensures Last(r).store == Scripts.Push(EMPTY, x, PushedEntity(attempts, maxAttempts, delay, 0), delay == 0, delay)
  {
    var s0 := System(EMPTY, 0, Counter(0, 0), {}, {}, map[], map[]);
    var text := Payload(c.channel, Advance(s0.counter, c.maxSequence));
    x := c.digest(text);
    var r0 := Run([s0], []);
    ExtendRuns(c, r0, Generate);
    var r1 := Extend(c, r0, Generate);
    assert Last(r1) == s0.(counter := Advance(s0.counter, c.maxSequence), texts := {text}, drafts := {x});
    var push := Push(x, attempts, maxAttempts, delay, 0);
    ExtendRuns(c, r1, push);
    r := Extend(c, r1, push);
    OneTextIsCollisionFree(c, r);
  }

  /** One digested text cannot collide. */
  lemma OneTextIsCollisionFree(c: Config, r: Run)
    requires r.states != [] && |Last(r).texts| == 1
    ensures CollisionFree(c, r)
  {
    var texts := Last(r).texts;
    forall a, b | a in texts && b in texts ensures a == b {
      assert |texts - {a}| == 0;
      assert b in texts - {a} || a == b;
    }
  }
}
