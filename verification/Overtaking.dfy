/**
 * First in, first out, over whole runs: a waiting message is overtaken by no more pops
 * than there are ids ahead of it, whatever else interleaves.
 */
module Overtaking {
  import opened Messages
  import opened Lists
  import opened SortedSets
  import opened Scripts
  import opened Protocol
  import opened Projection
  import opened Guarantees

  /** Some copy of `x` has at most p ids ahead of it. */
  predicate Within(w: seq<Id>, x: Id, p: int) {
    exists q :: 0 <= q <= p && q < |w| && w[q] == x
  }

  /** Readable, and waiting with at most p ids ahead. */
  predicate Standing(s: Store, x: Id, p: int) {
    IsLive(s.messages, x) && Within(s.waiting, x, p)
  }

  /**
   * The steps that take a readable id out of waiting without claiming it: damage to its entity, a retry
   * that finds no reservation, and a reload round that takes a finished copy of it out of timeout.
   */
  predicate Disturbs(s: System, step: Step, x: Id) {
    match step
    case Damage(id, _) => id == x
    case FinishRetry(k, _) => WorkAt(s, k).id == x && x !in s.store.reserved
    case Reload(src, _) => x in Take(SourceList(s.store, src)) && !Accepts(s.store.messages, src, x)
    case _ => false
  }

  /** The number of pops in steps lo to hi - 1. */
  function Pops(r: Run, lo: nat, hi: nat): nat
    requires lo <= hi <= |r.steps|
  {
    if lo == hi then 0 else Pops(r, lo, hi - 1) + if r.steps[hi - 1].Pop? then 1 else 0
  }

  // ----- lists -----

  lemma WithinLonger(w: seq<Id>, more: seq<Id>, x: Id, p: int)
    requires Within(w, x, p)
    ensures Within(w + more, x, p)
  {
    var q :| 0 <= q <= p && q < |w| && w[q] == x;
    assert (w + more)[q] == x;
  }

  /** Removing other ids does not push `x` back. */
  lemma {:induction false} WithinWithout(w: seq<Id>, gone: set<Id>, x: Id, q: nat)
    requires q < |w| && w[q] == x && x !in gone
    ensures Within(Without(w, gone), x, q)
    decreases |w|
  {
    var front, last := w[..|w| - 1], w[|w| - 1];
    var rest := Without(front, gone);
    WithoutLength(front, gone);
    if q == |w| - 1 {
      assert (rest + [last])[|rest|] == x;
    } else {
      WithinWithout(front, gone, x, q);
      WithinLonger(rest, [last], x, q);
    }
  }

  lemma {:induction false} WithoutLength(w: seq<Id>, gone: set<Id>)
    ensures |Without(w, gone)| <= |w|
  {
    if w != [] {
      WithoutLength(w[..|w| - 1], gone);
    }
  }

  lemma WithinRest(w: seq<Id>, gone: set<Id>, more: seq<Id>, x: Id, p: int)
    requires Within(w, x, p) && x !in gone
    ensures Within(Without(w, gone) + more, x, p)
  {
    var q :| 0 <= q <= p && q < |w| && w[q] == x;
    WithinWithout(w, gone, x, q);
    WithinLonger(Without(w, gone), more, x, p);
  }

  // ----- script by script -----

  /** A pop claims the message or brings it at least one place nearer. */
  lemma PopAdvances(s: Store, now: int, deadline: int, x: Id, p: int)
    requires Standing(s, x, p) && Claimed(s) != Some(x)
    ensures Within(Scripts.Pop(s, now, deadline).waiting, x, p - 1)
  {
    var i := FirstLive(s.waiting, s.messages);
    var q :| 0 <= q <= p && q < |s.waiting| && s.waiting[q] == x;
    assert i <= q && i != q;
    assert s.waiting[i + 1..][q - i - 1] == x;
  }

  lemma CommitKeeps(s: Store, id: Id, o: Outcome, now: int, x: Id, p: int)
    requires Within(s.waiting, x, p)
    ensures Within(Scripts.Commit(s, id, o, now).waiting, x, p)
  {
    WithinLonger(s.waiting, [id], x, p);
  }

  lemma RetryKeeps(s: Store, id: Id, raw: Entity, toWaiting: bool, score: int, x: Id, p: int)
    requires Within(s.waiting, x, p) && (id == x ==> x in s.reserved)
    ensures Within(Scripts.Retry(s, id, raw, toWaiting, score).waiting, x, p)
  {
    WithinLonger(s.waiting, [id], x, p);
    if id != x {
      WithinRest(s.waiting, {id}, [], x, p);
      WithinRest(s.waiting, {id}, [id], x, p);
      assert Without(s.waiting, {id}) + [] == Without(s.waiting, {id});
    }
  }

  lemma MoveKeeps(s: Store, now: int, x: Id, p: int)
    requires Standing(s, x, p)
    ensures Within(Move(s, now).waiting, x, p)
  {
    var ids := FirstDue(s.delayed, now);
    WithinRest(s.waiting, Unstored(ids, s.messages), Without(ids, Undecodable(ids, s.messages)), x, p);
  }

  lemma ReloadKeeps(s: Store, src: Source, now: int, x: Id, p: int)
    requires Within(s.waiting, x, p) && (x in Take(SourceList(s, src)) ==> Accepts(s.messages, src, x))
    ensures Within(Scripts.Reload(s, src, now).waiting, x, p)
  {
    var all := SourceList(s, src);
    var ids := all[..RoundSize(all)];
    assert ids == Take(all);
    var no := Rejected(ids, s.messages, src);
    WithinRest(s.waiting, no, Without(ids, no), x, p);
  }

  // ----- step by step -----

  /** The places that a step lets `x` advance at least. */
  function PlacesWon(step: Step): nat {
    if step.Pop? then 1 else 0
  }

  lemma OnPop(c: Config, s: System, step: Step, x: Id, p: int)
    requires step.Pop? && Standing(s.store, x, p) && !Happens(s, step, x, ClaimEvent)
    ensures Within(Apply(c, s, step).store.waiting, x, p - 1)
  {
    PopAdvances(s.store, step.at, step.deadline, x, p);
    assert Apply(c, s, step).store == Scripts.Pop(s.store, step.at, step.deadline);
  }

  lemma OnFinishRetry(c: Config, s: System, step: Step, x: Id, p: int)
    requires step.FinishRetry? && Enabled(s, step) && Within(s.store.waiting, x, p) && !Disturbs(s, step, x)
    ensures Within(Apply(c, s, step).store.waiting, x, p)
  {
    var w := WorkAt(s, step.k);
    RetryKeeps(s.store, w.id, w.phase.raw, w.phase.delay <= 0, step.at + w.phase.delay, x, p);
  }

  lemma OnCommit(c: Config, s: System, step: Step, x: Id, p: int)
    requires step.Commit? && Within(s.store.waiting, x, p)
    ensures Within(Apply(c, s, step).store.waiting, x, p)
  {
    CommitKeeps(s.store, WorkAt(s, step.k).id, step.outcome, step.at, x, p);
  }

  lemma OnForward(c: Config, s: System, step: Step, x: Id, p: int)
    requires step.ForwardDelayed? && Standing(s.store, x, p)
    ensures Within(Apply(c, s, step).store.waiting, x, p)
  {
    MoveKeeps(s.store, step.at + 1, x, p);
  }

  lemma OnReload(c: Config, s: System, step: Step, x: Id, p: int)
    requires step.Reload? && Within(s.store.waiting, x, p) && !Disturbs(s, step, x)
    ensures Within(Apply(c, s, step).store.waiting, x, p)
  {
    ReloadKeeps(s.store, step.source, step.at, x, p);
  }

  /** The other steps leave waiting alone, except that a push may lengthen it. */
  lemma OnOther(c: Config, s: System, step: Step, x: Id, p: int)
    requires !step.Pop? && !step.FinishRetry? && !step.Commit? && !step.ForwardDelayed? && !step.Reload?
    requires Within(s.store.waiting, x, p)
    ensures Within(Apply(c, s, step).store.waiting, x, p)
  {
    if step.Push? {
      WithinLonger(s.store.waiting, [step.id], x, p);
    } else {
      assert Apply(c, s, step).store.waiting == s.store.waiting;
    }
  }

  lemma StepKeepsPlace(c: Config, s: System, step: Step, x: Id, p: int)
    requires Standing(s.store, x, p) && Enabled(s, step) && !Disturbs(s, step, x) && !Happens(s, step, x, ClaimEvent)
    ensures Within(Apply(c, s, step).store.waiting, x, p - PlacesWon(step))
  {
    match step
    case Pop(_, _, _) => OnPop(c, s, step, x, p);
    case FinishRetry(_, _) => OnFinishRetry(c, s, step, x, p);
    case Commit(_, _, _) => OnCommit(c, s, step, x, p);
    case ForwardDelayed(_) => OnForward(c, s, step, x, p);
    case Reload(_, _) => OnReload(c, s, step, x, p);
    case _ => OnOther(c, s, step, x, p);
  }

  lemma MoveKeepsReadable(l: Local, tag: Label)
    requires Readable(l) && Possible(l, tag) && !tag.Damaged?
    ensures Readable(MoveLocal(tag, l))
  {
  }

  lemma StepKeepsStanding(c: Config, s: System, step: Step, x: Id, p: int)
    requires Standing(s.store, x, p) && Enabled(s, step) && !Disturbs(s, step, x) && !Happens(s, step, x, ClaimEvent)
    ensures Standing(Apply(c, s, step).store, x, p - PlacesWon(step))
  {
    StepKeepsPlace(c, s, step, x, p);
    StepProjects(c, s, step, x);
    StepPossible(s, step, x);
    MoveKeepsReadable(LocalOf(s, x), LabelOf(s, step, x));
    assert Lookup(Apply(c, s, step).store.messages, x) == LocalOf(Apply(c, s, step), x).record;
  }

  // ----- over a run -----

  /** No step from i to j - 1 disturbs `x`. */
  predicate Undisturbed(r: Run, i: nat, j: nat, x: Id)
    requires j <= |r.steps| < |r.states|
  {
    forall k :: i <= k < j ==> !Disturbs(r.states[k], r.steps[k], x)
  }

  lemma {:induction false} StandsOrClaimed(c: Config, r: Run, i: nat, j: nat, x: Id, p: int)
    requires Leads(c, r) && i <= j < |r.states| && Undisturbed(r, i, j, x)
    requires Standing(r.states[i].store, x, p) && Times(r, i, j, x, ClaimEvent) == 0
    ensures Standing(r.states[j].store, x, p - Pops(r, i, j))
    decreases j
  {
    if i < j {
      assert Undisturbed(r, i, j - 1, x);
      StandsOrClaimed(c, r, i, j - 1, x, p);
      assert StepAt(c, r, j - 1);
      StepKeepsStanding(c, r.states[j - 1], r.steps[j - 1], x, p - Pops(r, i, j - 1));
    }
  }

  /**
   * Bounded overtaking: from any state in which a readable message waits with at most p ids ahead, if
   * more than p pops follow and no step in between disturbs the message, one of the pops claims it.
   */
  lemma ClaimedWithinPlaces(c: Config, r: Run, i: nat, j: nat, x: Id, p: nat)
    requires Leads(c, r) && i <= j < |r.states| && Undisturbed(r, i, j, x)
    requires Standing(r.states[i].store, x, p) && Pops(r, i, j) > p
    ensures Times(r, i, j, x, ClaimEvent) > 0
  {
    if Times(r, i, j, x, ClaimEvent) == 0 {
      StandsOrClaimed(c, r, i, j, x, p);
    }
  }
}
