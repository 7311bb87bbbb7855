/**
 * Timely consumers own their messages. With one non-decreasing clock, if every
 * commit runs in a second before its reservation's deadline and nobody retries
 * from outside, then every commit finds its own reservation and no message ever
 * has two copies. Consumers may crash at any point.
 */
module Exclusivity {
  import opened Messages
  import opened Scripts
  import opened Protocol
  import opened Projection
  import opened Safety
  import opened Guarantees

  /** The delivery `k` is still within its deadline. */
  predicate Active(s: System, k: nat) {
    k in s.work && s.work[k].deadline.Some? && s.now < s.work[k].deadline.value
  }

  predicate TimelyStep(s: System, step: Step) {
    && (step.ForwardTimeout? ==> step.at <= s.now)
    && !step.BeginOutsideRetry?
    && (Ends(step) ==> Active(s, step.k))
  }

  ghost predicate TimelyRun(c: Config, r: Run) {
    IsRun(c, r) && forall i :: 0 <= i < |r.steps| ==> TimelyStep(r.states[i], r.steps[i])
  }

  /** The reservation of its message is the one this delivery made. */
  predicate Owns(s: System, k: nat) {
    k in s.work && s.work[k].id in s.store.reserved && s.work[k].deadline == Some(s.store.reserved[s.work[k].id])
  }

  ghost predicate Exclusive(s: System) {
    && (forall k :: k in s.work ==> s.work[k].deadline.Some?)
    && (forall k :: Active(s, k) ==> Owns(s, k))
    && (forall j, k :: Active(s, j) && Active(s, k) && j != k ==> s.work[j].id != s.work[k].id)
    && (forall x :: TrackOf(s, x).unmatched == 0)
  }

  lemma NowNeverFalls(c: Config, s: System, step: Step)
    requires Enabled(s, step)
    ensures Apply(c, s, step).now >= s.now
  {
  }

  /** An active delivery comes from an active delivery of the same message, or from this very claim. */
  lemma ActiveOrigin(c: Config, s: System, step: Step, k: nat)
    requires Enabled(s, step) && Active(Apply(c, s, step), k) && TimelyStep(s, step)
    ensures var w := Apply(c, s, step).work[k];
            || (Active(s, k) && w.id == s.work[k].id && w.deadline == s.work[k].deadline
                && !(Ends(step) && step.k == k))
            || (step.Pop? && Claimed(s.store) == Some(w.id) && w.deadline == Some(step.deadline))
  {
    StepWork(c, s, step, k);
    NowNeverFalls(c, s, step);
  }

  /** A message with a single copy, reserved, keeps its reservation unless its owner ends or the deadline passes. */
  lemma ReservationKept(l: Local, tag: Label)
    requires CanMove(l, tag) && l.track.unmatched == 0 && l.reserved.Some?
    requires !tag.Expired? && !tag.Committed? && !tag.Discarded? && !tag.Retried?
    ensures MoveLocal(tag, l).reserved == l.reserved && !tag.Claim?
  {
  }

  /** While a delivery is active, its message is not moved by anyone else. */
  lemma OwnedLabel(c: Config, s: System, step: Step, k: nat)
    requires Inv(c, s) && Exclusive(s) && Enabled(s, step) && TimelyStep(s, step)
    requires Active(s, k) && !(Ends(step) && step.k == k)
    ensures var tag := LabelOf(s, step, s.work[k].id);
            !tag.Expired? && !tag.Committed? && !tag.Discarded? && !tag.Retried?
  {
    var x := s.work[k].id;
    assert Owns(s, k);
    StepPossible(s, step, x);
  }

  lemma StepKeepsOwner(c: Config, s: System, step: Step, k: nat)
    requires Inv(c, s) && Exclusive(s) && Enabled(s, step) && TimelyStep(s, step)
    requires Active(Apply(c, s, step), k)
    ensures Owns(Apply(c, s, step), k)
  {
    var s' := Apply(c, s, step);
    var x := s'.work[k].id;
    ActiveOrigin(c, s, step, k);
    StepKeepsMessage(c, s, step, x);
    if Active(s, k) && x == s.work[k].id && s'.work[k].deadline == s.work[k].deadline && !(Ends(step) && step.k == k) {
      assert Owns(s, k);
      OwnedLabel(c, s, step, k);
      ReservationKept(LocalOf(s, x), LabelOf(s, step, x));
      assert Score(s'.store.reserved, x) == Score(s.store.reserved, x);
    } else {
      assert LabelOf(s, step, x) == Claim(step.at, step.deadline);
      assert Score(s'.store.reserved, x) == Some(step.deadline);
    }
  }

  lemma ClaimIsExclusive(c: Config, s: System, step: Step, k: nat)
    requires Inv(c, s) && Exclusive(s) && Enabled(s, step) && step.Pop? && Active(s, k)
    ensures Claimed(s.store) != Some(s.work[k].id)
  {
    var x := s.work[k].id;
    assert Owns(s, k);
    if Claimed(s.store) == Some(x) {
      StepKeepsMessage(c, s, step, x);
      ReservationKept(LocalOf(s, x), LabelOf(s, step, x));
      assert false;
    }
  }

  lemma StepKeepsApart(c: Config, s: System, step: Step, j: nat, k: nat)
    requires Inv(c, s) && Exclusive(s) && Enabled(s, step) && TimelyStep(s, step)
    requires Active(Apply(c, s, step), j) && Active(Apply(c, s, step), k) && j != k
    ensures Apply(c, s, step).work[j].id != Apply(c, s, step).work[k].id
  {
    ActiveOrigin(c, s, step, j);
    ActiveOrigin(c, s, step, k);
    StepWork(c, s, step, j);
    StepWork(c, s, step, k);
    if step.Pop? {
      if Active(s, j) { ClaimIsExclusive(c, s, step, j); }
      if Active(s, k) { ClaimIsExclusive(c, s, step, k); }
    }
  }

  lemma StepMatched(c: Config, s: System, step: Step, x: Id)
    requires Inv(c, s) && Exclusive(s) && Enabled(s, step) && TimelyStep(s, step)
    ensures TrackOf(Apply(c, s, step), x).unmatched == 0
  {
    if Ends(step) {
      assert Owns(s, step.k);
    }
    StepRecords(c, s, step, x);
  }

  lemma StepKeepsExclusive(c: Config, s: System, step: Step)
    requires Inv(c, s) && Exclusive(s) && Enabled(s, step) && TimelyStep(s, step)
    ensures Exclusive(Apply(c, s, step))
  {
    var s' := Apply(c, s, step);
    forall k | k in s'.work ensures s'.work[k].deadline.Some? { StepWork(c, s, step, k); }
    forall k | Active(s', k) ensures Owns(s', k) { StepKeepsOwner(c, s, step, k); }
    forall j, k | Active(s', j) && Active(s', k) && j != k ensures s'.work[j].id != s'.work[k].id {
      StepKeepsApart(c, s, step, j, k);
    }
    forall x ensures TrackOf(s', x).unmatched == 0 { StepMatched(c, s, step, x); }
  }

  lemma {:induction false} TimelyRunsAreExclusive(c: Config, r: Run, i: nat)
    requires TimelyRun(c, r) && CollisionFree(c, r) && i < |r.states|
    ensures Exclusive(r.states[i])
  {
    if i > 0 {
      TimelyRunsAreExclusive(c, r, i - 1);
      RunsAreSound(c, r, i - 1);
      assert StepAt(c, r, i - 1);
      StepKeepsExclusive(c, r.states[i - 1], r.steps[i - 1]);
    }
  }

  /** Every commit of a timely run acts on the reservation its own claim made. */
  lemma CommitsFindTheirReservation(c: Config, r: Run, i: nat)
    requires TimelyRun(c, r) && CollisionFree(c, r) && i < |r.steps| && Ends(r.steps[i])
    ensures Owns(r.states[i], r.steps[i].k)
  {
    TimelyRunsAreExclusive(c, r, i);
    assert TimelyStep(r.states[i], r.steps[i]);
  }

  /** No message of a timely run ever has two copies, and no two live deliveries share a message. */
  lemma TimelinessIsExclusivity(c: Config, r: Run, i: nat)
    requires TimelyRun(c, r) && CollisionFree(c, r) && i < |r.states|
    ensures DisjointBuckets(r.states[i].store)
    ensures forall j, k :: Active(r.states[i], j) && Active(r.states[i], k) && j != k ==>
              r.states[i].work[j].id != r.states[i].work[k].id
  {
    TimelyRunsAreExclusive(c, r, i);
    forall x ensures Occurrences(r.states[i].store, x) <= 1 {
      StateFacts(c, r, i, x);
      assert TrackOf(r.states[i], x).unmatched == 0;
    }
  }
}
