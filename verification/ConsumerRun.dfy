/**
 * Consumer.Run as a concurrent state machine: the pop loop, the semaphore, the
 * wait group and one goroutine per claimed message, in any interleaving.
 */
module ConsumerRun {
  import opened Messages
  import opened Consumers

  datatype Limits = Limits(concurrent: nat, autoRestart: bool, maxMessages: nat, schedule: seq<int>)

  /** Where the pop loop is. */
  datatype Stage = Looping | Acquiring(k: nat) | Draining | Exited

  /** Where a goroutine is: in the handler, past its commit call, past its counter, past the semaphore. */
  datatype Phase = Running | Committed(bin: Bin) | Recorded | Released

  /** One claimed message: the copy the handler got, how the handler ended, its commit calls and the answer to them. */
  datatype Delivery = Delivery(id: Id, local: Entity, ending: Option<Ending>, calls: seq<Call>, answer: Answer)

  datatype State = State(
    stage: Stage,
    semaphore: int,                // slots taken
    group: int,                    // the wait group's counter
    goroutines: map<nat, Phase>,
    processed: nat,
    counters: Counters,
    swallowed: nat,                // panics whose recovery commit failed
    fatal: nat,                    // pop errors that end the run
    deliveries: map<nat, Delivery>)

  datatype Step =
    | ClaimMessage(k: nat, id: Id, local: Entity)
    | Acquire
    | CommitCall(k: nat, ending: Ending, answer: Answer)
    | CountBin(k: nat)
    | ReleaseSlot(k: nat)
    | Leave(k: nat)
    | Cancel
    | PopError
    | EnoughMessages
    | Exit

  predicate Init(s: State) {
    s == State(Looping, 0, 0, map[], 0, Counters(0, 0, 0, 0, 0, 0), 0, 0, map[])
  }

  predicate Enough(c: Limits, s: State) {
    c.autoRestart && c.maxMessages > 0 && s.processed >= c.maxMessages
  }

  predicate Enabled(c: Limits, s: State, step: Step) {
    match step
    case ClaimMessage(k, _, _) => s.stage.Looping? && !Enough(c, s) && k !in s.deliveries
    case Acquire => s.stage.Acquiring? && s.semaphore < c.concurrent
    case CommitCall(k, _, _) => k in s.goroutines && s.goroutines[k].Running? && k in s.deliveries
    case CountBin(k) => k in s.goroutines && s.goroutines[k].Committed?
    case ReleaseSlot(k) => k in s.goroutines && s.goroutines[k].Recorded?
    case Leave(k) => k in s.goroutines && s.goroutines[k].Released?
    case Cancel => s.stage.Looping?
    case PopError => s.stage.Looping? && !Enough(c, s)
    case EnoughMessages => s.stage.Looping? && Enough(c, s)
    case Exit => s.stage.Draining? && s.group == 0
  }

  function ApplyClaim(s: State, k: nat, id: Id, local: Entity): State {
    s.(stage := Acquiring(k),
       processed := s.processed + 1,
       deliveries := s.deliveries[k := Delivery(id, local, None, [], Refused)])
  }

  function ApplyAcquire(s: State, k: nat): State {
    s.(stage := Looping, semaphore := s.semaphore + 1, group := s.group + 1, goroutines := s.goroutines[k := Running])
  }

  function ApplyCommit(c: Limits, s: State, k: nat, d: Delivery, e: Ending, a: Answer): State {
    var call := CallFor(d.local, d.id, e, c.schedule);
    s.(goroutines := s.goroutines[k := Committed(BinFor(call, e, a))],
       deliveries := s.deliveries[k := d.(ending := Some(e), calls := d.calls + [call], answer := a)])
  }

  function ApplyCount(s: State, k: nat, b: Bin): State {
    s.(goroutines := s.goroutines[k := Recorded],
       counters := Counted(s.counters, b),
       swallowed := s.swallowed + if b.Swallowed? then 1 else 0)
  }

  function Apply(c: Limits, s: State, step: Step): State
    requires Enabled(c, s, step)
  {
    match step
    case ClaimMessage(k, id, local) => ApplyClaim(s, k, id, local)
    case Acquire => ApplyAcquire(s, s.stage.k)
    case CommitCall(k, e, a) => ApplyCommit(c, s, k, s.deliveries[k], e, a)
    case CountBin(k) => ApplyCount(s, k, s.goroutines[k].bin)
    case ReleaseSlot(k) => s.(goroutines := s.goroutines[k := Released], semaphore := s.semaphore - 1)
    case Leave(k) => s.(goroutines := s.goroutines - {k}, group := s.group - 1)
    case Cancel => s.(stage := Draining)
    case PopError => s.(stage := Draining, fatal := s.fatal + 1, counters := Counted(s.counters, Erred))
    case EnoughMessages => s.(stage := Draining)
    case Exit => s.(stage := Exited)
  }

  // ----- invariant -----

  /** Goroutines in their handler. */
  function InHandler(g: map<nat, Phase>): set<nat> {
    set k | k in g && g[k].Running?
  }

  /** Goroutines not counted yet. */
  function Uncounted(g: map<nat, Phase>): set<nat> {
    set k | k in g && (g[k].Running? || g[k].Committed?)
  }

  /** Goroutines that hold a slot of the semaphore. */
  function Holding(g: map<nat, Phase>): set<nat> {
    set k | k in g && !g[k].Released?
  }

  function Held(s: State): nat {
    if s.stage.Acquiring? then 1 else 0
  }

  predicate Slots(c: Limits, s: State) {
    && s.semaphore == |Holding(s.goroutines)| <= c.concurrent
    && s.group == |s.goroutines|
    && (s.stage.Exited? ==> s.group == 0)
  }

  predicate Accounts(c: Limits, s: State) {
    && s.processed + s.fatal == Total(s.counters) + s.swallowed + |Uncounted(s.goroutines)| + Held(s)
    && s.fatal <= s.counters.errors
    && (c.autoRestart && c.maxMessages > 0 ==> s.processed <= c.maxMessages)
  }

  /** The commit calls a delivery should have had: none before its handler ends, the right one after. */
  function ExpectedCalls(d: Delivery, schedule: seq<int>): seq<Call> {
    match d.ending
    case None => []
    case Some(e) => [CallFor(d.local, d.id, e, schedule)]
  }

  predicate OneCallEach(c: Limits, s: State) {
    && s.processed == |s.deliveries|
    && s.goroutines.Keys <= s.deliveries.Keys
    && (s.stage.Acquiring? ==> s.stage.k in s.deliveries && s.stage.k !in s.goroutines)
    && forall k :: k in s.deliveries ==>
         && s.deliveries[k].calls == ExpectedCalls(s.deliveries[k], c.schedule)
         && (s.deliveries[k].ending.None? <==> k in InHandler(s.goroutines) || s.stage == Acquiring(k))
  }

  predicate Inv(c: Limits, s: State) {
    Slots(c, s) && Accounts(c, s) && OneCallEach(c, s)
  }

  lemma SizeAfterPut<V>(m: map<nat, V>, k: nat, v: V)
    ensures |m[k := v]| == |m| + if k in m then 0 else 1
  {
    assert m[k := v].Keys == m.Keys + {k};
  }

  lemma SizeAfterRemove<V>(m: map<nat, V>, k: nat)
    requires k in m
    ensures |m - {k}| == |m| - 1
  {
    assert (m - {k}).Keys == m.Keys - {k};
  }

  /** Advancing one goroutine moves it between the three groups and touches nobody else. */
  lemma GroupsAfter(g: map<nat, Phase>, k: nat, p: Phase)
    ensures var g' := g[k := p];
            && InHandler(g') == (if p.Running? then InHandler(g) + {k} else InHandler(g) - {k})
            && Uncounted(g') == (if p.Running? || p.Committed? then Uncounted(g) + {k} else Uncounted(g) - {k})
            && Holding(g') == (if p.Released? then Holding(g) - {k} else Holding(g) + {k})
  {
  }

  lemma GroupsAfterLeave(g: map<nat, Phase>, k: nat)
    requires k in g && g[k].Released?
    ensures InHandler(g - {k}) == InHandler(g) && Uncounted(g - {k}) == Uncounted(g) && Holding(g - {k}) == Holding(g)
  {
  }

  lemma ClaimKeeps(c: Limits, s: State, k: nat, id: Id, local: Entity)
    requires Inv(c, s) && s.stage.Looping? && !Enough(c, s) && k !in s.deliveries
    ensures Inv(c, ApplyClaim(s, k, id, local))
  {
    SizeAfterPut(s.deliveries, k, Delivery(id, local, None, [], Refused));
  }

  lemma AcquireKeeps(c: Limits, s: State)
    requires Inv(c, s) && s.stage.Acquiring? && s.semaphore < c.concurrent
    ensures Inv(c, ApplyAcquire(s, s.stage.k))
  {
    GroupsAfter(s.goroutines, s.stage.k, Running);
    SizeAfterPut(s.goroutines, s.stage.k, Running);
  }

  /** Committing changes no group but the goroutines in their handler. */
  lemma GroupsAfterCommit(g: map<nat, Phase>, k: nat, b: Bin)
    requires k in g && g[k].Running?
    ensures var g' := g[k := Committed(b)];
            && InHandler(g') == InHandler(g) - {k} && Uncounted(g') == Uncounted(g) && Holding(g') == Holding(g)
            && |g'| == |g| && g'.Keys == g.Keys
  {
    GroupsAfter(g, k, Committed(b));
    SizeAfterPut(g, k, Committed(b));
    assert k in Uncounted(g) && k in Holding(g);
    assert g[k := Committed(b)].Keys == g.Keys;
  }

  lemma CommitKeeps(c: Limits, s: State, k: nat, e: Ending, a: Answer)
    requires Inv(c, s) && Enabled(c, s, CommitCall(k, e, a))
    ensures Inv(c, ApplyCommit(c, s, k, s.deliveries[k], e, a))
  {
    var d := s.deliveries[k];
    var s' := ApplyCommit(c, s, k, d, e, a);
    GroupsAfterCommit(s.goroutines, k, BinFor(CallFor(d.local, d.id, e, c.schedule), e, a));
    SizeAfterPut(s.deliveries, k, s'.deliveries[k]);
    assert d.calls == [];
    assert OneCallEach(c, s');
  }

  lemma CountKeeps(c: Limits, s: State, k: nat)
    requires Inv(c, s) && Enabled(c, s, CountBin(k))
    ensures Inv(c, ApplyCount(s, k, s.goroutines[k].bin))
  {
    GroupsAfter(s.goroutines, k, Recorded);
    SizeAfterPut(s.goroutines, k, Recorded);
    EveryBinCountsOnce(s.counters, s.goroutines[k].bin);
    assert k in Uncounted(s.goroutines) && k !in InHandler(s.goroutines);
    assert Holding(s.goroutines[k := Recorded]) == Holding(s.goroutines);
    assert InHandler(s.goroutines[k := Recorded]) == InHandler(s.goroutines);
  }

  lemma ReleaseKeeps(c: Limits, s: State, k: nat)
    requires Inv(c, s) && Enabled(c, s, ReleaseSlot(k))
    ensures Inv(c, Apply(c, s, ReleaseSlot(k)))
  {
    GroupsAfter(s.goroutines, k, Released);
    SizeAfterPut(s.goroutines, k, Released);
    assert k in Holding(s.goroutines);
    assert InHandler(s.goroutines[k := Released]) == InHandler(s.goroutines);
    assert Uncounted(s.goroutines[k := Released]) == Uncounted(s.goroutines);
  }

  lemma LeaveKeeps(c: Limits, s: State, k: nat)
    requires Inv(c, s) && Enabled(c, s, Leave(k))
    ensures Inv(c, Apply(c, s, Leave(k)))
  {
    GroupsAfterLeave(s.goroutines, k);
    SizeAfterRemove(s.goroutines, k);
  }

  lemma StepKeepsInv(c: Limits, s: State, step: Step)
    requires Inv(c, s) && Enabled(c, s, step)
    ensures Inv(c, Apply(c, s, step))
  {
    match step
    case ClaimMessage(k, id, local) => ClaimKeeps(c, s, k, id, local);
    case Acquire => AcquireKeeps(c, s);
    case CommitCall(k, e, a) => CommitKeeps(c, s, k, e, a);
    case CountBin(k) => CountKeeps(c, s, k);
    case ReleaseSlot(k) => ReleaseKeeps(c, s, k);
    case Leave(k) => LeaveKeeps(c, s, k);
    case _ =>
  }

  // ----- runs -----

  datatype Run = Run(states: seq<State>, steps: seq<Step>)

  ghost predicate IsRun(c: Limits, r: Run) {
    && |r.states| == |r.steps| + 1
    && Init(r.states[0])
    && forall i :: 0 <= i < |r.steps| ==>
         Enabled(c, r.states[i], r.steps[i]) && r.states[i + 1] == Apply(c, r.states[i], r.steps[i])
  }

  lemma {:induction false} RunsKeepInv(c: Limits, r: Run, i: nat)
    requires IsRun(c, r) && i < |r.states|
    ensures Inv(c, r.states[i])
  {
    if i > 0 {
      RunsKeepInv(c, r, i - 1);
      StepKeepsInv(c, r.states[i - 1], r.steps[i - 1]);
    } else {
      assert Holding(r.states[0].goroutines) == {} && Uncounted(r.states[0].goroutines) == {};
    }
  }

  /** Messages claimed whose commit call has not been made yet. */
  function Uncommitted(s: State): set<nat> {
    set k | k in s.deliveries && s.deliveries[k].calls == []
  }

  /**
   * Handlers never outnumber the limit, claimed messages without a commit call never outnumber it by
   * more than one, and nothing is claimed beyond the message cap of an auto-restarting consumer.
   */
  lemma ConcurrencyBounded(c: Limits, r: Run, i: nat)
    requires IsRun(c, r) && i < |r.states|
    ensures |InHandler(r.states[i].goroutines)| <= c.concurrent
    ensures |Uncommitted(r.states[i])| <= c.concurrent + 1
    ensures c.autoRestart && c.maxMessages > 0 ==> |r.states[i].deliveries| <= c.maxMessages
  {
    RunsKeepInv(c, r, i);
    var s := r.states[i];
    Contained(InHandler(s.goroutines), Holding(s.goroutines));
    var claimed := if s.stage.Acquiring? then {s.stage.k} else {};
    Contained(Uncommitted(s), InHandler(s.goroutines) + claimed);
  }

  lemma {:induction false} Contained(a: set<nat>, b: set<nat>)
    requires a <= b
    ensures |a| <= |b|
  {
    if a != {} {
      var x :| x in a;
      Contained(a - {x}, b - {x});
    }
  }

  /**
   * At any time a claimed message has had no commit call while its handler is not through, and afterwards
   * exactly the one its handler's ending calls for.
   */
  lemma OneRightCommit(c: Limits, r: Run, i: nat, k: nat)
    requires IsRun(c, r) && i < |r.states| && k in r.states[i].deliveries
    ensures var d := r.states[i].deliveries[k];
            match d.ending
            case None => d.calls == []
            case Some(Returned(RequeueResult)) => d.calls == [RequeueCall(d.id)]
            case Some(Returned(DropResult)) => d.calls == [DropCall(d.id)]
            case Some(Returned(AckResult)) => d.calls == [AckCall(d.id)]
            case Some(Returned(OtherResult)) => d.calls == [AckCall(d.id)]
            case Some(_) =>
              if d.local.attempts < d.local.maxAttempts
              then d.calls == [RetryCall(d.id, RetrySeconds(c.schedule, d.local.attempts + 1))]
              else d.calls == [FailCall(d.id)]
  {
    RunsKeepInv(c, r, i);
  }

  // ----- the counters -----

  /** The handler is through and the delivery is counted in `b`. */
  predicate InBin(d: Delivery, b: Bin) {
    d.ending.Some? && d.calls != [] && BinFor(d.calls[0], d.ending.value, d.answer) == b
  }

  /** The deliveries already counted in `b`. */
  function Settled(s: State, b: Bin): set<nat> {
    set k | k in s.deliveries && k !in Uncounted(s.goroutines) && InBin(s.deliveries[k], b)
  }

  /** What the consumer's counter for `b` shows; the fatal pop error is not a delivery. */
  function Shown(s: State, b: Bin): int {
    match b
    case Acked => s.counters.acked
    case Retried => s.counters.retried
    case Requeued => s.counters.requeued
    case GivenUp => s.counters.failed
    case Discarded => s.counters.dropped
    case Erred => s.counters.errors - s.fatal
    case Swallowed => s.swallowed
  }

  predicate Exact(s: State, b: Bin) {
    |Settled(s, b)| == Shown(s, b)
  }

  /** A goroutine past its commit knows its bin. */
  predicate BinsKnown(s: State) {
    forall k :: k in s.goroutines && s.goroutines[k].Committed? && k in s.deliveries ==>
      InBin(s.deliveries[k], s.goroutines[k].bin)
  }

  lemma CommitKnowsBin(c: Limits, s: State, k: nat, e: Ending, a: Answer)
    requires Inv(c, s) && BinsKnown(s) && Enabled(c, s, CommitCall(k, e, a))
    ensures BinsKnown(ApplyCommit(c, s, k, s.deliveries[k], e, a))
  {
    var d := s.deliveries[k];
    assert k in InHandler(s.goroutines);
    assert d.calls == [];
  }

  lemma StepKeepsBins(c: Limits, s: State, step: Step)
    requires Inv(c, s) && BinsKnown(s) && Enabled(c, s, step)
    ensures BinsKnown(Apply(c, s, step))
  {
    if step.CommitCall? {
      CommitKnowsBin(c, s, step.k, step.ending, step.answer);
    }
  }

  // Only counting changes what is settled: it settles its own goroutine, in its own bin.

  lemma ClaimSettles(c: Limits, s: State, k: nat, id: Id, local: Entity, b: Bin)
    requires Inv(c, s) && k !in s.deliveries
    ensures Settled(ApplyClaim(s, k, id, local), b) == Settled(s, b)
  {
  }

  lemma AcquireSettles(s: State, k: nat, b: Bin)
    requires k in s.deliveries && s.deliveries[k].ending.None?
    ensures Settled(ApplyAcquire(s, k), b) == Settled(s, b)
  {
    GroupsAfter(s.goroutines, k, Running);
    assert !InBin(s.deliveries[k], b);
  }

  lemma CommitSettles(c: Limits, s: State, k: nat, e: Ending, a: Answer, b: Bin)
    requires Enabled(c, s, CommitCall(k, e, a))
    ensures Settled(ApplyCommit(c, s, k, s.deliveries[k], e, a), b) == Settled(s, b)
  {
    var s' := ApplyCommit(c, s, k, s.deliveries[k], e, a);
    GroupsAfterCommit(s.goroutines, k, s'.goroutines[k].bin);
    assert k in Uncounted(s.goroutines);
  }

  lemma CountSettles(s: State, k: nat, own: Bin, b: Bin)
    requires k in s.deliveries && InBin(s.deliveries[k], own) && k in Uncounted(s.goroutines)
    ensures Settled(ApplyCount(s, k, own), b) == Settled(s, b) + if own == b then {k} else {}
    ensures k !in Settled(s, b)
  {
    GroupsAfter(s.goroutines, k, Recorded);
  }

  lemma ReleaseSettles(c: Limits, s: State, k: nat, b: Bin)
    requires Enabled(c, s, ReleaseSlot(k))
    ensures Settled(Apply(c, s, ReleaseSlot(k)), b) == Settled(s, b)
  {
    GroupsAfter(s.goroutines, k, Released);
  }

  lemma LeaveSettles(c: Limits, s: State, k: nat, b: Bin)
    requires Enabled(c, s, Leave(k))
    ensures Settled(Apply(c, s, Leave(k)), b) == Settled(s, b)
  {
    GroupsAfterLeave(s.goroutines, k);
  }

  lemma CountShows(s: State, k: nat, own: Bin, b: Bin)
    ensures Shown(ApplyCount(s, k, own), b) == Shown(s, b) + if own == b then 1 else 0
  {
  }

  lemma CountKeepsExact(s: State, k: nat, own: Bin, b: Bin)
    requires k in s.deliveries && InBin(s.deliveries[k], own) && k in Uncounted(s.goroutines) && Exact(s, b)
    ensures Exact(ApplyCount(s, k, own), b)
  {
    CountSettles(s, k, own, b);
    CountShows(s, k, own, b);
  }

  lemma StepKeepsExact(c: Limits, s: State, step: Step, b: Bin)
    requires Inv(c, s) && BinsKnown(s) && Enabled(c, s, step) && Exact(s, b)
    ensures Exact(Apply(c, s, step), b)
  {
    match step
    case ClaimMessage(k, id, local) => ClaimSettles(c, s, k, id, local, b);
    case Acquire => AcquireSettles(s, s.stage.k, b);
    case CommitCall(k, e, a) => CommitSettles(c, s, k, e, a, b);
    case CountBin(k) => CountKeepsExact(s, k, s.goroutines[k].bin, b);
    case ReleaseSlot(k) => ReleaseSettles(c, s, k, b);
    case Leave(k) => LeaveSettles(c, s, k, b);
    case _ => assert Settled(Apply(c, s, step), b) == Settled(s, b);
  }

  lemma {:induction false} CountersStayExact(c: Limits, r: Run, i: nat, b: Bin)
    requires IsRun(c, r) && i < |r.states|
    ensures BinsKnown(r.states[i]) && Exact(r.states[i], b)
  {
    if i > 0 {
      CountersStayExact(c, r, i - 1, b);
      RunsKeepInv(c, r, i - 1);
      StepKeepsBins(c, r.states[i - 1], r.steps[i - 1]);
      StepKeepsExact(c, r.states[i - 1], r.steps[i - 1], b);
    } else {
      assert Settled(r.states[0], b) == {};
    }
  }

  /** The commit call went through: the driver accepted it, and a retry found its message. */
  predicate WentThrough(d: Delivery) {
    d.answer == Accepted(true) || (d.answer == Accepted(false) && d.calls != [] && !d.calls[0].RetryCall?)
  }

  /** How a delivery with one commit call is to be counted, by its call, its answer and its ending. */
  predicate CountsAs(d: Delivery, b: Bin) {
    && |d.calls| == 1
    && match b
       case Acked => d.calls == [AckCall(d.calls[0].id)] && WentThrough(d)
       case Retried => d.calls[0].RetryCall? && WentThrough(d)
       case Requeued => d.calls == [RequeueCall(d.calls[0].id)] && WentThrough(d)
       case GivenUp => d.calls == [FailCall(d.calls[0].id)] && WentThrough(d)
       case Discarded => d.calls == [DropCall(d.calls[0].id)] && WentThrough(d)
       case Erred => !WentThrough(d) && d.ending != Some(Panicked)
       case Swallowed => !WentThrough(d) && d.ending == Some(Panicked)
  }

  function Kind(s: State, b: Bin): set<nat> {
    set k | k in s.deliveries && CountsAs(s.deliveries[k], b)
  }

  lemma BinIsKind(d: Delivery, b: Bin)
    requires d.ending.Some? && |d.calls| == 1
    ensures InBin(d, b) <==> CountsAs(d, b)
  {
  }

  lemma ExitedIsExact(c: Limits, r: Run, i: nat, b: Bin)
    requires IsRun(c, r) && i < |r.states| && r.states[i].stage.Exited?
    ensures |Kind(r.states[i], b)| == Shown(r.states[i], b)
  {
    var s := r.states[i];
    RunsKeepInv(c, r, i);
    CountersStayExact(c, r, i, b);
    assert Uncounted(s.goroutines) == {};
    forall k | k in s.deliveries ensures InBin(s.deliveries[k], b) <==> CountsAs(s.deliveries[k], b) {
      BinIsKind(s.deliveries[k], b);
    }
    assert Kind(s, b) == Settled(s, b);
  }

  lemma ExitedIsDrained(c: Limits, r: Run, i: nat)
    requires IsRun(c, r) && i < |r.states| && r.states[i].stage.Exited?
    ensures var s := r.states[i];
            && s.goroutines == map[] && s.processed == |s.deliveries|
            && (forall k :: k in s.deliveries ==> s.deliveries[k].ending.Some? && |s.deliveries[k].calls| == 1)
            && s.processed + s.fatal == Total(s.counters) + s.swallowed
  {
    RunsKeepInv(c, r, i);
    assert Uncounted(r.states[i].goroutines) == {};
  }

  /**
   * When Run returns, for whatever reason, no handler is in flight, every claimed message has had
   * exactly one commit call, and every counter is the number of deliveries of its kind: the calls that
   * went through by kind, the others in errors, beside a fatal pop error; except that a panic whose
   * recovery call failed is counted nowhere.
   */
  lemma DrainedAndAccounted(c: Limits, r: Run, i: nat)
    requires IsRun(c, r) && i < |r.states| && r.states[i].stage.Exited?
    ensures r.states[i].goroutines == map[]
    ensures forall k :: k in r.states[i].deliveries ==>
              r.states[i].deliveries[k].ending.Some? && |r.states[i].deliveries[k].calls| == 1
    ensures var s, n := r.states[i], r.states[i].counters;
            && n.acked == |Kind(s, Acked)| && n.retried == |Kind(s, Retried)| && n.requeued == |Kind(s, Requeued)|
            && n.failed == |Kind(s, GivenUp)| && n.dropped == |Kind(s, Discarded)|
            && n.errors == |Kind(s, Erred)| + s.fatal && s.swallowed == |Kind(s, Swallowed)|
            && s.processed == |s.deliveries|
            && s.processed
               == n.acked + n.retried + n.requeued + n.failed + n.dropped + (n.errors - s.fatal) + s.swallowed
  {
    ExitedIsDrained(c, r, i);
    ExitedIsExact(c, r, i, Acked);
    ExitedIsExact(c, r, i, Retried);
    ExitedIsExact(c, r, i, Requeued);
    ExitedIsExact(c, r, i, GivenUp);
    ExitedIsExact(c, r, i, Discarded);
    ExitedIsExact(c, r, i, Erred);
    ExitedIsExact(c, r, i, Swallowed);
  }

  // ----- why Run stops -----

  predicate Over(s: State) {
    s.stage.Draining? || s.stage.Exited?
  }

  /** What ends the loop: a cancellation, a fatal pop error, or the cap was reached exactly. */
  predicate Stops(c: Limits, s: State, step: Step) {
    || step.Cancel?
    || step.PopError?
    || (step.EnoughMessages? && c.autoRestart && c.maxMessages > 0 && |s.deliveries| == c.maxMessages)
  }

  lemma OnlyStopsEnd(c: Limits, s: State, step: Step)
    requires Inv(c, s) && Enabled(c, s, step) && !Over(s) && Over(Apply(c, s, step))
    ensures Stops(c, s, step)
  {
  }

  /** Run leaves its loop only for one of those reasons. */
  lemma {:induction false} StopsForAReason(c: Limits, r: Run, i: nat)
    requires IsRun(c, r) && i < |r.states| && Over(r.states[i])
    ensures exists j :: 0 <= j < i && Stops(c, r.states[j], r.steps[j])
  {
    if i > 0 {
      RunsKeepInv(c, r, i - 1);
      if Over(r.states[i - 1]) {
        StopsForAReason(c, r, i - 1);
      } else {
        OnlyStopsEnd(c, r.states[i - 1], r.steps[i - 1]);
      }
    }
  }

  /** And as long as it loops below the cap, with no cap or without auto-restart, it goes on claiming. */
  lemma GoesOn(c: Limits, s: State, k: nat, id: Id, local: Entity)
    requires s.stage.Looping? && k !in s.deliveries && Inv(c, s)
    ensures Enabled(c, s, ClaimMessage(k, id, local))
       <==> !(c.autoRestart && c.maxMessages > 0 && |s.deliveries| >= c.maxMessages)
    ensures Enabled(c, s, EnoughMessages)
       <==> c.autoRestart && c.maxMessages > 0 && |s.deliveries| == c.maxMessages
  {
  }
}
