/**
  parallelEach: workers share one atomic index counter and one atomic skip
  counter, and stop starting items once the context is done. Each atomic
  operation, each look at the context, each call and each return is one step.
*/
module WorkerPool {

  datatype Pc =
    | Claiming            // about to take the next index
    | Checking(i: nat)    // took i, about to look at the context
    | Skipping(i: nat)    // saw the context done, about to count i as skipped
    | Starting(i: nat)    // saw it not done, about to call fn(i)
    | Running(i: nat)     // inside fn(i)
    | Exited

  // `started` and `dropped` record, in order, the indexes fn was called with
  // and the ones counted as skipped; `late` counts the calls that began after
  // the context was done.
  datatype State = State(next: nat, skipped: nat, done: bool, pcs: seq<Pc>,
                         started: seq<nat>, dropped: seq<nat>, late: nat)

  datatype Step =
    | Claim(w: nat) | Check(w: nat) | CountSkip(w: nat) | Call(w: nat) | Return(w: nat)
    | Cancel

  function Workers(n: int, workers: int): nat {
    var k := if workers < n then workers else n;
    if k < 0 then 0 else k
  }

  function Initial(n: int, workers: int): State {
    State(0, 0, false, seq(Workers(n, workers), _ => Claiming), [], [], 0)
  }

  predicate Enabled(s: State, step: Step) {
    match step
    case Claim(w) => w < |s.pcs| && s.pcs[w].Claiming?
    case Check(w) => w < |s.pcs| && s.pcs[w].Checking?
    case CountSkip(w) => w < |s.pcs| && s.pcs[w].Skipping?
    case Call(w) => w < |s.pcs| && s.pcs[w].Starting?
    case Return(w) => w < |s.pcs| && s.pcs[w].Running?
    case Cancel => !s.done
  }

  function Apply(n: int, s: State, step: Step): State
    requires Enabled(s, step)
  {
    match step
    case Claim(w) =>
      s.(next := s.next + 1, pcs := s.pcs[w := if s.next >= n then Exited else Checking(s.next)])
    case Check(w) =>
      s.(pcs := s.pcs[w := if s.done then Skipping(s.pcs[w].i) else Starting(s.pcs[w].i)])
    case CountSkip(w) =>
      s.(skipped := s.skipped + 1, dropped := s.dropped + [s.pcs[w].i], pcs := s.pcs[w := Claiming])
    case Call(w) =>
      s.(started := s.started + [s.pcs[w].i], late := if s.done then s.late + 1 else s.late,
         pcs := s.pcs[w := Running(s.pcs[w].i)])
    case Return(w) => s.(pcs := s.pcs[w := Claiming])
    case Cancel => s.(done := true)
  }

  ghost predicate IsRun(n: int, s: State, steps: seq<Step>, end: State)
    decreases |steps|
  {
    if steps == [] then end == s
    else Enabled(s, steps[0]) && IsRun(n, Apply(n, s, steps[0]), steps[1..], end)
  }

  // Every worker returned, so the wait group lets parallelEach return.
  predicate Finished(s: State) {
    forall w :: 0 <= w < |s.pcs| ==> s.pcs[w].Exited?
  }

  // ----------------------------------------------------- counts over workers

  // The index a worker has taken and not yet started or skipped.
  predicate Holds(pc: Pc, i: nat) {
    (pc.Checking? || pc.Skipping? || pc.Starting?) && pc.i == i
  }

  function Holder(i: nat): Pc -> bool {
    pc => Holds(pc, i)
  }

  function Bit(b: bool): nat { if b then 1 else 0 }

  // How many workers satisfy p.
  function Count(pcs: seq<Pc>, p: Pc -> bool): nat {
    if pcs == [] then 0 else Bit(p(pcs[0])) + Count(pcs[1..], p)
  }

  // Steps a worker can still take before it must claim again.
  function Weight(pc: Pc): nat {
    match pc
    case Claiming => 1
    case Checking(_) => 4
    case Skipping(_) => 2
    case Starting(_) => 3
    case Running(_) => 2
    case Exited => 0
  }

  function Weights(pcs: seq<Pc>): nat {
    if pcs == [] then 0 else Weight(pcs[0]) + Weights(pcs[1..])
  }

  lemma {:induction false} OneMoves(pcs: seq<Pc>, w: nat, pc: Pc, p: Pc -> bool)
    requires w < |pcs|
    ensures Count(pcs[w := pc], p) + Bit(p(pcs[w])) == Count(pcs, p) + Bit(p(pc))
    ensures Weights(pcs[w := pc]) + Weight(pcs[w]) == Weights(pcs) + Weight(pc)
  {
    if w > 0 {
      OneMoves(pcs[1..], w - 1, pc, p);
      assert pcs[w := pc][1..] == pcs[1..][w - 1 := pc];
    } else {
      assert pcs[w := pc][1..] == pcs[1..];
    }
  }

  lemma {:induction false} CountBound(pcs: seq<Pc>, p: Pc -> bool)
    ensures Count(pcs, p) <= |pcs|
    ensures (forall w :: 0 <= w < |pcs| ==> !p(pcs[w])) ==> Count(pcs, p) == 0
  {
    if pcs != [] { CountBound(pcs[1..], p); }
  }

  function Times(s: seq<nat>, i: nat): nat {
    multiset(s)[i]
  }

  lemma TimesSnoc(s: seq<nat>, j: nat, i: nat)
    ensures Times(s + [j], i) == Times(s, i) + Bit(j == i)
  {
    assert multiset(s + [j]) == multiset(s) + multiset{j};
  }

  // --------------------------------------------------------------- invariant

  const COMMITTED := (pc: Pc) => pc.Starting?

  const UNDECIDED := (pc: Pc) => pc.Checking? || pc.Skipping? || pc.Starting?

  // The indexes handed out so far.
  function Issued(n: int, s: State): nat {
    if s.next < n then s.next else if n < 0 then 0 else n
  }

  // Where index i is: started, skipped, or held, counted with multiplicity.
  function Places(s: State, i: nat): nat {
    Times(s.started, i) + Times(s.dropped, i) + Count(s.pcs, Holder(i))
  }

  ghost predicate Inv(n: int, s: State) {
    && |s.started| + |s.dropped| + Count(s.pcs, UNDECIDED) == Issued(n, s)
    && s.skipped == |s.dropped|
    && (s.dropped != [] ==> s.done)
    && (forall w :: 0 <= w < |s.pcs| && s.pcs[w].Skipping? ==> s.done)
    && (forall w :: 0 <= w < |s.pcs| && s.pcs[w].Exited? ==> s.next >= n)
    && (if s.done then s.late + Count(s.pcs, COMMITTED) <= |s.pcs| else s.late == 0)
  }

  ghost predicate Placed(n: int, s: State, i: nat) {
    Places(s, i) == Bit(i < Issued(n, s))
  }

  // An upper bound on the steps left in any run.
  function Budget(n: int, s: State): nat {
    5 * (if s.next < n then n - s.next else 0) + Weights(s.pcs) + Bit(!s.done)
  }

  lemma StepSpends(n: int, s: State, step: Step)
    requires Enabled(s, step)
    ensures Budget(n, Apply(n, s, step)) < Budget(n, s)
  {
    if !step.Cancel? { OneMoves(s.pcs, step.w, Apply(n, s, step).pcs[step.w], COMMITTED); }
  }

  lemma StepKeepsInv(n: int, s: State, step: Step)
    requires Inv(n, s) && Enabled(s, step)
    ensures Inv(n, Apply(n, s, step)) && |Apply(n, s, step).pcs| == |s.pcs|
    ensures Budget(n, Apply(n, s, step)) < Budget(n, s)
  {
    StepSpends(n, s, step);
    CountBound(s.pcs, COMMITTED);
    if !step.Cancel? {
      OneMoves(s.pcs, step.w, Apply(n, s, step).pcs[step.w], UNDECIDED);
      OneMoves(s.pcs, step.w, Apply(n, s, step).pcs[step.w], COMMITTED);
    }
  }

  lemma HolderMoves(pcs: seq<Pc>, w: nat, pc: Pc, i: nat)
    requires w < |pcs|
    ensures Count(pcs[w := pc], Holder(i)) + Bit(Holds(pcs[w], i)) == Count(pcs, Holder(i)) + Bit(Holds(pc, i))
  {
    OneMoves(pcs, w, pc, Holder(i));
  }

  lemma ClaimKeepsPlaced(n: int, s: State, w: nat, i: nat)
    requires Placed(n, s, i) && Enabled(s, Claim(w))
    ensures Placed(n, Apply(n, s, Claim(w)), i)
  {
    HolderMoves(s.pcs, w, Apply(n, s, Claim(w)).pcs[w], i);
  }

  lemma CallKeepsPlaced(n: int, s: State, w: nat, i: nat)
    requires Placed(n, s, i) && Enabled(s, Call(w))
    ensures Placed(n, Apply(n, s, Call(w)), i)
  {
    HolderMoves(s.pcs, w, Running(s.pcs[w].i), i);
    TimesSnoc(s.started, s.pcs[w].i, i);
  }

  lemma CountSkipKeepsPlaced(n: int, s: State, w: nat, i: nat)
    requires Placed(n, s, i) && Enabled(s, CountSkip(w))
    ensures Placed(n, Apply(n, s, CountSkip(w)), i)
  {
    HolderMoves(s.pcs, w, Claiming, i);
    TimesSnoc(s.dropped, s.pcs[w].i, i);
  }

  lemma StepKeepsPlaced(n: int, s: State, step: Step, i: nat)
    requires Placed(n, s, i) && Enabled(s, step)
    ensures Placed(n, Apply(n, s, step), i)
  {
    match step
    case Claim(w) => ClaimKeepsPlaced(n, s, w, i);
    case Check(w) => HolderMoves(s.pcs, w, Apply(n, s, step).pcs[w], i);
    case CountSkip(w) => CountSkipKeepsPlaced(n, s, w, i);
    case Call(w) => CallKeepsPlaced(n, s, w, i);
    case Return(w) => HolderMoves(s.pcs, w, Claiming, i);
    case Cancel =>
  }

  lemma {:induction false} RunKeepsInv(n: int, s: State, steps: seq<Step>, end: State)
    requires Inv(n, s) && IsRun(n, s, steps, end)
    ensures Inv(n, end) && |end.pcs| == |s.pcs| && |steps| + Budget(n, end) <= Budget(n, s)
    decreases |steps|
  {
    if steps != [] {
      StepKeepsInv(n, s, steps[0]);
      RunKeepsInv(n, Apply(n, s, steps[0]), steps[1..], end);
    }
  }

  lemma {:induction false} RunKeepsPlaced(n: int, s: State, steps: seq<Step>, end: State, i: nat)
    requires Placed(n, s, i) && IsRun(n, s, steps, end)
    ensures Placed(n, end, i)
    decreases |steps|
  {
    if steps != [] {
      StepKeepsPlaced(n, s, steps[0], i);
      RunKeepsPlaced(n, Apply(n, s, steps[0]), steps[1..], end, i);
    }
  }

  lemma {:induction false} AllClaiming(pcs: seq<Pc>)
    requires forall w :: 0 <= w < |pcs| ==> pcs[w] == Claiming
    ensures Weights(pcs) == |pcs|
  {
    if pcs != [] { AllClaiming(pcs[1..]); }
  }

  lemma InitialInv(n: int, workers: int)
    ensures Inv(n, Initial(n, workers)) && forall i: nat :: Placed(n, Initial(n, workers), i)
    ensures Budget(n, Initial(n, workers)) <= 5 * (if n < 0 then 0 else n) + Workers(n, workers) + 1
  {
    var s := Initial(n, workers);
    AllClaiming(s.pcs);
    CountBound(s.pcs, UNDECIDED);
    CountBound(s.pcs, COMMITTED);
    forall i: nat ensures Placed(n, s, i) { CountBound(s.pcs, Holder(i)); }
  }

  // ---------------------------------------------------------------- theorems

  // At every moment of every run each index handed out is in exactly one
  // place: held by one worker, started once, or skipped once. No index at or
  // beyond n is ever started.
  lemma EachIndexOnce(n: int, workers: int, steps: seq<Step>, s: State, i: nat)
    requires IsRun(n, Initial(n, workers), steps, s)
    ensures Times(s.started, i) + Times(s.dropped, i) + Count(s.pcs, Holder(i)) == Bit(i < s.next && i < n)
  {
    InitialInv(n, workers);
    RunKeepsPlaced(n, Initial(n, workers), steps, s, i);
  }

  lemma {:induction false} NoWorkerNoRun(n: int, s: State, steps: seq<Step>, end: State)
    requires IsRun(n, s, steps, end) && s.pcs == []
    ensures end.started == s.started && end.skipped == s.skipped
    decreases |steps|
  {
    if steps != [] {
      NoWorkerNoRun(n, Apply(n, s, steps[0]), steps[1..], end);
    }
  }

  // Conservation: when parallelEach returns, the items run and the count it
  // returns add up to n exactly when n is not negative and, for n > 0, there
  // is a worker. Without a worker nothing runs and nothing is counted.
  lemma RunPlusSkippedIsAll(n: int, workers: int, steps: seq<Step>, s: State)
    requires IsRun(n, Initial(n, workers), steps, s) && Finished(s)
    ensures |s.started| + s.skipped == n <==> n == 0 || (n > 0 && workers > 0)
  {
    InitialInv(n, workers);
    RunKeepsInv(n, Initial(n, workers), steps, s);
    CountBound(s.pcs, UNDECIDED);
    if workers > 0 && n > 0 {
      assert s.pcs[0].Exited?;
    } else if n > 0 {
      NoWorkerNoRun(n, Initial(n, workers), steps, s);
    }
  }

  // With a worker, every index is by then run once or skipped once; and run,
  // all of them, when the context was never done.
  lemma EveryIndexAccountedFor(n: int, workers: int, steps: seq<Step>, s: State, i: nat)
    requires IsRun(n, Initial(n, workers), steps, s) && Finished(s) && workers > 0 && i < n
    ensures Times(s.started, i) + Times(s.dropped, i) == 1
    ensures !s.done ==> s.skipped == 0 && Times(s.started, i) == 1
  {
    InitialInv(n, workers);
    RunKeepsInv(n, Initial(n, workers), steps, s);
    RunKeepsPlaced(n, Initial(n, workers), steps, s, i);
    CountBound(s.pcs, Holder(i));
    assert s.pcs[0].Exited?;
  }

  // After the context is done no worker starts an item it had not already
  // decided to start: at most one late start per worker, ever.
  lemma FewLateStarts(n: int, workers: int, steps: seq<Step>, s: State)
    requires IsRun(n, Initial(n, workers), steps, s)
    ensures s.late <= Workers(n, workers)
  {
    InitialInv(n, workers);
    RunKeepsInv(n, Initial(n, workers), steps, s);
  }

  // Every run is finite, and one that no worker can extend has every worker
  // returned.
  lemma EveryRunEnds(n: int, workers: int, steps: seq<Step>, s: State)
    requires IsRun(n, Initial(n, workers), steps, s)
    ensures |steps| <= 5 * (if n < 0 then 0 else n) + Workers(n, workers) + 1
    ensures Finished(s) || exists step: Step :: !step.Cancel? && Enabled(s, step)
  {
    InitialInv(n, workers);
    RunKeepsInv(n, Initial(n, workers), steps, s);
    if !Finished(s) {
      var w :| 0 <= w < |s.pcs| && !s.pcs[w].Exited?;
      assert Enabled(s, Claim(w)) || Enabled(s, Check(w)) || Enabled(s, CountSkip(w))
          || Enabled(s, Call(w)) || Enabled(s, Return(w));
    }
  }

  // ---------------------------------------------- cancellation, over the steps

  function Calls(steps: seq<Step>): nat {
    if steps == [] then 0 else Bit(steps[0].Call?) + Calls(steps[1..])
  }

  // The calls of fn that begin once the context is done.
  function CallsAfterCancel(steps: seq<Step>): nat {
    if steps == [] then 0 else if steps[0].Cancel? then Calls(steps[1..]) else CallsAfterCancel(steps[1..])
  }

  predicate Cancelled(steps: seq<Step>) {
    steps != [] && (steps[0].Cancel? || Cancelled(steps[1..]))
  }

  lemma {:induction false} LateIsCounted(n: int, s: State, steps: seq<Step>, end: State)
    requires IsRun(n, s, steps, end)
    ensures end.late == s.late + if s.done then Calls(steps) else CallsAfterCancel(steps)
    ensures end.done <==> s.done || Cancelled(steps)
    decreases |steps|
  {
    if steps != [] { LateIsCounted(n, Apply(n, s, steps[0]), steps[1..], end); }
  }

  // At most one call per worker begins after the context is done, and every index
  // is run, by the time parallelEach returns, when it never is.
  lemma FewCallsAfterCancel(n: int, workers: int, steps: seq<Step>, s: State)
    requires IsRun(n, Initial(n, workers), steps, s)
    ensures CallsAfterCancel(steps) <= Workers(n, workers)
    ensures Finished(s) && workers > 0 && !Cancelled(steps) ==>
      s.skipped == 0 && forall i: nat :: i < n ==> Times(s.started, i) == 1
  {
    LateIsCounted(n, Initial(n, workers), steps, s);
    FewLateStarts(n, workers, steps, s);
    if Finished(s) && workers > 0 && !Cancelled(steps) {
      if n > 0 { EveryIndexAccountedFor(n, workers, steps, s, 0); }
      forall i: nat | i < n ensures Times(s.started, i) == 1 { EveryIndexAccountedFor(n, workers, steps, s, i); }
      InitialInv(n, workers);
      RunKeepsInv(n, Initial(n, workers), steps, s);
    }
  }

  predicate Committed(s: State, i: nat) {
    exists w :: 0 <= w < |s.pcs| && s.pcs[w] == Starting(i)
  }

  lemma {:induction false} StartedGrows(n: int, s: State, steps: seq<Step>, end: State)
    requires IsRun(n, s, steps, end)
    ensures s.started <= end.started
    decreases |steps|
  {
    if steps != [] { StartedGrows(n, Apply(n, s, steps[0]), steps[1..], end); }
  }

  // What starts once the context is done is what some worker had decided to start
  // by then.
  lemma {:induction false} OnlyTheCommittedStart(n: int, s: State, steps: seq<Step>, end: State, k: nat)
    requires s.done && IsRun(n, s, steps, end) && |s.started| <= k < |end.started|
    ensures s.started <= end.started && Committed(s, end.started[k])
    decreases |steps|
  {
    if steps != [] {
      var s' := Apply(n, s, steps[0]);
      StartedGrows(n, s', steps[1..], end);
      if k < |s'.started| {
        assert s'.started[k] == end.started[k] && s.pcs[steps[0].w] == Starting(end.started[k]);
      } else {
        OnlyTheCommittedStart(n, s', steps[1..], end, k);
        var w :| 0 <= w < |s'.pcs| && s'.pcs[w] == Starting(end.started[k]);
        assert s.pcs[w] == Starting(end.started[k]);
      }
    }
  }
}
