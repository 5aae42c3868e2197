/**
  What a caller of the heartbeat may rely on, read off the steps of a run: a
  report whose poke went through is published before the loop sleeps again, Stop
  publishes what came before it, Finish shows the status it was given, and a
  terminal status comes from a Finish or from the row.
*/
module HeartbeatCalls {
  import opened Common
  import opened Heartbeat
  import opened HeartbeatProofs
  import opened HeartbeatTrace

  // A thread between calls may begin any, whatever the others are doing; and the
  // loop at its select takes a tick, a poke that is pending, and the stop signal.
  lemma AnyCallMayBegin(s: State, t: Tid, phase: string, extra: int, severity: string, status: Status)
    requires t != LOOP && (PcOf(s, t).Idle? || PcOf(s, t).Finished?)
    ensures Enabled(s, StartPhase(t, phase)) && Enabled(s, EndPhase(t, phase, extra))
    ensures Enabled(s, RecordFinding(t, severity)) && Enabled(s, CallStop(t))
    ensures Terminal(status) ==> Enabled(s, CallFinish(t, status))
    ensures PcOf(s, LOOP).AtSelect? ==>
      Enabled(s, Tick) && (s.sh.sync.kick ==> Enabled(s, RecvKick)) && (s.sh.sync.stopClosed ==> Enabled(s, RecvStop))
  {
  }

  // -------------------------------------------------------- reports and pokes

  predicate Reports(step: Step) {
    step.StartPhase? || step.EndPhase?
  }

  // The caller of the k-th step has poked the loop since.
  predicate PokedSince(steps: seq<Step>, k: nat)
    requires k < |steps| && Reports(steps[k])
  {
    exists j :: k < j < |steps| && steps[j] == Poke(steps[k].t)
  }

  lemma {:induction false} TellsMore(b: Start, steps: seq<Step>, i: nat, j: nat)
    requires i <= j <= |steps|
    ensures |Told(b, steps[..i])| <= |Told(b, steps[..j])|
    ensures i < j && Reports(steps[j - 1]) ==> |Told(b, steps[..i])| < |Told(b, steps[..j])|
    decreases j
  {
    if i < j {
      assert Front(steps[..j]) == steps[..j - 1] && Last(steps[..j]) == steps[j - 1];
      TellsMore(b, steps, i, j - 1);
    }
  }

  // How much of the log the poke for the k-th step asks for.
  function Asks(b: Start, steps: seq<Step>, k: nat): nat
    requires k < |steps|
  {
    |Told(b, steps[..k + 1])|
  }

  // The poke for the k-th step has gone through, or its caller is about to make it.
  predicate PokeOwed(poked: nat, pc: Pc, need: nat) {
    poked >= need || (pc.Poking? && pc.seen >= need)
  }

  ghost predicate HeardAt(b: Start, steps: seq<Step>, k: nat, s: State)
    requires k < |steps| && Reports(steps[k])
  {
    && steps[k].t != LOOP && PokeOwed(s.sh.out.poked, PcOf(s, steps[k].t), Asks(b, steps, k))
    && (PokedSince(steps, k) ==> s.sh.out.poked >= Asks(b, steps, k))
  }

  ghost predicate Heard(b: Start, steps: seq<Step>, s: State) {
    forall k :: 0 <= k < |steps| && Reports(steps[k]) ==> HeardAt(b, steps, k, s)
  }

  lemma PokeIsMade(c: Config, sh: Shared, pc: Pc, loop: Pc, step: Step, t: Tid, other: Pc, need: nat)
    requires Can(sh, pc, loop, step) && t != LOOP && (t == Mover(step) ==> other == pc)
    requires PokeOwed(sh.out.poked, other, need)
    ensures var poked' := NextOutput(c, sh, pc, loop, step).poked;
      && poked' >= sh.out.poked && (step == Poke(t) ==> poked' >= need)
      && PokeOwed(poked', if t == Mover(step) then NextPc(c, sh, pc, loop, step) else other, need)
  {
  }

  lemma StillHeard(c: Config, b: Start, steps: seq<Step>, s: State, step: Step, k: nat)
    requires Enabled(s, step) && k < |steps| && Reports(steps[k]) && HeardAt(b, steps, k, s)
    ensures var all := steps + [step]; all[k] == steps[k] && HeardAt(b, all, k, Apply(c, s, step))
  {
    var all, t := steps + [step], steps[k].t;
    assert all[..k + 1] == steps[..k + 1];
    PokeIsMade(c, s.sh, PcOf(s, Mover(step)), PcOf(s, LOOP), step, t, PcOf(s, t), Asks(b, steps, k));
    if PokedSince(all, k) {
      var j :| k < j < |all| && all[j] == Poke(t);
      assert j < |steps| ==> steps[j] == Poke(t);
    }
  }

  lemma NewlyHeard(c: Config, b: Start, steps: seq<Step>, s: State, step: Step)
    requires s.sh.rec.log == Told(b, steps) && Enabled(s, step) && Reports(step)
    ensures HeardAt(b, steps + [step], |steps|, Apply(c, s, step))
  {
    OneMore(steps, step);
    assert (steps + [step])[..|steps| + 1] == steps + [step];
  }

  lemma StepIsHeard(c: Config, b: Start, steps: seq<Step>, s: State, step: Step)
    requires s.sh.rec.log == Told(b, steps) && Heard(b, steps, s) && Enabled(s, step)
    ensures Heard(b, steps + [step], Apply(c, s, step))
  {
    var all := steps + [step];
    forall k | 0 <= k < |all| && Reports(all[k]) ensures HeardAt(b, all, k, Apply(c, s, step)) {
      if k < |steps| {
        StillHeard(c, b, steps, s, step, k);
      } else {
        NewlyHeard(c, b, steps, s, step);
      }
    }
  }

  lemma {:induction false} RestIsHeard(c: Config, b: Start, steps: seq<Step>, k: nat, s: State, end: State)
    requires k <= |steps| && Traced(c, b, steps[..k], s) && Heard(b, steps[..k], s) && IsRun(c, s, steps[k..], end)
    ensures Heard(b, steps, end)
    decreases |steps| - k
  {
    if k == |steps| {
      assert steps[..k] == steps;
    } else {
      Slices(steps, k);
      StepIsTraced(c, b, steps[..k], s, steps[k]);
      StepIsHeard(c, b, steps[..k], s, steps[k]);
      RestIsHeard(c, b, steps, k + 1, Apply(c, s, steps[k]), end);
    }
  }

  lemma RunIsHeard(c: Config, b: Start, steps: seq<Step>, end: State)
    requires IsRun(c, First(c, b), steps, end)
    ensures Heard(b, steps, end)
  {
    FirstIsTraced(c, b);
    assert steps[..0] == [] && steps[0..] == steps;
    RestIsHeard(c, b, steps, 0, First(c, b), end);
  }

  lemma RunReaches(c: Config, b: Start, steps: seq<Step>, end: State)
    requires IsRun(c, First(c, b), steps, end)
    ensures Reachable(c, end)
  {
    assert IsInitial(c, First(c, b));
  }

  // A document that tells that much takes in the step.
  lemma TakesIn(b: Start, steps: seq<Step>, n: nat, k: nat)
    requires k < |steps| && Reports(steps[k]) && n <= |steps| && |Told(b, steps[..n])| >= Asks(b, steps, k)
    ensures n > k
  {
    if n <= k { TellsMore(b, steps, n, k + 1); }
  }

  // A loop asleep with no poke pending, whose last write went well, has published
  // every report whose caller has poked it: the newest document takes in the step.
  lemma AsleepHasPublished(c: Config, b: Start, steps: seq<Step>, end: State, k: nat)
    requires IsRun(c, First(c, b), steps, end) && PcOf(end, LOOP).AtSelect?
    requires !Kicked(steps) && !LastWriteFailed(c, b, steps)
    requires k < |steps| && Reports(steps[k]) && PokedSince(steps, k)
    ensures Cuts(c, b, steps) != [] && Last(Cuts(c, b, steps)) > k
  {
    RunIsTraced(c, b, steps, end);
    RunIsHeard(c, b, steps, end);
    RunReaches(c, b, steps, end);
    SleepingLoopIsUpToDate(c, end);
    TakesIn(b, steps, Last(Cuts(c, b, steps)), k);
  }

  // -------------------------------------------------------- Stop and Finish

  ghost predicate GoodWrites(c: Config, steps: seq<Step>) {
    c.hasFile && forall i :: 0 <= i < |steps| && steps[i].WriteFile? ==> steps[i].ok
  }

  predicate ForEnd(k: Beat) {
    StopBeats(k) || k.FinishBeat?
  }

  // The calls that end the heartbeat have put their documents on disk.
  predicate Wrote(once: Once, pc: Pc) {
    && (pc.Beating? && ForEnd(pc.k) && (pc.stage.Stamping? || pc.stage.Unlocking?) ==> pc.stage.wrote)
    && (pc.Beating? && pc.k.StopAdoptBeat? ==> pc.k.wrote)
    && (pc.Finished? ==> pc.wrote)
    && (once.Done? ==> once.wrote)
  }

  ghost predicate AllWrote(s: State) {
    forall t: Tid {:trigger PcOf(s, t)} :: Wrote(s.sh.sync.once, PcOf(s, t))
  }

  lemma MoverWrote(c: Config, sh: Shared, pc: Pc, loop: Pc, step: Step)
    requires Takes(sh, pc, loop, step) && Wrote(sh.sync.once, pc) && c.hasFile && (step.WriteFile? ==> step.ok)
    ensures Wrote(NextSync(c, sh, pc, loop, step).once, NextPc(c, sh, pc, loop, step))
  {
  }

  lemma StepWrote(c: Config, s: State, step: Step)
    requires Inv(s) && AllWrote(s) && Enabled(s, step) && c.hasFile && (step.WriteFile? ==> step.ok)
    ensures AllWrote(Apply(c, s, step))
  {
    StepIsTaken(c, s, step);
    MoverWrote(c, s.sh, PcOf(s, Mover(step)), PcOf(s, LOOP), step);
    forall t: Tid ensures Wrote(Apply(c, s, step).sh.sync.once, PcOf(Apply(c, s, step), t)) {
      assert Wrote(s.sh.sync.once, PcOf(s, t));
    }
  }

  lemma {:induction false} RunWrote(c: Config, s: State, steps: seq<Step>, end: State)
    requires Inv(s) && AllWrote(s) && IsRun(c, s, steps, end) && GoodWrites(c, steps)
    ensures Inv(end) && AllWrote(end)
    decreases |steps|
  {
    if steps != [] {
      StepKeepsInv(c, s, steps[0]);
      StepWrote(c, s, steps[0]);
      assert forall i :: 0 <= i < |steps[1..]| ==> steps[1..][i] == steps[i + 1];
      RunWrote(c, Apply(c, s, steps[0]), steps[1..], end);
    }
  }

  lemma NoneWroteYet(s: State)
    requires Inv(s) && s.sh.sync.once.NotRun?
    ensures AllWrote(s)
  {
    forall t: Tid ensures Wrote(s.sh.sync.once, PcOf(s, t)) { assert Thread(s, t); }
  }

  lemma StopWrote(c: Config, s: State, steps: seq<Step>, end: State)
    requires Inv(s) && s.sh.sync.once.NotRun? && IsRun(c, s, steps, end)
    requires end.sh.sync.once.Done? && GoodWrites(c, steps)
    ensures end.sh.out.written != [] && |s.sh.rec.log| < Last(end.sh.out.written).at
  {
    NoneWroteYet(s);
    RunWrote(c, s, steps, end);
    assert Wrote(end.sh.sync.once, PcOf(end, LOOP));
    StopPublishesEverything(c, s, steps, end);
  }

  lemma TellsLater(b: Start, steps: seq<Step>, n: nat, k: nat)
    requires n <= |steps| && k <= |steps| && |Told(b, steps[..n])| > |Told(b, steps[..k])|
    ensures n > k
  {
    if n <= k { TellsMore(b, steps, n, k); }
  }

  // Once Stop has run, with every write since good, the newest document takes in
  // every step before it began, findings included, poked or not.
  lemma StopPublishesTheRun(c: Config, b: Start, steps: seq<Step>, k: nat, s: State, end: State)
    requires k <= |steps| && IsRun(c, First(c, b), steps[..k], s) && IsRun(c, s, steps[k..], end)
    requires s.sh.sync.once.NotRun? && end.sh.sync.once.Done? && GoodWrites(c, steps[k..])
    ensures Cuts(c, b, steps) != [] && Last(Cuts(c, b, steps)) > k
  {
    RunIsTraced(c, b, steps[..k], s);
    RestIsTraced(c, b, steps, k, s, end);
    StopWrote(c, s, steps[k..], end);
    TellsLater(b, steps, Last(Cuts(c, b, steps)), k);
  }

  // The status thread t last asked Finish for.
  function Asked(steps: seq<Step>, t: Tid): Option<Status> {
    if steps == [] then None
    else if Last(steps).CallFinish? && Last(steps).t == t then Some(Last(steps).status)
    else Asked(Front(steps), t)
  }

  // The statuses set, each one its caller asked for.
  function Finals(steps: seq<Step>): seq<Status> {
    if steps == [] then []
    else
      var front, last := Front(steps), Last(steps);
      var asked := if last.SetFinal? then Asked(front, last.t) else None;
      Finals(front) + if asked.Some? then [asked.value] else []
  }

  function PlanAfter(after: After): Option<Status> {
    if after.ThenFinish? then Some(after.status) else None
  }

  // The status a Finish in progress, or just returned, is for.
  function Plan(pc: Pc): Option<Status> {
    match pc
    case StopOnce(after) => PlanAfter(after)
    case StopWait(after) => PlanAfter(after)
    case StopClear(after) => PlanAfter(after)
    case FinishSet(status) => Some(status)
    case Finished(status, _, _) => Some(status)
    case Beating(k, _) => if k.FinishBeat? then Some(k.status) else if StopBeats(k) then PlanAfter(k.after) else None
    case _ => None
  }

  ghost predicate Planned(steps: seq<Step>, s: State) {
    && s.sh.rec.finishes == Finals(steps)
    && forall t: Tid {:trigger PcOf(s, t)} :: Plan(PcOf(s, t)).Some? ==> Asked(steps, t) == Plan(PcOf(s, t))
  }

  lemma MoverPlans(c: Config, sh: Shared, pc: Pc, loop: Pc, step: Step, steps: seq<Step>)
    requires Takes(sh, pc, loop, step) && (Plan(pc).Some? ==> Asked(steps, Mover(step)) == Plan(pc))
    ensures var plan := Plan(NextPc(c, sh, pc, loop, step)); plan.Some? ==> Asked(steps + [step], Mover(step)) == plan
  {
    OneMore(steps, step);
  }

  lemma FinishesFollow(sh: Shared, pc: Pc, loop: Pc, step: Step, steps: seq<Step>)
    requires Takes(sh, pc, loop, step) && (Plan(pc).Some? ==> Asked(steps, Mover(step)) == Plan(pc))
    requires sh.rec.finishes == Finals(steps)
    ensures NextRecord(sh, pc, loop, step).finishes == Finals(steps + [step])
  {
    OneMore(steps, step);
  }

  lemma StepIsPlanned(c: Config, steps: seq<Step>, s: State, step: Step)
    requires Inv(s) && Planned(steps, s) && Enabled(s, step)
    ensures Planned(steps + [step], Apply(c, s, step))
  {
    StepIsTaken(c, s, step);
    MoverPlans(c, s.sh, PcOf(s, Mover(step)), PcOf(s, LOOP), step, steps);
    FinishesFollow(s.sh, PcOf(s, Mover(step)), PcOf(s, LOOP), step, steps);
    OneMore(steps, step);
    var s' := Apply(c, s, step);
    forall t: Tid | Plan(PcOf(s', t)).Some? ensures Asked(steps + [step], t) == Plan(PcOf(s', t)) {
      assert t != Mover(step) ==> PcOf(s', t) == PcOf(s, t);
    }
  }

  lemma {:induction false} RestIsPlanned(c: Config, steps: seq<Step>, k: nat, s: State, end: State)
    requires k <= |steps| && Inv(s) && Planned(steps[..k], s) && IsRun(c, s, steps[k..], end)
    ensures Inv(end) && Planned(steps, end)
    decreases |steps| - k
  {
    if k == |steps| {
      assert steps[..k] == steps;
    } else {
      Slices(steps, k);
      StepKeepsInv(c, s, steps[k]);
      StepIsPlanned(c, steps[..k], s, steps[k]);
      RestIsPlanned(c, steps, k + 1, Apply(c, s, steps[k]), end);
    }
  }

  ghost predicate FinishAsked(steps: seq<Step>, status: Status) {
    exists k :: 0 <= k < |steps| && steps[k].CallFinish? && steps[k].status == status
  }

  lemma {:induction false} AskedIsCalled(steps: seq<Step>, t: Tid)
    requires Asked(steps, t).Some?
    ensures FinishAsked(steps, Asked(steps, t).value)
    decreases |steps|
  {
    if Last(steps).CallFinish? && Last(steps).t == t {
      assert steps[|steps| - 1] == Last(steps);
    } else {
      var front := Front(steps);
      AskedIsCalled(front, t);
      var k :| 0 <= k < |front| && front[k].CallFinish? && front[k].status == Asked(steps, t).value;
      assert steps[k] == front[k];
    }
  }

  lemma {:induction false} FinalsAreAsked(steps: seq<Step>, status: Status)
    requires status in Finals(steps)
    ensures FinishAsked(steps, status)
    decreases |steps|
  {
    var front, last := Front(steps), Last(steps);
    if status in Finals(front) {
      FinalsAreAsked(front, status);
      var k :| 0 <= k < |front| && front[k].CallFinish? && front[k].status == status;
      assert steps[k] == front[k];
    } else {
      AskedIsCalled(front, last.t);
      var k :| 0 <= k < |front| && front[k].CallFinish? && front[k].status == status;
      assert steps[k] == front[k];
    }
  }

  // In every run the statuses set are those their callers asked for, in the order
  // they were set, and a Finish that returned has set the one it was given.
  lemma FinishSetsWhatItWasGiven(c: Config, b: Start, steps: seq<Step>, end: State, t: Tid)
    requires IsRun(c, First(c, b), steps, end)
    ensures end.sh.rec.finishes == Finals(steps)
    ensures PcOf(end, t).Finished? ==>
      Asked(steps, t) == Some(PcOf(end, t).status) && PcOf(end, t).status in Finals(steps)
  {
    InitialInv(c, First(c, b));
    assert steps[..0] == [] && steps[0..] == steps;
    RestIsPlanned(c, steps, 0, First(c, b), end);
    assert Thread(end, t);
  }

  // When every Finish of a run asks for one status and every write goes well, the
  // file shows that status once one of them has returned.
  lemma FinishIsShown(c: Config, b: Start, steps: seq<Step>, end: State, t: Tid, status: Status)
    requires IsRun(c, First(c, b), steps, end) && GoodWrites(c, steps) && PcOf(end, t).Finished?
    requires forall k :: 0 <= k < |steps| && steps[k].CallFinish? ==> steps[k].status == status
    ensures end.sh.out.written != [] && Last(end.sh.out.written).status == status
  {
    InitialInv(c, First(c, b));
    NoneWroteYet(First(c, b));
    RunWrote(c, First(c, b), steps, end);
    assert Wrote(end.sh.sync.once, PcOf(end, t));
    RunReaches(c, b, steps, end);
    FinishHasTheLastWord(c, end, t);
    FinishSetsWhatItWasGiven(c, b, steps, end, t);
    FinalsAreAsked(steps, Last(end.sh.out.written).status);
  }

  // ------------------------------------------------- where a status comes from

  // What status.json calls a row's status: a failure that says so is a
  // cancellation.
  predicate Means(status: Status, saysCancelled: bool, shown: Status) {
    match shown
    case Running => status == Running
    case Completed => status == Completed
    case Failed => status == Failed && !saysCancelled
    case Cancelled => status == Cancelled || (status == Failed && saysCancelled)
  }

  // The row once the steps have been taken: as it was last finalized, or gone.
  function RowAfter(row: Row, steps: seq<Step>): Row {
    if steps == [] then row
    else
      match Last(steps)
      case FinalizeRow(status, saysCancelled) => Row(status, saysCancelled)
      case DeleteRow => Missing
      case _ => RowAfter(row, Front(steps))
  }

  lemma {:induction false} RowFollowsSteps(c: Config, row: Row, steps: seq<Step>, k: nat, s: State, end: State)
    requires k <= |steps| && s.sh.db.row == RowAfter(row, steps[..k]) && IsRun(c, s, steps[k..], end)
    ensures end.sh.db.row == RowAfter(row, steps)
    decreases |steps| - k
  {
    if k == |steps| {
      assert steps[..k] == steps;
    } else {
      Slices(steps, k);
      OneMore(steps[..k], steps[k]);
      RowFollowsSteps(c, row, steps, k + 1, Apply(c, s, steps[k]), end);
    }
  }

  // The row said so at the start, or was finalized so.
  ghost predicate RowSaid(b: Start, steps: seq<Step>, shown: Status) {
    || (b.row.Row? && Means(b.row.status, b.row.saysCancelled, shown))
    || exists k :: 0 <= k < |steps| && steps[k].FinalizeRow? && Means(steps[k].status, steps[k].saysCancelled, shown)
  }

  predicate EndsWithRow(c: Config) {
    c.hasRow && c.stopWhenRowDone
  }

  predicate FromRow(c: Config, d: Doc) {
    Terminal(d.status) && d.finals == 0 ==> EndsWithRow(c)
  }

  // Only a heartbeat that ends with its row takes a status from there.
  predicate RowBound(c: Config, pc: Pc) {
    pc.Beating? ==>
      && (Adopts(pc.k) ==> EndsWithRow(c)) && (pc.stage.Unlocking? && pc.stage.rowDone ==> c.hasRow)
      && (pc.stage.Writing? ==> FromRow(c, pc.stage.doc))
  }

  ghost predicate Sourced(c: Config, b: Start, steps: seq<Step>, s: State) {
    && Inv(s) && FromRow(c, s.sh.rec.st)
    && (forall shown :: shown in s.sh.db.told ==> RowSaid(b, steps, shown))
    && (forall i :: 0 <= i < |s.sh.out.written| ==> FromRow(c, s.sh.out.written[i]))
    && (forall t: Tid {:trigger PcOf(s, t)} :: RowBound(c, PcOf(s, t)))
  }

  lemma MoverIsBound(c: Config, sh: Shared, pc: Pc, loop: Pc, step: Step)
    requires Takes(sh, pc, loop, step) && RowBound(c, pc) && FromRow(c, sh.rec.st)
    ensures RowBound(c, NextPc(c, sh, pc, loop, step)) && FromRow(c, NextRecord(sh, pc, loop, step).st)
  {
  }

  lemma RowSaidSo(b: Start, steps: seq<Step>, db: RowLog, step: Step)
    requires forall shown :: shown in db.told ==> RowSaid(b, steps, shown)
    ensures forall shown :: shown in NextRow(db, step).told ==> RowSaid(b, steps + [step], shown)
  {
    var all := steps + [step];
    forall shown | shown in NextRow(db, step).told ensures RowSaid(b, all, shown) {
      if shown in db.told {
        if !(b.row.Row? && Means(b.row.status, b.row.saysCancelled, shown)) {
          var k :| 0 <= k < |steps| && steps[k].FinalizeRow? && Means(steps[k].status, steps[k].saysCancelled, shown);
          assert all[k] == steps[k];
        }
      } else {
        assert all[|steps|] == step;
      }
    }
  }

  lemma StepIsSourced(c: Config, b: Start, steps: seq<Step>, s: State, step: Step)
    requires Sourced(c, b, steps, s) && Enabled(s, step)
    ensures Sourced(c, b, steps + [step], Apply(c, s, step))
  {
    StepKeepsInv(c, s, step);
    StepIsTaken(c, s, step);
    MoverIsBound(c, s.sh, PcOf(s, Mover(step)), PcOf(s, LOOP), step);
    RowSaidSo(b, steps, s.sh.db, step);
    var s' := Apply(c, s, step);
    forall t: Tid ensures RowBound(c, PcOf(s', t)) {
      assert t != Mover(step) ==> PcOf(s', t) == PcOf(s, t);
    }
  }

  lemma {:induction false} RestIsSourced(c: Config, b: Start, steps: seq<Step>, k: nat, s: State, end: State)
    requires k <= |steps| && Sourced(c, b, steps[..k], s) && IsRun(c, s, steps[k..], end)
    ensures Sourced(c, b, steps, end)
    decreases |steps| - k
  {
    if k == |steps| {
      assert steps[..k] == steps;
    } else {
      Slices(steps, k);
      StepIsSourced(c, b, steps[..k], s, steps[k]);
      RestIsSourced(c, b, steps, k + 1, Apply(c, s, steps[k]), end);
    }
  }

  lemma FirstIsSourced(c: Config, b: Start)
    ensures Sourced(c, b, [], First(c, b))
  {
    InitialInv(c, First(c, b));
  }

  lemma DocumentHasASource(c: Config, b: Start, steps: seq<Step>, d: Doc, finishes: seq<Status>, told: set<Status>)
    requires Faithful(d, finishes) && Justified(d, told) && FromRow(c, d) && Terminal(d.status)
    requires finishes == Finals(steps) && forall shown :: shown in told ==> RowSaid(b, steps, shown)
    ensures FinishAsked(steps, d.status) || (EndsWithRow(c) && RowSaid(b, steps, d.status))
  {
    if d.finals > 0 { FinalsAreAsked(steps, finishes[d.finals - 1]); }
  }

  // A terminal status in any document is one some Finish was called with, or, for
  // a heartbeat that ends with its row, what the row was finalized as.
  lemma TerminalHasASource(c: Config, b: Start, steps: seq<Step>, end: State, i: nat)
    requires IsRun(c, First(c, b), steps, end) && i < |end.sh.out.written|
    requires Terminal(end.sh.out.written[i].status)
    ensures var status := end.sh.out.written[i].status;
      FinishAsked(steps, status) || (EndsWithRow(c) && RowSaid(b, steps, status))
  {
    FirstIsSourced(c, b);
    assert steps[..0] == [] && steps[0..] == steps;
    RestIsSourced(c, b, steps, 0, First(c, b), end);
    FinishSetsWhatItWasGiven(c, b, steps, end, LOOP);
    DocumentHasASource(c, b, steps, end.sh.out.written[i], end.sh.rec.finishes, end.sh.db.told);
  }

  // The loop leaves its select for good only when Stop has begun, or, for a
  // heartbeat that ends with its row, when the row is over.
  predicate MayLeave(c: Config, sh: Shared, loop: Pc) {
    Leaving(loop) ==> sh.sync.stopClosed || (EndsWithRow(c) && RowOver(sh.db.row))
  }

  lemma KeepsMayLeave(c: Config, sh: Shared, pc: Pc, loop: Pc, step: Step)
    requires Takes(sh, pc, loop, step) && RowBound(c, pc) && MayLeave(c, sh, loop)
    ensures MayLeave(c, NextShared(c, sh, pc, loop, step), NextLoop(c, sh, pc, loop, step))
  {
  }

  // Some Stop has begun.
  ghost predicate StopBegun(steps: seq<Step>) {
    exists i :: 0 <= i < |steps| && steps[i].EnterOnce?
  }

  lemma StopBegunStill(steps: seq<Step>, step: Step)
    ensures StopBegun(steps) || step.EnterOnce? ==> StopBegun(steps + [step])
  {
    var all := steps + [step];
    assert all[|steps|] == step;
    if i :| 0 <= i < |steps| && steps[i].EnterOnce? { assert all[i] == steps[i]; }
  }

  ghost predicate LeavesWell(c: Config, steps: seq<Step>, s: State) {
    MayLeave(c, s.sh, PcOf(s, LOOP)) && (s.sh.sync.stopClosed ==> StopBegun(steps))
  }

  lemma StepLeavesWell(c: Config, b: Start, steps: seq<Step>, s: State, step: Step)
    requires Sourced(c, b, steps, s) && LeavesWell(c, steps, s) && Enabled(s, step)
    ensures LeavesWell(c, steps + [step], Apply(c, s, step))
  {
    StepIsTaken(c, s, step);
    KeepsMayLeave(c, s.sh, PcOf(s, Mover(step)), PcOf(s, LOOP), step);
    StopBegunStill(steps, step);
  }

  lemma {:induction false} RestLeavesWell(c: Config, b: Start, steps: seq<Step>, k: nat, s: State, end: State)
    requires k <= |steps| && Sourced(c, b, steps[..k], s) && LeavesWell(c, steps[..k], s)
    requires IsRun(c, s, steps[k..], end)
    ensures LeavesWell(c, steps, end)
    decreases |steps| - k
  {
    if k == |steps| {
      assert steps[..k] == steps;
    } else {
      Slices(steps, k);
      StepLeavesWell(c, b, steps[..k], s, steps[k]);
      StepIsSourced(c, b, steps[..k], s, steps[k]);
      RestLeavesWell(c, b, steps, k + 1, Apply(c, s, steps[k]), end);
    }
  }

  lemma LoopLeavesForAReason(c: Config, b: Start, steps: seq<Step>, end: State)
    requires IsRun(c, First(c, b), steps, end) && Leaving(PcOf(end, LOOP))
    ensures StopBegun(steps) || (EndsWithRow(c) && RowOver(RowAfter(b.row, steps)))
  {
    FirstIsSourced(c, b);
    assert steps[..0] == [] && steps[0..] == steps;
    RowFollowsSteps(c, b.row, steps, 0, First(c, b), end);
    RestLeavesWell(c, b, steps, 0, First(c, b), end);
  }
}
