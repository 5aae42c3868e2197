/**
  When the terminal status in memory, which every later document takes its status
  from, can still change.

  A status adopted from the row is terminal, but the row may be finalized again,
  and Stop reads it once more when its own beat finds it over. This says exactly
  from which moments on that second adoption can still happen.
*/
module HeartbeatStatus {
  import opened Common
  import opened Heartbeat
  import opened HeartbeatProofs

  // A beat of Stop that finds the row over will read it.
  predicate Rereads(c: Config, db: RowLog) {
    c.hasRow && c.stopWhenRowDone && db.row.Row?
  }

  // The stopping thread may still set a status other than the one in memory.
  predicate MayAdopt(c: Config, sh: Shared, pc: Pc) {
    match pc
    case StopWait(_) => Rereads(c, sh.db)
    case StopClear(_) => Rereads(c, sh.db)
    case Beating(StopBeat(_), stage) =>
      if stage.Unlocking? then stage.rowDone && c.stopWhenRowDone && sh.db.row.Row?
      else Rereads(c, sh.db)
    case Beating(StopAdoptBeat(_, _), AdoptRead) => sh.db.row.Row?
    case Beating(StopAdoptBeat(_, _), AdoptSet(status)) => status != sh.rec.st.status
    case _ => false
  }

  // Stop has not begun, or has not yet made up its mind about the row.
  predicate MayChangeBy(c: Config, sh: Shared, stopping: Pc) {
    match sh.sync.once
    case NotRun => Rereads(c, sh.db)
    case InProgress(_) => MayAdopt(c, sh, stopping)
    case Done(_) => false
  }

  predicate MayChange(c: Config, s: State) {
    MayChangeBy(c, s.sh, StoppingPc(s))
  }

  // A run in which no Finish sets its status.
  predicate Finishless(steps: seq<Step>) {
    forall i :: 0 <= i < |steps| ==> !steps[i].SetFinal?
  }

  // ------------------------------------------------------ it can change no more

  // Only a Finish, or the thread that stops, sets another status than a terminal
  // one.
  lemma OnlyStopAdopts(sh: Shared, pc: Pc, loop: Pc, step: Step)
    requires Takes(sh, pc, loop, step) && !step.SetFinal? && Terminal(sh.rec.st.status)
    ensures NextRecord(sh, pc, loop, step).st.status ==
      if step.Adopt? && Stopping(pc) then pc.stage.status else sh.rec.st.status
  {
  }

  // The stopping thread does not change its mind...
  lemma StopperStays(c: Config, sh: Shared, pc: Pc, loop: Pc, step: Step)
    requires Takes(sh, pc, loop, step) && Stopping(pc) && !Foreign(step)
    requires Terminal(sh.rec.st.status) && !MayAdopt(c, sh, pc)
    ensures NextRecord(sh, pc, loop, step).st.status == sh.rec.st.status
    ensures !MayAdopt(c, NextShared(c, sh, pc, loop, step), NextPc(c, sh, pc, loop, step))
  {
  }

  // ... and nobody else changes it.
  lemma OthersLetStay(c: Config, sh: Shared, pc: Pc, loop: Pc, step: Step, other: Pc)
    requires Takes(sh, pc, loop, step) && !step.SetFinal? && (Stopping(pc) ==> Foreign(step))
    requires Terminal(sh.rec.st.status)
    ensures var sh' := NextShared(c, sh, pc, loop, step);
      && sh'.rec.st.status == sh.rec.st.status
      && (!Rereads(c, sh.db) ==> !Rereads(c, sh'.db)) && (!MayAdopt(c, sh, other) ==> !MayAdopt(c, sh', other))
  {
    OnlyStopAdopts(sh, pc, loop, step);
  }

  lemma MayNotChange(c: Config, sh: Shared, pc: Pc, loop: Pc, step: Step, stopping: Pc)
    requires Takes(sh, pc, loop, step) && !step.SetFinal? && Terminal(sh.rec.st.status)
    requires sh.sync.once == InProgress(Mover(step)) ==> stopping == pc
    requires !MayChangeBy(c, sh, stopping)
    ensures var sh' := NextShared(c, sh, pc, loop, step);
      && sh'.rec.st.status == sh.rec.st.status
      && !MayChangeBy(c, sh', NextStopping(c, sh, pc, loop, step, stopping))
  {
    if Stopping(pc) && !Foreign(step) {
      StopperStays(c, sh, pc, loop, step);
    } else {
      OthersLetStay(c, sh, pc, loop, step, stopping);
    }
  }

  lemma StatusStays(c: Config, s: State, step: Step)
    requires Inv(s) && Enabled(s, step) && !step.SetFinal? && Terminal(s.sh.rec.st.status) && !MayChange(c, s)
    ensures var s' := Apply(c, s, step); s'.sh.rec.st.status == s.sh.rec.st.status && !MayChange(c, s')
  {
    StepIsTaken(c, s, step);
    StoppingMoves(c, s, step);
    MayNotChange(c, s.sh, PcOf(s, Mover(step)), PcOf(s, LOOP), step, StoppingPc(s));
  }

  lemma {:induction false} StatusStaysForGood(c: Config, s: State, steps: seq<Step>, end: State)
    requires Inv(s) && IsRun(c, s, steps, end) && Finishless(steps)
    requires Terminal(s.sh.rec.st.status) && !MayChange(c, s)
    ensures end.sh.rec.st.status == s.sh.rec.st.status && !MayChange(c, end)
    decreases |steps|
  {
    if steps != [] {
      StepKeepsInv(c, s, steps[0]);
      StatusStays(c, s, steps[0]);
      StatusStaysForGood(c, Apply(c, s, steps[0]), steps[1..], end);
    }
  }

  // ---------------------------------------------------------- it can still change

  // How many stages of a beat are left.
  function Left(stage: Stage): nat {
    match stage
    case WantLock => 6
    case Sampling => 5
    case Snapping(_, _) => 4
    case Writing(_) => 3
    case Stamping(_) => 2
    case Unlocking(_, _) => 1
    case _ => 0
  }

  // How far the loop is from its exit.
  function LoopLeft(loop: Pc): nat {
    if loop.Beating? then Left(loop.stage) else 0
  }

  // How far a thread that stops is from setting another status than the one in
  // memory.
  function StopLeft(sh: Shared, pc: Pc): nat {
    match pc
    case StopOnce(_) => 13
    case StopWait(_) => 12
    case StopClear(_) => 11
    case Beating(StopBeat(_), stage) => 3 + Left(stage)
    case Beating(_, AdoptRead) => if sh.db.row.Row? && Adopted(sh.db.row) != sh.rec.st.status then 2 else 3
    case Beating(_, AdoptSet(_)) => 1
    case _ => 14
  }

  function Another(status: Status): Status {
    if status == Failed then Completed else Failed
  }

  // What the stopping thread t waits for, or does, next.
  function TowardBy(sh: Shared, pc: Pc, loop: Pc, t: Tid): Step {
    if Busy(loop) then NextOf(LOOP, loop)
    else if !Busy(pc) then CallStop(t)
    else if pc.Beating? && pc.stage.AdoptRead? && sh.db.row.Row? && Adopted(sh.db.row) == sh.rec.st.status then
      FinalizeRow(Another(sh.rec.st.status), false)
    else NextOf(t, pc)
  }

  // Thread t is the one that stops, or is about to be.
  predicate Stops(sh: Shared, t: Tid, pc: Pc) {
    && t != LOOP && (sh.sync.once.NotRun? ==> pc.Idle? || pc.StopOnce?)
    && (sh.sync.once.InProgress? ==> sh.sync.once.owner == t)
  }

  // The status in memory is terminal, adopted, and may still change by t.
  predicate Open(c: Config, sh: Shared, loop: Pc, t: Tid, pc: Pc) {
    Terminal(sh.rec.st.status) && MayChangeBy(c, sh, pc) && Stops(sh, t, pc)
  }

  // Nobody but the loop and the stopping thread beats before Stop is over.
  predicate LockIsTheirs(sh: Shared, t: Tid) {
    !sh.sync.once.Done? ==> sh.sync.writeMu.None? || sh.sync.writeMu == Some(LOOP) || sh.sync.writeMu == Some(t)
  }

  // The loop's way out keeps the status open...
  lemma LoopLeaves(c: Config, sh: Shared, loop: Pc, t: Tid, pc: Pc)
    requires StopProtocol(sh, loop) && Control(sh, loop, LOOP, loop) && Control(sh, loop, t, pc)
    requires Open(c, sh, loop, t, pc) && LockIsTheirs(sh, t) && Busy(loop)
    ensures var step := NextOf(LOOP, loop); Can(sh, loop, loop, step) && Mover(step) == LOOP && !step.SetFinal?
    ensures var step := NextOf(LOOP, loop);
      var sh', loop' := NextShared(c, sh, loop, loop, step), NextPc(c, sh, loop, loop, step);
      Open(c, sh', loop', t, pc) && LoopLeft(loop') + StopLeft(sh', pc) < LoopLeft(loop) + StopLeft(sh, pc)
  {
  }

  // ... the first steps of a Stop do so too ...
  lemma StopBegins(c: Config, sh: Shared, loop: Pc, t: Tid, pc: Pc)
    requires StopProtocol(sh, loop) && Control(sh, loop, LOOP, loop) && Control(sh, loop, t, pc)
    requires Open(c, sh, loop, t, pc) && !Busy(loop) && sh.sync.once.NotRun?
    ensures var step := TowardBy(sh, pc, loop, t);
      Can(sh, pc, loop, step) && Mover(step) == t && !step.SetFinal? && !Foreign(step)
    ensures var step := TowardBy(sh, pc, loop, t);
      var sh', pc' := NextShared(c, sh, pc, loop, step), NextPc(c, sh, pc, loop, step);
      sh'.rec == sh.rec && Open(c, sh', loop, t, pc') && StopLeft(sh', pc') < StopLeft(sh, pc)
  {
  }

  // ... and the stopping thread comes closer to changing it, until it does.
  lemma StopComesCloser(c: Config, sh: Shared, loop: Pc, t: Tid, pc: Pc)
    requires StopProtocol(sh, loop) && Control(sh, loop, LOOP, loop) && Control(sh, loop, t, pc)
    requires Open(c, sh, loop, t, pc) && LockIsTheirs(sh, t) && !Busy(loop) && sh.sync.once.InProgress?
    requires !Foreign(TowardBy(sh, pc, loop, t))
    ensures var step := TowardBy(sh, pc, loop, t); Can(sh, pc, loop, step) && Mover(step) == t && !step.SetFinal?
    ensures var step := TowardBy(sh, pc, loop, t);
      var sh', pc' := NextShared(c, sh, pc, loop, step), NextPc(c, sh, pc, loop, step);
      sh'.rec.st.status != sh.rec.st.status
      || (&& sh'.rec.st.status == sh.rec.st.status && Open(c, sh', loop, t, pc')
          && StopLeft(sh', pc') < StopLeft(sh, pc))
  {
  }

  // The row may be finalized with another status just before it is read.
  lemma RowChangesFirst(c: Config, sh: Shared, loop: Pc, t: Tid, pc: Pc)
    requires Control(sh, loop, t, pc) && Open(c, sh, loop, t, pc)
    requires !Busy(loop) && Foreign(TowardBy(sh, pc, loop, t))
    ensures var step := TowardBy(sh, pc, loop, t); Can(sh, loop, loop, step) && Mover(step) == LOOP
    ensures var sh' := NextShared(c, sh, loop, loop, TowardBy(sh, pc, loop, t));
      && sh'.rec == sh.rec && Open(c, sh', loop, t, pc)
      && LoopLeft(loop) + StopLeft(sh', pc) < LoopLeft(loop) + StopLeft(sh, pc)
  {
  }

  lemma TheLockIsTheirs(s: State, t: Tid)
    requires Inv(s) && Stops(s.sh, t, PcOf(s, t))
    ensures LockIsTheirs(s.sh, t)
  {
    var mu := s.sh.sync.writeMu;
    if mu.Some? { assert Thread(s, mu.value); }
  }

  ghost predicate OpenTo(c: Config, s: State, t: Tid) {
    Inv(s) && Open(c, s.sh, PcOf(s, LOOP), t, PcOf(s, t))
  }

  // How far a state is from one with another status.
  function Distance(s: State, t: Tid): nat {
    LoopLeft(PcOf(s, LOOP)) + StopLeft(s.sh, PcOf(s, t))
  }

  function Toward(s: State, t: Tid): Step {
    TowardBy(s.sh, PcOf(s, t), PcOf(s, LOOP), t)
  }

  // A step towards another status.
  lemma ComesCloser(c: Config, s: State, t: Tid)
    requires OpenTo(c, s, t)
    ensures Enabled(s, Toward(s, t)) && !Toward(s, t).SetFinal?
    ensures var s' := Apply(c, s, Toward(s, t));
      && Inv(s')
      && (s'.sh.rec.st.status == s.sh.rec.st.status ==> OpenTo(c, s', t) && Distance(s', t) < Distance(s, t))
  {
    assert Thread(s, LOOP) && Thread(s, t);
    TheLockIsTheirs(s, t);
    var pc, loop, step := PcOf(s, t), PcOf(s, LOOP), Toward(s, t);
    if Busy(loop) {
      LoopLeaves(c, s.sh, loop, t, pc);
    } else if Foreign(step) {
      RowChangesFirst(c, s.sh, loop, t, pc);
    } else if s.sh.sync.once.NotRun? {
      StopBegins(c, s.sh, loop, t, pc);
    } else {
      StopComesCloser(c, s.sh, loop, t, pc);
    }
    StepKeepsInv(c, s, step);
  }

  ghost predicate ChangesTo(c: Config, s: State, steps: seq<Step>, end: State) {
    IsRun(c, s, steps, end) && Finishless(steps) && end.sh.rec.st.status != s.sh.rec.st.status
  }

  lemma {:induction false} CanChange(c: Config, s: State, t: Tid)
    requires OpenTo(c, s, t)
    ensures exists steps, end :: ChangesTo(c, s, steps, end)
    decreases Distance(s, t)
  {
    ComesCloser(c, s, t);
    var step := Toward(s, t);
    var s' := Apply(c, s, step);
    if s'.sh.rec.st.status != s.sh.rec.st.status {
      assert IsRun(c, s', [], s') && [step][1..] == [];
      assert ChangesTo(c, s, [step], s');
    } else {
      CanChange(c, s', t);
      var steps, end :| ChangesTo(c, s', steps, end);
      var all := [step] + steps;
      assert all[1..] == steps;
      assert forall i :: 0 < i < |all| ==> all[i] == steps[i - 1];
      assert ChangesTo(c, s, all, end);
    }
  }

  // A terminal status in memory can be followed by another without a Finish if
  // and only if Stop has not begun and will read the row, or has begun and has
  // not yet settled on that status. In particular it can no longer change once a
  // Stop has returned.
  lemma TerminalCanChangeIff(c: Config, s: State)
    requires Reachable(c, s) && Terminal(s.sh.rec.st.status)
    ensures MayChange(c, s) <==> exists steps, end :: ChangesTo(c, s, steps, end)
  {
    ReachableInv(c, s);
    if MayChange(c, s) {
      var t := FreshNat(s.pc.Keys);
      if s.sh.sync.once.InProgress? { t := s.sh.sync.once.owner; }
      assert Thread(s, t);
      CanChange(c, s, t);
    } else {
      forall steps, end ensures !ChangesTo(c, s, steps, end) {
        if IsRun(c, s, steps, end) && Finishless(steps) { StatusStaysForGood(c, s, steps, end); }
      }
    }
  }

  // --------------------------------------------------------------- such a run

  lemma {:induction false} RunSnoc(c: Config, s: State, steps: seq<Step>, end: State, step: Step)
    requires IsRun(c, s, steps, end) && Enabled(end, step)
    ensures IsRun(c, s, steps + [step], Apply(c, end, step))
    decreases |steps|
  {
    if steps == [] {
      assert [step][1..] == [] && IsRun(c, Apply(c, s, step), [], Apply(c, s, step));
    } else {
      RunSnoc(c, Apply(c, s, steps[0]), steps[1..], end, step);
      assert (steps + [step])[1..] == steps[1..] + [step];
    }
  }

  lemma ReachesNext(c: Config, s: State, step: Step)
    requires Reachable(c, s) && Enabled(s, step)
    ensures Reachable(c, Apply(c, s, step))
  {
    var s0, steps :| IsInitial(c, s0) && IsRun(c, s0, steps, s);
    RunSnoc(c, s0, steps, s, step);
  }

  // The loop is on its way to adopt the status of a row that is over.
  predicate Adopting(c: Config, sh: Shared, loop: Pc) {
    && c.stopWhenRowDone && c.hasRow && RowOver(sh.db.row) && sh.db.row.Row?
    && sh.sync.once.NotRun? && (sh.sync.writeMu.None? || sh.sync.writeMu == Some(LOOP))
    && match loop
       case AtSelect => true
       case Beating(LoopBeat, stage) => stage.Unlocking? ==> stage.rowDone
       case Beating(LoopAdoptBeat, stage) => stage.AdoptRead? || stage == AdoptSet(Adopted(sh.db.row))
       case _ => false
  }

  function AdoptLeft(loop: Pc): nat {
    match loop
    case AtSelect => 9
    case Beating(LoopBeat, stage) => 2 + Left(stage)
    case Beating(_, AdoptRead) => 2
    case _ => 1
  }

  function NextOfLoop(loop: Pc): Step
    requires loop.AtSelect? || Busy(loop)
  {
    if loop.AtSelect? then Tick else NextOf(LOOP, loop)
  }

  lemma LoopComesCloser(c: Config, sh: Shared, loop: Pc)
    requires Control(sh, loop, LOOP, loop) && Adopting(c, sh, loop)
    ensures Can(sh, loop, loop, NextOfLoop(loop)) && Mover(NextOfLoop(loop)) == LOOP && !Foreign(NextOfLoop(loop))
    ensures var step := NextOfLoop(loop);
      var sh', loop' := NextShared(c, sh, loop, loop, step), NextPc(c, sh, loop, loop, step);
      && sh'.db == sh.db && sh'.sync.once == sh.sync.once
      && (sh'.rec.st.status == Adopted(sh.db.row) || (Adopting(c, sh', loop') && AdoptLeft(loop') < AdoptLeft(loop)))
  {
  }

  // The loop adopts the row's status while no Stop has begun...
  lemma {:induction false} LoopAdopts(c: Config, s: State)
    requires Reachable(c, s) && Adopting(c, s.sh, PcOf(s, LOOP))
    ensures exists s' ::
      Reachable(c, s') && s'.sh.db == s.sh.db && s'.sh.sync.once.NotRun? && s'.sh.rec.st.status == Adopted(s.sh.db.row)
    decreases AdoptLeft(PcOf(s, LOOP))
  {
    ReachableInv(c, s);
    assert Thread(s, LOOP);
    var loop := PcOf(s, LOOP);
    LoopComesCloser(c, s.sh, loop);
    ReachesNext(c, s, NextOfLoop(loop));
    var s' := Apply(c, s, NextOfLoop(loop));
    if s'.sh.rec.st.status != Adopted(s.sh.db.row) {
      LoopAdopts(c, s');
    }
  }

  // ... so a heartbeat that ends with its row can hold any terminal status in
  // memory and then, without a Finish, another one.
  lemma AdoptedStatusCanChange(c: Config, phase: string, status: Status)
    requires c.hasRow && c.stopWhenRowDone && Terminal(status)
    ensures exists s, steps, end :: Reachable(c, s) && s.sh.rec.st.status == status && ChangesTo(c, s, steps, end)
  {
    var s0 := Initial(c, phase, 0, None, Row(Running, false), true);
    assert IsRun(c, s0, [], s0);
    var step := FinalizeRow(status, false);
    ReachesNext(c, s0, step);
    var s1 := Apply(c, s0, step);
    LoopAdopts(c, s1);
    var s :| Reachable(c, s) && s.sh.db == s1.sh.db && s.sh.sync.once.NotRun? && s.sh.rec.st.status == status;
    TerminalCanChangeIff(c, s);
  }
}
