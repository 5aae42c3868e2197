/**
  When the terminal status in status.json can still change.

  The file shows the newest document written. Without a Finish another status can
  still get there while some thread carries it: it has a document with it to
  write, will take a snapshot of a record that says it, or, stopping, will read
  the row again; or while no Stop has begun, and one would.
*/
module HeartbeatShown {
  import opened Common
  import opened Heartbeat
  import opened HeartbeatProofs
  import opened HeartbeatStatus

  // The record says another status than this one.
  predicate Differs(sh: Shared, shown: Status) {
    sh.rec.st.status != shown
  }

  // A beat will write another status, if every write and read goes well...
  predicate CarriesAt(c: Config, sh: Shared, k: Beat, stage: Stage, shown: Status) {
    match stage
    case Writing(doc) => doc.status != shown || (k.StopBeat? && Rereads(c, sh.db))
    case Stamping(_) => k.StopBeat? && Rereads(c, sh.db)
    case Unlocking(rowDone, _) => k.StopBeat? && rowDone && c.stopWhenRowDone && sh.db.row.Row?
    case AdoptRead => k.StopAdoptBeat? && sh.db.row.Row?
    case AdoptSet(status) => k.StopAdoptBeat? && status != shown
    case _ => Differs(sh, shown) || (k.StopBeat? && Rereads(c, sh.db))
  }

  // ... and so will a Stop that has not come to its beat.
  predicate Carries(c: Config, sh: Shared, pc: Pc, shown: Status) {
    match pc
    case StopWait(_) => Differs(sh, shown) || Rereads(c, sh.db)
    case StopClear(_) => Differs(sh, shown) || Rereads(c, sh.db)
    case Beating(k, stage) => CarriesAt(c, sh, k, stage, shown)
    case _ => false
  }

  // A Stop that begins would carry another status.
  predicate StopWould(c: Config, sh: Shared, shown: Status) {
    sh.sync.once.NotRun? && (Differs(sh, shown) || Rereads(c, sh.db))
  }

  // The status the file shows.
  function ShownStatus(o: Output): Status
    requires o.written != []
  {
    Last(o.written).status
  }

  ghost predicate NobodyCarries(c: Config, s: State, shown: Status) {
    && !StopWould(c, s.sh, shown)
    && forall t: Tid {:trigger PcOf(s, t)} :: !Carries(c, s.sh, PcOf(s, t), shown)
  }

  // Another status can still get into the file.
  ghost predicate MayShow(c: Config, s: State)
    requires s.sh.out.written != []
  {
    c.hasFile && !NobodyCarries(c, s, ShownStatus(s.sh.out))
  }

  // ---------------------------------------------------- it can change no more

  predicate ShowsFor(sh: Shared, shown: Status) {
    sh.out.written != [] && ShownStatus(sh.out) == shown && Terminal(shown) && Terminal(sh.rec.st.status)
  }

  lemma MoverStillShows(c: Config, sh: Shared, pc: Pc, loop: Pc, step: Step, shown: Status)
    requires Takes(sh, pc, loop, step) && !step.SetFinal? && !Foreign(step)
    requires ShowsFor(sh, shown) && !Carries(c, sh, pc, shown) && !StopWould(c, sh, shown)
    ensures var sh' := NextShared(c, sh, pc, loop, step); ShowsFor(sh', shown) && !StopWould(c, sh', shown)
  {
    OnlyStopAdopts(sh, pc, loop, step);
  }

  // A beat goes on without another status...
  lemma BeatCarriesNothing(c: Config, sh: Shared, pc: Pc, loop: Pc, step: Step, shown: Status)
    requires Takes(sh, pc, loop, step) && !step.SetFinal? && !Foreign(step) && pc.Beating?
    requires ShowsFor(sh, shown) && !Carries(c, sh, pc, shown)
    ensures !Carries(c, NextShared(c, sh, pc, loop, step), NextPc(c, sh, pc, loop, step), shown)
  {
  }

  // ... and none begins with one.
  lemma CallCarriesNothing(c: Config, sh: Shared, pc: Pc, loop: Pc, step: Step, shown: Status)
    requires Takes(sh, pc, loop, step) && !step.SetFinal? && !Foreign(step) && !pc.Beating?
    requires ShowsFor(sh, shown) && !Carries(c, sh, pc, shown) && !StopWould(c, sh, shown)
    ensures !Carries(c, NextShared(c, sh, pc, loop, step), NextPc(c, sh, pc, loop, step), shown)
  {
  }

  lemma MoverCarriesNothing(c: Config, sh: Shared, pc: Pc, loop: Pc, step: Step, shown: Status)
    requires Takes(sh, pc, loop, step) && !step.SetFinal? && !Foreign(step)
    requires ShowsFor(sh, shown) && !Carries(c, sh, pc, shown) && !StopWould(c, sh, shown)
    ensures var sh' := NextShared(c, sh, pc, loop, step);
      ShowsFor(sh', shown) && !Carries(c, sh', NextPc(c, sh, pc, loop, step), shown) && !StopWould(c, sh', shown)
  {
    MoverStillShows(c, sh, pc, loop, step, shown);
    if pc.Beating? {
      BeatCarriesNothing(c, sh, pc, loop, step, shown);
    } else {
      CallCarriesNothing(c, sh, pc, loop, step, shown);
    }
  }

  lemma OtherCarriesNothing(c: Config, sh: Shared, pc: Pc, loop: Pc, step: Step, other: Pc, shown: Status)
    requires Takes(sh, pc, loop, step) && !step.SetFinal?
    requires ShowsFor(sh, shown) && (!Foreign(step) ==> !Carries(c, sh, pc, shown))
    requires !Carries(c, sh, other, shown)
    ensures !Carries(c, NextShared(c, sh, pc, loop, step), other, shown)
  {
  }

  lemma ForeignShows(c: Config, sh: Shared, pc: Pc, loop: Pc, step: Step, shown: Status)
    requires Takes(sh, pc, loop, step) && Foreign(step) && ShowsFor(sh, shown) && !StopWould(c, sh, shown)
    ensures var sh' := NextShared(c, sh, pc, loop, step); ShowsFor(sh', shown) && !StopWould(c, sh', shown)
  {
  }

  ghost predicate Stays(c: Config, s: State, shown: Status) {
    ShowsFor(s.sh, shown) && NobodyCarries(c, s, shown)
  }

  lemma StepStays(c: Config, s: State, step: Step, shown: Status)
    requires Inv(s) && Enabled(s, step) && !step.SetFinal? && Stays(c, s, shown)
    ensures Stays(c, Apply(c, s, step), shown)
  {
    StepIsTaken(c, s, step);
    var s', t := Apply(c, s, step), Mover(step);
    var pc, loop := PcOf(s, t), PcOf(s, LOOP);
    if Foreign(step) {
      ForeignShows(c, s.sh, pc, loop, step, shown);
    } else {
      MoverCarriesNothing(c, s.sh, pc, loop, step, shown);
    }
    forall u: Tid ensures !Carries(c, s'.sh, PcOf(s', u), shown) {
      if u != t || Foreign(step) {
        assert PcOf(s', u) == PcOf(s, u);
        OtherCarriesNothing(c, s.sh, pc, loop, step, PcOf(s, u), shown);
      }
    }
  }

  lemma {:induction false} RunStays(c: Config, s: State, steps: seq<Step>, end: State, shown: Status)
    requires Inv(s) && IsRun(c, s, steps, end) && Finishless(steps) && Stays(c, s, shown)
    ensures Stays(c, end, shown)
    decreases |steps|
  {
    if steps != [] {
      StepKeepsInv(c, s, steps[0]);
      StepStays(c, s, steps[0], shown);
      RunStays(c, Apply(c, s, steps[0]), steps[1..], end, shown);
    }
  }

  lemma {:induction false} NoFileNoChange(c: Config, s: State, steps: seq<Step>, end: State)
    requires !c.hasFile && IsRun(c, s, steps, end)
    ensures end.sh.out.written == s.sh.out.written
    decreases |steps|
  {
    if steps != [] { NoFileNoChange(c, Apply(c, s, steps[0]), steps[1..], end); }
  }

  // A terminal status in the file has one in the record behind it.
  lemma ShownIsTerminal(c: Config, s: State)
    requires Inv(s) && s.sh.out.written != [] && Terminal(ShownStatus(s.sh.out))
    ensures ShowsFor(s.sh, ShownStatus(s.sh.out))
  {
  }

  // ---------------------------------------------------------- it can still change

  // Thread t carries another status, or may begin the Stop that would.
  predicate IsCarrier(c: Config, sh: Shared, t: Tid, pc: Pc, shown: Status) {
    Carries(c, sh, pc, shown) || (StopWould(c, sh, shown) && t != LOOP && (pc.Idle? || pc.StopOnce?))
  }

  // How far the carrier is from writing it.
  function CarryLeft(sh: Shared, pc: Pc, shown: Status): nat {
    match pc
    case StopOnce(_) => 39
    case StopWait(_) => 38
    case StopClear(_) => 37
    case Beating(_, AdoptRead) => if sh.db.row.Row? && Adopted(sh.db.row) != shown then 10 else 11
    case Beating(_, AdoptSet(_)) => 9
    case Beating(k, stage) => (if k.StopBeat? then 20 else 0) + Left(stage)
    case _ => 40
  }

  // The carrier waits for the write lock or for the loop.
  predicate Blocked(sh: Shared, loop: Pc, pc: Pc) {
    (pc.Beating? && pc.stage.WantLock? && sh.sync.writeMu.Some?) || (pc.StopWait? && !loop.LoopExited?)
  }

  // The row is finalized with another status just before the carrier reads it.
  predicate RowFirst(sh: Shared, pc: Pc, shown: Status) {
    pc.Beating? && pc.stage.AdoptRead? && sh.db.row.Row? && Adopted(sh.db.row) == shown
  }

  function NextOfCarrier(t: Tid, pc: Pc): Step
    requires pc.Idle? || Busy(pc)
  {
    if pc.Idle? then CallStop(t) else NextOf(t, pc)
  }

  // The status is another one, or the carrier has come closer to making it so.
  predicate Closer(c: Config, sh: Shared, pc: Pc, sh': Shared, t: Tid, pc': Pc, shown: Status) {
    sh'.out.written != [] &&
    (ShownStatus(sh'.out) == shown ==>
      && ShowsFor(sh', shown) && IsCarrier(c, sh', t, pc', shown)
      && CarryLeft(sh', pc', shown) < CarryLeft(sh, pc, shown))
  }

  predicate CarrierCan(sh: Shared, loop: Pc, t: Tid, pc: Pc) {
    && (pc.Idle? || Busy(pc))
    && var step := NextOfCarrier(t, pc);
       Can(sh, pc, loop, step) && Mover(step) == t && !step.SetFinal? && !Foreign(step)
  }

  lemma CarrierCanMove(c: Config, sh: Shared, loop: Pc, t: Tid, pc: Pc, shown: Status)
    requires StopProtocol(sh, loop) && Control(sh, loop, t, pc) && (t == LOOP ==> pc == loop)
    requires ShowsFor(sh, shown) && IsCarrier(c, sh, t, pc, shown) && !Blocked(sh, loop, pc)
    ensures CarrierCan(sh, loop, t, pc)
  {
  }

  // Up to its write a beat keeps carrying, and the write shows...
  lemma BeatCarriesToFile(c: Config, sh: Shared, loop: Pc, t: Tid, pc: Pc, shown: Status)
    requires StopProtocol(sh, loop) && Control(sh, loop, t, pc) && CarrierCan(sh, loop, t, pc)
    requires pc.Beating? && !pc.stage.Stamping? && !pc.stage.Unlocking? && !pc.stage.AdoptRead? && !pc.stage.AdoptSet?
    requires c.hasFile && ShowsFor(sh, shown) && Carries(c, sh, pc, shown)
    ensures var step := NextOfCarrier(t, pc);
      Closer(c, sh, pc, NextShared(c, sh, pc, loop, step), t, NextPc(c, sh, pc, loop, step), shown)
  {
  }

  // ... and after it Stop goes on to read the row and set its status.
  lemma StopCarriesOn(c: Config, sh: Shared, loop: Pc, t: Tid, pc: Pc, shown: Status)
    requires StopProtocol(sh, loop) && Control(sh, loop, t, pc) && CarrierCan(sh, loop, t, pc)
    requires pc.Beating? && (pc.stage.Stamping? || pc.stage.Unlocking? || pc.stage.AdoptRead? || pc.stage.AdoptSet?)
    requires ShowsFor(sh, shown) && Carries(c, sh, pc, shown) && !RowFirst(sh, pc, shown)
    ensures var step := NextOfCarrier(t, pc);
      Closer(c, sh, pc, NextShared(c, sh, pc, loop, step), t, NextPc(c, sh, pc, loop, step), shown)
  {
  }

  lemma BeatCarries(c: Config, sh: Shared, loop: Pc, t: Tid, pc: Pc, shown: Status)
    requires StopProtocol(sh, loop) && Control(sh, loop, t, pc) && CarrierCan(sh, loop, t, pc) && pc.Beating?
    requires c.hasFile && ShowsFor(sh, shown) && Carries(c, sh, pc, shown) && !RowFirst(sh, pc, shown)
    ensures var step := NextOfCarrier(t, pc);
      Closer(c, sh, pc, NextShared(c, sh, pc, loop, step), t, NextPc(c, sh, pc, loop, step), shown)
  {
    match pc.stage
    case Stamping(_) => StopCarriesOn(c, sh, loop, t, pc, shown);
    case Unlocking(_, _) => StopCarriesOn(c, sh, loop, t, pc, shown);
    case AdoptRead => StopCarriesOn(c, sh, loop, t, pc, shown);
    case AdoptSet(_) => StopCarriesOn(c, sh, loop, t, pc, shown);
    case _ => BeatCarriesToFile(c, sh, loop, t, pc, shown);
  }

  lemma CarrierMoves(c: Config, sh: Shared, loop: Pc, t: Tid, pc: Pc, shown: Status)
    requires StopProtocol(sh, loop) && Control(sh, loop, t, pc) && (t == LOOP ==> pc == loop)
    requires c.hasFile && ShowsFor(sh, shown) && IsCarrier(c, sh, t, pc, shown)
    requires !Blocked(sh, loop, pc) && !RowFirst(sh, pc, shown)
    ensures CarrierCan(sh, loop, t, pc)
    ensures var step := NextOfCarrier(t, pc);
      Closer(c, sh, pc, NextShared(c, sh, pc, loop, step), t, NextPc(c, sh, pc, loop, step), shown)
  {
    CarrierCanMove(c, sh, loop, t, pc, shown);
    if pc.Beating? { BeatCarries(c, sh, loop, t, pc, shown); }
  }

  lemma RowMovesFirst(c: Config, sh: Shared, loop: Pc, t: Tid, pc: Pc, shown: Status)
    requires ShowsFor(sh, shown) && IsCarrier(c, sh, t, pc, shown) && RowFirst(sh, pc, shown)
    ensures var step := FinalizeRow(Another(shown), false);
      Can(sh, loop, loop, step) && Closer(c, sh, pc, NextShared(c, sh, loop, loop, step), t, pc, shown)
  {
  }

  // A thread the carrier waits for.
  predicate Blocks(sh: Shared, u: Tid, pc: Pc) {
    pc.Beating? && (HoldsLock(pc) || (u == LOOP && pc.stage.WantLock? && sh.sync.writeMu.None?))
  }

  // It can move, and comes closer to the end of its beat...
  lemma BlockerMoves(c: Config, sh: Shared, loop: Pc, u: Tid, upc: Pc)
    requires StopProtocol(sh, loop) && Control(sh, loop, u, upc) && (u == LOOP ==> upc == loop)
    requires Terminal(sh.rec.st.status) && Blocks(sh, u, upc)
    ensures var step := NextOf(u, upc);
      && Can(sh, upc, loop, step) && Mover(step) == u && !step.SetFinal? && !Foreign(step) && !step.Adopt?
      && var sync', upc' := NextSync(c, sh, upc, loop, step), NextPc(c, sh, upc, loop, step);
      && (upc'.Beating? && HoldsLock(upc') ==> Left(upc'.stage) < Left(upc.stage))
      && (sync'.writeMu.Some? ==> HoldsLock(upc') && sync'.writeMu == Some(u))
      && (u == LOOP ==> LoopLeft(upc') < LoopLeft(upc))
  {
  }

  // ... and leaves the carrier where it is.
  lemma BlockerLeavesCarrier(c: Config, sh: Shared, loop: Pc, u: Tid, upc: Pc, t: Tid, pc: Pc, shown: Status)
    requires StopProtocol(sh, loop) && Control(sh, loop, u, upc) && Blocks(sh, u, upc)
    requires Can(sh, upc, loop, NextOf(u, upc)) && ShowsFor(sh, shown) && IsCarrier(c, sh, t, pc, shown)
    ensures var sh' := NextShared(c, sh, upc, loop, NextOf(u, upc));
      && sh'.db == sh.db && sh'.rec.st.status == sh.rec.st.status && sh'.out.written != []
      && (ShownStatus(sh'.out) == shown ==> ShowsFor(sh', shown) && IsCarrier(c, sh', t, pc, shown))
  {
  }

  ghost predicate CarriedBy(c: Config, s: State, t: Tid, shown: Status) {
    Inv(s) && c.hasFile && ShowsFor(s.sh, shown) && IsCarrier(c, s.sh, t, PcOf(s, t), shown)
  }

  function HolderLeft(s: State): nat {
    match s.sh.sync.writeMu
    case Some(h) => if PcOf(s, h).Beating? then Left(PcOf(s, h).stage) else 0
    case None => 0
  }

  // How long the carrier may still wait, and how far it is in all.
  function Waiting(s: State): nat {
    10 * LoopLeft(PcOf(s, LOOP)) + HolderLeft(s)
  }

  function Distance(s: State, t: Tid, shown: Status): nat {
    1000 * CarryLeft(s.sh, PcOf(s, t), shown) + Waiting(s)
  }

  // Who moves next for the carrier to get on.
  function Blocker(s: State, pc: Pc): Tid {
    var loop := PcOf(s, LOOP);
    if s.sh.sync.writeMu.Some? && (pc.Beating? || (loop.Beating? && loop.stage.WantLock?)) then s.sh.sync.writeMu.value
    else LOOP
  }

  lemma BlockerBlocks(c: Config, s: State, t: Tid, shown: Status)
    requires CarriedBy(c, s, t, shown) && Blocked(s.sh, PcOf(s, LOOP), PcOf(s, t))
    ensures var u := Blocker(s, PcOf(s, t)); u != t && Blocks(s.sh, u, PcOf(s, u))
  {
    assert Thread(s, LOOP) && Thread(s, t);
    if s.sh.sync.writeMu.Some? { assert Thread(s, s.sh.sync.writeMu.value); }
  }

  // Either way the next step brings another status, or comes closer.
  ghost predicate Nearer(c: Config, s: State, step: Step, t: Tid, shown: Status) {
    && Enabled(s, step) && !step.SetFinal?
    && var s' := Apply(c, s, step);
    && Inv(s') && s'.sh.out.written != []
    && (ShownStatus(s'.sh.out) == shown ==>
       CarriedBy(c, s', t, shown) && Distance(s', t, shown) < Distance(s, t, shown))
  }

  lemma BlockerWaitsLess(c: Config, s: State, u: Tid)
    requires Inv(s) && Terminal(s.sh.rec.st.status) && PcOf(s, u).Beating? && Blocks(s.sh, u, PcOf(s, u))
    ensures var step := NextOf(u, PcOf(s, u));
      && Enabled(s, step) && Mover(step) == u && !step.SetFinal? && Waiting(Apply(c, s, step)) < Waiting(s)
  {
    assert Thread(s, u) && Thread(s, LOOP);
    BlockerMoves(c, s.sh, PcOf(s, LOOP), u, PcOf(s, u));
  }

  lemma BlockedComesNearer(c: Config, s: State, t: Tid, shown: Status)
    requires CarriedBy(c, s, t, shown) && Blocked(s.sh, PcOf(s, LOOP), PcOf(s, t))
    ensures var u := Blocker(s, PcOf(s, t)); PcOf(s, u).Beating? && Nearer(c, s, NextOf(u, PcOf(s, u)), t, shown)
  {
    var u, loop := Blocker(s, PcOf(s, t)), PcOf(s, LOOP);
    BlockerBlocks(c, s, t, shown);
    assert Thread(s, u);
    var step := NextOf(u, PcOf(s, u));
    BlockerWaitsLess(c, s, u);
    BlockerLeavesCarrier(c, s.sh, loop, u, PcOf(s, u), t, PcOf(s, t), shown);
    StepKeepsInv(c, s, step);
  }

  lemma WaitingIsShort(s: State)
    ensures Waiting(s) <= 66
  {
  }

  // The waiting counts for less than one step of the carrier's own.
  lemma CloserIsNearer(c: Config, s: State, step: Step, t: Tid, shown: Status)
    requires CarriedBy(c, s, t, shown) && Enabled(s, step) && !step.SetFinal?
    requires var s' := Apply(c, s, step);
      Inv(s') && Closer(c, s.sh, PcOf(s, t), s'.sh, t, PcOf(s', t), shown)
    ensures Nearer(c, s, step, t, shown)
  {
    WaitingIsShort(Apply(c, s, step));
  }

  lemma CarrierComesNearer(c: Config, s: State, t: Tid, shown: Status)
    requires CarriedBy(c, s, t, shown) && !Blocked(s.sh, PcOf(s, LOOP), PcOf(s, t))
    requires !RowFirst(s.sh, PcOf(s, t), shown)
    ensures PcOf(s, t).Idle? || Busy(PcOf(s, t))
    ensures Nearer(c, s, NextOfCarrier(t, PcOf(s, t)), t, shown)
  {
    assert Thread(s, t) && Thread(s, LOOP);
    CarrierMoves(c, s.sh, PcOf(s, LOOP), t, PcOf(s, t), shown);
    var step := NextOfCarrier(t, PcOf(s, t));
    StepKeepsInv(c, s, step);
    CloserIsNearer(c, s, step, t, shown);
  }

  lemma RowComesNearer(c: Config, s: State, t: Tid, shown: Status)
    requires CarriedBy(c, s, t, shown) && RowFirst(s.sh, PcOf(s, t), shown)
    ensures Nearer(c, s, FinalizeRow(Another(shown), false), t, shown)
  {
    assert Thread(s, t) && Thread(s, LOOP);
    RowMovesFirst(c, s.sh, PcOf(s, LOOP), t, PcOf(s, t), shown);
    StepKeepsInv(c, s, FinalizeRow(Another(shown), false));
    CloserIsNearer(c, s, FinalizeRow(Another(shown), false), t, shown);
  }

  lemma SomeStepIsNearer(c: Config, s: State, t: Tid, shown: Status)
    requires CarriedBy(c, s, t, shown)
    ensures exists step :: Nearer(c, s, step, t, shown)
  {
    if RowFirst(s.sh, PcOf(s, t), shown) {
      RowComesNearer(c, s, t, shown);
    } else if Blocked(s.sh, PcOf(s, LOOP), PcOf(s, t)) {
      BlockedComesNearer(c, s, t, shown);
    } else {
      CarrierComesNearer(c, s, t, shown);
    }
  }

  // A run without a Finish after which the file shows another status than this.
  ghost predicate Reshown(c: Config, s: State, steps: seq<Step>, end: State, shown: Status) {
    IsRun(c, s, steps, end) && Finishless(steps) && end.sh.out.written != [] && ShownStatus(end.sh.out) != shown
  }

  lemma ReshownAfter(c: Config, s: State, step: Step, steps: seq<Step>, end: State, shown: Status)
    requires Enabled(s, step) && !step.SetFinal? && Reshown(c, Apply(c, s, step), steps, end, shown)
    ensures Reshown(c, s, [step] + steps, end, shown)
  {
    var all := [step] + steps;
    assert all[1..] == steps;
    assert forall i :: 0 < i < |all| ==> all[i] == steps[i - 1];
  }

  ghost predicate CanReshow(c: Config, s: State, shown: Status) {
    exists steps, end :: Reshown(c, s, steps, end, shown)
  }

  lemma ReshowsAfter(c: Config, s: State, step: Step, shown: Status)
    requires Enabled(s, step) && !step.SetFinal? && CanReshow(c, Apply(c, s, step), shown)
    ensures CanReshow(c, s, shown)
  {
    var steps, end :| Reshown(c, Apply(c, s, step), steps, end, shown);
    ReshownAfter(c, s, step, steps, end, shown);
  }

  lemma {:induction false} CanBeReshown(c: Config, s: State, t: Tid, shown: Status)
    requires CarriedBy(c, s, t, shown)
    ensures CanReshow(c, s, shown)
    decreases Distance(s, t, shown)
  {
    SomeStepIsNearer(c, s, t, shown);
    var step :| Nearer(c, s, step, t, shown);
    var s' := Apply(c, s, step);
    if ShownStatus(s'.sh.out) != shown {
      assert IsRun(c, s', [], s') && Reshown(c, s', [], s', shown);
    } else {
      CanBeReshown(c, s', t, shown);
    }
    ReshowsAfter(c, s, step, shown);
  }

  // ---------------------------------------------------------------- theorems

  // A terminal status in the file that nobody carries another beside stays there
  // for good.
  lemma ShownStaysForGood(c: Config, s: State, steps: seq<Step>, end: State)
    requires Inv(s) && s.sh.out.written != [] && Terminal(ShownStatus(s.sh.out)) && !MayShow(c, s)
    requires IsRun(c, s, steps, end) && Finishless(steps)
    ensures end.sh.out.written != [] && ShownStatus(end.sh.out) == ShownStatus(s.sh.out)
  {
    if c.hasFile {
      ShownIsTerminal(c, s);
      RunStays(c, s, steps, end, ShownStatus(s.sh.out));
    } else {
      NoFileNoChange(c, s, steps, end);
    }
  }

  // A terminal status in the file can be followed there by another without a
  // Finish if and only if there is a file and some thread carries another, or no
  // Stop has begun and one would.
  lemma ShownCanChangeIff(c: Config, s: State)
    requires Reachable(c, s) && s.sh.out.written != [] && Terminal(ShownStatus(s.sh.out))
    ensures MayShow(c, s) <==> CanReshow(c, s, ShownStatus(s.sh.out))
  {
    ReachableInv(c, s);
    ShownIsTerminal(c, s);
    var shown := ShownStatus(s.sh.out);
    if MayShow(c, s) {
      var t := FreshNat(s.pc.Keys);
      if !StopWould(c, s.sh, shown) { t :| Carries(c, s.sh, PcOf(s, t), shown); }
      CanBeReshown(c, s, t, shown);
    } else {
      forall steps, end ensures !Reshown(c, s, steps, end, shown) {
        if IsRun(c, s, steps, end) && Finishless(steps) { ShownStaysForGood(c, s, steps, end); }
      }
    }
  }

  // ------------------------------------------------------------ it does happen

  predicate PublishingAt(sh: Shared, stage: Stage)
    requires sh.db.row.Row?
  {
    match stage
    case AdoptRead => true
    case AdoptSet(status) => status == Adopted(sh.db.row)
    case Writing(doc) => doc.status == Adopted(sh.db.row)
    case Stamping(_) => false
    case Unlocking(_, _) => false
    case _ => sh.rec.st.status == Adopted(sh.db.row)
  }

  // The loop is on its way to write the status of a row that is over.
  predicate Publishing(c: Config, sh: Shared, loop: Pc) {
    && c.stopWhenRowDone && c.hasRow && c.hasFile && RowOver(sh.db.row) && sh.db.row.Row?
    && sh.sync.once.NotRun? && (sh.sync.writeMu.None? || sh.sync.writeMu == Some(LOOP))
    && match loop
       case AtSelect => true
       case Beating(LoopBeat, stage) => stage.Unlocking? ==> stage.rowDone
       case Beating(LoopAdoptBeat, stage) => PublishingAt(sh, stage)
       case _ => false
  }

  function PublishLeft(loop: Pc): nat {
    match loop
    case AtSelect => 29
    case Beating(LoopBeat, stage) => 22 + Left(stage)
    case Beating(_, AdoptRead) => 22
    case Beating(_, AdoptSet(_)) => 21
    case Beating(_, stage) => Left(stage)
    case _ => 0
  }

  // It is written, and no Stop has begun.
  predicate Written(sh: Shared, db: RowLog) {
    && sh.db == db && db.row.Row? && sh.sync.once.NotRun?
    && sh.out.written != [] && ShownStatus(sh.out) == Adopted(db.row)
  }

  lemma LoopPublishes(c: Config, sh: Shared, loop: Pc)
    requires Control(sh, loop, LOOP, loop) && Publishing(c, sh, loop)
    ensures loop.AtSelect? || Busy(loop)
    ensures var step := NextOfLoop(loop);
      && Can(sh, loop, loop, step) && Mover(step) == LOOP && !Foreign(step)
      && var sh', loop' := NextShared(c, sh, loop, loop, step), NextPc(c, sh, loop, loop, step);
      && sh'.db == sh.db
      && (Written(sh', sh.db) || (Publishing(c, sh', loop') && PublishLeft(loop') < PublishLeft(loop)))
  {
  }

  lemma {:induction false} AdoptedIsPublished(c: Config, s: State)
    requires Reachable(c, s) && Publishing(c, s.sh, PcOf(s, LOOP))
    ensures exists s' :: Reachable(c, s') && Written(s'.sh, s.sh.db)
    decreases PublishLeft(PcOf(s, LOOP))
  {
    ReachableInv(c, s);
    assert Thread(s, LOOP);
    var loop := PcOf(s, LOOP);
    LoopPublishes(c, s.sh, loop);
    ReachesNext(c, s, NextOfLoop(loop));
    var s' := Apply(c, s, NextOfLoop(loop));
    if !Written(s'.sh, s.sh.db) { AdoptedIsPublished(c, s'); }
  }

  // A heartbeat that ends with its row and has a file can show any terminal
  // status in it and then, without a Finish, another one.
  lemma PublishedStatusCanChange(c: Config, phase: string, status: Status)
    requires c.hasRow && c.stopWhenRowDone && c.hasFile && Terminal(status)
    ensures exists s :: Reachable(c, s) && s.sh.out.written != [] && ShownStatus(s.sh.out) == status
                        && CanReshow(c, s, status)
  {
    var s0 := Initial(c, phase, 0, None, Row(Running, false), true);
    assert IsRun(c, s0, [], s0);
    var step := FinalizeRow(status, false);
    ReachesNext(c, s0, step);
    var s1 := Apply(c, s0, step);
    AdoptedIsPublished(c, s1);
    var s :| Reachable(c, s) && Written(s.sh, s1.sh.db);
    ShownCanChangeIff(c, s);
  }

  // The status the file shows can change after the one in memory has settled:
  // Stop has set it and still has to write it.
  lemma SettledInMemoryStillWritten(c: Config, s: State, t: Tid)
    requires Inv(s) && c.hasFile && PcOf(s, t).Beating? && PcOf(s, t).k.StopAdoptBeat? && PcOf(s, t).stage.Writing?
    requires s.sh.out.written != [] && PcOf(s, t).stage.doc.status != ShownStatus(s.sh.out)
    ensures !MayChange(c, s) && MayShow(c, s)
    ensures Reshown(c, s, [WriteFile(t, true)], Apply(c, s, WriteFile(t, true)), ShownStatus(s.sh.out))
  {
    assert Thread(s, t);
    var s' := Apply(c, s, WriteFile(t, true));
    assert [WriteFile(t, true)][1..] == [] && IsRun(c, s', [], s');
    assert Carries(c, s.sh, PcOf(s, t), ShownStatus(s.sh.out));
  }
}
