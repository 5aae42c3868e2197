/**
  The liveness heartbeat of a running scan, as a transition system.

  One goroutine (thread LOOP) beats on a ticker and on a one-slot wake-up
  channel; any number of other threads report phases and findings, stop the
  heartbeat or finish it; someone else finalizes the scan row, as often as it
  likes, or deletes it. Every section the source runs under `mu` is one step,
  and so is every channel operation, every acquisition of `writeMu` and every
  write, so a run interleaves exactly where the source's goroutines can.
*/
module Heartbeat {
  import opened Common

  type Tid = nat

  // The goroutine StartHeartbeat launches; every other thread is a caller.
  const LOOP: Tid := 0

  datatype Status = Running | Completed | Failed | Cancelled

  predicate Terminal(status: Status) { status != Running }

  // What the phase fields of the document have been told, in order.
  datatype Event = Started(phase: string) | Ended(phase: string) | Cleared

  // One status.json document. `at` (how much of the event log it reflects) and
  // `finals` (how many Finish calls had set the status) are bookkeeping.
  datatype Doc = Doc(status: Status, phase: string, done: seq<string>,
                     findings: nat, bySeverity: multiset<string>,
                     requests: int, progress: Option<int>,
                     at: nat, finals: nat)

  // The scan row the heartbeat stamps, as far as the protocol reads it.
  datatype Row = Missing | Row(status: Status, saysCancelled: bool)

  datatype Config = Config(hasRow: bool, hasFile: bool, stopWhenRowDone: bool)

  // ------------------------------------------------------------- the threads

  // What a caller does once its Stop returns.
  datatype After = Return | ThenFinish(status: Status)

  // Which call of beat a thread is making, and for whom.
  datatype Beat =
    | LoopBeat | LoopAdoptBeat
    | StopBeat(after: After) | StopAdoptBeat(after: After, wrote: bool)
    | FinishBeat(status: Status, ticket: nat)

  // How far into beat, or into the adoption that repeats it, the thread is.
  // (The `wrote` of a beat or a stage says whether the document reached disk.)
  datatype Stage =
    | WantLock
    | Sampling
    | Snapping(sent: int, work: Option<int>)
    | Writing(doc: Doc)
    | Stamping(wrote: bool)
    | Unlocking(rowDone: bool, wrote: bool)
    | AdoptRead
    | AdoptSet(status: Status)

  datatype Pc =
    | Idle
    | AtSelect
    | LoopExited
    | Poking(seen: nat)
    | Beating(k: Beat, stage: Stage)
    | StopOnce(after: After)
    | StopWait(after: After)
    | StopClear(after: After)
    | FinishSet(status: Status)
    | Finished(status: Status, ticket: nat, wrote: bool)

  // -------------------------------------------------------- the shared state

  // What mu guards, with its history: the events so far and the statuses
  // Finish set.
  datatype Record = Record(st: Doc, extraSent: int, log: seq<Event>, finishes: seq<Status>)

  // Stop's once; when done, whether the Stop that ran it put a document on disk.
  datatype Once = NotRun | InProgress(owner: Tid) | Done(wrote: bool)

  datatype Sync = Sync(kick: bool, stopClosed: bool, once: Once, writeMu: Option<Tid>)

  // status.json so far: every document written, whether the last write failed,
  // how much of the log the newest snapshot reflects, how much of it some
  // completed poke has asked for, and how long it was when Stop cleared the
  // phase.
  datatype Output = Output(written: seq<Doc>, failed: bool, snapped: nat, poked: nat, stopped: nat)

  // The scan row now, and every terminal status it has carried.
  datatype RowLog = RowLog(row: Row, told: set<Status>)

  datatype Shared = Shared(rec: Record, sync: Sync, out: Output, db: RowLog)

  datatype State = State(sh: Shared, pc: map<Tid, Pc>)

  function PcOf(s: State, t: Tid): Pc {
    if t in s.pc then s.pc[t] else Idle
  }

  // --------------------------------------------------------------- the steps

  datatype Step =
    | Tick | RecvKick | RecvStop
    | StartPhase(t: Tid, phase: string)
    | EndPhase(t: Tid, phase: string, extra: int)
    | RecordFinding(t: Tid, severity: string)
    | CallStop(t: Tid)
    | CallFinish(t: Tid, status: Status)
    | Poke(t: Tid)
    | Lock(t: Tid)
    | Sample(t: Tid, sent: int, work: Option<int>)
    | Snapshot(t: Tid)
    | WriteFile(t: Tid, ok: bool)
    | StampRow(t: Tid, ok: bool)
    | Unlock(t: Tid)
    | ReadRow(t: Tid, ok: bool)
    | Adopt(t: Tid)
    | EnterOnce(t: Tid)
    | AwaitDone(t: Tid)
    | ClearPhase(t: Tid)
    | SetFinal(t: Tid)
    | FinalizeRow(status: Status, saysCancelled: bool)
    | DeleteRow

  // The row belongs to someone else.
  predicate Foreign(step: Step) { step.FinalizeRow? || step.DeleteRow? }

  // The one thread whose code a step advances (a foreign step advances none).
  function Mover(step: Step): Tid {
    if step.Tick? || step.RecvKick? || step.RecvStop? || Foreign(step) then LOOP else step.t
  }

  // One more event; the phase fields follow it.
  function Note(r: Record, e: Event): Record {
    var st := match e
      case Started(p) => r.st.(phase := p, progress := None)
      case Ended(p) =>
        if r.st.phase == p then r.st.(done := r.st.done + [p], phase := "", progress := None)
        else r.st.(done := r.st.done + [p])
      case Cleared => r.st.(phase := "", progress := None);
    r.(st := st.(at := |r.log| + 1), log := r.log + [e])
  }

  function Counted(d: Doc, severity: string): Doc {
    var d' := d.(findings := d.findings + 1);
    if severity == "" then d' else d'.(bySeverity := d.bySeverity + multiset{severity})
  }

  // snapshot: refresh the live counters and copy the document.
  function Refreshed(r: Record, sent: int, work: Option<int>): Doc {
    var d := r.st.(requests := sent + r.extraSent);
    if d.phase != "" && work.Some? then d.(progress := work) else d
  }

  predicate FileOnly(k: Beat) {
    k.LoopAdoptBeat? || k.StopAdoptBeat? || k.FinishBeat?
  }

  // Only a row still running is stamped; a stamp that fails reports nothing.
  predicate SeesRowDone(c: Config, k: Beat, row: Row, ok: bool) {
    !FileOnly(k) && c.hasRow && ok && !(row.Row? && row.status == Running)
  }

  // The row's terminal status as status.json spells it.
  function Adopted(row: Row): Status
    requires row.Row?
  {
    if row.status == Failed && row.saysCancelled then Cancelled else row.status
  }

  function AfterStop(after: After): Pc {
    if after.Return? then Idle else FinishSet(after.status)
  }

  // Whether a beat that is over is followed by the adoption of the row's status.
  predicate WillAdopt(c: Config, k: Beat, rowDone: bool) {
    rowDone && c.stopWhenRowDone && (k.LoopBeat? || k.StopBeat?)
  }

  function AfterBeat(k: Beat, wrote: bool): Pc {
    match k
    case LoopBeat => AtSelect
    case LoopAdoptBeat => LoopExited
    case StopBeat(after) => AfterStop(after)
    case StopAdoptBeat(after, _) => AfterStop(after)
    case FinishBeat(status, ticket) => Finished(status, ticket, wrote)
  }

  function Adopting(k: Beat, wrote: bool): Beat {
    match k
    case LoopBeat => LoopAdoptBeat
    case StopBeat(after) => StopAdoptBeat(after, wrote)
    case _ => k
  }

  // The once when a thread's beat is over: Stop's beats end its body.
  function OnceAfter(once: Once, k: Beat, wrote: bool): Once {
    match k
    case StopBeat(_) => Done(wrote)
    case StopAdoptBeat(_, before) => Done(before || wrote)
    case _ => once
  }

  predicate Can(sh: Shared, pc: Pc, loop: Pc, step: Step) {
    match step
    case Tick => pc.AtSelect?
    case RecvKick => pc.AtSelect? && sh.sync.kick
    case RecvStop => pc.AtSelect? && sh.sync.stopClosed
    case StartPhase(t, _) => t != LOOP && (pc.Idle? || pc.Finished?)
    case EndPhase(t, _, _) => t != LOOP && (pc.Idle? || pc.Finished?)
    case RecordFinding(t, _) => t != LOOP && (pc.Idle? || pc.Finished?)
    case CallStop(t) => t != LOOP && (pc.Idle? || pc.Finished?)
    case CallFinish(t, status) => t != LOOP && (pc.Idle? || pc.Finished?) && Terminal(status)
    case Poke(_) => pc.Poking?
    case Lock(_) => pc.Beating? && pc.stage.WantLock? && sh.sync.writeMu.None?
    case Sample(_, _, _) => pc.Beating? && pc.stage.Sampling?
    case Snapshot(_) => pc.Beating? && pc.stage.Snapping?
    case WriteFile(_, _) => pc.Beating? && pc.stage.Writing?
    case StampRow(_, _) => pc.Beating? && pc.stage.Stamping?
    case Unlock(_) => pc.Beating? && pc.stage.Unlocking?
    case ReadRow(_, _) => pc.Beating? && pc.stage.AdoptRead?
    case Adopt(_) => pc.Beating? && pc.stage.AdoptSet?
    case EnterOnce(_) => pc.StopOnce? && !sh.sync.once.InProgress?
    case AwaitDone(_) => pc.StopWait? && loop.LoopExited?
    case ClearPhase(_) => pc.StopClear?
    case SetFinal(_) => pc.FinishSet?
    case FinalizeRow(status, _) => sh.db.row.Row? && Terminal(status)
    case DeleteRow => sh.db.row.Row?
  }

  // Where the step leaves its thread.
  function NextPc(c: Config, sh: Shared, pc: Pc, loop: Pc, step: Step): Pc
    requires Can(sh, pc, loop, step)
  {
    match step
    case Tick => Beating(LoopBeat, WantLock)
    case RecvKick => Beating(LoopBeat, WantLock)
    case RecvStop => LoopExited
    case StartPhase(_, _) => Poking(|sh.rec.log| + 1)
    case EndPhase(_, _, _) => Poking(|sh.rec.log| + 1)
    case RecordFinding(_, _) => Idle
    case CallStop(_) => StopOnce(Return)
    case CallFinish(_, status) => StopOnce(ThenFinish(status))
    case Poke(_) => Idle
    case Lock(_) => pc.(stage := Sampling)
    case Sample(_, sent, work) => pc.(stage := Snapping(sent, work))
    case Snapshot(_) => pc.(stage := Writing(Refreshed(sh.rec, pc.stage.sent, pc.stage.work)))
    case WriteFile(_, ok) => pc.(stage := Stamping(ok && c.hasFile))
    case StampRow(_, ok) => pc.(stage := Unlocking(SeesRowDone(c, pc.k, sh.db.row, ok), pc.stage.wrote))
    case Unlock(_) =>
      if WillAdopt(c, pc.k, pc.stage.rowDone) then Beating(Adopting(pc.k, pc.stage.wrote), AdoptRead)
      else AfterBeat(pc.k, pc.stage.wrote)
    case ReadRow(_, ok) =>
      if ok && sh.db.row.Row? then pc.(stage := AdoptSet(Adopted(sh.db.row))) else AfterBeat(pc.k, false)
    case Adopt(_) => pc.(stage := WantLock)
    case EnterOnce(_) => if sh.sync.once.Done? then AfterStop(pc.after) else StopWait(pc.after)
    case AwaitDone(_) => StopClear(pc.after)
    case ClearPhase(_) => Beating(StopBeat(pc.after), WantLock)
    case SetFinal(_) => Beating(FinishBeat(pc.status, |sh.rec.finishes| + 1), WantLock)
    case FinalizeRow(_, _) => pc
    case DeleteRow => pc
  }

  function NextRecord(sh: Shared, pc: Pc, loop: Pc, step: Step): Record
    requires Can(sh, pc, loop, step)
  {
    var r := sh.rec;
    match step
    case StartPhase(_, p) => Note(r, Started(p))
    case EndPhase(_, p, extra) => Note(r.(extraSent := r.extraSent + extra), Ended(p))
    case RecordFinding(_, severity) => r.(st := Counted(r.st, severity))
    case Snapshot(_) => r.(st := Refreshed(r, pc.stage.sent, pc.stage.work))
    case Adopt(_) => Note(r.(st := r.st.(status := pc.stage.status)), Cleared)
    case ClearPhase(_) => Note(r, Cleared)
    case SetFinal(_) =>
      Record(r.st.(status := pc.status, finals := |r.finishes| + 1), r.extraSent, r.log, r.finishes + [pc.status])
    case _ => r
  }

  function NextSync(c: Config, sh: Shared, pc: Pc, loop: Pc, step: Step): Sync
    requires Can(sh, pc, loop, step)
  {
    var y := sh.sync;
    match step
    case RecvKick => y.(kick := false)
    case Poke(_) => y.(kick := true)
    case Lock(t) => y.(writeMu := Some(t))
    case Unlock(_) =>
      if WillAdopt(c, pc.k, pc.stage.rowDone) then y.(writeMu := None)
      else y.(writeMu := None, once := OnceAfter(y.once, pc.k, pc.stage.wrote))
    case ReadRow(_, ok) => if ok && sh.db.row.Row? then y else y.(once := OnceAfter(y.once, pc.k, false))
    case EnterOnce(t) => if y.once.Done? then y else y.(once := InProgress(t), stopClosed := true)
    case _ => y
  }

  function NextOutput(c: Config, sh: Shared, pc: Pc, loop: Pc, step: Step): Output
    requires Can(sh, pc, loop, step)
  {
    var o := sh.out;
    match step
    case Poke(_) => if pc.seen > o.poked then o.(poked := pc.seen) else o
    case Snapshot(_) => o.(snapped := |sh.rec.log|)
    case WriteFile(_, ok) =>
      if ok && c.hasFile then o.(written := o.written + [pc.stage.doc], failed := false) else o.(failed := true)
    case ClearPhase(_) => o.(stopped := |sh.rec.log| + 1)
    case _ => o
  }

  function NextRow(db: RowLog, step: Step): RowLog {
    match step
    case FinalizeRow(status, saysCancelled) =>
      var row := Row(status, saysCancelled);
      RowLog(row, db.told + {Adopted(row)})
    case DeleteRow => db.(row := Missing)
    case _ => db
  }

  function NextShared(c: Config, sh: Shared, pc: Pc, loop: Pc, step: Step): Shared
    requires Can(sh, pc, loop, step)
  {
    Shared(NextRecord(sh, pc, loop, step), NextSync(c, sh, pc, loop, step), NextOutput(c, sh, pc, loop, step),
           NextRow(sh.db, step))
  }

  predicate Enabled(s: State, step: Step) {
    Can(s.sh, PcOf(s, Mover(step)), PcOf(s, LOOP), step)
  }

  function Apply(c: Config, s: State, step: Step): State
    requires Enabled(s, step)
  {
    var t, loop := Mover(step), PcOf(s, LOOP);
    State(NextShared(c, s.sh, PcOf(s, t), loop, step), s.pc[t := NextPc(c, s.sh, PcOf(s, t), loop, step)])
  }

  // ---------------------------------------------------------------- the runs

  // StartHeartbeat: the first beat runs before the goroutine exists, then the
  // loop waits at its select.
  function Initial(c: Config, phase: string, sent: int, work: Option<int>, row: Row, ok: bool): State {
    var log := if phase == "" then [] else [Started(phase)];
    var d := Doc(Running, phase, [], 0, multiset{}, sent, if phase == "" then None else work, |log|, 0);
    var wrote := ok && c.hasFile;
    State(Shared(Record(d, 0, log, []), Sync(false, false, NotRun, None),
                 Output(if wrote then [d] else [], !wrote, |log|, 0, 0),
                 RowLog(row, if row.Row? && Terminal(row.status) then {Adopted(row)} else {})),
          map[LOOP := AtSelect])
  }

  ghost predicate IsInitial(c: Config, s: State) {
    exists phase, sent, work, row, ok :: s == Initial(c, phase, sent, work, row, ok)
  }

  // Every step enabled where it is taken.
  ghost predicate IsRun(c: Config, s: State, steps: seq<Step>, end: State)
    decreases |steps|
  {
    if steps == [] then end == s
    else Enabled(s, steps[0]) && IsRun(c, Apply(c, s, steps[0]), steps[1..], end)
  }

  ghost predicate Reachable(c: Config, s: State) {
    exists s0, steps :: IsInitial(c, s0) && IsRun(c, s0, steps, s)
  }
}
