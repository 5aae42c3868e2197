/**
  What status.json tells of a run, read off the steps of the run alone: the
  findings, requests and phases a document carries, which documents are written,
  which reports have reached the newest one, and where a status comes from.
*/
module HeartbeatTrace {
  import opened Common
  import opened Heartbeat
  import opened HeartbeatProofs

  // What StartHeartbeat is given, and whether its first write goes well.
  datatype Start = Start(phase: string, sent: int, work: Option<int>, row: Row, ok: bool)

  function First(c: Config, b: Start): State {
    Initial(c, b.phase, b.sent, b.work, b.row, b.ok)
  }

  // ------------------------------------------------------- counting the steps

  function Records(): Step -> bool {
    (step: Step) => step.RecordFinding?
  }

  function RecordsAs(severity: string): Step -> bool {
    (step: Step) => step.RecordFinding? && step.severity == severity
  }

  function Front(steps: seq<Step>): seq<Step>
    requires steps != []
  {
    steps[..|steps| - 1]
  }

  // The phase reports, in order; Stop and an adopted status clear the phase.
  function EventOf(step: Step): seq<Event> {
    match step
    case StartPhase(_, phase) => [Started(phase)]
    case EndPhase(_, phase, _) => [Ended(phase)]
    case Adopt(_) => [Cleared]
    case ClearPhase(_) => [Cleared]
    case _ => []
  }

  function Told(b: Start, steps: seq<Step>): seq<Event> {
    if steps == [] then if b.phase == "" then [] else [Started(b.phase)]
    else Told(b, Front(steps)) + EventOf(Last(steps))
  }

  // What ended phases sent through counters that end with them.
  function Extra(steps: seq<Step>): int {
    if steps == [] then 0
    else Extra(Front(steps)) + if Last(steps).EndPhase? then Last(steps).extra else 0
  }

  // What the counters said when they were last read.
  function Sampled(b: Start, steps: seq<Step>): (int, Option<int>) {
    if steps == [] then (b.sent, b.work)
    else if Last(steps).Sample? then (Last(steps).sent, Last(steps).work)
    else Sampled(b, Front(steps))
  }

  // The running phase's progress: the last one snapshotted since it started.
  function Progress(b: Start, steps: seq<Step>): Option<int> {
    if steps == [] then if b.phase == "" then None else b.work
    else
      var front := Front(steps);
      var running, work := PhaseAfter(Told(b, front)), Sampled(b, front).1;
      match Last(steps)
      case Snapshot(_) => if running != "" && work.Some? then work else Progress(b, front)
      case EndPhase(_, phase, _) => if running == phase then None else Progress(b, front)
      case StartPhase(_, _) => None
      case Adopt(_) => None
      case ClearPhase(_) => None
      case _ => Progress(b, front)
  }

  // The findings of the steps, in all and by non-empty severity.
  ghost predicate Counts(d: Doc, steps: seq<Step>) {
    && d.findings == |Filter(steps, Records())|
    && (forall severity :: severity != "" ==> d.bySeverity[severity] == |Filter(steps, RecordsAs(severity))|)
    && d.bySeverity[""] == 0
  }

  // A snapshot taken as the last of these steps.
  ghost predicate Describes(d: Doc, b: Start, steps: seq<Step>) {
    && Counts(d, steps) && d.requests == Sampled(b, steps).0 + Extra(steps) && d.progress == Progress(b, steps)
    && d.at == |Told(b, steps)| && d.phase == PhaseAfter(Told(b, steps)) && d.done == DoneAfter(Told(b, steps))
  }

  // How many steps there are up to the last snapshot, that included.
  function LastSnapshot(steps: seq<Step>): (n: nat)
    ensures n <= |steps| && (n > 0 ==> steps[n - 1].Snapshot?)
  {
    if steps == [] then 0 else if Last(steps).Snapshot? then |steps| else LastSnapshot(Front(steps))
  }

  // For every document on disk, how many steps it takes in: the snapshot before
  // each good write.
  function Cuts(c: Config, b: Start, steps: seq<Step>): (cuts: seq<nat>)
    ensures forall i :: 0 <= i < |cuts| ==> cuts[i] <= |steps|
  {
    if steps == [] then if b.ok && c.hasFile then [0] else []
    else if Last(steps).WriteFile? && Last(steps).ok && c.hasFile then
      Cuts(c, b, Front(steps)) + [LastSnapshot(Front(steps))]
    else Cuts(c, b, Front(steps))
  }

  // The last write, the first beat's included, put no document on disk.
  predicate LastWriteFailed(c: Config, b: Start, steps: seq<Step>) {
    if steps == [] then !(b.ok && c.hasFile)
    else if Last(steps).WriteFile? then !(Last(steps).ok && c.hasFile)
    else LastWriteFailed(c, b, Front(steps))
  }

  // A poke nobody has taken yet.
  predicate Kicked(steps: seq<Step>) {
    steps != [] && (Last(steps).Poke? || (!Last(steps).RecvKick? && Kicked(Front(steps))))
  }

  // ------------------------------------------------------------ the invariant

  // The phase fields tell the whole log.
  predicate Followed(r: Record) {
    r.st.phase == PhaseAfter(r.log) && r.st.done == DoneAfter(r.log) && r.st.at == |r.log|
  }

  ghost predicate Recorded(r: Record, b: Start, steps: seq<Step>) {
    && Counts(r.st, steps) && r.extraSent == Extra(steps) && r.log == Told(b, steps)
    && r.st.progress == Progress(b, steps) && Followed(r)
  }

  // What a thread carries through its beat.
  ghost predicate Carried(pc: Pc, b: Start, steps: seq<Step>) {
    pc.Beating? ==>
      && (pc.stage.Snapping? ==> (pc.stage.sent, pc.stage.work) == Sampled(b, steps))
      && (pc.stage.Writing? ==> Describes(pc.stage.doc, b, steps[..LastSnapshot(steps)]))
  }

  ghost predicate OnDisk(c: Config, written: seq<Doc>, b: Start, steps: seq<Step>) {
    var cuts := Cuts(c, b, steps);
    |written| == |cuts| && forall i :: 0 <= i < |cuts| ==> Describes(written[i], b, steps[..cuts[i]])
  }

  ghost predicate Traced(c: Config, b: Start, steps: seq<Step>, s: State) {
    && Inv(s) && Recorded(s.sh.rec, b, steps) && OnDisk(c, s.sh.out.written, b, steps)
    && s.sh.out.failed == LastWriteFailed(c, b, steps) && s.sh.sync.kick == Kicked(steps)
    && forall t: Tid {:trigger PcOf(s, t)} :: Carried(PcOf(s, t), b, steps)
  }

  lemma OneMore(steps: seq<Step>, step: Step)
    ensures Front(steps + [step]) == steps && Last(steps + [step]) == step
  {
  }

  lemma CountsOneMore(d: Doc, steps: seq<Step>, step: Step)
    requires Counts(d, steps)
    ensures Counts(if step.RecordFinding? then Counted(d, step.severity) else d, steps + [step])
  {
    FilterSnoc(steps, step, Records());
    forall severity | severity != ""
      ensures |Filter(steps + [step], RecordsAs(severity))| ==
        |Filter(steps, RecordsAs(severity))| + if RecordsAs(severity)(step) then 1 else 0
    {
      FilterSnoc(steps, step, RecordsAs(severity));
    }
  }

  lemma NoteFollows(r: Record, e: Event)
    requires Followed(r)
    ensures Followed(Note(r, e)) && Note(r, e).log == r.log + [e]
  {
    var log := r.log + [e];
    assert log[..|log| - 1] == r.log;
  }

  lemma ToldOneMore(b: Start, steps: seq<Step>, step: Step)
    ensures Told(b, steps + [step]) == Told(b, steps) + EventOf(step)
  {
    OneMore(steps, step);
  }

  // The record with the phase fields and the log of another.
  predicate SameReports(r: Record, r': Record) {
    r'.log == r.log && r'.st.phase == r.st.phase && r'.st.done == r.st.done && r'.st.at == r.st.at
  }

  // The record a step's event, if it has one, is noted on.
  function NotedOn(r: Record, pc: Pc, step: Step): Record {
    match step
    case EndPhase(_, _, extra) => r.(extraSent := r.extraSent + extra)
    case Adopt(_) =>
      if pc.Beating? && pc.stage.AdoptSet? then r.(st := r.st.(status := pc.stage.status)) else r
    case _ => r
  }

  lemma EventsAreNoted(sh: Shared, pc: Pc, loop: Pc, step: Step)
    requires Can(sh, pc, loop, step)
    ensures SameReports(sh.rec, NotedOn(sh.rec, pc, step))
    ensures EventOf(step) == [] ==> SameReports(sh.rec, NextRecord(sh, pc, loop, step))
    ensures EventOf(step) != [] ==>
      EventOf(step) == [EventOf(step)[0]] &&
        NextRecord(sh, pc, loop, step) == Note(NotedOn(sh.rec, pc, step), EventOf(step)[0])
  {
  }

  // What the reports of phases leave in the record.
  lemma ReportsFollowSteps(sh: Shared, pc: Pc, loop: Pc, step: Step, b: Start, steps: seq<Step>)
    requires Can(sh, pc, loop, step) && sh.rec.log == Told(b, steps) && Followed(sh.rec)
    ensures NextRecord(sh, pc, loop, step).log == Told(b, steps + [step]) && Followed(NextRecord(sh, pc, loop, step))
  {
    ToldOneMore(b, steps, step);
    EventsAreNoted(sh, pc, loop, step);
    if EventOf(step) != [] {
      NoteFollows(NotedOn(sh.rec, pc, step), EventOf(step)[0]);
    }
  }

  lemma CountersFollowSteps(sh: Shared, pc: Pc, loop: Pc, step: Step, b: Start, steps: seq<Step>)
    requires Can(sh, pc, loop, step) && Recorded(sh.rec, b, steps) && Carried(pc, b, steps)
    ensures var r' := NextRecord(sh, pc, loop, step);
      Counts(r'.st, steps + [step]) && r'.extraSent == Extra(steps + [step]) &&
        r'.st.progress == Progress(b, steps + [step])
  {
    OneMore(steps, step);
    CountsOneMore(sh.rec.st, steps, step);
  }

  lemma RecordFollowsSteps(sh: Shared, pc: Pc, loop: Pc, step: Step, b: Start, steps: seq<Step>)
    requires Can(sh, pc, loop, step) && Recorded(sh.rec, b, steps) && Carried(pc, b, steps)
    ensures Recorded(NextRecord(sh, pc, loop, step), b, steps + [step])
  {
    ReportsFollowSteps(sh, pc, loop, step, b, steps);
    CountersFollowSteps(sh, pc, loop, step, b, steps);
  }

  lemma SnapshotDescribes(sh: Shared, pc: Pc, loop: Pc, t: Tid, b: Start, steps: seq<Step>)
    requires Can(sh, pc, loop, Snapshot(t)) && Recorded(sh.rec, b, steps) && Carried(pc, b, steps)
    ensures Describes(Refreshed(sh.rec, pc.stage.sent, pc.stage.work), b, steps + [Snapshot(t)])
  {
    OneMore(steps, Snapshot(t));
    RecordFollowsSteps(sh, pc, loop, Snapshot(t), b, steps);
  }

  // A step that reads no counters and takes no snapshot changes nothing carried.
  lemma StillCarries(pc: Pc, step: Step, b: Start, steps: seq<Step>)
    requires Carried(pc, b, steps) && !step.Sample? && !step.Snapshot?
    ensures Carried(pc, b, steps + [step])
  {
    OneMore(steps, step);
    var n := LastSnapshot(steps);
    assert (steps + [step])[..n] == steps[..n];
  }

  lemma MoverCarries(c: Config, sh: Shared, pc: Pc, loop: Pc, step: Step, b: Start, steps: seq<Step>)
    requires Can(sh, pc, loop, step) && Recorded(sh.rec, b, steps) && Carried(pc, b, steps)
    ensures Carried(NextPc(c, sh, pc, loop, step), b, steps + [step])
  {
    OneMore(steps, step);
    if step.Snapshot? {
      SnapshotDescribes(sh, pc, loop, step.t, b, steps);
      var all := steps + [step];
      assert all[..LastSnapshot(all)] == all;
    } else if Foreign(step) {
      StillCarries(pc, step, b, steps);
    }
  }

  // Only the holder of the write lock reads the counters or takes a snapshot.
  lemma OtherCarries(sh: Shared, pc: Pc, loop: Pc, step: Step, u: Tid, other: Pc, b: Start, steps: seq<Step>)
    requires Can(sh, pc, loop, step) && Owns(sh.sync, Mover(step), pc) && Owns(sh.sync, u, other) && u != Mover(step)
    requires Carried(other, b, steps)
    ensures Carried(other, b, steps + [step])
  {
    if HoldsLock(other) { StillCarries(other, step, b, steps); }
  }

  lemma OutputFollowsSteps(c: Config, sh: Shared, pc: Pc, loop: Pc, step: Step, b: Start, steps: seq<Step>)
    requires Can(sh, pc, loop, step) && Carried(pc, b, steps)
    requires OnDisk(c, sh.out.written, b, steps) && sh.out.failed == LastWriteFailed(c, b, steps)
    ensures var o' := NextOutput(c, sh, pc, loop, step);
      OnDisk(c, o'.written, b, steps + [step]) && o'.failed == LastWriteFailed(c, b, steps + [step])
  {
    OneMore(steps, step);
    var all := steps + [step];
    var o', cuts := NextOutput(c, sh, pc, loop, step), Cuts(c, b, all);
    forall i | 0 <= i < |cuts| ensures Describes(o'.written[i], b, all[..cuts[i]]) {
      assert all[..cuts[i]] == steps[..cuts[i]];
    }
  }

  lemma KickFollowsSteps(c: Config, sh: Shared, pc: Pc, loop: Pc, step: Step, steps: seq<Step>)
    requires Can(sh, pc, loop, step) && sh.sync.kick == Kicked(steps)
    ensures NextSync(c, sh, pc, loop, step).kick == Kicked(steps + [step])
  {
    OneMore(steps, step);
  }

  lemma ThreadsCarry(c: Config, b: Start, steps: seq<Step>, s: State, step: Step, u: Tid)
    requires Traced(c, b, steps, s) && Enabled(s, step)
    ensures Carried(PcOf(Apply(c, s, step), u), b, steps + [step])
  {
    StepIsTaken(c, s, step);
    var pc, loop := PcOf(s, Mover(step)), PcOf(s, LOOP);
    if u == Mover(step) {
      MoverCarries(c, s.sh, pc, loop, step, b, steps);
    } else {
      assert Thread(s, u);
      OtherCarries(s.sh, pc, loop, step, u, PcOf(s, u), b, steps);
    }
  }

  lemma StepIsTraced(c: Config, b: Start, steps: seq<Step>, s: State, step: Step)
    requires Traced(c, b, steps, s) && Enabled(s, step)
    ensures Traced(c, b, steps + [step], Apply(c, s, step))
  {
    StepKeepsInv(c, s, step);
    var pc, loop := PcOf(s, Mover(step)), PcOf(s, LOOP);
    RecordFollowsSteps(s.sh, pc, loop, step, b, steps);
    OutputFollowsSteps(c, s.sh, pc, loop, step, b, steps);
    KickFollowsSteps(c, s.sh, pc, loop, step, steps);
    forall u: Tid ensures Carried(PcOf(Apply(c, s, step), u), b, steps + [step]) {
      ThreadsCarry(c, b, steps, s, step, u);
    }
  }

  lemma FirstIsTraced(c: Config, b: Start)
    ensures Traced(c, b, [], First(c, b))
  {
    InitialInv(c, First(c, b));
  }

  lemma Slices(steps: seq<Step>, k: nat)
    requires k < |steps|
    ensures steps[..k + 1] == steps[..k] + [steps[k]] && steps[k..][0] == steps[k] && steps[k..][1..] == steps[k + 1..]
  {
  }

  lemma {:induction false} RestIsTraced(c: Config, b: Start, steps: seq<Step>, k: nat, s: State, end: State)
    requires k <= |steps| && Traced(c, b, steps[..k], s) && IsRun(c, s, steps[k..], end)
    ensures Traced(c, b, steps, end)
    decreases |steps| - k
  {
    if k == |steps| {
      assert steps[..k] == steps;
    } else {
      Slices(steps, k);
      StepIsTraced(c, b, steps[..k], s, steps[k]);
      RestIsTraced(c, b, steps, k + 1, Apply(c, s, steps[k]), end);
    }
  }

  lemma RunIsTraced(c: Config, b: Start, steps: seq<Step>, end: State)
    requires IsRun(c, First(c, b), steps, end)
    ensures Traced(c, b, steps, end)
  {
    FirstIsTraced(c, b);
    assert steps[..0] == [] && steps[0..] == steps;
    RestIsTraced(c, b, steps, 0, First(c, b), end);
  }

  // ---------------------------------------------------------------- theorems

  // In every run the record counts each RecordFinding step once, in all and
  // under its severity, and has heard the reports in order.
  lemma FindingsAreCounted(c: Config, b: Start, steps: seq<Step>, end: State)
    requires IsRun(c, First(c, b), steps, end)
    ensures end.sh.rec.st.findings == |Filter(steps, Records())|
    ensures forall severity :: severity != "" ==>
      end.sh.rec.st.bySeverity[severity] == |Filter(steps, RecordsAs(severity))|
    ensures end.sh.rec.st.bySeverity[""] == 0 && end.sh.rec.log == Told(b, steps)
  {
    RunIsTraced(c, b, steps, end);
  }

  // There is one document for each good write, and it tells exactly the steps
  // up to the last snapshot before that write.
  lemma DocumentsDescribeTheRun(c: Config, b: Start, steps: seq<Step>, end: State)
    requires IsRun(c, First(c, b), steps, end)
    ensures |end.sh.out.written| == |Cuts(c, b, steps)|
    ensures forall i :: 0 <= i < |end.sh.out.written| ==>
      Describes(end.sh.out.written[i], b, steps[..Cuts(c, b, steps)[i]])
  {
    RunIsTraced(c, b, steps, end);
  }
}
