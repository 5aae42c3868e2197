/**
  What every run of the heartbeat keeps, and what a reader of status.json may
  conclude from it: no wake-up is lost, documents are published in order, a
  terminal status is never taken back, and Finish has the last word.
*/
module HeartbeatProofs {
  import opened Common
  import opened Heartbeat

  // ------------------------------------------------------- replaying the log

  // The phase the events leave running, "" for none.
  function PhaseAfter(log: seq<Event>): string {
    if log == [] then ""
    else
      var before := PhaseAfter(log[..|log| - 1]);
      match log[|log| - 1]
      case Started(p) => p
      case Ended(p) => if before == p then "" else before
      case Cleared => ""
  }

  // The phases the events report as done, in order.
  function DoneAfter(log: seq<Event>): seq<string> {
    if log == [] then []
    else
      var before := DoneAfter(log[..|log| - 1]);
      match log[|log| - 1]
      case Ended(p) => before + [p]
      case _ => before
  }

  // A document that tells exactly the first `at` events.
  ghost predicate Replays(d: Doc, log: seq<Event>) {
    d.at <= |log| && d.phase == PhaseAfter(log[..d.at]) && d.done == DoneAfter(log[..d.at])
  }

  // ------------------------------------------------------------ order of docs

  // b may follow a in status.json.
  predicate NotBefore(a: Doc, b: Doc) {
    && a.done <= b.done && a.findings <= b.findings && a.bySeverity <= b.bySeverity
    && a.at <= b.at && a.finals <= b.finals
    && (Terminal(a.status) ==> Terminal(b.status))
  }

  function Last<T>(s: seq<T>): T
    requires s != []
  {
    s[|s| - 1]
  }

  // ------------------------------------------------------------ the invariant

  predicate HoldsLock(pc: Pc) {
    pc.Beating? && !pc.stage.WantLock? && !pc.stage.AdoptRead? && !pc.stage.AdoptSet?
  }

  predicate LoopBeats(k: Beat) { k.LoopBeat? || k.LoopAdoptBeat? }

  predicate StopBeats(k: Beat) { k.StopBeat? || k.StopAdoptBeat? }

  predicate Adopts(k: Beat) { k.LoopAdoptBeat? || k.StopAdoptBeat? }

  // Where thread t's own code can be.
  predicate InRole(t: Tid, pc: Pc) {
    && (pc.Beating? && (pc.stage.AdoptRead? || pc.stage.AdoptSet?) ==> Adopts(pc.k))
    && if t == LOOP then pc.AtSelect? || pc.LoopExited? || (pc.Beating? && LoopBeats(pc.k))
       else !pc.AtSelect? && !pc.LoopExited? && (pc.Beating? ==> !LoopBeats(pc.k))
  }

  // The thread that runs the body of Stop's once.
  predicate Stopping(pc: Pc) {
    pc.StopWait? || pc.StopClear? || (pc.Beating? && StopBeats(pc.k))
  }

  predicate Finishing(pc: Pc) {
    pc.FinishSet? || pc.Finished? || (pc.Beating? && pc.k.FinishBeat?)
  }

  // A Stop on behalf of Finish goes on to set a terminal status.
  predicate EndsTerminal(after: After) {
    after.ThenFinish? ==> Terminal(after.status)
  }

  predicate Plans(pc: Pc) {
    match pc
    case StopOnce(after) => EndsTerminal(after)
    case StopWait(after) => EndsTerminal(after)
    case StopClear(after) => EndsTerminal(after)
    case FinishSet(status) => Terminal(status)
    case Beating(k, stage) =>
      StopBeats(k) ==> EndsTerminal(k.after)
    case _ => true
  }

  predicate RowOver(row: Row) { row.Missing? || Terminal(row.status) }

  predicate KnowsRowOver(pc: Pc) {
    pc.Beating? && (pc.stage.AdoptRead? || (pc.stage.Unlocking? && pc.stage.rowDone))
  }

  // The history of the row: it keeps a terminal row's status and only such.
  predicate RowHistory(db: RowLog) {
    && (db.row.Row? && Terminal(db.row.status) ==> Adopted(db.row) in db.told)
    && Running !in db.told && (db.told != {} ==> RowOver(db.row))
  }

  // The write lock and the once know which thread has them.
  predicate Owns(sync: Sync, t: Tid, pc: Pc) {
    (HoldsLock(pc) <==> sync.writeMu == Some(t)) && (Stopping(pc) <==> sync.once == InProgress(t))
  }

  // What the thread has seen still holds.
  predicate Seen(sh: Shared, loop: Pc, pc: Pc) {
    && (Finishing(pc) ==> sh.sync.once.Done?)
    && (Stopping(pc) && !pc.StopWait? ==> loop.LoopExited?)
    && (KnowsRowOver(pc) ==> RowOver(sh.db.row))
    && (pc.Beating? && pc.stage.AdoptSet? ==> pc.stage.status in sh.db.told)
    && (pc.Poking? ==> pc.seen <= |sh.rec.log|)
  }

  // Where a thread may be, given the shared state and the loop.
  predicate Control(sh: Shared, loop: Pc, t: Tid, pc: Pc) {
    InRole(t, pc) && Plans(pc) && Owns(sh.sync, t, pc) && Seen(sh, loop, pc)
  }

  // A terminal status no Finish set is one the row once carried.
  predicate Justified(d: Doc, told: set<Status>) {
    d.finals == 0 && Terminal(d.status) ==> d.status in told
  }

  // A document's status is the one the last Finish it reflects set.
  predicate Faithful(d: Doc, finishes: seq<Status>) {
    d.finals <= |finishes| && (d.finals > 0 ==> d.status == finishes[d.finals - 1])
  }

  predicate IsTicket(r: Record, ticket: nat, status: Status) {
    1 <= ticket <= |r.finishes| && r.finishes[ticket - 1] == status
  }

  // The newest document reflects the ticket-th Finish.
  predicate Shown(o: Output, ticket: nat) {
    o.written != [] && Last(o.written).finals >= ticket
  }

  // The newest document reflects at least the first n events.
  predicate Reflects(o: Output, n: nat) {
    o.written != [] && Last(o.written).at >= n
  }

  // A document between its snapshot and its write.
  ghost predicate Pending(sh: Shared, k: Beat, doc: Doc) {
    && Replays(doc, sh.rec.log) && Faithful(doc, sh.rec.finishes) && Justified(doc, sh.db.told)
    && NotBefore(doc, sh.rec.st)
    && doc.at == sh.out.snapped && (k.FinishBeat? ==> doc.finals >= k.ticket)
    && (StopBeats(k) ==> doc.at >= sh.out.stopped)
    && (sh.out.written != [] ==> NotBefore(Last(sh.out.written), doc))
  }

  // What the document shows once it is written.
  predicate Shows(o: Output, k: Beat) {
    && (k.FinishBeat? ==> Shown(o, k.ticket))
    && (StopBeats(k) ==> Reflects(o, o.stopped))
  }

  // What a thread holds while it beats.
  ghost predicate Held(sh: Shared, k: Beat, stage: Stage) {
    && (k.FinishBeat? ==> IsTicket(sh.rec, k.ticket, k.status))
    && (k.StopAdoptBeat? && k.wrote ==> Reflects(sh.out, sh.out.stopped))
    && (stage.Writing? ==> Pending(sh, k, stage.doc))
    && ((stage.Stamping? || stage.Unlocking?) && stage.wrote ==> Shows(sh.out, k))
  }

  ghost predicate Holds(sh: Shared, pc: Pc) {
    && (pc.Beating? ==> Held(sh, pc.k, pc.stage))
    && (pc.Finished? ==> IsTicket(sh.rec, pc.ticket, pc.status) && (pc.wrote ==> Shown(sh.out, pc.ticket)))
  }

  // The loop is past its last select and, if it adopted a status, has set it.
  predicate Settled(loop: Pc) {
    loop.LoopExited? || (loop.Beating? && loop.k.LoopAdoptBeat? && !loop.stage.AdoptRead? && !loop.stage.AdoptSet?)
  }

  // Finish sets terminal statuses, once Stop is over, and the last one stays.
  predicate FinishesLast(sh: Shared) {
    && (sh.rec.finishes != [] ==> sh.sync.once.Done? && sh.rec.st.status == Last(sh.rec.finishes))
    && sh.rec.st.finals == |sh.rec.finishes|
    && (forall i :: 0 <= i < |sh.rec.finishes| ==> Terminal(sh.rec.finishes[i]))
  }

  // A terminal status has a source, and the loop stops beating for it.
  predicate TerminalOnce(sh: Shared, loop: Pc) {
    Justified(sh.rec.st, sh.db.told) && (Terminal(sh.rec.st.status) ==> Settled(loop))
  }

  predicate StopProtocol(sh: Shared, loop: Pc) {
    && (sh.sync.once.NotRun? || sh.sync.stopClosed)
    && (sh.sync.once.Done? ==> loop.LoopExited?)
    && RowHistory(sh.db) && FinishesLast(sh) && TerminalOnce(sh, loop)
  }

  // The loop has a beat ahead of it whose snapshot is still to come.
  predicate BeatAhead(pc: Pc) {
    pc.Beating? && pc.k.LoopBeat? && (pc.stage.WantLock? || pc.stage.Sampling? || pc.stage.Snapping?)
  }

  // The loop is past its last select.
  predicate Leaving(pc: Pc) {
    pc.LoopExited? || (pc.Beating? && pc.k.LoopAdoptBeat?)
  }

  predicate WakeUp(sh: Shared, loop: Pc) {
    && sh.out.poked <= |sh.rec.log| && sh.out.snapped <= |sh.rec.log| && sh.out.stopped <= |sh.rec.log|
    && (sh.out.poked > sh.out.snapped ==> sh.sync.kick || BeatAhead(loop) || Leaving(loop))
  }

  ghost predicate Documents(r: Record, written: seq<Doc>, told: set<Status>) {
    && Replays(r.st, r.log) && r.st.at == |r.log|
    && (forall i :: 0 <= i < |written| ==>
          Replays(written[i], r.log) && Faithful(written[i], r.finishes) && Justified(written[i], told))
    && (forall i, j :: 0 <= i < j < |written| ==> NotBefore(written[i], written[j]))
    && (written != [] ==> NotBefore(Last(written), r.st))
  }

  // A Stop that put a document on disk left every event before it there.
  predicate StopShown(sh: Shared) {
    sh.sync.once.Done? && sh.sync.once.wrote ==> Reflects(sh.out, sh.out.stopped)
  }

  // Unless the last write failed, the newest snapshot is on disk or about to be.
  predicate Published(s: State) {
    var o, mu := s.sh.out, s.sh.sync.writeMu;
    !o.failed && !(mu.Some? && PcOf(s, mu.value).Beating? && PcOf(s, mu.value).stage.Writing?) ==>
      o.written != [] && Last(o.written).at == o.snapped
  }

  ghost predicate Globals(s: State) {
    && StopProtocol(s.sh, PcOf(s, LOOP)) && WakeUp(s.sh, PcOf(s, LOOP))
    && Documents(s.sh.rec, s.sh.out.written, s.sh.db.told) && StopShown(s.sh) && Published(s)
  }

  ghost predicate Thread(s: State, t: Tid) {
    Control(s.sh, PcOf(s, LOOP), t, PcOf(s, t)) && Holds(s.sh, PcOf(s, t))
  }

  ghost predicate Inv(s: State) {
    Globals(s) && forall t: Tid {:trigger Thread(s, t)} :: Thread(s, t)
  }

  // ---------------------------------------------------- one step keeps each

  // A step is possible and the protocol holds where it is taken.
  ghost predicate Takes(sh: Shared, pc: Pc, loop: Pc, step: Step) {
    && Can(sh, pc, loop, step) && StopProtocol(sh, loop)
    && Control(sh, loop, Mover(step), pc) && (Mover(step) == LOOP ==> pc == loop)
  }

  // Where the step leaves the loop.
  function NextLoop(c: Config, sh: Shared, pc: Pc, loop: Pc, step: Step): Pc
    requires Can(sh, pc, loop, step)
  {
    if Mover(step) == LOOP then NextPc(c, sh, pc, loop, step) else loop
  }

  // The thread that moves keeps what it owns and has seen...
  lemma MoverOwns(c: Config, sh: Shared, pc: Pc, loop: Pc, step: Step)
    requires Takes(sh, pc, loop, step)
    ensures Owns(NextSync(c, sh, pc, loop, step), Mover(step), NextPc(c, sh, pc, loop, step))
  {
  }

  lemma MoverSees(c: Config, sh: Shared, pc: Pc, loop: Pc, step: Step)
    requires Takes(sh, pc, loop, step)
    ensures Seen(NextShared(c, sh, pc, loop, step), NextLoop(c, sh, pc, loop, step), NextPc(c, sh, pc, loop, step))
  {
  }

  lemma MoverControl(c: Config, sh: Shared, pc: Pc, loop: Pc, step: Step)
    requires Takes(sh, pc, loop, step)
    ensures Control(NextShared(c, sh, pc, loop, step), NextLoop(c, sh, pc, loop, step), Mover(step),
                    NextPc(c, sh, pc, loop, step))
  {
    MoverOwns(c, sh, pc, loop, step);
    MoverSees(c, sh, pc, loop, step);
  }

  // ... and no other thread is disturbed.
  lemma OtherOwns(c: Config, sh: Shared, pc: Pc, loop: Pc, step: Step, u: Tid, other: Pc)
    requires Takes(sh, pc, loop, step) && Owns(sh.sync, u, other) && u != Mover(step)
    ensures Owns(NextSync(c, sh, pc, loop, step), u, other)
  {
  }

  lemma OtherSees(c: Config, sh: Shared, pc: Pc, loop: Pc, step: Step, u: Tid, other: Pc)
    requires Takes(sh, pc, loop, step) && Control(sh, loop, u, other) && u != Mover(step)
    ensures Seen(NextShared(c, sh, pc, loop, step), NextLoop(c, sh, pc, loop, step), other)
  {
  }

  lemma OtherControl(c: Config, sh: Shared, pc: Pc, loop: Pc, step: Step, u: Tid, other: Pc)
    requires Takes(sh, pc, loop, step) && Control(sh, loop, u, other) && u != Mover(step)
    ensures Control(NextShared(c, sh, pc, loop, step), NextLoop(c, sh, pc, loop, step), u, other)
  {
    OtherOwns(c, sh, pc, loop, step, u, other);
    OtherSees(c, sh, pc, loop, step, u, other);
  }

  lemma KeepsRowHistory(db: RowLog, step: Step)
    requires RowHistory(db) && (step.FinalizeRow? ==> Terminal(step.status))
    ensures RowHistory(NextRow(db, step)) && db.told <= NextRow(db, step).told
  {
  }

  lemma KeepsFinishesLast(c: Config, sh: Shared, pc: Pc, loop: Pc, step: Step)
    requires Takes(sh, pc, loop, step)
    ensures FinishesLast(NextShared(c, sh, pc, loop, step))
  {
  }

  lemma KeepsJustified(sh: Shared, pc: Pc, loop: Pc, step: Step)
    requires Takes(sh, pc, loop, step)
    ensures Justified(NextRecord(sh, pc, loop, step).st, sh.db.told)
  {
  }

  lemma KeepsSettled(c: Config, sh: Shared, pc: Pc, loop: Pc, step: Step)
    requires Takes(sh, pc, loop, step) && Terminal(NextRecord(sh, pc, loop, step).st.status)
    ensures Settled(NextLoop(c, sh, pc, loop, step))
  {
  }

  lemma KeepsTerminalOnce(c: Config, sh: Shared, pc: Pc, loop: Pc, step: Step)
    requires Takes(sh, pc, loop, step)
    ensures TerminalOnce(NextShared(c, sh, pc, loop, step), NextLoop(c, sh, pc, loop, step))
  {
    KeepsRowHistory(sh.db, step);
    KeepsJustified(sh, pc, loop, step);
    if Terminal(NextRecord(sh, pc, loop, step).st.status) { KeepsSettled(c, sh, pc, loop, step); }
  }

  lemma KeepsStopProtocol(c: Config, sh: Shared, pc: Pc, loop: Pc, step: Step)
    requires Takes(sh, pc, loop, step)
    ensures StopProtocol(NextShared(c, sh, pc, loop, step), NextLoop(c, sh, pc, loop, step))
  {
    KeepsRowHistory(sh.db, step);
    KeepsFinishesLast(c, sh, pc, loop, step);
    KeepsTerminalOnce(c, sh, pc, loop, step);
  }

  lemma KeepsWakeUp(c: Config, sh: Shared, pc: Pc, loop: Pc, step: Step)
    requires Takes(sh, pc, loop, step) && WakeUp(sh, loop)
    ensures WakeUp(NextShared(c, sh, pc, loop, step), NextLoop(c, sh, pc, loop, step))
  {
  }

  predicate Extends(r: Record, r': Record) {
    NotBefore(r.st, r'.st) && r.log <= r'.log && r.finishes <= r'.finishes
  }

  ghost predicate Grows(r: Record, r': Record) {
    Extends(r, r') && Replays(r'.st, r'.log) && r'.st.at == |r'.log|
  }

  // An event noted on a record whose document has changed in nothing the events
  // say.
  lemma NoteGrows(r: Record, r1: Record, e: Event)
    requires Replays(r.st, r.log) && r.st.at == |r.log|
    requires r1.log == r.log && r1.finishes == r.finishes && NotBefore(r.st, r1.st)
    requires r1.st.at == r.st.at && r1.st.phase == r.st.phase && r1.st.done == r.st.done
    ensures var r' := Note(r1, e); Grows(r, r')
  {
    var r' := Note(r1, e);
    assert r'.log[..|r'.log| - 1] == r.log;
    assert r.log[..|r.log|] == r.log && r'.log[..|r'.log|] == r'.log;
  }

  // A status is only ever set to a terminal one.
  predicate SetsTerminal(sh: Shared, pc: Pc, step: Step) {
    && (step.Adopt? ==> pc.Beating? && pc.stage.AdoptSet? && Terminal(pc.stage.status))
    && (step.SetFinal? ==> pc.FinishSet? && Terminal(pc.status) && sh.rec.st.finals <= |sh.rec.finishes|)
  }

  lemma RecordFollows(sh: Shared, pc: Pc, loop: Pc, step: Step)
    requires Can(sh, pc, loop, step) && SetsTerminal(sh, pc, step)
    requires Replays(sh.rec.st, sh.rec.log) && sh.rec.st.at == |sh.rec.log|
    ensures Grows(sh.rec, NextRecord(sh, pc, loop, step))
  {
    var r := sh.rec;
    match step
    case StartPhase(_, p) => NoteGrows(r, r, Started(p));
    case EndPhase(_, p, extra) => NoteGrows(r, r.(extraSent := r.extraSent + extra), Ended(p));
    case Adopt(_) => NoteGrows(r, r.(st := r.st.(status := pc.stage.status)), Cleared);
    case ClearPhase(_) => NoteGrows(r, r, Cleared);
    case _ =>
  }

  // What mu guards only grows, and the document kept there follows it.
  lemma RecordGrows(sh: Shared, pc: Pc, loop: Pc, step: Step)
    requires Takes(sh, pc, loop, step)
    requires Replays(sh.rec.st, sh.rec.log) && sh.rec.st.at == |sh.rec.log|
    ensures Grows(sh.rec, NextRecord(sh, pc, loop, step))
  {
    assert SetsTerminal(sh, pc, step);
    RecordFollows(sh, pc, loop, step);
  }

  lemma StillReplays(d: Doc, log: seq<Event>, log': seq<Event>)
    requires Replays(d, log) && log <= log'
    ensures Replays(d, log')
  {
    assert log'[..d.at] == log[..d.at];
  }

  // A snapshot is pending, and once written it shows what its beat is for.
  lemma SnapshotPends(c: Config, sh: Shared, pc: Pc, loop: Pc, t: Tid)
    requires Takes(sh, pc, loop, Snapshot(t)) && Holds(sh, pc) && sh.out.stopped <= |sh.rec.log|
    requires Documents(sh.rec, sh.out.written, sh.db.told)
    ensures Pending(NextShared(c, sh, pc, loop, Snapshot(t)), pc.k, Refreshed(sh.rec, pc.stage.sent, pc.stage.work))
  {
    assert sh.rec.log[..|sh.rec.log|] == sh.rec.log;
  }

  lemma WriteShows(c: Config, sh: Shared, pc: Pc, loop: Pc, t: Tid, ok: bool)
    requires Takes(sh, pc, loop, WriteFile(t, ok)) && Holds(sh, pc)
    ensures Holds(NextShared(c, sh, pc, loop, WriteFile(t, ok)), NextPc(c, sh, pc, loop, WriteFile(t, ok)))
  {
  }

  lemma QuietHolds(c: Config, sh: Shared, pc: Pc, loop: Pc, step: Step)
    requires Takes(sh, pc, loop, step) && Holds(sh, pc) && !step.Snapshot? && !step.WriteFile?
    ensures Holds(NextShared(c, sh, pc, loop, step), NextPc(c, sh, pc, loop, step))
  {
  }

  lemma MoverHolds(c: Config, sh: Shared, pc: Pc, loop: Pc, step: Step)
    requires Takes(sh, pc, loop, step) && Holds(sh, pc) && sh.out.stopped <= |sh.rec.log|
    requires Documents(sh.rec, sh.out.written, sh.db.told)
    ensures Holds(NextShared(c, sh, pc, loop, step), NextPc(c, sh, pc, loop, step))
  {
    if step.Snapshot? {
      SnapshotPends(c, sh, pc, loop, step.t);
    } else if step.WriteFile? {
      WriteShows(c, sh, pc, loop, step.t, step.ok);
    } else {
      QuietHolds(c, sh, pc, loop, step);
    }
  }

  // The output grows by at most one document, after the newest one; only the
  // holder of the write lock adds it or takes a snapshot, and only the stopping
  // thread says how far the log was.
  lemma OutputGrows(c: Config, sh: Shared, pc: Pc, loop: Pc, step: Step)
    requires Takes(sh, pc, loop, step) && Holds(sh, pc)
    ensures var o, o' := sh.out, NextOutput(c, sh, pc, loop, step);
      && (o.written != [] ==> o'.written != [] && NotBefore(Last(o.written), Last(o'.written)))
      && (!HoldsLock(pc) ==> o'.written == o.written && o'.snapped == o.snapped)
      && (!Stopping(pc) ==> o'.stopped == o.stopped)
  {
  }

  // What a thread holds survives whatever lets the record and the output grow.
  lemma HoldsExtends(sh: Shared, sh': Shared, pc: Pc)
    requires Holds(sh, pc)
    requires sh.rec.log <= sh'.rec.log && sh.rec.finishes <= sh'.rec.finishes && NotBefore(sh.rec.st, sh'.rec.st)
    requires sh.db.told <= sh'.db.told
    requires sh.out.written != [] ==> sh'.out.written != [] && NotBefore(Last(sh.out.written), Last(sh'.out.written))
    requires HoldsLock(pc) ==> sh'.out.written == sh.out.written && sh'.out.snapped == sh.out.snapped
    requires Stopping(pc) ==> sh'.out.stopped == sh.out.stopped
    ensures Holds(sh', pc)
  {
    if pc.Beating? && pc.stage.Writing? {
      StillReplays(pc.stage.doc, sh.rec.log, sh'.rec.log);
    }
  }

  // Two threads do not own the same thing.
  lemma OwnersDiffer(sync: Sync, t: Tid, pc: Pc, u: Tid, other: Pc)
    requires Owns(sync, t, pc) && Owns(sync, u, other) && t != u
    ensures !(HoldsLock(pc) && HoldsLock(other)) && !(Stopping(pc) && Stopping(other))
  {
  }

  lemma OtherHolds(c: Config, sh: Shared, pc: Pc, loop: Pc, step: Step, u: Tid, other: Pc)
    requires Takes(sh, pc, loop, step) && Holds(sh, pc)
    requires Documents(sh.rec, sh.out.written, sh.db.told)
    requires Owns(sh.sync, u, other) && u != Mover(step) && Holds(sh, other)
    ensures Holds(NextShared(c, sh, pc, loop, step), other)
  {
    RecordGrows(sh, pc, loop, step);
    OutputGrows(c, sh, pc, loop, step);
    KeepsRowHistory(sh.db, step);
    OwnersDiffer(sh.sync, Mover(step), pc, u, other);
    HoldsExtends(sh, NextShared(c, sh, pc, loop, step), other);
  }

  lemma StillTold(d: Doc, r: Record, r': Record)
    requires Replays(d, r.log) && Faithful(d, r.finishes) && r.log <= r'.log && r.finishes <= r'.finishes
    ensures Replays(d, r'.log) && Faithful(d, r'.finishes)
  {
    StillReplays(d, r.log, r'.log);
  }

  // The documents stay in order when the record grows...
  lemma DocumentsFollow(r: Record, r': Record, written: seq<Doc>, told: set<Status>, told': set<Status>)
    requires Documents(r, written, told)
    requires r.log <= r'.log && r.finishes <= r'.finishes && NotBefore(r.st, r'.st)
    requires Replays(r'.st, r'.log) && r'.st.at == |r'.log|
    requires told <= told'
    ensures Documents(r', written, told')
  {
    forall i | 0 <= i < |written| ensures Replays(written[i], r'.log) && Faithful(written[i], r'.finishes) {
      StillTold(written[i], r, r');
    }
  }

  // ... and when one is written that lies between the newest one and the record.
  lemma DocumentAdded(r: Record, written: seq<Doc>, told: set<Status>, d: Doc)
    requires Documents(r, written, told)
    requires Replays(d, r.log) && Faithful(d, r.finishes) && Justified(d, told) && NotBefore(d, r.st)
    requires written != [] ==> NotBefore(Last(written), d)
    ensures Documents(r, written + [d], told)
  {
    forall i | 0 <= i < |written| ensures NotBefore(written[i], d) {
      assert i < |written| - 1 ==> NotBefore(written[i], written[|written| - 1]);
    }
  }

  lemma DocumentsExtend(sh: Shared, sh': Shared, d: Doc)
    requires Documents(sh.rec, sh.out.written, sh.db.told)
    requires sh.rec.log <= sh'.rec.log && sh.rec.finishes <= sh'.rec.finishes && NotBefore(sh.rec.st, sh'.rec.st)
    requires Replays(sh'.rec.st, sh'.rec.log) && sh'.rec.st.at == |sh'.rec.log|
    requires sh.db.told <= sh'.db.told
    requires sh'.out.written == sh.out.written ||
      (&& sh'.out.written == sh.out.written + [d]
       && Replays(d, sh.rec.log) && Faithful(d, sh.rec.finishes) && Justified(d, sh.db.told) && NotBefore(d, sh.rec.st)
       && (sh.out.written != [] ==> NotBefore(Last(sh.out.written), d)))
    ensures Documents(sh'.rec, sh'.out.written, sh'.db.told)
  {
    if sh'.out.written != sh.out.written {
      DocumentAdded(sh.rec, sh.out.written, sh.db.told, d);
    }
    DocumentsFollow(sh.rec, sh'.rec, sh'.out.written, sh.db.told, sh'.db.told);
  }

  lemma KeepsDocuments(c: Config, sh: Shared, pc: Pc, loop: Pc, step: Step)
    requires Takes(sh, pc, loop, step) && Holds(sh, pc)
    requires Documents(sh.rec, sh.out.written, sh.db.told)
    ensures var sh' := NextShared(c, sh, pc, loop, step); Documents(sh'.rec, sh'.out.written, sh'.db.told)
  {
    RecordGrows(sh, pc, loop, step);
    KeepsRowHistory(sh.db, step);
    DocumentsExtend(sh, NextShared(c, sh, pc, loop, step), if step.WriteFile? then pc.stage.doc else sh.rec.st);
  }

  lemma KeepsStopShown(c: Config, sh: Shared, pc: Pc, loop: Pc, step: Step)
    requires Takes(sh, pc, loop, step) && Holds(sh, pc) && StopShown(sh)
    ensures StopShown(NextShared(c, sh, pc, loop, step))
  {
    OutputGrows(c, sh, pc, loop, step);
  }

  lemma KeepsPublished(c: Config, s: State, step: Step)
    requires Enabled(s, step) && Published(s) && Thread(s, Mover(step))
    ensures Published(Apply(c, s, step))
  {
    var s', t := Apply(c, s, step), Mover(step);
    assert PcOf(s', t) == NextPc(c, s.sh, PcOf(s, t), PcOf(s, LOOP), step);
    var mu := s.sh.sync.writeMu;
    assert mu.Some? && mu.value != t ==> PcOf(s', mu.value) == PcOf(s, mu.value);
  }

  // Where the thread that runs the body of Stop's once is.
  function StoppingPc(s: State): Pc {
    if s.sh.sync.once.InProgress? then PcOf(s, s.sh.sync.once.owner) else Idle
  }

  // Where a step leaves that thread.
  function NextStopping(c: Config, sh: Shared, pc: Pc, loop: Pc, step: Step, stopping: Pc): Pc
    requires Can(sh, pc, loop, step)
  {
    var once := NextSync(c, sh, pc, loop, step).once;
    if !once.InProgress? then Idle
    else if once.owner == Mover(step) then NextPc(c, sh, pc, loop, step)
    else stopping
  }

  lemma StoppingMoves(c: Config, s: State, step: Step)
    requires Enabled(s, step)
    ensures StoppingPc(Apply(c, s, step)) ==
      NextStopping(c, s.sh, PcOf(s, Mover(step)), PcOf(s, LOOP), step, StoppingPc(s))
  {
  }

  lemma StepIsTaken(c: Config, s: State, step: Step)
    requires Inv(s) && Enabled(s, step)
    ensures Takes(s.sh, PcOf(s, Mover(step)), PcOf(s, LOOP), step) && Holds(s.sh, PcOf(s, Mover(step)))
  {
    assert Thread(s, Mover(step)) && Thread(s, LOOP);
  }

  lemma StepKeepsMover(c: Config, s: State, step: Step)
    requires Inv(s) && Enabled(s, step)
    ensures Thread(Apply(c, s, step), Mover(step))
  {
    StepIsTaken(c, s, step);
    MoverControl(c, s.sh, PcOf(s, Mover(step)), PcOf(s, LOOP), step);
    MoverHolds(c, s.sh, PcOf(s, Mover(step)), PcOf(s, LOOP), step);
  }

  lemma StepKeepsOther(c: Config, s: State, step: Step, u: Tid)
    requires Inv(s) && Enabled(s, step) && u != Mover(step)
    ensures Thread(Apply(c, s, step), u)
  {
    StepIsTaken(c, s, step);
    assert Thread(s, u);
    OtherControl(c, s.sh, PcOf(s, Mover(step)), PcOf(s, LOOP), step, u, PcOf(s, u));
    OtherHolds(c, s.sh, PcOf(s, Mover(step)), PcOf(s, LOOP), step, u, PcOf(s, u));
  }

  lemma StepKeepsGlobals(c: Config, s: State, step: Step)
    requires Inv(s) && Enabled(s, step)
    ensures Globals(Apply(c, s, step))
  {
    StepIsTaken(c, s, step);
    var pc, loop := PcOf(s, Mover(step)), PcOf(s, LOOP);
    KeepsStopProtocol(c, s.sh, pc, loop, step);
    KeepsWakeUp(c, s.sh, pc, loop, step);
    KeepsDocuments(c, s.sh, pc, loop, step);
    KeepsStopShown(c, s.sh, pc, loop, step);
    KeepsPublished(c, s, step);
  }

  lemma StepKeepsInv(c: Config, s: State, step: Step)
    requires Inv(s) && Enabled(s, step)
    ensures Inv(Apply(c, s, step))
  {
    StepKeepsGlobals(c, s, step);
    forall u: Tid ensures Thread(Apply(c, s, step), u) {
      if u == Mover(step) { StepKeepsMover(c, s, step); } else { StepKeepsOther(c, s, step, u); }
    }
  }

  lemma InitialInv(c: Config, s: State)
    requires IsInitial(c, s)
    ensures Inv(s)
  {
    assert s.sh.rec.log[..|s.sh.rec.log|] == s.sh.rec.log;
  }

  lemma {:induction false} RunKeepsInv(c: Config, s: State, steps: seq<Step>, end: State)
    requires Inv(s) && IsRun(c, s, steps, end)
    ensures Inv(end)
    decreases |steps|
  {
    if steps != [] {
      StepKeepsInv(c, s, steps[0]);
      RunKeepsInv(c, Apply(c, s, steps[0]), steps[1..], end);
    }
  }

  lemma ReachableInv(c: Config, s: State)
    requires Reachable(c, s)
    ensures Inv(s)
  {
    var s0, steps :| IsInitial(c, s0) && IsRun(c, s0, steps, s);
    InitialInv(c, s0);
    RunKeepsInv(c, s0, steps, s);
  }

  // ---------------------------------------------------------------- theorems

  // No lost wake-up. Whenever a completed poke asks for events no snapshot has
  // yet, the kick slot is full or the loop has a snapshot still ahead of it,
  // unless the loop is on its way out.
  lemma NoLostWakeUp(c: Config, s: State)
    requires Reachable(c, s) && s.sh.out.poked > s.sh.out.snapped && !Leaving(PcOf(s, LOOP))
    ensures s.sh.sync.kick || BeatAhead(PcOf(s, LOOP))
  {
    ReachableInv(c, s);
  }

  lemma AsleepMeansUnlocked(s: State)
    requires Inv(s) && PcOf(s, LOOP).AtSelect?
    ensures s.sh.sync.writeMu.None?
  {
    forall h: Tid ensures s.sh.sync.writeMu != Some(h) { assert Thread(s, h); }
  }

  // A loop asleep at its select with nothing in the slot, whose last write went
  // well, has published every event any completed poke stands for: the newest
  // document replays a log prefix at least that long.
  lemma SleepingLoopIsUpToDate(c: Config, s: State)
    requires Reachable(c, s) && PcOf(s, LOOP).AtSelect? && !s.sh.sync.kick && !s.sh.out.failed
    ensures s.sh.out.written != []
    ensures var d := Last(s.sh.out.written);
      s.sh.out.poked <= d.at <= |s.sh.rec.log| && d.done == DoneAfter(s.sh.rec.log[..d.at])
      && d.phase == PhaseAfter(s.sh.rec.log[..d.at])
  {
    ReachableInv(c, s);
    AsleepMeansUnlocked(s);
  }

  lemma StepExtends(c: Config, s: State, step: Step)
    requires Inv(s) && Enabled(s, step)
    ensures var s' := Apply(c, s, step);
      s.sh.rec.log <= s'.sh.rec.log && s.sh.out.poked <= s'.sh.out.poked
  {
  }

  lemma {:induction false} RunExtends(c: Config, s: State, steps: seq<Step>, end: State)
    requires Inv(s) && IsRun(c, s, steps, end)
    ensures Inv(end) && s.sh.rec.log <= end.sh.rec.log && s.sh.out.poked <= end.sh.out.poked
    decreases |steps|
  {
    if steps != [] {
      StepKeepsInv(c, s, steps[0]);
      StepExtends(c, s, steps[0]);
      RunExtends(c, Apply(c, s, steps[0]), steps[1..], end);
    }
  }

  // The same along a run: once a phase report has poked the loop, any later
  // moment at which the loop sleeps with an empty slot after a good write finds
  // that report, and everything reported before it, in status.json.
  lemma PokedReportIsPublished(c: Config, s: State, t: Tid, steps: seq<Step>, end: State)
    requires Inv(s) && PcOf(s, t).Poking? && IsRun(c, Apply(c, s, Poke(t)), steps, end)
    requires PcOf(end, LOOP).AtSelect? && !end.sh.sync.kick && !end.sh.out.failed
    ensures end.sh.out.written != []
    ensures var d := Last(end.sh.out.written);
      && PcOf(s, t).seen <= d.at <= |end.sh.rec.log| && s.sh.rec.log <= end.sh.rec.log
      && d.done == DoneAfter(end.sh.rec.log[..d.at])
  {
    assert Enabled(s, Poke(t));
    StepKeepsInv(c, s, Poke(t));
    StepExtends(c, s, Poke(t));
    RunExtends(c, Apply(c, s, Poke(t)), steps, end);
    AsleepMeansUnlocked(end);
  }

  // What is recorded before Stop clears the phase is below its mark.
  predicate MarkedBy(sh: Shared, stopping: Pc, n: nat) {
    && n <= |sh.rec.log|
    && (sh.sync.once.Done? || (sh.sync.once.InProgress? && stopping.Beating?) ==> n < sh.out.stopped)
  }

  predicate Marked(s: State, n: nat) {
    MarkedBy(s.sh, StoppingPc(s), n)
  }

  lemma KeepsMarked(c: Config, sh: Shared, pc: Pc, loop: Pc, step: Step, stopping: Pc, n: nat)
    requires Takes(sh, pc, loop, step) && MarkedBy(sh, stopping, n)
    requires sh.sync.once == InProgress(Mover(step)) ==> stopping == pc
    ensures MarkedBy(NextShared(c, sh, pc, loop, step), NextStopping(c, sh, pc, loop, step, stopping), n)
  {
  }

  lemma StepKeepsMarked(c: Config, s: State, step: Step, n: nat)
    requires Inv(s) && Enabled(s, step) && Marked(s, n)
    ensures Marked(Apply(c, s, step), n)
  {
    StepIsTaken(c, s, step);
    StoppingMoves(c, s, step);
    KeepsMarked(c, s.sh, PcOf(s, Mover(step)), PcOf(s, LOOP), step, StoppingPc(s), n);
  }

  lemma {:induction false} RunKeepsMarked(c: Config, s: State, steps: seq<Step>, end: State, n: nat)
    requires Inv(s) && IsRun(c, s, steps, end) && Marked(s, n)
    ensures Inv(end) && Marked(end, n) && s.sh.rec.log <= end.sh.rec.log
    decreases |steps|
  {
    if steps != [] {
      StepKeepsInv(c, s, steps[0]);
      StepExtends(c, s, steps[0]);
      StepKeepsMarked(c, s, steps[0], n);
      RunKeepsMarked(c, Apply(c, s, steps[0]), steps[1..], end, n);
    }
  }

  // A loop on its way out leaves nothing behind: once a Stop that put a document
  // on disk has returned, the newest document has every event recorded, poked
  // or not, before that Stop began.
  lemma StopPublishesEverything(c: Config, s: State, steps: seq<Step>, end: State)
    requires Inv(s) && s.sh.sync.once.NotRun? && IsRun(c, s, steps, end) && end.sh.sync.once == Done(true)
    ensures end.sh.out.written != [] && s.sh.rec.log <= end.sh.rec.log
    ensures var d := Last(end.sh.out.written);
      && s.sh.out.poked <= |s.sh.rec.log| < d.at <= |end.sh.rec.log|
      && d.done == DoneAfter(end.sh.rec.log[..d.at])
  {
    RunKeepsMarked(c, s, steps, end, |s.sh.rec.log|);
  }

  // Documents are published in snapshot order: done phases only extend,
  // finding counts never fall, and each replays a prefix of the reports.
  lemma DocumentsInOrder(c: Config, s: State, i: nat, j: nat)
    requires Reachable(c, s) && i < j < |s.sh.out.written|
    ensures var a, b := s.sh.out.written[i], s.sh.out.written[j];
      && a.done <= b.done && a.findings <= b.findings && a.bySeverity <= b.bySeverity
      && a.at <= b.at <= |s.sh.rec.log| && b.done == DoneAfter(s.sh.rec.log[..b.at])
  {
    ReachableInv(c, s);
  }

  lemma StatusHasASource(r: Record, written: seq<Doc>, told: set<Status>, i: nat, j: nat)
    requires Documents(r, written, told) && i <= j < |written| && Terminal(written[i].status)
    ensures Terminal(written[j].status) && (written[j].status in r.finishes || written[j].status in told)
  {
    assert i < j ==> NotBefore(written[i], written[j]);
    var d := written[j];
    assert Faithful(d, r.finishes) && Justified(d, told);
    assert d.finals > 0 ==> d.status == r.finishes[d.finals - 1];
  }

  // A terminal status, once shown, is never taken back, and it is either one
  // Finish set or one the row once carried.
  lemma TerminalIsAbsorbing(c: Config, s: State, i: nat, j: nat)
    requires Reachable(c, s) && i <= j < |s.sh.out.written| && Terminal(s.sh.out.written[i].status)
    ensures Terminal(s.sh.out.written[j].status)
    ensures s.sh.out.written[j].status in s.sh.rec.finishes || s.sh.out.written[j].status in s.sh.db.told
  {
    ReachableInv(c, s);
    StatusHasASource(s.sh.rec, s.sh.out.written, s.sh.db.told, i, j);
  }

  // A Finish that returned, having written its document, has the last word:
  // the newest document shows a status set by it or by a later Finish.
  lemma FinishHasTheLastWord(c: Config, s: State, t: Tid)
    requires Reachable(c, s) && PcOf(s, t).Finished? && PcOf(s, t).wrote
    ensures s.sh.out.written != []
    ensures var pc, d := PcOf(s, t), Last(s.sh.out.written);
      && 1 <= pc.ticket <= d.finals <= |s.sh.rec.finishes|
      && d.status == s.sh.rec.finishes[d.finals - 1]
      && (pc.ticket == |s.sh.rec.finishes| ==> d.status == pc.status)
  {
    ReachableInv(c, s);
    assert Thread(s, t);
  }

  // A thread inside a call.
  predicate Busy(pc: Pc) {
    !pc.Idle? && !pc.AtSelect? && !pc.LoopExited? && !pc.Finished?
  }

  // The step a thread inside a call takes next, whatever the outcomes of the
  // reads and writes it makes.
  function NextOf(t: Tid, pc: Pc): Step
    requires Busy(pc)
  {
    match pc
    case Poking(_) => Poke(t)
    case StopOnce(_) => EnterOnce(t)
    case StopWait(_) => AwaitDone(t)
    case StopClear(_) => ClearPhase(t)
    case FinishSet(_) => SetFinal(t)
    case Beating(_, stage) =>
      match stage
      case WantLock => Lock(t)
      case Sampling => Sample(t, 0, None)
      case Snapping(_, _) => Snapshot(t)
      case Writing(_) => WriteFile(t, true)
      case Stamping(_) => StampRow(t, true)
      case Unlocking(_, _) => Unlock(t)
      case AdoptRead => ReadRow(t, true)
      case AdoptSet(_) => Adopt(t)
  }

  // A thread that waits for the write lock waits for one that can move.
  lemma BeatCanMove(s: State, t: Tid) returns (u: Tid)
    requires Inv(s) && PcOf(s, t).Beating?
    ensures Busy(PcOf(s, u)) && Enabled(s, NextOf(u, PcOf(s, u)))
  {
    u := t;
    if PcOf(s, t).stage.WantLock? && s.sh.sync.writeMu.Some? {
      u := s.sh.sync.writeMu.value;
      assert Thread(s, u);
    }
  }

  lemma StopperCanMove(s: State, o: Tid)
    requires Inv(s) && s.sh.sync.once == InProgress(o)
    ensures Enabled(s, RecvStop) || exists u :: Busy(PcOf(s, u)) && Enabled(s, NextOf(u, PcOf(s, u)))
  {
    assert Thread(s, o) && Thread(s, LOOP);
    if PcOf(s, o).Beating? {
      var u := BeatCanMove(s, o);
    } else if PcOf(s, o).StopWait? && PcOf(s, LOOP).Beating? {
      var u := BeatCanMove(s, LOOP);
    } else {
      assert Enabled(s, RecvStop) || (Busy(PcOf(s, o)) && Enabled(s, NextOf(o, PcOf(s, o))));
    }
  }

  // No deadlock: while any call is in progress, some thread inside a call can
  // take its next step, or the loop can leave on the stop signal.
  lemma NoDeadlock(c: Config, s: State, t: Tid)
    requires Reachable(c, s) && Busy(PcOf(s, t))
    ensures Enabled(s, RecvStop) || exists u :: Busy(PcOf(s, u)) && Enabled(s, NextOf(u, PcOf(s, u)))
  {
    ReachableInv(c, s);
    var pc := PcOf(s, t);
    assert Thread(s, t) && Thread(s, LOOP);
    if pc.Beating? {
      var u := BeatCanMove(s, t);
    } else if pc.StopOnce? && s.sh.sync.once.InProgress? {
      var o := s.sh.sync.once.owner;
      assert Thread(s, o);
      StopperCanMove(s, o);
    } else if pc.StopWait? {
      StopperCanMove(s, t);
    } else {
      assert Busy(PcOf(s, t)) && Enabled(s, NextOf(t, PcOf(s, t)));
    }
  }
}
