/**
  How a sweep can tear the destination: two runs, one in which a call idles
  longer than the sweep's age, and one in which every call is quick but two
  sweeps have looked at the same abandoned file.
*/
module AtomicTears {
  import opened Common
  import opened AtomicFile

  lemma {:induction false} AndThen(dest: Name, care: Care, s: State, steps: seq<Step>, mid: State, step: Step)
    requires IsRun(dest, s, steps, mid, care) && Enabled(dest, mid, step) && Heeds(dest, care, mid, step)
    ensures IsRun(dest, s, steps + [step], Apply(dest, mid, step), care)
    decreases |steps|
  {
    var end := Apply(dest, mid, step);
    if steps == [] {
      assert [step][1..] == [] && IsRun(dest, end, [], end, care);
    } else {
      AndThen(dest, care, Apply(dest, s, steps[0]), steps[1..], mid, step);
      assert (steps + [step])[1..] == steps[1..] + [step];
    }
  }

  lemma {:induction false} BegunSnoc(steps: seq<Step>, step: Step)
    ensures Begun(steps + [step]) == Begun(steps) + Begun([step])
  {
    if steps == [] {
      assert steps + [step] == [step];
    } else {
      assert (steps + [step])[1..] == steps[1..] + [step];
      BegunSnoc(steps[1..], step);
    }
  }

  // Some run leads from s to end, and its calls are given only these contents.
  ghost predicate Reaches(dest: Name, care: Care, s: State, end: State, known: set<Bytes>) {
    exists steps :: IsRun(dest, s, steps, end, care) && Begun(steps) <= known
  }

  lemma ReachesNext(dest: Name, care: Care, s0: State, s: State, step: Step, known: set<Bytes>)
    requires Reaches(dest, care, s0, s, known) && Enabled(dest, s, step) && Heeds(dest, care, s, step)
    requires step.Begin? ==> step.data in known
    ensures Reaches(dest, care, s0, Apply(dest, s, step), known)
  {
    var steps :| IsRun(dest, s0, steps, s, care) && Begun(steps) <= known;
    AndThen(dest, care, s0, steps, s, step);
    BegunSnoc(steps, step);
    assert [step][1..] == [];
  }

  // The name of the suffix stands for this inode, if for any.
  predicate Names(dest: Name, s: State, suffix: string, ino: Option<Ino>) {
    s.disk.since != [] && Entry(Now(s.disk).dir, StagingName(dest, suffix)) == ino
  }

  // Call 0 is here and call 1 has not begun; inode 0 holds this and inode 1 is free.
  predicate First(s: State, pc: Pc, content: Option<Bytes>) {
    PcOf(s, 0) == pc && PcOf(s, 1) == Idle && Entry(s.disk.content, 0) == content && 1 !in s.disk.content
  }

  function JobOf(dest: Name, suffix: string): Job {
    Job(StagingName(dest, suffix), 0, [1])
  }

  // Call 0 has drawn the name, and then written its one byte and closed the file.
  ghost predicate Open(dest: Name, s: State, suffix: string, sweeps: map<Vid, string>) {
    && s.sweeps == sweeps && Names(dest, s, suffix, Some(0))
    && First(s, Filling(JobOf(dest, suffix), 0), Some([])) && Entry(s.disk.mtime, 0) == Some(s.disk.now)
  }

  ghost predicate Staged(dest: Name, s: State, suffix: string, sweeps: map<Vid, string>) {
    && s.sweeps == sweeps && Names(dest, s, suffix, Some(0))
    && First(s, Closed(JobOf(dest, suffix)), Some([1])) && Entry(s.disk.mtime, 0) == Some(s.disk.now)
  }

  lemma FirstDraws(dest: Name, s: State, suffix: string)
    requires Names(dest, s, suffix, None) && First(s, Idle, None)
    ensures Enabled(dest, s, Begin(0, [1]))
    ensures var s1 := Apply(dest, s, Begin(0, [1]));
      Enabled(dest, s1, Create(0, suffix, 0)) && Open(dest, Apply(dest, s1, Create(0, suffix, 0)), suffix, s.sweeps)
  {
  }

  lemma FirstOpens(dest: Name, care: Care, s0: State, s: State, suffix: string, known: set<Bytes>)
    requires care.Lax? || care.Timely?
    requires Reaches(dest, care, s0, s, known) && [1] in known
    requires Names(dest, s, suffix, None) && First(s, Idle, None)
    ensures exists s' :: Reaches(dest, care, s0, s', known) && Open(dest, s', suffix, s.sweeps)
  {
    var s1 := Apply(dest, s, Begin(0, [1]));
    FirstDraws(dest, s, suffix);
    ReachesNext(dest, care, s0, s, Begin(0, [1]), known);
    ReachesNext(dest, care, s0, s1, Create(0, suffix, 0), known);
  }

  lemma FirstFills(dest: Name, s: State, suffix: string, sweeps: map<Vid, string>)
    requires Open(dest, s, suffix, sweeps)
    ensures Enabled(dest, s, Fill(0, 1))
    ensures var s' := Apply(dest, s, Fill(0, 1));
      && s'.sweeps == sweeps && Names(dest, s', suffix, Some(0)) && Entry(s'.disk.mtime, 0) == Some(s'.disk.now)
      && First(s', Filling(JobOf(dest, suffix), 1), Some([1]))
  {
    var s' := Apply(dest, s, Fill(0, 1));
    assert s'.disk.content[0] == [1];
  }

  lemma FirstCloses(dest: Name, care: Care, s0: State, s: State, suffix: string, sweeps: map<Vid, string>,
      known: set<Bytes>)
    requires care.Lax? || care.Timely?
    requires Reaches(dest, care, s0, s, known) && Open(dest, s, suffix, sweeps)
    ensures exists s' :: Reaches(dest, care, s0, s', known) && Staged(dest, s', suffix, sweeps)
  {
    FirstFills(dest, s, suffix, sweeps);
    ReachesNext(dest, care, s0, s, Fill(0, 1), known);
    var s1 := Apply(dest, s, Fill(0, 1));
    ReachesNext(dest, care, s0, s1, Sync(0), known);
    var s2 := Apply(dest, s1, Sync(0));
    ReachesNext(dest, care, s0, s2, Close(0), known);
    assert Staged(dest, Apply(dest, s2, Close(0)), suffix, sweeps);
  }

  lemma FirstStages(dest: Name, care: Care, s0: State, s: State, suffix: string, known: set<Bytes>)
    requires care.Lax? || care.Timely?
    requires Reaches(dest, care, s0, s, known) && [1] in known
    requires Names(dest, s, suffix, None) && First(s, Idle, None)
    ensures exists s' :: Reaches(dest, care, s0, s', known) && Staged(dest, s', suffix, s.sweeps)
  {
    FirstOpens(dest, care, s0, s, suffix, known);
    var s1 :| Reaches(dest, care, s0, s1, known) && Open(dest, s1, suffix, s.sweeps);
    FirstCloses(dest, care, s0, s1, suffix, s.sweeps, known);
  }

  // The calls so far, whose file a sweep is about to remove.
  ghost predicate Doomed(dest: Name, s: State, suffix: string) {
    && 0 in s.sweeps && s.sweeps[0] == suffix && s.disk.since != []
    && First(s, Closed(JobOf(dest, suffix)), Some([1]))
  }

  ghost predicate Shows(dest: Name, s: State, data: Bytes) {
    s.disk.since != [] && View(s, dest) == Some(data)
  }

  // Call 1 has drawn the name call 0 is about to rename.
  predicate Redrawn(dest: Name, s: State, suffix: string) {
    && Names(dest, s, suffix, Some(1)) && Entry(s.disk.content, 1) == Some([])
    && PcOf(s, 0) == Closed(JobOf(dest, suffix))
    && PcOf(s, 1) == Filling(Job(StagingName(dest, suffix), 1, [2, 3]), 0)
  }

  // The sweep removes the name, call 1 draws it...
  lemma DoomedIsRedrawn(dest: Name, care: Care, s0: State, s: State, suffix: string, known: set<Bytes>)
    requires care.Lax? || care.Timely?
    requires Reaches(dest, care, s0, s, known) && Doomed(dest, s, suffix) && [2, 3] in known
    ensures exists s' :: Reaches(dest, care, s0, s', known) && Redrawn(dest, s', suffix)
  {
    ReachesNext(dest, care, s0, s, Remove(0, true), known);
    var s1 := Apply(dest, s, Remove(0, true));
    ReachesNext(dest, care, s0, s1, Begin(1, [2, 3]), known);
    var s2 := Apply(dest, s1, Begin(1, [2, 3]));
    ReachesNext(dest, care, s0, s2, Create(1, suffix, 1), known);
    assert Redrawn(dest, Apply(dest, s2, Create(1, suffix, 1)), suffix);
  }

  predicate HalfFilled(dest: Name, s: State, suffix: string) {
    && Names(dest, s, suffix, Some(1)) && Entry(s.disk.content, 1) == Some([2])
    && PcOf(s, 0) == Closed(JobOf(dest, suffix))
  }

  lemma FirstRenames(dest: Name, s: State, suffix: string)
    requires HalfFilled(dest, s, suffix)
    ensures Enabled(dest, s, Rename(0)) && Shows(dest, Apply(dest, s, Rename(0)), [2])
  {
  }

  // ... and call 0 renames when call 1 has written one byte of its two.
  lemma SecondFills(dest: Name, s: State, suffix: string)
    requires Redrawn(dest, s, suffix)
    ensures Enabled(dest, s, Fill(1, 1))
    ensures HalfFilled(dest, Apply(dest, s, Fill(1, 1)), suffix)
  {
    var s' := Apply(dest, s, Fill(1, 1));
    assert s'.disk.content[1] == [2];
  }

  lemma RedrawnIsTorn(dest: Name, care: Care, s0: State, s: State, suffix: string, known: set<Bytes>)
    requires care.Lax? || care.Timely?
    requires Reaches(dest, care, s0, s, known) && Redrawn(dest, s, suffix)
    ensures exists s' :: Reaches(dest, care, s0, s', known) && Shows(dest, s', [2])
  {
    SecondFills(dest, s, suffix);
    ReachesNext(dest, care, s0, s, Fill(1, 1), known);
    var s1 := Apply(dest, s, Fill(1, 1));
    FirstRenames(dest, s1, suffix);
    ReachesNext(dest, care, s0, s1, Rename(0), known);
  }

  lemma DoomedIsTorn(dest: Name, care: Care, s0: State, s: State, suffix: string, known: set<Bytes>)
    requires care.Lax? || care.Timely?
    requires Reaches(dest, care, s0, s, known) && Doomed(dest, s, suffix) && [2, 3] in known
    ensures exists s' :: Reaches(dest, care, s0, s', known) && Shows(dest, s', [2])
  {
    DoomedIsRedrawn(dest, care, s0, s, suffix, known);
    var s1 :| Reaches(dest, care, s0, s1, known) && Redrawn(dest, s1, suffix);
    RedrawnIsTorn(dest, care, s0, s1, suffix, known);
  }

  // The contents the calls of both runs are given; neither is the torn one.
  function Given(): set<Bytes> {
    {[1], [2, 3]}
  }

  lemma TornIsNotGiven()
    ensures [2] !in Given()
  {
    assert |[2, 3]| == 2;
  }

  // ------------------------------------------------------ one call that idles

  // A day after it was last written a file is looked at, whoever staged it.
  lemma IdleCallIsDoomed(dest: Name, s0: State, s: State, suffix: string, known: set<Bytes>)
    requires Reaches(dest, Lax, s0, s, known) && Staged(dest, s, suffix, map[])
    ensures exists s' :: Reaches(dest, Lax, s0, s', known) && Doomed(dest, s', suffix)
  {
    ReachesNext(dest, Lax, s0, s, Wait(STALE_AGE + 1), known);
    var s1 := Apply(dest, s, Wait(STALE_AGE + 1));
    ReachesNext(dest, Lax, s0, s1, Look(0, suffix), known);
    assert Doomed(dest, Apply(dest, s1, Look(0, suffix)), suffix);
  }

  lemma IdleCallIsTorn(dest: Name, s0: State, suffix: string, known: set<Bytes>)
    requires Reaches(dest, Lax, s0, s0, known) && [1] in known && [2, 3] in known
    requires s0.sweeps == map[] && Names(dest, s0, suffix, None) && First(s0, Idle, None)
    ensures exists s :: Reaches(dest, Lax, s0, s, known) && Shows(dest, s, [2])
  {
    FirstStages(dest, Lax, s0, s0, suffix, known);
    var s1 :| Reaches(dest, Lax, s0, s1, known) && Staged(dest, s1, suffix, map[]);
    IdleCallIsDoomed(dest, s0, s1, suffix, known);
    var s2 :| Reaches(dest, Lax, s0, s2, known) && Doomed(dest, s2, suffix);
    DoomedIsTorn(dest, Lax, s0, s2, suffix, known);
  }

  // The age rule does not see whether a call still runs. Once a call has idled
  // beyond it a sweep may take its file, a second call can draw the freed name,
  // and the first call's rename then publishes the second call's half-written
  // file: the destination shows what no call was given.
  lemma SweepingALiveFileTears(dest: Name, suffix: string)
    ensures exists s0, s ::
      IsInitial(dest, s0) && View(s0, dest) == None && Reaches(dest, Lax, s0, s, Given()) && Shows(dest, s, [2])
    ensures [2] !in Given()
  {
    TornIsNotGiven();
    var s0 := State(Disk(map[], {}, map[], [Snap(map[], 0)], 0), map[], map[], [None], 0);
    assert IsRun(dest, s0, [], s0, Lax);
    IdleCallIsTorn(dest, s0, suffix, Given());
  }

  // ------------------------------------------------- two sweeps, quick calls

  // A file abandoned more than a day ago.
  function Abandoned(dest: Name, suffix: string): State {
    State(Disk(map[9 := []], {9}, map[9 := 0], [Snap(map[StagingName(dest, suffix) := 9], 0)], STALE_AGE + 1),
          map[], map[], [None], 0)
  }

  lemma AbandonedIsAtRest(dest: Name, suffix: string)
    ensures var s0 := Abandoned(dest, suffix);
      IsInitial(dest, s0) && View(s0, dest) == None && Reaches(dest, Timely, s0, s0, Given())
  {
    var s0 := Abandoned(dest, suffix);
    assert IsRun(dest, s0, [], s0, Timely);
  }

  // Both sweeps look at it, and one of them removes it.
  ghost predicate Freed(dest: Name, s: State, suffix: string) {
    s.sweeps == map[0 := suffix] && Names(dest, s, suffix, None) && First(s, Idle, None)
  }

  lemma TwoSweepsLook(dest: Name, suffix: string)
    ensures var s0 := Abandoned(dest, suffix);
      && Enabled(dest, s0, Look(0, suffix)) && Heeds(dest, Timely, s0, Look(0, suffix))
      && var s1 := Apply(dest, s0, Look(0, suffix));
      && Enabled(dest, s1, Look(1, suffix)) && Heeds(dest, Timely, s1, Look(1, suffix))
      && var s2 := Apply(dest, s1, Look(1, suffix));
      && Enabled(dest, s2, Remove(1, true)) && Freed(dest, Apply(dest, s2, Remove(1, true)), suffix)
  {
    var s2 := Abandoned(dest, suffix).(sweeps := map[0 := suffix, 1 := suffix]);
    assert s2.sweeps - {1} == map[0 := suffix];
  }

  lemma OneIsFreed(dest: Name, suffix: string, known: set<Bytes>)
    requires Reaches(dest, Timely, Abandoned(dest, suffix), Abandoned(dest, suffix), known)
    ensures exists s :: Reaches(dest, Timely, Abandoned(dest, suffix), s, known) && Freed(dest, s, suffix)
  {
    var s0 := Abandoned(dest, suffix);
    TwoSweepsLook(dest, suffix);
    ReachesNext(dest, Timely, s0, s0, Look(0, suffix), known);
    var s1 := Apply(dest, s0, Look(0, suffix));
    ReachesNext(dest, Timely, s0, s1, Look(1, suffix), known);
    var s2 := Apply(dest, s1, Look(1, suffix));
    ReachesNext(dest, Timely, s0, s2, Remove(1, true), known);
  }

  lemma QuickCallIsTorn(dest: Name, s0: State, s: State, suffix: string, known: set<Bytes>)
    requires Reaches(dest, Timely, s0, s, known) && Freed(dest, s, suffix) && [1] in known && [2, 3] in known
    ensures exists s' :: Reaches(dest, Timely, s0, s', known) && Shows(dest, s', [2])
  {
    FirstStages(dest, Timely, s0, s, suffix, known);
    var s1 :| Reaches(dest, Timely, s0, s1, known) && Staged(dest, s1, suffix, s.sweeps);
    assert Doomed(dest, s1, suffix);
    DoomedIsTorn(dest, Timely, s0, s1, suffix, known);
  }

  // Being quick is not enough. Two sweeps find the same abandoned file; one
  // removes it and a call draws its name; the other then removes the live file,
  // a second call draws the name again, and the first publishes its half.
  lemma TwoSweepsTear(dest: Name, suffix: string)
    ensures exists s0, s ::
      IsInitial(dest, s0) && View(s0, dest) == None && Reaches(dest, Timely, s0, s, Given()) && Shows(dest, s, [2])
    ensures [2] !in Given()
  {
    TornIsNotGiven();
    AbandonedIsAtRest(dest, suffix);
    var s0 := Abandoned(dest, suffix);
    OneIsFreed(dest, suffix, Given());
    var s :| Reaches(dest, Timely, s0, s, Given()) && Freed(dest, s, suffix);
    QuickCallIsTorn(dest, s0, s, suffix, Given());
  }
}
