/**
  Two processes, or two requests, each setting one key of a project's overlay at
  the same time. Each call reads the file, and later replaces it with what it
  read and its own key; nothing makes the second read wait for the first write.
*/
module OverlayRace {
  import opened Common
  import opened SettingsTree

  datatype Call = Call(path: Path, value: Node)

  // `saw` says whether the other call had written when this one read.
  datatype Phase = Ready | Holding(doc: Node, saw: bool) | Done(saw: bool)

  datatype Who = A | B

  datatype State = State(file: Node, a: Phase, b: Phase, last: Who)

  datatype Step = Read(who: Who) | Write(who: Who)

  function PhaseOf(s: State, who: Who): Phase {
    if who.A? then s.a else s.b
  }

  function Other(who: Who): Who {
    if who.A? then B else A
  }

  function With(s: State, who: Who, phase: Phase): State {
    if who.A? then s.(a := phase) else s.(b := phase)
  }

  predicate Enabled(s: State, step: Step) {
    match step
    case Read(who) => PhaseOf(s, who).Ready?
    case Write(who) => PhaseOf(s, who).Holding? && PhaseOf(s, who).doc.Map?
  }

  function Apply(a: Call, b: Call, s: State, step: Step): State
    requires Enabled(s, step)
  {
    match step
    case Read(who) => With(s, who, Holding(s.file, PhaseOf(s, Other(who)).Done?))
    case Write(who) =>
      var call := if who.A? then a else b;
      With(s, who, Done(PhaseOf(s, who).saw)).(file := Put(PhaseOf(s, who).doc, call.path, call.value), last := who)
  }

  ghost predicate IsRun(a: Call, b: Call, s: State, steps: seq<Step>, end: State)
    decreases |steps|
  {
    if steps == [] then end == s
    else Enabled(s, steps[0]) && IsRun(a, b, Apply(a, b, s, steps[0]), steps[1..], end)
  }

  function Initial(base: Node): State {
    State(base, Ready, Ready, A)
  }

  // The document with one call's key written.
  function Alone(base: Node, call: Call): Node
    requires base.Map?
  {
    Put(base, call.path, call.value)
  }

  // What a call has read, the other's call being this one.
  predicate Honest(base: Node, phase: Phase, other: Phase, call: Call)
    requires base.Map?
  {
    && (phase.Holding? && !phase.saw ==> phase.doc == base)
    && (phase.Holding? && phase.saw ==> other.Done? && phase.doc == Alone(base, call))
    && (phase.Done? && phase.saw ==> other.Done?)
  }

  // What the file holds.
  predicate Holds(base: Node, a: Call, b: Call, s: State)
    requires base.Map? && a.path != [] && b.path != []
  {
    match (s.a, s.b)
    case (Done(sa), Done(sb)) =>
      && !(sa && sb) && (sa ==> s.last.A?) && (sb ==> s.last.B?)
      && s.file == if sa then Put(Alone(base, b), a.path, a.value)
                   else if sb then Put(Alone(base, a), b.path, b.value)
                   else Alone(base, if s.last.A? then a else b)
    case (Done(sa), _) => !sa && s.file == Alone(base, a)
    case (_, Done(sb)) => !sb && s.file == Alone(base, b)
    case _ => s.file == base
  }

  predicate Inv(base: Node, a: Call, b: Call, s: State)
    requires base.Map? && a.path != [] && b.path != []
  {
    Honest(base, s.a, s.b, b) && Honest(base, s.b, s.a, a) && Holds(base, a, b, s)
  }

  lemma StepKeepsInv(base: Node, a: Call, b: Call, s: State, step: Step)
    requires base.Map? && a.path != [] && b.path != [] && Inv(base, a, b, s) && Enabled(s, step)
    ensures Inv(base, a, b, Apply(a, b, s, step))
  {
  }

  lemma {:induction false} RunKeepsInv(base: Node, a: Call, b: Call, s: State, steps: seq<Step>, end: State)
    requires base.Map? && a.path != [] && b.path != [] && Inv(base, a, b, s) && IsRun(a, b, s, steps, end)
    ensures Inv(base, a, b, end)
    decreases |steps|
  {
    if steps != [] {
      StepKeepsInv(base, a, b, s, steps[0]);
      RunKeepsInv(base, a, b, Apply(a, b, s, steps[0]), steps[1..], end);
    }
  }

  predicate Survives(file: Node, call: Call) {
    Lookup(file, call.path) == Some(call.value)
  }

  // Two calls that set keys apart from each other both survive if and only if
  // one of them read the file after the other had written it, or the one that
  // wrote first had set what the file said before.
  lemma BothKeysSurviveIff(base: Node, a: Call, b: Call, steps: seq<Step>, end: State)
    requires base.Map? && a.path != [] && b.path != [] && Apart(a.path, b.path)
    requires IsRun(a, b, Initial(base), steps, end) && end.a.Done? && end.b.Done?
    ensures Survives(end.file, a) && Survives(end.file, b) <==>
      end.a.saw || end.b.saw || Survives(base, if end.last.A? then b else a)
    ensures Survives(end.file, if end.last.A? then a else b)
  {
    RunKeepsInv(base, a, b, Initial(base), steps, end);
    var first, last := if end.last.A? then b else a, if end.last.A? then a else b;
    var before := if end.a.saw || end.b.saw then Alone(base, first) else base;
    assert end.file == Put(before, last.path, last.value);
    PutReadsBack(before, last.path, last.value);
    PutLeavesTheRest(before, last.path, last.value, first.path);
    PutReadsBack(base, first.path, first.value);
  }
}
