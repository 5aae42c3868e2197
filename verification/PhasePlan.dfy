/**
  The plan a scan's options lead to, and what --only and --skip make of it.
*/
module PhasePlan {
  import opened Common
  import opened PhaseSelection

  datatype Step = Step(phase: Id, enabled: bool, skipsTarget: bool)

  // Some enabled step sends a request to the target.
  predicate Sends(steps: seq<Step>) {
    exists i :: 0 <= i < |steps| && steps[i].enabled && !steps[i].skipsTarget
  }

  method SendsTargetTraffic(steps: seq<Step>) returns (r: bool)
    ensures r == Sends(steps)
  {
    for i := 0 to |steps|
      invariant forall k :: 0 <= k < i ==> !(steps[k].enabled && !steps[k].skipsTarget)
    {
      if steps[i].enabled && !steps[i].skipsTarget { return true; }
    }
    r := false;
  }

  predicate SkipsName(w: Words, skips: seq<string>, id: Id) {
    exists i :: 0 <= i < |skips| && Normalize(w, skips[i]) == w.name(id)
  }

  predicate MinesParameters(w: Words, o: Options) {
    && !o.gates.skipAssessment && !SkipsName(w, o.skips, ParamMining)
    && match o.asked.paramMining
       case Some(on) => on
       case None => o.asked.deep && o.only == ""
  }

  const ORDER: seq<Id> := [
    HeuristicsCheck, PortSweep, ExternalHarvest, HarvestProbe, Spidering, Probe, Fingerprint, Discovery,
    TargetedRespider, Seed, ParamMining, DynamicAssessment, KnownIssueScan
  ]

  // A step's own gate; the harvest probe's is looked at when the list is built.
  predicate Gate(w: Words, o: Options, id: Id) {
    var g := o.gates;
    match id
    case HeuristicsCheck => !(g.heuristics in {Blank, Off})
    case PortSweep => !g.skipPortSweep &&
        (o.asked.followSubdomains || o.asked.deep || w.name(PortSweep) in OnlyNames(w, o.only))
    case ExternalHarvest => g.harvest
    case Spidering => g.spider
    case Probe => g.probe
    case Fingerprint => g.fingerprint
    case Discovery => !g.skipIngestion
    case TargetedRespider =>
      g.spider && !g.skipIngestion && !g.skipRespider &&
        (!g.skipAssessment || w.name(TargetedRespider) in OnlyNames(w, o.only))
    case Seed => g.skipIngestion && !o.asked.scanOnReceive && (g.issues || !g.skipAssessment)
    case ParamMining => MinesParameters(w, o)
    case DynamicAssessment => !g.skipAssessment
    case KnownIssueScan => g.issues
    case _ => false
  }

  // Harvesting asks third parties about the target and never contacts it.
  function Gated(w: Words, o: Options): seq<Step> {
    Map(ORDER, id => Step(id, Gate(w, o, id), id == ExternalHarvest))
  }

  // Every harvest probe is on when harvesting is, and a step behind it sends.
  function Probed(steps: seq<Step>, may: bool): (r: seq<Step>)
    ensures |r| == |steps|
  {
    if steps == [] then []
    else
      var first := if steps[0].phase == HarvestProbe then steps[0].(enabled := may && Sends(steps[1..])) else steps[0];
      [first] + Probed(steps[1..], may)
  }

  function Plan(w: Words, o: Options): seq<Step> {
    Probed(Gated(w, o), o.gates.harvest && !SkipsName(w, o.skips, HarvestProbe))
  }

  method SkipListNames(w: Words, skips: seq<string>, id: Id) returns (r: bool)
    ensures r == SkipsName(w, skips, id)
  {
    for i := 0 to |skips|
      invariant forall k :: 0 <= k < i ==> Normalize(w, skips[k]) != w.name(id)
    {
      if Normalize(w, skips[i]) == w.name(id) { return true; }
    }
    r := false;
  }

  lemma {:induction false} ProbedAt(steps: seq<Step>, may: bool, i: nat)
    requires i < |steps|
    ensures Probed(steps, may)[i]
            == if steps[i].phase == HarvestProbe then steps[i].(enabled := may && Sends(steps[i + 1..])) else steps[i]
  {
    if i > 0 {
      ProbedAt(steps[1..], may, i - 1);
      assert steps[1..][i - 1 + 1..] == steps[i + 1..];
    }
  }

  method GateHarvestProbe(steps: array<Step>, w: Words, harvest: bool, skips: seq<string>)
    modifies steps
    ensures steps[..] == Probed(old(steps[..]), harvest && !SkipsName(w, skips, HarvestProbe))
  {
    ghost var was := steps[..];
    ghost var may := harvest && !SkipsName(w, skips, HarvestProbe);
    var i := 0;
    while i < steps.Length
      invariant 0 <= i <= steps.Length == |was|
      invariant steps[i..] == was[i..]
      invariant forall k :: 0 <= k < i ==> steps[k] == Probed(was, may)[k]
    {
      ProbedAt(was, may, i);
      assert steps[i] == was[i] && steps[i + 1..] == was[i + 1..];
      if steps[i].phase == HarvestProbe {
        var skipped := SkipListNames(w, skips, HarvestProbe);
        var sends := SendsTargetTraffic(steps[i + 1..]);
        steps[i] := steps[i].(enabled := harvest && !skipped && sends);
      }
      i := i + 1;
    }
    assert steps[..] == Probed(was, may);
  }

  method BuildPlan(w: Words, o: Options) returns (plan: seq<Step>)
    ensures plan == Plan(w, o)
  {
    var first := Gated(w, o);
    var steps := new Step[|first|](i requires 0 <= i < |first| => first[i]);
    assert steps[..] == first;
    GateHarvestProbe(steps, w, o.gates.harvest, o.skips);
    plan := steps[..];
  }

  // ------------------------------------------------- the harvest probe

  lemma SendsFirst(steps: seq<Step>)
    requires steps != []
    ensures Sends(steps) <==> (steps[0].enabled && !steps[0].skipsTarget) || Sends(steps[1..])
  {
    if Sends(steps) {
      var i :| 0 <= i < |steps| && steps[i].enabled && !steps[i].skipsTarget;
      if i > 0 { assert steps[1..][i - 1] == steps[i]; }
    }
    if Sends(steps[1..]) {
      var i :| 0 <= i < |steps[1..]| && steps[1..][i].enabled && !steps[1..][i].skipsTarget;
      assert steps[i + 1] == steps[1..][i];
    }
  }

  // Probing the harvest never makes a plan that leaves the target alone send.
  lemma {:induction false} ProbingKeepsSilence(steps: seq<Step>, may: bool)
    requires forall i :: 0 <= i < |steps| && steps[i].phase == HarvestProbe ==> !steps[i].enabled
    ensures Sends(Probed(steps, may)) <==> Sends(steps)
  {
    if steps != [] {
      ProbingKeepsSilence(steps[1..], may);
      SendsFirst(steps);
      SendsFirst(Probed(steps, may));
      assert Probed(steps, may)[1..] == Probed(steps[1..], may);
    }
  }
}
