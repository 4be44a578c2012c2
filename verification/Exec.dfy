/** The executor: actions in plan order, dependency deferral, and the calls each action makes. */
module Exec {
  import opened Owned
  import opened Desired
  import opened Plan
  import opened World
  import Vm

  datatype Applied = Applied(world: World, ok: bool, didStop: bool)

  datatype Result = Result(action: Action, ok: bool, deferred: bool, didStop: bool)

  function LocOf(a: Action): Loc { Loc(a.node, a.id) }

  function FamilyOf(k: Kind): Family { if k == VM || k == TemplateVM then Qemu else Ct }

  function Finish(o: Outcome, didStop: bool): Applied { Applied(o.world, o.ok, didStop) }

  /** Stop, write, restore power. */
  function ApplyUpdate(w: World, a: Action): Applied {
    var stop := a.stopFirst && a.livePower == RUNNING;
    var s := if stop then Do(w, LocOf(a), StopObj) else Outcome(w, true);
    if !s.ok then Applied(s.world, false, false)
    else if ArtifactKind(a.kind) then Applied(s.world, false, stop)
    else
      var c := Do(s.world, LocOf(a), WriteConfig(a.params, a.deletes));
      if !c.ok || !stop || a.desiredPower != STARTED then Finish(c, stop)
      else Finish(Do(c.world, LocOf(a), StartObj), true)
  }

  function ApplyDelete(w: World, a: Action): Applied {
    if a.livePower != RUNNING then Finish(Do(w, LocOf(a), Destroy), false)
    else
      var s := Do(w, LocOf(a), StopObj);
      if !s.ok then Applied(s.world, false, false) else Finish(Do(s.world, LocOf(a), Destroy), true)
  }

  function FileOf(a: Action): LiveKey {
    FileKey(a.node, a.kind, Get(a.params, Dev("storage")), Get(a.params, Dev("filename")))
  }

  predicate Downloadable(a: Action) {
    Get(a.params, Dev("storage")) != "" && Get(a.params, Dev("url")) != "" && Get(a.params, Dev("filename")) != ""
  }

  /** Create, then promote. */
  function CreateTemplate(w: World, a: Action): Outcome {
    var c := Do(w, LocOf(a), CreateObj(FamilyOf(a.kind), a.params, false));
    if !c.ok then c else Do(c.world, LocOf(a), SetTemplate)
  }

  /** Full clone, read back, then the manifest's own values over the inherited ones. */
  function CloneCreate(w: World, a: Action): Outcome {
    if a.cloneSource == a.id then Outcome(w, false)
    else
      var c := Do(w, Loc(a.node, a.cloneSource), CloneTo(a.id, a.name));
      if !c.ok then c
      else
        var r := Do(c.world, LocOf(a), ReadConfig);
        if !r.ok || LocOf(a) !in r.world.site.objs then Outcome(r.world, false)
        else
          var live := r.world.site.objs[LocOf(a)].config;
          Do(r.world, LocOf(a), WriteConfig(Vm.CloneBody(a.params, live), a.deletes))
  }

  function ApplyCreate(w: World, a: Action): Outcome {
    if ArtifactKind(a.kind) then
      if Downloadable(a) then Do(w, LocOf(a), Download(FileOf(a))) else Outcome(w, false)
    else if a.kind == TemplateVM || a.kind == TemplateCT then CreateTemplate(w, a)
    else if a.kind == VM && a.cloneSource != 0 then CloneCreate(w, a)
    else Do(w, LocOf(a), CreateObj(FamilyOf(a.kind), a.params, a.desiredPower == STARTED))
  }

  /** One action against PVE. */
  function Apply(w: World, a: Action): Applied {
    match a.what
    case Delete => ApplyDelete(w, a)
    case Update => ApplyUpdate(w, a)
    case Create => Finish(ApplyCreate(w, a), false)
    case MarkTemplate => Finish(Do(w, LocOf(a), SetTemplate), false)
    case Start => Finish(Do(w, LocOf(a), StartObj), false)
    case Stop => var s := Do(w, LocOf(a), StopObj); Finish(s, s.ok)
    case StatusOnly => Applied(w, true, false)
    case Report => Applied(w, false, false)
  }

  // ----- a run -----

  /** A prerequisite that failed on a node. */
  datatype Failure = Failure(ref: Ref, node: string)

  predicate Named(ref: Ref) { ref.kind != Other("") && ref.name != "" }

  predicate Deferred(a: Action, failed: set<Failure>) {
    exists d | d in a.deps :: Named(d) && Failure(d, a.node) in failed
  }

  function FailedAfter(a: Action, ok: bool, failed: set<Failure>): set<Failure> {
    if !ok && Named(a.ref) then failed + {Failure(a.ref, a.node)} else failed
  }

  datatype RunResult = RunResult(world: World, results: seq<Result>, failed: set<Failure>)

  function Run(w: World, actions: seq<Action>, failed: set<Failure>): (r: RunResult)
    ensures |r.results| == |actions|
    decreases |actions|
  {
    if actions == [] then RunResult(w, [], failed)
    else if Deferred(actions[0], failed) then
      var rest := Run(w, actions[1..], failed);
      RunResult(rest.world, [Result(actions[0], false, true, false)] + rest.results, rest.failed)
    else
      var one := Apply(w, actions[0]);
      var rest := Run(one.world, actions[1..], FailedAfter(actions[0], one.ok, failed));
      RunResult(rest.world, [Result(actions[0], one.ok, false, one.didStop)] + rest.results, rest.failed)
  }

  lemma {:induction false} RunSplit(w: World, a: seq<Action>, b: seq<Action>, failed: set<Failure>)
    ensures var first := Run(w, a, failed); var second := Run(first.world, b, first.failed);
            Run(w, a + b, failed) == RunResult(second.world, first.results + second.results, second.failed)
    decreases |a|
  {
    hide Apply, Deferred, FailedAfter, Run;
    if a == [] {
      assert a + b == b;
      RunNone(w, failed);
    } else {
      assert (a + b)[1..] == a[1..] + b && (a + b)[0] == a[0];
      RunHead(w, a, failed);
      RunHead(w, a + b, failed);
      var d, one := Deferred(a[0], failed), Apply(w, a[0]);
      RunSplit(if d then w else one.world, a[1..], b, if d then failed else FailedAfter(a[0], one.ok, failed));
    }
  }

  lemma RunNone(w: World, failed: set<Failure>)
    ensures Run(w, [], failed) == RunResult(w, [], failed)
  {
  }

  lemma RunHead(w: World, a: seq<Action>, failed: set<Failure>)
    requires a != []
    ensures var d, one := Deferred(a[0], failed), Apply(w, a[0]);
            var rest := Run(if d then w else one.world, a[1..], if d then failed else FailedAfter(a[0], one.ok, failed));
            Run(w, a, failed) == RunResult(rest.world,
              [if d then Result(a[0], false, true, false) else Result(a[0], one.ok, false, one.didStop)] + rest.results, rest.failed)
  {
    hide Apply, Deferred, FailedAfter;
  }

  /** One result per action, in plan order; a deferred action never counts as done. */
  lemma {:induction false} ResultsAlign(w: World, actions: seq<Action>, failed: set<Failure>)
    ensures forall i | 0 <= i < |actions| ::
              var r := Run(w, actions, failed).results[i]; r.action == actions[i] && (r.deferred ==> !r.ok)
    decreases |actions|
  {
    hide Apply, Deferred, FailedAfter, Run;
    if actions != [] {
      RunHead(w, actions, failed);
      var d, one := Deferred(actions[0], failed), Apply(w, actions[0]);
      ResultsAlign(if d then w else one.world, actions[1..], if d then failed else FailedAfter(actions[0], one.ok, failed));
    }
  }

  /** The run just before action i: the world it meets and the failures so far. */
  function Upto(w: World, actions: seq<Action>, i: nat): RunResult
    requires i <= |actions|
  {
    Run(w, actions[..i], {})
  }

  /** How action i fares in the whole run. */
  lemma StepAt(w: World, actions: seq<Action>, i: nat)
    requires i < |actions|
    ensures var before := Upto(w, actions, i); var r := Run(w, actions, {}).results[i];
            if Deferred(actions[i], before.failed) then r == Result(actions[i], false, true, false) && Upto(w, actions, i + 1) == RunResult(before.world, before.results + [r], before.failed)
            else var one := Apply(before.world, actions[i]);
                 r == Result(actions[i], one.ok, false, one.didStop)
                 && Upto(w, actions, i + 1) == RunResult(one.world, before.results + [r], FailedAfter(actions[i], one.ok, before.failed))
    ensures Upto(w, actions, i).results == Run(w, actions, {}).results[..i]
  {
    hide Apply, Deferred, FailedAfter, Run;
    var before := Upto(w, actions, i);
    assert actions == actions[..i] + actions[i..];
    assert actions[..i + 1] == actions[..i] + [actions[i]];
    RunSplit(w, actions[..i], actions[i..], {});
    RunSplit(w, actions[..i], [actions[i]], {});
    RunHead(before.world, actions[i..], before.failed);
    RunOne(before.world, actions[i], before.failed);
    var tail := Run(before.world, actions[i..], before.failed);
    assert Run(w, actions, {}).results[i] == tail.results[0];
  }

  lemma RunOne(w: World, a: Action, failed: set<Failure>)
    ensures Run(w, [a], failed) ==
            if Deferred(a, failed) then RunResult(w, [Result(a, false, true, false)], failed)
            else var one := Apply(w, a); RunResult(one.world, [Result(a, one.ok, false, one.didStop)], FailedAfter(a, one.ok, failed))
  {
    hide Apply, Deferred, FailedAfter;
  }

  // ----- deferral -----

  /** An earlier action of `ref` on `node` was executed and failed. */
  predicate FailedBefore(results: seq<Result>, i: nat, ref: Ref, node: string)
    requires i <= |results|
  {
    exists j | 0 <= j < i :: !results[j].deferred && !results[j].ok && results[j].action.ref == ref && results[j].action.node == node
  }

  lemma {:induction false} FailuresAre(w: World, actions: seq<Action>, i: nat, f: Failure)
    requires i <= |actions|
    ensures f in Upto(w, actions, i).failed <==> Named(f.ref) && FailedBefore(Run(w, actions, {}).results, i, f.ref, f.node)
  {
    hide Apply, Deferred, Run, Named;
    ResultsAlign(w, actions, {});
    if i == 0 {
      EmptyRun(w, actions);
    } else {
      FailuresAre(w, actions, i - 1, f);
      StepAt(w, actions, i - 1);
      var results := Run(w, actions, {}).results;
      var r := results[i - 1];
      if FailedBefore(results, i - 1, f.ref, f.node) {
        var j :| 0 <= j < i - 1 && !results[j].deferred && !results[j].ok && results[j].action.ref == f.ref && results[j].action.node == f.node;
        assert 0 <= j < i;
      }
      if !r.deferred && !r.ok && r.action.ref == f.ref && r.action.node == f.node {
        assert 0 <= i - 1 < i;
      }
    }
  }

  lemma EmptyRun(w: World, actions: seq<Action>)
    ensures Upto(w, actions, 0) == RunResult(w, [], {})
  {
    assert actions[..0] == [];
  }

  /** Deferral is exactly one hop: an action is deferred when a direct prerequisite was executed on
      its node earlier in the run and failed, and never because a prerequisite was deferred. */
  lemma DeferralExact(w: World, actions: seq<Action>, i: nat)
    requires i < |actions|
    ensures var results := Run(w, actions, {}).results;
            results[i].deferred <==> exists d | d in actions[i].deps :: Named(d) && FailedBefore(results, i, d, actions[i].node)
  {
    hide Apply, Run, Named;
    StepAt(w, actions, i);
    forall d | d in actions[i].deps
      ensures Failure(d, actions[i].node) in Upto(w, actions, i).failed <==>
              Named(d) && FailedBefore(Run(w, actions, {}).results, i, d, actions[i].node)
    {
      FailuresAre(w, actions, i, Failure(d, actions[i].node));
    }
  }
}
