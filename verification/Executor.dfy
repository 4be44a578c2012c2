/** The executor as an object: PVE calls in sequence, status records and counters along the way. */
module Executor {
  import opened Text
  import opened Desired
  import opened Seqs
  import opened Plan
  import opened World
  import opened Exec
  import opened Status
  import Vm

  function Executed(rs: seq<Result>, ok: bool): nat { |Filter(rs, (r: Result) => !r.deferred && r.ok == ok)| }

  function PrunedOk(rs: seq<Result>): nat { |Filter(rs, (r: Result) => !r.deferred && r.ok && r.action.prune)| }

  function DeferredCount(rs: seq<Result>): nat { |Filter(rs, (r: Result) => r.deferred)| }

  /** The counters after the results `rs` were recorded. */
  function Counted(c: Option<Cycle>, rs: seq<Result>): Option<Cycle> {
    if c.None? then None
    else Some(c.value.(actionsOk := c.value.actionsOk + Executed(rs, true),
                       actionsError := c.value.actionsError + Executed(rs, false),
                       pruned := c.value.pruned + PrunedOk(rs)))
  }

  function WithDeferred(c: Option<Cycle>, n: nat): Option<Cycle> {
    if c.None? then None else Some(c.value.(pruneDeferred := c.value.pruneDeferred + n))
  }

  lemma CountedSnoc(c: Option<Cycle>, rs: seq<Result>, r: Result)
    ensures Counted(c, rs + [r]) ==
            if c.None? then None
            else var before := Counted(c, rs).value;
                 Some(before.(actionsOk := before.actionsOk + (if !r.deferred && r.ok then 1 else 0),
                              actionsError := before.actionsError + (if !r.deferred && !r.ok then 1 else 0),
                              pruned := before.pruned + (if !r.deferred && r.ok && r.action.prune then 1 else 0)))
  {
    FilterSnoc(rs, r, (x: Result) => !x.deferred && x.ok == true);
    FilterSnoc(rs, r, (x: Result) => !x.deferred && x.ok == false);
    FilterSnoc(rs, r, (x: Result) => !x.deferred && x.ok && x.action.prune);
  }

  class Runner {
    const pve: Pve
    const store: Store
    const cluster: string

    constructor (pve: Pve, store: Store, cluster: string)
      ensures this.pve == pve && this.store == store && this.cluster == cluster
    {
      this.pve, this.store, this.cluster := pve, store, cluster;
    }

    method Update(a: Action) returns (ok: bool, didStop: bool)
      modifies pve
      ensures Applied(pve.world, ok, didStop) == ApplyUpdate(old(pve.world), a)
    {
      hide Do;
      didStop := false;
      if a.stopFirst && a.livePower == RUNNING {
        didStop := pve.Request(LocOf(a), StopObj);
        if !didStop {
          return false, false;
        }
      }
      if ArtifactKind(a.kind) {
        return false, didStop;
      }
      ok := pve.Request(LocOf(a), WriteConfig(a.params, a.deletes));
      if !ok {
        return;
      }
      if didStop && a.desiredPower == STARTED {
        ok := pve.Request(LocOf(a), StartObj);
      }
    }

    method Remove(a: Action) returns (ok: bool, didStop: bool)
      modifies pve
      ensures Applied(pve.world, ok, didStop) == ApplyDelete(old(pve.world), a)
    {
      hide Do;
      didStop := false;
      if a.livePower == RUNNING {
        didStop := pve.Request(LocOf(a), StopObj);
        if !didStop {
          return false, false;
        }
      }
      ok := pve.Request(LocOf(a), Destroy);
    }

    method CloneCreate(a: Action) returns (ok: bool)
      modifies pve
      ensures Outcome(pve.world, ok) == Exec.CloneCreate(old(pve.world), a)
    {
      hide Do, Vm.CloneBody;
      if a.cloneSource == a.id {
        return false;
      }
      ok := pve.Request(Loc(a.node, a.cloneSource), CloneTo(a.id, a.name));
      if !ok {
        return;
      }
      ok := pve.Request(LocOf(a), ReadConfig);
      if !ok || LocOf(a) !in pve.world.site.objs {
        return false;
      }
      var body := Vm.CloneBody(a.params, pve.Config(LocOf(a)));
      ok := pve.Request(LocOf(a), WriteConfig(body, a.deletes));
    }

    method CreateObject(a: Action) returns (ok: bool)
      modifies pve
      ensures Outcome(pve.world, ok) == ApplyCreate(old(pve.world), a)
    {
      hide Do;
      if ArtifactKind(a.kind) {
        if !Downloadable(a) {
          return false;
        }
        ok := pve.Request(LocOf(a), Download(FileOf(a)));
        return;
      }
      if a.kind == TemplateVM || a.kind == TemplateCT {
        ok := pve.Request(LocOf(a), CreateObj(FamilyOf(a.kind), a.params, false));
        if !ok {
          return;
        }
        ok := pve.Request(LocOf(a), SetTemplate);
        return;
      }
      if a.kind == VM && a.cloneSource != 0 {
        ok := CloneCreate(a);
        return;
      }
      ok := pve.Request(LocOf(a), CreateObj(FamilyOf(a.kind), a.params, a.desiredPower == STARTED));
    }

    /** One action against PVE. */
    method ApplyAction(a: Action) returns (ok: bool, didStop: bool)
      modifies pve
      ensures Applied(pve.world, ok, didStop) == Apply(old(pve.world), a)
    {
      hide Do, ApplyUpdate, ApplyDelete, ApplyCreate;
      didStop := false;
      match a.what
      case Delete => ok, didStop := Remove(a);
      case Update => ok, didStop := Update(a);
      case Create => ok := CreateObject(a);
      case MarkTemplate => ok := pve.Request(LocOf(a), SetTemplate);
      case Start => ok := pve.Request(LocOf(a), StartObj);
      case Stop =>
        ok := pve.Request(LocOf(a), StopObj);
        didStop := ok;
      case StatusOnly => ok := true;
      case Report => ok := false;
    }

    /** One action with its status records and counters. */
    method Execute(a: Action) returns (r: Result)
      modifies pve, store
      ensures var one := Apply(old(pve.world), a);
              pve.world == one.world && r == Result(a, one.ok, false, one.didStop)
      ensures store.last == Counted(old(store.last), [r])
    {
      hide Apply;
      store.SetObject(Record("", a.kind, a.name, a.node, a.id, InProgress));
      var ok, didStop := ApplyAction(a);
      var state := if !ok then Failed else if a.what == Delete then State.Pruned else State.Converged;
      store.SetObject(Record(cluster, a.kind, a.name, a.node, a.id, state));
      if ok {
        if a.prune {
          store.BumpPruned();
        }
        store.BumpActionsOk();
      } else {
        store.BumpActionsError();
      }
      r := Result(a, ok, false, didStop);
      CountedSnoc(old(store.last), [], r);
      assert [] + [r] == [r];
    }

    /** Every action of the plan in order, with dependency deferral; one result per action. */
    method RunPlan(p: Plan) returns (results: seq<Result>)
      modifies pve, store
      ensures var run := Run(old(pve.world), p.actions, {}); results == run.results && pve.world == run.world
      ensures store.last == WithDeferred(Counted(old(store.last), results), |p.deferred|)
    {
      hide Apply, Run, Exec.Deferred, FailedAfter, Counted, WithDeferred;
      results := [];
      var failed: set<Failure> := {};
      ghost var w, c := pve.world, store.last;
      EmptyRun(w, p.actions);
      NothingCounted(c);
      for i := 0 to |p.actions|
        invariant Upto(w, p.actions, i) == RunResult(pve.world, results, failed)
        invariant store.last == Counted(c, results)
      {
        var a := p.actions[i];
        StepAt(w, p.actions, i);
        if Exec.Deferred(a, failed) {
          var r := Result(a, false, true, false);
          store.SetObject(Record(cluster, a.kind, a.name, a.node, a.id, Skipped));
          DeferredUncounted(c, results, r);
          results := results + [r];
        } else {
          var r := Execute(a);
          CountedOne(c, results, r);
          results := results + [r];
          failed := FailedAfter(a, r.ok, failed);
        }
      }
      assert p.actions[..|p.actions|] == p.actions;
      RecordDeferred(p);
    }

    method RecordDeferred(p: Plan)
      modifies store
      ensures store.last == WithDeferred(old(store.last), |p.deferred|)
    {
      for i := 0 to |p.deferred|
        invariant store.last == WithDeferred(old(store.last), i)
      {
        var a := p.deferred[i];
        store.SetObject(Record("", a.kind, a.name, a.node, a.id, Skipped));
        store.BumpPruneDeferred();
      }
    }
  }

  lemma NothingCounted(c: Option<Cycle>)
    ensures Counted(c, []) == c
  {
  }

  lemma DeferredUncounted(c: Option<Cycle>, rs: seq<Result>, r: Result)
    requires r.deferred
    ensures Counted(c, rs + [r]) == Counted(c, rs)
  {
    CountedSnoc(c, rs, r);
  }

  lemma CountedOne(c: Option<Cycle>, rs: seq<Result>, r: Result)
    ensures Counted(Counted(c, rs), [r]) == Counted(c, rs + [r])
  {
    CountedSnoc(c, rs, r);
    CountedSnoc(Counted(c, rs), [], r);
    assert [] + [r] == [r];
  }

  // ----- honest accounting -----

  /** Every result is executed and fine, executed and failed, or deferred. */
  lemma ResultsSplit(w: World, p: Plan)
    ensures var rs := Run(w, p.actions, {}).results;
            |rs| == |p.actions| && Executed(rs, true) + Executed(rs, false) + DeferredCount(rs) == |rs|
  {
    hide Run;
    CountSplit(Run(w, p.actions, {}).results);
  }

  lemma {:induction false} CountSplit(rs: seq<Result>)
    ensures Executed(rs, true) + Executed(rs, false) + DeferredCount(rs) == |rs|
  {
    if rs != [] {
      CountSplit(rs[1..]);
    }
  }

  lemma {:induction false} ErrorCounted(rs: seq<Result>, i: nat)
    requires i < |rs| && !rs[i].deferred && !rs[i].ok
    ensures Executed(rs, false) > 0
  {
    if i > 0 {
      ErrorCounted(rs[1..], i - 1);
    }
  }

  /** "Converged" hides nothing: when no executed action failed, none was deferred either, so every
      result is OK. */
  lemma NoErrorMeansAllOk(w: World, p: Plan)
    requires Executed(Run(w, p.actions, {}).results, false) == 0
    ensures forall i | 0 <= i < |p.actions| :: Run(w, p.actions, {}).results[i].ok
  {
    hide Run, Executed, Named;
    var rs := Run(w, p.actions, {}).results;
    forall i | 0 <= i < |p.actions| ensures rs[i].ok {
      DeferralExact(w, p.actions, i);
      if rs[i].deferred {
        var d :| d in p.actions[i].deps && Named(d) && FailedBefore(rs, i, d, p.actions[i].node);
        var j :| 0 <= j < i && !rs[j].deferred && !rs[j].ok && rs[j].action.ref == d && rs[j].action.node == p.actions[i].node;
        ErrorCounted(rs, j);
      } else if !rs[i].ok {
        ErrorCounted(rs, i);
      }
    }
  }
}
