/** Safety of whole runs under arbitrary call failures: dependency safety and power safety. */
module ExecSafety {
  import opened Text
  import opened Owned
  import opened Graph
  import opened Desired
  import opened Seqs
  import opened Plan
  import opened PlanSafety
  import opened World
  import opened Exec
  import opened Live
  import opened Local

  // ----- dependencies -----

  /** End to end: in the plan of an accepted index, when an action of a direct prerequisite was
      executed and failed on a node, the dependent guest's create or mark on that node is never
      executed in this run. */
  lemma DependencySafety(desired: seq<Resource>, live: LiveInventory, o: Options, p: Plan, g: Graph<Ref>, w: World, i: nat, j: nat)
    requires hide *; IsPlan(desired, live, o, p) && FromIndex(o, g)
    requires i < |p.actions| && j < |p.actions|
    requires p.actions[i].tier == 0 && p.actions[j].tier == 0
    requires p.actions[j].what in {Create, MarkTemplate} && !ArtifactKind(p.actions[j].kind)
    requires forall r | r in desired :: IsGuest(r) || ArtifactKind(r.kind)
    requires p.actions[j].ref in g && p.actions[i].ref in g[p.actions[j].ref] && Named(p.actions[i].ref)
    requires p.actions[i].node == p.actions[j].node
    requires var r := Run(w, p.actions, {}).results[i]; !r.deferred && !r.ok
    ensures Run(w, p.actions, {}).results[j].deferred
  {
    hide IsPlan, FromIndex, Run, PlannedFor, Named;
    DependencyOrder(desired, live, o, p, g, i, j);
    TierZeroLevel(desired, live, o, p, p.actions[j]);
    var r :| r in desired && PlannedFor(p.actions[j], r, o);
    DepsOf(p.actions[j], r, o);
    EdgesOfIndex(o, g, p.actions[j].ref);
    ResultsAlign(w, p.actions, {});
    DeferralExact(w, p.actions, j);
    FailedAt(Run(w, p.actions, {}).results, i, j);
  }

  lemma FailedAt(results: seq<Result>, i: nat, j: nat)
    requires i < j <= |results| && !results[i].deferred && !results[i].ok
    ensures FailedBefore(results, j, results[i].action.ref, results[i].action.node)
  {
  }

  lemma EdgesOfIndex(o: Options, g: Graph<Ref>, ref: Ref)
    requires FromIndex(o, g) && ref in g
    ensures EdgesIn(o, ref) == g[ref]
  {
    hide IsLevel, Acyclic;
  }

  lemma DepsOf(a: Action, r: Resource, o: Options)
    requires PlannedFor(a, r, o) && a.what in {Create, MarkTemplate} && !ArtifactKind(a.kind)
    requires IsGuest(r) || ArtifactKind(r.kind)
    ensures a.deps == EdgesIn(o, a.ref)
  {
  }

  // ----- frames -----

  function ObjAt(s: Site, loc: Loc): Option<Obj> { if loc in s.objs then Some(s.objs[loc]) else None }

  function Target(at: Loc, call: Call): Loc { if call.CloneTo? then Loc(at.node, call.dst) else at }

  lemma DoFrame(w: World, at: Loc, call: Call, loc: Loc)
    requires loc != Target(at, call)
    ensures ObjAt(Do(w, at, call).world.site, loc) == ObjAt(w.site, loc)
  {
    hide Accepts, ClonedConfig, CreatedConfig, Written;
  }

  /** An action changes no object but the one it is for. */
  lemma ApplyFrame(w: World, a: Action, loc: Loc)
    requires loc != LocOf(a)
    ensures ObjAt(Apply(w, a).world.site, loc) == ObjAt(w.site, loc)
  {
    hide Do, ApplyUpdate, ApplyDelete, ApplyCreate;
    match a.what
    case Update => UpdateFrame(w, a, loc);
    case Delete => DeleteFrame(w, a, loc);
    case Create => CreateFrame(w, a, loc);
    case MarkTemplate => DoFrame(w, LocOf(a), SetTemplate, loc);
    case Start => DoFrame(w, LocOf(a), StartObj, loc);
    case Stop => DoFrame(w, LocOf(a), StopObj, loc);
    case _ =>
  }

  lemma UpdateFrame(w: World, a: Action, loc: Loc)
    requires loc != LocOf(a)
    ensures ObjAt(ApplyUpdate(w, a).world.site, loc) == ObjAt(w.site, loc)
  {
    hide Do;
    var stop := a.stopFirst && a.livePower == RUNNING;
    DoFrame(w, LocOf(a), StopObj, loc);
    var s := if stop then Do(w, LocOf(a), StopObj) else Outcome(w, true);
    var write := WriteConfig(a.params, a.deletes);
    DoFrame(s.world, LocOf(a), write, loc);
    DoFrame(Do(s.world, LocOf(a), write).world, LocOf(a), StartObj, loc);
  }

  lemma DeleteFrame(w: World, a: Action, loc: Loc)
    requires loc != LocOf(a)
    ensures ObjAt(ApplyDelete(w, a).world.site, loc) == ObjAt(w.site, loc)
  {
    hide Do;
    DoFrame(w, LocOf(a), StopObj, loc);
    DoFrame(w, LocOf(a), Destroy, loc);
    DoFrame(Do(w, LocOf(a), StopObj).world, LocOf(a), Destroy, loc);
  }

  lemma CreateFrame(w: World, a: Action, loc: Loc)
    requires loc != LocOf(a)
    ensures ObjAt(ApplyCreate(w, a).world.site, loc) == ObjAt(w.site, loc)
  {
    hide Do, CloneCreate, CreateTemplate;
    DoFrame(w, LocOf(a), Download(FileOf(a)), loc);
    DoFrame(w, LocOf(a), CreateObj(FamilyOf(a.kind), a.params, a.desiredPower == STARTED), loc);
    TemplateFrame(w, a, loc);
    CloneFrame(w, a, loc);
  }

  lemma TemplateFrame(w: World, a: Action, loc: Loc)
    requires loc != LocOf(a)
    ensures ObjAt(CreateTemplate(w, a).world.site, loc) == ObjAt(w.site, loc)
  {
    hide Do;
    var create := CreateObj(FamilyOf(a.kind), a.params, false);
    DoFrame(w, LocOf(a), create, loc);
    DoFrame(Do(w, LocOf(a), create).world, LocOf(a), SetTemplate, loc);
  }

  lemma CloneFrame(w: World, a: Action, loc: Loc)
    requires loc != LocOf(a)
    ensures ObjAt(CloneCreate(w, a).world.site, loc) == ObjAt(w.site, loc)
  {
    hide Do, Vm.CloneBody;
    var at := Loc(a.node, a.cloneSource);
    DoFrame(w, at, CloneTo(a.id, a.name), loc);
    var c := Do(w, at, CloneTo(a.id, a.name));
    DoFrame(c.world, LocOf(a), ReadConfig, loc);
    var r := Do(c.world, LocOf(a), ReadConfig);
    if LocOf(a) in r.world.site.objs {
      DoFrame(r.world, LocOf(a), WriteConfig(Vm.CloneBody(a.params, r.world.site.objs[LocOf(a)].config), a.deletes), loc);
    }
  }

  lemma RefusedDo(w: World, at: Loc, call: Call)
    requires Effect(w.site, at, call).None? && !call.WriteConfig?
    ensures Do(w, at, call).world.site == w.site && !Do(w, at, call).ok
  {
    hide Effect;
  }

  /** A create never touches an object that is already there. */
  lemma CreateBusy(w: World, a: Action)
    requires a.what == Create && !ArtifactKind(a.kind) && LocOf(a) in w.site.objs
    ensures Apply(w, a).world.site == w.site && !Apply(w, a).ok
  {
    hide Do;
    RefusedDo(w, LocOf(a), CreateObj(FamilyOf(a.kind), a.params, false));
    RefusedDo(w, LocOf(a), CreateObj(FamilyOf(a.kind), a.params, a.desiredPower == STARTED));
    RefusedDo(w, Loc(a.node, a.cloneSource), CloneTo(a.id, a.name));
  }

  /** An object only creates are planned for keeps its state. */
  lemma {:induction false} RunKeeps(w: World, actions: seq<Action>, failed: set<Failure>, loc: Loc)
    requires loc in w.site.objs
    requires forall a | a in actions && LocOf(a) == loc :: a.what == Create && !ArtifactKind(a.kind)
    ensures ObjAt(Run(w, actions, failed).world.site, loc) == ObjAt(w.site, loc)
    decreases |actions|
  {
    hide Apply, Run, Deferred;
    if actions == [] {
      RunNone(w, failed);
    } else {
      RunHead(w, actions, failed);
      var a, one := actions[0], Apply(w, actions[0]);
      if Deferred(a, failed) {
        RunKeeps(w, actions[1..], failed, loc);
      } else {
        if LocOf(a) == loc {
          CreateBusy(w, a);
        } else {
          ApplyFrame(w, a, loc);
        }
        RunKeeps(one.world, actions[1..], FailedAfter(a, one.ok, failed), loc);
      }
    }
  }

  // ----- power -----

  /** Deletes never meet a running object, and a stop-required config write never meets one. */
  predicate SafeEvent(a: Action, e: Event) {
    && (e.call.Destroy? ==> !e.wasRunning)
    && (a.what == Update && a.stopFirst && e.call.WriteConfig? ==> !e.wasRunning)
  }

  /** The events one action adds to the log. */
  predicate AddsSafely(w: World, w': World, a: Action) {
    w.log <= w'.log && forall i | |w.log| <= i < |w'.log| :: SafeEvent(a, w'.log[i])
  }

  lemma DoAdds(w: World, loc: Loc, call: Call, a: Action)
    requires SafeEvent(a, Event(loc, call, Do(w, loc, call).ok, Running(w.site, loc)))
    ensures AddsSafely(w, Do(w, loc, call).world, a)
  {
    hide Effect;
  }

  lemma AddsTrans(w: World, v: World, u: World, a: Action)
    requires AddsSafely(w, v, a) && AddsSafely(v, u, a)
    ensures AddsSafely(w, u, a)
  {
    hide SafeEvent;
    forall i | |w.log| <= i < |u.log| ensures SafeEvent(a, u.log[i]) {
      if i < |v.log| {
        assert v.log[i] == u.log[i];
      }
    }
  }

  /** A stop PVE reports as done leaves the object stopped. */
  lemma StoppedAfter(w: World, loc: Loc)
    ensures Do(w, loc, StopObj).ok ==> !Running(Do(w, loc, StopObj).world.site, loc)
  {
  }

  /** The snapshot is accurate for the action: an object it may delete or stop-write is only running
      if the snapshot says so. */
  predicate Accurate(s: Site, a: Action) {
    a.what in {Delete, Update} && Running(s, LocOf(a)) ==> a.livePower == RUNNING
  }

  /** Whatever fails, one action's calls are power safe. */
  lemma ApplySafe(w: World, a: Action)
    requires Accurate(w.site, a)
    ensures AddsSafely(w, Apply(w, a).world, a)
  {
    hide Do, ApplyUpdate, ApplyDelete, ApplyCreate, AddsSafely;
    match a.what
    case Update => UpdateSafe(w, a);
    case Delete => DeleteSafe(w, a);
    case Create => CreateSafe(w, a);
    case MarkTemplate => DoAdds(w, LocOf(a), SetTemplate, a);
    case Start => DoAdds(w, LocOf(a), StartObj, a);
    case Stop => DoAdds(w, LocOf(a), StopObj, a);
    case _ => NothingAdded(w, a);
  }

  lemma NothingAdded(w: World, a: Action)
    ensures AddsSafely(w, w, a)
  {
  }

  lemma UpdateSafe(w: World, a: Action)
    requires a.what == Update && Accurate(w.site, a)
    ensures AddsSafely(w, ApplyUpdate(w, a).world, a)
  {
    hide Do, AddsSafely;
    NothingAdded(w, a);
    var stop := a.stopFirst && a.livePower == RUNNING;
    var s := if stop then Do(w, LocOf(a), StopObj) else Outcome(w, true);
    if stop {
      DoAdds(w, LocOf(a), StopObj, a);
      StoppedAfter(w, LocOf(a));
    }
    if s.ok && !ArtifactKind(a.kind) {
      var c := Do(s.world, LocOf(a), WriteConfig(a.params, a.deletes));
      DoAdds(s.world, LocOf(a), WriteConfig(a.params, a.deletes), a);
      AddsTrans(w, s.world, c.world, a);
      var u := Do(c.world, LocOf(a), StartObj);
      DoAdds(c.world, LocOf(a), StartObj, a);
      AddsTrans(w, c.world, u.world, a);
    }
  }

  lemma DeleteSafe(w: World, a: Action)
    requires a.what == Delete && Accurate(w.site, a)
    ensures AddsSafely(w, ApplyDelete(w, a).world, a)
  {
    hide Do, AddsSafely;
    if a.livePower != RUNNING {
      DoAdds(w, LocOf(a), Destroy, a);
    } else {
      var s := Do(w, LocOf(a), StopObj);
      DoAdds(w, LocOf(a), StopObj, a);
      StoppedAfter(w, LocOf(a));
      if s.ok {
        DoAdds(s.world, LocOf(a), Destroy, a);
        AddsTrans(w, s.world, Do(s.world, LocOf(a), Destroy).world, a);
      }
    }
  }

  lemma CreateSafe(w: World, a: Action)
    requires a.what == Create
    ensures AddsSafely(w, ApplyCreate(w, a).world, a)
  {
    hide Do, AddsSafely, CloneCreate;
    NothingAdded(w, a);
    DoAdds(w, LocOf(a), Download(FileOf(a)), a);
    DoAdds(w, LocOf(a), CreateObj(FamilyOf(a.kind), a.params, a.desiredPower == STARTED), a);
    var create := CreateObj(FamilyOf(a.kind), a.params, false);
    DoAdds(w, LocOf(a), create, a);
    var c := Do(w, LocOf(a), create);
    DoAdds(c.world, LocOf(a), SetTemplate, a);
    AddsTrans(w, c.world, Do(c.world, LocOf(a), SetTemplate).world, a);
    CloneSafe(w, a);
  }

  lemma CloneSafe(w: World, a: Action)
    requires a.what == Create
    ensures AddsSafely(w, CloneCreate(w, a).world, a)
  {
    hide Do, AddsSafely, Vm.CloneBody;
    NothingAdded(w, a);
    var at := Loc(a.node, a.cloneSource);
    var c := Do(w, at, CloneTo(a.id, a.name));
    DoAdds(w, at, CloneTo(a.id, a.name), a);
    var r := Do(c.world, LocOf(a), ReadConfig);
    DoAdds(c.world, LocOf(a), ReadConfig, a);
    AddsTrans(w, c.world, r.world, a);
    if LocOf(a) in r.world.site.objs {
      var write := WriteConfig(Vm.CloneBody(a.params, r.world.site.objs[LocOf(a)].config), a.deletes);
      DoAdds(r.world, LocOf(a), write, a);
      AddsTrans(w, r.world, Do(r.world, LocOf(a), write).world, a);
    }
  }

  /** An update reported OK leaves an object that was running and is wanted running, running. */
  lemma UpdateRestores(w: World, a: Action)
    requires a.what == Update && Accurate(w.site, a) && Running(w.site, LocOf(a)) && a.desiredPower == STARTED
    requires Apply(w, a).ok
    ensures Running(Apply(w, a).world.site, LocOf(a))
  {
    hide Accepts, Written;
  }

  // ----- whole runs -----

  /** The reads give an accurate power snapshot: whatever was read has its power state, and
      templates, whose power is not looked up, are stopped. */
  predicate AccurateReads(s: Site, rd: Reads) {
    rd.configs <= rd.statuses && forall loc | loc in s.objs && IsTemplate(s.objs[loc].config) :: !s.objs[loc].running
  }

  lemma UpdateKeyed(r: Resource, live: LiveInventory, o: Options, a: Action)
    requires hide *; IsGuest(r) && PlanOne(r, live, o).Some? && a in PlanOne(r, live, o).value.actions && a.what == Update
    ensures var key := ObjKey(NodeOf(r), r.kind, IdOf(r)); ConfigAt(live, key).Some? && a.livePower == Power(live, key)
    ensures |PlanOne(r, live, o).value.actions| >= 1 && PlanOne(r, live, o).value.actions[0] == a
    ensures forall b | b in PlanOne(r, live, o).value.actions && b != a :: b.what in {Start, Stop}
  {
    hide DriftOf, CreateStep, IsTemplate, AnomaliesOf, ConfigAt, Power, DesiredState, LevelIn;
    CreateStepShape(r, o);
  }

  lemma CreateStepShape(r: Resource, o: Options)
    ensures hide *; CreateStep(r, o).Some? ==> CreateStep(r, o).value.what == Create
  {
    hide Vm.IsCloneBacked, Vm.CloneDeleteKeys, CreateParamsOf;
  }

  /** In a plan made from an accurate snapshot, an update is the first action for its object. */
  lemma UpdateIsFirst(desired: seq<Resource>, live: LiveInventory, o: Options, p: Plan, i: nat, j: nat)
    requires hide *; IsPlan(desired, live, o, p) && OwnHomes(desired) && j < i < |p.actions| && p.actions[i].what == Update
    ensures LocOf(p.actions[j]) != LocOf(p.actions[i])
  {
    hide IsPlan, PlannedFor, PlanOne, OwnHomes, Judge, PruneOf, AtHome, InOrder;
    var a, b := p.actions[i], p.actions[j];
    var r := OwnerOf(desired, live, o, p, a);
    if LocOf(b) == LocOf(a) {
      EarlierIsTierZero(desired, live, o, p, i, j);
      SecondAtHome(desired, live, o, p, r, i, j);
    }
  }

  /** The manifest behind a tier-0 guest action. */
  lemma OwnerOf(desired: seq<Resource>, live: LiveInventory, o: Options, p: Plan, a: Action) returns (r: Resource)
    requires hide *; IsPlan(desired, live, o, p) && OwnHomes(desired) && a in p.actions && a.what == Update
    ensures r in desired && IsGuest(r) && PlannedFor(a, r, o) && LocOf(a) == HomeOf(r)
    ensures PlanOne(r, live, o).Some? && a in PlanOne(r, live, o).value.actions
  {
    hide IsPlan, PlannedFor, PlanOne, Judge, PruneOf, OwnHomes;
    ActionSource(desired, live, o, p, a);
    if exists e | e in live.listing :: Judge(e, desired, live, o) == Orphan && a == PruneOf(e, live) && a.kind !in p.suppressed {
      var e :| e in live.listing && Judge(e, desired, live, o) == Orphan && a == PruneOf(e, live) && a.kind !in p.suppressed;
      PruneShape(e, live);
    }
    r :| r in desired && PlannedFor(a, r, o);
    UpdateIsGuest(a, r, o);
    HomeOfAction(a, r, o);
    PlanAtHome(desired, live, o, p, r);
    InFilter(p.actions, (x: Action) => x.tier == 0 && LocOf(x) == HomeOf(r), a);
  }

  lemma UpdateIsGuest(a: Action, r: Resource, o: Options)
    requires PlannedFor(a, r, o) && a.what != Create
    ensures IsGuest(r)
  {
  }

  lemma EarlierIsTierZero(desired: seq<Resource>, live: LiveInventory, o: Options, p: Plan, i: nat, j: nat)
    requires hide *; IsPlan(desired, live, o, p) && j < i < |p.actions| && p.actions[i].what == Update
    ensures p.actions[i].tier == 0 && p.actions[j].tier == 0
    ensures NotAfter(p.actions[j], p.actions[i])
  {
    hide IsPlan, InOrder, PlannedFor, Judge, PruneOf, PlanDesired, Candidates, WithinBudget;
    var a := p.actions[i];
    ActionSource(desired, live, o, p, a);
    if exists e | e in live.listing :: Judge(e, desired, live, o) == Orphan && a == PruneOf(e, live) && a.kind !in p.suppressed {
      var e :| e in live.listing && Judge(e, desired, live, o) == Orphan && a == PruneOf(e, live) && a.kind !in p.suppressed;
      PruneShape(e, live);
    }
    var r :| r in desired && PlannedFor(a, r, o);
    HomeOfAction(a, r, o);
    var chosen, excess := PlanParts(desired, live, o, p);
    OrderAt(p.actions, j, i);
  }

  lemma SecondAtHome(desired: seq<Resource>, live: LiveInventory, o: Options, p: Plan, r: Resource, i: nat, j: nat)
    requires hide *; IsPlan(desired, live, o, p) && OwnHomes(desired) && r in desired && IsGuest(r) && j < i < |p.actions|
    requires p.actions[i].tier == 0 && p.actions[j].tier == 0 && LocOf(p.actions[i]) == HomeOf(r) && LocOf(p.actions[j]) == HomeOf(r)
    ensures p.actions[i].what in {Start, Stop}
  {
    hide IsPlan, OwnHomes, PlanOne, HomeOf, Filter;
    PlanAtHome(desired, live, o, p, r);
    HomeShape(r, live, o);
    var at := (x: Action) => x.tier == 0 && LocOf(x) == HomeOf(r);
    FilterOrder(p.actions, at, j, i);
    var f := Filter(p.actions, at);
    var x, y :| 0 <= x < y < |f| && f[x] == p.actions[j] && f[y] == p.actions[i];
    assert f == PlanOne(r, live, o).value.actions;
  }
}
