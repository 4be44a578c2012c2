/** The bound of three cycles is reached: a family of clusters whose third plan still starts a guest. */
module Bound {
  import opened Text
  import opened Graph
  import opened Owned
  import opened Desired
  import opened Seqs
  import opened Plan
  import opened PlanSafety
  import opened World
  import opened Exec
  import opened Live
  import opened Local
  import opened ExecSafety
  import opened Runs
  import opened Guests
  import opened Converge
  import opened Convergence
  import Vm

  // ----- one home in a run -----

  lemma {:induction false} RunElsewhere(w: World, actions: seq<Action>, failed: set<Failure>, loc: Loc)
    requires forall a | a in actions :: LocOf(a) != loc
    ensures ObjAt(Run(w, actions, failed).world.site, loc) == ObjAt(w.site, loc)
    decreases |actions|
  {
    hide Apply, Run, Exec.Deferred;
    if actions == [] {
      RunNone(w, failed);
    } else {
      RunHead(w, actions, failed);
      var a, one, d := actions[0], Apply(w, actions[0]), Exec.Deferred(actions[0], failed);
      ApplyFrame(w, a, loc);
      RunElsewhere(if d then w else one.world, actions[1..], if d then failed else FailedAfter(a, one.ok, failed), loc);
    }
  }

  predicate OnlyHere(actions: seq<Action>, loc: Loc, i: nat) {
    i < |actions| && forall k | 0 <= k < |actions| && k != i :: LocOf(actions[k]) != loc
  }

  /** An object one action of a run is for. */
  lemma OneAction(w: World, actions: seq<Action>, loc: Loc, i: nat)
    requires OnlyHere(actions, loc, i)
    ensures var before := Upto(w, actions, i);
            && ObjAt(before.world.site, loc) == ObjAt(w.site, loc)
            && ObjAt(Run(w, actions, {}).world.site, loc) ==
               if Exec.Deferred(actions[i], before.failed) then ObjAt(w.site, loc) else ObjAt(Apply(before.world, actions[i]).world.site, loc)
  {
    hide Apply, Run, Exec.Deferred, FailedAfter;
    var after := Upto(w, actions, i + 1);
    assert forall a | a in actions[..i] :: LocOf(a) != loc;
    assert forall a | a in actions[i + 1..] :: LocOf(a) != loc;
    RunElsewhere(w, actions[..i], {}, loc);
    StepAt(w, actions, i);
    RunElsewhere(after.world, actions[i + 1..], after.failed, loc);
    assert actions == actions[..i + 1] + actions[i + 1..];
    RunSplit(w, actions[..i + 1], actions[i + 1..], {});
  }

  lemma SplitHome(actions: seq<Action>, loc: Loc, a: Action) returns (i: nat)
    requires a in AtHome(actions, loc)
    ensures i < |actions| && actions[i] == a
    ensures AtHome(actions, loc) == AtHome(actions[..i], loc) + [a] + AtHome(actions[i + 1..], loc)
  {
    i :| 0 <= i < |actions| && actions[i] == a;
    var at := (x: Action) => x.tier == 0 && LocOf(x) == loc;
    assert actions == actions[..i] + ([a] + actions[i + 1..]);
    FilterConcat(actions[..i], [a] + actions[i + 1..], at);
    HeadAtHome(a, actions[i + 1..], loc);
  }

  lemma NoneAtHome(actions: seq<Action>, loc: Loc)
    requires AtHome(actions, loc) == [] && forall a | a in actions && LocOf(a) == loc :: a.tier == 0
    ensures forall a | a in actions :: LocOf(a) != loc
  {
    forall a | a in actions && LocOf(a) == loc ensures false {
      InFilter(actions, (x: Action) => x.tier == 0 && LocOf(x) == loc, a);
    }
  }

  lemma SingleAtHome(actions: seq<Action>, loc: Loc, a: Action) returns (i: nat)
    requires AtHome(actions, loc) == [a] && forall x | x in actions && LocOf(x) == loc :: x.tier == 0
    ensures OnlyHere(actions, loc, i) && actions[i] == a
  {
    hide AtHome;
    i := SplitHome(actions, loc, a);
    NoneAtHome(actions[..i], loc);
    NoneAtHome(actions[i + 1..], loc);
    forall k | 0 <= k < |actions| && k != i ensures LocOf(actions[k]) != loc {
      assert if k < i then actions[k] in actions[..i] else actions[k] == actions[i + 1..][k - i - 1];
    }
  }

  /** Two actions of one home, in order. */
  lemma PairAtHome(actions: seq<Action>, loc: Loc, a: Action, b: Action) returns (i: nat, j: nat)
    requires AtHome(actions, loc) == [a, b] && a != b && forall x | x in actions && LocOf(x) == loc :: x.tier == 0
    ensures i < j < |actions| && actions[i] == a && actions[j] == b && OnlyHere(actions[..j], loc, i)
  {
    hide AtHome;
    j := SplitHome(actions, loc, b);
    var front, back := AtHome(actions[..j], loc), AtHome(actions[j + 1..], loc);
    assert |front| + 1 + |back| == 2 && (front + [b] + back)[0] == a;
    assert front == [a];
    i := SingleAtHome(actions[..j], loc, a);
  }

  // ----- the first cycle: a refused stop holds the clone back -----

  /** A running guest that should be stopped and whose drift stops it first. */
  predicate Overrunning(r: Resource, obj: Option<Obj>) {
    hide DriftOf, IsTemplate, DesiredState;
    && Proper(r, obj) && !IsTemplateKind(r.kind) && obj.value.running && DesiredState(r) == STOPPED
    && DriftOf(r, obj.value.config).Some? && DriftOf(r, obj.value.config).value.stop
  }

  /** Its actions: the update that stops it, and a stop PVE will refuse. */
  lemma OverrunSteps(r: Resource, obj: Option<Obj>, o: Options) returns (u: Action, s: Action)
    requires hide Valid, FamilyOk, DriftOf, Pending, IsTemplate, DesiredState; IsGuest(r) && Valid(r) && FamilyOk(r, obj) && Overrunning(r, obj)
    ensures Pending(r, obj, o) == [u, s] && u.what == Update && s.what == Stop && LocOf(u) == LocOf(s) == HomeOf(r)
    ensures u.deps == s.deps == [] && s.tier == 0 && s.ref == RefOf(r) && s.node == NodeOf(r) && u.kind == r.kind
    ensures var d := DriftOf(r, obj.value.config).value; u.params == d.params && u.deletes == d.deletes
    ensures u.stopFirst && u.livePower == RUNNING && u.desiredPower == STOPPED
  {
    hide DriftOf, DesiredState, LevelIn, LocalPlan, IsTemplate, Valid;
    LocalShape(r, obj, o);
    PowerWords();
    u := UpdateSteps(r, obj.value.config, RUNNING, o)[0];
    s := PowerSteps(r, RUNNING, o)[0];
    assert Pending(r, obj, o) == [u] + [s];
  }

  lemma StopFails(desired: seq<Resource>, o: Options, listing: seq<Listed>, p: Plan, w: World, w': World, r: Resource) returns (j: nat)
    requires hide *; CycleStep(desired, o, listing, p, w, w') && w.faults == [] && Manageable(desired, o) && AllWorkable(desired, w.site)
    requires r in desired && IsGuest(r) && Overrunning(r, ObjAt(w.site, HomeOf(r)))
    ensures j < |p.actions| && p.actions[j].tier == 0 && p.actions[j].ref == RefOf(r) && p.actions[j].node == NodeOf(r)
    ensures var result := Run(w, p.actions, {}).results[j]; !result.deferred && !result.ok
  {
    hide IsPlan, Lists, FullInventory, Manageable, LocalPlan, AtHome, Run, Valid, WellFormed, Pending, Tractable, IsTemplate, DriftOf, DesiredState, Apply,
         Overrunning, Accepts;
    var home := HomeOf(r);
    Manages(desired, o, r);
    ManagedIsHoused(desired, o, w.site, r);
    HomeActions(desired, o, listing, p, w, r);
    var u, s := OverrunSteps(r, ObjAt(w.site, home), o);
    var i;
    i, j := PairAtHome(p.actions, home, u, s);
    OneAction(w, p.actions[..j], home, i);
    var early, before := Upto(w, p.actions[..j], i), Upto(w, p.actions, j);
    NotDeferred(u, early.failed);
    NotDeferred(s, before.failed);
    RunNoFaults(w, p.actions[..j][..i], {});
    RunNoFaults(w, p.actions[..j], {});
    UpdateStops(r, w, early.world, u);
    StepAt(w, p.actions, j);
    StopRefused(before.world, s);
  }

  lemma NotDeferred(a: Action, failed: set<Failure>)
    requires a.deps == []
    ensures !Exec.Deferred(a, failed)
  {
  }

  lemma UpdateStops(r: Resource, w: World, v: World, u: Action)
    requires hide Valid, WellFormed, Workable, DriftOf, IsTemplate, DesiredState, Apply; IsGuest(r) && Valid(r) && WellFormed(r) && v.faults == [] && ObjAt(v.site, HomeOf(r)) == ObjAt(w.site, HomeOf(r))
    requires var obj := ObjAt(w.site, HomeOf(r)); Workable(r, obj) && Overrunning(r, obj)
    requires u.what == Update && LocOf(u) == HomeOf(r) && u.kind == r.kind && u.stopFirst && u.livePower == RUNNING && u.desiredPower == STOPPED
    requires var d := DriftOf(r, ObjAt(w.site, HomeOf(r)).value.config).value; u.params == d.params && u.deletes == d.deletes
    ensures var after := ObjAt(Apply(v, u).world.site, HomeOf(r)); after.Some? && !after.value.running
  {
    hide Valid, WellFormed, Tractable, IsTemplate, DriftOf, DesiredState, Apply, Accepts, Written;
    ValidKinds(r);
    PowerWords();
    UpdateSettles(r, ObjAt(w.site, HomeOf(r)).value.config);
    UpdateWorks(v, u);
  }

  lemma StopRefused(w: World, s: Action)
    requires s.what == Stop && ObjAt(w.site, LocOf(s)).Some? && !ObjAt(w.site, LocOf(s)).value.running
    ensures !Apply(w, s).ok
  {
  }

  /** A clone that is to run, not there yet, and depends on the overrunning guest. */
  predicate Waits(o: Options, s: Site, x: Resource, r: Resource) {
    && r.kind == VM && r.body.Machine? && Vm.IsCloneBacked(r.body.vm) && DesiredState(r) == STARTED && HomeOf(r) !in s.objs
    && RefOf(x) in EdgesIn(o, RefOf(r)) && NodeOf(x) == NodeOf(r) && NameOf(x) != ""
  }

  lemma CloneHeldBack(desired: seq<Resource>, o: Options, g: Graph<Ref>, listing: seq<Listed>, p: Plan, w: World, w': World, x: Resource, r: Resource)
    requires CycleStep(desired, o, listing, p, w, w') && w.faults == [] && Manageable(desired, o) && AllWorkable(desired, w.site) && FromIndex(o, g)
    requires x in desired && IsGuest(x) && Overrunning(x, ObjAt(w.site, HomeOf(x))) && r in desired && Waits(o, w.site, x, r)
    ensures HomeOf(r) !in w'.site.objs
  {
    hide IsPlan, Lists, FullInventory, Manageable, LocalPlan, AtHome, Run, Valid, WellFormed, Pending, Overrunning, FromIndex, CreateStep, Apply, Named,
         Vm.IsCloneBacked, DesiredState, Exec.Deferred;
    var j := StopFails(desired, o, listing, p, w, w', x);
    var i, a := CreateAlone(desired, o, listing, p, w, r);
    AllKinds(desired, o);
    NamedGuest(desired, o, x);
    EdgesKnown(o, g, RefOf(r), RefOf(x));
    DependencySafety(desired, FullInventory(listing, w.site, desired, o.allow), o, p, g, w, j, i);
    OneAction(w, p.actions, HomeOf(r), i);
    StepAt(w, p.actions, i);
  }

  lemma EdgesKnown(o: Options, g: Graph<Ref>, ref: Ref, dep: Ref)
    requires FromIndex(o, g) && dep in EdgesIn(o, ref)
    ensures ref in g && dep in g[ref]
  {
    hide IsLevel, Acyclic;
  }

  lemma AllKinds(desired: seq<Resource>, o: Options)
    requires Manageable(desired, o)
    ensures forall r | r in desired :: IsGuest(r) || ArtifactKind(r.kind)
  {
    hide WellFormed, OwnHomes, ClonesOrdered, Vm.IsCloneBacked;
  }

  lemma NamedGuest(desired: seq<Resource>, o: Options, r: Resource)
    requires Manageable(desired, o) && r in desired && IsGuest(r) && NameOf(r) != ""
    ensures Named(RefOf(r))
  {
    hide WellFormed, OwnHomes, ClonesOrdered, Vm.IsCloneBacked;
    assert Valid(r);
  }

  /** A missing clone has one action: its create. */
  lemma CreateAlone(desired: seq<Resource>, o: Options, listing: seq<Listed>, p: Plan, w: World, r: Resource) returns (i: nat, a: Action)
    requires hide Lists, IsPlan, FullInventory, Manageable, AllWorkable, CreateStep, Vm.IsCloneBacked; Lists(listing, w.site) && IsPlan(desired, FullInventory(listing, w.site, desired, o.allow), o, p)
    requires Manageable(desired, o) && AllWorkable(desired, w.site)
    requires r in desired && r.kind == VM && r.body.Machine? && Vm.IsCloneBacked(r.body.vm) && HomeOf(r) !in w.site.objs
    ensures CreateStep(r, o) == Some(a) && OnlyHere(p.actions, HomeOf(r), i) && p.actions[i] == a
    ensures a.tier == 0 && a.what == Create && a.ref == RefOf(r) && a.node == NodeOf(r) && a.kind == VM
  {
    hide IsPlan, Lists, FullInventory, Manageable, LocalPlan, AtHome, Valid, WellFormed, CreateStep, Vm.IsCloneBacked;
    Manages(desired, o, r);
    ManagedIsHoused(desired, o, w.site, r);
    HomeActions(desired, o, listing, p, w, r);
    LocalShape(r, None, o);
    a := CreateStep(r, o).value;
    i := SingleAtHome(p.actions, HomeOf(r), a);
    CreateIs(r, o, a);
  }

  lemma CreateIs(r: Resource, o: Options, a: Action)
    requires CreateStep(r, o) == Some(a)
    ensures a.tier == 0 && a.what == Create && a.ref == RefOf(r) && a.node == NodeOf(r) && a.kind == r.kind
  {
    hide LevelIn, EdgesIn, DesiredState, CreateParamsOf, Vm.CloneDeleteKeys, Vm.IsCloneBacked;
  }

  // ----- the second cycle creates it, the third starts it -----

  lemma CloneMade(desired: seq<Resource>, o: Options, listing: seq<Listed>, p: Plan, w: World, w': World, r: Resource)
    requires hide CycleStep, Manageable, AllWorkable, NoOverrun, IsTemplate, Vm.IsCloneBacked; CycleStep(desired, o, listing, p, w, w') && w.faults == [] && Manageable(desired, o) && AllWorkable(desired, w.site)
    requires forall x | x in desired && IsGuest(x) :: NoOverrun(x, ObjAt(w.site, HomeOf(x)))
    requires r in desired && r.kind == VM && r.body.Machine? && Vm.IsCloneBacked(r.body.vm) && HomeOf(r) !in w.site.objs
    ensures var obj := ObjAt(w'.site, HomeOf(r)); Proper(r, obj) && !obj.value.running
  {
    hide IsPlan, Lists, FullInventory, Manageable, AllWorkable, NoOverrun, Run, Valid, WellFormed, CreateStep, Apply, Vm.IsCloneBacked, Exec.Deferred,
         IsTemplate, Tractable;
    Manages(desired, o, r);
    CycleSettles(desired, o, listing, p, w, w', r);
    var i, a := CreateAlone(desired, o, listing, p, w, r);
    OneAction(w, p.actions, HomeOf(r), i);
    RunNoFaults(w, p.actions[..i], {});
    CloneCreates(r, Upto(w, p.actions, i).world, a, o);
  }

  lemma StartPlanned(desired: seq<Resource>, o: Options, listing: seq<Listed>, p: Plan, w: World, r: Resource)
    requires hide Lists, IsPlan, FullInventory, Manageable, AllWorkable, IsTemplate, DesiredState; Lists(listing, w.site) && IsPlan(desired, FullInventory(listing, w.site, desired, o.allow), o, p)
    requires Manageable(desired, o) && AllWorkable(desired, w.site) && r in desired && IsGuest(r) && r.kind == VM && DesiredState(r) == STARTED
    requires var obj := ObjAt(w.site, HomeOf(r)); Proper(r, obj) && !obj.value.running
    ensures exists a | a in p.actions :: a.what == Start && LocOf(a) == HomeOf(r)
  {
    hide IsPlan, Lists, FullInventory, Manageable, LocalPlan, Valid, WellFormed, DriftOf, DesiredState, LevelIn, IsTemplate, Tractable, UpdateSteps;
    var obj := ObjAt(w.site, HomeOf(r)).value;
    Manages(desired, o, r);
    ManagedIsHoused(desired, o, w.site, r);
    HomeActions(desired, o, listing, p, w, r);
    LocalShape(r, Some(obj), o);
    PowerWords();
    var start := PowerSteps(r, STOPPED, o)[0];
    assert start in AtHome(p.actions, HomeOf(r));
  }

  /** Three cycles are needed whenever a clone that is to run depends on a guest of its node that must be
      updated and stopped: the update stops the guest, PVE refuses the planned stop that follows, and that
      failure holds the clone back. The second cycle creates it, the third plan starts it. */
  lemma ThirdCycleNeeded(desired: seq<Resource>, o: Options, g: Graph<Ref>, listings: seq<seq<Listed>>, plans: seq<Plan>, ws: seq<World>, x: Resource, r: Resource)
    requires hide CycleStep, Manageable, AllWorkable, Overrunning, Waits, FromIndex; Cycles(desired, o, listings, plans, ws) && ws[0].faults == [] && |plans| >= 3
    requires Manageable(desired, o) && AllWorkable(desired, ws[0].site) && FromIndex(o, g)
    requires x in desired && IsGuest(x) && Overrunning(x, ObjAt(ws[0].site, HomeOf(x))) && r in desired && Waits(o, ws[0].site, x, r)
    ensures exists a | a in plans[2].actions :: a.what == Start && LocOf(a) == HomeOf(r)
  {
    hide Manageable, AllWorkable, FilesPresent, IsPlan, Lists, FullInventory, Run, Overrunning, FromIndex, Vm.IsCloneBacked, NoOverrun, Settled, AtRest,
         DesiredState, EdgesIn, CycleStep, Proper;
    Progress(desired, o, listings, plans, ws, 1);
    Progress(desired, o, listings, plans, ws, 2);
    StepOf(desired, o, listings, plans, ws, 0);
    StepOf(desired, o, listings, plans, ws, 1);
    StepOf(desired, o, listings, plans, ws, 2);
    CloneHeldBack(desired, o, g, listings[0], plans[0], ws[0], ws[1], x, r);
    CloneMade(desired, o, listings[1], plans[1], ws[1], ws[2], r);
    StartPlanned(desired, o, listings[2], plans[2], ws[2], r);
  }

  lemma StepOf(desired: seq<Resource>, o: Options, listings: seq<seq<Listed>>, plans: seq<Plan>, ws: seq<World>, k: nat)
    requires hide CycleStep, IsPlan, Lists, FullInventory; Cycles(desired, o, listings, plans, ws) && k < |plans|
    ensures CycleStep(desired, o, listings[k], plans[k], ws[k], ws[k + 1])
    ensures Lists(listings[k], ws[k].site) && IsPlan(desired, FullInventory(listings[k], ws[k].site, desired, o.allow), o, plans[k])
  {
    hide IsPlan, Lists, FullInventory, Run;
  }
}
