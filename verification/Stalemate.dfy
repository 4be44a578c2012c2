/** A guest that never converges: the cloud-init drive of a plain VM against another volume in ide2. */
module Stalemate {
  import opened Text
  import opened Devices
  import opened Owned
  import opened Desired
  import opened Seqs
  import opened Plan
  import opened World
  import opened Exec
  import opened Live
  import opened Local
  import opened ExecSafety
  import opened Runs
  import opened Updates
  import opened Guests
  import opened Converge
  import opened Convergence
  import Vm

  /** A plain VM's own object whose ide2 PVE will not let drift write. */
  predicate Stuck(r: Resource, obj: Option<Obj>) {
    && r.kind == VM && r.body.Machine? && Vm.WellFormed(r.body.vm)
    && obj.Some? && obj.value.family == Qemu && !IsTemplate(obj.value.config) && DriveRefused(r.body.vm, obj.value.config)
  }

  /** Such an update is planned, and it asks for a new drive in the occupied slot. */
  lemma RefusedUpdate(r: Resource, cfg: Config)
    requires hide *; r.body.Machine? && Vm.WellFormed(r.body.vm) && DriveRefused(r.body.vm, cfg)
    ensures DriftOf(r, cfg).Some? && Blocked(DriftOf(r, cfg).value.params, DriftOf(r, cfg).value.deletes, Get(cfg, Ide2))
  {
    hide Vm.OwnedTable, Vm.WellFormed, CloudInitMatches, CloudInitWire, IsNewSlot, IsCreateForm, Vm.IsCloneBacked;
    var v := r.body.vm;
    DriveOwned(v);
    Vm.WellFormedParts(v);
    WireIsCreateForm(v.hw.ciStorage, v.hw.ciSize);
    VmFlag(v);
    var params := DriftParams(Vm.OwnedTable(v), cfg);
    assert Ide2 in params && params[Ide2] == CloudInitWire(v.hw.ciStorage, v.hw.ciSize);
  }

  /** A write that asks for a new drive in an occupied ide2 and does not touch the template flag. */
  predicate Blocked(sets: Config, deletes: set<Key>, drive: string) {
    && Ide2 in sets && IsCreateForm(sets[Ide2]) && !IsNewSlot(drive) && Ide2 !in deletes
    && TemplateFlag !in sets && TemplateFlag !in deletes
  }

  /** Power changes, and writes PVE does not take in full. */
  predicate Harmless(a: Action, drive: string) { a.what in {Start, Stop} || (a.what == Update && Blocked(a.params, a.deletes, drive)) }

  predicate Holds(s: Site, loc: Loc, drive: string) {
    loc in s.objs && s.objs[loc].family == Qemu && !IsTemplate(s.objs[loc].config) && Get(s.objs[loc].config, Ide2) == drive
  }

  /** However far a blocked write gets, it leaves ide2 and the template flag alone. */
  lemma BlockedKeeps(cfg: Config, sets: Config, deletes: set<Key>, keys: set<Key>)
    requires Blocked(sets, deletes, Get(cfg, Ide2))
    ensures !Accepts(cfg, sets, deletes)
    ensures var some := deletes * keys; var left := Written(cfg, Stored(cfg, sets, some, keys), some);
            Get(left, Ide2) == Get(cfg, Ide2) && Get(left, TemplateFlag) == Get(cfg, TemplateFlag)
  {
    hide IsCreateForm, IsNewSlot;
    assert Get(cfg - deletes, Ide2) == Get(cfg, Ide2) == Get(cfg - deletes * keys, Ide2);
  }

  lemma CallKeeps(w: World, loc: Loc, call: Call, drive: string)
    requires Holds(w.site, loc, drive) && (call in {StartObj, StopObj} || (call.WriteConfig? && Blocked(call.sets, call.deletes, drive)))
    ensures Holds(Do(w, loc, call).world.site, loc, drive)
  {
    hide Accepts, Written, Blocked, Stored;
    if call.WriteConfig? {
      var cfg := w.site.objs[loc].config;
      BlockedKeeps(cfg, call.sets, call.deletes, if w.faults != [] && w.faults[0].Partial? then w.faults[0].keys else {});
    }
  }

  lemma ActionKeeps(w: World, a: Action, drive: string)
    requires Holds(w.site, LocOf(a), drive) && Harmless(a, drive)
    ensures Holds(Apply(w, a).world.site, LocOf(a), drive)
  {
    hide Do, Blocked, Holds;
    var loc, write := LocOf(a), WriteConfig(a.params, a.deletes);
    CallKeeps(w, loc, StartObj, drive);
    CallKeeps(w, loc, StopObj, drive);
    if a.what == Update {
      var s := if a.stopFirst && a.livePower == RUNNING then Do(w, loc, StopObj).world else w;
      CallKeeps(s, loc, write, drive);
      CallKeeps(Do(s, loc, write).world, loc, StartObj, drive);
    }
  }

  lemma {:induction false} RunKeepsDrive(w: World, actions: seq<Action>, failed: set<Failure>, loc: Loc, drive: string)
    requires Holds(w.site, loc, drive) && forall a | a in actions && LocOf(a) == loc :: Harmless(a, drive)
    ensures Holds(Run(w, actions, failed).world.site, loc, drive)
    decreases |actions|
  {
    hide Apply, Run, Exec.Deferred, Harmless, Holds;
    if actions == [] {
      RunNone(w, failed);
    } else {
      RunHead(w, actions, failed);
      var a, one := actions[0], Apply(w, actions[0]);
      if Exec.Deferred(a, failed) {
        RunKeepsDrive(w, actions[1..], failed, loc, drive);
      } else {
        if LocOf(a) == loc {
          ActionKeeps(w, a, drive);
        } else {
          ApplyFrame(w, a, loc);
          SameHolds(w.site, one.world.site, loc, drive);
        }
        RunKeepsDrive(one.world, actions[1..], FailedAfter(a, one.ok, failed), loc, drive);
      }
    }
  }

  lemma SameHolds(s: Site, s': Site, loc: Loc, drive: string)
    requires ObjAt(s, loc) == ObjAt(s', loc)
    ensures Holds(s, loc, drive) <==> Holds(s', loc, drive)
  {
  }

  /** Only ide2 and the template flag decide whether a guest is stuck. */
  lemma StillStuck(r: Resource, s: Site, s': Site, loc: Loc)
    requires Stuck(r, ObjAt(s, loc)) && Holds(s', loc, Get(s.objs[loc].config, Ide2))
    ensures Stuck(r, ObjAt(s', loc))
  {
    hide IsTemplate, Vm.WellFormed, CloudInitMatches, CloudInitWire, IsNewSlot, Vm.IsCloneBacked;
  }

  /** One cycle, whatever calls fail or stop halfway: the update is planned, and the drive stays. */
  lemma CycleStalls(desired: seq<Resource>, o: Options, listing: seq<Listed>, p: Plan, w: World, w': World, r: Resource)
    requires hide CycleStep, Housed, DriveRefused, IsTemplate, Vm.WellFormed;
             CycleStep(desired, o, listing, p, w, w') && Housed(desired, o, r) && Stuck(r, ObjAt(w.site, HomeOf(r)))
    ensures exists a | a in p.actions :: a.what == Update && LocOf(a) == HomeOf(r)
    ensures Holds(w'.site, HomeOf(r), Get(w.site.objs[HomeOf(r)].config, Ide2))
  {
    hide IsPlan, Lists, FullInventory, OwnHomes, Valid, NodeAllowed, LocalPlan, IsTemplate, DriveRefused, Vm.WellFormed, DriftOf, Run, Blocked, Harmless,
         UpdateSteps, PowerSteps;
    var obj := ObjAt(w.site, HomeOf(r)).value;
    var drive := Get(obj.config, Ide2);
    HomeActions(desired, o, listing, p, w, r);
    LocalShape(r, Some(obj), o);
    RefusedUpdate(r, obj.config);
    var mine := AtHome(p.actions, HomeOf(r));
    assert mine == UpdateSteps(r, obj.config, OwnPower(r, obj), o) + PowerSteps(r, OwnPower(r, obj), o);
    StalledSteps(r, obj.config, OwnPower(r, obj), o);
    assert mine[0] in mine;
    forall a | a in p.actions && LocOf(a) == HomeOf(r) ensures Harmless(a, drive) {
      InFilter(p.actions, (x: Action) => x.tier == 0 && LocOf(x) == HomeOf(r), a);
    }
    FilterWithin(p.actions, (x: Action) => x.tier == 0 && LocOf(x) == HomeOf(r));
    RunKeepsDrive(w, p.actions, {}, HomeOf(r), drive);
  }

  lemma StalledSteps(r: Resource, cfg: Config, power: string, o: Options)
    requires hide *; IsGuest(r) && DriftOf(r, cfg).Some? && Blocked(DriftOf(r, cfg).value.params, DriftOf(r, cfg).value.deletes, Get(cfg, Ide2))
    ensures var mine := UpdateSteps(r, cfg, power, o) + PowerSteps(r, power, o);
            && mine != [] && mine[0].what == Update && LocOf(mine[0]) == HomeOf(r)
            && forall a | a in mine :: Harmless(a, Get(cfg, Ide2))
  {
    hide DriftOf, DesiredState, LevelIn, Blocked;
  }

  /** In any number of cycles, whatever calls fail or stop halfway: every plan tries an update again, and
      the volume in ide2 never changes. */
  lemma {:induction false} RefusedForever(desired: seq<Resource>, o: Options, listings: seq<seq<Listed>>, plans: seq<Plan>, ws: seq<World>, k: nat, r: Resource)
    requires hide CycleStep, Housed, DriveRefused, IsTemplate, Vm.WellFormed;
             Cycles(desired, o, listings, plans, ws) && k <= |plans| && Housed(desired, o, r) && Stuck(r, ObjAt(ws[0].site, HomeOf(r)))
    ensures Stuck(r, ObjAt(ws[k].site, HomeOf(r)))
    ensures Get(ws[k].site.objs[HomeOf(r)].config, Ide2) == Get(ws[0].site.objs[HomeOf(r)].config, Ide2)
    ensures k < |plans| ==> exists a | a in plans[k].actions :: a.what == Update && LocOf(a) == HomeOf(r)
  {
    hide CycleStep, Housed, IsTemplate, DriveRefused, Vm.WellFormed;
    if k > 0 {
      RefusedForever(desired, o, listings, plans, ws, k - 1, r);
      assert CycleStep(desired, o, listings[k - 1], plans[k - 1], ws[k - 1], ws[k - 1 + 1]);
      CycleStalls(desired, o, listings[k - 1], plans[k - 1], ws[k - 1], ws[k], r);
      StillStuck(r, ws[k - 1].site, ws[k].site, HomeOf(r));
    }
    if k < |plans| {
      assert CycleStep(desired, o, listings[k], plans[k], ws[k], ws[k + 1]);
      CycleStalls(desired, o, listings[k], plans[k], ws[k], ws[k + 1], r);
    }
  }
}
