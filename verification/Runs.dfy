/** Prunes over runs of cycles: progress towards no orphans, and the empty-desired guard. */
module Runs {
  import opened Devices
  import opened Owned
  import opened Desired
  import opened Seqs
  import opened Plan
  import opened PlanSafety
  import opened World
  import opened Exec
  import opened Live
  import opened Local
  import opened ExecSafety
  import opened PowerSafety

  // ----- orphans -----

  /** A live object the prune pass may delete: tagged, on an allowed node, claimed by no manifest of
      its family, by id or by name. */
  predicate IsOrphan(desired: seq<Resource>, allow: seq<string>, loc: Loc, o: Obj) {
    && loc.id > 0
    && NodeAllowed(allow, loc.node)
    && !Claimed(desired, loc.node, KindOf(o.family), loc.id)
    && !NamedBy(desired, KindOf(o.family), Get(o.config, Name))
    && HasTag(Get(o.config, Tags), OWNERSHIP_TAG)
    && !(IsTemplate(o.config) && DesiredTemplate(desired, TemplateVM, loc.node, loc.id))
    && !(IsTemplate(o.config) && DesiredTemplate(desired, TemplateCT, loc.node, loc.id))
  }

  function Orphans(desired: seq<Resource>, allow: seq<string>, s: Site): set<Loc> {
    set loc | loc in s.objs && IsOrphan(desired, allow, loc, s.objs[loc])
  }

  /** All reads of a cycle succeed. */
  function AllReads(s: Site, desired: seq<Resource>): Reads { Reads(s.objs.Keys, s.objs.Keys, WantedFiles(desired)) }

  /** A fully read inventory. */
  function FullInventory(listing: seq<Listed>, s: Site, desired: seq<Resource>, allow: seq<string>): LiveInventory {
    Inventory(listing, s, desired, allow, AllReads(s, desired))
  }

  lemma JudgedOrphan(e: Listed, s: Site, listing: seq<Listed>, desired: seq<Resource>, o: Options)
    requires Lists(listing, s) && e in listing
    ensures Judge(e, desired, FullInventory(listing, s, desired, o.allow), o) == Orphan <==>
            IsGuestEntry(e) && EntryLoc(e) in Orphans(desired, o.allow, s)
  {
    hide Lists, Inventory, NormalizeKind, NodeAllowed, IsTemplate, Claimed, NamedBy, DesiredTemplate, HasTag;
    ListedFamily(e, s, listing);
    InventoryAt(listing, s, desired, o.allow, AllReads(s, desired), e.node, NormalizeKind(e.typ), e.vmid);
  }

  lemma ListedFamily(e: Listed, s: Site, listing: seq<Listed>)
    requires Lists(listing, s) && e in listing
    ensures IsGuestEntry(e) ==> EntryLoc(e) in s.objs && NormalizeKind(e.typ) == KindOf(s.objs[EntryLoc(e)].family)
    ensures !IsGuestEntry(e) ==> e.node == "" || e.vmid <= 0 || e.typ == "" || (NormalizeKind(e.typ) != VM && NormalizeKind(e.typ) != LXC)
  {
    hide NormalizeKind;
  }

  /** The candidates are the orphans, each once. */
  lemma CandidatesAreOrphans(listing: seq<Listed>, s: Site, desired: seq<Resource>, o: Options)
    requires Lists(listing, s)
    ensures var cs := Candidates(listing, desired, FullInventory(listing, s, desired, o.allow), o);
            && DistinctTargets(cs) && |cs| == |Orphans(desired, o.allow, s)|
            && (forall a | a in cs :: LocOf(a) in Orphans(desired, o.allow, s) && a.kind == KindOf(s.objs[LocOf(a)].family) && a.what == Delete)
            && (forall loc | loc in Orphans(desired, o.allow, s) :: exists a | a in cs :: LocOf(a) == loc)
  {
    hide Lists, FullInventory, Judge, PruneOf, IsOrphan, IsGuestEntry;
    var inv := FullInventory(listing, s, desired, o.allow);
    var cs := Candidates(listing, desired, inv, o);
    ListsDistinct(listing, s);
    CandidatesDistinct(listing, desired, inv, o);
    forall a | a in cs ensures LocOf(a) in Orphans(desired, o.allow, s) && a.kind == KindOf(s.objs[LocOf(a)].family) && a.what == Delete {
      CandidateSource(listing, desired, inv, o, a);
      var e :| e in listing && Judge(e, desired, inv, o) == Orphan && a == PruneOf(e, inv);
      JudgedOrphan(e, s, listing, desired, o);
      PruneShape(e, inv);
      ListedFamily(e, s, listing);
      PruneKind(e, inv);
    }
    forall loc | loc in Orphans(desired, o.allow, s) ensures exists a | a in cs :: LocOf(a) == loc {
      var e := ListedAt(listing, s, loc);
      JudgedOrphan(e, s, listing, desired, o);
      CandidateSource(listing, desired, inv, o, PruneOf(e, inv));
      PruneShape(e, inv);
      assert PruneOf(e, inv) in cs;
    }
    CountTargets(cs);
    assert Targets(cs) == Orphans(desired, o.allow, s);
  }

  lemma PruneKind(e: Listed, live: LiveInventory)
    ensures PruneOf(e, live).kind == NormalizeKind(e.typ)
  {
    hide NormalizeKind;
  }

  lemma ListedAt(listing: seq<Listed>, s: Site, loc: Loc) returns (e: Listed)
    requires Lists(listing, s) && loc in s.objs
    ensures e in listing && IsGuestEntry(e) && EntryLoc(e) == loc
  {
    hide IsGuestEntry, NormalizeKind;
    e :| e in listing && IsGuestEntry(e) && EntryLoc(e) == loc;
  }

  function Targets(cs: seq<Action>): set<Loc> { set a | a in cs :: LocOf(a) }

  lemma {:induction false} CountTargets(cs: seq<Action>)
    requires DistinctTargets(cs)
    ensures |cs| == |Targets(cs)|
  {
    if cs != [] {
      var n := |cs| - 1;
      var front, last := cs[..n], cs[n];
      assert cs == front + [last];
      forall a | a in front ensures LocOf(a) != LocOf(last) {
        var i :| 0 <= i < n && front[i] == a;
        assert (cs[i].node, cs[i].id) != (cs[n].node, cs[n].id);
      }
      assert DistinctTargets(front);
      CountTargets(front);
      assert Targets(cs) == Targets(front) + {LocOf(last)};
      assert LocOf(last) !in Targets(front);
    }
  }

  // ----- one cycle -----

  /** One cycle against fixed desired state: listing, full read, plan, run. */
  ghost predicate CycleStep(desired: seq<Resource>, o: Options, listing: seq<Listed>, p: Plan, w: World, w': World) {
    && Lists(listing, w.site)
    && IsPlan(desired, FullInventory(listing, w.site, desired, o.allow), o, p)
    && w' == Run(w, p.actions, {}).world
  }

  lemma FullListing(listing: seq<Listed>, s: Site, desired: seq<Resource>, allow: seq<string>)
    ensures FullInventory(listing, s, desired, allow).listing == listing
  {
    hide Inventory;
    InventoryListing(listing, s, desired, allow, AllReads(s, desired));
  }

  /** An update, power change or mark is planned for an object of the manifest's own family. */
  lemma TouchesOwnFamily(desired: seq<Resource>, w: World, listing: seq<Listed>, o: Options, p: Plan, a: Action, r: Resource)
    requires hide *; Lists(listing, w.site) && IsPlan(desired, FullInventory(listing, w.site, desired, o.allow), o, p)
    requires OwnHomes(desired) && r in desired && Valid(r) && a in p.actions && PlannedFor(a, r, o) && a.what != Create
    ensures IsGuest(r) && HomeOf(r) in w.site.objs && KindOf(w.site.objs[HomeOf(r)].family) == BaseKind(r.kind)
  {
    hide IsPlan, Lists, Inventory, OwnHomes, Valid, PlannedFor, PlanOne, NodeAllowed, IsTemplate;
    var inv := FullInventory(listing, w.site, desired, o.allow);
    UpdateIsGuest(a, r, o);
    HomeOfAction(a, r, o);
    PlanAtHome(desired, inv, o, p, r);
    InFilter(p.actions, (x: Action) => x.tier == 0 && LocOf(x) == HomeOf(r), a);
    ValidBase(r);
    InventoryAt(listing, w.site, desired, o.allow, AllReads(w.site, desired), NodeOf(r), r.kind, IdOf(r));
    InventoryAt(listing, w.site, desired, o.allow, AllReads(w.site, desired), NodeOf(r), BaseKind(r.kind), IdOf(r));
    TouchedIsKeyed(r, inv, o, a);
  }

  lemma TouchedIsKeyed(r: Resource, live: LiveInventory, o: Options, a: Action)
    requires hide *; IsGuest(r) && PlanOne(r, live, o).Some? && a in PlanOne(r, live, o).value.actions && a.what != Create
    ensures ConfigAt(live, ObjKey(NodeOf(r), r.kind, IdOf(r))).Some? || ConfigAt(live, ObjKey(NodeOf(r), BaseKind(r.kind), IdOf(r))).Some?
  {
    hide DriftOf, IsTemplate, AnomaliesOf, ConfigAt, Power, DesiredState, LevelIn, CreateStep;
    CreateStepShape(r, o);
  }

  /** The same object, apart from its power state. */
  predicate Kept(s0: Site, s: Site, loc: Loc) {
    loc in s0.objs && loc in s.objs && s.objs[loc].family == s0.objs[loc].family && s.objs[loc].config == s0.objs[loc].config
  }

  /** What a run may do to one location: keep its object, leave it empty, or hold an object some
      manifest claims. */
  predicate Fits(desired: seq<Resource>, s0: Site, s: Site, loc: Loc) {
    loc !in s.objs || Kept(s0, s, loc) || Claimed(desired, loc.node, KindOf(s.objs[loc].family), loc.id)
  }

  /** One action keeps an object's family, or makes a new object of the action's family. */
  lemma ApplyFamily(w: World, a: Action)
    ensures var o, o' := ObjAt(w.site, LocOf(a)), ObjAt(Apply(w, a).world.site, LocOf(a));
            o'.Some? ==> if o.Some? then o'.value.family == o.value.family else a.what == Create && o'.value.family == FamilyOf(a.kind)
  {
    hide Accepts, ClonedConfig, CreatedConfig, Written, Vm.CloneBody, ApplyUpdate, ApplyDelete, ApplyCreate;
    match a.what
    case Update => UpdateFamily(w, a);
    case Delete => DeleteFamily(w, a);
    case Create => CreateFamily(w, a);
    case _ =>
  }

  lemma UpdateFamily(w: World, a: Action)
    ensures var o, o' := ObjAt(w.site, LocOf(a)), ObjAt(ApplyUpdate(w, a).world.site, LocOf(a));
            o'.Some? ==> o.Some? && o'.value.family == o.value.family
  {
    hide Accepts, Written;
  }

  lemma DeleteFamily(w: World, a: Action)
    ensures var o, o' := ObjAt(w.site, LocOf(a)), ObjAt(ApplyDelete(w, a).world.site, LocOf(a));
            o'.Some? ==> o.Some? && o'.value.family == o.value.family
  {
  }

  lemma CreateFamily(w: World, a: Action)
    ensures var o, o' := ObjAt(w.site, LocOf(a)), ObjAt(ApplyCreate(w, a).world.site, LocOf(a));
            o'.Some? ==> if o.Some? then o'.value.family == o.value.family else o'.value.family == FamilyOf(a.kind)
  {
    hide Accepts, ClonedConfig, CreatedConfig, Written, Vm.CloneBody, CloneCreate, Downloadable;
    CloneFamily(w, a);
  }

  lemma CloneFamily(w: World, a: Action)
    ensures var o, o' := ObjAt(w.site, LocOf(a)), ObjAt(CloneCreate(w, a).world.site, LocOf(a));
            o'.Some? ==> if o.Some? then o'.value.family == o.value.family else o'.value.family == Qemu
  {
    hide Do, Vm.CloneBody;
    var at := Loc(a.node, a.cloneSource);
    var c := Do(w, at, CloneTo(a.id, a.name));
    CloneOnce(w, a);
    if a.cloneSource != a.id && c.ok {
      var r := Do(c.world, LocOf(a), ReadConfig);
      ReadSame(c.world, LocOf(a));
      if r.ok && LocOf(a) in r.world.site.objs {
        var write := WriteConfig(Vm.CloneBody(a.params, r.world.site.objs[LocOf(a)].config), a.deletes);
        WriteKeeps(r.world, LocOf(a), write);
      }
    }
  }

  lemma CloneOnce(w: World, a: Action)
    ensures var o, o' := ObjAt(w.site, LocOf(a)), ObjAt(Do(w, Loc(a.node, a.cloneSource), CloneTo(a.id, a.name)).world.site, LocOf(a));
            o'.Some? ==> if o.Some? then o'.value.family == o.value.family else o'.value.family == Qemu
  {
    hide ClonedConfig;
  }

  lemma ReadSame(w: World, loc: Loc)
    ensures Do(w, loc, ReadConfig).world.site == w.site
  {
  }

  lemma WriteKeeps(w: World, loc: Loc, call: Call)
    requires call.WriteConfig? && loc in w.site.objs
    ensures loc in Do(w, loc, call).world.site.objs && Do(w, loc, call).world.site.objs[loc].family == w.site.objs[loc].family
  {
    hide Accepts, Written;
  }

  lemma ClaimedByOwner(desired: seq<Resource>, r: Resource, k: Kind)
    requires OwnHomes(desired) && r in desired && Valid(r) && IsGuest(r)
    requires forall x | x in desired :: Valid(x)
    ensures Claimed(desired, NodeOf(r), k, IdOf(r)) <==> k == BaseKind(r.kind)
  {
    hide Valid, OwnHomes;
    ValidBase(r);
    if k == BaseKind(r.kind) {
      assert Claims(r, NodeOf(r), k, IdOf(r));
    }
    if Claimed(desired, NodeOf(r), k, IdOf(r)) {
      var x :| x in desired && Claims(x, NodeOf(r), k, IdOf(r));
      ValidBase(x);
      if x != r {
        HomesDiffer(desired, r, x);
      }
    }
  }

  /** A manifest's own action keeps its home fitting. */
  lemma FitsOwner(desired: seq<Resource>, w0: World, listing: seq<Listed>, o: Options, p: Plan, w: World, a: Action, r: Resource)
    requires Lists(listing, w0.site) && IsPlan(desired, FullInventory(listing, w0.site, desired, o.allow), o, p)
    requires OwnHomes(desired) && (forall r | r in desired :: Valid(r)) && a in p.actions
    requires r in desired && PlannedFor(a, r, o) && LocOf(a).id > 0 && Fits(desired, w0.site, w.site, LocOf(a))
    ensures Fits(desired, w0.site, Apply(w, a).world.site, LocOf(a))
  {
    hide IsPlan, Lists, FullInventory, OwnHomes, Valid, PlannedFor, Apply, Claimed;
    HomeOfAction(a, r, o);
    ValidBase(r);
    KindOfAction(a, r, o);
    ApplyFamily(w, a);
    var loc, after := LocOf(a), Apply(w, a).world.site;
    if loc in after.objs {
      ClaimedByOwner(desired, r, KindOf(after.objs[loc].family));
      if a.what == Create {
        if loc in w.site.objs {
          CreateBusy(w, a);
        } else {
          FamilyIsBase(a.kind);
        }
      } else {
        TouchesOwnFamily(desired, w0, listing, o, p, a, r);
        ClaimedByOwner(desired, r, KindOf(w.site.objs[loc].family));
      }
    }
  }

  lemma KindOfAction(a: Action, r: Resource, o: Options)
    requires PlannedFor(a, r, o)
    ensures a.kind == r.kind
  {
  }

  lemma FamilyIsBase(k: Kind)
    requires BaseKind(k) in {VM, LXC}
    ensures KindOf(FamilyOf(k)) == BaseKind(k)
  {
  }

  lemma PruneFits(desired: seq<Resource>, s0: Site, w: World, a: Action)
    requires a.what == Delete && Fits(desired, s0, w.site, LocOf(a))
    ensures Fits(desired, s0, Apply(w, a).world.site, LocOf(a))
  {
    hide Apply, Claimed;
    DeleteOnly(w, a);
  }

  /** A delete removes the object or leaves it, stopped at most. */
  lemma DeleteOnly(w: World, a: Action)
    requires a.what == Delete
    ensures LocOf(a) !in Apply(w, a).world.site.objs || Kept(w.site, Apply(w, a).world.site, LocOf(a))
  {
  }

  /** One action of the plan keeps every location fitting. */
  lemma ApplyFits(desired: seq<Resource>, w0: World, listing: seq<Listed>, o: Options, p: Plan, w: World, a: Action, loc: Loc)
    requires Lists(listing, w0.site) && IsPlan(desired, FullInventory(listing, w0.site, desired, o.allow), o, p)
    requires OwnHomes(desired) && (forall r | r in desired :: Valid(r)) && a in p.actions
    requires loc.id > 0 && Fits(desired, w0.site, w.site, loc)
    ensures Fits(desired, w0.site, Apply(w, a).world.site, loc)
  {
    hide IsPlan, Lists, FullInventory, OwnHomes, Valid, PlannedFor, Judge, PruneOf, Apply, Claimed;
    var inv := FullInventory(listing, w0.site, desired, o.allow);
    if LocOf(a) != loc {
      ApplyFrame(w, a, loc);
    } else {
      ActionSource(desired, inv, o, p, a);
      if exists r | r in desired :: PlannedFor(a, r, o) {
        var r :| r in desired && PlannedFor(a, r, o);
        FitsOwner(desired, w0, listing, o, p, w, a, r);
      } else {
        var e :| e in inv.listing && Judge(e, desired, inv, o) == Orphan && a == PruneOf(e, inv) && a.kind !in p.suppressed;
        PruneShape(e, inv);
        PruneFits(desired, w0.site, w, a);
      }
    }
  }

  lemma {:induction false} RunFits(desired: seq<Resource>, w0: World, listing: seq<Listed>, o: Options, p: Plan, w: World, actions: seq<Action>, failed: set<Failure>, loc: Loc)
    requires Lists(listing, w0.site) && IsPlan(desired, FullInventory(listing, w0.site, desired, o.allow), o, p)
    requires OwnHomes(desired) && (forall r | r in desired :: Valid(r)) && forall a | a in actions :: a in p.actions
    requires loc.id > 0 && Fits(desired, w0.site, w.site, loc)
    ensures Fits(desired, w0.site, Run(w, actions, failed).world.site, loc)
    decreases |actions|
  {
    hide IsPlan, Lists, FullInventory, OwnHomes, Valid, Apply, Run, Exec.Deferred, Fits;
    if actions == [] {
      RunNone(w, failed);
    } else {
      RunHead(w, actions, failed);
      var a, one := actions[0], Apply(w, actions[0]);
      if Exec.Deferred(a, failed) {
        RunFits(desired, w0, listing, o, p, w, actions[1..], failed, loc);
      } else {
        ApplyFits(desired, w0, listing, o, p, w, a, loc);
        RunFits(desired, w0, listing, o, p, one.world, actions[1..], FailedAfter(a, one.ok, failed), loc);
      }
    }
  }

  /** No cycle makes an orphan, whatever calls fail: new objects belong to manifests and kept objects
      keep what makes or unmakes an orphan. */
  lemma NoNewOrphans(desired: seq<Resource>, o: Options, listing: seq<Listed>, p: Plan, w: World, w': World)
    requires CycleStep(desired, o, listing, p, w, w') && OwnHomes(desired) && forall r | r in desired :: Valid(r)
    ensures Orphans(desired, o.allow, w'.site) <= Orphans(desired, o.allow, w.site)
  {
    hide IsPlan, Lists, FullInventory, OwnHomes, Valid, Run, Claimed, NodeAllowed, NamedBy, IsTemplate, DesiredTemplate, HasTag;
    forall loc | loc in Orphans(desired, o.allow, w'.site) ensures loc in Orphans(desired, o.allow, w.site) {
      if loc in w.site.objs {
        StartsFitting(desired, w.site, loc);
      }
      RunFits(desired, w, listing, o, p, w, p.actions, {}, loc);
    }
  }

  lemma StartsFitting(desired: seq<Resource>, s: Site, loc: Loc)
    ensures Fits(desired, s, s, loc)
  {
    hide Claimed;
  }

  // ----- progress -----

  lemma ApplyNoFaults(w: World, a: Action)
    requires w.faults == []
    ensures Apply(w, a).world.faults == []
  {
    hide Effect, Vm.CloneBody, Downloadable;
  }

  lemma {:induction false} RunNoFaults(w: World, actions: seq<Action>, failed: set<Failure>)
    requires w.faults == []
    ensures Run(w, actions, failed).world.faults == []
    decreases |actions|
  {
    hide Apply, Run, Exec.Deferred;
    if actions == [] {
      RunNone(w, failed);
    } else {
      RunHead(w, actions, failed);
      var a, one := actions[0], Apply(w, actions[0]);
      ApplyNoFaults(w, a);
      RunNoFaults(if Exec.Deferred(a, failed) then w else one.world, actions[1..],
                  if Exec.Deferred(a, failed) then failed else FailedAfter(a, one.ok, failed));
    }
  }

  /** When nothing fails a delete with an accurate power state succeeds. */
  lemma DeleteWorks(w: World, a: Action)
    requires a.what == Delete && w.faults == [] && LocOf(a) in w.site.objs
    requires (a.livePower == RUNNING) == Running(w.site, LocOf(a))
    ensures Apply(w, a).ok && LocOf(a) !in Apply(w, a).world.site.objs
  {
  }

  lemma {:induction false} DeletesKeepAbsent(w: World, actions: seq<Action>, failed: set<Failure>, loc: Loc)
    requires loc !in w.site.objs && forall a | a in actions :: a.what == Delete
    ensures loc !in Run(w, actions, failed).world.site.objs
    decreases |actions|
  {
    hide Apply, Run, Exec.Deferred;
    if actions == [] {
      RunNone(w, failed);
    } else {
      RunHead(w, actions, failed);
      var a, one := actions[0], Apply(w, actions[0]);
      if Exec.Deferred(a, failed) {
        DeletesKeepAbsent(w, actions[1..], failed, loc);
      } else {
        if LocOf(a) == loc {
          DeleteOnly(w, a);
        } else {
          ApplyFrame(w, a, loc);
        }
        DeletesKeepAbsent(one.world, actions[1..], FailedAfter(a, one.ok, failed), loc);
      }
    }
  }

  lemma AfterDeleteOnlyDeletes(desired: seq<Resource>, live: LiveInventory, o: Options, p: Plan, i: nat)
    requires hide *; IsPlan(desired, live, o, p) && i < |p.actions| && p.actions[i].what == Delete
    ensures forall a | a in p.actions[i + 1..] :: a.what == Delete
  {
    hide IsPlan, PlannedFor, Judge, PruneOf, PlanDesired, Candidates, WithinBudget, InOrder;
    DeleteTier(desired, live, o, p, i);
    var chosen, excess := PlanParts(desired, live, o, p);
    forall a | a in p.actions[i + 1..] ensures a.what == Delete {
      var j :| i < j < |p.actions| && p.actions[j] == a;
      OrderAt(p.actions, i, j);
      ActionSource(desired, live, o, p, a);
      if exists r | r in desired :: PlannedFor(a, r, o) {
        var r :| r in desired && PlannedFor(a, r, o);
        HomeOfAction(a, r, o);
      } else {
        var e :| e in live.listing && Judge(e, desired, live, o) == Orphan && a == PruneOf(e, live) && a.kind !in p.suppressed;
        PruneShape(e, live);
      }
    }
  }

  lemma DeleteSnapshot(desired: seq<Resource>, w: World, listing: seq<Listed>, o: Options, p: Plan, a: Action)
    requires Lists(listing, w.site) && IsPlan(desired, FullInventory(listing, w.site, desired, o.allow), o, p)
    requires a in p.actions && a.what == Delete
    ensures LocOf(a) in w.site.objs && (a.livePower == RUNNING) == Running(w.site, LocOf(a)) && a.deps == []
    ensures LocOf(a) in Orphans(desired, o.allow, w.site)
  {
    hide IsPlan, Lists, Inventory, NodeAllowed, IsTemplate, PlannedFor, Judge, PruneOf, IsOrphan;
    var inv := FullInventory(listing, w.site, desired, o.allow);
    DeleteTarget(desired, w.site, listing, AllReads(w.site, desired), inv, o, p, a);
    InventoryAt(listing, w.site, desired, o.allow, AllReads(w.site, desired), a.node, a.kind, a.id);
    ActionSource(desired, inv, o, p, a);
    if exists r | r in desired :: PlannedFor(a, r, o) {
      var r :| r in desired && PlannedFor(a, r, o);
      NeverDeletes(a, r, o);
    } else {
      var e :| e in inv.listing && Judge(e, desired, inv, o) == Orphan && a == PruneOf(e, inv) && a.kind !in p.suppressed;
      PruneShape(e, inv);
      FullListing(listing, w.site, desired, o.allow);
      JudgedOrphan(e, w.site, listing, desired, o);
    }
  }

  /** In a cycle where nothing fails every planned delete removes its object for good. */
  lemma DeletedIsGone(desired: seq<Resource>, o: Options, listing: seq<Listed>, p: Plan, w: World, i: nat)
    requires hide *; Lists(listing, w.site) && IsPlan(desired, FullInventory(listing, w.site, desired, o.allow), o, p)
    requires OwnHomes(desired) && (forall r | r in desired :: Valid(r)) && w.faults == []
    requires i < |p.actions| && p.actions[i].what == Delete
    ensures LocOf(p.actions[i]) !in Run(w, p.actions, {}).world.site.objs
  {
    hide IsPlan, Lists, Inventory, OwnHomes, Valid, Apply, Run, Orphans;
    var a, loc, before := p.actions[i], LocOf(p.actions[i]), Upto(w, p.actions, i);
    var inv := FullInventory(listing, w.site, desired, o.allow);
    DeleteSnapshot(desired, w, listing, o, p, a);
    TargetUntouched(desired, w, listing, AllReads(w.site, desired), inv, o, p, i);
    RunNoFaults(w, p.actions[..i], {});
    StepAt(w, p.actions, i);
    assert !Exec.Deferred(a, before.failed);
    DeleteWorks(before.world, a);
    AfterDeleteOnlyDeletes(desired, inv, o, p, i);
    var after := Upto(w, p.actions, i + 1);
    RunSplit(w, p.actions[..i + 1], p.actions[i + 1..], {});
    assert p.actions[..i + 1] + p.actions[i + 1..] == p.actions;
    DeletesKeepAbsent(after.world, p.actions[i + 1..], after.failed, loc);
  }

  /** An orphan no delete is planned for keeps its object untouched, whatever calls fail. */
  lemma SparedIsUntouched(desired: seq<Resource>, o: Options, listing: seq<Listed>, p: Plan, w: World, loc: Loc)
    requires Lists(listing, w.site) && IsPlan(desired, FullInventory(listing, w.site, desired, o.allow), o, p)
    requires OwnHomes(desired) && (forall r | r in desired :: Valid(r))
    requires loc in Orphans(desired, o.allow, w.site) && forall a | a in p.actions && a.what == Delete :: LocOf(a) != loc
    ensures ObjAt(Run(w, p.actions, {}).world.site, loc) == ObjAt(w.site, loc)
  {
    hide IsPlan, Lists, Inventory, OwnHomes, Valid, Run, PlannedFor, Judge, PruneOf, Claimed, NamedBy, HasTag, DesiredTemplate;
    var inv := FullInventory(listing, w.site, desired, o.allow);
    forall a | a in p.actions && LocOf(a) == loc ensures a.what == Create && !ArtifactKind(a.kind) {
      ActionSource(desired, inv, o, p, a);
      if exists r | r in desired :: PlannedFor(a, r, o) {
        var r :| r in desired && PlannedFor(a, r, o);
        OnlyCreatesAtOrphan(desired, w, listing, o, p, a, r);
      } else {
        var e :| e in inv.listing && Judge(e, desired, inv, o) == Orphan && a == PruneOf(e, inv) && a.kind !in p.suppressed;
        PruneShape(e, inv);
      }
    }
    RunKeeps(w, p.actions, {}, loc);
  }

  lemma OnlyCreatesAtOrphan(desired: seq<Resource>, w: World, listing: seq<Listed>, o: Options, p: Plan, a: Action, r: Resource)
    requires Lists(listing, w.site) && IsPlan(desired, FullInventory(listing, w.site, desired, o.allow), o, p)
    requires OwnHomes(desired) && (forall r | r in desired :: Valid(r)) && a in p.actions && r in desired && PlannedFor(a, r, o)
    requires LocOf(a) in Orphans(desired, o.allow, w.site)
    ensures a.what == Create && !ArtifactKind(a.kind)
  {
    hide IsPlan, Lists, Inventory, OwnHomes, Valid, PlannedFor, Claimed, NamedBy, HasTag, DesiredTemplate, IsTemplate, NodeAllowed;
    HomeOfAction(a, r, o);
    ValidBase(r);
    KindOfAction(a, r, o);
    if a.what != Create {
      TouchesOwnFamily(desired, w, listing, o, p, a, r);
      ClaimedByOwner(desired, r, BaseKind(r.kind));
    }
  }

  /** After a cycle where nothing fails the orphans are those of before, minus the deleted ones. */
  lemma OrphansAfter(desired: seq<Resource>, o: Options, listing: seq<Listed>, p: Plan, w: World, w': World)
    requires CycleStep(desired, o, listing, p, w, w') && w.faults == []
    requires OwnHomes(desired) && forall r | r in desired :: Valid(r)
    ensures Orphans(desired, o.allow, w'.site) == Orphans(desired, o.allow, w.site) - Targets(Deletes(p))
  {
    hide IsPlan, Lists, FullInventory, OwnHomes, Valid, Run, IsOrphan, Targets, Deletes;
    NoNewOrphans(desired, o, listing, p, w, w');
    forall loc | loc in Orphans(desired, o.allow, w.site)
      ensures loc in Orphans(desired, o.allow, w'.site) <==> loc !in Targets(Deletes(p))
    {
      DeleteTargets(p, loc);
      if loc in Targets(Deletes(p)) {
        var i :| 0 <= i < |p.actions| && p.actions[i].what == Delete && LocOf(p.actions[i]) == loc;
        DeletedIsGone(desired, o, listing, p, w, i);
      } else {
        SparedIsUntouched(desired, o, listing, p, w, loc);
      }
    }
  }

  lemma DeleteTargets(p: Plan, loc: Loc)
    ensures loc in Targets(Deletes(p)) <==> exists i | 0 <= i < |p.actions| :: p.actions[i].what == Delete && LocOf(p.actions[i]) == loc
  {
    if exists i | 0 <= i < |p.actions| :: p.actions[i].what == Delete && LocOf(p.actions[i]) == loc {
      var i :| 0 <= i < |p.actions| && p.actions[i].what == Delete && LocOf(p.actions[i]) == loc;
      InFilter(p.actions, (a: Action) => a.what == Delete, p.actions[i]);
    }
  }

  lemma SubDistinct(f: seq<Action>, all: seq<Action>)
    requires multiset(f) <= multiset(all) && DistinctTargets(all)
    ensures DistinctTargets(f)
  {
    hide DistinctTargets;
    forall i, j | 0 <= i < j < |f| ensures (f[i].node, f[i].id) != (f[j].node, f[j].id) {
      assert f[i] in multiset(f) && f[j] in multiset(f);
      assert f[i] in all && f[j] in all;
      if f[i].node == f[j].node && f[i].id == f[j].id {
        SameTargetSame(all, f[i], f[j]);
        Repeated(f, i, j);
        OncePerTarget(all, f[i]);
      }
    }
    DistinctIs(f);
  }

  lemma DistinctIs(f: seq<Action>)
    requires forall i, j | 0 <= i < j < |f| :: (f[i].node, f[i].id) != (f[j].node, f[j].id)
    ensures DistinctTargets(f)
  {
  }

  function Min(a: int, b: int): int { if a < b then a else b }

  /** Without a guard each cycle deletes the budget's worth of orphans, or all that are left. */
  lemma DeleteCount(desired: seq<Resource>, o: Options, listing: seq<Listed>, p: Plan, s: Site)
    requires Lists(listing, s) && IsPlan(desired, FullInventory(listing, s, desired, o.allow), o, p)
    requires o.budget > 0 && p.suppressed == {}
    ensures |Targets(Deletes(p))| == Min(o.budget, |Orphans(desired, o.allow, s)|)
  {
    hide IsPlan, Lists, FullInventory, Orphans, Candidates, DistinctTargets, Deletes, Targets, PlanDesired, InOrder;
    var inv := FullInventory(listing, s, desired, o.allow);
    var all := Candidates(listing, desired, inv, o);
    FullListing(listing, s, desired, o.allow);
    CandidatesAreOrphans(listing, s, desired, o);
    var chosen, excess := PlanParts(desired, inv, o, p);
    FilterAll(all, (a: Action) => a.kind !in p.suppressed);
    DeletesAreChosen(desired, inv, o, p, chosen, excess);
    ChosenAreActive(all, o.budget, chosen, excess);
    SameSize(Deletes(p), chosen);
    assert multiset(Deletes(p)) <= multiset(all);
    SubDistinct(Deletes(p), all);
    CountTargets(Deletes(p));
  }

  /** Prune progress of one cycle. */
  lemma PruneProgress(desired: seq<Resource>, o: Options, listing: seq<Listed>, p: Plan, w: World, w': World)
    requires CycleStep(desired, o, listing, p, w, w') && w.faults == []
    requires OwnHomes(desired) && forall r | r in desired :: Valid(r)
    requires o.budget > 0 && p.suppressed == {}
    ensures Orphans(desired, o.allow, w'.site) <= Orphans(desired, o.allow, w.site)
    ensures |Orphans(desired, o.allow, w'.site)|
            == |Orphans(desired, o.allow, w.site)| - Min(o.budget, |Orphans(desired, o.allow, w.site)|)
    ensures w'.faults == []
  {
    hide IsPlan, Lists, FullInventory, OwnHomes, Valid, Run, Orphans, Deletes, Targets;
    OrphansAfter(desired, o, listing, p, w, w');
    DeleteCount(desired, o, listing, p, w.site);
    RunNoFaults(w, p.actions, {});
    forall loc | loc in Targets(Deletes(p)) ensures loc in Orphans(desired, o.allow, w.site) {
      DeleteTargets(p, loc);
      var i :| 0 <= i < |p.actions| && p.actions[i].what == Delete && LocOf(p.actions[i]) == loc;
      DeleteSnapshot(desired, w, listing, o, p, p.actions[i]);
    }
    RemoveSome(Orphans(desired, o.allow, w.site), Targets(Deletes(p)));
  }

  lemma RemoveSome<T>(a: set<T>, b: set<T>)
    requires b <= a
    ensures |a - b| == |a| - |b|
  {
    assert a == (a - b) + b;
  }

  // ----- the guard -----

  function OrphansOfKind(desired: seq<Resource>, allow: seq<string>, s: Site, k: Kind): set<Loc> {
    set loc | loc in Orphans(desired, allow, s) && KindOf(s.objs[loc].family) == k
  }

  lemma CountOfKind(desired: seq<Resource>, o: Options, listing: seq<Listed>, s: Site, k: Kind)
    requires Lists(listing, s)
    ensures |Filter(Candidates(listing, desired, FullInventory(listing, s, desired, o.allow), o), (a: Action) => a.kind == k)|
            == |OrphansOfKind(desired, o.allow, s, k)|
  {
    hide Lists, FullInventory, Orphans, Candidates, DistinctTargets;
    var all, p := Candidates(listing, desired, FullInventory(listing, s, desired, o.allow), o), (a: Action) => a.kind == k;
    CandidatesAreOrphans(listing, s, desired, o);
    var f := Filter(all, p);
    FilterWithin(all, p);
    SubDistinct(f, all);
    CountTargets(f);
    forall loc | loc in OrphansOfKind(desired, o.allow, s, k) ensures loc in Targets(f) {
      var a :| a in all && LocOf(a) == loc;
      InFilter(all, p, a);
    }
    assert Targets(f) == OrphansOfKind(desired, o.allow, s, k);
  }

  /** The guard trips for a kind exactly when it has no manifest and more orphans than the budget. */
  lemma GuardExactly(desired: seq<Resource>, o: Options, listing: seq<Listed>, p: Plan, s: Site, k: Kind)
    requires Lists(listing, s) && IsPlan(desired, FullInventory(listing, s, desired, o.allow), o, p)
    ensures k in p.suppressed <==> k in {VM, LXC} && !AnyOfKind(desired, k) && |OrphansOfKind(desired, o.allow, s, k)| > o.budget
  {
    hide IsPlan, Lists, FullInventory, Candidates, AnyOfKind, OrphansOfKind, PlanDesired;
    PassExists(desired, FullInventory(listing, s, desired, o.allow), o, p);
    FullListing(listing, s, desired, o.allow);
    CountOfKind(desired, o, listing, s, k);
  }

  /** A kind with no manifest and more orphans than the budget loses nothing: its orphans come out of
      the cycle untouched, whatever calls fail. */
  lemma GuardedKindKept(desired: seq<Resource>, o: Options, listing: seq<Listed>, p: Plan, w: World, w': World, k: Kind)
    requires CycleStep(desired, o, listing, p, w, w') && OwnHomes(desired) && forall r | r in desired :: Valid(r)
    requires k in {VM, LXC} && !AnyOfKind(desired, k) && |OrphansOfKind(desired, o.allow, w.site, k)| > o.budget
    ensures forall loc | loc in OrphansOfKind(desired, o.allow, w.site, k) :: ObjAt(w'.site, loc) == ObjAt(w.site, loc)
    ensures OrphansOfKind(desired, o.allow, w'.site, k) == OrphansOfKind(desired, o.allow, w.site, k)
  {
    hide IsPlan, Lists, FullInventory, OwnHomes, Valid, Run, IsOrphan, AnyOfKind;
    GuardExactly(desired, o, listing, p, w.site, k);
    forall loc | loc in OrphansOfKind(desired, o.allow, w.site, k) ensures ObjAt(w'.site, loc) == ObjAt(w.site, loc) {
      forall a | a in p.actions && a.what == Delete ensures LocOf(a) != loc {
        DeleteOfKind(desired, w, listing, o, p, a);
      }
      SparedIsUntouched(desired, o, listing, p, w, loc);
    }
    NoNewOfKind(desired, o, listing, p, w, w', k);
  }

  lemma DeleteOfKind(desired: seq<Resource>, w: World, listing: seq<Listed>, o: Options, p: Plan, a: Action)
    requires hide *; Lists(listing, w.site) && IsPlan(desired, FullInventory(listing, w.site, desired, o.allow), o, p)
    requires a in p.actions && a.what == Delete
    ensures LocOf(a) in w.site.objs && KindOf(w.site.objs[LocOf(a)].family) !in p.suppressed
  {
    hide IsPlan, Lists, Inventory, NodeAllowed, HasTag, NamedBy, NormalizeKind, BaseKind, ArtifactKind;
    var inv := FullInventory(listing, w.site, desired, o.allow);
    DeleteTarget(desired, w.site, listing, AllReads(w.site, desired), inv, o, p, a);
    PruneSafety(desired, inv, o, p, a);
  }

  lemma NoNewOfKind(desired: seq<Resource>, o: Options, listing: seq<Listed>, p: Plan, w: World, w': World, k: Kind)
    requires CycleStep(desired, o, listing, p, w, w') && OwnHomes(desired) && forall r | r in desired :: Valid(r)
    requires forall loc | loc in OrphansOfKind(desired, o.allow, w.site, k) :: ObjAt(w'.site, loc) == ObjAt(w.site, loc)
    ensures OrphansOfKind(desired, o.allow, w'.site, k) == OrphansOfKind(desired, o.allow, w.site, k)
  {
    hide IsPlan, Lists, FullInventory, OwnHomes, Valid, Run, Claimed, NodeAllowed, NamedBy, IsTemplate, DesiredTemplate, HasTag;
    NoNewOrphans(desired, o, listing, p, w, w');
    forall loc | loc in OrphansOfKind(desired, o.allow, w'.site, k) ensures loc in OrphansOfKind(desired, o.allow, w.site, k) {
      StartsFitting(desired, w.site, loc);
      RunFits(desired, w, listing, o, p, w, p.actions, {}, loc);
    }
  }

  // ----- any number of cycles -----

  /** A run of cycles against fixed desired state. */
  ghost predicate Cycles(desired: seq<Resource>, o: Options, listings: seq<seq<Listed>>, plans: seq<Plan>, ws: seq<World>) {
    hide *;
    && |ws| == |plans| + 1 && |listings| == |plans|
    && forall k | 0 <= k < |plans| :: CycleStep(desired, o, listings[k], plans[k], ws[k], ws[k + 1])
  }

  predicate Unguarded(desired: seq<Resource>, o: Options, s: Site) {
    forall k | k in {VM, LXC} :: AnyOfKind(desired, k) || |OrphansOfKind(desired, o.allow, s, k)| <= o.budget
  }

  lemma StaysUnguarded(desired: seq<Resource>, o: Options, listing: seq<Listed>, p: Plan, w: World, w': World)
    requires CycleStep(desired, o, listing, p, w, w') && w.faults == [] && Unguarded(desired, o, w.site)
    requires OwnHomes(desired) && forall r | r in desired :: Valid(r)
    ensures Unguarded(desired, o, w'.site) && p.suppressed == {}
  {
    hide IsPlan, Lists, FullInventory, OwnHomes, Valid, Run, IsOrphan, AnyOfKind;
    forall k ensures k !in p.suppressed {
      GuardExactly(desired, o, listing, p, w.site, k);
    }
    OrphansAfter(desired, o, listing, p, w, w');
    forall k | k in {VM, LXC} && !AnyOfKind(desired, k) ensures |OrphansOfKind(desired, o.allow, w'.site, k)| <= o.budget {
      KindShrinks(desired, o, listing, p, w, w', k);
      SubsetSize(OrphansOfKind(desired, o.allow, w'.site, k), OrphansOfKind(desired, o.allow, w.site, k));
    }
  }

  lemma KindShrinks(desired: seq<Resource>, o: Options, listing: seq<Listed>, p: Plan, w: World, w': World, k: Kind)
    requires CycleStep(desired, o, listing, p, w, w') && OwnHomes(desired) && forall r | r in desired :: Valid(r)
    ensures OrphansOfKind(desired, o.allow, w'.site, k) <= OrphansOfKind(desired, o.allow, w.site, k)
  {
    hide IsPlan, Lists, FullInventory, OwnHomes, Valid, Run, Claimed, NodeAllowed, NamedBy, IsTemplate, DesiredTemplate, HasTag;
    NoNewOrphans(desired, o, listing, p, w, w');
    forall loc | loc in OrphansOfKind(desired, o.allow, w'.site, k) ensures loc in OrphansOfKind(desired, o.allow, w.site, k) {
      StartsFitting(desired, w.site, loc);
      RunFits(desired, w, listing, o, p, w, p.actions, {}, loc);
    }
  }

  lemma SubsetSize<T>(a: set<T>, b: set<T>)
    requires a <= b
    ensures |a| <= |b|
  {
    RemoveSome(b, a);
  }

  /** With a positive budget, no guard and no failing call, k cycles leave n - k * budget orphans, and
      none once k * budget reaches n. */
  lemma {:induction false} AllPruned(desired: seq<Resource>, o: Options, listings: seq<seq<Listed>>, plans: seq<Plan>, ws: seq<World>, k: nat)
    requires hide CycleStep, OwnHomes, Valid, Unguarded, Orphans; Cycles(desired, o, listings, plans, ws) && ws[0].faults == [] && k <= |plans|
    requires OwnHomes(desired) && (forall r | r in desired :: Valid(r))
    requires o.budget > 0 && Unguarded(desired, o, ws[0].site)
    ensures ws[k].faults == [] && Unguarded(desired, o, ws[k].site)
    ensures var n := |Orphans(desired, o.allow, ws[0].site)|;
            |Orphans(desired, o.allow, ws[k].site)| == n - Min(k * o.budget, n)
  {
    hide OwnHomes, Valid, Orphans, Unguarded, CycleStep;
    if k > 0 {
      AllPruned(desired, o, listings, plans, ws, k - 1);
      assert CycleStep(desired, o, listings[k - 1], plans[k - 1], ws[k - 1], ws[k - 1 + 1]);
      StaysUnguarded(desired, o, listings[k - 1], plans[k - 1], ws[k - 1], ws[k]);
      PruneProgress(desired, o, listings[k - 1], plans[k - 1], ws[k - 1], ws[k]);
      assert k * o.budget == (k - 1) * o.budget + o.budget;
    }
  }

  /** A guarded kind loses nothing in any number of cycles, whatever calls fail. */
  lemma {:induction false} GuardedForever(desired: seq<Resource>, o: Options, listings: seq<seq<Listed>>, plans: seq<Plan>, ws: seq<World>, kind: Kind, k: nat)
    requires hide CycleStep, OwnHomes, Valid, OrphansOfKind, AnyOfKind; Cycles(desired, o, listings, plans, ws) && k <= |plans|
    requires OwnHomes(desired) && (forall r | r in desired :: Valid(r))
    requires kind in {VM, LXC} && !AnyOfKind(desired, kind) && |OrphansOfKind(desired, o.allow, ws[0].site, kind)| > o.budget
    ensures OrphansOfKind(desired, o.allow, ws[k].site, kind) == OrphansOfKind(desired, o.allow, ws[0].site, kind)
    ensures forall loc | loc in OrphansOfKind(desired, o.allow, ws[0].site, kind) :: ObjAt(ws[k].site, loc) == ObjAt(ws[0].site, loc)
  {
    hide OwnHomes, Valid, OrphansOfKind, CycleStep, AnyOfKind;
    if k > 0 {
      GuardedForever(desired, o, listings, plans, ws, kind, k - 1);
      assert CycleStep(desired, o, listings[k - 1], plans[k - 1], ws[k - 1], ws[k - 1 + 1]);
      GuardedKindKept(desired, o, listings[k - 1], plans[k - 1], ws[k - 1], ws[k], kind);
    }
  }
}
