/** One guest through planning and execution when no call fails: how its home evolves. */
module Converge {
  import opened Text
  import opened Owned
  import opened Desired
  import opened Plan
  import opened World
  import opened Exec
  import opened Live
  import opened Local
  import opened ExecSafety
  import opened PowerSafety
  import opened Runs
  import opened Guests
  import Vm

  predicate IsTemplateKind(k: Kind) { k == TemplateVM || k == TemplateCT }

  // ----- planning from the home alone -----

  function Under(obj: Option<Obj>, k: Kind): Option<Config> {
    if obj.Some? && KeyedAs(obj.value, k) then Some(obj.value.config) else None
  }

  function PowerUnder(obj: Option<Obj>, k: Kind): string {
    if obj.Some? && k == KindOf(obj.value.family) then StatusOf(obj.value) else ""
  }

  /** The plan of a guest whose home holds `obj`. */
  function LocalPlan(r: Resource, obj: Option<Obj>, o: Options): Option<Step> {
    PlanGuest(r, Under(obj, r.kind), Under(obj, BaseKind(r.kind)), PowerUnder(obj, r.kind), PowerUnder(obj, BaseKind(r.kind)), o)
  }

  /** In a fully read inventory a guest's plan depends on its home only. */
  lemma PlanIsLocal(r: Resource, listing: seq<Listed>, s: Site, desired: seq<Resource>, o: Options)
    requires Lists(listing, s) && IsGuest(r) && NodeAllowed(o.allow, NodeOf(r))
    ensures PlanOne(r, FullInventory(listing, s, desired, o.allow), o) == LocalPlan(r, ObjAt(s, HomeOf(r)), o)
  {
    hide Lists, Inventory, IsTemplate, PlanGuest;
    InventoryAt(listing, s, desired, o.allow, AllReads(s, desired), NodeOf(r), r.kind, IdOf(r));
    InventoryAt(listing, s, desired, o.allow, AllReads(s, desired), NodeOf(r), BaseKind(r.kind), IdOf(r));
  }

  // ----- states of a home -----

  predicate FamilyOk(r: Resource, obj: Option<Obj>) { obj.Some? ==> KindOf(obj.value.family) == BaseKind(r.kind) }

  /** Present with the template flag its manifest's kind calls for. */
  predicate Proper(r: Resource, obj: Option<Obj>) { obj.Some? && IsTemplate(obj.value.config) == IsTemplateKind(r.kind) }

  /** A plain guest's manifest at a PVE template: reported, never written. */
  predicate Mismatch(r: Resource, obj: Option<Obj>) { obj.Some? && IsTemplate(obj.value.config) && !IsTemplateKind(r.kind) }

  predicate Unmarked(r: Resource, obj: Option<Obj>) { obj.Some? && !IsTemplate(obj.value.config) && IsTemplateKind(r.kind) }

  /** What convergence asks of a live object, and every cycle keeps. */
  predicate Workable(r: Resource, obj: Option<Obj>) {
    hide *;
    && FamilyOk(r, obj)
    && (obj.Some? && !Mismatch(r, obj) ==> Tractable(r, obj.value.config))
    && (obj.Some? && IsTemplate(obj.value.config) ==> !obj.value.running)
  }

  /** A plain guest runs only if it should. */
  predicate NoOverrun(r: Resource, obj: Option<Obj>) {
    Proper(r, obj) && !IsTemplateKind(r.kind) && obj.value.running ==> DesiredState(r) == STARTED
  }

  /** Nothing left to do. */
  predicate Calm(r: Resource, obj: Option<Obj>) {
    hide DriftOf, IsTemplate, DesiredState;
    && Proper(r, obj) && DriftOf(r, obj.value.config).None?
    && (!IsTemplateKind(r.kind) ==> obj.value.running == (DesiredState(r) == STARTED))
  }

  predicate Settled(r: Resource, obj: Option<Obj>) { obj.Some? && !Unmarked(r, obj) }

  function Pending(r: Resource, obj: Option<Obj>, o: Options): seq<Action> {
    hide *;
    if LocalPlan(r, obj, o).Some? then LocalPlan(r, obj, o).value.actions else []
  }

  function OwnPower(r: Resource, obj: Obj): string { if IsTemplateKind(r.kind) then "" else StatusOf(obj) }

  lemma PowerWords()
    ensures RUNNING != STOPPED && STARTED != STOPPED && RUNNING != "" && STOPPED != ""
  {
    assert RUNNING[0] != STOPPED[0] && STARTED[1..3] != STOPPED[1..3] by {
      assert STARTED[2] != STOPPED[2];
    }
  }

  lemma GuestState(r: Resource)
    requires IsGuest(r)
    ensures DesiredState(r) == STARTED || DesiredState(r) == STOPPED
    ensures IsTemplateKind(r.kind) && Valid(r) ==> DesiredState(r) == STOPPED
  {
    hide Vm.IsCloneBacked;
  }

  /** The four shapes of a local plan. */
  lemma LocalShape(r: Resource, obj: Option<Obj>, o: Options)
    requires hide Valid, FamilyOk, LocalPlan, CreateStep, Pending, MarkStep, UpdateSteps, PowerSteps, OwnPower, IsTemplate; IsGuest(r) && Valid(r) && FamilyOk(r, obj)
    ensures obj.None? ==> LocalPlan(r, obj, o) == if CreateStep(r, o).None? then None else Some(NOTHING.(actions := [CreateStep(r, o).value]))
    ensures obj.Some? ==> LocalPlan(r, obj, o).Some?
    ensures Unmarked(r, obj) ==> Pending(r, obj, o) == [MarkStep(r, StatusOf(obj.value), o)]
    ensures Mismatch(r, obj) ==> Pending(r, obj, o) == []
    ensures Proper(r, obj) ==>
              Pending(r, obj, o) == UpdateSteps(r, obj.value.config, OwnPower(r, obj.value), o) + PowerSteps(r, OwnPower(r, obj.value), o)
  {
    hide DriftOf, AnomaliesOf, IsTemplate, CreateStep, UpdateSteps, PowerSteps, StatusOf, MarkStep;
    ValidBase(r);
    ValidKinds(r);
  }

  lemma ValidKinds(r: Resource)
    requires Valid(r) && IsGuest(r)
    ensures r.kind in {VM, LXC, TemplateVM, TemplateCT}
    ensures r.body.Machine? <==> r.kind in {VM, TemplateVM}
    ensures IsTemplateKind(r.kind) && r.body.Machine? ==> !Vm.IsCloneBacked(r.body.vm)
  {
    hide Vm.IsCloneBacked;
  }

  /** No drift and the right power: no pending action, and conversely. */
  lemma CalmIsQuiet(r: Resource, obj: Option<Obj>, o: Options)
    requires IsGuest(r) && Valid(r) && Workable(r, obj) && Proper(r, obj)
    ensures Calm(r, obj) <==> Pending(r, obj, o) == []
  {
    hide DriftOf, Tractable, IsTemplate, LocalPlan, Valid, DesiredState;
    LocalShape(r, obj, o);
    PowerWords();
    GuestState(r);
  }

  // ----- one call when nothing fails -----

  lemma DoWorks(w: World, loc: Loc, call: Call)
    requires w.faults == []
    ensures var e := Effect(w.site, loc, call); var d := Do(w, loc, call);
            d.world.faults == [] && d.ok == e.Some? && d.world.site == if e.Some? then e.value else w.site
  {
    hide Effect;
  }

  /** An accepted config write. */
  lemma WriteWorks(w: World, loc: Loc, sets: Config, deletes: set<Key>)
    requires w.faults == [] && loc in w.site.objs && Accepts(w.site.objs[loc].config, sets, deletes)
    ensures var d := Do(w, loc, WriteConfig(sets, deletes)); var obj := w.site.objs[loc];
            d.ok && d.world.faults == [] && ObjAt(d.world.site, loc) == Some(obj.(config := Written(obj.config, sets, deletes)))
  {
    hide Accepts, Written;
  }

  lemma PowerWorks(w: World, loc: Loc, start: bool)
    requires w.faults == [] && loc in w.site.objs
    ensures var d := Do(w, loc, if start then StartObj else StopObj); var obj := w.site.objs[loc];
            && d.ok == (obj.running != start) && d.world.faults == []
            && ObjAt(d.world.site, loc) == Some(obj.(running := start))
  {
  }

  lemma MarkWorks(w: World, loc: Loc)
    requires w.faults == [] && loc in w.site.objs
    ensures var d := Do(w, loc, SetTemplate); var obj := w.site.objs[loc];
            d.ok && d.world.faults == [] && ObjAt(d.world.site, loc) == Some(obj.(config := Flagged(obj.config), running := false))
  {
  }

  lemma CreateWorks(w: World, loc: Loc, family: Family, params: Config, start: bool)
    requires w.faults == [] && loc !in w.site.objs
    ensures var d := Do(w, loc, CreateObj(family, params, start));
            d.ok && d.world.faults == [] && ObjAt(d.world.site, loc) == Some(Obj(family, CreatedConfig(loc.id, params), start))
  {
    hide CreatedConfig;
  }

  // ----- an update -----

  /** What an update leaves at its home when nothing fails. */
  lemma UpdateWorks(w: World, a: Action)
    requires a.what == Update && w.faults == [] && LocOf(a) in w.site.objs && !ArtifactKind(a.kind)
    requires Accepts(w.site.objs[LocOf(a)].config, a.params, a.deletes)
    requires a.livePower == RUNNING ==> w.site.objs[LocOf(a)].running
    ensures var obj := w.site.objs[LocOf(a)];
            && Apply(w, a).ok
            && ObjAt(Apply(w, a).world.site, LocOf(a)) ==
               Some(obj.(config := Written(obj.config, a.params, a.deletes),
                         running := if a.stopFirst && a.livePower == RUNNING then a.desiredPower == STARTED else obj.running))
  {
    hide Do, Accepts, Written;
    var loc, obj := LocOf(a), w.site.objs[LocOf(a)];
    var stop := a.stopFirst && a.livePower == RUNNING;
    PowerWorks(w, loc, false);
    var s := if stop then Do(w, loc, StopObj) else Outcome(w, true);
    WriteWorks(s.world, loc, a.params, a.deletes);
    var c := Do(s.world, loc, WriteConfig(a.params, a.deletes));
    PowerWorks(c.world, loc, true);
  }

  /** A leftover stop of an object the update already stopped. */
  predicate StopLeft(r: Resource, mine: seq<Action>) {
    |mine| == 1 && mine[0].what == Stop && mine[0].deps == [] && mine[0].tier == 0 && LocOf(mine[0]) == HomeOf(r) && DesiredState(r) == STOPPED
  }

  /** Where one guest stands in a run: its plan still to do, done, or only the leftover stop. */
  predicate OnTrack(r: Resource, obj: Option<Obj>, mine: seq<Action>, o: Options) {
    && Workable(r, obj)
    && ((LocalPlan(r, obj, o).Some? && mine == Pending(r, obj, o))
        || (mine == [] && NoOverrun(r, obj))
        || (StopLeft(r, mine) && Calm(r, obj)))
  }

  /** The stronger track of a guest that was proper from the start. */
  predicate Settling(r: Resource, obj: Option<Obj>, mine: seq<Action>, o: Options) {
    || (LocalPlan(r, obj, o).Some? && mine == Pending(r, obj, o) && Proper(r, obj))
    || (Calm(r, obj) && (mine == [] || StopLeft(r, mine)))
  }

  /** The track of a guest in a run that has not failed so far. */
  predicate Unfailed(r: Resource, obj: Option<Obj>, mine: seq<Action>, o: Options) {
    && Workable(r, obj) && NoOverrun(r, obj)
    && ((LocalPlan(r, obj, o).Some? && mine == Pending(r, obj, o)) || (mine == [] && Settled(r, obj)))
  }

  lemma AdvanceUpdate(r: Resource, w: World, a: Action, rest: seq<Action>, o: Options)
    requires IsGuest(r) && Valid(r) && WellFormed(r) && w.faults == []
    requires var obj := ObjAt(w.site, HomeOf(r)); Workable(r, obj) && Proper(r, obj) && Pending(r, obj, o) == [a] + rest && a.what == Update
    ensures var obj, obj' := ObjAt(w.site, HomeOf(r)), ObjAt(Apply(w, a).world.site, HomeOf(r));
            && Apply(w, a).ok && OnTrack(r, obj', rest, o) && Settling(r, obj', rest, o)
            && (NoOverrun(r, obj) ==> Unfailed(r, obj', rest, o))
  {
    hide DriftOf, Tractable, IsTemplate, LocalPlan, Apply, Accepts, Written, Valid, WellFormed, DesiredState, LevelIn;
    var obj := ObjAt(w.site, HomeOf(r)).value;
    LocalShape(r, Some(obj), o);
    ValidBase(r);
    GuestState(r);
    PowerWords();
    OnlyUpdates(r, obj.config, OwnPower(r, obj), o, a, rest);
    UpdateSettles(r, obj.config);
    UpdateWorks(w, a);
    var obj' := ObjAt(Apply(w, a).world.site, HomeOf(r)).value;
    FlagKept(obj.config, a.params, a.deletes);
    CalmIsTractable(r, obj'.config);
    LocalShape(r, Some(obj'), o);
  }

  lemma FlagKept(cfg: Config, sets: Config, deletes: set<Key>)
    requires TemplateFlag !in sets && TemplateFlag !in deletes
    ensures IsTemplate(Written(cfg, sets, deletes)) == IsTemplate(cfg)
  {
    assert Get(Written(cfg, sets, deletes), TemplateFlag) == Get(cfg, TemplateFlag);
  }

  lemma OnlyUpdates(r: Resource, cfg: Config, power: string, o: Options, a: Action, rest: seq<Action>)
    requires hide *; UpdateSteps(r, cfg, power, o) + PowerSteps(r, power, o) == [a] + rest && a.what == Update && IsGuest(r)
    ensures DriftOf(r, cfg).Some? && rest == PowerSteps(r, power, o) && LocOf(a) == HomeOf(r) && a.kind == r.kind
    ensures var d := DriftOf(r, cfg).value; a.params == d.params && a.deletes == d.deletes && a.stopFirst == d.stop
    ensures a.livePower == power && a.desiredPower == DesiredState(r)
  {
    hide DriftOf, DesiredState, LevelIn;
    var u, p := UpdateSteps(r, cfg, power, o), PowerSteps(r, power, o);
    FirstOf(u, p);
    assert ([a] + rest)[0] == a && ([a] + rest)[1..] == rest;
  }

  lemma FirstOf(u: seq<Action>, p: seq<Action>)
    requires u + p != [] && |u| <= 1
    ensures (u + p)[0] == if u == [] then p[0] else u[0]
    ensures (u + p)[1..] == if u == [] then p[1..] else p
  {
    if u == [] {
      assert u + p == p;
    }
  }

  // ----- a power change -----

  lemma AdvancePower(r: Resource, w: World, a: Action, rest: seq<Action>, o: Options)
    requires IsGuest(r) && Valid(r) && w.faults == []
    requires var obj := ObjAt(w.site, HomeOf(r)); Workable(r, obj) && Proper(r, obj) && Pending(r, obj, o) == [a] + rest && a.what != Update
    ensures var obj, obj' := ObjAt(w.site, HomeOf(r)), ObjAt(Apply(w, a).world.site, HomeOf(r));
            && Apply(w, a).ok && OnTrack(r, obj', rest, o) && Settling(r, obj', rest, o)
            && (NoOverrun(r, obj) ==> Unfailed(r, obj', rest, o))
  {
    hide DriftOf, Tractable, IsTemplate, LocalPlan, Valid, DesiredState, LevelIn, Do;
    var obj := ObjAt(w.site, HomeOf(r)).value;
    LocalShape(r, Some(obj), o);
    GuestState(r);
    PowerWords();
    OnlyPower(r, obj.config, OwnPower(r, obj), o, a, rest);
    PowerWorks(w, HomeOf(r), a.what == Start);
    var obj' := ObjAt(Apply(w, a).world.site, HomeOf(r)).value;
    LocalShape(r, Some(obj'), o);
  }

  lemma OnlyPower(r: Resource, cfg: Config, power: string, o: Options, a: Action, rest: seq<Action>)
    requires UpdateSteps(r, cfg, power, o) + PowerSteps(r, power, o) == [a] + rest && a.what != Update && IsGuest(r)
    ensures DriftOf(r, cfg).None? && rest == [] && LocOf(a) == HomeOf(r) && a.kind == r.kind
    ensures PowerStep(DesiredState(r), power) == Some(a.what) && a.what in {Start, Stop}
  {
    hide DriftOf, DesiredState, LevelIn;
    var u, p := UpdateSteps(r, cfg, power, o), PowerSteps(r, power, o);
    FirstOf(u, p);
    assert ([a] + rest)[0] == a && ([a] + rest)[1..] == rest;
  }

  // ----- a mark -----

  lemma AdvanceMark(r: Resource, w: World, a: Action, rest: seq<Action>, o: Options)
    requires IsGuest(r) && Valid(r) && WellFormed(r) && w.faults == []
    requires var obj := ObjAt(w.site, HomeOf(r)); Workable(r, obj) && Unmarked(r, obj) && Pending(r, obj, o) == [a] + rest
    ensures rest == [] && a.what == MarkTemplate
    ensures var obj' := ObjAt(Apply(w, a).world.site, HomeOf(r));
            Apply(w, a).ok && Workable(r, obj') && NoOverrun(r, obj') && Settled(r, obj')
  {
    hide DriftOf, Tractable, LocalPlan, Valid, WellFormed, DesiredState, LevelIn, Do;
    var obj := ObjAt(w.site, HomeOf(r)).value;
    LocalShape(r, Some(obj), o);
    assert [a] + rest == [MarkStep(r, StatusOf(obj), o)];
    assert a == ([a] + rest)[0];
    MarkWorks(w, HomeOf(r));
    FlagIgnored(r, obj.config);
    FlaggedIs(obj.config);
  }

  lemma FlaggedIs(cfg: Config)
    ensures IsTemplate(Flagged(cfg))
  {
  }

  // ----- a create -----

  lemma PlainCreate(r: Resource, w: World, a: Action, o: Options)
    requires hide *; IsGuest(r) && Valid(r) && WellFormed(r) && w.faults == [] && HomeOf(r) !in w.site.objs
    requires CreateStep(r, o) == Some(a) && (r.body.Machine? ==> !Vm.IsCloneBacked(r.body.vm))
    ensures var obj' := ObjAt(Apply(w, a).world.site, HomeOf(r));
            Apply(w, a).ok && Workable(r, obj') && NoOverrun(r, obj') && Settled(r, obj')
  {
    hide DriftOf, Tractable, LocalPlan, Valid, WellFormed, DesiredState, LevelIn, Do, IsTemplate, CreateParamsOf, CreatedConfig, EdgesIn, Vm.IsCloneBacked;
    ValidBase(r);
    ValidKinds(r);
    GuestState(r);
    CreatedSettles(r);
    var params := CreateParamsOf(r).value;
    var cfg := CreatedConfig(IdOf(r), params);
    FamilyIsBase(r.kind);
    NoFlagCreated(IdOf(r), params);
    CalmIsTractable(r, cfg);
    FlagIgnored(r, cfg);
    FlaggedIs(cfg);
    CreateWorks(w, HomeOf(r), FamilyOf(r.kind), params, false);
    CreateWorks(w, HomeOf(r), FamilyOf(r.kind), params, DesiredState(r) == STARTED);
    if IsTemplateKind(r.kind) {
      MarkWorks(Do(w, HomeOf(r), CreateObj(FamilyOf(r.kind), params, false)).world, HomeOf(r));
    }
  }

  lemma NoFlagCreated(id: int, params: Config)
    requires TemplateFlag !in params
    ensures !IsTemplate(CreatedConfig(id, params))
  {
    assert Get(CreatedConfig(id, params), TemplateFlag) == "";
  }

  /** A clone: absent as before when its source is missing, otherwise cloned, written and stopped. */
  lemma CloneCreates(r: Resource, w: World, a: Action, o: Options)
    requires hide WellFormed, CreateStep, Workable, NoOverrun, Apply, IsTemplate, Vm.IsCloneBacked; IsGuest(r) && Valid(r) && WellFormed(r) && w.faults == [] && HomeOf(r) !in w.site.objs
    requires CreateStep(r, o) == Some(a) && r.kind == VM && Vm.IsCloneBacked(r.body.vm)
    ensures var obj', src := ObjAt(Apply(w, a).world.site, HomeOf(r)), Loc(NodeOf(r), r.body.vm.cloneSource);
            && Workable(r, obj') && NoOverrun(r, obj') && (obj'.Some? ==> Proper(r, obj') && !obj'.value.running)
            && (src in w.site.objs && w.site.objs[src].family == Qemu ==> Apply(w, a).ok && obj'.Some?)
  {
    hide DriftOf, Tractable, Valid, WellFormed, DesiredState, LevelIn, Do, IsTemplate, Vm.CreateParams, EdgesIn, Vm.IsCloneBacked,
         Vm.CloneBody, Vm.CloneDeleteKeys, CloneCreate, Accepts, ClonedConfig, Written;
    ValidKinds(r);
    var v := r.body.vm;
    var at, loc := Loc(NodeOf(r), v.cloneSource), HomeOf(r);
    CloneStep(r, o, a);
    CloneRuns(w, a);
    if at in w.site.objs && w.site.objs[at].family == Qemu {
      var live := ClonedConfig(w.site.objs[at].config, v.cloneSource, v.vmid, a.name);
      CloneUnflagged(w.site.objs[at].config, v.cloneSource, v.vmid, a.name);
      CloneParts(r);
      CloneWriteAccepted(v, live);
      CloneTractable(r, Written(live, Vm.CloneBody(Vm.CreateParams(v), live), Vm.CloneDeleteKeys(v)));
      UnflaggedIs(Written(live, Vm.CloneBody(Vm.CreateParams(v), live), Vm.CloneDeleteKeys(v)));
    }
  }

  lemma CloneParts(r: Resource)
    requires hide *; WellFormed(r) && r.body.Machine? && Vm.IsCloneBacked(r.body.vm)
    ensures Vm.WellFormed(r.body.vm) && PlainParams(r.body.vm)
  {
    hide Vm.WellFormed, PlainParams, Vm.IsCloneBacked;
  }

  lemma UnflaggedIs(cfg: Config)
    requires TemplateFlag !in cfg
    ensures !IsTemplate(cfg)
  {
  }

  lemma CloneUnflagged(cfg: Config, src: int, dst: int, name: string)
    ensures TemplateFlag !in ClonedConfig(cfg, src, dst, name)
  {
    hide ClonedValue;
  }

  lemma CloneStep(r: Resource, o: Options, a: Action)
    requires hide *; CreateStep(r, o) == Some(a) && r.kind == VM && r.body.Machine? && Vm.IsCloneBacked(r.body.vm)
    ensures a.what == Create && a.kind == VM && LocOf(a) == HomeOf(r) && a.cloneSource == r.body.vm.cloneSource && a.cloneSource != 0 && a.cloneSource != a.id
    ensures a.params == Vm.CreateParams(r.body.vm) && a.deletes == Vm.CloneDeleteKeys(r.body.vm)
  {
    hide Vm.CreateParams, Vm.CloneDeleteKeys, LevelIn, DesiredState;
  }

  /** The clone sequence when nothing fails. */
  lemma CloneRuns(w: World, a: Action)
    requires a.what == Create && a.kind == VM && a.cloneSource != 0 && a.cloneSource != a.id
    requires w.faults == [] && LocOf(a) !in w.site.objs
    ensures var at := Loc(a.node, a.cloneSource); var after := Apply(w, a);
            if at in w.site.objs && w.site.objs[at].family == Qemu then
              var live := ClonedConfig(w.site.objs[at].config, a.cloneSource, a.id, a.name);
              var body := Vm.CloneBody(a.params, live);
              Accepts(live, body, a.deletes) ==>
                after.ok && ObjAt(after.world.site, LocOf(a)) == Some(Obj(Qemu, Written(live, body, a.deletes), false))
            else ObjAt(after.world.site, LocOf(a)) == None
  {
    hide Vm.CloneBody, Accepts, ClonedConfig, Written, Do;
    var at, loc := Loc(a.node, a.cloneSource), LocOf(a);
    CloneCall(w, at, a.id, a.name);
    if at in w.site.objs && w.site.objs[at].family == Qemu {
      var c := Do(w, at, CloneTo(a.id, a.name)).world;
      DoWorks(c, loc, ReadConfig);
      var live := ClonedConfig(w.site.objs[at].config, a.cloneSource, a.id, a.name);
      var body := Vm.CloneBody(a.params, live);
      if Accepts(live, body, a.deletes) {
        WriteWorks(Do(c, loc, ReadConfig).world, loc, body, a.deletes);
      }
    }
  }

  lemma CloneCall(w: World, at: Loc, dst: int, name: string)
    requires w.faults == [] && Loc(at.node, dst) !in w.site.objs
    ensures var d, loc := Do(w, at, CloneTo(dst, name)), Loc(at.node, dst);
            && d.world.faults == []
            && (if at in w.site.objs && w.site.objs[at].family == Qemu
                then d.ok && ObjAt(d.world.site, loc) == Some(Obj(Qemu, ClonedConfig(w.site.objs[at].config, at.id, dst, name), false))
                else !d.ok && ObjAt(d.world.site, loc) == None)
  {
    hide ClonedConfig;
  }

  // ----- clones, whatever calls fail -----

  /** A clone create reported OK cloned its source, whatever else the fault script holds, and wrote the
      manifest's values over the inherited config. */
  lemma CloneOk(w: World, a: Action)
    requires a.what == Create && a.kind == VM && a.cloneSource != 0 && Apply(w, a).ok
    ensures var at, loc, after := Loc(a.node, a.cloneSource), LocOf(a), Apply(w, a).world.site;
            && at in w.site.objs && loc !in w.site.objs && loc in after.objs
            && var live := ClonedConfig(w.site.objs[at].config, a.cloneSource, a.id, a.name);
               after.objs[loc].config == Written(live, Vm.CloneBody(a.params, live), a.deletes)
  {
    hide Vm.CloneBody, Accepts, ClonedConfig, Written, Do;
    var at, loc := Loc(a.node, a.cloneSource), LocOf(a);
    OkEffect(w, at, CloneTo(a.id, a.name));
    var c := Do(w, at, CloneTo(a.id, a.name)).world;
    OkEffect(c, loc, ReadConfig);
    var r := Do(c, loc, ReadConfig).world;
    var live := r.site.objs[loc].config;
    OkEffect(r, loc, WriteConfig(Vm.CloneBody(a.params, live), a.deletes));
  }

  lemma OkEffect(w: World, loc: Loc, call: Call)
    requires Do(w, loc, call).ok
    ensures Effect(w.site, loc, call) == Some(Do(w, loc, call).world.site)
  {
    hide Effect;
  }

  /** Identity safety of the executor: for every fault script, when a clone's create is reported OK every
      inherited identity key of the new object holds the manifest's value or is absent, and its disk
      slots are the clone's own. */
  lemma ClonedWithoutIdentity(r: Resource, w: World, a: Action, o: Options)
    requires hide *; CreateStep(r, o) == Some(a) && r.kind == VM && r.body.Machine? && Vm.IsCloneBacked(r.body.vm) && Vm.WellFormed(r.body.vm)
    requires Apply(w, a).ok
    ensures HomeOf(r) in Apply(w, a).world.site.objs && Loc(NodeOf(r), r.body.vm.cloneSource) in w.site.objs
    ensures var cfg, t := Apply(w, a).world.site.objs[HomeOf(r)].config, Vm.OwnedTable(r.body.vm);
            forall k | k in Vm.IdentityKeys(r.body.vm) :: if k in t then k in cfg && cfg[k] == CreateValue(t[k].field) else k !in cfg
    ensures var cfg, src := Apply(w, a).world.site.objs[HomeOf(r)].config, w.site.objs[Loc(NodeOf(r), r.body.vm.cloneSource)].config;
            forall k: Key | k.Dev? && Vm.IsDiskSlot(k.name) :: Get(cfg, k) == Get(ClonedConfig(src, r.body.vm.cloneSource, IdOf(r), a.name), k)
  {
    hide CreateStep, Apply, Vm.CreateParams, Vm.CloneDeleteKeys, Vm.CloneBody, Vm.WellFormed, Vm.OwnedTable, Vm.IdentityKeys, Vm.IsCloneBacked,
         Vm.IsDiskSlot, Written, ClonedConfig, CreateValue;
    CloneStep(r, o, a);
    CloneOk(w, a);
    var src := w.site.objs[Loc(NodeOf(r), r.body.vm.cloneSource)].config;
    Vm.CloneLeavesNoIdentity(r.body.vm, ClonedConfig(src, r.body.vm.cloneSource, IdOf(r), a.name));
  }
}
