/** Bounded convergence: in a world where no call fails, three cycles of plan and execute leave a plan
    with nothing but prunes. */
module Convergence {
  import opened Text
  import opened Devices
  import opened Owned
  import opened Desired
  import opened Seqs
  import opened Plan
  import opened PlanSafety
  import opened World
  import opened Exec
  import opened Live
  import opened Local
  import opened ExecSafety
  import opened Runs
  import opened Guests
  import opened Converge
  import Vm

  /** Every clone's source is the home of a template manifest of a lower level. */
  predicate ClonesOrdered(desired: seq<Resource>, o: Options) {
    forall r | r in desired && r.kind == VM && r.body.Machine? && Vm.IsCloneBacked(r.body.vm) :: HasTemplate(desired, o, r)
  }

  predicate HasTemplate(desired: seq<Resource>, o: Options, r: Resource)
    requires r.body.Machine?
  {
    exists t | t in desired ::
      t.kind == TemplateVM && IsGuest(t) && HomeOf(t) == Loc(NodeOf(r), r.body.vm.cloneSource) && LevelIn(o, RefOf(t)) < LevelIn(o, RefOf(r))
  }

  /** A desired state the cluster can carry: valid, well-formed manifests with their own homes on
      allowed nodes, clones after their templates. */
  predicate Manageable(desired: seq<Resource>, o: Options) {
    && OwnHomes(desired) && (forall r | r in desired :: Valid(r) && WellFormed(r))
    && (forall r | r in desired && IsGuest(r) :: NodeAllowed(o.allow, NodeOf(r)))
    && ClonesOrdered(desired, o)
  }

  predicate AllWorkable(desired: seq<Resource>, s: Site) {
    forall r | r in desired && IsGuest(r) :: Workable(r, ObjAt(s, HomeOf(r)))
  }

  lemma Manages(desired: seq<Resource>, o: Options, r: Resource)
    requires Manageable(desired, o) && r in desired
    ensures OwnHomes(desired) && Valid(r) && WellFormed(r) && (IsGuest(r) ==> NodeAllowed(o.allow, NodeOf(r)))
    ensures forall x | x in desired :: Valid(x)
  {
    hide OwnHomes, Valid, WellFormed, ClonesOrdered, NodeAllowed;
  }

  /** An accepted index orders every clone after its template. */
  lemma AcceptedClonesOrdered(docs: seq<Resource>, o: Options)
    requires Acceptable(docs) && Consistent(IndexOfDocs(docs)) && FromIndex(o, GraphOf(ResolvedDocs(docs)))
    ensures ClonesOrdered(List(IndexOfDocs(docs)), o)
  {
    hide Acceptable, Docs, FromIndex, Resolve, ResolvedDocs, HasTemplate, GraphOf, Vm.IsCloneBacked, Refs;
    var idx := IndexOfDocs(docs);
    var desired := List(idx);
    forall r | r in desired && r.kind == VM && r.body.Machine? && Vm.IsCloneBacked(r.body.vm) ensures HasTemplate(desired, o, r) {
      var i :| 0 <= i < |desired| && desired[i] == r;
      CloneHasTemplate(docs, o, idx.order[i]);
    }
  }

  lemma CloneHasTemplate(docs: seq<Resource>, o: Options, ref: Ref)
    requires Acceptable(docs) && Consistent(IndexOfDocs(docs)) && FromIndex(o, GraphOf(ResolvedDocs(docs)))
    requires ref in ResolvedDocs(docs)
    requires var r := ResolvedDocs(docs)[ref]; r.kind == VM && r.body.Machine? && Vm.IsCloneBacked(r.body.vm)
    ensures HasTemplate(List(IndexOfDocs(docs)), o, ResolvedDocs(docs)[ref])
  {
    hide Acceptable, Docs, FromIndex, Resolve, ResolvedDocs, Vm.IsCloneBacked, Refs, Edges, LevelIn;
    var idx, r := IndexOfDocs(docs), ResolvedDocs(docs)[ref];
    var t := Ref(TemplateVM, TrimSpace(r.body.vm.clone));
    CloneSourceSound(docs, ref);
    KindOfRef(docs, ref);
    TemplateIsGuest(docs, t);
    GraphKeys(ResolvedDocs(docs));
    GraphAt(ResolvedDocs(docs), ref);
    LevelDrops(o, GraphOf(ResolvedDocs(docs)), ref, t);
    var j :| 0 <= j < |idx.order| && idx.order[j] == t;
    assert List(idx)[j] == ResolvedDocs(docs)[t] && List(idx)[j] in List(idx);
    assert RefOf(ResolvedDocs(docs)[t]) == t && RefOf(r) == ref;
  }

  lemma KindOfRef(docs: seq<Resource>, ref: Ref)
    requires Acceptable(docs) && ref in ResolvedDocs(docs)
    ensures ResolvedDocs(docs)[ref].kind == ref.kind
  {
    hide Acceptable, Docs;
    DocsOfResolved(docs, ref);
    AcceptedAt(docs, ref);
  }

  lemma DocsOfResolved(docs: seq<Resource>, ref: Ref)
    requires ref in ResolvedDocs(docs)
    ensures ref in Docs(docs)
  {
    hide Docs, Resolve;
  }

  lemma GraphAt(byRef: ByRef, ref: Ref)
    requires ref in byRef
    ensures ref in GraphOf(byRef) && GraphOf(byRef)[ref] == Edges(byRef[ref])
  {
    hide Edges;
  }

  lemma TemplateIsGuest(docs: seq<Resource>, t: Ref)
    requires Acceptable(docs) && t in ResolvedDocs(docs) && t.kind == TemplateVM
    ensures ResolvedDocs(docs)[t].kind == TemplateVM && IsGuest(ResolvedDocs(docs)[t])
  {
    hide Acceptable, Docs, Vm.IsCloneBacked;
    AcceptedAt(docs, t);
  }

  /** The list of an accepted index is manageable as soon as its manifests are well-formed and on allowed
      nodes: acceptance gives the rest. */
  lemma AcceptedManageable(docs: seq<Resource>, o: Options)
    requires hide *; Acceptable(docs) && Consistent(IndexOfDocs(docs)) && FromIndex(o, GraphOf(ResolvedDocs(docs)))
    requires forall r | r in List(IndexOfDocs(docs)) :: WellFormed(r) && (IsGuest(r) ==> NodeAllowed(o.allow, NodeOf(r)))
    ensures Manageable(List(IndexOfDocs(docs)), o)
  {
    hide Acceptable, FromIndex, List, ResolvedDocs, GraphOf, Valid, WellFormed, NodeAllowed, ClonesOrdered, DistinctIds, OwnHomes;
    AcceptedClonesOrdered(docs, o);
    AcceptedList(docs);
    AcceptedHomes(List(IndexOfDocs(docs)));
  }

  // ----- one guest through one run -----

  lemma HeadAtHome(a: Action, rest: seq<Action>, loc: Loc)
    ensures AtHome([a] + rest, loc) == (if a.tier == 0 && LocOf(a) == loc then [a] else []) + AtHome(rest, loc)
  {
    FilterConcat([a], rest, (x: Action) => x.tier == 0 && LocOf(x) == loc);
  }

  /** Executing the head of a guest's own actions keeps it on track. */
  lemma TrackHead(r: Resource, w: World, a: Action, mine: seq<Action>, o: Options)
    requires IsGuest(r) && Valid(r) && WellFormed(r) && w.faults == []
    requires OnTrack(r, ObjAt(w.site, HomeOf(r)), [a] + mine, o)
    ensures var obj, obj' := ObjAt(w.site, HomeOf(r)), ObjAt(Apply(w, a).world.site, HomeOf(r));
            OnTrack(r, obj', mine, o) && (Settling(r, obj, [a] + mine, o) ==> Settling(r, obj', mine, o))
  {
    hide Tractable, IsTemplate, LocalPlan, Valid, WellFormed, DesiredState, Apply, DriftOf, Pending;
    var obj := ObjAt(w.site, HomeOf(r));
    if StopLeft(r, [a] + mine) && Calm(r, obj) {
      LeftoverStop(r, w, a, mine, o);
    } else {
      assert [a] + mine == Pending(r, obj, o);
      PendingHead(r, w, a, mine, o);
    }
  }

  lemma LeftoverStop(r: Resource, w: World, a: Action, mine: seq<Action>, o: Options)
    requires w.faults == [] && StopLeft(r, [a] + mine)
    requires var obj := ObjAt(w.site, HomeOf(r)); Calm(r, obj) && Workable(r, obj)
    ensures var obj' := ObjAt(Apply(w, a).world.site, HomeOf(r)); obj' == ObjAt(w.site, HomeOf(r)) && mine == []
    ensures var obj' := ObjAt(Apply(w, a).world.site, HomeOf(r)); OnTrack(r, obj', mine, o) && Settling(r, obj', mine, o)
  {
    hide Tractable, IsTemplate, LocalPlan, DesiredState, Do, DriftOf;
    assert ([a] + mine)[0] == a && ([a] + mine)[1..] == mine;
    PowerWords();
    PowerWorks(w, HomeOf(r), false);
  }

  lemma PendingHead(r: Resource, w: World, a: Action, mine: seq<Action>, o: Options)
    requires IsGuest(r) && Valid(r) && WellFormed(r) && w.faults == []
    requires var obj := ObjAt(w.site, HomeOf(r));
             Workable(r, obj) && LocalPlan(r, obj, o).Some? && [a] + mine == Pending(r, obj, o)
    ensures var obj, obj' := ObjAt(w.site, HomeOf(r)), ObjAt(Apply(w, a).world.site, HomeOf(r));
            OnTrack(r, obj', mine, o) && (Proper(r, obj) ==> Settling(r, obj', mine, o))
  {
    hide Tractable, IsTemplate, LocalPlan, Valid, WellFormed, DesiredState, Apply, DriftOf, CreateStep, MarkStep, UpdateSteps, PowerSteps;
    var obj := ObjAt(w.site, HomeOf(r));
    LocalShape(r, obj, o);
    if Proper(r, obj) {
      if a.what == Update {
        AdvanceUpdate(r, w, a, mine, o);
      } else {
        AdvancePower(r, w, a, mine, o);
      }
    } else if obj.None? {
      assert [a] + mine == [CreateStep(r, o).value];
      assert a == ([a] + mine)[0] && mine == ([a] + mine)[1..];
      ValidKinds(r);
      if r.body.Machine? && Vm.IsCloneBacked(r.body.vm) {
        CloneCreates(r, w, a, o);
      } else {
        PlainCreate(r, w, a, o);
      }
    } else if Unmarked(r, obj) {
      AdvanceMark(r, w, a, mine, o);
    }
  }

  /** Deferring the head leaves the guest on track; only creates and marks can be deferred. */
  lemma TrackDeferred(r: Resource, obj: Option<Obj>, a: Action, mine: seq<Action>, o: Options)
    requires IsGuest(r) && Valid(r) && OnTrack(r, obj, [a] + mine, o) && a.deps != []
    ensures OnTrack(r, obj, mine, o) && !Settling(r, obj, [a] + mine, o)
  {
    hide Tractable, IsTemplate, LocalPlan, Valid, DesiredState, DriftOf, CreateStep, UpdateSteps, PowerSteps, MarkStep;
    assert ([a] + mine)[0] == a && ([a] + mine)[1..] == mine;
    LocalShape(r, obj, o);
    if Proper(r, obj) {
      ChangesHaveNoDeps(r, obj.value.config, OwnPower(r, obj.value), o);
    }
  }

  lemma ChangesHaveNoDeps(r: Resource, cfg: Config, power: string, o: Options)
    ensures forall a | a in UpdateSteps(r, cfg, power, o) + PowerSteps(r, power, o) :: a.deps == []
  {
    hide DriftOf, DesiredState, LevelIn;
  }

  /** A guest through a whole run. */
  lemma {:induction false} TrackRun(r: Resource, w: World, actions: seq<Action>, failed: set<Failure>, o: Options)
    requires IsGuest(r) && Valid(r) && WellFormed(r) && w.faults == []
    requires forall a | a in actions && LocOf(a) == HomeOf(r) :: a.tier == 0
    requires OnTrack(r, ObjAt(w.site, HomeOf(r)), AtHome(actions, HomeOf(r)), o)
    ensures var obj, obj' := ObjAt(w.site, HomeOf(r)), ObjAt(Run(w, actions, failed).world.site, HomeOf(r));
            && Workable(r, obj') && NoOverrun(r, obj')
            && (Settling(r, obj, AtHome(actions, HomeOf(r)), o) ==> Calm(r, obj'))
    decreases |actions|
  {
    hide Valid, WellFormed, Apply, Run, OnTrack, Settling, Workable, NoOverrun, Calm, AtHome, Exec.Deferred;
    var home := HomeOf(r);
    if actions == [] {
      RunNone(w, failed);
      TrackEnd(r, ObjAt(w.site, home), o);
    } else {
      var a, rest, one := actions[0], actions[1..], Apply(w, actions[0]);
      assert actions == [a] + rest;
      RunHead(w, actions, failed);
      HeadAtHome(a, rest, home);
      if Exec.Deferred(a, failed) {
        if LocOf(a) == home {
          DeferredHasDeps(a, failed);
          TrackDeferred(r, ObjAt(w.site, home), a, AtHome(rest, home), o);
        } else {
          assert AtHome(actions, home) == AtHome(rest, home);
        }
        TrackRun(r, w, rest, failed, o);
      } else {
        ApplyNoFaults(w, a);
        if LocOf(a) == home {
          TrackHead(r, w, a, AtHome(rest, home), o);
        } else {
          ApplyFrame(w, a, home);
          assert AtHome(actions, home) == AtHome(rest, home);
        }
        TrackRun(r, one.world, rest, FailedAfter(a, one.ok, failed), o);
      }
    }
  }

  lemma DeferredHasDeps(a: Action, failed: set<Failure>)
    requires Exec.Deferred(a, failed)
    ensures a.deps != []
  {
    hide Named;
  }

  lemma TrackEnd(r: Resource, obj: Option<Obj>, o: Options)
    requires IsGuest(r) && Valid(r) && OnTrack(r, obj, AtHome([], HomeOf(r)), o)
    ensures Workable(r, obj) && NoOverrun(r, obj) && (Settling(r, obj, AtHome([], HomeOf(r)), o) ==> Calm(r, obj))
  {
    hide Tractable, IsTemplate, LocalPlan, Valid, DesiredState, DriftOf;
    if Proper(r, obj) {
      CalmIsQuiet(r, obj, o);
    }
  }

  // ----- one cycle -----

  /** Prunes stay away from the homes of manifests. */
  lemma DeleteNotHome(desired: seq<Resource>, o: Options, listing: seq<Listed>, p: Plan, w: World, a: Action, r: Resource)
    requires Lists(listing, w.site) && IsPlan(desired, FullInventory(listing, w.site, desired, o.allow), o, p)
    requires Housed(desired, o, r) && FamilyOk(r, ObjAt(w.site, HomeOf(r)))
    requires a in p.actions && a.what == Delete
    ensures LocOf(a) != HomeOf(r)
  {
    hide IsPlan, Lists, FullInventory, Valid, OwnHomes, Claimed, HasTag, NamedBy, DesiredTemplate, NodeAllowed;
    DeleteSnapshot(desired, w, listing, o, p, a);
    if LocOf(a) == HomeOf(r) {
      ClaimedByOwner(desired, r, BaseKind(r.kind));
    }
  }

  /** A guest among valid manifests with their own homes, on an allowed node. */
  predicate Housed(desired: seq<Resource>, o: Options, r: Resource) {
    && OwnHomes(desired) && (forall x | x in desired :: Valid(x))
    && r in desired && IsGuest(r) && NodeAllowed(o.allow, NodeOf(r))
  }

  lemma ManagedIsHoused(desired: seq<Resource>, o: Options, s: Site, r: Resource)
    requires Manageable(desired, o) && AllWorkable(desired, s) && r in desired && IsGuest(r)
    ensures Housed(desired, o, r) && FamilyOk(r, ObjAt(s, HomeOf(r)))
  {
    hide Valid, WellFormed, OwnHomes, ClonesOrdered, NodeAllowed, Tractable;
    assert Workable(r, ObjAt(s, HomeOf(r)));
  }

  /** Actions of a plan at a guest's home are its own. */
  lemma HomeActions(desired: seq<Resource>, o: Options, listing: seq<Listed>, p: Plan, w: World, r: Resource)
    requires Lists(listing, w.site) && IsPlan(desired, FullInventory(listing, w.site, desired, o.allow), o, p)
    requires Housed(desired, o, r) && FamilyOk(r, ObjAt(w.site, HomeOf(r)))
    ensures forall a | a in p.actions && LocOf(a) == HomeOf(r) :: a.tier == 0
    ensures LocalPlan(r, ObjAt(w.site, HomeOf(r)), o).Some?
    ensures AtHome(p.actions, HomeOf(r)) == Pending(r, ObjAt(w.site, HomeOf(r)), o)
  {
    hide IsPlan, Lists, FullInventory, PlannedFor, Judge, PruneOf, LocalPlan, PlanOne, AtHome, OwnHomes, Valid, NodeAllowed, FamilyOk;
    var inv := FullInventory(listing, w.site, desired, o.allow);
    forall a | a in p.actions && LocOf(a) == HomeOf(r) ensures a.tier == 0 {
      ActionSource(desired, inv, o, p, a);
      if exists x | x in desired :: PlannedFor(a, x, o) {
        var x :| x in desired && PlannedFor(a, x, o);
        HomeOfAction(a, x, o);
      } else {
        var e :| e in inv.listing && Judge(e, desired, inv, o) == Orphan && a == PruneOf(e, inv) && a.kind !in p.suppressed;
        PruneShape(e, inv);
        DeleteNotHome(desired, o, listing, p, w, a, r);
      }
    }
    PlanAtHome(desired, inv, o, p, r);
    PlanIsLocal(r, listing, w.site, desired, o);
  }

  /** One cycle keeps every guest workable, never leaves a guest running that should be stopped, and
      calms every guest that was proper. */
  lemma CycleTracks(desired: seq<Resource>, o: Options, listing: seq<Listed>, p: Plan, w: World, w': World, r: Resource)
    requires CycleStep(desired, o, listing, p, w, w') && w.faults == []
    requires Manageable(desired, o) && AllWorkable(desired, w.site) && r in desired && IsGuest(r)
    ensures var obj, obj' := ObjAt(w.site, HomeOf(r)), ObjAt(w'.site, HomeOf(r));
            Workable(r, obj') && NoOverrun(r, obj') && (Proper(r, obj) ==> Calm(r, obj'))
  {
    hide IsPlan, Lists, FullInventory, Manageable, Workable, NoOverrun, Calm, LocalPlan, AtHome, Run, Valid, WellFormed, Pending;
    Manages(desired, o, r);
    ManagedIsHoused(desired, o, w.site, r);
    HomeActions(desired, o, listing, p, w, r);
    assert Workable(r, ObjAt(w.site, HomeOf(r)));
    TrackRun(r, w, p.actions, {}, o);
  }

  // ----- a cycle without failures -----

  predicate AllUnfailed(desired: seq<Resource>, o: Options, s: Site, actions: seq<Action>) {
    forall r | r in desired && IsGuest(r) :: Unfailed(r, ObjAt(s, HomeOf(r)), AtHome(actions, HomeOf(r)), o)
  }

  /** A prune away from every home. */
  predicate StrayDelete(desired: seq<Resource>, a: Action) {
    a.what == Delete && a.tier == 9 && a.ref == NO_REF && a.deps == [] && forall r | r in desired && IsGuest(r) :: LocOf(a) != HomeOf(r)
  }

  predicate Known(desired: seq<Resource>, o: Options, a: Action) {
    (exists r | r in desired :: PlannedFor(a, r, o)) || StrayDelete(desired, a)
  }

  /** When a clone comes up in order, its template is already there. */
  lemma SourceReady(desired: seq<Resource>, o: Options, s: Site, actions: seq<Action>, r: Resource)
    requires hide *; Manageable(desired, o) && AllUnfailed(desired, o, s, actions) && InOrder(actions) && actions != []
    requires forall a | a in actions :: Known(desired, o, a)
    requires r in desired && r.kind == VM && r.body.Machine? && Vm.IsCloneBacked(r.body.vm) && PlannedFor(actions[0], r, o)
    ensures var src := Loc(NodeOf(r), r.body.vm.cloneSource); src in s.objs && s.objs[src].family == Qemu
  {
    hide OwnHomes, Valid, WellFormed, PlannedFor, Known, InOrder, Unfailed, LevelIn, Vm.IsCloneBacked;
    assert HasTemplate(desired, o, r);
    var t :| t in desired && t.kind == TemplateVM && IsGuest(t) && HomeOf(t) == Loc(NodeOf(r), r.body.vm.cloneSource)
             && LevelIn(o, RefOf(t)) < LevelIn(o, RefOf(r));
    var mine := AtHome(actions, HomeOf(t));
    LevelOfAction(actions[0], r, o);
    forall b | b in mine ensures false {
      assert b in actions && b.tier == 0 && LocOf(b) == HomeOf(t);
      LowerIsEarlier(desired, o, actions, t, b);
    }
    FirstIsIn(mine);
    DoneIsPresent(t, ObjAt(s, HomeOf(t)), o);
  }

  lemma FirstIsIn(s: seq<Action>)
    ensures s != [] ==> s[0] in s
  {
  }

  lemma LowerIsEarlier(desired: seq<Resource>, o: Options, actions: seq<Action>, t: Resource, b: Action)
    requires hide *; Manageable(desired, o) && InOrder(actions) && actions != [] && t in desired && IsGuest(t)
    requires b in actions && b.tier == 0 && LocOf(b) == HomeOf(t) && Known(desired, o, b) && actions[0].tier == 0
    ensures LevelIn(o, RefOf(t)) >= actions[0].level
  {
    hide OwnHomes, Valid, WellFormed, PlannedFor, InOrder, LevelIn, ClonesOrdered, NodeAllowed;
    var x :| x in desired && PlannedFor(b, x, o);
    HomeOfAction(b, x, o);
    LevelOfAction(b, x, o);
    HomesPositive(desired, t);
    if x != t {
      HomesDiffer(desired, t, x);
    }
    var j :| 0 <= j < |actions| && actions[j] == b;
    if j > 0 {
      OrderAt(actions, 0, j);
    }
  }

  lemma HomesPositive(desired: seq<Resource>, t: Resource)
    requires OwnHomes(desired) && t in desired && IsGuest(t)
    ensures HomeOf(t).id > 0
  {
  }

  lemma DoneIsPresent(t: Resource, obj: Option<Obj>, o: Options)
    requires hide *; IsGuest(t) && t.kind == TemplateVM && Unfailed(t, obj, [], o) && Valid(t)
    ensures obj.Some? && obj.value.family == Qemu
  {
    hide Tractable, IsTemplate, LocalPlan, Valid, DesiredState, CreateStep;
    LocalShape(t, obj, o);
  }

  /** The head of a guest's own actions succeeds. */
  lemma UnfailedHead(desired: seq<Resource>, o: Options, w: World, actions: seq<Action>, r: Resource, mine: seq<Action>)
    requires hide *; Manageable(desired, o) && AllUnfailed(desired, o, w.site, actions) && InOrder(actions) && actions != []
    requires forall a | a in actions :: Known(desired, o, a)
    requires w.faults == [] && r in desired && IsGuest(r) && PlannedFor(actions[0], r, o)
    requires AtHome(actions, HomeOf(r)) == [actions[0]] + mine
    ensures Apply(w, actions[0]).ok && Unfailed(r, ObjAt(Apply(w, actions[0]).world.site, HomeOf(r)), mine, o)
  {
    hide OwnHomes, Valid, WellFormed, PlannedFor, Known, InOrder, AtHome, Tractable, IsTemplate, LocalPlan, DesiredState, Apply, DriftOf,
         CreateStep, MarkStep, UpdateSteps, PowerSteps, Manageable, NoOverrun, ClonesOrdered;
    var a, obj := actions[0], ObjAt(w.site, HomeOf(r));
    Manages(desired, o, r);
    assert Unfailed(r, obj, [a] + mine, o);
    LocalShape(r, obj, o);
    if Proper(r, obj) {
      if a.what == Update {
        AdvanceUpdate(r, w, a, mine, o);
      } else {
        AdvancePower(r, w, a, mine, o);
      }
    } else if obj.None? {
      assert [a] + mine == [CreateStep(r, o).value];
      assert a == ([a] + mine)[0] && mine == ([a] + mine)[1..];
      ValidKinds(r);
      if r.body.Machine? && Vm.IsCloneBacked(r.body.vm) {
        SourceReady(desired, o, w.site, actions, r);
        CloneCreates(r, w, a, o);
      } else {
        PlainCreate(r, w, a, o);
      }
    } else if Unmarked(r, obj) {
      AdvanceMark(r, w, a, mine, o);
    }
  }

  lemma FileWorks(r: Resource, w: World, a: Action, o: Options)
    requires Valid(r) && r.body.File? && PlannedFor(a, r, o) && w.faults == []
    ensures Apply(w, a).ok && Apply(w, a).world.site.objs == w.site.objs && FileOf(a) in Apply(w, a).world.site.files
    ensures FileOf(a) == FileKey(a.node, r.kind, r.body.file.storage, r.body.file.filename)
  {
    hide Vm.IsCloneBacked, LevelIn, EdgesIn;
    ParamNames();
    assert Get(a.params, Dev("storage")) == r.body.file.storage && Get(a.params, Dev("url")) == r.body.file.url
           && Get(a.params, Dev("filename")) == r.body.file.filename;
  }

  lemma ParamNames()
    ensures Dev("storage") != Dev("url") && Dev("url") != Dev("filename") && Dev("storage") != Dev("filename")
  {
    assert "storage"[0] != "url"[0] && "url"[0] != "filename"[0] && "storage"[0] != "filename"[0];
  }

  /** One action of a run that has not failed: it succeeds, or it is a stray delete. */
  lemma UnfailedStep(desired: seq<Resource>, o: Options, w: World, actions: seq<Action>)
    requires hide *; Manageable(desired, o) && AllUnfailed(desired, o, w.site, actions) && InOrder(actions) && actions != []
    requires forall a | a in actions :: Known(desired, o, a)
    requires w.faults == []
    ensures var a := actions[0];
            FailedAfter(a, Apply(w, a).ok, {}) == {} && AllUnfailed(desired, o, Apply(w, a).world.site, actions[1..])
  {
    hide OwnHomes, Valid, WellFormed, PlannedFor, InOrder, AtHome, Manageable, Unfailed, Apply, ClonesOrdered;
    var a, rest := actions[0], actions[1..];
    assert actions == [a] + rest && Known(desired, o, a);
    if exists r | r in desired :: PlannedFor(a, r, o) {
      var r :| r in desired && PlannedFor(a, r, o);
      Manages(desired, o, r);
      HomeOfAction(a, r, o);
      if IsGuest(r) {
        HeadAtHome(a, rest, HomeOf(r));
        UnfailedHead(desired, o, w, actions, r, AtHome(rest, HomeOf(r)));
      } else {
        FileWorks(r, w, a, o);
      }
      forall x | x in desired && IsGuest(x) && x != r
        ensures Unfailed(x, ObjAt(Apply(w, a).world.site, HomeOf(x)), AtHome(rest, HomeOf(x)), o)
      {
        HomesDiffer(desired, x, r);
        OtherHome(w, a, rest, HomeOf(x));
      }
    } else {
      forall x | x in desired && IsGuest(x)
        ensures Unfailed(x, ObjAt(Apply(w, a).world.site, HomeOf(x)), AtHome(rest, HomeOf(x)), o)
      {
        OtherHome(w, a, rest, HomeOf(x));
      }
    }
  }

  lemma OtherHome(w: World, a: Action, rest: seq<Action>, loc: Loc)
    requires LocOf(a) != loc
    ensures ObjAt(Apply(w, a).world.site, loc) == ObjAt(w.site, loc) && AtHome([a] + rest, loc) == AtHome(rest, loc)
  {
    hide Apply;
    ApplyFrame(w, a, loc);
    HeadAtHome(a, rest, loc);
  }

  /** A run with every guest workable and none overrunning has no failure before its prunes, so every
      guest ends up present, with its template flag if it needs one. */
  lemma {:induction false} UnfailedRun(desired: seq<Resource>, o: Options, w: World, actions: seq<Action>)
    requires Manageable(desired, o) && AllUnfailed(desired, o, w.site, actions) && InOrder(actions)
    requires forall a | a in actions :: Known(desired, o, a)
    requires w.faults == []
    ensures AllUnfailed(desired, o, Run(w, actions, {}).world.site, [])
    decreases |actions|
  {
    hide OwnHomes, Valid, WellFormed, Known, Manageable, AllUnfailed, Apply, Run, NotAfter;
    if actions == [] {
      RunNone(w, {});
    } else {
      var a, rest := actions[0], actions[1..];
      RunHead(w, actions, {});
      assert !Exec.Deferred(a, {});
      UnfailedStep(desired, o, w, actions);
      ApplyNoFaults(w, a);
      assert forall b | b in rest :: b in actions;
      assert forall i | 0 <= i < |rest| :: rest[i] == actions[i + 1];
      UnfailedRun(desired, o, Apply(w, a).world, rest);
    }
  }

  lemma PlanKnown(desired: seq<Resource>, o: Options, listing: seq<Listed>, p: Plan, w: World)
    requires Lists(listing, w.site) && IsPlan(desired, FullInventory(listing, w.site, desired, o.allow), o, p)
    requires Manageable(desired, o) && AllWorkable(desired, w.site)
    ensures InOrder(p.actions) && forall a | a in p.actions :: Known(desired, o, a)
  {
    hide IsPlan, Lists, FullInventory, Manageable, AllWorkable, PlannedFor, Judge, PruneOf, PlanDesired, Candidates, WithinBudget, InOrder;
    var inv := FullInventory(listing, w.site, desired, o.allow);
    var chosen, excess := PlanParts(desired, inv, o, p);
    forall a | a in p.actions ensures Known(desired, o, a) {
      ActionSource(desired, inv, o, p, a);
      if !exists r | r in desired :: PlannedFor(a, r, o) {
        var e :| e in inv.listing && Judge(e, desired, inv, o) == Orphan && a == PruneOf(e, inv) && a.kind !in p.suppressed;
        PruneShape(e, inv);
        forall r | r in desired && IsGuest(r) ensures LocOf(a) != HomeOf(r) {
          ManagedIsHoused(desired, o, w.site, r);
          DeleteNotHome(desired, o, listing, p, w, a, r);
        }
      }
    }
  }

  /** Once no guest overruns, one cycle makes every guest present and marked. */
  lemma CycleSettles(desired: seq<Resource>, o: Options, listing: seq<Listed>, p: Plan, w: World, w': World, r: Resource)
    requires CycleStep(desired, o, listing, p, w, w') && w.faults == []
    requires Manageable(desired, o) && AllWorkable(desired, w.site)
    requires forall x | x in desired && IsGuest(x) :: NoOverrun(x, ObjAt(w.site, HomeOf(x)))
    requires r in desired && IsGuest(r)
    ensures Settled(r, ObjAt(w'.site, HomeOf(r)))
  {
    hide IsPlan, Lists, FullInventory, Manageable, NoOverrun, Workable, LocalPlan, AtHome, Run, Valid, Pending, Known, InOrder;
    forall x | x in desired && IsGuest(x) ensures Unfailed(x, ObjAt(w.site, HomeOf(x)), AtHome(p.actions, HomeOf(x)), o) {
      ManagedIsHoused(desired, o, w.site, x);
      HomeActions(desired, o, listing, p, w, x);
    }
    PlanKnown(desired, o, listing, p, w);
    UnfailedRun(desired, o, w, p.actions);
    Manages(desired, o, r);
    EmptyAtHome(HomeOf(r));
    EndSettled(r, ObjAt(w'.site, HomeOf(r)), o);
  }

  lemma EmptyAtHome(loc: Loc)
    ensures AtHome([], loc) == []
  {
  }

  lemma EndSettled(r: Resource, obj: Option<Obj>, o: Options)
    requires IsGuest(r) && Valid(r) && Unfailed(r, obj, [], o)
    ensures Settled(r, obj)
  {
    hide Tractable, IsTemplate, LocalPlan, Valid, DesiredState, CreateStep, MarkStep;
    LocalShape(r, obj, o);
  }

  // ----- files -----

  lemma DoFiles(w: World, loc: Loc, call: Call)
    ensures w.site.files <= Do(w, loc, call).world.site.files
  {
    hide Accepts, Written, ClonedConfig, CreatedConfig;
  }

  lemma ApplyFiles(w: World, a: Action)
    ensures w.site.files <= Apply(w, a).world.site.files
  {
    hide Do, Vm.CloneBody, Downloadable;
    var loc, at := LocOf(a), Loc(a.node, a.cloneSource);
    var stop, start, clone, read := StopObj, StartObj, CloneTo(a.id, a.name), ReadConfig;
    var write, create, mark := WriteConfig(a.params, a.deletes), CreateObj(FamilyOf(a.kind), a.params, false), SetTemplate;
    DoFiles(w, loc, stop);
    DoFiles(w, loc, start);
    DoFiles(w, loc, write);
    DoFiles(w, loc, Destroy);
    DoFiles(w, loc, mark);
    DoFiles(w, loc, create);
    DoFiles(w, loc, CreateObj(FamilyOf(a.kind), a.params, a.desiredPower == STARTED));
    DoFiles(w, loc, Download(FileOf(a)));
    var s := Do(w, loc, stop).world;
    DoFiles(s, loc, Destroy);
    DoFiles(s, loc, write);
    DoFiles(Do(s, loc, write).world, loc, start);
    DoFiles(Do(w, loc, create).world, loc, mark);
    DoFiles(w, at, clone);
    var r := Do(Do(w, at, clone).world, loc, read).world;
    DoFiles(Do(w, at, clone).world, loc, read);
    if loc in r.site.objs {
      DoFiles(r, loc, WriteConfig(Vm.CloneBody(a.params, r.site.objs[loc].config), a.deletes));
    }
  }

  lemma {:induction false} RunFiles(w: World, actions: seq<Action>, failed: set<Failure>)
    ensures w.site.files <= Run(w, actions, failed).world.site.files
    decreases |actions|
  {
    hide Apply, Run, Exec.Deferred;
    if actions == [] {
      RunNone(w, failed);
    } else {
      RunHead(w, actions, failed);
      var a, one, d := actions[0], Apply(w, actions[0]), Exec.Deferred(actions[0], failed);
      ApplyFiles(w, a);
      RunFiles(if d then w else one.world, actions[1..], if d then failed else FailedAfter(a, one.ok, failed));
    }
  }

  function FileKeyOf(r: Resource, node: string): LiveKey
    requires r.body.File?
  {
    FileKey(node, r.kind, r.body.file.storage, r.body.file.filename)
  }

  predicate FilesPresent(desired: seq<Resource>, s: Site) {
    forall r | r in desired && r.body.File? :: forall n | n in r.body.file.nodes :: FileKeyOf(r, n) in s.files
  }

  lemma {:induction false} Wanted(desired: seq<Resource>, r: Resource, n: string)
    requires r in desired && r.body.File? && n in r.body.file.nodes
    ensures FileKeyOf(r, n) in WantedFiles(desired)
  {
    var front := desired[..|desired| - 1];
    assert desired == front + [desired[|desired| - 1]];
    if r in front {
      Wanted(front, r, n);
    }
  }

  lemma FilePresence(desired: seq<Resource>, listing: seq<Listed>, s: Site, allow: seq<string>, r: Resource, n: string)
    requires r in desired && r.body.File? && n in r.body.file.nodes
    ensures var inv := FullInventory(listing, s, desired, allow);
            FileKeyOf(r, n) in inv.present && inv.present[FileKeyOf(r, n)] == (FileKeyOf(r, n) in s.files)
  {
    hide WantedFiles, ReadEntries;
    Wanted(desired, r, n);
  }

  lemma {:induction false} MissingPlanned(r: Resource, nodes: seq<string>, live: LiveInventory, o: Options, n: string)
    requires r.body.File? && n in nodes && FileKeyOf(r, n) in live.present && !live.present[FileKeyOf(r, n)]
    ensures CreateFile(r, o, n) in PlanFile(r, nodes, live, o).actions
  {
    hide CreateFile;
    if nodes[0] != n {
      MissingPlanned(r, nodes[1..], live, o, n);
    }
  }

  lemma {:induction false} PresentNotPlanned(r: Resource, nodes: seq<string>, live: LiveInventory, o: Options)
    requires r.body.File? && forall n | n in nodes :: FileKeyOf(r, n) in live.present && live.present[FileKeyOf(r, n)]
    ensures PlanFile(r, nodes, live, o).actions == []
  {
    hide CreateFile;
    if nodes != [] {
      assert nodes[0] in nodes;
      PresentNotPlanned(r, nodes[1..], live, o);
    }
  }

  /** One cycle downloads every missing file: downloads have no prerequisites to wait for. */
  lemma CycleDownloads(desired: seq<Resource>, o: Options, listing: seq<Listed>, p: Plan, w: World, w': World)
    requires CycleStep(desired, o, listing, p, w, w') && w.faults == [] && forall r | r in desired :: Valid(r)
    ensures FilesPresent(desired, w'.site)
  {
    hide IsPlan, Lists, FullInventory, Run, Valid;
    forall r, n | r in desired && r.body.File? && n in r.body.file.nodes ensures FileKeyOf(r, n) in w'.site.files {
      RunFiles(w, p.actions, {});
      if FileKeyOf(r, n) !in w.site.files {
        FileDownloaded(desired, o, listing, p, w, r, n);
      }
    }
  }

  lemma FileDownloaded(desired: seq<Resource>, o: Options, listing: seq<Listed>, p: Plan, w: World, r: Resource, n: string)
    requires hide *; IsPlan(desired, FullInventory(listing, w.site, desired, o.allow), o, p) && w.faults == [] && Valid(r)
    requires r in desired && r.body.File? && n in r.body.file.nodes && FileKeyOf(r, n) !in w.site.files
    ensures FileKeyOf(r, n) in Run(w, p.actions, {}).world.site.files
  {
    hide *;
    FilePlanned(desired, o, listing, p, w, r, n);
    var i :| 0 <= i < |p.actions| && p.actions[i] == CreateFile(r, o, n);
    DownloadRuns(r, o, w, p.actions, i, n);
  }

  lemma FilePlanned(desired: seq<Resource>, o: Options, listing: seq<Listed>, p: Plan, w: World, r: Resource, n: string)
    requires hide *; IsPlan(desired, FullInventory(listing, w.site, desired, o.allow), o, p)
    requires r in desired && r.body.File? && n in r.body.file.nodes && FileKeyOf(r, n) !in w.site.files
    ensures CreateFile(r, o, n) in p.actions
  {
    hide IsPlan, FullInventory, PlanDesired, PlanFile, PlanOne, WithinBudget, Candidates, Active, InOrder, CreateFile;
    var inv := FullInventory(listing, w.site, desired, o.allow);
    OneIsFile(r, inv, o);
    FilePresence(desired, listing, w.site, o.allow, r, n);
    MissingPlanned(r, r.body.file.nodes, inv, o, n);
    var chosen, excess := PlanParts(desired, inv, o, p);
    PassActions(desired, inv, o);
    InPlan(desired, inv, o, p, chosen, CreateFile(r, o, n));
  }

  lemma OneIsFile(r: Resource, live: LiveInventory, o: Options)
    requires hide *; r.body.File?
    ensures PlanOne(r, live, o) == Some(PlanFile(r, r.body.file.nodes, live, o))
  {
    hide PlanFile, PlanGuest;
  }

  lemma DownloadRuns(r: Resource, o: Options, w: World, actions: seq<Action>, i: nat, n: string)
    requires w.faults == [] && Valid(r) && r.body.File? && n in r.body.file.nodes && i < |actions| && actions[i] == CreateFile(r, o, n)
    ensures FileKeyOf(r, n) in Run(w, actions, {}).world.site.files
  {
    hide Run, Valid, Apply, PlannedFor, CreateFile, Exec.Deferred, FileOf;
    var a := actions[i];
    FileActionIs(r, o, n);
    RunNoFaults(w, actions[..i], {});
    StepAt(w, actions, i);
    var before, after := Upto(w, actions, i), Upto(w, actions, i + 1);
    NothingToWaitFor(a, before.failed);
    FileWorks(r, before.world, a, o);
    RunFiles(after.world, actions[i + 1..], after.failed);
    RunSplit(w, actions[..i + 1], actions[i + 1..], {});
    assert actions[..i + 1] + actions[i + 1..] == actions;
  }

  lemma NothingToWaitFor(a: Action, failed: set<Failure>)
    requires a.deps == []
    ensures !Exec.Deferred(a, failed)
  {
  }

  lemma InPlan(desired: seq<Resource>, live: LiveInventory, o: Options, p: Plan, chosen: seq<Action>, a: Action)
    requires hide *; PlanDesired(desired, live, o).Some? && multiset(p.actions) == multiset(PlanDesired(desired, live, o).value.actions + chosen)
    requires a in PlanDesired(desired, live, o).value.actions
    ensures a in p.actions
  {
    hide PlanDesired;
    InSorted(p.actions, PlanDesired(desired, live, o).value.actions + chosen, a);
  }

  lemma FileActionIs(r: Resource, o: Options, n: string)
    requires r.body.File? && n in r.body.file.nodes
    ensures PlannedFor(CreateFile(r, o, n), r, o) && CreateFile(r, o, n).deps == [] && CreateFile(r, o, n).node == n
  {
    hide FileParams, LevelIn;
  }

  // ----- three cycles -----

  /** A guest with nothing to do, or a plain manifest at a PVE template. */
  predicate AtRest(r: Resource, obj: Option<Obj>) { Calm(r, obj) || Mismatch(r, obj) }

  /** With every guest at rest and every file present the plan holds prunes only. */
  lemma QuietPlan(desired: seq<Resource>, o: Options, listing: seq<Listed>, p: Plan, s: Site)
    requires Lists(listing, s) && IsPlan(desired, FullInventory(listing, s, desired, o.allow), o, p)
    requires Manageable(desired, o) && AllWorkable(desired, s) && FilesPresent(desired, s)
    requires forall r | r in desired && IsGuest(r) :: AtRest(r, ObjAt(s, HomeOf(r)))
    ensures forall a | a in p.actions :: a.what == Delete
  {
    hide IsPlan, Lists, FullInventory, Manageable, PlannedFor, Judge, PruneOf, PlanDesired, PlanFile, AtRest, Workable, Valid, WellFormed, LocalPlan, PlanGuest;
    var inv := FullInventory(listing, s, desired, o.allow);
    PassExists(desired, inv, o, p);
    PassActions(desired, inv, o);
    forall a | a in p.actions ensures a.what == Delete {
      if a !in PlanDesired(desired, inv, o).value.actions {
        NotPassIsDelete(desired, inv, o, p, a);
      } else {
        var r :| r in desired && PlanOne(r, inv, o).Some? && a in PlanOne(r, inv, o).value.actions;
        RestsPlanNothing(desired, o, listing, s, r);
      }
    }
  }

  lemma RestsPlanNothing(desired: seq<Resource>, o: Options, listing: seq<Listed>, s: Site, r: Resource)
    requires hide *; Lists(listing, s) && Manageable(desired, o) && AllWorkable(desired, s) && FilesPresent(desired, s) && r in desired
    requires IsGuest(r) ==> AtRest(r, ObjAt(s, HomeOf(r)))
    requires PlanOne(r, FullInventory(listing, s, desired, o.allow), o).Some?
    ensures PlanOne(r, FullInventory(listing, s, desired, o.allow), o).value.actions == []
  {
    hide Lists, FullInventory, Manageable, Valid, WellFormed, LocalPlan, PlanGuest, PlanFile, Tractable, IsTemplate, DriftOf, DesiredState, NodeAllowed;
    Manages(desired, o, r);
    if IsGuest(r) {
      PlanIsLocal(r, listing, s, desired, o);
      var obj := ObjAt(s, HomeOf(r));
      LocalShape(r, obj, o);
      if Calm(r, obj) {
        CalmIsQuiet(r, obj, o);
      }
    } else {
      forall n | n in r.body.file.nodes
        ensures var inv := FullInventory(listing, s, desired, o.allow); FileKeyOf(r, n) in inv.present && inv.present[FileKeyOf(r, n)]
      {
        FilePresence(desired, listing, s, o.allow, r, n);
      }
      PresentNotPlanned(r, r.body.file.nodes, FullInventory(listing, s, desired, o.allow), o);
    }
  }

  lemma NotPassIsDelete(desired: seq<Resource>, live: LiveInventory, o: Options, p: Plan, a: Action)
    requires hide *; IsPlan(desired, live, o, p) && a in p.actions
    requires PlanDesired(desired, live, o).Some? && a !in PlanDesired(desired, live, o).value.actions
    ensures a.what == Delete
  {
    hide IsPlan, PlanDesired, WithinBudget, Candidates, Active, InOrder;
    var chosen, excess := PlanParts(desired, live, o, p);
    ChosenAreTierNine(desired, live, o, p, chosen, excess);
    InSorted(p.actions, PlanDesired(desired, live, o).value.actions + chosen, a);
  }

  /** How far k cycles bring the cluster. */
  predicate Reached(desired: seq<Resource>, s: Site, k: nat) {
    && AllWorkable(desired, s)
    && (k >= 1 ==> FilesPresent(desired, s) && forall r | r in desired && IsGuest(r) :: NoOverrun(r, ObjAt(s, HomeOf(r))))
    && (k >= 2 ==> forall r | r in desired && IsGuest(r) :: Settled(r, ObjAt(s, HomeOf(r))))
    && (k >= 3 ==> forall r | r in desired && IsGuest(r) :: AtRest(r, ObjAt(s, HomeOf(r))))
  }

  lemma CycleReaches(desired: seq<Resource>, o: Options, listing: seq<Listed>, p: Plan, w: World, w': World, k: nat)
    requires hide *; CycleStep(desired, o, listing, p, w, w') && w.faults == [] && Manageable(desired, o) && Reached(desired, w.site, k)
    ensures Reached(desired, w'.site, k + 1) && w'.faults == []
  {
    hide CycleStep, Manageable, Workable, NoOverrun, FilesPresent, Calm, IsTemplate, Valid, WellFormed;
    StepNoFaults(desired, o, listing, p, w, w');
    AllValid(desired, o);
    CycleDownloads(desired, o, listing, p, w, w');
    forall r | r in desired && IsGuest(r)
      ensures Workable(r, ObjAt(w'.site, HomeOf(r))) && NoOverrun(r, ObjAt(w'.site, HomeOf(r)))
      ensures k >= 1 ==> Settled(r, ObjAt(w'.site, HomeOf(r)))
      ensures k >= 2 ==> AtRest(r, ObjAt(w'.site, HomeOf(r)))
    {
      CycleTracks(desired, o, listing, p, w, w', r);
      if k >= 1 {
        CycleSettles(desired, o, listing, p, w, w', r);
      }
      if k >= 2 && !Proper(r, ObjAt(w.site, HomeOf(r))) {
        MismatchStays(desired, o, listing, p, w, w', r);
      }
    }
  }

  lemma StepNoFaults(desired: seq<Resource>, o: Options, listing: seq<Listed>, p: Plan, w: World, w': World)
    requires CycleStep(desired, o, listing, p, w, w') && w.faults == []
    ensures w'.faults == []
  {
    hide IsPlan, Lists, FullInventory, Run;
    RunNoFaults(w, p.actions, {});
  }

  lemma AllValid(desired: seq<Resource>, o: Options)
    requires Manageable(desired, o)
    ensures forall r | r in desired :: Valid(r)
  {
    hide Valid, WellFormed, OwnHomes, ClonesOrdered;
  }

  /** A cycle leaves a mismatched object exactly as it was. */
  lemma MismatchStays(desired: seq<Resource>, o: Options, listing: seq<Listed>, p: Plan, w: World, w': World, r: Resource)
    requires CycleStep(desired, o, listing, p, w, w') && Manageable(desired, o) && AllWorkable(desired, w.site)
    requires r in desired && IsGuest(r) && Mismatch(r, ObjAt(w.site, HomeOf(r)))
    ensures ObjAt(w'.site, HomeOf(r)) == ObjAt(w.site, HomeOf(r))
  {
    hide IsPlan, Lists, FullInventory, Manageable, LocalPlan, Run, Valid, WellFormed, Tractable, IsTemplate, Pending;
    Manages(desired, o, r);
    ManagedIsHoused(desired, o, w.site, r);
    HomeActions(desired, o, listing, p, w, r);
    LocalShape(r, ObjAt(w.site, HomeOf(r)), o);
    forall a | a in p.actions && LocOf(a) == HomeOf(r) ensures false {
      InFilter(p.actions, (x: Action) => x.tier == 0 && LocOf(x) == HomeOf(r), a);
    }
    RunKeeps(w, p.actions, {}, HomeOf(r));
  }

  lemma {:induction false} Progress(desired: seq<Resource>, o: Options, listings: seq<seq<Listed>>, plans: seq<Plan>, ws: seq<World>, k: nat)
    requires hide CycleStep, Manageable, AllWorkable, Reached; Cycles(desired, o, listings, plans, ws) && ws[0].faults == [] && k <= |plans|
    requires Manageable(desired, o) && AllWorkable(desired, ws[0].site)
    ensures Reached(desired, ws[k].site, k) && ws[k].faults == []
  {
    hide CycleStep, Manageable, AllWorkable, FilesPresent;
    if k > 0 {
      Progress(desired, o, listings, plans, ws, k - 1);
      assert CycleStep(desired, o, listings[k - 1], plans[k - 1], ws[k - 1], ws[k - 1 + 1]);
      CycleReaches(desired, o, listings[k - 1], plans[k - 1], ws[k - 1], ws[k], k - 1);
    }
  }

  /** Bounded convergence: from the fourth plan on there is nothing to create, update, mark, start or
      stop, for any manageable desired state, any starting cluster whose objects are workable and any
      number of cycles. */
  lemma ConvergesInThree(desired: seq<Resource>, o: Options, listings: seq<seq<Listed>>, plans: seq<Plan>, ws: seq<World>, k: nat)
    requires hide CycleStep, Manageable, AllWorkable; Cycles(desired, o, listings, plans, ws) && ws[0].faults == [] && 3 <= k < |plans|
    requires Manageable(desired, o) && AllWorkable(desired, ws[0].site)
    ensures forall a | a in plans[k].actions :: a.what == Delete
  {
    hide Manageable, AllWorkable, FilesPresent, AtRest, IsPlan, Lists, FullInventory, Run;
    Progress(desired, o, listings, plans, ws, k);
    assert CycleStep(desired, o, listings[k], plans[k], ws[k], ws[k + 1]);
    QuietPlan(desired, o, listings[k], plans[k], ws[k].site);
  }

  /** One cycle is not enough: the create of a clone that is to run leaves its home with a start still
      to plan, because the clone call takes no power state. */
  lemma ClonedStartIsPending(r: Resource, w: World, a: Action, o: Options)
    requires hide WellFormed, CreateStep, Pending, Apply, IsTemplate, Vm.IsCloneBacked, DesiredState; IsGuest(r) && Valid(r) && WellFormed(r) && w.faults == [] && HomeOf(r) !in w.site.objs
    requires CreateStep(r, o) == Some(a) && r.kind == VM && Vm.IsCloneBacked(r.body.vm) && DesiredState(r) == STARTED
    requires var src := Loc(NodeOf(r), r.body.vm.cloneSource); src in w.site.objs && w.site.objs[src].family == Qemu
    ensures Apply(w, a).ok
    ensures var mine := Pending(r, ObjAt(Apply(w, a).world.site, HomeOf(r)), o); mine != [] && mine[|mine| - 1].what == Start
  {
    hide Valid, WellFormed, Apply, LocalPlan, Tractable, IsTemplate, DriftOf, DesiredState, CreateStep, LevelIn, Vm.IsCloneBacked;
    CloneCreates(r, w, a, o);
    PowerWords();
    LocalShape(r, ObjAt(Apply(w, a).world.site, HomeOf(r)), o);
  }
}
