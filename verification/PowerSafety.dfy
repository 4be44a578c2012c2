/** Power safety of a whole run planned from an accurate snapshot. */
module PowerSafety {
  import opened Desired
  import opened Seqs
  import opened Plan
  import opened PlanSafety
  import opened World
  import opened Exec
  import opened Live
  import opened Local
  import opened ExecSafety

  lemma OrphanIsGuest(e: Listed, desired: seq<Resource>, live: LiveInventory, o: Options)
    requires Judge(e, desired, live, o) == Orphan
    ensures IsGuestEntry(e) && LocOf(PruneOf(e, live)) == EntryLoc(e)
  {
    hide NormalizeKind, NodeAllowed;
  }

  /** One guest is listed once, so it is a candidate at most once. */
  lemma {:induction false} CandidatesDistinct(listing: seq<Listed>, desired: seq<Resource>, live: LiveInventory, o: Options)
    requires forall i, j | 0 <= i < j < |listing| && IsGuestEntry(listing[i]) && IsGuestEntry(listing[j]) ::
               EntryLoc(listing[i]) != EntryLoc(listing[j])
    ensures DistinctTargets(Candidates(listing, desired, live, o))
  {
    hide Judge, PruneOf, IsGuestEntry;
    if listing != [] {
      var n := |listing| - 1;
      var front := listing[..n];
      assert listing == front + [listing[n]];
      assert forall i | 0 <= i < n :: front[i] == listing[i];
      CandidatesDistinct(front, desired, live, o);
      if Judge(listing[n], desired, live, o) == Orphan {
        OrphanIsGuest(listing[n], desired, live, o);
        var before, last := Candidates(front, desired, live, o), PruneOf(listing[n], live);
        forall a | a in before ensures (a.node, a.id) != (last.node, last.id) {
          CandidateSource(front, desired, live, o, a);
          var e :| e in front && Judge(e, desired, live, o) == Orphan && a == PruneOf(e, live);
          OrphanIsGuest(e, desired, live, o);
          var i :| 0 <= i < n && front[i] == e;
          assert EntryLoc(listing[i]) != EntryLoc(listing[n]);
          assert LocOf(a) != LocOf(last);
        }
      }
    }
  }

  lemma Repeated(s: seq<Action>, i: nat, j: nat)
    requires i < j < |s| && s[i] == s[j]
    ensures multiset(s)[s[i]] >= 2
  {
    TakeOut(s, j);
    var rest := s[..j] + s[j + 1..];
    assert rest[i] == s[i];
    assert s[i] in multiset(rest);
  }

  /** No object is deleted twice in one plan. */
  lemma DeletesDistinct(desired: seq<Resource>, live: LiveInventory, o: Options, p: Plan, i: nat, j: nat)
    requires hide *; IsPlan(desired, live, o, p) && DistinctTargets(Candidates(live.listing, desired, live, o))
    requires j < i < |p.actions| && p.actions[i].what == Delete && p.actions[j].what == Delete
    ensures LocOf(p.actions[j]) != LocOf(p.actions[i])
  {
    hide IsPlan, Candidates, DistinctTargets, Before, Suppressed;
    var all := Candidates(live.listing, desired, live, o);
    var del := (a: Action) => a.what == Delete;
    PrunePartition(desired, live, o, p);
    FilterOrder(p.actions, del, j, i);
    var f := Deletes(p);
    var a, b :| 0 <= a < b < |f| && f[a] == p.actions[j] && f[b] == p.actions[i];
    assert f[a] in multiset(f) && f[b] in multiset(f);
    assert f[a] in multiset(all) && f[b] in multiset(all);
    if LocOf(f[a]) == LocOf(f[b]) {
      SameTargetSame(all, f[a], f[b]);
      Repeated(f, a, b);
      OncePerTarget(all, f[a]);
    }
  }

  /** A manifest of one guest family never finds a config of the other family's object. */
  lemma OtherFamilyAbsent(r: Resource, inv: LiveInventory, s: Site, listing: seq<Listed>, desired: seq<Resource>, allow: seq<string>, rd: Reads)
    requires Lists(listing, s) && inv == Inventory(listing, s, desired, allow, rd)
    requires HomeOf(r) in s.objs && BaseKind(r.kind) != KindOf(s.objs[HomeOf(r)].family)
    ensures ConfigAt(inv, ObjKey(NodeOf(r), r.kind, IdOf(r))).None?
    ensures BaseKind(r.kind) in {VM, LXC} ==> ConfigAt(inv, ObjKey(NodeOf(r), BaseKind(r.kind), IdOf(r))).None?
  {
    hide Lists, Inventory, NodeAllowed, IsTemplate;
    InventoryAt(listing, s, desired, allow, rd, NodeOf(r), r.kind, IdOf(r));
    InventoryAt(listing, s, desired, allow, rd, NodeOf(r), BaseKind(r.kind), IdOf(r));
  }

  lemma AbsentIsCreated(r: Resource, live: LiveInventory, o: Options)
    requires hide *; IsGuest(r) && PlanOne(r, live, o).Some? && BaseKind(r.kind) in {VM, LXC}
    requires ConfigAt(live, ObjKey(NodeOf(r), r.kind, IdOf(r))).None?
    requires ConfigAt(live, ObjKey(NodeOf(r), BaseKind(r.kind), IdOf(r))).None?
    ensures forall a | a in PlanOne(r, live, o).value.actions :: a.what == Create && !ArtifactKind(a.kind)
  {
    hide ConfigAt, Power, DriftOf, AnomaliesOf, IsTemplate;
    CreateStepShape(r, o);
    CreateStepKind(r, o);
  }

  lemma CreateStepKind(r: Resource, o: Options)
    ensures hide *; CreateStep(r, o).Some? ==> CreateStep(r, o).value.kind == r.kind
  {
    hide Vm.IsCloneBacked, Vm.CloneDeleteKeys, CreateParamsOf;
  }

  /** Before a delete only refused creates are aimed at its object. */
  lemma DeleteMeetsCreates(desired: seq<Resource>, s: Site, listing: seq<Listed>, rd: Reads, inv: LiveInventory, o: Options, p: Plan, i: nat, j: nat)
    requires hide *; Lists(listing, s) && inv == Inventory(listing, s, desired, o.allow, rd)
    requires IsPlan(desired, inv, o, p) && OwnHomes(desired) && forall r | r in desired :: Valid(r)
    requires j < i < |p.actions| && p.actions[i].what == Delete && LocOf(p.actions[j]) == LocOf(p.actions[i])
    ensures p.actions[j].what == Create && !ArtifactKind(p.actions[j].kind)
    ensures LocOf(p.actions[i]) in s.objs
  {
    hide IsPlan, Lists, Inventory, PlannedFor, Judge, PruneOf, OwnHomes, Valid, PlanOne, NormalizeKind, NodeAllowed, NamedBy;
    var a, b := p.actions[i], p.actions[j];
    DeleteTarget(desired, s, listing, rd, inv, o, p, a);
    InventoryListing(listing, s, desired, o.allow, rd);
    ActionSource(desired, inv, o, p, b);
    if exists r | r in desired :: PlannedFor(b, r, o) {
      var r :| r in desired && PlannedFor(b, r, o);
      CreateForOther(desired, s, listing, rd, inv, o, p, a, b, r);
    } else {
      var e :| e in inv.listing && Judge(e, desired, inv, o) == Orphan && b == PruneOf(e, inv) && b.kind !in p.suppressed;
      PruneShape(e, inv);
      ListsDistinct(listing, s);
      CandidatesDistinct(listing, desired, inv, o);
      DeletesDistinct(desired, inv, o, p, i, j);
    }
  }

  lemma ListsDistinct(listing: seq<Listed>, s: Site)
    requires Lists(listing, s)
    ensures forall i, j | 0 <= i < j < |listing| && IsGuestEntry(listing[i]) && IsGuestEntry(listing[j]) ::
              EntryLoc(listing[i]) != EntryLoc(listing[j])
  {
    hide IsGuestEntry, NormalizeKind;
  }

  lemma InventoryListing(listing: seq<Listed>, s: Site, desired: seq<Resource>, allow: seq<string>, rd: Reads)
    ensures Inventory(listing, s, desired, allow, rd).listing == listing
  {
    KeepsNoFiles(listing, |listing|, s, allow, rd);
  }

  /** What a delete is aimed at. */
  lemma DeleteTarget(desired: seq<Resource>, s: Site, listing: seq<Listed>, rd: Reads, inv: LiveInventory, o: Options, p: Plan, a: Action)
    requires hide *; Lists(listing, s) && inv == Inventory(listing, s, desired, o.allow, rd)
    requires IsPlan(desired, inv, o, p) && a in p.actions && a.what == Delete
    ensures LocOf(a) in s.objs && a.kind == KindOf(s.objs[LocOf(a)].family) && a.id > 0 && Read(s, o.allow, rd, LocOf(a))
    ensures a.livePower == Power(inv, ObjKey(a.node, a.kind, a.id)) && NodeAllowed(o.allow, a.node)
    ensures forall r | r in desired && !ArtifactKind(r.kind) && BaseKind(r.kind) == a.kind :: HomeOf(r) != LocOf(a)
  {
    hide IsPlan, Lists, Inventory, NormalizeKind, NodeAllowed, NamedBy, BaseKind, ArtifactKind, IsTemplate, Devices.HasTag;
    PruneSafety(desired, inv, o, p, a);
    InventoryAt(listing, s, desired, o.allow, rd, a.node, a.kind, a.id);
    PrunePower(desired, inv, o, p, a);
  }

  lemma PrunePower(desired: seq<Resource>, live: LiveInventory, o: Options, p: Plan, a: Action)
    requires IsPlan(desired, live, o, p) && a in p.actions && a.what == Delete
    ensures a.livePower == Power(live, ObjKey(a.node, a.kind, a.id))
  {
    hide IsPlan, PlannedFor, Judge, NormalizeKind;
    ActionSource(desired, live, o, p, a);
    if exists r | r in desired :: PlannedFor(a, r, o) {
      var r :| r in desired && PlannedFor(a, r, o);
      NeverDeletes(a, r, o);
    } else {
      var e :| e in live.listing && Judge(e, desired, live, o) == Orphan && a == PruneOf(e, live) && a.kind !in p.suppressed;
    }
  }

  lemma ValidBase(r: Resource)
    requires Valid(r)
    ensures IsGuest(r) <==> !ArtifactKind(r.kind)
    ensures IsGuest(r) ==> BaseKind(r.kind) in {VM, LXC}
  {
    hide Vm.IsCloneBacked;
  }

  lemma CreateForOther(desired: seq<Resource>, s: Site, listing: seq<Listed>, rd: Reads, inv: LiveInventory, o: Options, p: Plan, a: Action, b: Action, r: Resource)
    requires hide *; Lists(listing, s) && inv == Inventory(listing, s, desired, o.allow, rd)
    requires IsPlan(desired, inv, o, p) && OwnHomes(desired) && r in desired && Valid(r) && PlannedFor(b, r, o)
    requires a.id > 0 && LocOf(b) == LocOf(a) && b in p.actions
    requires LocOf(a) in s.objs && a.kind == KindOf(s.objs[LocOf(a)].family)
    requires forall r | r in desired && !ArtifactKind(r.kind) && BaseKind(r.kind) == a.kind :: HomeOf(r) != LocOf(a)
    ensures b.what == Create && !ArtifactKind(b.kind)
  {
    hide IsPlan, Lists, Inventory, PlannedFor, OwnHomes, Valid, PlanOne, ConfigAt;
    HomeOfAction(b, r, o);
    ValidBase(r);
    OtherFamilyAbsent(r, inv, s, listing, desired, o.allow, rd);
    PlanAtHome(desired, inv, o, p, r);
    InFilter(p.actions, (x: Action) => x.tier == 0 && LocOf(x) == HomeOf(r), b);
    AbsentIsCreated(r, inv, o);
  }

  /** The snapshot of an update action is that of its object. */
  lemma UpdateAccurate(desired: seq<Resource>, s: Site, listing: seq<Listed>, rd: Reads, inv: LiveInventory, o: Options, p: Plan, a: Action)
    requires Lists(listing, s) && inv == Inventory(listing, s, desired, o.allow, rd) && AccurateReads(s, rd)
    requires IsPlan(desired, inv, o, p) && OwnHomes(desired) && (forall r | r in desired :: Valid(r))
    requires a in p.actions && a.what == Update
    ensures LocOf(a) in s.objs && Accurate(s, a)
  {
    hide IsPlan, Lists, Inventory, PlannedFor, OwnHomes, Valid, PlanOne, NodeAllowed;
    var r := OwnerOf(desired, inv, o, p, a);
    UpdateKeyed(r, inv, o, a);
    InventoryAt(listing, s, desired, o.allow, rd, NodeOf(r), r.kind, IdOf(r));
    ValidBase(r);
  }

  lemma DeleteAccurate(desired: seq<Resource>, s: Site, listing: seq<Listed>, rd: Reads, inv: LiveInventory, o: Options, p: Plan, a: Action)
    requires Lists(listing, s) && inv == Inventory(listing, s, desired, o.allow, rd) && AccurateReads(s, rd)
    requires IsPlan(desired, inv, o, p) && a in p.actions && a.what == Delete
    ensures LocOf(a) in s.objs && Accurate(s, a)
  {
    hide IsPlan, Lists, Inventory, NodeAllowed, IsTemplate;
    DeleteTarget(desired, s, listing, rd, inv, o, p, a);
    InventoryAt(listing, s, desired, o.allow, rd, a.node, a.kind, a.id);
  }

  /** When an update or delete comes up, its object is as the snapshot saw it. */
  lemma TargetUntouched(desired: seq<Resource>, w: World, listing: seq<Listed>, rd: Reads, inv: LiveInventory, o: Options, p: Plan, i: nat)
    requires hide *; Lists(listing, w.site) && inv == Inventory(listing, w.site, desired, o.allow, rd)
    requires IsPlan(desired, inv, o, p) && OwnHomes(desired) && (forall r | r in desired :: Valid(r))
    requires i < |p.actions| && p.actions[i].what in {Update, Delete} && LocOf(p.actions[i]) in w.site.objs
    ensures ObjAt(Upto(w, p.actions, i).world.site, LocOf(p.actions[i])) == ObjAt(w.site, LocOf(p.actions[i]))
  {
    hide IsPlan, Lists, Inventory, OwnHomes, Valid, Run, ArtifactKind;
    var loc := LocOf(p.actions[i]);
    forall b | b in p.actions[..i] && LocOf(b) == loc ensures b.what == Create && !ArtifactKind(b.kind) {
      var j :| 0 <= j < i && p.actions[..i][j] == b;
      if p.actions[i].what == Update {
        UpdateIsFirst(desired, inv, o, p, i, j);
      } else {
        DeleteMeetsCreates(desired, w.site, listing, rd, inv, o, p, i, j);
      }
    }
    RunKeeps(w, p.actions[..i], {}, loc);
  }

  /** Power safety of the whole run under arbitrary call failures: every call of action i obeys the
      rules, and an update reported OK restores a running object that is wanted running. */
  lemma PowerSafety(desired: seq<Resource>, w: World, listing: seq<Listed>, rd: Reads, inv: LiveInventory, o: Options, p: Plan, i: nat)
    requires hide *; Lists(listing, w.site) && inv == Inventory(listing, w.site, desired, o.allow, rd) && AccurateReads(w.site, rd)
    requires IsPlan(desired, inv, o, p) && OwnHomes(desired) && (forall r | r in desired :: Valid(r))
    requires i < |p.actions|
    ensures var before, a := Upto(w, p.actions, i).world, p.actions[i];
            && AddsSafely(before, Apply(before, a).world, a)
            && (a.what == Update && Run(w, p.actions, {}).results[i].ok && a.desiredPower == STARTED && Running(before.site, LocOf(a)) ==>
                  Running(Apply(before, a).world.site, LocOf(a)))
  {
    hide IsPlan, Lists, Inventory, OwnHomes, Valid, Run, Apply, AccurateReads, AddsSafely;
    var before, a := Upto(w, p.actions, i).world, p.actions[i];
    if a.what == Update {
      UpdateAccurate(desired, w.site, listing, rd, inv, o, p, a);
      TargetUntouched(desired, w, listing, rd, inv, o, p, i);
    }
    if a.what == Delete {
      DeleteAccurate(desired, w.site, listing, rd, inv, o, p, a);
      TargetUntouched(desired, w, listing, rd, inv, o, p, i);
    }
    StillAccurate(w.site, before.site, a);
    ApplySafe(before, a);
    StepAt(w, p.actions, i);
    if a.what == Update && Apply(before, a).ok && a.desiredPower == STARTED && Running(before.site, LocOf(a)) {
      UpdateRestores(before, a);
    }
  }

  lemma StillAccurate(s: Site, t: Site, a: Action)
    requires a.what in {Update, Delete} ==> Accurate(s, a) && ObjAt(t, LocOf(a)) == ObjAt(s, LocOf(a))
    ensures Accurate(t, a)
  {
  }

  /** No delete in the log of a run reached a running object. */
  predicate DeletesSafe(w: World, w': World) {
    w.log <= w'.log && forall k | |w.log| <= k < |w'.log| :: w'.log[k].call.Destroy? ==> !w'.log[k].wasRunning
  }

  lemma DeletesSafeStep(w: World, v: World, u: World, a: Action)
    requires DeletesSafe(w, v) && AddsSafely(v, u, a)
    ensures DeletesSafe(w, u)
  {
    forall k | |w.log| <= k < |u.log| ensures u.log[k].call.Destroy? ==> !u.log[k].wasRunning {
      if k < |v.log| {
        assert v.log[k] == u.log[k];
      }
    }
  }

  lemma {:induction false} LogUpto(desired: seq<Resource>, w: World, listing: seq<Listed>, rd: Reads, inv: LiveInventory, o: Options, p: Plan, i: nat)
    requires hide *; Lists(listing, w.site) && inv == Inventory(listing, w.site, desired, o.allow, rd) && AccurateReads(w.site, rd)
    requires IsPlan(desired, inv, o, p) && OwnHomes(desired) && (forall r | r in desired :: Valid(r))
    requires i <= |p.actions|
    ensures DeletesSafe(w, Upto(w, p.actions, i).world)
  {
    hide IsPlan, Lists, Inventory, OwnHomes, Valid, Run, Apply, AccurateReads, AddsSafely, DeletesSafe, Deferred;
    if i == 0 {
      EmptyRun(w, p.actions);
      NothingLogged(w);
    } else {
      LogUpto(desired, w, listing, rd, inv, o, p, i - 1);
      PowerSafety(desired, w, listing, rd, inv, o, p, i - 1);
      StepAt(w, p.actions, i - 1);
      var before, a := Upto(w, p.actions, i - 1).world, p.actions[i - 1];
      if !Deferred(a, Upto(w, p.actions, i - 1).failed) {
        DeletesSafeStep(w, before, Apply(before, a).world, a);
      }
    }
  }

  lemma NothingLogged(w: World)
    ensures DeletesSafe(w, w)
  {
  }

  /** DELETE never reaches a running object, whatever calls fail. */
  lemma NoRunningObjectDeleted(desired: seq<Resource>, w: World, listing: seq<Listed>, rd: Reads, inv: LiveInventory, o: Options, p: Plan)
    requires Lists(listing, w.site) && inv == Inventory(listing, w.site, desired, o.allow, rd) && AccurateReads(w.site, rd)
    requires IsPlan(desired, inv, o, p) && OwnHomes(desired) && (forall r | r in desired :: Valid(r))
    ensures DeletesSafe(w, Run(w, p.actions, {}).world)
  {
    hide IsPlan, Lists, Inventory, OwnHomes, Valid, Run, AccurateReads, DeletesSafe;
    LogUpto(desired, w, listing, rd, inv, o, p, |p.actions|);
    assert p.actions[..|p.actions|] == p.actions;
  }
}
