/** What every plan guarantees: prune safety, the prune partition and its independence of listing
    order, and dependency order. */
module PlanSafety {
  import opened Text
  import opened Devices
  import opened Owned
  import opened Graph
  import opened Desired
  import opened Seqs
  import opened Plan

  // ----- where actions come from -----

  /** A pass-A action of manifest `r`. */
  predicate PlannedFor(a: Action, r: Resource, o: Options) {
    && a.tier == 0 && !a.prune && a.kind == r.kind && a.ref == RefOf(r) && a.level == LevelIn(o, RefOf(r))
    && a.what in {Create, Update, Start, Stop, MarkTemplate}
    && a.deps == (if a.what in {Create, MarkTemplate} && !r.body.File? then EdgesIn(o, RefOf(r)) else [])
    && (if r.body.File? then a.what == Create && a.node in r.body.file.nodes && a.id == 0 && a.params == FileParams(r.body.file)
        else a.node == NodeOf(r) && a.id == IdOf(r))
  }

  lemma {:induction false} FileActions(r: Resource, nodes: seq<string>, live: LiveInventory, o: Options)
    requires r.body.File? && forall n | n in nodes :: n in r.body.file.nodes
    ensures forall a | a in PlanFile(r, nodes, live, o).actions :: PlannedFor(a, r, o)
  {
    hide FileParams;
    if nodes != [] {
      FileActions(r, nodes[1..], live, o);
      assert PlannedFor(CreateFile(r, o, nodes[0]), r, o);
    }
  }

  lemma OneActions(r: Resource, live: LiveInventory, o: Options)
    requires hide *; PlanOne(r, live, o).Some?
    ensures forall a | a in PlanOne(r, live, o).value.actions :: PlannedFor(a, r, o)
  {
    hide PlanGuest, PlanFile, PlannedFor, ConfigAt, Power, BaseKind;
    if r.body.File? {
      FileActions(r, r.body.file.nodes, live, o);
    } else {
      var own, base := ObjKey(NodeOf(r), r.kind, IdOf(r)), ObjKey(NodeOf(r), BaseKind(r.kind), IdOf(r));
      GuestActions(r, ConfigAt(live, own), ConfigAt(live, base), Power(live, own), Power(live, base), o);
    }
  }

  lemma GuestActions(r: Resource, own: Option<Config>, base: Option<Config>, ownPower: string, basePower: string, o: Options)
    requires hide *; !r.body.File? && PlanGuest(r, own, base, ownPower, basePower, o).Some?
    ensures forall a | a in PlanGuest(r, own, base, ownPower, basePower, o).value.actions :: PlannedFor(a, r, o)
  {
    hide DriftOf, CreateParamsOf, AnomaliesOf, FileParams, IsTemplate, DesiredState, Vm.IsCloneBacked, Vm.CloneDeleteKeys, LevelIn, EdgesIn;
  }

  lemma {:induction false} PassActions(desired: seq<Resource>, live: LiveInventory, o: Options)
    requires hide *; PlanDesired(desired, live, o).Some?
    ensures forall a | a in PlanDesired(desired, live, o).value.actions ::
              exists r | r in desired :: PlanOne(r, live, o).Some? && a in PlanOne(r, live, o).value.actions
    ensures forall a | a in PlanDesired(desired, live, o).value.actions :: exists r | r in desired :: PlannedFor(a, r, o)
    ensures forall r | r in desired :: PlanOne(r, live, o).Some?
    ensures forall r, a | r in desired && a in PlanOne(r, live, o).value.actions :: a in PlanDesired(desired, live, o).value.actions
  {
    hide PlanOne, PlannedFor;
    if desired != [] {
      var n := |desired| - 1;
      assert desired == desired[..n] + [desired[n]];
      PassActions(desired[..n], live, o);
      OneActions(desired[n], live, o);
      assert desired[n] in desired;
      forall a | a in PlanDesired(desired, live, o).value.actions
        ensures exists r | r in desired :: PlanOne(r, live, o).Some? && a in PlanOne(r, live, o).value.actions
        ensures exists r | r in desired :: PlannedFor(a, r, o)
      {
        if a in PlanDesired(desired[..n], live, o).value.actions {
          var r :| r in desired[..n] && PlanOne(r, live, o).Some? && a in PlanOne(r, live, o).value.actions;
          assert r in desired;
          var q :| q in desired[..n] && PlannedFor(a, q, o);
          assert q in desired;
        }
      }
    }
  }

  lemma {:induction false} CandidateSource(listing: seq<Listed>, desired: seq<Resource>, live: LiveInventory, o: Options, a: Action)
    ensures a in Candidates(listing, desired, live, o) <==>
            exists e | e in listing :: Judge(e, desired, live, o) == Orphan && a == PruneOf(e, live)
  {
    hide Judge, PruneOf;
    if listing != [] {
      var n := |listing| - 1;
      assert listing == listing[..n] + [listing[n]];
      CandidateSource(listing[..n], desired, live, o, a);
      if a in Candidates(listing[..n], desired, live, o) {
        var e :| e in listing[..n] && Judge(e, desired, live, o) == Orphan && a == PruneOf(e, live);
        assert e in listing;
      }
      if Judge(listing[n], desired, live, o) == Orphan && a == PruneOf(listing[n], live) {
        assert listing[n] in listing;
      }
      if exists e | e in listing :: Judge(e, desired, live, o) == Orphan && a == PruneOf(e, live) {
        var e :| e in listing && Judge(e, desired, live, o) == Orphan && a == PruneOf(e, live);
        assert e in listing[..n] || e == listing[n];
      }
    }
  }

  lemma PruneShape(e: Listed, live: LiveInventory)
    ensures var a := PruneOf(e, live);
            a.what == Delete && a.tier == 9 && a.prune && a.ref == NO_REF && a.deps == [] && a.node == e.node && a.id == e.vmid
  {
  }

  /** The parts of a plan. */
  lemma PlanParts(desired: seq<Resource>, live: LiveInventory, o: Options, p: Plan) returns (chosen: seq<Action>, excess: seq<Action>)
    requires hide *; IsPlan(desired, live, o, p)
    ensures PlanDesired(desired, live, o).Some?
    ensures WithinBudget(Active(Candidates(live.listing, desired, live, o), p.suppressed), o.budget, chosen, excess)
    ensures p.deferred == Guarded(Candidates(live.listing, desired, live, o), p.suppressed) + excess
    ensures IsSortOf(p.actions, PlanDesired(desired, live, o).value.actions + chosen)
  {
    hide Active, Guarded, Candidates, PlanDesired, WithinBudget, IsSortOf, Suppressed, Unowned;
    chosen, excess :|
      && WithinBudget(Active(Candidates(live.listing, desired, live, o), p.suppressed), o.budget, chosen, excess)
      && p.deferred == Guarded(Candidates(live.listing, desired, live, o), p.suppressed) + excess
      && IsSortOf(p.actions, PlanDesired(desired, live, o).value.actions + chosen);
  }

  lemma ChosenAreActive(active: seq<Action>, budget: int, chosen: seq<Action>, excess: seq<Action>)
    requires WithinBudget(active, budget, chosen, excess)
    ensures multiset(chosen) + multiset(excess) == multiset(active)
    ensures forall c | c in chosen :: c in active
    ensures forall c | c in excess :: c in active
    ensures budget > 0 ==> |chosen| <= budget
  {
    forall c | c in chosen ensures c in active {
      assert c in multiset(chosen) + multiset(excess);
    }
    forall c | c in excess ensures c in active {
      assert c in multiset(chosen) + multiset(excess);
    }
  }

  lemma InSorted(s: seq<Action>, t: seq<Action>, a: Action)
    requires multiset(s) == multiset(t)
    ensures a in s <==> a in t
  {
    assert a in s <==> a in multiset(s);
    assert a in t <==> a in multiset(t);
  }

  /** Every action is a manifest's tier-0 action or the prune of a judged orphan outside every
      suppressed kind. */
  lemma ActionSource(desired: seq<Resource>, live: LiveInventory, o: Options, p: Plan, a: Action)
    requires IsPlan(desired, live, o, p) && a in p.actions
    ensures
      || (exists r | r in desired :: PlannedFor(a, r, o))
      || (exists e | e in live.listing :: Judge(e, desired, live, o) == Orphan && a == PruneOf(e, live) && a.kind !in p.suppressed)
  {
    hide IsPlan, PlanDesired, Candidates, Judge, PruneOf, WithinBudget, PlannedFor, InOrder, PlanOne, Suppressed, TiesInOrder;
    var chosen, excess := PlanParts(desired, live, o, p);
    var pass := PlanDesired(desired, live, o).value.actions;
    InSorted(p.actions, pass + chosen, a);
    PassExists(desired, live, o, p);
    PassActions(desired, live, o);
    if a in chosen {
      ChosenAreActive(Active(Candidates(live.listing, desired, live, o), p.suppressed), o.budget, chosen, excess);
      CandidateSource(live.listing, desired, live, o, a);
      var e :| e in live.listing && Judge(e, desired, live, o) == Orphan && a == PruneOf(e, live);
      assert e in live.listing && Judge(e, desired, live, o) == Orphan && a == PruneOf(e, live) && a.kind !in p.suppressed;
    }
  }

  lemma PassExists(desired: seq<Resource>, live: LiveInventory, o: Options, p: Plan)
    requires hide *; IsPlan(desired, live, o, p)
    ensures PlanDesired(desired, live, o).Some?
    ensures p.suppressed == Suppressed(desired, Candidates(live.listing, desired, live, o), o.budget)
    ensures p.skipped == PlanDesired(desired, live, o).value.skipped + Unowned(live.listing, desired, live, o)
    ensures p.anomalies == PlanDesired(desired, live, o).value.anomalies
  {
    hide PlanDesired, Candidates, WithinBudget, IsSortOf, Suppressed, Active, Guarded, Unowned;
  }

  // ----- prune safety -----

  /** Every delete targets a listed object on an allowed node whose readable config carries the
      ownership tag and whose id no manifest of the same guest family claims, templates included. */
  lemma PruneSafety(desired: seq<Resource>, live: LiveInventory, o: Options, p: Plan, a: Action)
    requires hide *; IsPlan(desired, live, o, p) && a in p.actions && a.what == Delete
    ensures a.kind in {VM, LXC} && a.prune && a.tier == 9
    ensures exists e | e in live.listing :: e.node == a.node && e.vmid == a.id && NormalizeKind(e.typ) == a.kind
    ensures NodeAllowed(o.allow, a.node) && a.id > 0
    ensures var cfg := ConfigAt(live, ObjKey(a.node, a.kind, a.id));
            cfg.Some? && HasTag(Get(cfg.value, Tags), OWNERSHIP_TAG) && !NamedBy(desired, a.kind, Get(cfg.value, Name))
    ensures forall r | r in desired && !ArtifactKind(r.kind) && BaseKind(r.kind) == a.kind :: !(NodeOf(r) == a.node && IdOf(r) == a.id)
    ensures a.kind !in p.suppressed
  {
    hide IsPlan, PlannedFor, NormalizeKind, HasTag, NodeAllowed, NamedBy, IsTemplate, DesiredTemplate, ConfigAt;
    ActionSource(desired, live, o, p, a);
    if exists r | r in desired :: PlannedFor(a, r, o) {
      var r :| r in desired && PlannedFor(a, r, o);
      NeverDeletes(a, r, o);
      assert false;
    } else {
      var e :| e in live.listing && Judge(e, desired, live, o) == Orphan && a == PruneOf(e, live) && a.kind !in p.suppressed;
      assert a.kind == NormalizeKind(e.typ);
      assert !Claimed(desired, a.node, a.kind, a.id);
    }
  }

  lemma NeverDeletes(a: Action, r: Resource, o: Options)
    requires PlannedFor(a, r, o)
    ensures a.what != Delete
  {
  }

  /** The verdict without the two template tests. */
  function UntestedVerdict(e: Listed, desired: seq<Resource>, live: LiveInventory, o: Options): Verdict {
    var kind := NormalizeKind(e.typ);
    var cfg := ConfigAt(live, ObjKey(e.node, kind, e.vmid));
    if e.node == "" || e.vmid <= 0 || e.typ == "" || !NodeAllowed(o.allow, e.node) || (kind != VM && kind != LXC) || cfg.None? then Ignored
    else if Claimed(desired, e.node, kind, e.vmid) || NamedBy(desired, kind, Get(cfg.value, Name)) then Ignored
    else if !HasTag(Get(cfg.value, Tags), OWNERSHIP_TAG) then Untagged
    else Orphan
  }

  /** The template kind that lives in the other family's id space. */
  function OtherTemplate(k: Kind): Kind { if k == VM then TemplateCT else TemplateVM }

  /** The two template tests decide a verdict exactly for a PVE template that would be an orphan and
      whose id the other guest family's template manifest has: the manifest's own family is already
      settled by the membership test. */
  lemma TemplateChecksFire(e: Listed, desired: seq<Resource>, live: LiveInventory, o: Options)
    ensures Judge(e, desired, live, o) != UntestedVerdict(e, desired, live, o) <==>
            && UntestedVerdict(e, desired, live, o) == Orphan
            && IsTemplate(ConfigAt(live, ObjKey(e.node, NormalizeKind(e.typ), e.vmid)).value)
            && DesiredTemplate(desired, OtherTemplate(NormalizeKind(e.typ)), e.node, e.vmid)
    ensures Judge(e, desired, live, o) != UntestedVerdict(e, desired, live, o) ==> Judge(e, desired, live, o) == Ignored
  {
    hide NormalizeKind, HasTag, NodeAllowed, NamedBy, IsTemplate, ConfigAt, Claimed, DesiredTemplate;
    SameFamilyClaims(e, desired);
  }

  /** A template manifest claims its id in its own family. */
  lemma SameFamilyClaims(e: Listed, desired: seq<Resource>)
    ensures DesiredTemplate(desired, TemplateVM, e.node, e.vmid) ==> Claimed(desired, e.node, VM, e.vmid)
    ensures DesiredTemplate(desired, TemplateCT, e.node, e.vmid) ==> Claimed(desired, e.node, LXC, e.vmid)
  {
    if DesiredTemplate(desired, TemplateVM, e.node, e.vmid) {
      var r :| r in desired && r.kind == TemplateVM && NodeOf(r) == e.node && IdOf(r) == e.vmid;
      assert Claims(r, e.node, VM, e.vmid);
    }
    if DesiredTemplate(desired, TemplateCT, e.node, e.vmid) {
      var r :| r in desired && r.kind == TemplateCT && NodeOf(r) == e.node && IdOf(r) == e.vmid;
      assert Claims(r, e.node, LXC, e.vmid);
    }
  }

  // ----- the partition -----

  function Deletes(p: Plan): seq<Action> { Filter(p.actions, (a: Action) => a.what == Delete) }

  /** Orphans of the cycle are split between deletes and deferred ones, each once; a positive budget
      bounds the deletes; deletes come after everything else and are least by node and id among
      the unsuppressed. */
  lemma PrunePartition(desired: seq<Resource>, live: LiveInventory, o: Options, p: Plan)
    requires hide *; IsPlan(desired, live, o, p)
    ensures multiset(Deletes(p)) + multiset(p.deferred) == multiset(Candidates(live.listing, desired, live, o))
    ensures o.budget > 0 ==> |Deletes(p)| <= o.budget
    ensures o.budget <= 0 ==> multiset(p.deferred) == multiset(Guarded(Candidates(live.listing, desired, live, o), p.suppressed))
    ensures forall i, j | 0 <= i < |p.actions| && 0 <= j < |p.actions| && p.actions[i].tier == 0 && p.actions[j].what == Delete :: i < j
    ensures forall d, e | d in Deletes(p) && e in p.deferred && e.kind !in p.suppressed :: !Before(e, d)
  {
    hide IsPlan, PlanDesired, Candidates, Before, Suppressed, InOrder;
    var all := Candidates(live.listing, desired, live, o);
    var chosen, excess := PlanParts(desired, live, o, p);
    ChosenAreActive(Active(all, p.suppressed), o.budget, chosen, excess);
    DeletesAreChosen(desired, live, o, p, chosen, excess);
    FilterSplit(all, (a: Action) => a.kind in p.suppressed, (a: Action) => a.kind !in p.suppressed);
    assert multiset(p.deferred) == multiset(Guarded(all, p.suppressed)) + multiset(excess);
    SameSize(Deletes(p), chosen);
    forall i, j | 0 <= i < |p.actions| && 0 <= j < |p.actions| && p.actions[i].tier == 0 && p.actions[j].what == Delete ensures i < j {
      DeleteTier(desired, live, o, p, j);
      if j < i {
        OrderAt(p.actions, j, i);
      }
    }
    forall d, e | d in Deletes(p) && e in p.deferred && e.kind !in p.suppressed ensures !Before(e, d) {
      InSorted(Deletes(p), chosen, d);
      assert e in excess;
    }
  }

  lemma DeleteTier(desired: seq<Resource>, live: LiveInventory, o: Options, p: Plan, j: nat)
    requires hide *; IsPlan(desired, live, o, p) && j < |p.actions| && p.actions[j].what == Delete
    ensures p.actions[j].tier == 9
  {
    hide IsPlan, NodeAllowed, NormalizeKind, NamedBy, HasTag, ConfigAt, BaseKind, NodeOf, IdOf;
    PruneSafety(desired, live, o, p, p.actions[j]);
  }

  lemma DeletesAreChosen(desired: seq<Resource>, live: LiveInventory, o: Options, p: Plan, chosen: seq<Action>, excess: seq<Action>)
    requires hide PlanDesired, Candidates, WithinBudget, IsSortOf, Suppressed, Active, Guarded, Unowned; IsPlan(desired, live, o, p)
    requires WithinBudget(Active(Candidates(live.listing, desired, live, o), p.suppressed), o.budget, chosen, excess)
    requires IsSortOf(p.actions, PlanDesired(desired, live, o).value.actions + chosen)
    ensures multiset(Deletes(p)) == multiset(chosen)
  {
    hide IsPlan, PlanDesired, Candidates, WithinBudget, InOrder, Active;
    PassExists(desired, live, o, p);
    var pass, del := PlanDesired(desired, live, o).value.actions, (a: Action) => a.what == Delete;
    FilterPermutation(p.actions, pass + chosen, del);
    FilterConcat(pass, chosen, del);
    PassHasNoDeletes(desired, live, o);
    FilterNone(pass, del);
    ChosenAreActive(Active(Candidates(live.listing, desired, live, o), p.suppressed), o.budget, chosen, excess);
    CandidatesAreDeletes(desired, live, o);
    ActiveAreCandidates(Candidates(live.listing, desired, live, o), p.suppressed);
    FilterAll(chosen, del);
    assert Filter(pass + chosen, del) == chosen;
  }

  lemma PassHasNoDeletes(desired: seq<Resource>, live: LiveInventory, o: Options)
    requires hide *; PlanDesired(desired, live, o).Some?
    ensures forall a | a in PlanDesired(desired, live, o).value.actions :: a.what != Delete
  {
    hide *;
    PassActions(desired, live, o);
    forall a | a in PlanDesired(desired, live, o).value.actions ensures a.what != Delete {
      var r :| r in desired && PlannedFor(a, r, o);
      NeverDeletes(a, r, o);
    }
  }

  lemma CandidatesAreDeletes(desired: seq<Resource>, live: LiveInventory, o: Options)
    ensures forall a | a in Candidates(live.listing, desired, live, o) :: a.what == Delete
  {
    hide Judge, PruneOf, Candidates;
    forall a | a in Candidates(live.listing, desired, live, o) ensures a.what == Delete {
      CandidateSource(live.listing, desired, live, o, a);
      var e :| e in live.listing && Judge(e, desired, live, o) == Orphan && a == PruneOf(e, live);
      PruneShape(e, live);
    }
  }

  lemma ActiveAreCandidates(candidates: seq<Action>, suppressed: set<Kind>)
    ensures forall a | a in Active(candidates, suppressed) :: a in candidates && a.kind !in suppressed
  {
  }

  lemma OrderAt(actions: seq<Action>, i: nat, j: nat)
    requires InOrder(actions) && i < j < |actions|
    ensures NotAfter(actions[i], actions[j])
  {
  }

  /** The order actions run in: no action runs before one the comparison puts before it, unless their
      level mixes creates and mark-templates. Prunes hence run by node and id. */
  lemma RunOrder(desired: seq<Resource>, live: LiveInventory, o: Options, p: Plan, i: nat, j: nat)
    requires hide *; IsPlan(desired, live, o, p) && i < j < |p.actions|
    ensures Less(p.actions[j], p.actions[i]) ==>
              exists c, m | c in p.actions && m in p.actions ::
                c.what == Create && m.what == MarkTemplate && c.level == m.level == p.actions[i].level == p.actions[j].level
    ensures p.actions[i].what == Delete && p.actions[j].what == Delete ==> !Before(p.actions[j], p.actions[i])
  {
    hide IsPlan, PlanDesired, Candidates, WithinBudget, Active, Less, Before, Mixed, InOrder;
    var chosen, excess := PlanParts(desired, live, o, p);
    var a, b := p.actions[i], p.actions[j];
    OrderAt(p.actions, i, j);
    assert TiesInOrder(p.actions);
    if Less(b, a) {
      RanksTie(a, b);
      MixedLevels(desired, live, o, p, a, b);
    }
    if a.what == Delete && b.what == Delete && Before(b, a) {
      DeleteTier(desired, live, o, p, i);
      DeleteTier(desired, live, o, p, j);
      BeforeIsLess(b, a);
    }
  }

  lemma RanksTie(a: Action, b: Action)
    requires NotAfter(a, b) && Less(b, a)
    ensures a.tier == b.tier && SortLevel(a) == SortLevel(b) && Rank(a.what) == Rank(b.what)
  {
  }

  lemma BeforeIsLess(a: Action, b: Action)
    requires a.tier == b.tier == 9 && a.what == b.what && Before(a, b)
    ensures Less(a, b) && Rank(a.what) == Rank(b.what)
  {
  }

  lemma MixedLevels(desired: seq<Resource>, live: LiveInventory, o: Options, p: Plan, a: Action, b: Action)
    requires IsPlan(desired, live, o, p) && a in p.actions && b in p.actions
    requires Muddled(p.actions, a) && a.tier == b.tier && SortLevel(a) == SortLevel(b) && Rank(a.what) == Rank(b.what)
    ensures exists c, m | c in p.actions && m in p.actions ::
              c.what == Create && m.what == MarkTemplate && c.level == m.level == a.level == b.level
  {
    hide IsPlan;
    var c, m :| c in p.actions && m in p.actions && c.what == Create && m.what == MarkTemplate && c.tier == m.tier == a.tier
                && SortLevel(c) == SortLevel(m) == SortLevel(a);
    OnlyPrunesAreLate(desired, live, o, p, c);
  }

  lemma OnlyPrunesAreLate(desired: seq<Resource>, live: LiveInventory, o: Options, p: Plan, c: Action)
    requires IsPlan(desired, live, o, p) && c in p.actions && c.what != Delete
    ensures c.tier == 0
  {
    hide IsPlan, Judge, PruneOf;
    ActionSource(desired, live, o, p, c);
    forall e | e in live.listing && c == PruneOf(e, live) ensures false {
      PruneShape(e, live);
    }
  }

  /** In a mixed level the comparison is no order: here no neighbours are out of order, yet the third
      belongs before the first. */
  lemma MarkTiesHideOrder()
    ensures exists a: Action, m: Action, b: Action ::
              a.tier == m.tier == b.tier == 0 && a.level == m.level == b.level && a.what == b.what == Create && m.what == MarkTemplate
              && !Less(m, a) && !Less(b, m) && Less(b, a)
  {
    var a := Action(0, VM, "a", "n", 5, Create, map[], {}, false, false, "", "", 0, [], Ref(VM, "a"), 0);
    var m, b := a.(id := 4, what := MarkTemplate), a.(id := 3);
    assert !Less(m, a) && !Less(b, m) && Less(b, a);
  }

  // ----- independence of listing order -----

  predicate DistinctTargets(s: seq<Action>) {
    forall i, j | 0 <= i < j < |s| :: (s[i].node, s[i].id) != (s[j].node, s[j].id)
  }

  /** The same inventory listed in another order. */
  predicate Relisted(a: LiveInventory, b: LiveInventory) {
    a.configs == b.configs && a.present == b.present && a.power == b.power && multiset(a.listing) == multiset(b.listing)
  }

  lemma {:induction false} CandidateCount(listing: seq<Listed>, desired: seq<Resource>, live: LiveInventory, o: Options)
    ensures Candidates(listing, desired, live, o)
            == Map(Filter(listing, (e: Listed) => Judge(e, desired, live, o) == Orphan), (e: Listed) => PruneOf(e, live))
  {
    hide Judge, PruneOf;
    if listing != [] {
      var n := |listing| - 1;
      CandidateCount(listing[..n], desired, live, o);
      assert listing == listing[..n] + [listing[n]];
      FilterSnoc(listing[..n], listing[n], (e: Listed) => Judge(e, desired, live, o) == Orphan);
      MapSnoc(Filter(listing[..n], (e: Listed) => Judge(e, desired, live, o) == Orphan), listing[n], (e: Listed) => PruneOf(e, live));
    }
  }

  lemma JudgeIgnoresListing(e: Listed, desired: seq<Resource>, a: LiveInventory, b: LiveInventory, o: Options)
    requires Relisted(a, b)
    ensures Judge(e, desired, a, o) == Judge(e, desired, b, o) && PruneOf(e, a) == PruneOf(e, b)
  {
  }

  lemma SameCandidates(desired: seq<Resource>, a: LiveInventory, b: LiveInventory, o: Options)
    requires Relisted(a, b)
    ensures multiset(Candidates(a.listing, desired, a, o)) == multiset(Candidates(b.listing, desired, b, o))
  {
    hide Judge, PruneOf, Map;
    var p, q := (e: Listed) => Judge(e, desired, a, o) == Orphan, (e: Listed) => Judge(e, desired, b, o) == Orphan;
    var f, g := (e: Listed) => PruneOf(e, a), (e: Listed) => PruneOf(e, b);
    CandidateCount(a.listing, desired, a, o);
    CandidateCount(b.listing, desired, b, o);
    forall e: Listed ensures p(e) == q(e) && f(e) == g(e) {
      JudgeIgnoresListing(e, desired, a, b, o);
    }
    SameOn(b.listing, p, q);
    FilterPermutation(a.listing, b.listing, p);
    MapPermutes(Filter(a.listing, p), Filter(b.listing, p), f);
    assert Map(Filter(b.listing, p), f) == Map(Filter(b.listing, p), g);
  }

  lemma SameActive(c: seq<Action>, d: seq<Action>, desired: seq<Resource>, budget: int)
    requires multiset(c) == multiset(d)
    ensures Suppressed(desired, c, budget) == Suppressed(desired, d, budget)
    ensures multiset(Active(c, Suppressed(desired, c, budget))) == multiset(Active(d, Suppressed(desired, d, budget)))
  {
    hide AnyOfKind;
    forall k ensures Suppresses(desired, c, budget, k) == Suppresses(desired, d, budget, k) {
      var p := (a: Action) => a.kind == k;
      FilterPermutation(c, d, p);
      SameSize(Filter(c, p), Filter(d, p));
    }
    var s := Suppressed(desired, c, budget);
    assert s == Suppressed(desired, d, budget);
    FilterPermutation(c, d, (a: Action) => a.kind !in s);
  }

  /** Two budget cuts of the same distinct targets choose the same ones. */
  lemma SameCut(a: seq<Action>, b: seq<Action>, budget: int, c1: seq<Action>, e1: seq<Action>, c2: seq<Action>, e2: seq<Action>)
    requires multiset(a) == multiset(b) && DistinctTargets(a)
    requires WithinBudget(a, budget, c1, e1) && WithinBudget(b, budget, c2, e2)
    ensures multiset(c1) == multiset(c2)
  {
    SameSize(a, b);
    if budget > 0 && |a| > budget {
      CutBelow(a, c1, e1, c2, e2);
      CutBelow(a, c2, e2, c1, e1);
      var m1, m2 := multiset(c1), multiset(c2);
      assert m1 <= m2;
      assert |m2 - m1| == 0;
      assert m2 == m1 + (m2 - m1);
    }
  }

  lemma CutBelow(a: seq<Action>, c1: seq<Action>, e1: seq<Action>, c2: seq<Action>, e2: seq<Action>)
    requires DistinctTargets(a) && |c1| == |c2|
    requires multiset(c1) + multiset(e1) == multiset(a) && multiset(c2) + multiset(e2) == multiset(a)
    requires forall c, e | c in c1 && e in e1 :: !Before(e, c)
    requires forall c, e | c in c2 && e in e2 :: !Before(e, c)
    ensures multiset(c1) <= multiset(c2)
  {
    hide Before, DistinctTargets;
    var m1, m2 := multiset(c1), multiset(c2);
    forall x ensures m1[x] <= m2[x] {
      if m1[x] > m2[x] {
        var y := Replaced(m1, m2, x);
        OncePerTarget(a, x);
        OncePerTarget(a, y);
        assert multiset(a)[x] == m2[x] + multiset(e2)[x] && multiset(a)[y] == m1[y] + multiset(e1)[y];
        assert multiset(a)[x] == m1[x] + multiset(e1)[x] && multiset(a)[y] == m2[y] + multiset(e2)[y];
        assert x in multiset(c1) && x in multiset(e2) && y in multiset(c2) && y in multiset(e1);
        assert x in multiset(a) && y in multiset(a);
        Unordered(x, y);
        SameTargetSame(a, x, y);
      }
    }
  }

  /** Where one of two equally large multisets has more of something, the other has more of
      something else. */
  lemma Replaced<T>(m1: multiset<T>, m2: multiset<T>, x: T) returns (y: T)
    requires |m1| == |m2| && m1[x] > m2[x]
    ensures m2[y] > m1[y]
  {
    if m2 <= m1 {
      SameSizeSame(m2, m1);
    }
    y :| m2[y] > m1[y];
  }

  lemma SameSizeSame<T>(m: multiset<T>, n: multiset<T>)
    requires m <= n && |m| == |n|
    ensures m == n
  {
    assert n == m + (n - m);
    assert |n| == |m| + |n - m|;
  }

  lemma Unordered(x: Action, y: Action)
    requires !Before(x, y) && !Before(y, x)
    ensures x.node == y.node && x.id == y.id
  {
    StrLessTotal(x.node, y.node);
  }

  lemma SameTargetSame(a: seq<Action>, x: Action, y: Action)
    requires DistinctTargets(a) && x in a && y in a && x.node == y.node && x.id == y.id
    ensures x == y
  {
    var i :| 0 <= i < |a| && a[i] == x;
    var j :| 0 <= j < |a| && a[j] == y;
    assert i == j;
  }

  lemma {:induction false} OncePerTarget(a: seq<Action>, x: Action)
    requires DistinctTargets(a)
    ensures multiset(a)[x] <= 1
  {
    if a != [] {
      var rest := a[1..];
      assert a == [a[0]] + rest;
      OncePerTarget(rest, x);
      forall j | 0 <= j < |rest| ensures rest[j] != a[0] {
        assert rest[j] == a[j + 1];
      }
      assert a[0] !in rest;
      assert multiset(a) == multiset{a[0]} + multiset(rest);
    }
  }

  /** Which objects are deleted does not depend on the order PVE lists them in. */
  lemma PruneOrderIndependent(desired: seq<Resource>, a: LiveInventory, b: LiveInventory, o: Options, p: Plan, q: Plan)
    requires Relisted(a, b) && IsPlan(desired, a, o, p) && IsPlan(desired, b, o, q)
    requires DistinctTargets(Active(Candidates(a.listing, desired, a, o), p.suppressed))
    ensures multiset(Deletes(p)) == multiset(Deletes(q))
  {
    hide IsPlan, Candidates, WithinBudget, Active, Suppressed, DistinctTargets, Relisted, PlanDesired, InOrder;
    SameCandidates(desired, a, b, o);
    PassExists(desired, a, o, p);
    PassExists(desired, b, o, q);
    SameActive(Candidates(a.listing, desired, a, o), Candidates(b.listing, desired, b, o), desired, o.budget);
    var c1, e1 := PlanParts(desired, a, o, p);
    var c2, e2 := PlanParts(desired, b, o, q);
    DeletesAreChosen(desired, a, o, p, c1, e1);
    DeletesAreChosen(desired, b, o, q, c2, e2);
    SameCut(Active(Candidates(a.listing, desired, a, o), p.suppressed), Active(Candidates(b.listing, desired, b, o), q.suppressed),
            o.budget, c1, e1, c2, e2);
  }

  // ----- dependency order -----

  /** Levels and edges as an accepted index computes them. */
  ghost predicate FromIndex(o: Options, g: Graph<Ref>) {
    Closed(g) && Acyclic(g) && o.edges == g && o.levels.Keys == g.Keys && forall n | n in g :: IsLevel(g, n, o.levels[n])
  }

  lemma LevelDrops(o: Options, g: Graph<Ref>, ref: Ref, dep: Ref)
    requires FromIndex(o, g) && ref in g && dep in g[ref]
    ensures LevelIn(o, dep) < LevelIn(o, ref)
  {
    hide IsLevel, Acyclic;
    assert dep in g;
    LevelDescends(g, ref, o.levels[ref]);
  }

  /** Every tier-0 action comes after all tier-0 actions of its direct prerequisites. */
  lemma DependencyOrder(desired: seq<Resource>, live: LiveInventory, o: Options, p: Plan, g: Graph<Ref>, i: nat, j: nat)
    requires hide *; IsPlan(desired, live, o, p) && FromIndex(o, g)
    requires i < |p.actions| && j < |p.actions| && p.actions[i].tier == 0 && p.actions[j].tier == 0
    requires p.actions[j].ref in g && p.actions[i].ref in g[p.actions[j].ref]
    ensures i < j
  {
    hide FromIndex, PlanDesired, Candidates, WithinBudget, Judge, PruneOf, IsPlan, InOrder;
    LevelDrops(o, g, p.actions[j].ref, p.actions[i].ref);
    TierZeroLevel(desired, live, o, p, p.actions[i]);
    TierZeroLevel(desired, live, o, p, p.actions[j]);
    var chosen, excess := PlanParts(desired, live, o, p);
    if j < i {
      OrderAt(p.actions, j, i);
    }
  }

  lemma TierZeroLevel(desired: seq<Resource>, live: LiveInventory, o: Options, p: Plan, a: Action)
    requires IsPlan(desired, live, o, p) && a in p.actions && a.tier == 0
    ensures a.level == LevelIn(o, a.ref) && exists r | r in desired :: PlannedFor(a, r, o)
  {
    hide IsPlan, Judge, LevelIn, NodeOf, IdOf, EdgesIn, PruneOf;
    ActionSource(desired, live, o, p, a);
    if exists e | e in live.listing :: Judge(e, desired, live, o) == Orphan && a == PruneOf(e, live) && a.kind !in p.suppressed {
      var e :| e in live.listing && Judge(e, desired, live, o) == Orphan && a == PruneOf(e, live) && a.kind !in p.suppressed;
      PruneShape(e, live);
    }
  }
}
