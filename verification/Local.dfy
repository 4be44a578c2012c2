/** The part of a plan that concerns one guest: its own manifest's actions, in order. */
module Local {
  import opened Desired
  import opened Seqs
  import opened Plan
  import opened PlanSafety
  import opened World
  import opened Exec

  function HomeOf(r: Resource): Loc { Loc(NodeOf(r), IdOf(r)) }

  predicate IsGuest(r: Resource) { !r.body.File? }

  /** Guests have pairwise distinct homes with positive ids. */
  predicate OwnHomes(desired: seq<Resource>) {
    && (forall r | r in desired && IsGuest(r) :: IdOf(r) > 0)
    && (forall i, j | 0 <= i < j < |desired| && IsGuest(desired[i]) && IsGuest(desired[j]) :: HomeOf(desired[i]) != HomeOf(desired[j]))
  }

  /** What acceptance of an index says about homes. */
  lemma AcceptedHomes(docs: seq<Resource>)
    requires (forall d | d in docs :: Valid(d)) && DistinctIds(docs)
    ensures OwnHomes(docs)
  {
    hide Vm.IsCloneBacked;
    forall r | r in docs && IsGuest(r) ensures IdOf(r) > 0 {
      assert Valid(r);
    }
    forall i, j | 0 <= i < j < |docs| && IsGuest(docs[i]) && IsGuest(docs[j]) ensures HomeOf(docs[i]) != HomeOf(docs[j]) {
      assert docs[i] in docs && docs[j] in docs;
    }
  }

  function AtHome(actions: seq<Action>, loc: Loc): seq<Action> { Filter(actions, (a: Action) => a.tier == 0 && LocOf(a) == loc) }

  lemma {:induction false} PassElsewhere(desired: seq<Resource>, live: LiveInventory, o: Options, loc: Loc)
    requires hide *; PlanDesired(desired, live, o).Some? && loc.id > 0
    requires forall r | r in desired && IsGuest(r) :: HomeOf(r) != loc
    ensures AtHome(PlanDesired(desired, live, o).value.actions, loc) == []
  {
    hide PlanDesired, PlannedFor;
    PassActions(desired, live, o);
    var p := (a: Action) => a.tier == 0 && LocOf(a) == loc;
    forall a | a in PlanDesired(desired, live, o).value.actions ensures !p(a) {
      var r :| r in desired && PlannedFor(a, r, o);
      HomeOfAction(a, r, o);
    }
    FilterNone(PlanDesired(desired, live, o).value.actions, p);
  }

  lemma HomeOfAction(a: Action, r: Resource, o: Options)
    requires PlannedFor(a, r, o)
    ensures a.tier == 0 && (if IsGuest(r) then LocOf(a) == HomeOf(r) else a.id == 0)
  {
  }

  lemma {:induction false} PassAtHome(desired: seq<Resource>, live: LiveInventory, o: Options, r: Resource)
    requires hide *; PlanDesired(desired, live, o).Some? && OwnHomes(desired) && r in desired && IsGuest(r)
    ensures PlanOne(r, live, o).Some?
    ensures AtHome(PlanDesired(desired, live, o).value.actions, HomeOf(r)) == PlanOne(r, live, o).value.actions
  {
    hide PlanOne, PlannedFor, OwnHomes;
    var n := |desired| - 1;
    var front, last := desired[..n], desired[n];
    assert desired == front + [last];
    FrontHomes(desired);
    var p := (a: Action) => a.tier == 0 && LocOf(a) == HomeOf(r);
    FilterConcat(PlanDesired(front, live, o).value.actions, PlanOne(last, live, o).value.actions, p);
    OneActions(last, live, o);
    if last == r {
      LastIsFresh(desired);
      PassElsewhere(front, live, o, HomeOf(r));
      forall a | a in PlanOne(r, live, o).value.actions ensures p(a) {
        HomeOfAction(a, r, o);
      }
      FilterAll(PlanOne(r, live, o).value.actions, p);
    } else {
      PassAtHome(front, live, o, r);
      HomesDiffer(desired, r, last);
      forall a | a in PlanOne(last, live, o).value.actions ensures !p(a) {
        HomeOfAction(a, last, o);
      }
      FilterNone(PlanOne(last, live, o).value.actions, p);
    }
  }

  lemma FrontHomes(desired: seq<Resource>)
    requires OwnHomes(desired) && desired != []
    ensures OwnHomes(desired[..|desired| - 1])
  {
  }

  lemma LastIsFresh(desired: seq<Resource>)
    requires OwnHomes(desired) && desired != [] && IsGuest(desired[|desired| - 1])
    ensures HomeOf(desired[|desired| - 1]).id > 0
    ensures forall r | r in desired[..|desired| - 1] && IsGuest(r) :: HomeOf(r) != HomeOf(desired[|desired| - 1])
  {
  }

  lemma HomesDiffer(desired: seq<Resource>, a: Resource, b: Resource)
    requires OwnHomes(desired) && a in desired && b in desired && a != b && IsGuest(a)
    ensures IsGuest(b) ==> HomeOf(a) != HomeOf(b)
    ensures HomeOf(a).id > 0
  {
    var i :| 0 <= i < |desired| && desired[i] == a;
    var j :| 0 <= j < |desired| && desired[j] == b;
    assert i != j;
    if IsGuest(b) {
      if i < j {
        HomeAt(desired, i, j);
      } else {
        HomeAt(desired, j, i);
      }
    }
  }

  lemma HomeAt(desired: seq<Resource>, i: nat, j: nat)
    requires OwnHomes(desired) && i < j < |desired| && IsGuest(desired[i]) && IsGuest(desired[j])
    ensures HomeOf(desired[i]) != HomeOf(desired[j])
  {
  }

  // ----- order at home -----

  /** One guest's own actions: nothing, one action, or an update followed by a power change. */
  lemma HomeShape(r: Resource, live: LiveInventory, o: Options)
    requires hide *; IsGuest(r) && PlanOne(r, live, o).Some?
    ensures var s := PlanOne(r, live, o).value.actions;
            |s| <= 1 || (|s| == 2 && s[0].what == Update && s[1].what in {Start, Stop})
  {
    hide DriftOf, CreateStep, IsTemplate, AnomaliesOf, ConfigAt, Power;
  }

  lemma TwoInOrder(s: seq<Action>, t: seq<Action>)
    requires multiset(s) == multiset(t) && |t| <= 2 && InOrder(s)
    requires forall a | a in t :: a.tier == 0 && a.level == t[0].level
    requires |t| == 2 ==> Rank(t[0].what) < Rank(t[1].what)
    ensures s == t
  {
    SameSize(s, t);
    forall a: Action ensures a in s <==> a in t {
      InSorted(s, t, a);
    }
    if |t| == 1 {
      assert s[0] in t;
    }
    if |t| == 2 {
      assert s == [s[0], s[1]] && t == [t[0], t[1]];
      assert multiset(s) == multiset{s[0], s[1]} && multiset(t) == multiset{t[0], t[1]};
      assert s[0] in t && t[0] in s && t[1] in s;
      assert NotAfter(s[0], s[1]);
    }
  }

  lemma {:induction false} FilterInOrder(s: seq<Action>, p: Action -> bool)
    requires InOrder(s)
    ensures InOrder(Filter(s, p))
  {
    if s != [] {
      FilterInOrder(s[1..], p);
      var rest := Filter(s[1..], p);
      forall a | a in rest ensures NotAfter(s[0], a) {
        var i :| 0 <= i < |s[1..]| && s[1..][i] == a;
        assert s[i + 1] == a;
      }
    }
  }

  lemma HomePermutes(desired: seq<Resource>, live: LiveInventory, o: Options, p: Plan, loc: Loc)
    requires hide *; IsPlan(desired, live, o, p)
    ensures PlanDesired(desired, live, o).Some?
    ensures multiset(AtHome(p.actions, loc)) == multiset(AtHome(PlanDesired(desired, live, o).value.actions, loc))
    ensures InOrder(AtHome(p.actions, loc))
  {
    hide IsPlan, PlanDesired, Candidates, WithinBudget, InOrder, Active;
    var chosen, excess := PlanParts(desired, live, o, p);
    var pass := PlanDesired(desired, live, o).value.actions;
    var at := (a: Action) => a.tier == 0 && LocOf(a) == loc;
    FilterPermutation(p.actions, pass + chosen, at);
    FilterConcat(pass, chosen, at);
    ChosenAreTierNine(desired, live, o, p, chosen, excess);
    FilterNone(chosen, at);
    assert Filter(pass + chosen, at) == AtHome(pass, loc);
    FilterInOrder(p.actions, at);
  }

  /** The plan holds exactly the manifest's own tier-0 actions for its home, update first. */
  lemma PlanAtHome(desired: seq<Resource>, live: LiveInventory, o: Options, p: Plan, r: Resource)
    requires hide *; IsPlan(desired, live, o, p) && OwnHomes(desired) && r in desired && IsGuest(r)
    ensures PlanOne(r, live, o).Some?
    ensures AtHome(p.actions, HomeOf(r)) == PlanOne(r, live, o).value.actions
  {
    hide IsPlan, PlanDesired, PlanOne, InOrder, OwnHomes, PlannedFor, AtHome;
    HomePermutes(desired, live, o, p, HomeOf(r));
    PassAtHome(desired, live, o, r);
    HomeShape(r, live, o);
    OneActions(r, live, o);
    var own := PlanOne(r, live, o).value.actions;
    forall a | a in own ensures a.tier == 0 && a.level == own[0].level {
      assert own[0] in own;
      LevelOfAction(a, r, o);
      LevelOfAction(own[0], r, o);
    }
    TwoInOrder(AtHome(p.actions, HomeOf(r)), own);
  }

  lemma LevelOfAction(a: Action, r: Resource, o: Options)
    requires PlannedFor(a, r, o)
    ensures a.tier == 0 && a.level == LevelIn(o, RefOf(r)) && a.ref == RefOf(r)
  {
  }

  lemma ChosenAreTierNine(desired: seq<Resource>, live: LiveInventory, o: Options, p: Plan, chosen: seq<Action>, excess: seq<Action>)
    requires WithinBudget(Active(Candidates(live.listing, desired, live, o), p.suppressed), o.budget, chosen, excess)
    ensures forall a | a in chosen :: a.tier == 9 && a.what == Delete
  {
    hide WithinBudget, Candidates, Active, Judge, PruneOf;
    var all := Candidates(live.listing, desired, live, o);
    ChosenAreActive(Active(all, p.suppressed), o.budget, chosen, excess);
    ActiveAreCandidates(all, p.suppressed);
    forall a | a in chosen ensures a.tier == 9 && a.what == Delete {
      CandidateSource(live.listing, desired, live, o, a);
      var e :| e in live.listing && Judge(e, desired, live, o) == Orphan && a == PruneOf(e, live);
      PruneShape(e, live);
    }
  }
}
