/** A small accepted index whose dependencies form a chain: an ISO, a VM template that boots from it and
    a clone of the template, which also waits for a VM that is to be kept stopped; all on one node.
    Against an empty cluster its plan shows that deferral is one hop. */
module Chain {
  import opened Text
  import opened Graph
  import opened Owned
  import opened Desired
  import opened P = Plan
  import opened PlanSafety
  import opened World
  import opened Exec
  import opened Witness
  import Vm

  const DISC := Artifact("i", ["n"], "s", "f", "u")
  const DISC_REF := Ref(ISO, "i")
  const BASE_REF := Ref(TemplateVM, "t")
  const COPY_REF := Ref(VM, "c")
  const IDLE_REF := Ref(VM, "a")

  function BaseVm(volid: string): Vm.VmSpec {
    SmallVm().(name := "t", hw := HW.(cdromIso := "i"), cdromVolid := volid)
  }

  function CopyVm(source: int): Vm.VmSpec {
    SmallVm().(name := "c", vmid := 101, clone := "t", cloneSource := source)
  }

  function IdleVm(): Vm.VmSpec { SmallVm().(vmid := 102, state := STOPPED) }

  const ISO_DOC := Resource(ISO, DependsOn([]), File(DISC))

  function BaseDoc(volid: string): Resource { Resource(TemplateVM, DependsOn([]), Body.Machine(BaseVm(volid))) }

  function IdleDoc(): Resource { Resource(VM, DependsOn([]), Body.Machine(IdleVm())) }

  function CopyDoc(source: int): Resource { Resource(VM, DependsOn([IDLE_REF]), Body.Machine(CopyVm(source))) }

  const DOCS := [ISO_DOC, IdleDoc(), BaseDoc(""), CopyDoc(0)]

  const RESOLVED := [ISO_DOC, IdleDoc(), BaseDoc("s:iso/f"), CopyDoc(100)]

  const GRAPH: Graph<Ref> := map[DISC_REF := [], IDLE_REF := [], BASE_REF := [DISC_REF], COPY_REF := [BASE_REF, IDLE_REF]]

  lemma Names()
    ensures TrimSpace("i") == "i" && TrimSpace("t") == "t" && TrimSpace("") == ""
    ensures "i" != "t" && "t" != "c" && "i" != "c" && "i" != Vm.CDROM_NONE && "a" != "c"
  {
    assert "a"[0] != "c"[0] && "i"[0] != "t"[0] && "t"[0] != "c"[0] && "i"[0] != "c"[0] && |"i"| != |Vm.CDROM_NONE|;
  }

  lemma AreUnique()
    ensures Unique(DOCS) && Annotations(DOCS)
  {
    hide OneMiB, Valid, RefOf, IdOf, NodeOf, BaseDoc, CopyDoc, IdleDoc;
    Names();
    AreValid();
    RefsAre("", 0);
    IdsAre();
  }

  lemma IdsAre()
    ensures IdOf(ISO_DOC) == 0 && IdOf(IdleDoc()) == 102 && IdOf(BaseDoc("")) == 100 && IdOf(CopyDoc(0)) == 101
    ensures !IdleDoc().dependsOn.Malformed? && !BaseDoc("").dependsOn.Malformed? && !CopyDoc(0).dependsOn.Malformed?
  {
    hide OneMiB;
  }

  lemma AreValid()
    ensures forall d | d in DOCS :: Valid(d)
  {
    hide OneMiB, TrimSpace;
    Names();
  }

  lemma OneEdge(x: Ref)
    ensures Merge([], [x]) == [x]
  {
    assert [x][1..] == [] && [] + [x] == [x];
    MergeNone([x]);
  }

  lemma TwoEdges(x: Ref, y: Ref)
    requires x != y
    ensures Merge([], [x, y]) == [x, y]
  {
    hide Merge;
    var all := [x, y];
    MergeStep([], all, 0);
    MergeStep([x], all, 1);
    MergeNone(all);
    assert all[0..] == all;
    assert all[1 + 1..] == [];
    assert [] + [x] == [x];
    assert [x] + [y] == all;
  }

  lemma EdgesAre()
    ensures Edges(ISO_DOC) == [] && Edges(IdleDoc()) == []
    ensures Edges(BaseDoc("s:iso/f")) == [DISC_REF] && Edges(CopyDoc(100)) == [BASE_REF, IDLE_REF]
  {
    hide Merge, Deps, Annotated;
    TargetsAre();
    OneEdge(DISC_REF);
    TwoEdges(BASE_REF, IDLE_REF);
    MergeNone([]);
  }

  lemma TargetsAre()
    ensures Deps(ISO_DOC) + Annotated(ISO_DOC) == [] && Deps(IdleDoc()) + Annotated(IdleDoc()) == []
    ensures Deps(BaseDoc("s:iso/f")) + Annotated(BaseDoc("s:iso/f")) == [DISC_REF]
    ensures Deps(CopyDoc(100)) + Annotated(CopyDoc(100)) == [BASE_REF, IDLE_REF]
  {
    hide OneMiB;
    Names();
  }

  lemma DocsAre()
    ensures Docs(DOCS) == map[DISC_REF := ISO_DOC, IDLE_REF := IdleDoc(), BASE_REF := BaseDoc(""), COPY_REF := CopyDoc(0)]
  {
    hide Refs;
    Names();
    DocsExtend(DOCS, 0);
    DocsExtend(DOCS, 1);
    DocsExtend(DOCS, 2);
    DocsExtend(DOCS, 3);
    assert DOCS[..0] == [] && DOCS[..4] == DOCS;
  }

  lemma ResolvesTo()
    ensures Resolve(ISO_DOC, Docs(DOCS)) == Some(ISO_DOC)
    ensures Resolve(IdleDoc(), Docs(DOCS)) == Some(IdleDoc())
    ensures Resolve(BaseDoc(""), Docs(DOCS)) == Some(BaseDoc("s:iso/f"))
    ensures Resolve(CopyDoc(0), Docs(DOCS)) == Some(CopyDoc(100))
  {
    hide Resolve, Docs, BaseDoc, CopyDoc, IdleDoc;
    DocsAre();
    IdleResolves(Docs(DOCS));
    BaseResolves(Docs(DOCS));
    CopyResolves(Docs(DOCS));
    assert Resolve(ISO_DOC, Docs(DOCS)) == Some(ISO_DOC) by { DiscResolves(Docs(DOCS)); }
  }

  lemma DiscResolves(byRef: ByRef)
    ensures Resolve(ISO_DOC, byRef) == Some(ISO_DOC)
  {
  }

  lemma IdleResolves(byRef: ByRef)
    ensures Resolve(IdleDoc(), byRef) == Some(IdleDoc())
  {
    hide OneMiB;
    Names();
  }

  lemma BaseResolves(byRef: ByRef)
    requires DISC_REF in byRef && byRef[DISC_REF] == ISO_DOC
    ensures Resolve(BaseDoc(""), byRef) == Some(BaseDoc("s:iso/f"))
  {
    hide OneMiB;
    Names();
    assert "s" + ":iso/" + "f" == "s:iso/f";
  }

  lemma CopyResolves(byRef: ByRef)
    requires BASE_REF in byRef && byRef[BASE_REF] == BaseDoc("")
    ensures Resolve(CopyDoc(0), byRef) == Some(CopyDoc(100))
  {
    hide OneMiB;
    Names();
  }

  lemma RefsAre(volid: string, source: int)
    ensures RefOf(ISO_DOC) == DISC_REF && RefOf(IdleDoc()) == IDLE_REF && RefOf(BaseDoc(volid)) == BASE_REF && RefOf(CopyDoc(source)) == COPY_REF
  {
    hide OneMiB;
  }

  lemma ResolvedIs()
    ensures ResolvedDocs(DOCS) == map[DISC_REF := ISO_DOC, IDLE_REF := IdleDoc(), BASE_REF := BaseDoc("s:iso/f"), COPY_REF := CopyDoc(100)]
  {
    hide Resolve, Docs, BaseDoc, CopyDoc, IdleDoc;
    Names();
    DocsAre();
    ResolvesTo();
  }

  lemma ResolvedAre()
    ensures ResolvedDocs(DOCS) == map[DISC_REF := ISO_DOC, IDLE_REF := IdleDoc(), BASE_REF := BaseDoc("s:iso/f"), COPY_REF := CopyDoc(100)]
    ensures Resolvable(DOCS) && GraphOf(ResolvedDocs(DOCS)) == GRAPH && Refs(DOCS) == [DISC_REF, IDLE_REF, BASE_REF, COPY_REF]
  {
    hide Resolve, Docs, Edges, BaseDoc, CopyDoc, IdleDoc, RefOf, ResolvedDocs;
    Names();
    ResolvesTo();
    ResolvedIs();
    EdgesAre();
    RefsAre("", 0);
    RefsAre("s:iso/f", 100);
  }

  lemma IsOrdered()
    ensures Closed(GRAPH) && Acyclic(GRAPH)
  {
    hide Acyclic;
    Names();
    var order := [DISC_REF, IDLE_REF, BASE_REF, COPY_REF];
    assert order[..2] == [DISC_REF, IDLE_REF];
    assert order[..3] == [DISC_REF, IDLE_REF, BASE_REF];
    OrderedIsAcyclic(GRAPH, order);
  }

  lemma Levels()
    ensures IsLevel(GRAPH, DISC_REF, 0) && IsLevel(GRAPH, IDLE_REF, 0) && IsLevel(GRAPH, BASE_REF, 1) && IsLevel(GRAPH, COPY_REF, 2)
  {
    hide IsLevel, Acyclic;
    Names();
    IsOrdered();
    LevelStep(GRAPH, DISC_REF, map[], 0);
    LevelStep(GRAPH, IDLE_REF, map[], 0);
    var roots, below := map[DISC_REF := 0], map[BASE_REF := 1, IDLE_REF := 0];
    assert DISC_REF in GRAPH[BASE_REF] && roots[DISC_REF] + 1 == 1;
    LevelStep(GRAPH, BASE_REF, roots, 1);
    assert BASE_REF in GRAPH[COPY_REF] && below[BASE_REF] + 1 == 2;
    LevelStep(GRAPH, COPY_REF, below, 2);
  }

  const PLANNING := Options(3, map[DISC_REF := 0, IDLE_REF := 0, BASE_REF := 1, COPY_REF := 2], GRAPH, [])

  /** The manifests are accepted, and resolve to these. */
  lemma IsAccepted()
    ensures Acceptable(DOCS) && Consistent(IndexOfDocs(DOCS)) && List(IndexOfDocs(DOCS)) == RESOLVED
    ensures FromIndex(PLANNING, GraphOf(ResolvedDocs(DOCS)))
  {
    hide Resolve, Docs, Edges, IsLevel, Acyclic, Closed, Unique, Resolvable, Annotations, ResolvedDocs, GraphOf, Refs, Consistent;
    AreUnique();
    ResolvedAre();
    IsOrdered();
    Levels();
    AcceptedConsistent(DOCS);
    ListIs();
    Planned();
  }

  lemma Planned()
    requires Closed(GRAPH) && Acyclic(GRAPH) && IsLevel(GRAPH, DISC_REF, 0) && IsLevel(GRAPH, IDLE_REF, 0)
           && IsLevel(GRAPH, BASE_REF, 1) && IsLevel(GRAPH, COPY_REF, 2)
    ensures FromIndex(PLANNING, GRAPH)
  {
    hide IsLevel, Acyclic, Closed;
    Names();
    assert PLANNING.levels.Keys == GRAPH.Keys;
  }

  lemma ListIs()
    requires Consistent(IndexOfDocs(DOCS))
    ensures List(IndexOfDocs(DOCS)) == RESOLVED
  {
    hide Resolve, Docs, ResolvedDocs, Refs, Consistent, BaseDoc, CopyDoc, IdleDoc, GraphOf, Resolvable, List;
    Names();
    ResolvedAre();
    ListBy(IndexOfDocs(DOCS));
  }

  lemma ListBy(idx: Index)
    requires Consistent(idx) && idx.order == [DISC_REF, IDLE_REF, BASE_REF, COPY_REF]
    requires idx.byRef[DISC_REF] == ISO_DOC && idx.byRef[IDLE_REF] == IdleDoc()
    requires idx.byRef[BASE_REF] == BaseDoc("s:iso/f") && idx.byRef[COPY_REF] == CopyDoc(100)
    ensures List(idx) == RESOLVED
  {
    hide BaseDoc, CopyDoc, IdleDoc;
  }

  // ----- the plan against an empty cluster -----

  /** Nothing is listed; the storage was read and lacks the ISO. */
  const EMPTY_CLUSTER := LiveInventory(map[], map[FileKey("n", ISO, "s", "f") := false], map[], [])

  function FetchIso(): Action { CreateFile(ISO_DOC, PLANNING, "n") }

  function MakeBase(): Action {
    ActionFor(BaseDoc("s:iso/f"), PLANNING, Create).(deps := [DISC_REF], params := Vm.CreateParams(BaseVm("s:iso/f")))
  }

  function MakeIdle(): Action { ActionFor(IdleDoc(), PLANNING, Create).(params := Vm.CreateParams(IdleVm())) }

  function MakeCopy(): Action {
    ActionFor(CopyDoc(100), PLANNING, Create).(
      deps := [BASE_REF, IDLE_REF], params := Vm.CreateParams(CopyVm(100)), cloneSource := 100, deletes := Vm.CloneDeleteKeys(CopyVm(100)))
  }

  function PlanOfChain(): P.Plan { P.Plan.Plan([FetchIso(), MakeIdle(), MakeBase(), MakeCopy()], [], [], {}, {}) }

  lemma FileStep()
    ensures PlanFile(ISO_DOC, ["n"], EMPTY_CLUSTER, PLANNING) == NOTHING.(actions := [FetchIso()])
  {
    hide FileParams;
    assert ["n"][1..] == [];
    assert PlanFile(ISO_DOC, [], EMPTY_CLUSTER, PLANNING) == NOTHING;
    assert FileKey("n", ISO, "s", "f") in EMPTY_CLUSTER.present;
    assert [FetchIso()] + [] == [FetchIso()];
  }

  lemma StepsAre()
    ensures PlanOne(ISO_DOC, EMPTY_CLUSTER, PLANNING) == Some(NOTHING.(actions := [FetchIso()]))
    ensures PlanOne(IdleDoc(), EMPTY_CLUSTER, PLANNING) == Some(NOTHING.(actions := [MakeIdle()]))
    ensures PlanOne(BaseDoc("s:iso/f"), EMPTY_CLUSTER, PLANNING) == Some(NOTHING.(actions := [MakeBase()]))
    ensures PlanOne(CopyDoc(100), EMPTY_CLUSTER, PLANNING) == Some(NOTHING.(actions := [MakeCopy()]))
  {
    hide PlanOne, BaseDoc, CopyDoc, IdleDoc, FetchIso, MakeIdle, MakeBase, MakeCopy;
    IsoStep();
    IdleStep();
    BaseStep();
    CopyStep();
  }

  lemma IsoStep()
    ensures PlanOne(ISO_DOC, EMPTY_CLUSTER, PLANNING) == Some(NOTHING.(actions := [FetchIso()]))
  {
    hide PlanFile, FetchIso, PlanGuest;
    FileStep();
  }

  lemma IdleStep()
    ensures PlanOne(IdleDoc(), EMPTY_CLUSTER, PLANNING) == Some(NOTHING.(actions := [MakeIdle()]))
  {
    hide Vm.CreateParams, Vm.CloneDeleteKeys, OneMiB, PlanFile, UpdateSteps, PowerSteps, AnomaliesOf, MarkStep, IsTemplate, Power, Vm.WellFormed;
    Names();
  }

  lemma BaseStep()
    ensures PlanOne(BaseDoc("s:iso/f"), EMPTY_CLUSTER, PLANNING) == Some(NOTHING.(actions := [MakeBase()]))
  {
    hide Vm.CreateParams, Vm.CloneDeleteKeys, OneMiB, PlanFile, UpdateSteps, PowerSteps, AnomaliesOf, MarkStep, IsTemplate, Power, Vm.WellFormed;
    Names();
  }

  lemma CopyStep()
    ensures PlanOne(CopyDoc(100), EMPTY_CLUSTER, PLANNING) == Some(NOTHING.(actions := [MakeCopy()]))
  {
    hide Vm.CreateParams, Vm.CloneDeleteKeys, OneMiB, PlanFile, UpdateSteps, PowerSteps, AnomaliesOf, MarkStep, IsTemplate, Power, Vm.WellFormed;
    Names();
  }

  lemma PassSnoc(desired: seq<Resource>, r: Resource, actions: seq<Action>, a: Action)
    requires PlanDesired(desired, EMPTY_CLUSTER, PLANNING) == Some(PassA(actions, [], {}))
    requires PlanOne(r, EMPTY_CLUSTER, PLANNING) == Some(NOTHING.(actions := [a]))
    ensures PlanDesired(desired + [r], EMPTY_CLUSTER, PLANNING) == Some(PassA(actions + [a], [], {}))
  {
    hide PlanOne;
    var all := desired + [r];
    assert all[..|all| - 1] == desired && all[|all| - 1] == r;
    var pass := PlanDesired(all, EMPTY_CLUSTER, PLANNING);
    assert pass.Some? && pass.value.actions == actions + [a] && pass.value.skipped == [];
    assert pass.value.anomalies == {};
  }

  lemma FrontPass()
    ensures PlanDesired([ISO_DOC, IdleDoc()], EMPTY_CLUSTER, PLANNING) == Some(PassA([FetchIso(), MakeIdle()], [], {}))
  {
    hide *;
    StepsAre();
    NothingDesired();
    PassSnoc([], ISO_DOC, [], FetchIso());
    assert [] + [ISO_DOC] == [ISO_DOC] && [] + [FetchIso()] == [FetchIso()];
    PassSnoc([ISO_DOC], IdleDoc(), [FetchIso()], MakeIdle());
    assert [ISO_DOC] + [IdleDoc()] == [ISO_DOC, IdleDoc()] && [FetchIso()] + [MakeIdle()] == [FetchIso(), MakeIdle()];
  }

  lemma PassIs()
    ensures PlanDesired(RESOLVED, EMPTY_CLUSTER, PLANNING) == Some(PassA(PlanOfChain().actions, [], {}))
  {
    hide PlanOne, PlanDesired, FetchIso, MakeIdle, MakeBase, MakeCopy, IdleDoc, BaseDoc, CopyDoc;
    var front, made := [ISO_DOC, IdleDoc()], [FetchIso(), MakeIdle()];
    StepsAre();
    FrontPass();
    PassSnoc(front, BaseDoc("s:iso/f"), made, MakeBase());
    PassSnoc(front + [BaseDoc("s:iso/f")], CopyDoc(100), made + [MakeBase()], MakeCopy());
    assert RESOLVED == front + [BaseDoc("s:iso/f")] + [CopyDoc(100)];
    assert PlanOfChain().actions == made + [MakeBase()] + [MakeCopy()];
  }

  lemma NothingDesired()
    ensures PlanDesired([], EMPTY_CLUSTER, PLANNING) == Some(PassA([], [], {}))
  {
  }

  /** Two creates of the first level by id, then two of rising level. */
  lemma Rising(a: Action, b: Action, c: Action, d: Action)
    requires a.tier == b.tier == c.tier == d.tier == 0 && a.level == b.level == 0 && c.level == 1 && d.level == 2
    requires a.what == b.what == Create && a.node == b.node && a.id < b.id
    ensures IsSortOf([a, b, c, d], [a, b, c, d])
  {
    hide Muddled;
  }

  lemma RisingSteps()
    ensures IsSortOf(PlanOfChain().actions, PlanOfChain().actions + [])
  {
    hide OneMiB, Vm.CreateParams, Vm.CloneDeleteKeys, FileParams, IsSortOf;
    Names();
    Rising(FetchIso(), MakeIdle(), MakeBase(), MakeCopy());
    assert PlanOfChain().actions + [] == PlanOfChain().actions;
  }

  lemma IsPlanned()
    ensures IsPlan(RESOLVED, EMPTY_CLUSTER, PLANNING, PlanOfChain())
  {
    hide PlanDesired, FetchIso, MakeIdle, MakeBase, MakeCopy, Candidates, Unowned, Suppressed, Active, Guarded, IsSortOf;
    PassIs();
    RisingSteps();
    NothingListed();
    assert WithinBudget(Active([], {}), 3, [], []);
    assert PlanOfChain().deferred == Guarded([], {}) + [];
  }

  lemma NothingListed()
    ensures Candidates([], RESOLVED, EMPTY_CLUSTER, PLANNING) == [] && Unowned([], RESOLVED, EMPTY_CLUSTER, PLANNING) == []
    ensures Suppressed(RESOLVED, [], 3) == {} && Active([], {}) == [] && Guarded([], {}) == []
  {
  }

  /** The first action fails, the third waits for it and is deferred, the fourth waits for the third and is
      executed; all on one node. */
  predicate SkipsOneHop(r: seq<Result>) {
    && |r| == 4 && !r[0].ok && !r[0].deferred && r[2].deferred && !r[3].deferred
    && r[2].action.deps == [r[0].action.ref] && r[2].action.ref in r[3].action.deps
    && r[0].action.node == r[2].action.node == r[3].action.node
  }

  /** Deferral is one hop. In the plan of an accepted index, run against the empty cluster it was made
      for, the download of the ISO is refused, the template that boots from it is deferred, and the clone
      of that template is executed all the same. */
  lemma DeferralIsNotTransitive(w: World)
    requires w.site == Site(map[], {}) && w.faults == [Refused]
    ensures Acceptable(DOCS) && FromIndex(PLANNING, GraphOf(ResolvedDocs(DOCS))) && IsPlan(RESOLVED, EMPTY_CLUSTER, PLANNING, PlanOfChain())
    ensures SkipsOneHop(Run(w, PlanOfChain().actions, {}).results)
  {
    hide *;
    IsAccepted();
    IsPlanned();
    TemplateDeferred(w);
  }

  /** The run of that plan against that cluster. */
  lemma TemplateDeferred(w: World)
    requires w.site == Site(map[], {}) && w.faults == [Refused]
    ensures SkipsOneHop(Run(w, PlanOfChain().actions, {}).results)
  {
    hide Run, Apply, FetchIso, MakeIdle, MakeBase, MakeCopy;
    ActionsAre();
    var a, f := PlanOfChain().actions, {Failure(DISC_REF, "n")};
    DownloadRefused(w);
    RunHead(w, a, {});
    assert a[1..] == [MakeIdle(), MakeBase(), MakeCopy()];
    var v := Apply(w, a[0]).world;
    assert !Deferred(a[0], {}) && FailedAfter(a[0], false, {}) == f;
    IdleMade(v);
    RunHead(v, a[1..], f);
    assert a[1..][1..] == [MakeBase(), MakeCopy()];
    var u := Apply(v, MakeIdle()).world;
    assert DISC_REF in MakeBase().deps && Failure(DISC_REF, "n") in f && Deferred(MakeBase(), f);
    RunHead(u, [MakeBase(), MakeCopy()], f);
    assert [MakeBase(), MakeCopy()][1..] == [MakeCopy()];
    assert !Deferred(MakeCopy(), f);
    RunHead(u, [MakeCopy()], f);
  }

  lemma ActionsAre()
    ensures FetchIso().ref == DISC_REF && FetchIso().deps == [] && MakeIdle().deps == []
    ensures MakeBase().ref == BASE_REF && MakeBase().deps == [DISC_REF] && MakeCopy().deps == [BASE_REF, IDLE_REF]
    ensures FetchIso().node == MakeIdle().node == MakeBase().node == MakeCopy().node == "n"
  {
    hide Vm.CreateParams, Vm.CloneDeleteKeys, FileParams, OneMiB;
  }

  lemma DownloadRefused(w: World)
    requires w.faults == [Refused]
    ensures !Apply(w, FetchIso()).ok && Apply(w, FetchIso()).world.site == w.site && Apply(w, FetchIso()).world.faults == []
  {
    hide Effect;
  }

  lemma IdleMade(w: World)
    requires w.site == Site(map[], {}) && w.faults == []
    ensures Apply(w, MakeIdle()).ok
  {
    hide CreatedConfig;
  }
}
