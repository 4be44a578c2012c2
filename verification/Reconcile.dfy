/** The reconcile cycle as a gated state machine. */
module Reconcile {
  import opened Text
  import opened Graph
  import opened Desired
  import opened Secrets
  import opened Seqs
  import opened Plan
  import opened PlanSafety
  import opened World
  import opened Exec
  import opened Live
  import opened Status
  import opened Executor

  const DEFAULT_BUDGET := 3

  /** What one cycle meets: the outcome of the git fetch, the decoded manifests of the cluster's
      composition (None when files could not be read or decoded), the cluster listing (None when the
      read failed) and the reads that succeed. */
  datatype Input = Input(fetched: bool, rev: string, docs: Option<seq<Resource>>, listing: Option<seq<Listed>>, rd: Reads)

  datatype Gate = Sync | Parse | SecretMaterial | NodeList | InventoryRead | Planning | Open

  datatype CycleResult = CycleResult(
    gate: Gate, commit: string, stale: bool, actions: nat, actionsOk: nat, actionsErr: nat, pruned: nat,
    pruneDeferred: nat, skipped: nat, anomalies: nat, suppressed: set<Kind>)

  function Stopped(gate: Gate, commit: string, stale: bool): CycleResult {
    CycleResult(gate, commit, stale, 0, 0, 0, 0, 0, 0, 0, {})
  }

  /** checkNodeAllowlist. */
  predicate NodesAllowed(rs: seq<Resource>, allow: seq<string>) {
    allow == [] || forall r | r in rs :: forall n | n in NodesOf(r) :: n == "" || n in allow
  }

  /** The desired index of a set of manifests with its secrets resolved. */
  function Resolved(docs: seq<Resource>, st: Stores): Option<Index> {
    var idx := IndexOfDocs(docs);
    var byRef := AllSecrets(idx.byRef, st);
    if byRef.None? then None else Some(Index(byRef.value, idx.order))
  }

  /** The first gate that stops the cycle before planning, Open when none does. */
  ghost function FirstGate(hasGood: bool, i: Input, st: Stores, allow: seq<string>): Gate {
    if !i.fetched && !hasGood then Sync
    else if i.docs.None? || !Acceptable(i.docs.value) then Parse
    else if Resolved(i.docs.value, st).None? then SecretMaterial
    else if !Consistent(Resolved(i.docs.value, st).value) || !NodesAllowed(List(Resolved(i.docs.value, st).value), allow) then NodeList
    else if i.listing.None? then InventoryRead
    else Open
  }

  lemma ResolvedKeeps(docs: seq<Resource>, st: Stores)
    requires Acceptable(docs) && Resolved(docs, st).Some?
    ensures var idx := Resolved(docs, st).value;
            Consistent(idx) && GraphOf(idx.byRef) == GraphOf(ResolvedDocs(docs)) && idx.order == Refs(docs)
  {
    hide ResolveSecrets, Resolve, Docs, Valid, Edges, Acyclic, Closed, ResolvedDocs, Refs, Unique, Annotations, RefOf;
    AcceptedConsistent(docs);
    var before, idx := IndexOfDocs(docs), Resolved(docs, st).value;
    forall ref | ref in idx.byRef ensures RefOf(idx.byRef[ref]) == ref && Edges(idx.byRef[ref]) == Edges(before.byRef[ref]) {
      assert ResolveSecrets(before.byRef[ref], st) == Some(idx.byRef[ref]);
    }
    assert GraphOf(idx.byRef) == GraphOf(before.byRef);
  }

  /** A plan for an index against an inventory. */
  ghost predicate PlansFor(idx: Index, inv: LiveInventory, budget: int, allow: seq<string>, o: Options, p: Plan) {
    hide *;
    Consistent(idx) && o.budget == budget && o.allow == allow && FromIndex(o, GraphOf(idx.byRef)) && IsPlan(List(idx), inv, o, p)
  }

  /** Some manifest of the index cannot be planned against the inventory. */
  ghost predicate NoPlanFor(idx: Index, inv: LiveInventory, budget: int, allow: seq<string>, o: Options) {
    hide *;
    Consistent(idx) && o.budget == budget && o.allow == allow && FromIndex(o, GraphOf(idx.byRef)) && PlanDesired(List(idx), inv, o).None?
  }

  /** Every planned action is on an allowed node. */
  lemma AllowedNodes(desired: seq<Resource>, live: LiveInventory, o: Options, p: Plan, a: Action)
    requires IsPlan(desired, live, o, p) && a in p.actions && o.allow != []
    requires NodesAllowed(desired, o.allow) && forall r | r in desired :: "" !in NodesOf(r) && (r.body.File? || NodeOf(r) in NodesOf(r))
    ensures a.node in o.allow
  {
    hide IsPlan, Judge, PlannedFor, PruneOf;
    ActionSource(desired, live, o, p, a);
    if exists r | r in desired :: PlannedFor(a, r, o) {
      var r :| r in desired && PlannedFor(a, r, o);
      NodeOfAction(a, r, o);
    } else {
      var e :| e in live.listing && Judge(e, desired, live, o) == Orphan && a == PruneOf(e, live) && a.kind !in p.suppressed;
      PruneShape(e, live);
      OrphanAllowed(e, desired, live, o);
    }
  }

  lemma NodeOfAction(a: Action, r: Resource, o: Options)
    requires PlannedFor(a, r, o) && (r.body.File? || NodeOf(r) in NodesOf(r))
    ensures a.node in NodesOf(r)
  {
  }

  lemma OrphanAllowed(e: Listed, desired: seq<Resource>, live: LiveInventory, o: Options)
    requires Judge(e, desired, live, o) == Orphan
    ensures NodeAllowed(o.allow, e.node)
  {
  }

  // ----- every call of a run stays on the nodes of its actions -----

  predicate LoggedWithin(w: World, w': World, nodes: set<string>) {
    w.log <= w'.log && forall k | |w.log| <= k < |w'.log| :: w'.log[k].loc.node in nodes
  }

  lemma DoLogs(w: World, loc: Loc, call: Call, nodes: set<string>)
    requires loc.node in nodes
    ensures LoggedWithin(w, Do(w, loc, call).world, nodes)
  {
    hide Effect;
  }

  lemma LogsTrans(w: World, v: World, u: World, nodes: set<string>)
    requires LoggedWithin(w, v, nodes) && LoggedWithin(v, u, nodes)
    ensures LoggedWithin(w, u, nodes)
  {
    forall k | |w.log| <= k < |u.log| ensures u.log[k].loc.node in nodes {
      if k < |v.log| {
        assert u.log[k] == v.log[k];
      }
    }
  }

  lemma LogsNothing(w: World, nodes: set<string>)
    ensures LoggedWithin(w, w, nodes)
  {
  }

  lemma UpdateLogs(w: World, a: Action, nodes: set<string>)
    requires a.node in nodes
    ensures LoggedWithin(w, ApplyUpdate(w, a).world, nodes) && LoggedWithin(w, ApplyDelete(w, a).world, nodes)
  {
    hide Do, LoggedWithin;
    LogsNothing(w, nodes);
    var loc := LocOf(a);
    var s := Do(w, loc, StopObj);
    DoLogs(w, loc, StopObj, nodes);
    DoLogs(w, loc, Destroy, nodes);
    DoLogs(s.world, loc, Destroy, nodes);
    LogsTrans(w, s.world, Do(s.world, loc, Destroy).world, nodes);
    var v := if a.stopFirst && a.livePower == RUNNING then s.world else w;
    var write := WriteConfig(a.params, a.deletes);
    var c := Do(v, loc, write).world;
    DoLogs(v, loc, write, nodes);
    LogsTrans(w, v, c, nodes);
    DoLogs(c, loc, StartObj, nodes);
    LogsTrans(w, c, Do(c, loc, StartObj).world, nodes);
  }

  lemma CreateLogs(w: World, a: Action, nodes: set<string>)
    requires a.node in nodes
    ensures LoggedWithin(w, ApplyCreate(w, a).world, nodes)
  {
    hide Do, LoggedWithin, Vm.CloneBody;
    LogsNothing(w, nodes);
    var loc, at := LocOf(a), Loc(a.node, a.cloneSource);
    DoLogs(w, loc, Download(FileOf(a)), nodes);
    DoLogs(w, loc, CreateObj(FamilyOf(a.kind), a.params, a.desiredPower == STARTED), nodes);
    var create := CreateObj(FamilyOf(a.kind), a.params, false);
    var t := Do(w, loc, create).world;
    DoLogs(w, loc, create, nodes);
    DoLogs(t, loc, SetTemplate, nodes);
    LogsTrans(w, t, Do(t, loc, SetTemplate).world, nodes);
    var c := Do(w, at, CloneTo(a.id, a.name)).world;
    DoLogs(w, at, CloneTo(a.id, a.name), nodes);
    var r := Do(c, loc, ReadConfig).world;
    DoLogs(c, loc, ReadConfig, nodes);
    LogsTrans(w, c, r, nodes);
    if loc in r.site.objs {
      var write := WriteConfig(Vm.CloneBody(a.params, r.site.objs[loc].config), a.deletes);
      DoLogs(r, loc, write, nodes);
      LogsTrans(w, r, Do(r, loc, write).world, nodes);
    }
  }

  lemma ApplyLogs(w: World, a: Action, nodes: set<string>)
    requires a.node in nodes
    ensures LoggedWithin(w, Apply(w, a).world, nodes)
  {
    hide Do, LoggedWithin, ApplyUpdate, ApplyDelete, ApplyCreate;
    UpdateLogs(w, a, nodes);
    CreateLogs(w, a, nodes);
    LogsNothing(w, nodes);
    DoLogs(w, LocOf(a), SetTemplate, nodes);
    DoLogs(w, LocOf(a), StartObj, nodes);
    DoLogs(w, LocOf(a), StopObj, nodes);
  }

  /** Whatever fails, a run calls PVE only about nodes its actions name. */
  lemma {:induction false} RunLogs(w: World, actions: seq<Action>, failed: set<Failure>, nodes: set<string>)
    requires forall a | a in actions :: a.node in nodes
    ensures LoggedWithin(w, Run(w, actions, failed).world, nodes)
    decreases |actions|
  {
    hide Apply, Run, Exec.Deferred, LoggedWithin;
    if actions == [] {
      RunNone(w, failed);
      LogsNothing(w, nodes);
    } else {
      RunHead(w, actions, failed);
      var a, one := actions[0], Apply(w, actions[0]);
      if Exec.Deferred(a, failed) {
        RunLogs(w, actions[1..], failed, nodes);
      } else {
        ApplyLogs(w, a, nodes);
        RunLogs(one.world, actions[1..], FailedAfter(a, one.ok, failed), nodes);
        LogsTrans(w, one.world, Run(one.world, actions[1..], FailedAfter(a, one.ok, failed)).world, nodes);
      }
    }
  }

  /** What one cycle may do to PVE: nothing, unless it is no dry run, passed every gate and executed a
      plan made for the cluster's own index. */
  ghost predicate CycleMay(w: World, w': World, gate: Gate, dryRun: bool, allow: seq<string>) {
    && (w' != w ==> gate == Open && !dryRun)
    && w.log <= w'.log
    && (allow != [] ==> forall k | |w.log| <= k < |w'.log| :: w'.log[k].loc.node in allow)
  }

  /** What one cycle did: where it stopped, what it remembers, and what it ran. */
  ghost predicate CycleDid(
    i: Input, st: Stores, budget: int, allow: seq<string>, dryRun: bool, m: Kept, m': Kept, w: World, w': World, gate: Gate,
    executed: Option<Plan>)
  {
    hide PlannedFrom, Unplannable, Run, Resolved, Acceptable;
    var first := FirstGate(m.lastGood.Some?, i, st, allow);
    && StopsAt(first, i, st, w.site, budget, allow, gate)
    && (executed.Some? <==> gate == Open)
    && (executed.Some? ==> PlannedFrom(i, st, w.site, budget, allow, executed.value))
    && w' == (if executed.Some? && !dryRun then Run(w, executed.value.actions, {}).world else w)
    && (if gate in {Sync, Parse, SecretMaterial} then m'.lastGood == m.lastGood && m'.lastCommit == m.lastCommit
        else m'.lastGood == Resolved(i.docs.value, st) && m'.lastCommit == i.rev)
  }

  /** The plan is made for the cycle's own index and the inventory of the world it met. */
  ghost predicate PlannedFrom(i: Input, st: Stores, s: Site, budget: int, allow: seq<string>, p: Plan) {
    hide *;
    && i.docs.Some? && i.listing.Some? && Acceptable(i.docs.value) && Resolved(i.docs.value, st).Some?
    && Consistent(Resolved(i.docs.value, st).value) && NodesAllowed(List(Resolved(i.docs.value, st).value), allow)
    && exists o :: PlansFor(Resolved(i.docs.value, st).value,
                            Inventory(i.listing.value, s, List(Resolved(i.docs.value, st).value), allow, i.rd), budget, allow, o, p)
  }

  /** The index cannot be planned against the inventory of the world the cycle met. */
  ghost predicate Unplannable(i: Input, st: Stores, s: Site, budget: int, allow: seq<string>) {
    hide *;
    && i.docs.Some? && i.listing.Some? && Acceptable(i.docs.value) && Resolved(i.docs.value, st).Some?
    && Consistent(Resolved(i.docs.value, st).value)
    && exists o :: NoPlanFor(Resolved(i.docs.value, st).value,
                             Inventory(i.listing.value, s, List(Resolved(i.docs.value, st).value), allow, i.rd), budget, allow, o)
  }

  /** A cycle stops at the first closed gate, or at planning when planning fails. */
  ghost predicate StopsAt(first: Gate, i: Input, st: Stores, s: Site, budget: int, allow: seq<string>, gate: Gate) {
    gate == first || (first == Open && gate == Planning && Unplannable(i, st, s, budget, allow))
  }

  /** Honest accounting: the cycle's counters against the result's, and both against the results. */
  predicate Accounted(r: CycleResult, c: Cycle, rs: seq<Result>, p: Plan) {
    && r.actions == |rs| == |p.actions|
    && r.actionsOk == c.actionsOk == Executed(rs, true)
    && r.pruned == c.pruned == PrunedOk(rs)
    && c.actionsError == Executed(rs, false) && r.actionsErr == c.actionsError + DeferredCount(rs)
    && r.pruneDeferred == c.pruneDeferred == |p.deferred|
    && r.skipped == c.skipped == |p.skipped| && r.anomalies == c.anomalies == |p.anomalies|
  }

  /** A cycle that reads "converged" executed everything successfully. */
  lemma ConvergedIsHonest(r: CycleResult, c: Cycle, w: World, p: Plan)
    requires Accounted(r, c, Run(w, p.actions, {}).results, p) && Word(c) == AllConverged
    ensures r.actionsErr == 0 && r.actionsOk == |p.actions|
    ensures forall i | 0 <= i < |p.actions| :: Run(w, p.actions, {}).results[i].ok
  {
    hide Run;
    NoErrorMeansAllOk(w, p);
    ResultsSplit(w, p);
    ResultsAlign(w, p.actions, {});
    NoneDeferred(Run(w, p.actions, {}).results);
  }

  lemma {:induction false} NoneDeferred(rs: seq<Result>)
    requires forall i | 0 <= i < |rs| :: rs[i].ok && (rs[i].deferred ==> !rs[i].ok)
    ensures DeferredCount(rs) == 0
  {
    if rs != [] {
      NoneDeferred(rs[1..]);
    }
  }

  /** The part of the reconciler's own state that carries over. */
  datatype Kept = Kept(lastGood: Option<Index>, lastCommit: string, stale: bool)

  class Reconciler {
    const pve: Pve
    const store: Store
    const runner: Runner?
    const budget: int
    const allow: seq<string>
    const secrets: Stores
    var memory: Kept

    ghost predicate Valid()
    {
      budget > 0 && (runner != null ==> runner.pve == pve && runner.store == store)
    }

    /** A budget of zero or less becomes the default of three. */
    constructor (pve: Pve, store: Store, runner: Runner?, budget: int, allow: seq<string>, secrets: Stores)
      requires runner != null ==> runner.pve == pve && runner.store == store
      ensures Valid() && this.pve == pve && this.store == store && this.runner == runner && this.allow == allow && this.secrets == secrets
      ensures this.budget == if budget <= 0 then DEFAULT_BUDGET else budget
      ensures memory == Kept(None, "", false)
    {
      this.pve, this.store, this.runner := pve, store, runner;
      this.budget := if budget <= 0 then DEFAULT_BUDGET else budget;
      this.allow, this.secrets := allow, secrets;
      memory := Kept(None, "", false);
    }

    /** Levels of an accepted index. */
    method LevelsOf(idx: Index) returns (levels: map<Ref, nat>)
      requires Consistent(idx) && Closed(GraphOf(idx.byRef)) && Acyclic(GraphOf(idx.byRef))
      ensures levels.Keys == idx.byRef.Keys && forall n | n in idx.byRef :: IsLevel(GraphOf(idx.byRef), n, levels[n])
    {
      hide IsLevel, Edges;
      var leveler := new Leveler(GraphOf(idx.byRef));
      GraphKeys(idx.byRef);
      levels := leveler.Levels(idx.order);
    }

    /** The gates before planning: parse, secrets, node list. */
    method LoadDesired(docs: Option<seq<Resource>>) returns (idx: Option<Index>, gate: Gate)
      ensures gate == Parse <==> docs.None? || !Acceptable(docs.value)
      ensures gate == SecretMaterial <==> docs.Some? && Acceptable(docs.value) && Resolved(docs.value, secrets).None?
      ensures gate in {Parse, SecretMaterial, Open}
      ensures idx.Some? <==> gate == Open
      ensures gate == Open ==> docs.Some? && idx == Resolved(docs.value, secrets)
    {
      hide Acceptable, AllSecrets;
      if docs.None? {
        return None, Parse;
      }
      var built := BuildIndex(docs.value);
      if built.None? {
        return None, Parse;
      }
      var byRef := AllSecrets(built.value.byRef, secrets);
      if byRef.None? {
        return None, SecretMaterial;
      }
      idx := Some(Index(byRef.value, built.value.order));
      gate := Open;
    }

    /** The cycle up to the plan; no PVE call that writes. */
    method Prepare(i: Input) returns (idx: Option<Index>, gate: Gate, plan: Option<Plan>)
      requires hide PlannedFrom, Unplannable, Resolved, Acceptable; Valid()
      ensures StopsAt(FirstGate(true, i, secrets, allow), i, secrets, pve.world.site, budget, allow, gate)
      ensures idx == if gate in {Parse, SecretMaterial} then None else Resolved(i.docs.value, secrets)
      ensures plan.Some? <==> gate == Open
      ensures gate == Open ==> FirstGate(true, i, secrets, allow) == Open && PlannedFrom(i, secrets, pve.world.site, budget, allow, plan.value)
    {
      hide Acceptable, Resolved, NodesAllowed, IsPlan, FromIndex, Inventory, PlanDesired;
      plan := None;
      idx, gate := LoadDesired(i.docs);
      if idx.None? {
        return;
      }
      ResolvedKeeps(i.docs.value, secrets);
      var desired := List(idx.value);
      if !NodesAllowed(desired, allow) {
        gate := NodeList;
        return;
      }
      if i.listing.None? {
        gate := InventoryRead;
        return;
      }
      var inv := LoadLive(i.listing.value, pve.world.site, desired, allow, i.rd);
      AcceptedGraph(i.docs.value);
      var levels := LevelsOf(idx.value);
      var o := Options(budget, levels, GraphOf(idx.value.byRef), allow);
      OptionsFromIndex(o, idx.value);
      plan := PlanActions(desired, inv, o);
      if plan.None? {
        gate := Planning;
        assert NoPlanFor(idx.value, inv, budget, allow, o);
        return;
      }
      assert PlansFor(idx.value, inv, budget, allow, o, plan.value);
    }

    /** Executing a plan and reporting it. */
    method ExecutePlan(p: Plan, commit: string, stale: bool) returns (r: CycleResult)
      requires runner != null && runner.pve == pve && runner.store == store
      requires store.last == Some(NewCycle(commit, stale, false).(anomalies := |p.anomalies|))
      modifies store, pve
      ensures pve.world == Run(old(pve.world), p.actions, {}).world
      ensures r.gate == Open && r.commit == commit
      ensures store.last.Some? && Accounted(r, store.last.value, Run(old(pve.world), p.actions, {}).results, p)
      ensures !store.last.value.aborted && !store.last.value.readOnly
    {
      hide Run, Executed, PrunedOk, DeferredCount, Counted, WithDeferred, IsPlan;
      ghost var w := pve.world;
      var results := runner.RunPlan(p);
      CountedNew(commit, stale, |p.anomalies|, results, |p.deferred|);
      CountedIsSome(Some(NewCycle(commit, stale, false).(anomalies := |p.anomalies|)), results, |p.deferred|);
      BumpSkips(|p.skipped|);
      var ok, err, pruned := Tally(results);
      TallyOfRun(w, p);
      r := Stopped(Open, commit, stale).(
        actions := |p.actions|, actionsOk := ok, actionsErr := err, pruned := pruned, anomalies := |p.anomalies|,
        skipped := |p.skipped|, pruneDeferred := |p.deferred|, suppressed := p.suppressed);
      store.FinishCycle(false, "");
    }

    /** One reconcile cycle. `executed` is the plan of a cycle that passed every gate. */
    method RunOneCycle(i: Input) returns (r: CycleResult, ghost executed: Option<Plan>)
      requires hide PlannedFrom, Unplannable, Run, CycleMay, Accounted, Resolved, Acceptable; Valid()
      modifies this`memory, store, pve
      ensures StopsAt(FirstGate(old(memory).lastGood.Some?, i, secrets, allow), i, secrets, old(pve.world.site), budget, allow, r.gate)
      ensures CycleMay(old(pve.world), pve.world, r.gate, runner == null, allow)
      ensures executed.Some? <==> r.gate == Open
      ensures executed.Some? ==>
                && PlannedFrom(i, secrets, old(pve.world.site), budget, allow, executed.value)
                && pve.world == (if runner == null then old(pve.world) else Run(old(pve.world), executed.value.actions, {}).world)
      ensures memory.lastGood == if r.gate in {Sync, Parse, SecretMaterial} then old(memory).lastGood else Resolved(i.docs.value, secrets)
      ensures memory.lastCommit == if r.gate in {Sync, Parse, SecretMaterial} then old(memory).lastCommit else i.rev
      ensures store.last.Some? && store.last.value.aborted == (r.gate != Open) && store.last.value.readOnly == (runner == null)
      ensures r.gate == Open && runner != null ==>
                Accounted(r, store.last.value, Run(old(pve.world), executed.value.actions, {}).results, executed.value)
      ensures r.gate == Open && runner == null ==> r.actionsOk == r.actionsErr == r.pruned == 0 && store.last.value.pruneDeferred == 0
    {
      hide Acceptable, Resolved, NodesAllowed, IsPlan, Run, FromIndex, Inventory, Accounted, PlannedFrom, CycleMay, Unplannable;
      executed := None;
      var stale := false;
      NoChange(pve.world, runner == null, allow);
      if !i.fetched {
        if memory.lastGood.None? {
          store.BeginCycle(memory.lastCommit, false, runner == null);
          store.FinishCycle(true, "git sync");
          r := Stopped(Sync, memory.lastCommit, false);
          return;
        }
        stale := true;
      }
      memory := memory.(stale := stale);
      store.BeginCycle(i.rev, stale, runner == null);
      var idx, gate, plan := Prepare(i);
      if idx.Some? {
        memory := memory.(lastGood := idx, lastCommit := i.rev);
      }
      if plan.None? {
        store.FinishCycle(true, "aborted");
        r := Stopped(gate, i.rev, stale);
        return;
      }
      executed := plan;
      var p := plan.value;
      BumpAnomalies(|p.anomalies|);
      if runner == null {
        BumpSkips(|p.skipped|);
        store.FinishCycle(false, "");
        r := Stopped(Open, i.rev, stale).(actions := |p.actions|, anomalies := |p.anomalies|, skipped := |p.skipped|,
                                          pruneDeferred := |p.deferred|, suppressed := p.suppressed);
        return;
      }
      ghost var w := pve.world;
      r := ExecutePlan(p, i.rev, stale);
      PlannedWithin(i, secrets, w, budget, allow, p);
    }

    method BumpSkips(n: nat)
      requires store.last.Some?
      modifies store`last
      ensures store.last == Some(old(store.last).value.(skipped := old(store.last).value.skipped + n))
    {
      for i := 0 to n
        invariant store.last == Some(old(store.last).value.(skipped := old(store.last).value.skipped + i))
      {
        store.BumpSkipped();
      }
    }

    method BumpAnomalies(n: nat)
      requires store.last.Some?
      modifies store`last
      ensures store.last == Some(old(store.last).value.(anomalies := old(store.last).value.anomalies + n))
    {
      for i := 0 to n
        invariant store.last == Some(old(store.last).value.(anomalies := old(store.last).value.anomalies + i))
      {
        store.BumpAnomaly();
      }
    }

    /** Any number of cycles, each with whatever it meets. Every cycle stops at the first gate its own
        input closes, PVE is left alone unless all gates are open and the cycle is no dry run, what an
        open cycle does to PVE is the run of a plan made for its own index and the world it met, and
        every call is about an allowed node. */
    method RunCycles(inputs: seq<Input>) returns (ghost worlds: seq<World>, ghost memories: seq<Kept>, gates: seq<Gate>, ghost plans: seq<Option<Plan>>)
      requires hide *; Valid()
      modifies this`memory, store, pve
      ensures |worlds| == |memories| == |inputs| + 1 && |gates| == |plans| == |inputs|
      ensures worlds[0] == old(pve.world) && worlds[|inputs|] == pve.world && memories[0] == old(memory) && memories[|inputs|] == memory
      ensures forall k | 0 <= k < |inputs| :: CycleMay(worlds[k], worlds[k + 1], gates[k], runner == null, allow)
      ensures forall k | 0 <= k < |inputs| ::
                CycleDid(inputs[k], secrets, budget, allow, runner == null, memories[k], memories[k + 1], worlds[k], worlds[k + 1], gates[k], plans[k])
    {
      hide CycleMay, CycleDid;
      worlds, memories, gates, plans := [pve.world], [memory], [], [];
      for k := 0 to |inputs|
        invariant |worlds| == |memories| == k + 1 && |gates| == |plans| == k
        invariant worlds[0] == old(pve.world) && worlds[k] == pve.world && memories[0] == old(memory) && memories[k] == memory
        invariant forall j | 0 <= j < k :: CycleMay(worlds[j], worlds[j + 1], gates[j], runner == null, allow)
        invariant forall j | 0 <= j < k ::
                    CycleDid(inputs[j], secrets, budget, allow, runner == null, memories[j], memories[j + 1], worlds[j], worlds[j + 1], gates[j], plans[j])
      {
        var gate, executed := Cycle(inputs[k]);
        worlds, memories, gates, plans := worlds + [pve.world], memories + [memory], gates + [gate], plans + [executed];
      }
    }

    /** One cycle of a sequence. */
    method Cycle(i: Input) returns (gate: Gate, ghost executed: Option<Plan>)
      requires hide *; Valid()
      modifies this`memory, store, pve
      ensures CycleMay(old(pve.world), pve.world, gate, runner == null, allow)
      ensures CycleDid(i, secrets, budget, allow, runner == null, old(memory), memory, old(pve.world), pve.world, gate, executed)
    {
      hide FirstGate, PlannedFrom, Run, Accounted, Resolved, Unplannable;
      var r;
      r, executed := RunOneCycle(i);
      gate := r.gate;
    }
  }

  lemma AcceptedGraph(docs: seq<Resource>)
    requires Acceptable(docs)
    ensures Closed(GraphOf(ResolvedDocs(docs))) && Acyclic(GraphOf(ResolvedDocs(docs)))
  {
  }

  lemma OptionsFromIndex(o: Options, idx: Index)
    requires Closed(GraphOf(idx.byRef)) && Acyclic(GraphOf(idx.byRef)) && o.edges == GraphOf(idx.byRef)
    requires o.levels.Keys == idx.byRef.Keys && forall n | n in idx.byRef :: IsLevel(GraphOf(idx.byRef), n, o.levels[n])
    ensures FromIndex(o, GraphOf(idx.byRef))
  {
    hide IsLevel, Edges;
    GraphKeys(idx.byRef);
  }

  /** The result's own counts, as the report loop makes them. */
  method Tally(rs: seq<Result>) returns (ok: nat, err: nat, pruned: nat)
    ensures ok == Executed(rs, true) + |Filter(rs, (r: Result) => r.deferred && r.ok)|
    ensures ok + err == |rs|
    ensures pruned == |Filter(rs, (r: Result) => r.ok && r.action.prune)|
  {
    ok, err, pruned := 0, 0, 0;
    ghost var p, q, s := (r: Result) => !r.deferred && r.ok == true, (r: Result) => r.deferred && r.ok, (r: Result) => r.ok && r.action.prune;
    for i := 0 to |rs|
      invariant ok == |Filter(rs[..i], p)| + |Filter(rs[..i], q)| && ok + err == i && pruned == |Filter(rs[..i], s)|
    {
      assert rs[..i + 1] == rs[..i] + [rs[i]];
      FilterSnoc(rs[..i], rs[i], p);
      FilterSnoc(rs[..i], rs[i], q);
      FilterSnoc(rs[..i], rs[i], s);
      if rs[i].ok {
        ok := ok + 1;
        if rs[i].action.prune {
          pruned := pruned + 1;
        }
      } else {
        err := err + 1;
      }
    }
    assert rs[..|rs|] == rs;
  }

  lemma CountedNew(commit: string, stale: bool, anomalies: nat, rs: seq<Result>, deferred: nat)
    ensures var c := WithDeferred(Counted(Some(NewCycle(commit, stale, false).(anomalies := anomalies)), rs), deferred).value;
            c == NewCycle(commit, stale, false).(anomalies := anomalies, actionsOk := Executed(rs, true),
                   actionsError := Executed(rs, false), pruned := PrunedOk(rs), pruneDeferred := deferred)
  {
    hide Executed, PrunedOk;
  }

  lemma CountedIsSome(c: Option<Cycle>, rs: seq<Result>, deferred: nat)
    requires c.Some?
    ensures WithDeferred(Counted(c, rs), deferred).Some?
  {
  }

  /** A deferred action is never OK, so the report's counts are those of the executed actions. */
  lemma TallyOfRun(w: World, p: Plan)
    ensures var rs := Run(w, p.actions, {}).results;
            && |Filter(rs, (r: Result) => r.deferred && r.ok)| == 0
            && |Filter(rs, (r: Result) => r.ok && r.action.prune)| == PrunedOk(rs)
            && Executed(rs, true) + Executed(rs, false) + DeferredCount(rs) == |rs| == |p.actions|
  {
    hide Run, Executed, DeferredCount;
    var rs := Run(w, p.actions, {}).results;
    ResultsAlign(w, p.actions, {});
    ResultsSplit(w, p);
    assert forall r | r in rs :: r.deferred ==> !r.ok;
    FilterNone(rs, (r: Result) => r.deferred && r.ok);
    SameOn(rs, (r: Result) => r.ok && r.action.prune, (r: Result) => !r.deferred && r.ok && r.action.prune);
  }

  lemma NoChange(w: World, dryRun: bool, allow: seq<string>)
    ensures forall g: Gate :: CycleMay(w, w, g, dryRun, allow)
  {
  }

  lemma PlannedWithin(i: Input, st: Stores, w: World, budget: int, allow: seq<string>, p: Plan)
    requires PlannedFrom(i, st, w.site, budget, allow, p)
    ensures CycleMay(w, Run(w, p.actions, {}).world, Open, false, allow)
  {
    hide IsPlan, Run, Acceptable, FromIndex, NodesAllowed, Resolved, PlansFor, CycleMay, Inventory;
    var idx := Resolved(i.docs.value, st).value;
    var inv := Inventory(i.listing.value, w.site, List(idx), allow, i.rd);
    var o :| PlansFor(idx, inv, budget, allow, o, p);
    ExecutedWithin(i.docs.value, st, inv, budget, allow, o, p, w);
  }

  lemma ExecutedWithin(docs: seq<Resource>, st: Stores, inv: LiveInventory, budget: int, allow: seq<string>, o: Options, p: Plan, w: World)
    requires hide Acceptable, Resolved, IsPlan, FromIndex, NodesAllowed, CycleMay, Run; Acceptable(docs) && Resolved(docs, st).Some? && PlansFor(Resolved(docs, st).value, inv, budget, allow, o, p)
    requires NodesAllowed(List(Resolved(docs, st).value), allow)
    ensures CycleMay(w, Run(w, p.actions, {}).world, Open, false, allow)
  {
    hide IsPlan, Run, Acceptable, FromIndex, NodesAllowed, Resolved;
    var desired := List(Resolved(docs, st).value);
    var nodes := set a | a in p.actions :: a.node;
    RunLogs(w, p.actions, {}, nodes);
    if allow != [] {
      AcceptedNodes(docs, st);
      forall a | a in p.actions ensures a.node in allow {
        AllowedNodes(desired, inv, o, p, a);
      }
    }
  }

  /** Manifests of an accepted index name their nodes. */
  lemma AcceptedNodes(docs: seq<Resource>, st: Stores)
    requires Acceptable(docs) && Resolved(docs, st).Some? && Consistent(Resolved(docs, st).value)
    ensures forall r | r in List(Resolved(docs, st).value) :: "" !in NodesOf(r) && (r.body.File? || NodeOf(r) in NodesOf(r))
  {
    hide Resolve, Docs, ResolveSecrets, Vm.IsCloneBacked;
    var idx := Resolved(docs, st).value;
    forall r | r in List(idx) ensures "" !in NodesOf(r) && (r.body.File? || NodeOf(r) in NodesOf(r)) {
      var i :| 0 <= i < |idx.order| && List(idx)[i] == r;
      var ref := idx.order[i];
      AcceptedAt(docs, ref);
      assert ResolveSecrets(ResolvedDocs(docs)[ref], st) == Some(idx.byRef[ref]);
      ValidNodes(Docs(docs)[ref]);
    }
  }

  lemma ValidNodes(r: Resource)
    requires Valid(r)
    ensures "" !in NodesOf(r) && NodeOf(r) in NodesOf(r)
  {
    hide Vm.IsCloneBacked;
  }
}
