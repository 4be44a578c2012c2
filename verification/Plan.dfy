/** The planner: desired manifests against a live inventory, as an ordered list of actions with
    guarded, budgeted prunes. */
module Plan {
  import opened Text
  import opened Devices
  import opened Owned
  import opened Desired
  import opened Sorting
  import opened Seqs
  import Vm
  import Lxc

  datatype What = Create | Update | StatusOnly | Start | Stop | Delete | Report | MarkTemplate

  datatype Action = Action(
    tier: nat, kind: Kind, name: string, node: string, id: int, what: What, params: Config, deletes: set<Key>,
    stopFirst: bool, prune: bool, livePower: string, desiredPower: string, level: nat, deps: seq<Ref>, ref: Ref,
    cloneSource: int)

  /** The empty reference carried by prunes. */
  const NO_REF := Ref(Other(""), "")

  /** A non-destructive observation of one desired object. */
  datatype Finding = TemplateMismatch | Device(anomaly: Anomaly)

  /** `suppressed` holds the kinds whose prunes the empty-desired guard stopped. */
  datatype Plan = Plan(
    actions: seq<Action>, skipped: seq<Action>, deferred: seq<Action>, suppressed: set<Kind>,
    anomalies: set<(Ref, Finding)>)

  datatype LiveKey = ObjKey(node: string, kind: Kind, id: int) | FileKey(node: string, kind: Kind, storage: string, filename: string)

  datatype Listed = Listed(node: string, vmid: int, typ: string)

  datatype LiveInventory = LiveInventory(
    configs: map<LiveKey, Config>, present: map<LiveKey, bool>, power: map<LiveKey, string>, listing: seq<Listed>)

  datatype Options = Options(budget: int, levels: map<Ref, nat>, edges: map<Ref, seq<Ref>>, allow: seq<string>)

  const RUNNING := "running"

  function Power(live: LiveInventory, k: LiveKey): string { if k in live.power then live.power[k] else "" }

  function LevelIn(o: Options, ref: Ref): nat { if ref in o.levels then o.levels[ref] else 0 }

  function EdgesIn(o: Options, ref: Ref): seq<Ref> { if ref in o.edges then o.edges[ref] else [] }

  predicate NodeAllowed(allow: seq<string>, node: string) { allow == [] || node in allow }

  predicate IsTemplate(cfg: Config) { Get(cfg, TemplateFlag) == "1" || Get(cfg, TemplateFlag) == "true" }

  /** The guest kind whose id space a kind shares. */
  function BaseKind(k: Kind): Kind { if k == TemplateVM then VM else if k == TemplateCT then LXC else k }

  function NormalizeKind(typ: string): Kind {
    var t := Lower(typ);
    if t == "vm" || t == "qemu" || t == "qm" then VM
    else if t == "ct" || t == "lxc" || t == "container" then LXC
    else Other(Upper(typ))
  }

  // ----- one manifest -----

  datatype Change = Change(params: Config, deletes: set<Key>, stop: bool)

  function DriftOf(r: Resource, cfg: Config): Option<Change> {
    hide *;
    match r.body
    case Machine(v) =>
      var d := Vm.Drift(v, cfg);
      if d.Some? then Some(Change(d.value.params, d.value.deletes, d.value.stop)) else None
    case Container(l) =>
      var d := Lxc.Drift(l, cfg);
      if d.Some? then Some(Change(d.value.params, {}, d.value.stop)) else None
    case File(_) => None
  }

  function AnomaliesOf(r: Resource, cfg: Config): set<Anomaly> {
    match r.body
    case Machine(v) => Vm.Anomalies(v, cfg)
    case Container(l) => Lxc.Anomalies(l, cfg)
    case File(_) => {}
  }

  function FileParams(f: Artifact): Config {
    map[Dev("storage") := f.storage, Dev("url") := f.url, Dev("filename") := f.filename]
  }

  function CreateParamsOf(r: Resource): Option<Config> {
    match r.body
    case Machine(v) => Some(Vm.CreateParams(v))
    case Container(l) => Lxc.CreateParams(l)
    case File(f) => Some(FileParams(f))
  }

  /** What one manifest contributes. */
  datatype Step = Step(actions: seq<Action>, skipped: seq<Action>, findings: set<Finding>)

  const NOTHING := Step([], [], {})

  function ActionFor(r: Resource, o: Options, what: What): Action {
    Action(0, r.kind, NameOf(r), NodeOf(r), IdOf(r), what, map[], {}, false, false, "", DesiredState(r),
           LevelIn(o, RefOf(r)), [], RefOf(r), 0)
  }

  function CreateFile(r: Resource, o: Options, node: string): Action
    requires r.body.File?
  {
    ActionFor(r, o, Create).(node := node, id := 0, params := FileParams(r.body.file), desiredPower := "")
  }

  /** One download per declared node that reports the file missing; nodes whose storage could not be
      read are skipped. */
  function PlanFile(r: Resource, nodes: seq<string>, live: LiveInventory, o: Options): Step
    requires r.body.File?
  {
    if nodes == [] then NOTHING
    else
      var f, rest := r.body.file, PlanFile(r, nodes[1..], live, o);
      var key := FileKey(nodes[0], r.kind, f.storage, f.filename);
      if key !in live.present then
        rest.(skipped := [ActionFor(r, o, StatusOnly).(node := nodes[0], id := 0, desiredPower := "", ref := NO_REF)] + rest.skipped)
      else if live.present[key] then rest
      else rest.(actions := [CreateFile(r, o, nodes[0])] + rest.actions)
  }

  /** powerDesiredToLive. */
  function PowerStep(desired: string, live: string): Option<What> {
    if live == "" then None
    else if desired == STARTED && live != RUNNING then Some(Start)
    else if desired == STOPPED && live == RUNNING then Some(Stop)
    else None
  }

  function UpdateSteps(r: Resource, cfg: Config, power: string, o: Options): seq<Action> {
    hide *;
    var d := DriftOf(r, cfg);
    if d.None? then []
    else [ActionFor(r, o, Update).(params := d.value.params, deletes := d.value.deletes, stopFirst := d.value.stop, livePower := power)]
  }

  function PowerSteps(r: Resource, power: string, o: Options): seq<Action> {
    var step := PowerStep(DesiredState(r), power);
    if step.None? then [] else [ActionFor(r, o, step.value).(livePower := power)]
  }

  /** A missing object: a create, or a full clone with the inherited identity keys to clear. None is
      a planning error. */
  function CreateStep(r: Resource, o: Options): Option<Action> {
    hide *;
    var params := CreateParamsOf(r);
    var base := ActionFor(r, o, Create).(deps := EdgesIn(o, RefOf(r)));
    if params.None? then None
    else if r.kind == VM && r.body.Machine? && Vm.IsCloneBacked(r.body.vm) then
      var v := r.body.vm;
      if v.cloneSource == 0 || v.cloneSource == v.vmid then None
      else Some(base.(params := params.value, cloneSource := v.cloneSource, deletes := Vm.CloneDeleteKeys(v)))
    else Some(base.(params := params.value))
  }

  function MarkStep(r: Resource, power: string, o: Options): Action {
    ActionFor(r, o, MarkTemplate).(deps := EdgesIn(o, RefOf(r)), livePower := power)
  }

  /** The plan of one guest from the configs and power states at its own keys: `own` under its kind,
      `base` under the kind whose id space it shares. */
  function PlanGuest(r: Resource, own: Option<Config>, base: Option<Config>, ownPower: string, basePower: string, o: Options): Option<Step> {
    hide *;
    if own.None? then
      if (r.kind == TemplateVM || r.kind == TemplateCT) && base.Some? then Some(NOTHING.(actions := [MarkStep(r, basePower, o)]))
      else
        var c := CreateStep(r, o);
        if c.None? then None else Some(NOTHING.(actions := [c.value]))
    else if (r.kind == VM || r.kind == LXC) && IsTemplate(own.value) then Some(NOTHING.(findings := {TemplateMismatch}))
    else
      Some(Step(UpdateSteps(r, own.value, ownPower, o) + PowerSteps(r, ownPower, o), [],
                set a | a in AnomaliesOf(r, own.value) :: Device(a)))
  }

  function ConfigAt(live: LiveInventory, k: LiveKey): Option<Config> { if k in live.configs then Some(live.configs[k]) else None }

  function PlanOne(r: Resource, live: LiveInventory, o: Options): Option<Step> {
    hide *;
    if r.body.File? then Some(PlanFile(r, r.body.file.nodes, live, o))
    else
      var own, base := ObjKey(NodeOf(r), r.kind, IdOf(r)), ObjKey(NodeOf(r), BaseKind(r.kind), IdOf(r));
      PlanGuest(r, ConfigAt(live, own), ConfigAt(live, base), Power(live, own), Power(live, base), o)
  }

  /** Pass A: creates, updates, power changes and findings of all manifests. */
  datatype PassA = PassA(actions: seq<Action>, skipped: seq<Action>, anomalies: set<(Ref, Finding)>)

  function PlanDesired(desired: seq<Resource>, live: LiveInventory, o: Options): Option<PassA> {
    hide *;
    if desired == [] then Some(PassA([], [], {}))
    else
      var n := |desired| - 1;
      var before, last := PlanDesired(desired[..n], live, o), PlanOne(desired[n], live, o);
      if before.None? || last.None? then None
      else Some(PassA(before.value.actions + last.value.actions, before.value.skipped + last.value.skipped,
                      before.value.anomalies + set f | f in last.value.findings :: (RefOf(desired[n]), f)))
  }

  // ----- prunes -----

  predicate Claims(r: Resource, node: string, kind: Kind, id: int) {
    !ArtifactKind(r.kind) && BaseKind(r.kind) == kind && NodeOf(r) == node && IdOf(r) == id
  }

  predicate Claimed(desired: seq<Resource>, node: string, kind: Kind, id: int) {
    exists r | r in desired :: Claims(r, node, kind, id)
  }

  /** A desired guest of the same kind carries the live object's name. */
  predicate NamedBy(desired: seq<Resource>, kind: Kind, name: string) {
    exists r | r in desired :: !ArtifactKind(r.kind) && RefOf(r) == Ref(kind, name)
  }

  predicate DesiredTemplate(desired: seq<Resource>, kind: Kind, node: string, id: int) {
    exists r | r in desired :: r.kind == kind && NodeOf(r) == node && IdOf(r) == id
  }

  datatype Verdict = Ignored | Untagged | Orphan

  /** How the prune pass reads one listing entry. */
  function Judge(e: Listed, desired: seq<Resource>, live: LiveInventory, o: Options): Verdict {
    var kind := NormalizeKind(e.typ);
    var cfg := ConfigAt(live, ObjKey(e.node, kind, e.vmid));
    if e.node == "" || e.vmid <= 0 || e.typ == "" then Ignored
    else if !NodeAllowed(o.allow, e.node) then Ignored
    else if kind != VM && kind != LXC then Ignored
    else if cfg.None? then Ignored
    else if Claimed(desired, e.node, kind, e.vmid) || NamedBy(desired, kind, Get(cfg.value, Name)) then Ignored
    else if !HasTag(Get(cfg.value, Tags), OWNERSHIP_TAG) then Untagged
    else if IsTemplate(cfg.value) && DesiredTemplate(desired, TemplateVM, e.node, e.vmid) then Ignored
    else if IsTemplate(cfg.value) && DesiredTemplate(desired, TemplateCT, e.node, e.vmid) then Ignored
    else Orphan
  }

  function Observed(e: Listed, live: LiveInventory, what: What): Action {
    var kind := NormalizeKind(e.typ);
    var key := ObjKey(e.node, kind, e.vmid);
    var cfg := ConfigAt(live, key);
    Action(0, kind, if cfg.Some? then Get(cfg.value, Name) else "", e.node, e.vmid, what, map[], {}, false, false, "", "", 0, [], NO_REF, 0)
  }

  function PruneOf(e: Listed, live: LiveInventory): Action {
    Observed(e, live, Delete).(tier := 9, prune := true, livePower := Power(live, ObjKey(e.node, NormalizeKind(e.typ), e.vmid)))
  }

  /** Tagged live objects no manifest claims, in listing order. */
  function Candidates(listing: seq<Listed>, desired: seq<Resource>, live: LiveInventory, o: Options): seq<Action> {
    if listing == [] then []
    else
      var n := |listing| - 1;
      Candidates(listing[..n], desired, live, o)
      + if Judge(listing[n], desired, live, o) == Orphan then [PruneOf(listing[n], live)] else []
  }

  function Unowned(listing: seq<Listed>, desired: seq<Resource>, live: LiveInventory, o: Options): seq<Action> {
    if listing == [] then []
    else
      var n := |listing| - 1;
      Unowned(listing[..n], desired, live, o)
      + if Judge(listing[n], desired, live, o) == Untagged then [Observed(listing[n], live, StatusOnly)] else []
  }

  predicate AnyOfKind(desired: seq<Resource>, k: Kind) { exists r | r in desired :: r.kind == k }

  /** The empty-desired guard: no manifest of the kind, and more orphans of it than the budget. */
  predicate Suppresses(desired: seq<Resource>, candidates: seq<Action>, budget: int, k: Kind) {
    (k == VM || k == LXC) && !AnyOfKind(desired, k) && |Filter(candidates, (a: Action) => a.kind == k)| > budget
  }

  function Suppressed(desired: seq<Resource>, candidates: seq<Action>, budget: int): set<Kind> {
    set k | k in {VM, LXC} && Suppresses(desired, candidates, budget, k)
  }

  function Guarded(candidates: seq<Action>, suppressed: set<Kind>): seq<Action> {
    Filter(candidates, (a: Action) => a.kind in suppressed)
  }

  function Active(candidates: seq<Action>, suppressed: set<Kind>): seq<Action> {
    Filter(candidates, (a: Action) => a.kind !in suppressed)
  }

  /** Prune order: node, then id. */
  predicate Before(a: Action, b: Action) { if a.node != b.node then StrLess(a.node, b.node) else a.id < b.id }

  predicate NotAfterInPrunes(a: Action, b: Action) { !Before(b, a) }

  /** `chosen` are deleted this cycle, `excess` wait. */
  predicate WithinBudget(active: seq<Action>, budget: int, chosen: seq<Action>, excess: seq<Action>) {
    if budget > 0 && |active| > budget then
      && multiset(chosen) + multiset(excess) == multiset(active)
      && |chosen| == budget
      && forall c, e | c in chosen && e in excess :: !Before(e, c)
    else chosen == active && excess == []
  }

  // ----- ordering -----

  function Rank(w: What): nat {
    match w
    case Create => 0
    case MarkTemplate => 0
    case Update => 1
    case StatusOnly => 2
    case Start => 3
    case Stop => 4
    case Delete => 9
    case Report => 10
  }

  function SortLevel(a: Action): nat { if a.tier == 0 then a.level else 0 }

  /** Tier, then dependency level, then kind of action. */
  predicate NotAfter(a: Action, b: Action) {
    || a.tier < b.tier
    || (a.tier == b.tier && (SortLevel(a) < SortLevel(b) || (SortLevel(a) == SortLevel(b) && Rank(a.what) <= Rank(b.what))))
  }

  /** The comparison handed to the sort. Create and MarkTemplate share a rank and are then not
      compared further, so this is not a strict weak order. */
  predicate Less(a: Action, b: Action) {
    if a.tier != b.tier then a.tier < b.tier
    else if a.tier == 0 && a.level != b.level then a.level < b.level
    else if a.what != b.what then Rank(a.what) < Rank(b.what)
    else if a.node != b.node then StrLess(a.node, b.node)
    else if a.id != b.id then a.id < b.id
    else StrLess(a.name, b.name)
  }

  predicate InOrder(actions: seq<Action>) { forall i, j | 0 <= i < j < |actions| :: NotAfter(actions[i], actions[j]) }

  /** Node, id, name. */
  predicate TieBefore(a: Action, b: Action) {
    if a.node != b.node then StrLess(a.node, b.node) else if a.id != b.id then a.id < b.id else StrLess(a.name, b.name)
  }

  /** Some create and some mark-template share this place in the order. */
  predicate Mixed(actions: seq<Action>, tier: nat, level: nat) {
    exists a, b | a in actions && b in actions ::
      a.what == Create && b.what == MarkTemplate && a.tier == b.tier == tier && SortLevel(a) == SortLevel(b) == level
  }

  /** The pairs the comparison cannot be trusted on: creates and mark-templates of a mixed level. */
  predicate Muddled(actions: seq<Action>, a: Action) { Rank(a.what) == 0 && Mixed(actions, a.tier, SortLevel(a)) }

  /** No action precedes one the comparison puts before it, except inside a mixed level. */
  predicate TiesInOrder(actions: seq<Action>) {
    forall i, j | 0 <= i < j < |actions| :: Less(actions[j], actions[i]) ==> Muddled(actions, actions[i])
  }

  predicate IsSortOf(sorted: seq<Action>, actions: seq<Action>) {
    multiset(sorted) == multiset(actions) && InOrder(sorted) && TiesInOrder(sorted)
  }

  /** The finest preorder the comparison respects on these actions. */
  predicate NotAfterAmong(actions: seq<Action>, a: Action, b: Action) {
    && NotAfter(a, b)
    && (NotAfter(b, a) && !Muddled(actions, a) ==> if a.what != b.what then a.what == Create else !TieBefore(b, a))
  }

  // ----- the plan -----

  /** What the planner may return: pass A, and the prunes chosen within guard and budget, in order. */
  ghost predicate IsPlan(desired: seq<Resource>, live: LiveInventory, o: Options, p: Plan) {
    hide *;
    var pass := PlanDesired(desired, live, o);
    var candidates := Candidates(live.listing, desired, live, o);
    && pass.Some?
    && p.suppressed == Suppressed(desired, candidates, o.budget)
    && p.anomalies == pass.value.anomalies
    && p.skipped == pass.value.skipped + Unowned(live.listing, desired, live, o)
    && exists chosen, excess ::
         && WithinBudget(Active(candidates, p.suppressed), o.budget, chosen, excess)
         && p.deferred == Guarded(candidates, p.suppressed) + excess
         && IsSortOf(p.actions, pass.value.actions + chosen)
  }

  lemma TieOrder(a: Action, b: Action, c: Action)
    ensures !(TieBefore(a, b) && TieBefore(b, a))
    ensures !TieBefore(b, a) && !TieBefore(c, b) ==> !TieBefore(c, a)
  {
    StrLessChain(a.node, b.node, c.node);
    StrLessChain(a.name, b.name, c.name);
  }

  /** What transitivity of a lexicographic order needs of each string component. */
  lemma StrLessChain(x: string, y: string, z: string)
    ensures !(StrLess(x, y) && StrLess(y, x)) && (x != y ==> StrLess(x, y) || StrLess(y, x))
    ensures !(StrLess(y, z) && StrLess(z, y)) && (y != z ==> StrLess(y, z) || StrLess(z, y))
    ensures !(StrLess(x, z) && StrLess(z, x)) && (x != z ==> StrLess(x, z) || StrLess(z, x))
    ensures StrLess(z, x) && StrLess(x, y) ==> StrLess(z, y)
    ensures StrLess(z, x) && StrLess(y, z) ==> StrLess(y, x)
  {
    hide StrLess;
    StrLessTotal(x, y);
    StrLessTotal(y, z);
    StrLessTotal(x, z);
    if StrLess(z, x) && StrLess(x, y) {
      StrLessTransitive(z, x, y);
    }
    if StrLess(z, x) && StrLess(y, z) {
      StrLessTransitive(y, z, x);
    }
  }

  lemma LessFollows(actions: seq<Action>)
    ensures TotalPreorder((a: Action, b: Action) => NotAfterAmong(actions, a, b))
    ensures Follows(actions, Less, (a: Action, b: Action) => NotAfterAmong(actions, a, b))
  {
    hide TieBefore, Mixed;
    forall a: Action, b: Action ensures NotAfterAmong(actions, a, b) || NotAfterAmong(actions, b, a) {
      TieOrder(a, b, a);
    }
    forall a: Action, b: Action, c: Action | NotAfterAmong(actions, a, b) && NotAfterAmong(actions, b, c)
      ensures NotAfterAmong(actions, a, c)
    {
      TieOrder(a, b, c);
    }
    forall a: Action, b: Action | a in actions && b in actions
      ensures (Less(a, b) ==> NotAfterAmong(actions, a, b)) && (!Less(a, b) ==> NotAfterAmong(actions, b, a))
    {
      LessThenTies(actions, a, b);
    }
  }

  lemma LessThenTies(actions: seq<Action>, a: Action, b: Action)
    requires a in actions && b in actions
    ensures (Less(a, b) ==> NotAfterAmong(actions, a, b)) && (!Less(a, b) ==> NotAfterAmong(actions, b, a))
  {
    hide Mixed;
    TieOrder(a, b, a);
    if a.what != b.what && NotAfter(a, b) && NotAfter(b, a) {
      BothRanked(actions, a, b);
    }
  }

  /** Two kinds of action of one rank make a mixed level. */
  lemma BothRanked(actions: seq<Action>, a: Action, b: Action)
    requires a in actions && b in actions && a.what != b.what && NotAfter(a, b) && NotAfter(b, a)
    ensures Muddled(actions, a) && Muddled(actions, b)
  {
  }

  /** Sorted by the finest preorder, the actions are in the comparison's order up to mixed levels. */
  lemma SortedIsInOrder(sorted: seq<Action>, actions: seq<Action>)
    requires multiset(sorted) == multiset(actions) && SortedBy(sorted, (a: Action, b: Action) => NotAfterAmong(actions, a, b))
    ensures IsSortOf(sorted, actions)
  {
    hide TieBefore, Mixed;
    var leq := (a: Action, b: Action) => NotAfterAmong(actions, a, b);
    forall i, j | 0 <= i < j < |sorted| ensures NotAfter(sorted[i], sorted[j]) {
      assert leq(sorted[i], sorted[j]);
    }
    forall i, j | 0 <= i < j < |sorted| && Less(sorted[j], sorted[i]) ensures Muddled(sorted, sorted[i]) {
      assert leq(sorted[i], sorted[j]);
      InvertedIsMuddled(actions, sorted[i], sorted[j]);
      SameMix(sorted, actions, sorted[i].tier, SortLevel(sorted[i]));
    }
  }

  lemma InvertedIsMuddled(actions: seq<Action>, a: Action, b: Action)
    requires NotAfterAmong(actions, a, b) && Less(b, a)
    ensures Muddled(actions, a)
  {
    hide Mixed;
    TieOrder(a, b, a);
  }

  lemma SameMix(s: seq<Action>, t: seq<Action>, tier: nat, level: nat)
    requires multiset(s) == multiset(t)
    ensures Mixed(s, tier, level) <==> Mixed(t, tier, level)
  {
    forall a ensures a in s <==> a in t {
      assert a in multiset(s) <==> a in multiset(t);
    }
  }

  lemma BeforeFollows(s: seq<Action>)
    ensures TotalPreorder(NotAfterInPrunes) && Follows(s, Before, NotAfterInPrunes)
  {
    forall a: Action, b: Action ensures !(Before(a, b) && Before(b, a)) {
      StrLessTotal(a.node, b.node);
    }
    forall a: Action, b: Action, c: Action | NotAfterInPrunes(a, b) && NotAfterInPrunes(b, c) ensures NotAfterInPrunes(a, c) {
      StrLessChain(a.node, b.node, c.node);
    }
  }

  method PassDesired(desired: seq<Resource>, live: LiveInventory, o: Options) returns (r: Option<PassA>)
    ensures r == PlanDesired(desired, live, o)
  {
    hide PlanOne;
    var actions: seq<Action>, skipped: seq<Action>, anomalies: set<(Ref, Finding)> := [], [], {};
    for i := 0 to |desired|
      invariant PlanDesired(desired[..i], live, o) == Some(PassA(actions, skipped, anomalies))
    {
      assert desired[..i + 1][..i] == desired[..i];
      var step := PlanOne(desired[i], live, o);
      if step.None? {
        StaysNone(desired, i + 1, live, o);
        return None;
      }
      actions := actions + step.value.actions;
      skipped := skipped + step.value.skipped;
      anomalies := anomalies + set f | f in step.value.findings :: (RefOf(desired[i]), f);
    }
    assert desired[..|desired|] == desired;
    r := Some(PassA(actions, skipped, anomalies));
  }

  lemma {:induction false} StaysNone(desired: seq<Resource>, i: nat, live: LiveInventory, o: Options)
    requires hide *; i <= |desired| && PlanDesired(desired[..i], live, o).None?
    ensures PlanDesired(desired, live, o).None?
    decreases |desired| - i
  {
    hide PlanOne;
    if i < |desired| {
      assert desired[..i + 1][..i] == desired[..i];
      StaysNone(desired, i + 1, live, o);
    } else {
      assert desired[..i] == desired;
    }
  }

  method PassListing(desired: seq<Resource>, live: LiveInventory, o: Options) returns (candidates: seq<Action>, skipped: seq<Action>)
    ensures candidates == Candidates(live.listing, desired, live, o)
    ensures skipped == Unowned(live.listing, desired, live, o)
  {
    hide Judge, PruneOf, Observed;
    candidates, skipped := [], [];
    var listing := live.listing;
    for i := 0 to |listing|
      invariant candidates == Candidates(listing[..i], desired, live, o)
      invariant skipped == Unowned(listing[..i], desired, live, o)
    {
      assert listing[..i + 1][..i] == listing[..i];
      match Judge(listing[i], desired, live, o)
      case Orphan => candidates := candidates + [PruneOf(listing[i], live)];
      case Untagged => skipped := skipped + [Observed(listing[i], live, StatusOnly)];
      case Ignored =>
    }
    assert listing[..|listing|] == listing;
  }

  method CountOfKind(candidates: seq<Action>, k: Kind) returns (n: nat)
    ensures n == |Filter(candidates, (a: Action) => a.kind == k)|
  {
    ghost var p := (a: Action) => a.kind == k;
    n := 0;
    for i := 0 to |candidates|
      invariant n == |Filter(candidates[..i], p)|
    {
      assert candidates[..i + 1] == candidates[..i] + [candidates[i]];
      FilterSnoc(candidates[..i], candidates[i], p);
      if candidates[i].kind == k {
        n := n + 1;
      }
    }
    assert candidates[..|candidates|] == candidates;
  }

  method Guard(desired: seq<Resource>, candidates: seq<Action>, budget: int) returns (suppressed: set<Kind>)
    ensures suppressed == Suppressed(desired, candidates, budget)
  {
    suppressed := {};
    var vms := CountOfKind(candidates, VM);
    if !AnyOfKind(desired, VM) && vms > budget {
      suppressed := suppressed + {VM};
    }
    var cts := CountOfKind(candidates, LXC);
    if !AnyOfKind(desired, LXC) && cts > budget {
      suppressed := suppressed + {LXC};
    }
  }

  method DropSuppressed(candidates: seq<Action>, suppressed: set<Kind>) returns (active: seq<Action>, guarded: seq<Action>)
    ensures active == Active(candidates, suppressed) && guarded == Guarded(candidates, suppressed)
  {
    ghost var p, q := (a: Action) => a.kind in suppressed, (a: Action) => a.kind !in suppressed;
    active, guarded := [], [];
    for i := 0 to |candidates|
      invariant active == Filter(candidates[..i], q) && guarded == Filter(candidates[..i], p)
    {
      assert candidates[..i + 1] == candidates[..i] + [candidates[i]];
      FilterSnoc(candidates[..i], candidates[i], p);
      FilterSnoc(candidates[..i], candidates[i], q);
      if candidates[i].kind in suppressed {
        guarded := guarded + [candidates[i]];
      } else {
        active := active + [candidates[i]];
      }
    }
    assert candidates[..|candidates|] == candidates;
  }

  method ApplyBudget(active: seq<Action>, budget: int) returns (chosen: seq<Action>, excess: seq<Action>)
    ensures WithinBudget(active, budget, chosen, excess)
  {
    chosen, excess := active, [];
    if budget > 0 && |active| > budget {
      BeforeFollows(active);
      var sorted := StableSort(active, Before, NotAfterInPrunes);
      SameSize(sorted, active);
      chosen, excess := sorted[..budget], sorted[budget..];
      assert sorted == chosen + excess;
      forall c, e | c in chosen && e in excess ensures !Before(e, c) {
        var i :| 0 <= i < |chosen| && chosen[i] == c;
        var j :| 0 <= j < |excess| && excess[j] == e;
        assert NotAfterInPrunes(sorted[i], sorted[budget + j]);
      }
    }
  }

  /** One planning pass. */
  method PlanActions(desired: seq<Resource>, live: LiveInventory, o: Options) returns (r: Option<Plan>)
    ensures hide *; r.None? <==> PlanDesired(desired, live, o).None?
    ensures r.Some? ==> IsPlan(desired, live, o, r.value)
  {
    hide PlanDesired, Candidates, Unowned, Suppressed, Active, Guarded, WithinBudget;
    var pass := PassDesired(desired, live, o);
    if pass.None? {
      return None;
    }
    var candidates, unowned := PassListing(desired, live, o);
    var suppressed := Guard(desired, candidates, o.budget);
    var active, guarded := DropSuppressed(candidates, suppressed);
    var chosen, excess := ApplyBudget(active, o.budget);
    LessFollows(pass.value.actions + chosen);
    var actions := StableSort(pass.value.actions + chosen, Less, (a: Action, b: Action) => NotAfterAmong(pass.value.actions + chosen, a, b));
    SortedIsInOrder(actions, pass.value.actions + chosen);
    r := Some(Plan(actions, pass.value.skipped + unowned, guarded + excess, suppressed, pass.value.anomalies));
  }
}
