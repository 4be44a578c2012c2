/** LXC manifests: the owned table, drift with the guard on live volumes and host binds, and the
    anomaly list each drift check re-derives. TemplateCT manifests share this surface. */
module Lxc {
  import opened Text
  import opened Quantity
  import opened Drive
  import opened Devices
  import opened LxcWire
  import opened LxcMounts
  import opened VmDrives
  import opened Owned

  /** Tri-state flags: None leaves the choice to PVE. */
  datatype LxcOptions = LxcOptions(
    unprivileged: Option<bool>, protection: Option<bool>, nesting: Option<bool>, keyctl: Option<bool>,
    fuse: Option<bool>, onboot: Option<bool>, console: Option<bool>, startup: string)

  /** ostemplate is filled by reference resolution. */
  datatype LxcSpec = LxcSpec(
    name: string, node: string, vmid: int, template: string, description: string, tags: seq<string>,
    cores: int, memory: string, swap: string, rootStorage: string, rootBytes: int,
    mounts: seq<Mount>, binds: seq<Bind>, nets: seq<Net>,
    hostname: string, nameservers: seq<string>, domain: string, arch: string, options: LxcOptions,
    extra: Config, state: string, ostemplate: string)

  function HostName(l: LxcSpec): string { if TrimSpace(l.hostname) != "" then TrimSpace(l.hostname) else l.name }

  function Flag(want: Option<bool>): Option<Entry> {
    if want.Some? then Some(Entry(SwitchF(want.value), true)) else None
  }

  function Number(quantity: string): Option<Entry> {
    var m := MemoryMiB(quantity);
    if m.Some? then Some(Entry(IntF(m.value), true)) else None
  }

  function Plain(owned: bool, t: string, stop: bool): Option<Entry> {
    if owned then Some(Entry(TextF(t), stop)) else None
  }

  /** What the manifest owns at a fixed key. */
  function FixedEntry(l: LxcSpec, k: Key): Option<Entry> {
    match k
    case Cores => Some(Entry(IntF(l.cores), true))
    case Memory => Number(l.memory)
    case Swap => if l.swap != "" then Number(l.swap) else None
    case Arch => Plain(l.arch != "", l.arch, true)
    case Hostname => Plain(true, HostName(l), false)
    case NameServer => if l.nameservers != [] then Some(Entry(NameserverF(Join(l.nameservers, ",")), false)) else None
    case SearchDomain => Plain(l.domain != "", l.domain, false)
    case Description => if l.description != "" then Some(Entry(DescriptionF(l.description), false)) else None
    case Tags => Some(Entry(TagsF(AllTags(l.tags)), false))
    case Rootfs => Some(Entry(RootF(l.rootStorage, l.rootBytes), true))
    case Protection => Flag(l.options.protection)
    case Onboot => Flag(l.options.onboot)
    case Console => Flag(l.options.console)
    case Features => if l.options.nesting.Some? then Some(Entry(NestingF(l.options.nesting.value), true)) else None
    case Startup => Plain(l.options.startup != "", l.options.startup, true)
    case _ => None
  }

  const FIXED_KEYS: set<Key> :=
    {Cores, Memory, Swap, Arch, Hostname, NameServer, SearchDomain, Description, Tags, Rootfs, Protection, Onboot,
     Console, Features, Startup}

  function FixedTable(l: LxcSpec): Table {
    map k | k in FIXED_KEYS && FixedEntry(l, k).Some? :: FixedEntry(l, k).value
  }

  /** One numbered slot; every change of a slot needs a stopped guest. */
  datatype Slot = Slot(name: string, field: Field)

  function NameOr(slot: string, prefix: string, i: nat): string { if slot != "" then slot else prefix + Itoa(i) }

  function MountSlots(l: LxcSpec): seq<Slot> {
    seq(|l.mounts|, i requires 0 <= i < |l.mounts| => Slot(NameOr(l.mounts[i].slot, "mp", i), MountF(l.mounts[i])))
  }

  /** Bind slots are numbered after the allocated mount points. */
  function BindSlots(l: LxcSpec): seq<Slot> {
    seq(|l.binds|, i requires 0 <= i < |l.binds| =>
      Slot(NameOr(l.binds[i].slot, "mp", |l.mounts| + i), BindF(l.binds[i])))
  }

  function NetSlots(l: LxcSpec): seq<Slot> {
    seq(|l.nets|, i requires 0 <= i < |l.nets| =>
      Slot(NameOr(l.nets[i].slot, "net", i), NetF(l.nets[i])))
  }

  function Slots(l: LxcSpec): seq<Slot> { MountSlots(l) + BindSlots(l) + NetSlots(l) }

  function SlotTable(slots: seq<Slot>, n: nat): Table
    requires n <= |slots|
  {
    if n == 0 then map[] else SlotTable(slots, n - 1)[Dev(slots[n - 1].name) := Entry(slots[n - 1].field, true)]
  }

  /** Everything the manifest owns. */
  function OwnedTable(l: LxcSpec): Table { FixedTable(l) + SlotTable(Slots(l), |Slots(l)|) }

  // ----- well-formed manifests -----

  predicate IsMpSlot(s: string) { |s| >= 3 && s[..2] == "mp" && AllDigits(s[2..]) }

  predicate IsNetSlot(s: string) { |s| >= 4 && s[..3] == "net" && AllDigits(s[3..]) }

  predicate SlotClean(s: Slot) {
    && CleanField(s.field)
    && (s.field.MountF? || s.field.BindF? || s.field.NetF?)
    && (if s.field.NetF? then IsNetSlot(s.name) else IsMpSlot(s.name))
  }

  predicate DistinctSlots(slots: seq<Slot>) {
    forall i, j | 0 <= i < j < |slots| :: slots[i].name != slots[j].name
  }

  /** The schema's validation plus distinct, well-formed slots and values without separators. */
  predicate WellFormed(l: LxcSpec) {
    && l.node != "" && l.vmid > 0 && l.cores > 0 && MemoryMiB(l.memory).Some? && l.template != ""
    && (l.swap != "" ==> MemoryMiB(l.swap).Some?)
    && StorageId(l.rootStorage) && l.rootBytes >= 0
    && l.state in {"", "started", "stopped"}
    && (forall t | t in l.tags :: CleanTag(t))
    && (forall s | s in Slots(l) :: SlotClean(s))
    && DistinctSlots(Slots(l))
    && (forall k | k in l.extra :: ExtraKey(k))
  }

  /** Passthrough keys may not be owned keys or numbered slots. */
  predicate ExtraKey(k: Key) {
    && k !in FIXED_KEYS && k !in {TemplateFlag, Nesting, Unprivileged, Keyctl, Fuse, Ostemplate}
    && (k.Dev? ==> !HasPrefix(k.name, "net") && !HasPrefix(k.name, "mp"))
  }

  // ----- the table -----

  lemma {:induction false} SlotHeld(slots: seq<Slot>, n: nat, i: nat)
    requires i < n <= |slots| && DistinctSlots(slots)
    ensures Dev(slots[i].name) in SlotTable(slots, n) && SlotTable(slots, n)[Dev(slots[i].name)] == Entry(slots[i].field, true)
  {
    hide DistinctSlots;
    var last := slots[n - 1];
    SlotTableGrows(SlotTable(slots, n - 1), Dev(last.name), Entry(last.field, true));
    if i < n - 1 {
      SlotHeld(slots, n - 1, i);
      LaterDiffers(slots, n - 1);
    }
  }

  lemma {:induction false} SlotSource(slots: seq<Slot>, n: nat, k: Key)
    requires n <= |slots| && k in SlotTable(slots, n)
    ensures exists i | 0 <= i < n :: k == Dev(slots[i].name)
  {
    if k == Dev(slots[n - 1].name) {
      assert 0 <= n - 1 < n;
    } else {
      SlotSource(slots, n - 1, k);
      var i :| 0 <= i < n - 1 && k == Dev(slots[i].name);
      assert 0 <= i < n;
    }
  }

  lemma SlotTableAt(slots: seq<Slot>, n: nat)
    requires n <= |slots| && DistinctSlots(slots)
    ensures forall i | 0 <= i < n ::
              Dev(slots[i].name) in SlotTable(slots, n) && SlotTable(slots, n)[Dev(slots[i].name)] == Entry(slots[i].field, true)
    ensures forall k | k in SlotTable(slots, n) :: exists i | 0 <= i < n :: k == Dev(slots[i].name)
  {
    hide DistinctSlots, SlotTable;
    forall i | 0 <= i < n
      ensures Dev(slots[i].name) in SlotTable(slots, n) && SlotTable(slots, n)[Dev(slots[i].name)] == Entry(slots[i].field, true)
    {
      SlotHeld(slots, n, i);
    }
    forall k | k in SlotTable(slots, n) ensures exists i | 0 <= i < n :: k == Dev(slots[i].name) {
      SlotSource(slots, n, k);
    }
  }

  lemma SlotTableGrows(t: Table, k: Key, e: Entry)
    ensures k in t[k := e] && t[k := e][k] == e
    ensures forall x | x != k :: x in t[k := e] <==> x in t
    ensures forall x | x != k && x in t :: t[k := e][x] == t[x]
  {
  }

  lemma LaterDiffers(slots: seq<Slot>, n: nat)
    requires n < |slots| && DistinctSlots(slots)
    ensures forall i | 0 <= i < n :: slots[i].name != slots[n].name
  {
    forall i | 0 <= i < n ensures slots[i].name != slots[n].name {
      assert i < n;
    }
  }

  /** Where an owned key comes from. */
  lemma Origin(l: LxcSpec, k: Key)
    requires WellFormed(l)
    ensures k in OwnedTable(l) && !k.Dev? ==> k in FIXED_KEYS && FixedEntry(l, k) == Some(OwnedTable(l)[k])
    ensures k in FIXED_KEYS && FixedEntry(l, k).Some? ==> k in OwnedTable(l) && OwnedTable(l)[k] == FixedEntry(l, k).value
    ensures k in OwnedTable(l) && k.Dev? ==>
              exists i | 0 <= i < |Slots(l)| :: k == Dev(Slots(l)[i].name) && OwnedTable(l)[k] == Entry(Slots(l)[i].field, true)
    ensures forall i | 0 <= i < |Slots(l)| ::
              Dev(Slots(l)[i].name) in OwnedTable(l) && OwnedTable(l)[Dev(Slots(l)[i].name)] == Entry(Slots(l)[i].field, true)
  {
    hide FixedEntry, SlotClean, Slots, ExtraKey, CleanTag, SlotTable, StorageId;
    var slots := Slots(l);
    SlotTableAt(slots, |slots|);
    forall x | x in FixedTable(l) ensures !x.Dev? {
      NoDevFixed(x);
    }
    if k in FIXED_KEYS {
      NoDevFixed(k);
    }
  }

  lemma NoDevFixed(k: Key)
    requires k in FIXED_KEYS
    ensures !k.Dev? && k != Nesting && !DriveKey(k)
  {
  }

  lemma FixedEntryClean(l: LxcSpec, k: Key)
    requires WellFormed(l) && FixedEntry(l, k).Some?
    ensures var f := FixedEntry(l, k).value.field;
            && CleanField(f) && (f.NestingF? ==> k == Features) && !f.CloudInitF?
  {
    hide StorageId, MemoryMiB, Join, TrimSpace, SlotClean, Slots, ExtraKey, CleanTag, DistinctSlots;
    if k == Tags {
      TagsClean(l.tags);
    }
  }

  lemma SlotNotDrive(s: Slot)
    requires SlotClean(s)
    ensures !DriveKey(Dev(s.name)) && CleanField(s.field)
    ensures s.field.MountF? || s.field.BindF? || s.field.NetF?
  {
    hide CleanField;
    assert s.name[0] == 'm' || s.name[0] == 'n';
  }

  /** The owned table of a well-formed manifest meets the hypotheses of the fixpoint laws. */
  lemma TableIsClean(l: LxcSpec)
    requires WellFormed(l)
    ensures CleanTable(OwnedTable(l)) && CreateKeys(OwnedTable(l)) && Nesting !in OwnedTable(l)
    ensures forall k | k in OwnedTable(l) ::
              var f := OwnedTable(l)[k].field;
              !f.CloudInitF? && !f.EfiF? && !f.TpmF? && (f.NestingF? ==> k == Features)
  {
    hide FixedEntry, OwnedTable, DriveKey, CleanField, Slots, SlotClean;
    forall k | k in OwnedTable(l)
      ensures var f := OwnedTable(l)[k].field;
              && CleanField(f) && k != Nesting && !DriveKey(k) && (f.NestingF? ==> k == Features)
              && !f.CloudInitF? && !f.EfiF? && !f.TpmF?
    {
      Origin(l, k);
      if k.Dev? {
        var i :| 0 <= i < |Slots(l)| && k == Dev(Slots(l)[i].name) && OwnedTable(l)[k] == Entry(Slots(l)[i].field, true);
        SlotNotDrive(Slots(l)[i]);
      } else {
        NoDevFixed(k);
        FixedEntryClean(l, k);
        NoEfi(l, k);
      }
    }
  }

  lemma NoEfi(l: LxcSpec, k: Key)
    requires FixedEntry(l, k).Some?
    ensures !FixedEntry(l, k).value.field.EfiF? && !FixedEntry(l, k).value.field.TpmF?
  {
  }

  // ----- drift -----

  datatype Drifted = Drifted(params: Config, stop: bool)

  function Drift(l: LxcSpec, cfg: Config): Option<Drifted> {
    var params := DriftParams(OwnedTable(l), cfg);
    if params == map[] then None else Some(Drifted(params, DriftStops(OwnedTable(l), cfg)))
  }

  function Applied(cfg: Config, d: Drifted): Config { Written(cfg, d.params, {}) }

  predicate Reported(l: LxcSpec, cfg: Config) { RewritesReported(OwnedTable(l), cfg) }

  /** The one container field that can be written again and again: nesting beside a legacy top-level
      key that disagrees with the manifest. */
  predicate StuckDrift(l: LxcSpec, cfg: Config) {
    l.options.nesting.Some? && Get(cfg, Nesting) != "" && Get(cfg, Nesting) != BoolWire(l.options.nesting.value)
  }

  lemma StuckExactly(l: LxcSpec, cfg: Config)
    requires WellFormed(l)
    ensures StuckTable(OwnedTable(l), cfg) <==> StuckDrift(l, cfg)
  {
    hide OwnedTable, WellFormed, BoolWire, Propose, Stuck, FixedEntry, CleanTable, CreateKeys, Get;
    TableIsClean(l);
    Origin(l, Features);
    var t := OwnedTable(l);
    StuckKey(l);
    forall k | k in t ensures Propose(t[k].field, k, cfg).Some? && Stuck(t[k].field, k, cfg) <==> WritesAgain(t[k].field, cfg) {
      StuckFields(t[k].field, k, cfg);
    }
    if StuckTable(t, cfg) {
      var k :| k in t && Propose(t[k].field, k, cfg).Some? && Stuck(t[k].field, k, cfg);
      assert k == Features;
    }
    if StuckDrift(l, cfg) {
      assert Features in t && Propose(t[Features].field, Features, cfg).Some? && Stuck(t[Features].field, Features, cfg);
    }
  }

  predicate WritesAgain(f: Field, cfg: Config) {
    f.NestingF? && Get(cfg, Nesting) != "" && Get(cfg, Nesting) != BoolWire(f.nesting)
  }

  lemma StuckFields(f: Field, k: Key, cfg: Config)
    requires !f.EfiF? && !f.CloudInitF?
    ensures Propose(f, k, cfg).Some? && Stuck(f, k, cfg) <==> WritesAgain(f, cfg)
  {
    hide NameserverEquals, BoolWire, FeaturesNesting, DiskPropose, MountPropose, BindPropose, NetMatches, NicMatches, PciMatches, TagsEqual, RootMatches, CdromMatches, TpmMatches;
  }

  lemma StuckKey(l: LxcSpec)
    ensures FixedEntry(l, Features) ==
            if l.options.nesting.Some? then Some(Entry(NestingF(l.options.nesting.value), true)) else None
    ensures Features in FIXED_KEYS
  {
  }

  // ----- the data-loss guard -----

  /** The live value at a storage slot differs in a way only a data-destroying write could change. */
  predicate Blocked(f: Field, cur: string) {
    match f
    case RootF(pool, bytes) => !IsNewSlot(cur) && StorageDiffers(Parse(cur), Parse(Alloc(pool, bytes)))
    case MountF(m) => MountBlocked(m, cur)
    case BindF(b) => BindBlocked(b, cur)
    case _ => false
  }

  function BlockedSlots(slots: seq<Slot>, n: nat, cfg: Config): set<Anomaly>
    requires n <= |slots|
  {
    if n == 0 then {}
    else
      var k := Dev(slots[n - 1].name);
      BlockedSlots(slots, n - 1, cfg) + if Blocked(slots[n - 1].field, Get(cfg, k)) then {StorageDrift(k)} else {}
  }

  lemma {:induction false} BlockedSlotsAre(slots: seq<Slot>, n: nat, cfg: Config, a: Anomaly)
    requires n <= |slots|
    ensures a in BlockedSlots(slots, n, cfg) <==>
            exists i | 0 <= i < n :: Blocked(slots[i].field, Get(cfg, Dev(slots[i].name))) && a == StorageDrift(Dev(slots[i].name))
  {
    hide Blocked;
    if n > 0 {
      BlockedSlotsAre(slots, n - 1, cfg, a);
      if a in BlockedSlots(slots, n - 1, cfg) {
        var i :| 0 <= i < n - 1 && Blocked(slots[i].field, Get(cfg, Dev(slots[i].name))) && a == StorageDrift(Dev(slots[i].name));
        assert 0 <= i < n;
      }
      assert 0 <= n - 1 < n;
    }
  }

  /** PVE runs a container unprivileged unless told otherwise. */
  predicate RunsUnprivileged(cfg: Config) { Unprivileged in cfg ==> PveInt(cfg[Unprivileged]) == 1 }

  predicate NoWireForm(want: Option<bool>, live: string) { want == Some(true) && PveInt(live) != 1 }

  function OptionAnomalies(o: LxcOptions, cfg: Config): set<Anomaly> {
    (if o.unprivileged.Some? && o.unprivileged.value != RunsUnprivileged(cfg) then {CreateOnly(Unprivileged)} else {})
    + (if NoWireForm(o.keyctl, Get(cfg, Keyctl)) then {NotConvergable(Keyctl)} else {})
    + (if NoWireForm(o.fuse, Get(cfg, Fuse)) then {NotConvergable(Fuse)} else {})
  }

  /** What one drift check records: blocked storage and options without a wire form. */
  function DiskAnomalies(l: LxcSpec, cfg: Config): set<Anomaly> {
    (if Blocked(RootF(l.rootStorage, l.rootBytes), Get(cfg, Rootfs)) then {StorageDrift(Rootfs)} else {})
    + BlockedSlots(Slots(l), |Slots(l)|, cfg) + OptionAnomalies(l.options, cfg)
  }

  function MpKeys(l: LxcSpec): set<Key> {
    (set s | s in MountSlots(l) :: Dev(s.name)) + (set s | s in BindSlots(l) :: Dev(s.name))
  }

  function LiveOnlyMounts(l: LxcSpec, cfg: Config): set<Anomaly> {
    set k | k in cfg && k.Dev? && IsMpSlot(k.name) && k !in MpKeys(l) && !IsNoneSlot(cfg[k]) :: LiveOnly(k)
  }

  function Anomalies(l: LxcSpec, cfg: Config): set<Anomaly> { LiveOnlyMounts(l, cfg) + DiskAnomalies(l, cfg) }

  predicate DataKey(k: Key) { k == Rootfs || (k.Dev? && IsMpSlot(k.name)) }

  /** The same host directory up to trailing slashes. */
  predicate SameHost(a: string, b: string) {
    TrimSlashes(ParseBind(a).host) == TrimSlashes(ParseBind(b).host)
  }

  lemma BlockedProposesNothing(f: Field, k: Key, cfg: Config)
    requires Blocked(f, Get(cfg, k))
    ensures Propose(f, k, cfg).None?
  {
    hide Parse, StorageDiffers, IsNewSlot, Alloc, IsBind, ParseBind, MountRewrite, MountNeeds, TrimSlashes, RootMatches;
  }

  lemma RootKept(pool: string, bytes: int, cfg: Config)
    requires !IsNewSlot(Get(cfg, Rootfs))
    ensures Propose(RootF(pool, bytes), Rootfs, cfg).None?
  {
    hide Parse, IsNewSlot, Alloc, RootMatches;
  }

  lemma MountKept(m: Mount, k: Key, cfg: Config)
    requires hide *; CleanMount(m) && Propose(MountF(m), k, cfg).Some? && !IsNewSlot(Get(cfg, k)) && ReportForm(Get(cfg, k))
    ensures SameVolume(Propose(MountF(m), k, cfg).value, Get(cfg, k))
  {
    hide Parse, IsNewSlot, CleanMount, ReportForm, MountRewrite, MountNeeds, MountBlocked, MountCreateWire;
    MountRewriteKeepsVolume(Get(cfg, k), m);
  }

  lemma BindKept(b: Bind, k: Key, cfg: Config)
    requires hide *; CleanBind(b) && Propose(BindF(b), k, cfg).Some? && !IsNewSlot(Get(cfg, k))
    ensures ParseBind(Get(cfg, k)).host != "" ==> SameHost(Propose(BindF(b), k, cfg).value, Get(cfg, k))
    ensures IsBind(Get(cfg, k))
  {
    hide IsNewSlot, CleanBind, BindWire, BindNeeds, IsBind, ParseBind, TrimSlashes;
    BindRoundTrip(b);
  }

  lemma SlotAt(l: LxcSpec, i: nat)
    requires WellFormed(l) && i < |Slots(l)|
    ensures SlotClean(Slots(l)[i])
    ensures forall j | 0 <= j < |Slots(l)| && j != i :: Slots(l)[j].name != Slots(l)[i].name
  {
    hide SlotClean, Slots;
    assert Slots(l)[i] in Slots(l);
    forall j | 0 <= j < |Slots(l)| && j != i ensures Slots(l)[j].name != Slots(l)[i].name {
      assert j < i ==> Slots(l)[j].name != Slots(l)[i].name;
      assert i < j ==> Slots(l)[i].name != Slots(l)[j].name;
    }
  }

  lemma StorageAnomaly(l: LxcSpec, cfg: Config, k: Key)
    ensures StorageDrift(k) in Anomalies(l, cfg) <==>
              (k == Rootfs && Blocked(RootF(l.rootStorage, l.rootBytes), Get(cfg, Rootfs)))
              || exists i | 0 <= i < |Slots(l)| :: Blocked(Slots(l)[i].field, Get(cfg, Dev(Slots(l)[i].name))) && k == Dev(Slots(l)[i].name)
  {
    hide Blocked, Slots, MountSlots, BindSlots, NoWireForm, RunsUnprivileged, MpKeys, IsMpSlot, IsNoneSlot;
    BlockedSlotsAre(Slots(l), |Slots(l)|, cfg, StorageDrift(k));
  }

  /** Over all of drift: an occupied rootfs is never written, an occupied mount slot keeps the live
      pool, volume name and size, an occupied bind keeps its host directory, and no slot that is
      written is also reported as a mismatch. */
  lemma LxcDriftKeepsData(l: LxcSpec, cfg: Config, k: Key)
    requires hide *; WellFormed(l) && DataKey(k) && !IsNewSlot(Get(cfg, k))
    requires k in DriftParams(OwnedTable(l), cfg)
    ensures k.Dev? && k in OwnedTable(l)
    ensures var f := OwnedTable(l)[k].field;
            || (f.MountF? && (ReportForm(Get(cfg, k)) ==> SameVolume(DriftParams(OwnedTable(l), cfg)[k], Get(cfg, k))))
            || (f.BindF? && IsBind(Get(cfg, k))
                && (ParseBind(Get(cfg, k)).host != "" ==> SameHost(DriftParams(OwnedTable(l), cfg)[k], Get(cfg, k))))
    ensures StorageDrift(k) !in Anomalies(l, cfg)
  {
    hide OwnedTable, FixedEntry, Slots, Propose, IsNewSlot, ReportForm, SameVolume, SameHost, CleanMount, CleanBind,
         Blocked, WellFormed, Anomalies, Parse, ParseBind, IsBind, Get;
    Origin(l, k);
    StorageAnomaly(l, cfg, k);
    if k == Rootfs {
      RootEntry(l);
      RootKept(l.rootStorage, l.rootBytes, cfg);
      assert false;
    } else {
      var i :| 0 <= i < |Slots(l)| && k == Dev(Slots(l)[i].name) && OwnedTable(l)[k] == Entry(Slots(l)[i].field, true);
      SlotAt(l, i);
      MpIsMount(Slots(l)[i]);
      var f := Slots(l)[i].field;
      if Blocked(f, Get(cfg, k)) {
        BlockedProposesNothing(f, k, cfg);
        assert false;
      }
      if f.MountF? {
        if ReportForm(Get(cfg, k)) {
          MountKept(f.mount, k, cfg);
        }
      } else {
        BindKept(f.bind, k, cfg);
      }
    }
  }

  lemma RootEntry(l: LxcSpec)
    ensures FixedEntry(l, Rootfs) == Some(Entry(RootF(l.rootStorage, l.rootBytes), true)) && Rootfs in FIXED_KEYS
  {
  }

  lemma MpIsMount(s: Slot)
    requires SlotClean(s) && IsMpSlot(s.name)
    ensures (s.field.MountF? && CleanMount(s.field.mount)) || (s.field.BindF? && CleanBind(s.field.bind))
  {
    hide CleanMount, CleanBind;
    assert s.name[0] == 'm';
  }

  /** A storage mismatch is reported and its slot is left alone. */
  lemma LxcReportsMismatch(l: LxcSpec, cfg: Config, k: Key)
    requires hide *; WellFormed(l) && k in OwnedTable(l) && Blocked(OwnedTable(l)[k].field, Get(cfg, k))
    ensures k !in DriftParams(OwnedTable(l), cfg)
    ensures StorageDrift(k) in Anomalies(l, cfg)
  {
    hide OwnedTable, Slots, Propose, Blocked, WellFormed, Anomalies, Get, FixedEntry;
    Origin(l, k);
    StorageAnomaly(l, cfg, k);
    BlockedProposesNothing(OwnedTable(l)[k].field, k, cfg);
    if !k.Dev? {
      BlockedIsRoot(l, k, Get(cfg, k));
    }
  }

  lemma BlockedIsRoot(l: LxcSpec, k: Key, cur: string)
    requires FixedEntry(l, k).Some? && Blocked(FixedEntry(l, k).value.field, cur)
    ensures k == Rootfs && FixedEntry(l, k).value.field == RootF(l.rootStorage, l.rootBytes)
  {
    hide MountBlocked, BindBlocked, StorageDiffers, IsNewSlot, Join, HostName;
  }

  // ----- creation -----

  /** Parameters of a create request, without id and start flag; None when an option has no create
      form. */
  function CreateParams(l: LxcSpec): Option<Config> {
    if l.options.keyctl == Some(true) || l.options.fuse == Some(true) then None
    else Some(CreateTable(OwnedTable(l)) + CreateOnlyParams(l) + l.extra)
  }

  function CreateOnlyParams(l: LxcSpec): Config {
    (if l.ostemplate != "" then map[Ostemplate := l.ostemplate] else map[])
    + (if l.options.unprivileged.Some? then map[Unprivileged := BoolWire(l.options.unprivileged.value)] else map[])
  }

  lemma CreateOnlyKeys(l: LxcSpec)
    ensures forall k | k in CreateOnlyParams(l) :: !k.Dev? && k !in FIXED_KEYS && k != Nesting
  {
  }

  /** A fresh container needs nothing further once PVE has stored its create request. */
  lemma LxcCreateSettles(l: LxcSpec)
    requires hide *; WellFormed(l) && CreateParams(l).Some?
    ensures Drift(l, CreatedConfig(l.vmid, CreateParams(l).value)).None?
  {
    hide OwnedTable, FixedEntry, CreateValue, Propose, CleanField, StorageId, Slots, CreateOnlyParams, Join, WellFormed,
         DriftParams, CreatedConfig, CreateTable, CleanTable, CreateKeys;
    TableIsClean(l);
    CreateOnlyKeys(l);
    NestingNotExtra(l);
    CreateParts(l);
    CreateSettles(OwnedTable(l), l.vmid, CreateOnlyParams(l) + l.extra);
  }

  /** The request is the owned table plus parameters drift never looks at. */
  lemma CreateParts(l: LxcSpec)
    requires WellFormed(l) && CreateParams(l).Some?
    ensures CreateParams(l).value == (CreateOnlyParams(l) + l.extra) + CreateTable(OwnedTable(l))
    ensures (CreateOnlyParams(l) + l.extra).Keys !! OwnedTable(l).Keys
  {
    hide OwnedTable, FixedEntry, CreateValue, Slots, CreateOnlyParams, WellFormed;
    var t, head := OwnedTable(l), CreateOnlyParams(l);
    CreateOnlyKeys(l);
    forall k | k in t ensures k !in head && k !in l.extra {
      Origin(l, k);
      if k in l.extra {
        ExtraUnowned(l, k);
      }
    }
    assert CreateTable(t) + head + l.extra == (head + l.extra) + CreateTable(t);
  }

  lemma NestingNotExtra(l: LxcSpec)
    requires WellFormed(l)
    ensures Nesting !in l.extra
  {
    hide SlotClean, Slots, CleanTag, StorageId, DistinctSlots;
  }

  lemma ExtraUnowned(l: LxcSpec, k: Key)
    requires WellFormed(l) && k in l.extra
    ensures k !in OwnedTable(l)
  {
    hide OwnedTable, FixedEntry, Slots, CleanField;
    Origin(l, k);
    if k in OwnedTable(l) && k.Dev? {
      var i :| 0 <= i < |Slots(l)| && k == Dev(Slots(l)[i].name) && OwnedTable(l)[k] == Entry(Slots(l)[i].field, true);
      SlotAt(l, i);
      SlotPrefix(Slots(l)[i]);
    }
  }

  lemma SlotPrefix(s: Slot)
    requires SlotClean(s)
    ensures HasPrefix(s.name, "mp") || HasPrefix(s.name, "net")
  {
    hide CleanField;
  }

  // ----- the resource with its anomaly field -----

  /** A decoded LXC manifest. `lxcDiskAnoms` is what the latest drift check recorded. */
  class LxcResource {
    const spec: LxcSpec
    var lxcDiskAnoms: set<Anomaly>

    constructor (spec: LxcSpec)
      ensures this.spec == spec && lxcDiskAnoms == {}
    {
      this.spec := spec;
      lxcDiskAnoms := {};
    }

    /** Drift re-derives the anomaly field from nothing, so repeated checks do not accumulate. */
    method CheckDrift(current: Config) returns (drift: Option<Drifted>)
      requires hide *; WellFormed(spec)
      modifies this`lxcDiskAnoms
      ensures drift == Drift(spec, current)
      ensures lxcDiskAnoms == DiskAnomalies(spec, current)
    {
      hide WellFormed, OwnedTable, FixedTable, SlotTable, Slots, Propose, Blocked, OptionAnomalies, DriftParams, DriftStops, FixedEntry, Get;
      lxcDiskAnoms := {};
      var upd, stop := FixedDrift(spec, current);
      if Blocked(RootF(spec.rootStorage, spec.rootBytes), Get(current, Rootfs)) {
        lxcDiskAnoms := lxcDiskAnoms + {StorageDrift(Rootfs)};
      }
      ghost var root := lxcDiskAnoms;
      var slots := Slots(spec);
      NoSlots(spec, slots);
      for i := 0 to |slots|
        invariant upd == DriftParams(TableUpTo(spec, slots, i), current)
        invariant stop == DriftStops(TableUpTo(spec, slots, i), current)
        invariant lxcDiskAnoms == root + BlockedSlots(slots, i, current)
      {
        var slot := Dev(slots[i].name);
        var value := Propose(slots[i].field, slot, current);
        NextSlot(spec, i, current);
        if value.Some? {
          upd := upd[slot := value.value];
          stop := true;
        }
        if Blocked(slots[i].field, Get(current, slot)) {
          lxcDiskAnoms := lxcDiskAnoms + {StorageDrift(slot)};
        }
      }
      AllSlots(spec);
      lxcDiskAnoms := lxcDiskAnoms + OptionAnomalies(spec.options, current);
      if upd == map[] {
        return None;
      }
      drift := Some(Drifted(upd, stop));
    }

    /** Anomalies of the config last checked: live-only mount points and the recorded mismatches. */
    method DriftAnomalies(current: Config) returns (out: set<Anomaly>)
      requires lxcDiskAnoms == DiskAnomalies(spec, current)
      ensures out == Anomalies(spec, current)
    {
      hide DiskAnomalies, LiveOnlyMounts;
      out := LiveOnlyMounts(spec, current) + lxcDiskAnoms;
    }
  }

  function TableUpTo(l: LxcSpec, slots: seq<Slot>, n: nat): Table
    requires n <= |slots|
  {
    FixedTable(l) + SlotTable(slots, n)
  }

  lemma NoSlots(l: LxcSpec, slots: seq<Slot>)
    ensures TableUpTo(l, slots, 0) == FixedTable(l)
  {
  }

  lemma AllSlots(l: LxcSpec)
    ensures TableUpTo(l, Slots(l), |Slots(l)|) == OwnedTable(l)
  {
    hide Slots, SlotTable, FixedTable;
  }

  lemma NextSlot(l: LxcSpec, i: nat, cfg: Config)
    requires hide *; WellFormed(l) && i < |Slots(l)|
    ensures var t, k, f := TableUpTo(l, Slots(l), i), Dev(Slots(l)[i].name), Slots(l)[i].field;
            && DriftParams(TableUpTo(l, Slots(l), i + 1), cfg) ==
               (if Propose(f, k, cfg).Some? then DriftParams(t, cfg)[k := Propose(f, k, cfg).value] else DriftParams(t, cfg))
            && DriftStops(TableUpTo(l, Slots(l), i + 1), cfg) == (DriftStops(t, cfg) || Propose(f, k, cfg).Some?)
  {
    hide Slots, Propose, DriftParams, DriftStops, TableUpTo, WellFormed;
    var t, k, e := TableUpTo(l, Slots(l), i), Dev(Slots(l)[i].name), Entry(Slots(l)[i].field, true);
    SlotIsNew(l, i);
    TableGrows(l, Slots(l), i);
    ParamsExtend(t, k, e, cfg);
    StopsExtend(t, k, e, cfg);
  }

  lemma SlotIsNew(l: LxcSpec, i: nat)
    requires WellFormed(l) && i < |Slots(l)|
    ensures Dev(Slots(l)[i].name) !in TableUpTo(l, Slots(l), i)
  {
    hide Slots, SlotTable, FixedEntry, WellFormed;
    var k := Dev(Slots(l)[i].name);
    SlotAt(l, i);
    if k in FixedTable(l) {
      NoDevFixed(k);
    }
    if k in SlotTable(Slots(l), i) {
      SlotSource(Slots(l), i, k);
    }
  }

  lemma TableGrows(l: LxcSpec, slots: seq<Slot>, i: nat)
    requires i < |slots|
    ensures TableUpTo(l, slots, i + 1) == TableUpTo(l, slots, i)[Dev(slots[i].name) := Entry(slots[i].field, true)]
  {
    hide FixedTable;
  }

  /** The fixed keys, one after the other. */
  method FixedDrift(l: LxcSpec, current: Config) returns (upd: Config, stop: bool)
    ensures upd == DriftParams(FixedTable(l), current)
    ensures stop == DriftStops(FixedTable(l), current)
  {
    hide Propose, FixedEntry, DriftParams, DriftStops, FixedTable;
    upd, stop := map[], false;
    var table := FixedTable(l);
    var todo := table.Keys;
    assert Restrict(table, {}) == map[];
    NothingDrifts(current);
    while todo != {}
      invariant todo <= table.Keys
      invariant upd == DriftParams(Restrict(table, table.Keys - todo), current)
      invariant stop == DriftStops(Restrict(table, table.Keys - todo), current)
      decreases todo
    {
      var k :| k in todo;
      ghost var before := Restrict(table, table.Keys - todo);
      var value := Propose(table[k].field, k, current);
      assert Restrict(table, table.Keys - (todo - {k})) == before[k := table[k]];
      ParamsExtend(before, k, table[k], current);
      StopsExtend(before, k, table[k], current);
      if value.Some? {
        upd := upd[k := value.value];
        stop := stop || table[k].stop;
      }
      todo := todo - {k};
    }
    assert Restrict(table, table.Keys - todo) == table;
  }

  lemma NothingDrifts(cfg: Config)
    ensures DriftParams(map[], cfg) == map[] && !DriftStops(map[], cfg)
  {
  }
}
