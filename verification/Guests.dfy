/** Drift, creation and cloning of guests seen through the planner: what convergence needs of them. */
module Guests {
  import opened Text
  import opened Quantity
  import opened Devices
  import opened VmDrives
  import opened Owned
  import opened Updates
  import Reports
  import opened Desired
  import opened Plan
  import opened World
  import Vm
  import Lxc

  /** Well-formed manifests whose values, volumes aside, do not read as new volumes. */
  predicate WellFormed(r: Resource) {
    match r.body
    case Machine(v) => Vm.WellFormed(v) && PlainTable(Vm.OwnedTable(v)) && (Vm.IsCloneBacked(v) ==> PlainParams(v))
    case Container(l) => Lxc.WellFormed(l) && PlainTable(Lxc.OwnedTable(l))
    case File(_) => true
  }

  /** No value of a clone reads as a new volume, its cloud-init drive aside. */
  predicate PlainParams(v: Vm.VmSpec) {
    forall k | k in Vm.CreateParams(v) :: IsCreateForm(Vm.CreateParams(v)[k]) ==> k == Ide2 && v.hw.ciEnabled
  }

  function TableOf(r: Resource): Table {
    match r.body
    case Machine(v) => Vm.OwnedTable(v)
    case Container(l) => Lxc.OwnedTable(l)
    case File(_) => map[]
  }

  function DeletesOf(r: Resource, cfg: Config): set<Key> {
    match r.body
    case Machine(v) => Vm.ClearKeys(v, cfg)
    case _ => {}
  }

  lemma DriftIs(r: Resource, cfg: Config)
    ensures DriftOf(r, cfg) ==
            if DriftParams(TableOf(r), cfg) == map[] && DeletesOf(r, cfg) == {} then None
            else Some(Change(DriftParams(TableOf(r), cfg), DeletesOf(r, cfg), DriftStops(TableOf(r), cfg)))
  {
    hide DriftParams, DriftStops, Vm.OwnedTable, Lxc.OwnedTable, Vm.ClearKeys;
    if r.body.File? {
      NoDrift(cfg);
    }
  }

  lemma NoDrift(cfg: Config)
    ensures DriftParams(map[], cfg) == map[]
  {
  }

  /** Live configs one update can settle: drives to rewrite are allocated volumes, no EFI type is pinned
      against the live one, no cloud-init drive would be written over another volume, no legacy nesting
      key disagrees. */
  predicate Tractable(r: Resource, cfg: Config) {
    && RewritesAllocated(TableOf(r), cfg)
    && match r.body
       case Machine(v) => !Vm.EfiPinned(v, cfg) && !DriveRefused(v, cfg)
       case Container(l) => !Lxc.StuckDrift(l, cfg)
       case File(_) => true
  }

  /** The guards in terms of the owned table. */
  predicate TractableTable(t: Table, cfg: Config) { RewritesAllocated(t, cfg) && !StuckTable(t, cfg) && !RefusedTable(t, cfg) }

  lemma TractableIs(r: Resource, cfg: Config)
    requires WellFormed(r) && !r.body.File?
    ensures Tractable(r, cfg) <==> TractableTable(TableOf(r), cfg)
  {
    hide Vm.OwnedTable, Lxc.OwnedTable, Vm.WellFormed, Lxc.WellFormed, PlainTable, PlainParams, RewritesAllocated, StuckTable, RefusedTable, Vm.EfiPinned,
         DriveRefused, Lxc.StuckDrift, Vm.StuckDrift;
    match r.body
    case Machine(v) =>
      Vm.VmStuckExactly(v, cfg);
      Vm.StuckIs(v, cfg);
      VmRefusal(v, cfg);
    case Container(l) =>
      Lxc.StuckExactly(l, cfg);
      NoDrives(l, cfg);
  }

  /** Containers own no cloud-init drive. */
  lemma NoDrives(l: Lxc.LxcSpec, cfg: Config)
    requires Lxc.WellFormed(l)
    ensures !RefusedTable(Lxc.OwnedTable(l), cfg) && Reports.ReportableTable(Lxc.OwnedTable(l))
  {
    hide Lxc.OwnedTable, Lxc.WellFormed, Propose, IsNewSlot;
    Lxc.TableIsClean(l);
  }

  lemma TableFacts(r: Resource)
    requires WellFormed(r) && !r.body.File?
    ensures CleanTable(TableOf(r)) && CreateKeys(TableOf(r)) && TemplateFlag !in TableOf(r) && Nesting !in TableOf(r)
    ensures PlainTable(TableOf(r)) && Reports.ReportableTable(TableOf(r))
  {
    hide PlainTable, Reports.ReportableTable, Vm.OwnedTable, Lxc.OwnedTable, CleanTable, CreateKeys, Vm.WellFormed, Lxc.WellFormed, PlainParams, Join, Vm.IsCloneBacked;
    match r.body
    case Machine(v) =>
      Vm.TableIsClean(v);
      NestingUnowned(Vm.OwnedTable(v));
      VmFlag(v);
      VmReportable(v);
    case Container(l) =>
      Lxc.TableIsClean(l);
      LxcFlag(l);
      NoDrives(l, map[]);
  }

  lemma NestingUnowned(t: Table)
    requires CleanTable(t)
    ensures Nesting !in t
  {
    hide CleanField;
  }

  lemma VmFlag(v: Vm.VmSpec)
    requires Vm.WellFormed(v)
    ensures TemplateFlag !in Vm.OwnedTable(v)
  {
    hide Vm.OwnedTable, Vm.WellFormed, Vm.IsDiskSlot, Vm.IsNicSlot, Vm.IsPciSlot, Vm.DiskKey;
    Vm.Origin(v, TemplateFlag);
  }

  lemma LxcFlag(l: Lxc.LxcSpec)
    requires Lxc.WellFormed(l)
    ensures TemplateFlag !in Lxc.OwnedTable(l)
  {
    hide Lxc.OwnedTable, Lxc.WellFormed, Lxc.Slots;
    Lxc.Origin(l, TemplateFlag);
  }

  lemma DeletesFacts(r: Resource, cfg: Config)
    requires WellFormed(r)
    ensures DeletesOf(r, cfg) !! TableOf(r).Keys && Nesting !in DeletesOf(r, cfg) && TemplateFlag !in DeletesOf(r, cfg)
  {
    hide Vm.OwnedTable, Lxc.OwnedTable, Vm.WellFormed, Lxc.WellFormed, PlainParams, Join;
    match r.body
    case Machine(v) =>
      Vm.ClearKeysUnowned(v, cfg);
      FlagNotIdentity(v);
    case _ =>
  }

  lemma FlagNotIdentity(v: Vm.VmSpec)
    ensures TemplateFlag !in Vm.IdentityKeys(v)
  {
  }

  /** On a tractable config one update is taken by PVE and settles. */
  lemma UpdateSettles(r: Resource, cfg: Config)
    requires hide *; WellFormed(r) && !r.body.File? && Tractable(r, cfg) && DriftOf(r, cfg).Some?
    ensures var d := DriftOf(r, cfg).value;
            && Accepts(cfg, d.params, d.deletes) && DriftOf(r, Written(cfg, d.params, d.deletes)).None?
            && TemplateFlag !in d.params && TemplateFlag !in d.deletes
  {
    hide WellFormed, TableOf, DriftStops, Accepts, CleanTable, CreateKeys, StuckTable, RefusedTable, RewritesReported, RewritesAllocated, PlainTable,
         Reports.ReportableTable, Tractable;
    var t, del := TableOf(r), DeletesOf(r, cfg);
    var after := Written(cfg, DriftParams(t, cfg), del);
    DriftIs(r, cfg);
    DriftIs(r, after);
    TractableIs(r, cfg);
    TableFacts(r);
    DeletesFacts(r, cfg);
    AllocatedIsReported(t, cfg);
    AcceptsExactly(t, cfg, del);
    Owned.DriftSettles(t, cfg, del);
    ClearedAfter(r, cfg);
  }

  lemma ClearedAfter(r: Resource, cfg: Config)
    requires WellFormed(r) && !r.body.File?
    ensures DeletesOf(r, Written(cfg, DriftParams(TableOf(r), cfg), DeletesOf(r, cfg))) == {}
  {
    hide DriftParams, Vm.OwnedTable, Lxc.OwnedTable, Vm.WellFormed, Lxc.WellFormed, PlainParams, Join, Vm.ClearKeys;
    match r.body
    case Machine(v) => Vm.NothingToClear(v, cfg);
    case _ =>
  }

  /** A config without drift is tractable. */
  lemma CalmIsTractable(r: Resource, cfg: Config)
    requires WellFormed(r) && !r.body.File? && DriftOf(r, cfg).None?
    ensures Tractable(r, cfg)
  {
    hide TableOf, DriftStops, DeletesOf, Propose, Stuck, Allocated, IsNewSlot, WellFormed, Tractable;
    DriftIs(r, cfg);
    TractableIs(r, cfg);
    NothingProposed(TableOf(r), cfg);
  }

  lemma NothingProposed(t: Table, cfg: Config)
    requires hide *; DriftParams(t, cfg) == map[]
    ensures forall k | k in t :: Propose(t[k].field, k, cfg).None?
  {
    hide Propose;
    forall k | k in t ensures Propose(t[k].field, k, cfg).None? {
      assert k !in DriftParams(t, cfg);
    }
  }

  function Flagged(cfg: Config): Config { cfg[TemplateFlag := "1"] }

  /** Drift does not look at the template flag. */
  lemma FlagIgnored(r: Resource, cfg: Config)
    requires WellFormed(r) && !r.body.File?
    ensures DriftOf(r, Flagged(cfg)) == DriftOf(r, cfg)
    ensures Tractable(r, cfg) ==> Tractable(r, Flagged(cfg))
  {
    hide WellFormed, TableOf, CleanTable, CreateKeys, Propose, DriftParams, DriftStops, RewritesAllocated, StuckTable, RefusedTable, DeletesOf, Tractable,
         PlainTable, Reports.ReportableTable;
    DriftIs(r, cfg);
    DriftIs(r, Flagged(cfg));
    TractableIs(r, cfg);
    TractableIs(r, Flagged(cfg));
    TableFacts(r);
    FlagIgnoredBy(TableOf(r), cfg);
    FlagNotCleared(r, cfg);
  }

  lemma FlagIgnoredBy(t: Table, cfg: Config)
    requires CleanTable(t) && TemplateFlag !in t
    ensures DriftParams(t, Flagged(cfg)) == DriftParams(t, cfg) && DriftStops(t, Flagged(cfg)) == DriftStops(t, cfg)
    ensures RewritesAllocated(t, Flagged(cfg)) == RewritesAllocated(t, cfg) && StuckTable(t, Flagged(cfg)) == StuckTable(t, cfg)
    ensures RefusedTable(t, Flagged(cfg)) == RefusedTable(t, cfg)
  {
    hide Propose, Stuck, CleanField, Allocated, IsNewSlot;
    var f := Flagged(cfg);
    forall k | k in t
      ensures Propose(t[k].field, k, f) == Propose(t[k].field, k, cfg) && Stuck(t[k].field, k, f) == Stuck(t[k].field, k, cfg)
      ensures Get(f, k) == Get(cfg, k)
    {
      assert Get(f, k) == Get(cfg, k) && Get(f, Nesting) == Get(cfg, Nesting);
      ProposeReads(t[k].field, k, f, cfg);
      StuckReads(t[k].field, k, f, cfg);
    }
    assert DriftParams(t, f).Keys == DriftParams(t, cfg).Keys;
  }

  lemma StuckReads(f: Field, k: Key, a: Config, b: Config)
    requires Get(a, k) == Get(b, k) && Get(a, Nesting) == Get(b, Nesting)
    ensures Stuck(f, k, a) == Stuck(f, k, b)
  {
    hide IsNewSlot, EfiTypeDrift;
  }

  lemma FlagNotCleared(r: Resource, cfg: Config)
    ensures DeletesOf(r, Flagged(cfg)) == DeletesOf(r, cfg)
  {
    hide Vm.OwnedTable, Vm.IdentityKeys;
    match r.body
    case Machine(v) =>
      FlagNotIdentity(v);
      forall k | k in Vm.IdentityKeys(v) ensures Vm.Present(Flagged(cfg), k) == Vm.Present(cfg, k) {
        assert Get(Flagged(cfg), k) == Get(cfg, k);
      }
    case _ =>
  }

  /** A guest created from its manifest needs no update and carries no template flag. */
  lemma CreatedSettles(r: Resource)
    requires hide *; WellFormed(r) && !r.body.File? && CreateParamsOf(r).Some?
    requires r.body.Machine? ==> !Vm.IsCloneBacked(r.body.vm)
    ensures DriftOf(r, CreatedConfig(IdOf(r), CreateParamsOf(r).value)).None?
    ensures TemplateFlag !in CreateParamsOf(r).value
  {
    hide Vm.OwnedTable, Lxc.OwnedTable, Vm.WellFormed, Lxc.WellFormed, PlainParams, Join, CreatedConfig, Vm.CreateParams, Lxc.CreateParams, Vm.Drift, Lxc.Drift;
    match r.body
    case Machine(v) =>
      Vm.VmCreateSettles(v);
      VmNeverFlags(v);
    case Container(l) =>
      Lxc.LxcCreateSettles(l);
      LxcNeverFlags(l);
  }

  lemma VmNeverFlags(v: Vm.VmSpec)
    requires Vm.WellFormed(v)
    ensures TemplateFlag !in Vm.CreateParams(v)
  {
    hide *;
    VmFlag(v);
    if TemplateFlag in v.extra {
      Vm.ExtraIsExtra(v, TemplateFlag);
      FlagNotExtra();
    } else {
      Vm.CreateParamsAt(v, TemplateFlag);
    }
  }

  lemma FlagNotExtra()
    ensures !Vm.ExtraKey(TemplateFlag) && !Lxc.ExtraKey(TemplateFlag)
  {
  }

  lemma LxcNeverFlags(l: Lxc.LxcSpec)
    requires Lxc.WellFormed(l) && Lxc.CreateParams(l).Some?
    ensures TemplateFlag !in Lxc.CreateParams(l).value
  {
    hide Lxc.OwnedTable, Lxc.WellFormed, CreateValue;
    LxcFlag(l);
    FlagNotExtra();
    LxcExtraFlag(l);
  }

  lemma LxcExtraFlag(l: Lxc.LxcSpec)
    requires Lxc.WellFormed(l)
    ensures TemplateFlag !in l.extra
  {
    hide Lxc.Slots, Lxc.SlotClean, Lxc.DistinctSlots, CleanTag;
    FlagNotExtra();
  }

  // ----- clones -----

  /** A clone-backed VM's update is always one PVE takes, whatever was inherited. */
  lemma CloneTractable(r: Resource, cfg: Config)
    requires hide *; WellFormed(r) && r.body.Machine? && Vm.IsCloneBacked(r.body.vm)
    ensures Tractable(r, cfg)
  {
    hide Vm.OwnedTable, Vm.WellFormed, PlainTable, PlainParams, Propose, Vm.IsCloneBacked;
    var v := r.body.vm;
    NoDisks(v);
    forall k | k in Vm.OwnedTable(v) ensures !IsDrive(Vm.OwnedTable(v)[k].field) {
      CloneFields(v, k);
    }
  }

  lemma CloneFields(v: Vm.VmSpec, k: Key)
    requires Vm.WellFormed(v) && Vm.IsCloneBacked(v) && k in Vm.OwnedTable(v)
    ensures !IsDrive(Vm.OwnedTable(v)[k].field)
  {
    hide Vm.OwnedTable, Vm.WellFormed, Vm.FixedEntry, Vm.DiskKey, Vm.IsDiskSlot, Vm.IsNicSlot, Vm.IsPciSlot;
    Vm.Origin(v, k);
    NoDisks(v);
    if !k.Dev? {
      CloneFixed(v, k);
    }
  }

  lemma NoDisks(v: Vm.VmSpec)
    requires Vm.WellFormed(v) && Vm.IsCloneBacked(v)
    ensures v.disks == [] && v.hw.efi.None?
  {
    hide CleanDisk, CleanEfi, Vm.IsDiskSlot, Vm.IsNicSlot, Vm.IsPciSlot, Vm.ExtraKey;
  }

  lemma CloneFixed(v: Vm.VmSpec, k: Key)
    requires Vm.FixedEntry(v, k).Some? && v.hw.efi.None?
    ensures !IsDrive(Vm.FixedEntry(v, k).value.field)
  {
    hide Vm.SshWire, Join, MemoryMiB, TrimSpace, Vm.ScsiController, Vm.TpmVersion, AllTags, Vm.IsCloneBacked;
  }

  /** The post-clone config write is one PVE takes, and leaves no template flag. */
  lemma CloneWriteAccepted(v: Vm.VmSpec, live: Config)
    requires Vm.WellFormed(v) && Vm.IsCloneBacked(v) && PlainParams(v) && TemplateFlag !in live
    ensures Accepts(live, Vm.CloneBody(Vm.CreateParams(v), live), Vm.CloneDeleteKeys(v))
    ensures TemplateFlag !in Written(live, Vm.CloneBody(Vm.CreateParams(v), live), Vm.CloneDeleteKeys(v))
  {
    hide Vm.OwnedTable, Vm.WellFormed, IsCreateForm, Vm.CreateParams, IsNewSlot, Vm.IdentityKeys, Vm.IsDiskSlot, CreateValue;
    Vm.CloneLeavesNoIdentity(v, live);
    VmNeverFlags(v);
    var body, deletes := Vm.CloneBody(Vm.CreateParams(v), live), Vm.CloneDeleteKeys(v);
    forall k | k in body ensures !(IsCreateForm(body[k]) && !IsNewSlot(Get(live - deletes, k))) {
      assert body[k] == Vm.CreateParams(v)[k];
      if k == Ide2 {
        assert IsNewSlot(Get(live, Ide2));
        assert Get(live - deletes, k) == Get(live, k);
      }
    }
  }
}
