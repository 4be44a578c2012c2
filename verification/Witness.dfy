/** Small concrete manifests showing that the hypotheses of the main results can be met. */
module Witness {
  import opened Text
  import opened Quantity
  import opened Devices
  import opened VmDrives
  import opened LxcWire
  import opened Drive
  import opened Owned
  import opened Desired
  import opened Plan
  import opened PlanSafety
  import opened World
  import opened Updates
  import Vm
  import Lxc
  import VmCarried
  import Reports

  const HW := Vm.Hardware("", "", "", "", "", None, false, "", "", None, "", false, 0, [])
  const OPTIONS := Vm.VmOptions(false, "", false, false, false, false, [], [], false, false)
  const CI := Vm.CloudInitData("", [], [], [], "", "", [], [], [])

  /** One MiB as a quantity. */
  function OneMiB(): (m: string)
    ensures MemoryMiB(m) == Some(1)
  {
    MemoryRoundTrip(1);
    PveMemoryToHuman(1).value
  }

  /** A diskless one-core VM. */
  function SmallVm(): Vm.VmSpec {
    Vm.VmSpec("a", "n", 100, "", "", [], "host", 1, OneMiB(), [], [], HW, OPTIONS, CI, map[], "", "", "", 0)
  }

  lemma Blank()
    ensures TrimSpace("") == ""
  {
  }

  /** Nothing about the small VM beyond its CD/DVD, EFI and cloud-init drives can break well-formedness. */
  lemma VmWellFormed(v: Vm.VmSpec)
    requires v.node != "" && v.vmid > 0 && v.cpuType != "" && v.cores > 0 && MemoryMiB(v.memory).Some? && v.state in {"", "started", "stopped"}
    requires v.disks == [] && v.nics == [] && v.tags == [] && v.hw.pci == [] && v.extra == map[] && v.ci == CI && v.hw.cdromMedia == ""
    requires v.hw.tpm.None? && (Vm.IsCloneBacked(v) ==> v.hw.efi.None?)
    requires v.hw.efi.Some? ==> CleanEfi(v.hw.efi.value)
    requires (v.hw.ciEnabled ==> StorageId(v.hw.ciStorage)) && CleanValue(v.hw.ciSize)
    requires v.cdromVolid != "" ==> CleanVolid(v.cdromVolid)
    requires TrimSpace(v.hw.cdromIso) !in {"", Vm.CDROM_NONE} ==> v.cdromVolid != ""
    ensures Vm.WellFormed(v)
  {
    hide MemoryMiB, CleanEfi, StorageId, CleanVolid, CleanValue, TrimSpace, Vm.IsCloneBacked;
  }

  const LXC_OPTIONS := Lxc.LxcOptions(None, None, None, None, None, None, None, "")

  /** A one-core container on storage "l", to be kept stopped. */
  function SmallCt(): Lxc.LxcSpec {
    Lxc.LxcSpec("c", "n", 102, "t", "", [], 1, OneMiB(), "", "l", 0, [], [], [], "", [], "", "", LXC_OPTIONS, map[], "stopped", "")
  }

  lemma CtWellFormed(l: Lxc.LxcSpec)
    requires l.(options := LXC_OPTIONS) == SmallCt()
    ensures Lxc.WellFormed(l)
  {
    hide MemoryMiB, Lxc.SlotClean;
    assert StorageId("l");
  }

  // ----- values that do not read as new volumes -----

  lemma ColonFree(v: string)
    requires ':' !in v
    ensures !IsCreateForm(v)
  {
  }

  lemma NumberIsColonFree(n: int)
    ensures ':' !in Itoa(n)
  {
    var s := Itoa(n);
    forall i | 0 <= i < |s| ensures s[i] != ':' {
      if i > 0 {
        assert s[i] == s[1..][i - 1];
      }
    }
  }

  /** The owned values of a VM like the small one, its drives aside. */
  lemma VmEntryPlain(v: Vm.VmSpec, k: Key)
    requires v.disks == [] && v.tags == [] && v.ci == CI && v.options == OPTIONS && v.cpuType == "host" && v.hw.efi.None?
    requires v.hw.(cdromIso := "", ciEnabled := false, ciStorage := "", ciSize := "") == HW && Vm.FixedEntry(v, k).Some?
    ensures var f := Vm.FixedEntry(v, k).value.field;
            f == TextF("host") || f.IntF? || f == TagsF([OWNERSHIP_TAG]) || f.CloudInitF? || f.CdromF? || f.CdromNoneF?
  {
    hide MemoryMiB, TrimSpace, Vm.IsCloneBacked;
    assert AllTags([]) == [OWNERSHIP_TAG];
    assert Join([], " ") == "";
  }

  lemma PlainVm(v: Vm.VmSpec)
    requires hide *; v.disks == [] && v.nics == [] && v.hw.pci == [] && v.tags == [] && v.ci == CI && v.options == OPTIONS && v.cpuType == "host" && v.hw.efi.None?
    requires v.hw.(cdromIso := "", ciEnabled := false, ciStorage := "", ciSize := "") == HW && Vm.WellFormed(v)
    requires forall volid, media :: Vm.CdromEntry(v).Some? && Vm.CdromEntry(v).value.field == CdromF(volid, media) ==> !IsCreateForm(volid + ",media=" + media)
    ensures PlainTable(Vm.OwnedTable(v))
    ensures forall k | k in Vm.OwnedTable(v) :: !k.Dev? && (IsCreateForm(CreateValue(Vm.OwnedTable(v)[k].field)) ==> Vm.OwnedTable(v)[k].field.CloudInitF?)
  {
    hide Vm.WellFormed, Vm.FixedEntry, Vm.CdromEntry, IsCreateForm, Vm.IsCloneBacked;
    assert Vm.OwnedTable(v) == Vm.FixedTable(v);
    forall k | k in Vm.OwnedTable(v)
      ensures !k.Dev? && PlainField(Vm.OwnedTable(v)[k].field)
      ensures IsCreateForm(CreateValue(Vm.OwnedTable(v)[k].field)) ==> Vm.OwnedTable(v)[k].field.CloudInitF?
    {
      var f := Vm.FixedEntry(v, k).value.field;
      VmEntryPlain(v, k);
      NoDevKeys(k);
      ColonFree("host");
      ColonFree("none");
      ColonFree(OWNERSHIP_TAG);
      assert Join([OWNERSHIP_TAG], ",") == OWNERSHIP_TAG;
      if f.IntF? {
        NumberIsColonFree(f.number);
        ColonFree(Itoa(f.number));
      } else if f.CdromF? {
        DiscKeys(v, k);
      }
    }
  }

  lemma NoDevKeys(k: Key)
    requires k in Vm.FIXED_KEYS
    ensures !k.Dev?
  {
  }

  lemma DiscKeys(v: Vm.VmSpec, k: Key)
    requires Vm.FixedEntry(v, k).Some? && Vm.FixedEntry(v, k).value.field.CdromF?
    ensures Vm.CdromEntry(v) == Vm.FixedEntry(v, k)
  {
    hide MemoryMiB, TrimSpace, Vm.CdromEntry, Vm.IsCloneBacked, Vm.SshWire, Join, AllTags, Vm.ScsiController, Vm.TpmVersion;
  }

  lemma PlainCt()
    ensures PlainTable(Lxc.OwnedTable(SmallCt()))
  {
    hide Lxc.WellFormed, PlainField, Lxc.FixedEntry, OneMiB, Lxc.OwnedTable;
    var l := SmallCt();
    CtWellFormed(l);
    forall k | k in Lxc.OwnedTable(l) ensures PlainField(Lxc.OwnedTable(l)[k].field) {
      Lxc.Origin(l, k);
      assert Lxc.Slots(l) == [];
      CtEntryPlain(k);
      CtFieldPlain(Lxc.FixedEntry(l, k).value.field);
    }
  }

  lemma CtFieldPlain(f: Field)
    requires f == TextF("c") || f.IntF? || f == TagsF([OWNERSHIP_TAG]) || f.RootF?
    ensures PlainField(f)
  {
    hide IsCreateForm, Itoa;
    ColonFree("c");
    ColonFree(OWNERSHIP_TAG);
    assert Join([OWNERSHIP_TAG], ",") == OWNERSHIP_TAG;
    if f.IntF? {
      NumberIsColonFree(f.number);
      ColonFree(Itoa(f.number));
    }
  }

  lemma CtEntryPlain(k: Key)
    requires Lxc.FixedEntry(SmallCt(), k).Some?
    ensures var f := Lxc.FixedEntry(SmallCt(), k).value.field; f == TextF("c") || f.IntF? || f == TagsF([OWNERSHIP_TAG]) || f.RootF?
  {
    hide MemoryMiB;
    Blank();
    assert AllTags([]) == [OWNERSHIP_TAG];
  }

  /** The two small guests meet what the settling and convergence results ask of a manifest. */
  lemma SmallGuestsFit()
    ensures Vm.WellFormed(SmallVm()) && PlainTable(Vm.OwnedTable(SmallVm())) && VmCarried.Readable(SmallVm())
    ensures Lxc.WellFormed(SmallCt()) && PlainTable(Lxc.OwnedTable(SmallCt()))
  {
    hide Vm.WellFormed, Lxc.WellFormed, PlainTable, Vm.OwnedTable, Lxc.OwnedTable, OneMiB, IsCreateForm, VmCarried.Readable;
    Blank();
    VmWellFormed(SmallVm());
    PlainVm(SmallVm());
    SmallVmReads();
    CtWellFormed(SmallCt());
    PlainCt();
  }

  lemma SmallVmReads()
    ensures VmCarried.Readable(SmallVm())
  {
    hide OneMiB, MemoryMiB, TrimSpace;
  }

  // ----- a template test that fires -----

  /** A VM template manifest with id 100. */
  function Base(): Resource { Resource(TemplateVM, DependsOn([]), Body.Machine(SmallVm())) }

  /** A tagged, flagged container in the listing under that id. */
  const STRANGER := Listed("n", 100, "lxc")

  const STRANGER_CONFIG: Config := map[Tags := OWNERSHIP_TAG, TemplateFlag := "1", Name := "x"]

  const STRANGE: LiveInventory := LiveInventory(map[ObjKey("n", LXC, 100) := STRANGER_CONFIG], map[], map[], [STRANGER])

  /** The live container would be pruned but for the test on VM templates. */
  lemma TemplateCheckCanFire(o: Options)
    requires o.allow == []
    ensures Valid(Base())
    ensures UntestedVerdict(STRANGER, [Base()], STRANGE, o) == Orphan && Judge(STRANGER, [Base()], STRANGE, o) == Ignored
  {
    hide HasTag;
    Blank();
    LxcType();
    OnlyTag();
    assert "x" != "a" by { assert "x"[0] != "a"[0]; }
    assert DesiredTemplate([Base()], TemplateVM, "n", 100) by { assert Base() in [Base()]; }
    TemplateChecksFire(STRANGER, [Base()], STRANGE, o);
  }

  lemma LxcType()
    ensures NormalizeKind("lxc") == LXC && "lxc" != ""
  {
    assert Lower("lxc") == "lxc";
    assert |"vm"| == |"qm"| == 2 && "qemu"[0] == 'q';
  }

  lemma OnlyTag()
    ensures HasTag(OWNERSHIP_TAG, OWNERSHIP_TAG)
  {
    SplitJoin([OWNERSHIP_TAG], ',');
    assert Join([OWNERSHIP_TAG], ",") == OWNERSHIP_TAG;
    assert OWNERSHIP_TAG in Split(OWNERSHIP_TAG, ',') && TrimSpace(OWNERSHIP_TAG) == OWNERSHIP_TAG;
  }

  // ----- guests no update settles -----

  /** A VM with a cloud-init drive of the given declared size on storage "s". */
  function DriveVm(size: string): Vm.VmSpec { SmallVm().(hw := HW.(ciEnabled := true, ciStorage := "s", ciSize := size)) }

  /** Declared as 4MiB, reported as 4M: PVE means the same size, the comparison does not, and the drive
      is written over the volume for ever. */
  lemma DriveCanBeRefused()
    ensures hide *; var v, cfg := DriveVm("4MiB"), map[Ide2 := Reports.CloudInitReport(100, "s", "4M")];
            && Vm.WellFormed(v) && PlainTable(Vm.OwnedTable(v)) && RewritesAllocated(Vm.OwnedTable(v), cfg)
            && Vm.Drift(v, cfg).Some? && DriveRefused(v, cfg)
            && !Accepts(cfg, Vm.Drift(v, cfg).value.params, Vm.Drift(v, cfg).value.deletes)
  {
    hide Vm.WellFormed, Vm.OwnedTable, Reports.CloudInitReport, PlainTable, RewritesAllocated, DriveRefused, Vm.Drift, Accepts, DriveVm;
    var v, cfg := DriveVm("4MiB"), map[Ide2 := Reports.CloudInitReport(100, "s", "4M")];
    SizesDiffer(cfg);
    DriveVmFits("4MiB");
    NoDrivesToRewrite(v, cfg);
    NeverTaken(v, cfg);
  }

  lemma NeverTaken(v: Vm.VmSpec, cfg: Config)
    requires hide *; Vm.WellFormed(v) && PlainTable(Vm.OwnedTable(v)) && RewritesAllocated(Vm.OwnedTable(v), cfg) && DriveRefused(v, cfg)
    ensures Vm.Drift(v, cfg).Some? && !Accepts(cfg, Vm.Drift(v, cfg).value.params, Vm.Drift(v, cfg).value.deletes)
  {
    hide Vm.WellFormed, Vm.OwnedTable, PlainTable, RewritesAllocated, DriveRefused, Accepts, Vm.ClearKeys, DriftParams, DriftStops, RefusedTable,
         Reports.ReportableTable, CleanTable, CreateKeys;
    VmRefusal(v, cfg);
    Vm.TableIsClean(v);
    VmReportable(v);
    Vm.ClearKeysUnowned(v, cfg);
    AcceptsExactly(Vm.OwnedTable(v), cfg, Vm.ClearKeys(v, cfg));
    RefusalIsDrift(Vm.OwnedTable(v), cfg);
  }

  lemma RefusalIsDrift(t: Table, cfg: Config)
    requires RefusedTable(t, cfg)
    ensures DriftParams(t, cfg) != map[]
  {
    hide Propose, IsNewSlot;
    var k :| k in t && Refuses(t[k].field, k, cfg);
    assert k in DriftParams(t, cfg);
  }

  lemma DriveVmFits(size: string)
    requires hide *; CleanValue(size)
    ensures Vm.WellFormed(DriveVm(size)) && PlainTable(Vm.OwnedTable(DriveVm(size)))
    ensures forall k | k in Vm.OwnedTable(DriveVm(size)) :: !IsDrive(Vm.OwnedTable(DriveVm(size))[k].field)
  {
    hide Vm.WellFormed, CleanValue, PlainTable, Vm.OwnedTable, IsCreateForm, Vm.FixedEntry;
    var v := DriveVm(size);
    Blank();
    assert StorageId("s");
    VmWellFormed(v);
    assert Vm.CdromEntry(v).None?;
    PlainVm(v);
    forall k | k in Vm.OwnedTable(v) ensures !IsDrive(Vm.OwnedTable(v)[k].field) {
      Vm.Origin(v, k);
      VmEntryPlain(v, k);
    }
  }

  lemma NoDrivesToRewrite(v: Vm.VmSpec, cfg: Config)
    requires hide *; forall k | k in Vm.OwnedTable(v) :: !IsDrive(Vm.OwnedTable(v)[k].field)
    ensures RewritesAllocated(Vm.OwnedTable(v), cfg)
  {
    hide Vm.OwnedTable, Propose;
  }

  lemma SizesDiffer(cfg: Config)
    requires cfg == map[Ide2 := Reports.CloudInitReport(100, "s", "4M")]
    ensures DriveRefused(DriveVm("4MiB"), cfg) && CleanValue("4MiB")
  {
    hide Reports.CloudInitReport, SplitCloudInit, CloudInitWire, IsNewSlot, PveSizeBytes;
    Blank();
    assert StorageId("s");
    Reports.DriveReportReads(100, "s", "4M");
    VmCarried.CloudInitReads("s", "4MiB");
    NotAPveSize();
    assert |Lower("4M")| != |Lower("4MiB")|;
  }

  /** The same VM with an empty ide2: the drive is written, comes back as 4M and drifts again. */
  lemma DriveCanBeMisread()
    ensures var f, wire, held := CloudInitF("s", "4MiB", false), CloudInitWire("s", "4MiB"), Reports.CloudInitReport(100, "s", "4M");
            && Vm.FixedEntry(DriveVm("4MiB"), Ide2) == Some(Entry(f, true)) && DriveMisspelled(DriveVm("4MiB"), map[])
            && Propose(f, Ide2, map[]) == Some(wire) && Reports.MayReport(100, f, "", wire, held)
            && Propose(f, Ide2, map[Ide2 := held]) == Some(wire)
  {
    hide Reports.CloudInitReport, SplitCloudInit, CloudInitWire, PveSizeBytes, OneMiB, MemoryMiB;
    Blank();
    assert StorageId("s") && CleanValue("4MiB");
    NothingLive("s", "4MiB");
    NotAPveSize();
    FourM();
    SpelledOtherwise(map[Ide2 := Reports.CloudInitReport(100, "s", "4M")]);
  }

  /** PVE does spell this one. */
  lemma FourM()
    ensures PveSizeBytes("4M").Some? && CleanValue("4M")
  {
    var s := Upper("4M");
    assert s == "4M" && s[..1] == "4" && Trimmed(s) && Trimmed("4");
    assert ParseInt64(s).None?;
    assert IsDecimal("4");
  }

  lemma SpelledOtherwise(cfg: Config)
    requires cfg == map[Ide2 := Reports.CloudInitReport(100, "s", "4M")]
    ensures Propose(CloudInitF("s", "4MiB", false), Ide2, cfg) == Some(CloudInitWire("s", "4MiB"))
  {
    hide Reports.CloudInitReport, CloudInitMatches, CloudInitWire, PveSizeBytes, DiskPropose, EfiPropose, NicMatches, NicString,
         NetMatches, NetString, PciMatches, PciWire, TpmMatches, CdromMatches, NameserverEquals, WordSetsEqual, TagsEqual, SmallVm;
    SizesDiffer(cfg);
    VmCarried.CloudInitQuiet("s", "4MiB", false, Ide2, cfg);
  }

  lemma NothingLive(storage: string, size: string)
    requires StorageId(storage) && CleanValue(size)
    ensures !CloudInitMatches("", CloudInitWire(storage, size))
  {
    hide CloudInitWire;
    VmCarried.CloudInitReads(storage, size);
    Blank();
  }

  /** PVE has no such suffix. */
  lemma NotAPveSize()
    ensures PveSizeBytes("4MiB").None?
  {
    var s := Upper("4MiB");
    assert |s| == 4 && s[0] == '4' && s[1] == 'M' && s[2] == 'I' && s[3] == 'B';
    assert Trimmed("4MiB");
  }

  /** A VM with an EFI volume of type 4m on storage "s". */
  function EfiVm(): Vm.VmSpec { SmallVm().(hw := HW.(efi := Some(EFI))) }

  const EFI := EfiDisk("s", "", "4m", "")

  /** A live EFI volume of type 2m. */
  function LiveEfi(): Config { map[Efidisk0 := Render("s", VolumeOf(100), TextToken("efitype", "2m"))] }

  lemma LiveEfiReads()
    ensures var raw := LiveEfi()[Efidisk0];
            ReportForm(raw) && !IsNewSlot(raw) && Parse(raw).pool == "s" && Parse(raw).efitype == "2m"
  {
    hide VolumeOf, Parse, ParseToken, CleanToken, IsNewSlot, Join, TextToken;
    var out := EMPTY_INFO.(pool := "s", volumeName := VolumeOf(100));
    assert StorageId("s");
    StartClean("s");
    assert CleanValue("2m") && Lower("2m") == "2m";
    EfiTail("2m", None, out);
    VolumeIsName(100, EMPTY_INFO.(pool := "s"));
    assert TextToken("efitype", "2m") + BoolToken("pre-enrolled-keys", None) == TextToken("efitype", "2m");
    ParseRender("s", VolumeOf(100), TextToken("efitype", "2m"));
    StorageIsLive("s", Join([VolumeOf(100)] + TextToken("efitype", "2m"), ","));
  }

  /** The EFI type is pinned against the live one: drift before the update and after it. */
  lemma EfiCanBePinned()
    ensures hide *; var v, cfg := EfiVm(), LiveEfi();
            && Vm.WellFormed(v) && Vm.Reported(v, cfg) && Vm.EfiPinned(v, cfg) && Vm.Drift(v, cfg).Some?
            && Vm.Drift(v, Vm.Applied(cfg, Vm.Drift(v, cfg).value)).Some?
  {
    hide Vm.WellFormed, Vm.OwnedTable, Vm.EfiPinned, Vm.Drift, RewritesReported;
    var v, cfg := EfiVm(), LiveEfi();
    EfiVmFits();
    EfiIsPinned();
    OnlyEfiToRewrite();
    PinnedDrifts(v, cfg);
  }

  lemma EfiIsPinned()
    ensures Vm.EfiPinned(EfiVm(), LiveEfi())
  {
    hide Parse, IsNewSlot, SmallVm, ReportForm;
    LiveEfiReads();
    assert Lower("4m") == "4m" && "4m"[0] != "2m"[0];
  }

  lemma EfiVmFits()
    ensures Vm.WellFormed(EfiVm()) && EfiVm().disks == []
  {
    hide Vm.WellFormed;
    Blank();
    assert StorageId("s") && CleanValue("4m");
    VmWellFormed(EfiVm());
  }

  lemma OnlyEfiToRewrite()
    ensures RewritesReported(Vm.OwnedTable(EfiVm()), LiveEfi())
  {
    hide Vm.OwnedTable, Vm.WellFormed, LiveEfi, EfiVm, Propose, ReportForm, IsNewSlot, Vm.FixedEntry;
    EfiVmFits();
    LiveEfiReads();
    var v, cfg := EfiVm(), LiveEfi();
    forall k | k in Vm.OwnedTable(v) ensures RewritesReportForm(Vm.OwnedTable(v)[k].field, Get(cfg, k)) {
      Vm.Origin(v, k);
      OnlyDriveIsEfi(v, k);
      LiveEfiOnly();
    }
  }

  lemma LiveEfiOnly()
    ensures Efidisk0 in LiveEfi() && Get(LiveEfi(), Efidisk0) == LiveEfi()[Efidisk0]
  {
  }

  lemma OnlyDriveIsEfi(v: Vm.VmSpec, k: Key)
    ensures k != Efidisk0 && Vm.FixedEntry(v, k).Some? ==> !IsDrive(Vm.FixedEntry(v, k).value.field)
  {
    hide MemoryMiB, TrimSpace, Vm.IsCloneBacked, Vm.SshWire, Join, AllTags, Vm.ScsiController, Vm.TpmVersion, Vm.CdromEntry, SmallVm;
    if k in {Ide2, Ide3} {
      DiscIsNoDrive(v);
    } else if k == Efidisk0 {
    } else {
    }
  }

  lemma DiscIsNoDrive(v: Vm.VmSpec)
    ensures Vm.CdromEntry(v).Some? ==> !IsDrive(Vm.CdromEntry(v).value.field)
  {
    hide TrimSpace;
  }

  lemma PinnedDrifts(v: Vm.VmSpec, cfg: Config)
    requires hide *; Vm.WellFormed(v) && Vm.Reported(v, cfg) && Vm.EfiPinned(v, cfg)
    ensures Vm.Drift(v, cfg).Some? && Vm.Drift(v, Vm.Applied(cfg, Vm.Drift(v, cfg).value)).Some?
  {
    hide Vm.WellFormed, Vm.OwnedTable, Vm.EfiPinned, RewritesReported, Vm.ClearKeys, DriftParams, DriftStops, StuckTable, CleanTable, CreateKeys;
    var t := Vm.OwnedTable(v);
    Vm.TableIsClean(v);
    Vm.VmStuckExactly(v, cfg);
    Vm.ClearKeysUnowned(v, cfg);
    Owned.DriftSettles(t, cfg, Vm.ClearKeys(v, cfg));
    StuckIsDrift(t, cfg);
  }

  lemma StuckIsDrift(t: Table, cfg: Config)
    requires StuckTable(t, cfg)
    ensures DriftParams(t, cfg) != map[]
  {
    hide Propose, Stuck;
    var k :| k in t && Propose(t[k].field, k, cfg).Some? && Stuck(t[k].field, k, cfg);
    assert k in DriftParams(t, cfg);
  }

  /** A container that wants nesting, beside a legacy top-level key that says no: drift before the update
      and after it. */
  lemma NestingCanBeStuck()
    ensures hide *; var l, cfg := SmallCt().(options := LXC_OPTIONS.(nesting := Some(true))), map[Nesting := "0"];
            && Lxc.WellFormed(l) && Lxc.Reported(l, cfg) && Lxc.StuckDrift(l, cfg) && Lxc.Drift(l, cfg).Some?
            && Lxc.Drift(l, Lxc.Applied(cfg, Lxc.Drift(l, cfg).value)).Some?
  {
    hide Lxc.WellFormed, Lxc.OwnedTable, RewritesReported, DriftParams, DriftStops, StuckTable, CleanTable, CreateKeys, OneMiB;
    var l, cfg := SmallCt().(options := LXC_OPTIONS.(nesting := Some(true))), map[Nesting := "0"];
    var t := Lxc.OwnedTable(l);
    CtWellFormed(l);
    Lxc.TableIsClean(l);
    Lxc.StuckExactly(l, cfg);
    NothingToRewrite(t, cfg);
    Owned.DriftSettles(t, cfg, {});
    StuckIsDrift(t, cfg);
  }

  lemma NothingToRewrite(t: Table, cfg: Config)
    requires cfg.Keys == {Nesting} && CleanTable(t)
    ensures RewritesReported(t, cfg)
  {
    hide Propose, CleanField;
    Blank();
  }
}
