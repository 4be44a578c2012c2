/** VM manifests: the owned table, drift, anomalies and the clone identity rules. TemplateVM
    manifests share this surface. */
module Vm {
  import opened Text
  import opened Quantity
  import opened Drive
  import opened Devices
  import opened LxcWire
  import opened LxcMounts
  import opened VmDrives
  import opened Owned
  import Codec

  datatype IpConfig = IpConfig(nic: nat, ip: string, gateway: string)

  /** Cloud-init data after secret resolution. */
  datatype CloudInitData = CloudInitData(
    ciuser: string, sshKeys: seq<string>, sshKeyRefs: seq<string>, resolvedSshKeys: seq<string>,
    ciPasswordRef: string, resolvedPassword: string,
    nameservers: seq<string>, searchDomains: seq<string>, ipConfigs: seq<IpConfig>)

  datatype Hardware = Hardware(
    machine: string, bios: string, display: string, cdromIso: string, cdromMedia: string, efi: Option<EfiDisk>,
    ciEnabled: bool, ciStorage: string, ciSize: string, tpm: Option<string>, serial0: string, numa: bool,
    sockets: int, pci: seq<Pci>)

  datatype VmOptions = VmOptions(
    onboot: bool, startup: string, protection: bool, agent: bool, acpi: bool, tablet: bool,
    hotplug: seq<string>, bootOrder: seq<string>, nestedVirt: bool, hidden: bool)

  /** cdromVolid and cloneSource are filled by reference resolution. */
  datatype VmSpec = VmSpec(
    name: string, node: string, vmid: int, pveName: string, description: string, tags: seq<string>,
    cpuType: string, cores: int, memory: string, disks: seq<Disk>, nics: seq<Nic>, hw: Hardware,
    options: VmOptions, ci: CloudInitData, extra: map<Key, string>, state: string, clone: string,
    cdromVolid: string, cloneSource: int)

  const CDROM_NONE := "none"

  predicate IsCloneBacked(v: VmSpec) { TrimSpace(v.clone) != "" }

  function SshKeysEffective(ci: CloudInitData): seq<string> {
    if ci.resolvedSshKeys != [] then ci.resolvedSshKeys else ci.sshKeys
  }

  predicate KeysAreBytes(ci: CloudInitData) {
    forall k | k in SshKeysEffective(ci) :: Codec.ByteString(k)
  }

  function SshWire(ci: CloudInitData): string {
    if KeysAreBytes(ci) then Codec.SshKeysWire(SshKeysEffective(ci)) else ""
  }

  function ScsiController(disks: seq<Disk>): string {
    if disks == [] then "" else if disks[0].controller != "" then disks[0].controller else ScsiController(disks[1..])
  }

  function Own(owned: bool, f: Field, stop: bool): Option<Entry> {
    if owned then Some(Entry(f, stop)) else None
  }

  /** The managed CD/DVD; it sits in ide2, or in ide3 beside a cloud-init drive. */
  function CdromEntry(v: VmSpec): Option<Entry> {
    var iso := TrimSpace(v.hw.cdromIso);
    if iso == "" then None
    else if iso == CDROM_NONE then Some(Entry(CdromNoneF, true))
    else Some(Entry(CdromF(if v.cdromVolid != "" then v.cdromVolid else v.hw.cdromIso,
                           if v.hw.cdromMedia != "" then v.hw.cdromMedia else "cdrom"), true))
  }

  function TpmVersion(t: Option<string>): string {
    if t.Some? && t.value != "" then Lower(t.value) else "v2.0"
  }

  /** What the manifest owns at a fixed key. */
  function FixedEntry(v: VmSpec, k: Key): Option<Entry> {
    var hw, o, ci := v.hw, v.options, v.ci;
    match k
    case Cpu => Own(v.cpuType != "", TextF(v.cpuType), true)
    case Cores => Own(v.cores > 0, IntF(v.cores), true)
    case Memory =>
      var m := MemoryMiB(v.memory);
      if m.Some? then Some(Entry(IntF(m.value), true)) else None
    case Tags => Own(true, TagsF(AllTags(v.tags)), false)
    case Scsihw => Own(ScsiController(v.disks) != "", TextF(ScsiController(v.disks)), true)
    case Machine => Own(hw.machine != "", TextF(hw.machine), true)
    case Bios => Own(hw.bios != "", TextF(hw.bios), true)
    case Vga => Own(hw.display != "", TextF(hw.display), false)
    case Sockets => Own(hw.sockets != 0, IntF(hw.sockets), true)
    case Numa => Own(hw.numa, FlagF, true)
    case Ide2 =>
      if hw.ciEnabled then Some(Entry(CloudInitF(hw.ciStorage, hw.ciSize, IsCloneBacked(v)), true)) else CdromEntry(v)
    case Ide3 => if hw.ciEnabled then CdromEntry(v) else None
    case Efidisk0 => if hw.efi.Some? then Some(Entry(EfiF(hw.efi.value), true)) else None
    case Tpm0 => Own(hw.tpm.Some?, TpmF(TpmVersion(hw.tpm)), true)
    case Serial0 => Own(hw.serial0 != "", TextF(hw.serial0), true)
    case Ciuser => Own(ci.ciuser != "", TextF(ci.ciuser), false)
    case Sshkeys => Own(SshWire(ci) != "", SshKeysF(SshWire(ci)), false)
    case Cipassword => Own(ci.resolvedPassword != "", PasswordF(ci.resolvedPassword), false)
    case NameServer => Own(Join(ci.nameservers, " ") != "", WordsF(Join(ci.nameservers, " ")), false)
    case SearchDomain => Own(Join(ci.searchDomains, " ") != "", WordsF(Join(ci.searchDomains, " ")), false)
    case Onboot => Own(o.onboot, FlagF, false)
    case Startup => Own(o.startup != "", TextF(o.startup), false)
    case Protection => Own(o.protection, FlagF, false)
    case Agent => Own(o.agent, FlagF, false)
    case Acpi => Own(o.acpi, FlagF, false)
    case Tablet => Own(o.tablet, FlagF, false)
    case Hotplug => Own(o.hotplug != [], TextF(Join(o.hotplug, ",")), false)
    case Boot => Own(o.bootOrder != [], TextF("order=" + Join(o.bootOrder, ";")), false)
    case Nestedvirt => Own(o.nestedVirt, FlagF, false)
    case Hidden => Own(o.hidden, FlagF, false)
    case _ => None
  }

  const FIXED_KEYS: set<Key> :=
    {Cpu, Cores, Memory, Tags, Scsihw, Machine, Bios, Vga, Sockets, Numa, Ide2, Ide3, Efidisk0, Tpm0, Serial0,
     Ciuser, Sshkeys, Cipassword, NameServer, SearchDomain, Onboot, Startup, Protection, Agent, Acpi, Tablet,
     Hotplug, Boot, Nestedvirt, Hidden}

  function FixedTable(v: VmSpec): Table {
    map k | k in FIXED_KEYS && FixedEntry(v, k).Some? :: FixedEntry(v, k).value
  }

  function SlotName(slot: string, prefix: string, i: nat): string { if slot != "" then slot else prefix + Itoa(i) }

  function DiskKey(disks: seq<Disk>, i: nat): Key
    requires i < |disks|
  {
    Dev(SlotName(disks[i].slot, "scsi", i))
  }

  function NicKey(nics: seq<Nic>, i: nat): Key
    requires i < |nics|
  {
    Dev(SlotName(nics[i].slot, "net", i))
  }

  function IpKey(c: IpConfig): Key { Dev("ipconfig" + Itoa(c.nic)) }

  function IpWire(c: IpConfig): string { "ip=" + c.ip + (if c.gateway != "" then ",gw=" + c.gateway else "") }

  function DiskTable(disks: seq<Disk>, n: nat): Table
    requires n <= |disks|
  {
    if n == 0 then map[] else DiskTable(disks, n - 1)[DiskKey(disks, n - 1) := Entry(DiskF(disks[n - 1]), true)]
  }

  function NicTable(nics: seq<Nic>, n: nat): Table
    requires n <= |nics|
  {
    if n == 0 then map[] else NicTable(nics, n - 1)[NicKey(nics, n - 1) := Entry(NicF(nics[n - 1]), true)]
  }

  function PciTable(pci: seq<Pci>, n: nat): Table
    requires n <= |pci|
  {
    if n == 0 then map[] else PciTable(pci, n - 1)[Dev(pci[n - 1].slot) := Entry(PciF(pci[n - 1]), true)]
  }

  /** Static addresses; entries without an address own nothing. */
  function IpTable(ips: seq<IpConfig>, n: nat): Table
    requires n <= |ips|
  {
    if n == 0 then map[]
    else
      var before, c := IpTable(ips, n - 1), ips[n - 1];
      if c.ip == "" then before else before[IpKey(c) := Entry(TextF(IpWire(c)), false)]
  }

  /** Everything the manifest owns. */
  function OwnedTable(v: VmSpec): Table {
    FixedTable(v) + DiskTable(v.disks, |v.disks|) + NicTable(v.nics, |v.nics|) + PciTable(v.hw.pci, |v.hw.pci|)
    + IpTable(v.ci.ipConfigs, |v.ci.ipConfigs|)
  }

  // ----- well-formed manifests -----

  predicate NumberedSlot(s: string, prefix: string) {
    HasPrefix(s, prefix) && |s| > |prefix| && AllDigits(s[|prefix|..])
  }

  predicate IsDiskSlot(s: string) {
    NumberedSlot(s, "scsi") || NumberedSlot(s, "virtio") || NumberedSlot(s, "sata")
  }

  predicate IsNicSlot(s: string) { NumberedSlot(s, "net") }

  predicate IsPciSlot(s: string) { NumberedSlot(s, "hostpci") && |s| <= 10 }

  predicate KnownTpm(t: Option<string>) { t.Some? ==> Lower(t.value) in {"", "v1.2", "v2.0"} }

  /** The schema's validation plus distinct, well-formed slots and values without separators. */
  predicate WellFormed(v: VmSpec) {
    && v.node != "" && v.vmid > 0 && v.cpuType != "" && v.cores > 0 && MemoryMiB(v.memory).Some?
    && (IsCloneBacked(v) ==> v.disks == [] && v.hw.efi.None?)
    && v.state in {"", "started", "stopped"}
    && (forall t | t in v.tags :: CleanTag(t))
    && (forall i | 0 <= i < |v.disks| :: IsDiskSlot(DiskKey(v.disks, i).name) && CleanDisk(v.disks[i]))
    && (forall i, j | 0 <= i < j < |v.disks| :: DiskKey(v.disks, i) != DiskKey(v.disks, j))
    && (forall i | 0 <= i < |v.nics| :: IsNicSlot(NicKey(v.nics, i).name))
    && (forall i, j | 0 <= i < j < |v.nics| :: NicKey(v.nics, i) != NicKey(v.nics, j))
    && (forall i | 0 <= i < |v.hw.pci| :: IsPciSlot(v.hw.pci[i].slot))
    && (forall i, j | 0 <= i < j < |v.hw.pci| :: v.hw.pci[i].slot != v.hw.pci[j].slot)
    && (v.hw.efi.Some? ==> CleanEfi(v.hw.efi.value))
    && (v.hw.ciEnabled ==> StorageId(v.hw.ciStorage)) && CleanValue(v.hw.ciSize)
    && (v.cdromVolid != "" ==> CleanVolid(v.cdromVolid))
    && (TrimSpace(v.hw.cdromIso) !in {"", CDROM_NONE} ==> v.cdromVolid != "")
    && v.hw.cdromMedia in {"", "cdrom", "disk"} && KnownTpm(v.hw.tpm)
    && (forall k | k in v.extra :: ExtraKey(k))
    && (forall n | n in v.ci.nameservers :: n != "") && (forall d | d in v.ci.searchDomains :: d != "")
  }

  /** Passthrough keys may not be owned keys, numbered slots or cloud-init identity keys. */
  predicate ExtraKey(k: Key) {
    && k !in FIXED_KEYS && k !in {TemplateFlag, Name, Description, Nesting, Cicustom}
    && (k.Dev? ==> !IsDiskSlot(k.name) && !IsNicSlot(k.name) && !IsPciSlot(k.name) && !HasPrefix(k.name, "ipconfig")
                   && !HasPrefix(k.name, "scsi") && !HasPrefix(k.name, "net"))
  }

  lemma {:induction false} DiskTableAt(disks: seq<Disk>, n: nat)
    requires n <= |disks|
    requires forall i, j | 0 <= i < j < |disks| :: DiskKey(disks, i) != DiskKey(disks, j)
    ensures forall i | 0 <= i < n :: DiskKey(disks, i) in DiskTable(disks, n) && DiskTable(disks, n)[DiskKey(disks, i)] == Entry(DiskF(disks[i]), true)
    ensures forall k | k in DiskTable(disks, n) :: exists i | 0 <= i < n :: k == DiskKey(disks, i)
  {
    hide DiskKey;
    if n > 0 {
      DiskTableAt(disks, n - 1);
      forall k | k in DiskTable(disks, n) ensures exists i | 0 <= i < n :: k == DiskKey(disks, i) {
        if k == DiskKey(disks, n - 1) {
          assert 0 <= n - 1 < n;
        } else {
          assert k in DiskTable(disks, n - 1);
          var i :| 0 <= i < n - 1 && k == DiskKey(disks, i);
          assert 0 <= i < n;
        }
      }
    }
  }

  lemma {:induction false} NicTableAt(nics: seq<Nic>, n: nat)
    requires n <= |nics|
    requires forall i, j | 0 <= i < j < |nics| :: NicKey(nics, i) != NicKey(nics, j)
    ensures forall i | 0 <= i < n :: NicKey(nics, i) in NicTable(nics, n) && NicTable(nics, n)[NicKey(nics, i)] == Entry(NicF(nics[i]), true)
    ensures forall k | k in NicTable(nics, n) :: exists i | 0 <= i < n :: k == NicKey(nics, i)
  {
    hide NicKey;
    if n > 0 {
      NicTableAt(nics, n - 1);
      forall k | k in NicTable(nics, n) ensures exists i | 0 <= i < n :: k == NicKey(nics, i) {
        if k == NicKey(nics, n - 1) {
          assert 0 <= n - 1 < n;
        } else {
          assert k in NicTable(nics, n - 1);
          var i :| 0 <= i < n - 1 && k == NicKey(nics, i);
          assert 0 <= i < n;
        }
      }
    }
  }

  lemma {:induction false} PciSource(pci: seq<Pci>, n: nat, k: Key)
    requires n <= |pci| && k in PciTable(pci, n)
    ensures (exists i | 0 <= i < n :: k == Dev(pci[i].slot)) && PciTable(pci, n)[k].field.PciF?
  {
    if k == Dev(pci[n - 1].slot) {
      assert 0 <= n - 1 < n;
    } else {
      PciSource(pci, n - 1, k);
      var i :| 0 <= i < n - 1 && k == Dev(pci[i].slot);
      assert 0 <= i < n;
    }
  }

  lemma {:induction false} PciHeld(pci: seq<Pci>, n: nat, i: nat)
    requires i < n <= |pci|
    ensures Dev(pci[i].slot) in PciTable(pci, n)
  {
    if i < n - 1 {
      PciHeld(pci, n - 1, i);
    }
  }

  lemma PciTableAt(pci: seq<Pci>, n: nat)
    requires n <= |pci|
    ensures forall k | k in PciTable(pci, n) :: exists i | 0 <= i < n :: k == Dev(pci[i].slot)
    ensures forall k | k in PciTable(pci, n) :: PciTable(pci, n)[k].field.PciF?
    ensures forall i | 0 <= i < n :: Dev(pci[i].slot) in PciTable(pci, n)
  {
    hide PciTable;
    forall k | k in PciTable(pci, n) ensures (exists i | 0 <= i < n :: k == Dev(pci[i].slot)) && PciTable(pci, n)[k].field.PciF? {
      PciSource(pci, n, k);
    }
    forall i | 0 <= i < n ensures Dev(pci[i].slot) in PciTable(pci, n) {
      PciHeld(pci, n, i);
    }
  }

  /** Is the address key `k` set by one of the first n entries? */
  predicate SetsAddress(ips: seq<IpConfig>, n: nat, k: Key)
    requires n <= |ips|
  {
    exists i | 0 <= i < n :: k == IpKey(ips[i]) && ips[i].ip != ""
  }

  lemma {:induction false} IpTableAt(ips: seq<IpConfig>, n: nat, k: Key)
    requires n <= |ips|
    ensures k in IpTable(ips, n) ==> IpTable(ips, n)[k].field.TextF? && k.Dev? && HasPrefix(k.name, "ipconfig")
    ensures k in IpTable(ips, n) <==> SetsAddress(ips, n, k)
  {
    hide IpWire, IpKey;
    if n > 0 {
      IpTableAt(ips, n - 1, k);
      var c := ips[n - 1];
      IpKeyShape(c);
      if SetsAddress(ips, n - 1, k) {
        var i :| 0 <= i < n - 1 && k == IpKey(ips[i]) && ips[i].ip != "";
        assert 0 <= i < n;
      }
      if k == IpKey(c) {
        assert 0 <= n - 1 < n;
      }
    }
  }

  lemma IpKeyShape(c: IpConfig)
    ensures IpKey(c).Dev? && HasPrefix(IpKey(c).name, "ipconfig")
  {
  }

  /** The four families of numbered keys are told apart by their first letter. */
  lemma SlotFamilies(s: string)
    ensures IsDiskSlot(s) ==> !IsNicSlot(s) && !IsPciSlot(s) && !HasPrefix(s, "ipconfig")
    ensures IsNicSlot(s) ==> !IsPciSlot(s) && !HasPrefix(s, "ipconfig")
    ensures IsPciSlot(s) ==> !HasPrefix(s, "ipconfig")
  {
    assert IsDiskSlot(s) ==> s[0] == 's' || s[0] == 'v';
    assert IsNicSlot(s) ==> s[0] == 'n';
    assert IsPciSlot(s) ==> s[0] == 'h';
    assert HasPrefix(s, "ipconfig") ==> s[0] == 'i';
  }

  /** Where an owned key comes from. */
  lemma Origin(v: VmSpec, k: Key)
    requires hide *; WellFormed(v)
    ensures k !in OwnedTable(v) || k.Dev? || (k in FIXED_KEYS && FixedEntry(v, k) == Some(OwnedTable(v)[k]))
    ensures k in FIXED_KEYS && FixedEntry(v, k).Some? ==> k in OwnedTable(v)
    ensures k.Dev? && IsDiskSlot(k.name) && k in OwnedTable(v) ==>
              exists i | 0 <= i < |v.disks| :: k == DiskKey(v.disks, i) && OwnedTable(v)[k] == Entry(DiskF(v.disks[i]), true)
    ensures k.Dev? && k in OwnedTable(v) && !IsDiskSlot(k.name) ==>
              OwnedTable(v)[k].field.NicF? || OwnedTable(v)[k].field.PciF? || OwnedTable(v)[k].field.TextF?
    ensures k.Dev? && k in OwnedTable(v) ==>
              IsDiskSlot(k.name) || IsNicSlot(k.name) || IsPciSlot(k.name) || HasPrefix(k.name, "ipconfig")
    ensures k.Dev? && HasPrefix(k.name, "ipconfig") ==>
              (k in OwnedTable(v) <==> SetsAddress(v.ci.ipConfigs, |v.ci.ipConfigs|, k))
    ensures forall i | 0 <= i < |v.disks| :: DiskKey(v.disks, i) in OwnedTable(v)
                                             && OwnedTable(v)[DiskKey(v.disks, i)] == Entry(DiskF(v.disks[i]), true)
  {
    hide DiskKey, NicKey, IsDiskSlot, IsNicSlot, IsPciSlot, IpKey, FixedEntry, CleanDisk, CleanEfi, CleanVolid, ExtraKey, CleanTag, StorageId;
    var d, n, p, ip := |v.disks|, |v.nics|, |v.hw.pci|, |v.ci.ipConfigs|;
    DiskTableAt(v.disks, d);
    NicTableAt(v.nics, n);
    NicTableFields(v.nics, n);
    PciTableAt(v.hw.pci, p);
    KeysAreDev(v, k);
    IpTableAt(v.ci.ipConfigs, ip, k);
    if k.Dev? {
      SlotFamilies(k.name);
    }
    forall i | 0 <= i < d
      ensures DiskKey(v.disks, i) in OwnedTable(v) && OwnedTable(v)[DiskKey(v.disks, i)] == Entry(DiskF(v.disks[i]), true)
    {
      DiskOwned(v, i);
    }
  }

  lemma OnlyADisk(v: VmSpec, key: Key)
    requires forall i | 0 <= i < |v.nics| :: IsNicSlot(NicKey(v.nics, i).name)
    requires forall i, j | 0 <= i < j < |v.nics| :: NicKey(v.nics, i) != NicKey(v.nics, j)
    requires forall i | 0 <= i < |v.hw.pci| :: IsPciSlot(v.hw.pci[i].slot)
    requires key.Dev? && IsDiskSlot(key.name)
    ensures key !in NicTable(v.nics, |v.nics|) && key !in PciTable(v.hw.pci, |v.hw.pci|)
            && key !in IpTable(v.ci.ipConfigs, |v.ci.ipConfigs|)
  {
    hide DiskKey, NicKey, IpKey, NicTable, PciTable, IpTable;
    NicTableAt(v.nics, |v.nics|);
    PciTableAt(v.hw.pci, |v.hw.pci|);
    SlotFamilies(key.name);
    IpTableAt(v.ci.ipConfigs, |v.ci.ipConfigs|, key);
  }

  /** A declared disk is in the table under its slot, in every well-formed manifest. */
  lemma DiskOwned(v: VmSpec, i: nat)
    requires hide *; WellFormed(v) && i < |v.disks|
    ensures DiskKey(v.disks, i) in OwnedTable(v) && OwnedTable(v)[DiskKey(v.disks, i)] == Entry(DiskF(v.disks[i]), true)
  {
    hide DiskKey, NicKey, IsDiskSlot, IsNicSlot, IsPciSlot, IpKey, FixedTable, DiskTable, NicTable, PciTable, IpTable,
         CleanDisk, CleanEfi, CleanVolid, ExtraKey, CleanTag, StorageId;
    var key := DiskKey(v.disks, i);
    DiskTableAt(v.disks, |v.disks|);
    IsADev(v.disks, i);
    DiskKeysDev(v.disks, |v.disks|, key);
    OnlyADisk(v, key);
  }

  lemma IsADev(disks: seq<Disk>, i: nat)
    requires i < |disks|
    ensures DiskKey(disks, i).Dev?
  {
  }

  lemma {:induction false} NicTableFields(nics: seq<Nic>, n: nat)
    requires n <= |nics|
    ensures forall k | k in NicTable(nics, n) :: NicTable(nics, n)[k].field.NicF? && k.Dev?
  {
    if n > 0 {
      NicTableFields(nics, n - 1);
    }
  }

  /** Slot tables hold numbered keys only. */
  lemma KeysAreDev(v: VmSpec, k: Key)
    ensures k in DiskTable(v.disks, |v.disks|) ==> k.Dev?
    ensures k in NicTable(v.nics, |v.nics|) ==> k.Dev?
    ensures k in PciTable(v.hw.pci, |v.hw.pci|) ==> k.Dev?
    ensures k in FixedTable(v) ==> !k.Dev?
  {
    DiskKeysDev(v.disks, |v.disks|, k);
    NicTableFields(v.nics, |v.nics|);
    PciTableAt(v.hw.pci, |v.hw.pci|);
  }

  lemma {:induction false} DiskKeysDev(disks: seq<Disk>, n: nat, k: Key)
    requires n <= |disks|
    ensures k in DiskTable(disks, n) ==> k.Dev?
  {
    if n > 0 {
      DiskKeysDev(disks, n - 1, k);
    }
  }

  lemma FixedEntryClean(v: VmSpec, k: Key)
    requires WellFormed(v) && FixedEntry(v, k).Some?
    ensures var f := FixedEntry(v, k).value.field;
            && CleanField(f) && !f.NestingF? && k != Nesting
            && (DriveKey(k) ==> f.CloudInitF? || f.CdromF? || f.CdromNoneF?)
            && (f.CloudInitF? ==> StorageId(f.storage))
  {
    hide CleanField, StorageId, WellFormed, FixedEntry, CdromEntry, CleanEfi, CleanTag, CleanVolid;
    WellFormedParts(v);
    if k in {Ide2, Ide3, Efidisk0, Tags} {
      StorageEntry(v, k);
      TagsClean(v.tags);
      CdromClean(v);
      DrivesClean(FixedEntry(v, k).value.field);
    } else {
      PlainEntry(v, k);
      PlainClean(FixedEntry(v, k).value.field);
    }
  }

  /** Entries that hold drives or tags. */
  lemma StorageEntry(v: VmSpec, k: Key)
    requires k in {Ide2, Ide3, Efidisk0, Tags} && FixedEntry(v, k).Some?
    ensures k == Efidisk0 ==> v.hw.efi.Some? && FixedEntry(v, k).value.field == EfiF(v.hw.efi.value)
    ensures k == Tags ==> FixedEntry(v, k).value.field == TagsF(AllTags(v.tags))
    ensures k in {Ide2, Ide3} ==>
              FixedEntry(v, k) == CdromEntry(v)
              || (v.hw.ciEnabled && FixedEntry(v, k).value.field == CloudInitF(v.hw.ciStorage, v.hw.ciSize, IsCloneBacked(v)))
  {
    hide CdromEntry, AllTags, IsCloneBacked;
  }

  lemma DrivesClean(f: Field)
    ensures f.EfiF? && CleanEfi(f.efi) ==> CleanField(f)
    ensures f.TagsF? && f.tags != [] && (forall t | t in f.tags :: CleanTag(t)) ==> CleanField(f)
    ensures f.CloudInitF? ==> CleanField(f)
  {
    hide CleanEfi, CleanTag;
  }

  predicate IsPlain(f: Field) {
    f.TextF? || f.IntF? || f.FlagF? || f.WordsF? || f.TpmF? || f.SshKeysF? || (f.PasswordF? && f.password != "")
  }

  lemma PlainEntry(v: VmSpec, k: Key)
    requires k !in {Ide2, Ide3, Efidisk0, Tags} && FixedEntry(v, k).Some?
    ensures IsPlain(FixedEntry(v, k).value.field) && k != Nesting && !DriveKey(k)
  {
    hide CdromEntry, AllTags, IsCloneBacked, MemoryMiB, SshWire, Join, TpmVersion, ScsiController;
  }

  lemma PlainClean(f: Field)
    requires IsPlain(f)
    ensures CleanField(f) && !f.NestingF? && !f.CloudInitF?
  {
  }

  /** The clauses of well-formedness that concern fixed keys. */
  lemma WellFormedParts(v: VmSpec)
    requires WellFormed(v)
    ensures (forall t | t in v.tags :: CleanTag(t)) && (v.hw.efi.Some? ==> CleanEfi(v.hw.efi.value))
    ensures (v.hw.ciEnabled ==> StorageId(v.hw.ciStorage)) && CleanValue(v.hw.ciSize)
    ensures v.cdromVolid != "" ==> CleanVolid(v.cdromVolid)
    ensures TrimSpace(v.hw.cdromIso) !in {"", CDROM_NONE} ==> v.cdromVolid != ""
    ensures v.hw.cdromMedia in {"", "cdrom", "disk"} && KnownTpm(v.hw.tpm)
  {
    hide CleanDisk, CleanEfi, CleanVolid, ExtraKey, KnownTpm, StorageId, MemoryMiB, TrimSpace, DiskKey, NicKey, IsDiskSlot, IsNicSlot, IsPciSlot, CleanTag;
  }

  lemma CdromClean(v: VmSpec)
    requires v.cdromVolid != "" ==> CleanVolid(v.cdromVolid)
    requires TrimSpace(v.hw.cdromIso) !in {"", CDROM_NONE} ==> v.cdromVolid != ""
    requires v.hw.cdromMedia in {"", "cdrom", "disk"}
    ensures CdromEntry(v).Some? ==>
              var f := CdromEntry(v).value.field; (f.CdromF? || f.CdromNoneF?) && CleanField(f)
  {
    hide CleanVolid, TrimSpace;
  }

  lemma DevNotDrive(s: string)
    requires !IsDiskSlot(s) && (IsNicSlot(s) || IsPciSlot(s) || HasPrefix(s, "ipconfig"))
    ensures !DriveKey(Dev(s))
  {
    assert IsNicSlot(s) ==> s[0] == 'n';
    assert IsPciSlot(s) ==> s[0] == 'h';
    assert HasPrefix(s, "ipconfig") ==> s[1] == 'p';
  }

  /** The owned table of a well-formed manifest meets every hypothesis of the fixpoint laws. */
  lemma TableIsClean(v: VmSpec)
    requires WellFormed(v)
    ensures CleanTable(OwnedTable(v)) && CreateKeys(OwnedTable(v))
    ensures forall k | k in OwnedTable(v) ::
              var f := OwnedTable(v)[k].field; (f.CloudInitF? ==> StorageId(f.storage)) && !f.NestingF?
  {
    hide FixedEntry, OwnedTable, DriveKey, CleanField, StorageId, DiskKey, NicKey, CleanDisk, CleanEfi, IsDiskSlot, IsNicSlot, IsPciSlot;
    forall k | k in OwnedTable(v)
      ensures var f := OwnedTable(v)[k].field;
              && CleanField(f) && k != Nesting && !f.NestingF? && (f.CloudInitF? ==> StorageId(f.storage))
              && (DriveKey(k) ==> f.DiskF? || f.CloudInitF? || f.CdromF? || f.CdromNoneF?)
    {
      Origin(v, k);
      if !k.Dev? {
        FixedEntryClean(v, k);
      } else if IsDiskSlot(k.name) {
        var i :| 0 <= i < |v.disks| && k == DiskKey(v.disks, i) && OwnedTable(v)[k] == Entry(DiskF(v.disks[i]), true);
        DiskFieldClean(v.disks[i]);
      } else {
        DevNotDrive(k.name);
        PlainFieldClean(OwnedTable(v)[k].field);
      }
    }
  }

  lemma DiskFieldClean(d: Disk)
    requires CleanDisk(d)
    ensures CleanField(DiskF(d))
  {
  }

  lemma PlainFieldClean(f: Field)
    requires f.NicF? || f.PciF? || f.TextF?
    ensures CleanField(f)
  {
  }

  // ----- clone identity -----

  /** Inherited keys that carry identity or secrets. */
  const INHERITED: set<Key> := {Ciuser, Sshkeys, Cipassword, Cicustom, NameServer, SearchDomain}

  /** Number of ipconfig slots a clone could have inherited, as far as the manifest can tell. */
  function IpSlotCount(v: VmSpec): nat {
    MaxNic(v.ci.ipConfigs, |v.nics|)
  }

  function MaxNic(ips: seq<IpConfig>, n: nat): (m: nat)
    ensures m >= n && forall i | 0 <= i < |ips| :: ips[i].nic < m
  {
    if ips == [] then n
    else
      var last := ips[|ips| - 1].nic + 1;
      var before := MaxNic(ips[..|ips| - 1], n);
      assert forall i | 0 <= i < |ips| - 1 :: ips[i] == ips[..|ips| - 1][i];
      if last > before then last else before
  }

  function IdentityKeys(v: VmSpec): set<Key> {
    INHERITED + set i | 0 <= i < IpSlotCount(v) :: Dev("ipconfig" + Itoa(i))
  }

  /** Request parameters of a fresh create, without id and start flag. */
  function CreateParams(v: VmSpec): Config {
    (map[Name := if v.pveName != "" then v.pveName else v.name]
     + (if v.description != "" then map[Description := v.description] else map[]))
    + CreateTable(OwnedTable(v)) + v.extra
  }

  function CloneDeleteKeys(v: VmSpec): set<Key> { IdentityKeys(v) - CreateParams(v).Keys }

  /** The post-clone config body of a create request: disk slots left out, the cloud-init drive only
      into an empty slot. */
  function CloneBody(params: Config, live: Config): Config {
    var body := map k | k in params && !(k.Dev? && IsDiskSlot(k.name)) :: params[k];
    if Ide2 in body && !IsNewSlot(Get(live, Ide2)) then body - {Ide2} else body
  }

  function CloneConfigWrite(v: VmSpec, live: Config): Config { CloneBody(CreateParams(v), live) }

  predicate Present(cfg: Config, k: Key) {
    TrimSpace(Get(cfg, k)) != "" && !IsNoneSlot(Get(cfg, k))
  }

  /** Inherited identity keys that are live on a clone but not owned by its manifest. */
  function ClearKeys(v: VmSpec, cfg: Config): set<Key> {
    if IsCloneBacked(v) then set k | k in IdentityKeys(v) && k !in OwnedTable(v) && Present(cfg, k) else {}
  }

  lemma ExtraNotIdentity(k: Key)
    requires ExtraKey(k)
    ensures k !in INHERITED && (k.Dev? ==> !HasPrefix(k.name, "ipconfig"))
  {
  }

  lemma IdentityKeyShape(v: VmSpec, k: Key)
    requires k in IdentityKeys(v)
    ensures k.Dev? ==> HasPrefix(k.name, "ipconfig") && !IsDiskSlot(k.name)
    ensures !k.Dev? ==> k in INHERITED
    ensures k !in {Ide2, Nesting, Name, Description}
  {
    hide IsDiskSlot, IsNicSlot, IsPciSlot;
    if k.Dev? {
      assert HasPrefix(k.name, "ipconfig");
      SlotFamilies(k.name);
    }
  }

  lemma IdentityKeyOwned(v: VmSpec, k: Key)
    requires hide *; WellFormed(v) && k in IdentityKeys(v)
    ensures k in CreateParams(v) <==> k in OwnedTable(v)
    ensures k in OwnedTable(v) ==> CreateParams(v)[k] == CreateValue(OwnedTable(v)[k].field)
    ensures k.Dev? ==> !IsDiskSlot(k.name)
    ensures k != Ide2 && k != Nesting
  {
    hide OwnedTable, IsDiskSlot, CreateValue, IdentityKeys, ExtraKey, WellFormed, CreateParams;
    IdentityKeyShape(v, k);
    if k in v.extra {
      ExtraIsExtra(v, k);
      ExtraNotIdentity(k);
    }
    CreateParamsAt(v, k);
  }

  lemma CreateParamsAt(v: VmSpec, k: Key)
    requires k !in {Name, Description} && k !in v.extra
    ensures k in CreateParams(v) <==> k in OwnedTable(v)
    ensures k in OwnedTable(v) ==> CreateParams(v)[k] == CreateValue(OwnedTable(v)[k].field)
  {
    hide OwnedTable, CreateValue;
    var head := map[Name := if v.pveName != "" then v.pveName else v.name]
                 + (if v.description != "" then map[Description := v.description] else map[]);
    var table := CreateTable(OwnedTable(v));
    assert CreateParams(v) == head + table + v.extra;
    assert k !in head;
  }

  lemma ExtraIsExtra(v: VmSpec, k: Key)
    requires WellFormed(v) && k in v.extra
    ensures ExtraKey(k)
  {
  }

  /** No template identity leaks: after the clone's config write every inherited identity key holds
      the manifest's value or is absent, disk slots and an inherited ide2 volume are untouched, and
      no key is both set and deleted. */
  lemma CloneLeavesNoIdentity(v: VmSpec, live: Config)
    requires hide *; WellFormed(v) && IsCloneBacked(v)
    ensures CloneConfigWrite(v, live).Keys !! CloneDeleteKeys(v)
    ensures var after := Written(live, CloneConfigWrite(v, live), CloneDeleteKeys(v));
            && (forall k | k in IdentityKeys(v) ::
                  if k in OwnedTable(v) then k in after && after[k] == CreateValue(OwnedTable(v)[k].field) else k !in after)
            && (forall k: Key | k.Dev? && IsDiskSlot(k.name) :: Get(after, k) == Get(live, k))
            && (!IsNewSlot(Get(live, Ide2)) ==> Get(after, Ide2) == Get(live, Ide2))
  {
    hide OwnedTable, IsDiskSlot, CreateValue, IdentityKeys, CreateParams, IsNewSlot;
    forall k | k in IdentityKeys(v)
      ensures var after := Written(live, CloneConfigWrite(v, live), CloneDeleteKeys(v));
              if k in OwnedTable(v) then k in after && after[k] == CreateValue(OwnedTable(v)[k].field) else k !in after
      ensures k.Dev? ==> !IsDiskSlot(k.name)
      ensures k != Ide2
    {
      IdentityKeyOwned(v, k);
      IdentityWritten(v, live, k);
    }
  }

  lemma IdentityWritten(v: VmSpec, live: Config, k: Key)
    requires hide *; k in IdentityKeys(v) && k != Ide2 && (k.Dev? ==> !IsDiskSlot(k.name))
    ensures var after := Written(live, CloneConfigWrite(v, live), CloneDeleteKeys(v));
            if k in CreateParams(v) then k in after && after[k] == CreateParams(v)[k] else k !in after
  {
    hide OwnedTable, IsDiskSlot, IdentityKeys, CreateParams, IsNewSlot;
  }

  // ----- drift -----

  datatype Drifted = Drifted(params: Config, deletes: set<Key>, stop: bool)

  /** The update drift returns; None when nothing changed. */
  function Drift(v: VmSpec, cfg: Config): Option<Drifted> {
    var params, deletes := DriftParams(OwnedTable(v), cfg), ClearKeys(v, cfg);
    if params == map[] && deletes == {} then None else Some(Drifted(params, deletes, DriftStops(OwnedTable(v), cfg)))
  }

  /** The config an update leaves. */
  function Applied(cfg: Config, d: Drifted): Config { Written(cfg, d.params, d.deletes) }

  predicate Reported(v: VmSpec, cfg: Config) { RewritesReported(OwnedTable(v), cfg) }

  predicate StuckDrift(v: VmSpec, cfg: Config) { StuckTable(OwnedTable(v), cfg) }

  /** The one VM field that can be written again and again: a live EFI volume on the declared storage
      whose type is pinned against the declared one. */
  predicate EfiPinned(v: VmSpec, cfg: Config) {
    && v.hw.efi.Some? && !IsNewSlot(Get(cfg, Efidisk0)) && Parse(Get(cfg, Efidisk0)).pool == v.hw.efi.value.storage
    && EfiTypeDrift(v.hw.efi.value, Parse(Get(cfg, Efidisk0)))
  }

  lemma VmStuckExactly(v: VmSpec, cfg: Config)
    requires WellFormed(v)
    ensures StuckDrift(v, cfg) <==> EfiPinned(v, cfg)
  {
    hide OwnedTable, WellFormed, Propose, Stuck, FixedEntry, CleanTable, CreateKeys, Get, StorageId, IsNewSlot, Parse, EfiTypeDrift, DiskKey, IsDiskSlot, IsNicSlot, IsPciSlot;
    TableIsClean(v);
    var t := OwnedTable(v);
    forall k | k in t ensures Propose(t[k].field, k, cfg).Some? && Stuck(t[k].field, k, cfg) ==> k == Efidisk0 {
      StuckIsEfi(t[k].field, k, cfg);
      if t[k].field.EfiF? {
        EfiKey(v, k);
      }
    }
    Origin(v, Efidisk0);
    EfiOwned(v);
    if v.hw.efi.Some? {
      WellFormedParts(v);
      EfiStuckWhen(v.hw.efi.value, cfg);
      assert Efidisk0 in t && t[Efidisk0].field == EfiF(v.hw.efi.value);
    }
  }

  lemma StuckIsEfi(f: Field, k: Key, cfg: Config)
    requires !f.NestingF?
    ensures Stuck(f, k, cfg) ==> f.EfiF?
  {
    hide Parse, IsNewSlot, EfiTypeDrift;
  }

  lemma EfiKey(v: VmSpec, k: Key)
    requires WellFormed(v) && k in OwnedTable(v) && OwnedTable(v)[k].field.EfiF?
    ensures k == Efidisk0
  {
    hide OwnedTable, WellFormed, FixedEntry, DiskKey, IsDiskSlot, IsNicSlot, IsPciSlot;
    Origin(v, k);
    if !k.Dev? {
      EfiFixed(v, k);
    }
  }

  lemma EfiFixed(v: VmSpec, k: Key)
    requires FixedEntry(v, k).Some? && FixedEntry(v, k).value.field.EfiF?
    ensures k == Efidisk0
  {
    hide SshWire, Join, MemoryMiB, TrimSpace, ScsiController, TpmVersion, AllTags;
  }

  lemma EfiOwned(v: VmSpec)
    ensures FixedEntry(v, Efidisk0) == (if v.hw.efi.Some? then Some(Entry(EfiF(v.hw.efi.value), true)) else None)
    ensures Efidisk0 in FIXED_KEYS
  {
  }

  lemma EfiStuckWhen(e: EfiDisk, cfg: Config)
    requires CleanEfi(e)
    ensures Propose(EfiF(e), Efidisk0, cfg).Some? && Stuck(EfiF(e), Efidisk0, cfg) <==>
            !IsNewSlot(Get(cfg, Efidisk0)) && Parse(Get(cfg, Efidisk0)).pool == e.storage && EfiTypeDrift(e, Parse(Get(cfg, Efidisk0)))
  {
    hide Parse, IsNewSlot, EfiTypeDrift, EfiKeysDrift, EfiRewrite, EfiCreate, Get;
    StorageIsNamed(e.storage);
  }

  lemma StorageIsNamed(s: string)
    requires StorageId(s)
    ensures s != ""
  {
  }

  lemma ClearKeysUnowned(v: VmSpec, cfg: Config)
    requires WellFormed(v)
    ensures ClearKeys(v, cfg) !! OwnedTable(v).Keys && Nesting !in ClearKeys(v, cfg)
  {
    hide OwnedTable, IsDiskSlot;
    assert Nesting !in INHERITED;
  }

  lemma StuckIs(v: VmSpec, cfg: Config)
    ensures StuckDrift(v, cfg) == StuckTable(OwnedTable(v), cfg)
  {
    hide OwnedTable, StuckTable;
  }

  lemma NothingToClear(v: VmSpec, cfg: Config)
    requires WellFormed(v)
    ensures ClearKeys(v, Written(cfg, DriftParams(OwnedTable(v), cfg), ClearKeys(v, cfg))) == {}
  {
    hide OwnedTable, IdentityKeys, Propose;
    AbsentIsBlank();
  }

  lemma AbsentIsBlank()
    ensures forall k: Key :: !Present(map[], k)
  {
  }

  /** What one drift check leaves: the updated config, or the config as it is. */
  function AfterDrift(v: VmSpec, cfg: Config): Config { if Drift(v, cfg).Some? then Applied(cfg, Drift(v, cfg).value) else cfg }

  lemma AfterDriftIs(v: VmSpec, cfg: Config)
    ensures AfterDrift(v, cfg) == Written(cfg, DriftParams(OwnedTable(v), cfg), ClearKeys(v, cfg))
  {
    hide OwnedTable, DriftParams, DriftStops, ClearKeys;
    assert cfg - {} + map[] == cfg;
  }

  /** An owned identity key settles. */
  lemma OwnedIdentitySettles(t: Table, cfg: Config, deletes: set<Key>, k: Key)
    requires k in t && CleanField(t[k].field) && deletes !! t.Keys && Nesting !in deletes && Nesting !in t
    requires var f := t[k].field; f.TextF? || f.SshKeysF? || f.PasswordF? || f.WordsF?
    ensures Propose(t[k].field, k, Written(cfg, DriftParams(t, cfg), deletes)).None?
  {
    hide Propose, CleanField;
    var f, after := t[k].field, Written(cfg, DriftParams(t, cfg), deletes);
    assert Get(after, Nesting) == Get(cfg, Nesting);
    if Propose(f, k, cfg).Some? {
      assert k in DriftParams(t, cfg);
      NeverStuck(f, k, cfg);
      FieldSettles(f, k, cfg, after);
    } else {
      assert k !in DriftParams(t, cfg);
      ProposeReads(f, k, cfg, after);
    }
  }

  /** An inherited key nobody owns is gone. */
  lemma UnownedIdentityCleared(v: VmSpec, cfg: Config, k: Key)
    requires WellFormed(v) && IsCloneBacked(v) && k in IdentityKeys(v) && k !in OwnedTable(v)
    ensures !Present(AfterDrift(v, cfg), k)
  {
    hide OwnedTable, IdentityKeys, Present, WellFormed, DriftParams, Written, AfterDrift, IsCloneBacked;
    AfterDriftIs(v, cfg);
    NothingToClear(v, cfg);
    assert k !in ClearKeys(v, AfterDrift(v, cfg));
  }

  /** If the clone's config write failed, the next drift update clears whatever was left behind. */
  lemma DriftClearsIdentity(v: VmSpec, cfg: Config)
    requires hide *; WellFormed(v) && IsCloneBacked(v)
    ensures forall k | k in IdentityKeys(v) ::
              if k in OwnedTable(v) then Propose(OwnedTable(v)[k].field, k, AfterDrift(v, cfg)).None? else !Present(AfterDrift(v, cfg), k)
  {
    hide OwnedTable, IdentityKeys, Propose, Present, WellFormed, DriftParams, Written, AfterDrift, IsCloneBacked, ClearKeys, CleanField, CreateKeys;
    TableIsClean(v);
    ClearKeysUnowned(v, cfg);
    AfterDriftIs(v, cfg);
    forall k | k in IdentityKeys(v)
      ensures if k in OwnedTable(v) then Propose(OwnedTable(v)[k].field, k, AfterDrift(v, cfg)).None? else !Present(AfterDrift(v, cfg), k)
    {
      if k in OwnedTable(v) {
        IdentityFieldPlain(v, k);
        OwnedIdentitySettles(OwnedTable(v), cfg, ClearKeys(v, cfg), k);
      } else {
        UnownedIdentityCleared(v, cfg, k);
      }
    }
  }

  lemma IdentityFieldPlain(v: VmSpec, k: Key)
    requires WellFormed(v) && k in IdentityKeys(v) && k in OwnedTable(v)
    ensures var f := OwnedTable(v)[k].field;
            (f.TextF? || f.SshKeysF? || f.PasswordF? || f.WordsF?) && CleanField(f)
  {
    hide OwnedTable, IsDiskSlot, IdentityKeys, FixedEntry, WellFormed;
    IdentityKeyShape(v, k);
    if k.Dev? {
      AddressesAreText(v, k);
    } else {
      Origin(v, k);
      FixedIdentity(v, k);
    }
  }

  lemma FixedIdentity(v: VmSpec, k: Key)
    requires hide *; k in INHERITED && FixedEntry(v, k).Some?
    ensures var f := FixedEntry(v, k).value.field;
            (f.TextF? || f.SshKeysF? || f.PasswordF? || f.WordsF?) && CleanField(f)
  {
    hide SshWire, Join, CdromEntry, AllTags, MemoryMiB, TpmVersion, ScsiController, IsCloneBacked, CleanDisk, CleanEfi,
         CleanMount, CleanBind, StorageId, CleanVolid;
  }

  lemma AddressesAreText(v: VmSpec, k: Key)
    requires WellFormed(v) && k.Dev? && HasPrefix(k.name, "ipconfig") && k in OwnedTable(v)
    ensures OwnedTable(v)[k].field.TextF?
  {
    hide DiskKey, NicKey, CleanDisk, CleanEfi, IsDiskSlot, IsNicSlot, IsPciSlot, FixedEntry;
    SlotFamilies(k.name);
    Origin(v, k);
    IpTableAt(v.ci.ipConfigs, |v.ci.ipConfigs|, k);
  }

  // ----- data-loss guard -----

  function DiskKeys(v: VmSpec): set<Key> { set i | 0 <= i < |v.disks| :: DiskKey(v.disks, i) }

  function NicKeys(v: VmSpec): set<Key> { set i | 0 <= i < |v.nics| :: NicKey(v.nics, i) }

  function PciKeys(v: VmSpec): set<Key> { set i | 0 <= i < |v.hw.pci| :: Dev(v.hw.pci[i].slot) }

  /** The first n disks whose live pool or size is not the wanted one. */
  function BlockedDisks(disks: seq<Disk>, n: nat, cfg: Config): set<Anomaly>
    requires n <= |disks|
  {
    if n == 0 then {}
    else
      var k := DiskKey(disks, n - 1);
      BlockedDisks(disks, n - 1, cfg) + if DiskBlocked(disks[n - 1], Get(cfg, k)) then {StorageDrift(k)} else {}
  }

  lemma {:induction false} BlockedDisksAre(disks: seq<Disk>, n: nat, cfg: Config, a: Anomaly)
    requires n <= |disks|
    ensures a in BlockedDisks(disks, n, cfg) <==>
            exists i | 0 <= i < n :: DiskBlocked(disks[i], Get(cfg, DiskKey(disks, i))) && a == StorageDrift(DiskKey(disks, i))
  {
    hide DiskKey, DiskBlocked;
    if n > 0 {
      BlockedDisksAre(disks, n - 1, cfg, a);
      if a in BlockedDisks(disks, n - 1, cfg) {
        var i :| 0 <= i < n - 1 && DiskBlocked(disks[i], Get(cfg, DiskKey(disks, i))) && a == StorageDrift(DiskKey(disks, i));
        assert 0 <= i < n;
      }
      assert 0 <= n - 1 < n;
    }
  }

  /** Live-only devices and storage mismatches; none of them is ever written. */
  function Anomalies(v: VmSpec, cfg: Config): set<Anomaly> {
    (set k | k in cfg && k.Dev? && IsDiskSlot(k.name) && !IsCloneBacked(v) && k !in DiskKeys(v) && !IsNoneSlot(cfg[k]) :: LiveOnly(k))
    + (set k | k in cfg && k.Dev? && IsNicSlot(k.name) && k !in NicKeys(v) :: LiveOnly(k))
    + (set k | k in cfg && k.Dev? && IsPciSlot(k.name) && k !in PciKeys(v) && cfg[k] != "" && !IsNoneSlot(cfg[k]) :: LiveOnly(k))
    + (if IsCloneBacked(v) then
         if v.hw.ciEnabled && Parse(Get(cfg, Ide2)).pool != "" && Parse(Get(cfg, Ide2)).pool != v.hw.ciStorage
         then {CloneDrivePool} else {}
       else BlockedDisks(v.disks, |v.disks|, cfg))
    + (if v.hw.efi.Some? && EfiBlocked(v.hw.efi.value, Get(cfg, Efidisk0)) then {StorageDrift(Efidisk0)} else {})
  }

  predicate DataKey(k: Key) { k == Efidisk0 || (k.Dev? && IsDiskSlot(k.name)) }

  lemma EfiKeepsVolume(e: EfiDisk, cur: string)
    requires CleanEfi(e) && !IsNewSlot(cur) && ReportForm(cur) && EfiPropose(e, cur).Some?
    ensures SameVolume(EfiPropose(e, cur).value, cur) && !EfiBlocked(e, cur)
  {
    hide Parse, IsNewSlot, EfiRewrite, CleanEfi, EfiTypeDrift, EfiKeysDrift;
    EfiRewriteParses(e, cur);
  }

  lemma DiskSameVolume(d: Disk, cur: string)
    requires CleanDisk(d) && !IsNewSlot(cur) && ReportForm(cur) && DiskPropose(d, cur).Some?
    ensures SameVolume(DiskPropose(d, cur).value, cur) && !DiskBlocked(d, cur)
  {
    hide Parse, IsNewSlot, CleanDisk, DriveString, LiveDriveRewrite, OptionsDrift, DiskBlocked, DiskPropose;
    DiskKeepsVolume(d, cur);
  }

  /** Over all of drift: whatever is written to an occupied data slot keeps the live pool, volume
      name and size; a slot the manifest does not declare is never written. */
  lemma VmDriftKeepsData(v: VmSpec, cfg: Config, k: Key)
    requires hide *; WellFormed(v) && DataKey(k) && !IsNewSlot(Get(cfg, k)) && ReportForm(Get(cfg, k))
    requires k in DriftParams(OwnedTable(v), cfg)
    ensures SameVolume(DriftParams(OwnedTable(v), cfg)[k], Get(cfg, k))
    ensures StorageDrift(k) !in Anomalies(v, cfg)
    ensures k.Dev? ==> k in DiskKeys(v)
  {
    hide OwnedTable, IsDiskSlot, DiskKey, FixedEntry, Parse, IsNewSlot, ReportForm, SameVolume, CleanDisk, CleanEfi,
         DiskPropose, EfiPropose, DiskBlocked, EfiBlocked, CreateValue, WellFormed, Anomalies, Get;
    Origin(v, k);
    StorageAnomaly(v, cfg, k);
    if k.Dev? {
      var i :| 0 <= i < |v.disks| && k == DiskKey(v.disks, i) && OwnedTable(v)[k] == Entry(DiskF(v.disks[i]), true);
      DiskIsClean(v, i);
      DiskSameVolume(v.disks[i], Get(cfg, k));
      OneDiskPerKey(v, i);
    } else {
      EfiEntry(v);
      EfiIsClean(v);
      EfiKeepsVolume(v.hw.efi.value, Get(cfg, k));
      forall j | 0 <= j < |v.disks| ensures DiskKey(v.disks, j) != k {
        IsADev(v.disks, j);
      }
    }
  }

  lemma DiskIsClean(v: VmSpec, i: nat)
    requires WellFormed(v) && i < |v.disks|
    ensures CleanDisk(v.disks[i])
  {
    hide CleanDisk, IsDiskSlot;
  }

  lemma EfiIsClean(v: VmSpec)
    requires WellFormed(v) && v.hw.efi.Some?
    ensures CleanEfi(v.hw.efi.value)
  {
    hide CleanEfi, IsDiskSlot;
  }

  lemma OneDiskPerKey(v: VmSpec, i: nat)
    requires WellFormed(v) && i < |v.disks|
    ensures forall j | 0 <= j < |v.disks| && j != i :: DiskKey(v.disks, j) != DiskKey(v.disks, i)
  {
    hide CleanDisk, IsDiskSlot, DiskKey;
    forall j | 0 <= j < |v.disks| && j != i ensures DiskKey(v.disks, j) != DiskKey(v.disks, i) {
      assert j < i ==> DiskKey(v.disks, j) != DiskKey(v.disks, i);
      assert i < j ==> DiskKey(v.disks, i) != DiskKey(v.disks, j);
    }
  }

  /** When a storage mismatch is reported for a slot. */
  lemma StorageAnomaly(v: VmSpec, cfg: Config, k: Key)
    ensures StorageDrift(k) in Anomalies(v, cfg) ==>
              (exists i | 0 <= i < |v.disks| :: DiskBlocked(v.disks[i], Get(cfg, DiskKey(v.disks, i))) && k == DiskKey(v.disks, i))
              || (k == Efidisk0 && v.hw.efi.Some? && EfiBlocked(v.hw.efi.value, Get(cfg, Efidisk0)))
  {
    hide IsDiskSlot, IsNicSlot, IsPciSlot, DiskKey, NicKey, DiskBlocked, EfiBlocked, Parse, IsNoneSlot, IsCloneBacked;
    BlockedDisksAre(v.disks, |v.disks|, cfg, StorageDrift(k));
  }

  lemma EfiEntry(v: VmSpec)
    requires FixedEntry(v, Efidisk0).Some?
    ensures v.hw.efi.Some? && FixedEntry(v, Efidisk0).value.field == EfiF(v.hw.efi.value)
  {
  }

  /** A pool or size mismatch on a live declared disk is reported and its slot is left alone. */
  lemma VmReportsDiskMismatch(v: VmSpec, cfg: Config, i: nat)
    requires hide *; WellFormed(v) && i < |v.disks| && DiskBlocked(v.disks[i], Get(cfg, DiskKey(v.disks, i)))
    ensures DiskKey(v.disks, i) !in DriftParams(OwnedTable(v), cfg)
    ensures StorageDrift(DiskKey(v.disks, i)) in Anomalies(v, cfg)
  {
    hide OwnedTable, IsDiskSlot, DiskKey, DiskBlocked, WellFormed, Anomalies, Get, DriftParams, BlockedDisks;
    DiskEntryAt(v, i);
    BlockedEntryStays(OwnedTable(v), DiskKey(v.disks, i), v.disks[i], cfg);
    BlockedDisksAre(v.disks, |v.disks|, cfg, StorageDrift(DiskKey(v.disks, i)));
    BlockedReported(v, cfg, StorageDrift(DiskKey(v.disks, i)));
  }

  lemma DiskEntryAt(v: VmSpec, i: nat)
    requires WellFormed(v) && i < |v.disks|
    ensures DiskKey(v.disks, i) in OwnedTable(v)
            && OwnedTable(v)[DiskKey(v.disks, i)] == Entry(DiskF(v.disks[i]), true)
  {
    hide OwnedTable, IsDiskSlot, DiskKey, WellFormed, FixedEntry, IsNicSlot, IsPciSlot, SetsAddress;
    Origin(v, DiskKey(v.disks, i));
  }

  lemma BlockedEntryStays(t: Table, k: Key, d: Disk, cfg: Config)
    requires hide *; k in t && t[k] == Entry(DiskF(d), true) && DiskBlocked(d, Get(cfg, k))
    ensures k !in DriftParams(t, cfg)
  {
    hide DiskBlocked, DiskPropose;
    BlockedProposesNothing(d, Get(cfg, k));
  }

  /** A clone declares no disks, so every blocked disk is reported. */
  lemma BlockedReported(v: VmSpec, cfg: Config, a: Anomaly)
    requires WellFormed(v) && a in BlockedDisks(v.disks, |v.disks|, cfg)
    ensures a in Anomalies(v, cfg)
  {
    hide IsDiskSlot, IsNicSlot, IsPciSlot, DiskKey, NicKey, CleanDisk, CleanEfi, DiskBlocked, EfiBlocked, Parse, IsNoneSlot, ExtraKey, CleanVolid, IsCloneBacked, StorageId;
  }

  /** A pool mismatch of a live EFI volume is reported and efidisk0 is left alone. */
  lemma VmReportsEfiMismatch(v: VmSpec, cfg: Config)
    requires hide *; WellFormed(v) && v.hw.efi.Some? && EfiBlocked(v.hw.efi.value, Get(cfg, Efidisk0))
    ensures Efidisk0 !in DriftParams(OwnedTable(v), cfg)
    ensures StorageDrift(Efidisk0) in Anomalies(v, cfg)
  {
    hide OwnedTable, FixedEntry, DiskBlocked, DiskKey, IsDiskSlot, IsNicSlot, IsPciSlot, NicKey, WellFormed, EfiBlocked, EfiPropose, Get, Parse;
    Origin(v, Efidisk0);
    EfiBlockedProposesNothing(v.hw.efi.value, Get(cfg, Efidisk0));
    if Efidisk0 in OwnedTable(v) {
      EfiEntry(v);
    }
  }

  lemma EfiBlockedProposesNothing(e: EfiDisk, cur: string)
    requires EfiBlocked(e, cur)
    ensures EfiPropose(e, cur).None?
  {
    hide Parse, IsNewSlot, EfiCreate, EfiRewrite;
  }

  lemma BlockedProposesNothing(d: Disk, cur: string)
    requires DiskBlocked(d, cur)
    ensures DiskPropose(d, cur).None?
  {
  }

  // ----- creation -----

  /** A fresh VM needs nothing further once PVE has stored its create request. */
  lemma NothingInheritedBy(v: VmSpec)
    requires !IsCloneBacked(v)
    ensures forall cfg :: ClearKeys(v, cfg) == {}
  {
    hide IsCloneBacked;
  }

  lemma VmCreateSettles(v: VmSpec)
    requires WellFormed(v) && !IsCloneBacked(v)
    ensures Drift(v, CreatedConfig(v.vmid, CreateParams(v))).None?
  {
    hide OwnedTable, FixedEntry, CreateValue, DriveKey, DiskKey, NicKey, IsDiskSlot, IsNicSlot, IsPciSlot, ExtraKey, Propose,
         CleanField, StorageId, CleanDisk, CleanEfi, NormalizeDrive, WellFormed, IsCloneBacked, ClearKeys, CreatedConfig, CleanTable, CreateKeys;
    TableIsClean(v);
    NothingInheritedBy(v);
    var head := map[Name := if v.pveName != "" then v.pveName else v.name]
                + (if v.description != "" then map[Description := v.description] else map[]);
    var t := OwnedTable(v);
    forall k | k in t ensures k !in head && k !in v.extra {
      Origin(v, k);
      if k in v.extra {
        ExtraIsExtra(v, k);
        ExtraNotOwned(v, k);
      }
      NameNotFixed();
    }
    assert Nesting !in v.extra by {
      if Nesting in v.extra { ExtraIsExtra(v, Nesting); NestingNotExtra(); }
    }
    assert (head + CreateTable(t)) + v.extra == (head + v.extra) + CreateTable(t);
    CreateSettles(t, v.vmid, head + v.extra);
  }

  lemma NameNotFixed()
    ensures Name !in FIXED_KEYS && Description !in FIXED_KEYS
  {
  }

  lemma NestingNotExtra()
    ensures !ExtraKey(Nesting)
  {
  }

  lemma ExtraNotOwned(v: VmSpec, k: Key)
    requires WellFormed(v) && ExtraKey(k)
    ensures k !in OwnedTable(v)
  {
    hide OwnedTable, FixedEntry, IsDiskSlot, IsNicSlot, IsPciSlot, DiskKey, NicKey;
    Origin(v, k);
  }

  // ----- the step-by-step form -----

  /** One owned key: write the value when it has drifted. */
  method Check(k: Key, e: Entry, current: Config, upd: Config, stop: bool) returns (upd': Config, stop': bool)
    ensures hide *; upd' == if Propose(e.field, k, current).Some? then upd[k := Propose(e.field, k, current).value] else upd
    ensures stop' == (stop || (e.stop && Propose(e.field, k, current).Some?))
  {
    upd', stop' := upd, stop;
    var value := Propose(e.field, k, current);
    if value.Some? {
      upd' := upd'[k := value.value];
      if e.stop {
        stop' := true;
      }
    }
  }

  /** Updates gathered from the keys in `seen`. */
  predicate Gathered(t: Table, seen: set<Key>, current: Config, upd: Config, stop: bool) {
    upd == DriftParams(Restrict(t, seen), current) && (stop <==> DriftStops(Restrict(t, seen), current))
  }

  lemma GatherOne(t: Table, seen: set<Key>, k: Key, current: Config, upd: Config, stop: bool)
    requires hide *; k in t && k !in seen && Gathered(t, seen, current, upd, stop)
    ensures var p := Propose(t[k].field, k, current);
            Gathered(t, seen + {k}, current, if p.Some? then upd[k := p.value] else upd, stop || (t[k].stop && p.Some?))
  {
    hide Propose, DriftParams, DriftStops;
    var before := Restrict(t, seen);
    assert Restrict(t, seen + {k}) == before[k := t[k]];
    ParamsExtend(before, k, t[k], current);
    StopsExtend(before, k, t[k], current);
  }

  /** Drift as the schema computes it: one owned key after the other, then for a clone the inherited
      keys to clear. */
  method ComputeDrift(v: VmSpec, current: Config) returns (drift: Option<Drifted>)
    ensures drift == Drift(v, current)
  {
    hide Propose, OwnedTable;
    var upd: Config, stop := map[], false;
    var table := OwnedTable(v);
    var todo := table.Keys;
    assert Restrict(table, {}) == map[];
    while todo != {}
      invariant todo <= table.Keys
      invariant Gathered(table, table.Keys - todo, current, upd, stop)
      decreases todo
    {
      var k :| k in todo;
      GatherOne(table, table.Keys - todo, k, current, upd, stop);
      upd, stop := Check(k, table[k], current, upd, stop);
      assert table.Keys - (todo - {k}) == table.Keys - todo + {k};
      todo := todo - {k};
    }
    assert Restrict(table, table.Keys - todo) == table;
    var clear := ComputeClearKeys(v, current);
    if upd == map[] && clear == {} {
      return None;
    }
    drift := Some(Drifted(upd, clear, stop));
  }

  method ComputeClearKeys(v: VmSpec, current: Config) returns (out: set<Key>)
    ensures out == ClearKeys(v, current)
  {
    hide OwnedTable, Present, IsCloneBacked, Itoa, IpSlotCount;
    out := {};
    if IsCloneBacked(v) {
      var table := OwnedTable(v);
      var todo := INHERITED;
      while todo != {}
        invariant todo <= INHERITED
        invariant out == set k | k in INHERITED - todo && k !in table && Present(current, k)
        decreases todo
      {
        var k :| k in todo;
        if k !in table && Present(current, k) {
          out := out + {k};
        }
        todo := todo - {k};
      }
      var n := IpSlotCount(v);
      for i := 0 to n
        invariant out == set k | k in INHERITED + IpKeys(i) && k !in table && Present(current, k)
      {
        var k := Dev("ipconfig" + Itoa(i));
        assert IpKeys(i + 1) == IpKeys(i) + {k};
        if k !in table && Present(current, k) {
          out := out + {k};
        }
      }
      assert IdentityKeys(v) == INHERITED + IpKeys(n);
    }
  }

  function IpKeys(n: nat): set<Key> { set i | 0 <= i < n :: Dev("ipconfig" + Itoa(i)) }

  /** The disk section on its own: safe updates, stop flag and reported mismatches. */
  method DiskSlotDrift(v: VmSpec, current: Config) returns (upd: Config, stop: bool, anoms: set<Anomaly>)
    requires hide *; WellFormed(v)
    ensures upd == DriftParams(DiskTable(v.disks, |v.disks|), current)
    ensures stop <==> upd != map[]
    ensures anoms == BlockedDisks(v.disks, |v.disks|, current)
  {
    hide DiskKey, DiskBlocked, DiskPropose, CleanDisk, IsDiskSlot, DriftParams, WellFormed, Get;
    NoDiskParams(v.disks, current);
    upd, stop, anoms := map[], false, {};
    for i := 0 to |v.disks|
      invariant upd == DriftParams(DiskTable(v.disks, i), current)
      invariant stop <==> upd != map[]
      invariant anoms == BlockedDisks(v.disks, i, current)
    {
      var d, slot := v.disks[i], DiskKey(v.disks, i);
      var cur := Get(current, slot);
      NewDiskKey(v, i);
      DiskParamsExtend(v.disks, i, current);
      if DiskBlocked(d, cur) {
        anoms := anoms + {StorageDrift(slot)};
        BlockedProposesNothing(d, cur);
      } else {
        var value := DiskPropose(d, cur);
        if value.Some? {
          upd := upd[slot := value.value];
          assert slot in upd;
          stop := true;
        }
      }
    }
  }

  lemma NoDiskParams(disks: seq<Disk>, cfg: Config)
    ensures hide *; DriftParams(DiskTable(disks, 0), cfg) == map[]
  {
  }

  lemma DiskParamsExtend(disks: seq<Disk>, i: nat, cfg: Config)
    requires hide *; i < |disks| && DiskKey(disks, i) !in DiskTable(disks, i)
    ensures var p, k := DiskPropose(disks[i], Get(cfg, DiskKey(disks, i))), DiskKey(disks, i);
            DriftParams(DiskTable(disks, i + 1), cfg) ==
            if p.Some? then DriftParams(DiskTable(disks, i), cfg)[k := p.value] else DriftParams(DiskTable(disks, i), cfg)
  {
    hide DiskPropose, DriftParams, DiskKey;
    ParamsExtend(DiskTable(disks, i), DiskKey(disks, i), Entry(DiskF(disks[i]), true), cfg);
  }

  lemma NewDiskKey(v: VmSpec, i: nat)
    requires WellFormed(v) && i < |v.disks|
    ensures DiskKey(v.disks, i) !in DiskTable(v.disks, i)
  {
    hide DiskKey, IsDiskSlot, CleanDisk;
    DiskTableAt(v.disks, i);
    assert forall j | 0 <= j < i :: DiskKey(v.disks, j) != DiskKey(v.disks, i);
  }
}
