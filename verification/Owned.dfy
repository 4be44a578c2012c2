/** The owned-field surface of a guest: which /config keys a manifest owns, what is written for each
    and when the live value counts as drifted. One table per manifest drives both the create
    parameters and the drift check. */
module Owned {
  import opened Text
  import opened Quantity
  import opened Drive
  import opened Devices
  import opened LxcWire
  import opened LxcMounts
  import opened VmDrives
  import Codec

  /** A PVE /config key; Dev names numbered slots and every key without a constructor here. */
  datatype Key =
    | Cpu | Cores | Memory | Tags | Scsihw | Machine | Bios | Vga | Sockets | Numa
    | Ide2 | Ide3 | Efidisk0 | Tpm0 | Serial0
    | Ciuser | Sshkeys | Cipassword | Cicustom | NameServer | SearchDomain
    | Onboot | Startup | Protection | Agent | Acpi | Tablet | Hotplug | Boot | Nestedvirt | Hidden
    | TemplateFlag | Name | Description
    | Swap | Arch | Hostname | Rootfs | Console | Features | Nesting | Unprivileged | Keyctl | Fuse | Ostemplate
    | Dev(name: string)

  type Config = map<Key, string>

  /** The live value, "" when the key is absent. */
  function Get(cfg: Config, k: Key): string { if k in cfg then cfg[k] else "" }

  /** Go's integer coercion of a live value. */
  function PveInt(s: string): int { Atoi(TrimSpace(s)) }

  datatype Field =
    | TextF(text: string)
    | IntF(number: int)
    | FlagF
    | TagsF(tags: seq<string>)
    | WordsF(words: string)
    | DescriptionF(description: string)
    | DiskF(disk: Disk)
    | EfiF(efi: EfiDisk)
    | NicF(nic: Nic)
    | CloudInitF(storage: string, size: string, cloneBacked: bool)
    | CdromF(volid: string, media: string)
    | CdromNoneF
    | TpmF(version: string)
    | PciF(pci: Pci)
    | SshKeysF(wire: string)
    | PasswordF(password: string)
    | NameserverF(servers: string)
    | RootF(pool: string, bytes: int)
    | MountF(mount: Mount)
    | BindF(bind: Bind)
    | NetF(net: Net)
    | SwitchF(on: bool)
    | NestingF(nesting: bool)

  /** One owned key: the field and whether changing it needs a stopped guest. */
  datatype Entry = Entry(field: Field, stop: bool)

  type Table = map<Key, Entry>

  function CloudInitWire(storage: string, size: string): string { storage + ":cloudinit,size=" + size }

  function TpmWire(version: string): string { "endpoint=host,version=" + version }

  /** The value a create request carries for the field. */
  function CreateValue(f: Field): string {
    match f
    case TextF(t) => t
    case IntF(n) => Itoa(n)
    case FlagF => "1"
    case TagsF(tags) => Join(tags, ",")
    case WordsF(w) => w
    case DescriptionF(d) => d
    case DiskF(d) => DriveString(d)
    case EfiF(e) => EfiCreate(e)
    case NicF(n) => NicString(n)
    case CloudInitF(storage, size, _) => CloudInitWire(storage, size)
    case CdromF(volid, media) => volid + ",media=" + media
    case CdromNoneF => "none"
    case TpmF(v) => TpmWire(v)
    case PciF(p) => PciWire(p)
    case SshKeysF(w) => w
    case PasswordF(p) => p
    case NameserverF(s) => s
    case RootF(pool, bytes) => Alloc(pool, bytes)
    case MountF(m) => MountCreateWire(m)
    case BindF(b) => BindWire(b)
    case NetF(n) => NetString(n)
    case SwitchF(on) => BoolWire(on)
    case NestingF(on) => "nesting=" + BoolWire(on)
  }

  /** Value of the nesting token in a features composite, "0" when there is none. */
  function FeaturesNesting(features: string): string {
    var v := RawValue(Split(features, ','), "nesting");
    if features != "" && v.Some? then v.value else "0"
  }

  function LiveNesting(cfg: Config): string {
    if Get(cfg, Nesting) != "" then Get(cfg, Nesting) else FeaturesNesting(Get(cfg, Features))
  }

  /** The rootfs match used before a create-form write of an empty slot. */
  predicate RootMatches(cur: DiskInfo, want: DiskInfo) {
    && cur.pool == want.pool && cur.iothread == want.iothread
    && (cur.size.Some? ==> want.size.Some? && cur.size == want.size)
  }

  /** The value drift proposes for the field, None when the live value stays. */
  function Propose(f: Field, k: Key, cfg: Config): Option<string> {
    var cur := Get(cfg, k);
    match f
    case TextF(t) => if cur != t then Some(t) else None
    case IntF(n) => if PveInt(cur) != n then Some(Itoa(n)) else None
    case FlagF => if PveInt(cur) != 1 then Some("1") else None
    case TagsF(tags) => if !TagsEqual(cur, tags) then Some(Join(tags, ",")) else None
    case WordsF(w) => if !WordSetsEqual(cur, w) then Some(w) else None
    case DescriptionF(d) => if TrimSpace(cur) != TrimSpace(d) then Some(d) else None
    case DiskF(d) => DiskPropose(d, cur)
    case EfiF(e) => EfiPropose(e, cur)
    case NicF(n) => if !NicMatches(cur, NicString(n)) then Some(NicString(n)) else None
    case CloudInitF(storage, size, cloneBacked) =>
      var want := CloudInitWire(storage, size);
      if !CloudInitMatches(cur, want) && (!cloneBacked || IsNewSlot(cur)) then Some(want) else None
    case CdromF(volid, media) => if !CdromMatches(cur, volid) then Some(volid + ",media=" + media) else None
    case CdromNoneF => if TrimSpace(cur) != "" && !HasPrefix(TrimSpace(cur), "none") then Some("none") else None
    case TpmF(v) => if !TpmMatches(cur, TpmWire(v)) then Some(TpmWire(v)) else None
    case PciF(p) => if !PciMatches(cur, p) then Some(PciWire(p)) else None
    case SshKeysF(w) => if !Codec.WireMatch(cur, w) then Some(w) else None
    case PasswordF(p) => if cur == "" then Some(p) else None
    case NameserverF(s) => if !NameserverEquals(cur, s) then Some(s) else None
    case RootF(pool, bytes) =>
      if IsNewSlot(cur) && !RootMatches(Parse(cur), Parse(Alloc(pool, bytes))) then Some(Alloc(pool, bytes)) else None
    case MountF(m) => MountPropose(m, cur)
    case BindF(b) => BindPropose(b, cur)
    case NetF(n) => if !NetMatches(cur, n) then Some(NetString(n)) else None
    case SwitchF(on) => if (cur == "1" || cur == "true") != on then Some(BoolWire(on)) else None
    case NestingF(on) => if LiveNesting(cfg) != BoolWire(on) then Some("nesting=" + BoolWire(on)) else None
  }

  /** Live state the planner reports and never writes. */
  datatype Anomaly =
    | LiveOnly(key: Key)
    | StorageDrift(key: Key)
    | CloneDrivePool
    | CreateOnly(key: Key)
    | NotConvergable(key: Key)

  // ----- what makes a field well formed, and the inputs on which it can never settle -----

  predicate CleanField(f: Field) {
    match f
    case TagsF(tags) => tags != [] && forall t | t in tags :: CleanTag(t)
    case DiskF(d) => CleanDisk(d)
    case EfiF(e) => CleanEfi(e)
    case CdromF(volid, media) => media in {"cdrom", "disk"} && CleanVolid(volid)
    case PasswordF(p) => p != ""
    case RootF(pool, bytes) => StorageId(pool) && bytes >= 0
    case MountF(m) => CleanMount(m)
    case BindF(b) => CleanBind(b)
    case NetF(n) => CleanNet(n)
    case _ => true
  }

  /** A resolved ISO volume id. */
  predicate CleanVolid(volid: string) {
    var i := IndexOf(volid, ':');
    && i < |volid| && HasPrefix(volid[i + 1..], "iso/")
    && CleanIso(volid[..i], volid[i + 5..])
  }

  /** Inputs on which the written value is proposed again: an EFI type pinned against the live one
      and a legacy top-level nesting key. */
  predicate Stuck(f: Field, k: Key, cfg: Config) {
    match f
    case EfiF(e) => !IsNewSlot(Get(cfg, k)) && EfiTypeDrift(e, Parse(Get(cfg, k)))
    case NestingF(on) => Get(cfg, Nesting) != ""
    case _ => false
  }

  /** Live drives that are to be rewritten are in report form. */
  predicate RewritesReportForm(f: Field, cur: string) {
    f.DiskF? || f.EfiF? || f.MountF? ==> IsNewSlot(cur) || ReportForm(cur)
  }

  lemma VolidParts(volid: string)
    requires CleanVolid(volid)
    ensures exists storage, file :: volid == IsoVolid(storage, file) && CleanIso(storage, file)
  {
    var i := IndexOf(volid, ':');
    assert volid[i + 1..][..4] == "iso/";
    assert volid == IsoVolid(volid[..i], volid[i + 5..]);
  }

  lemma WrittenVolid(volid: string, media: string)
    requires CleanVolid(volid) && media in {"cdrom", "disk"}
    ensures CdromMatches(volid + ",media=" + media, volid)
  {
    hide CdromMatches, CleanVolid;
    VolidParts(volid);
    var storage, file :| volid == IsoVolid(storage, file) && CleanIso(storage, file);
    WrittenCdrom(storage, file, media);
  }

  lemma ItoaReads(n: int)
    ensures PveInt(Itoa(n)) == n
  {
    hide Itoa, Atoi;
    AtoiItoa(n);
    assert Trimmed(Itoa(n));
  }

  lemma NestingReads(on: bool)
    ensures FeaturesNesting("nesting=" + BoolWire(on)) == BoolWire(on)
  {
    hide IndexOf;
    var s := "nesting=" + BoolWire(on);
    BindPair("nesting", BoolWire(on));
    assert "nesting" + "=" + BoolWire(on) == s;
    SplitJoin([s], ',');
    assert Join([s], ",") == s;
    CleanTokenTrims(s);
    assert RawValue([s], "nesting") == Some(BoolWire(on));
  }

  lemma AllocIsLive(pool: string, bytes: int)
    requires StorageId(pool)
    ensures !IsNewSlot(Alloc(pool, bytes))
  {
    hide GiBString, CleanToken, IsNewSlot, Parse, ParseTokens, ParseToken;
    GiBClean(bytes);
    StorageClean(pool);
    ParseRender(pool, GiBString(bytes), []);
    StorageIsLive(pool, Join([GiBString(bytes)] + [], ","));
  }

  /** Comparing a written value with itself, for the fields whose test is a plain comparison. */
  lemma PlainSettles(f: Field, k: Key, cfg: Config)
    requires CleanField(f) && !f.DiskF? && !f.EfiF? && !f.MountF? && !f.BindF? && !f.RootF? && !f.NestingF?
    requires Get(cfg, k) == CreateValue(f)
    ensures Propose(f, k, cfg).None? <==> !Stuck(f, k, cfg)
  {
    hide NicString, ParseNic, PciTokens, Codec.KeySet, Words, NetString, NetMatches, TagsEqual, CdromMatches,
         CleanVolid, SplitCloudInit, CloudInitWire, TpmWire, FirstValue, CleanNet, TrimSpace, Itoa, PveInt, Split, Join,
         Lower, PveSizeBytes, CleanTag, BoolWire;
    match f
    case IntF(n) => ItoaReads(n);
    case FlagF => OneReads();
    case TagsF(tags) => CleanTagSet(tags);
    case CdromF(volid, media) => WrittenVolid(volid, media);
    case NetF(n) => WrittenNet(n);
    case SwitchF(on) => BoolWires(on);
    case CdromNoneF => NoneTrims();
    case _ =>
  }

  lemma OneReads()
    ensures PveInt("1") == 1
  {
    assert NatValue("1") == 1;
  }

  lemma BoolWires(on: bool)
    ensures (BoolWire(on) == "1" || BoolWire(on) == "true") == on
  {
  }

  lemma NoneTrims()
    ensures TrimSpace("none") == "none"
  {
    assert Trimmed("none");
  }

  /** Does a value written over `cfg` settle? It does exactly when the field is not stuck. */
  lemma FieldSettles(f: Field, k: Key, cfg: Config, after: Config)
    requires hide *; CleanField(f) && Propose(f, k, cfg).Some? && RewritesReportForm(f, Get(cfg, k))
    requires Get(after, k) == Propose(f, k, cfg).value && Get(after, Nesting) == Get(cfg, Nesting)
    requires f.NestingF? ==> k == Features
    ensures Propose(f, k, after).None? <==> !Stuck(f, k, cfg)
  {
    hide *;
    if f.DiskF? || f.EfiF? || f.MountF? || f.BindF? {
      VolumeSettles(f, k, cfg, after);
    } else if f.RootF? || f.NestingF? {
      RuleSettles(f, k, cfg, after);
    } else {
      ProposesCreateValue(f, k, cfg);
      PlainSettles(f, k, after);
      StuckReadsLittle(f, k, cfg, after);
    }
  }

  lemma VolumeSettles(f: Field, k: Key, cfg: Config, after: Config)
    requires f.DiskF? || f.EfiF? || f.MountF? || f.BindF?
    requires hide *; CleanField(f) && Propose(f, k, cfg).Some? && RewritesReportForm(f, Get(cfg, k)) && Get(after, k) == Propose(f, k, cfg).value
    ensures Propose(f, k, after).None? <==> !Stuck(f, k, cfg)
  {
    hide DiskPropose, EfiPropose, MountPropose, BindPropose, IsNewSlot, ReportForm, Parse, CleanDisk, CleanEfi, CleanMount, CleanBind, EfiTypeDrift,
         Propose, CleanNet, CleanVolid, CleanTag, StorageId, Get;
    ProposeIs(f, k, cfg);
    ProposeIs(f, k, after);
    match f
    case DiskF(d) => DiskSettles(d, Get(cfg, k));
    case EfiF(e) => EfiSettles(e, Get(cfg, k));
    case MountF(m) => MountSettles(m, Get(cfg, k));
    case BindF(b) => BindSettles(b, Get(cfg, k));
  }

  lemma RuleSettles(f: Field, k: Key, cfg: Config, after: Config)
    requires (f.RootF? || f.NestingF?) && (f.NestingF? ==> k == Features)
    requires hide *; CleanField(f) && Propose(f, k, cfg).Some? && Get(after, k) == Propose(f, k, cfg).value && Get(after, Nesting) == Get(cfg, Nesting)
    ensures Propose(f, k, after).None? <==> !Stuck(f, k, cfg)
  {
    hide IsNewSlot, Alloc, StorageId, Propose, FeaturesNesting, BoolWire, Parse, EfiTypeDrift, CleanDisk, CleanEfi, CleanMount, CleanBind, CleanNet,
         CleanVolid, CleanTag, Get;
    ProposeIs(f, k, cfg);
    ProposeIs(f, k, after);
    match f
    case RootF(pool, bytes) => AllocIsLive(pool, bytes);
    case NestingF(on) =>
      NestingReads(on);
      NestingProposed(on, cfg);
  }

  /** Nesting is proposed against the top-level key when there is one. */
  lemma NestingProposed(on: bool, cfg: Config)
    ensures Get(cfg, Nesting) != "" ==> LiveNesting(cfg) == Get(cfg, Nesting)
  {
    hide FeaturesNesting;
  }

  /** What drift proposes for the fields with a volume or a rule of their own. */
  lemma ProposeIs(f: Field, k: Key, cfg: Config)
    ensures f.DiskF? ==> Propose(f, k, cfg) == DiskPropose(f.disk, Get(cfg, k))
    ensures f.EfiF? ==> Propose(f, k, cfg) == EfiPropose(f.efi, Get(cfg, k))
    ensures f.MountF? ==> Propose(f, k, cfg) == MountPropose(f.mount, Get(cfg, k))
    ensures f.BindF? ==> Propose(f, k, cfg) == BindPropose(f.bind, Get(cfg, k))
    ensures f.RootF? && !IsNewSlot(Get(cfg, k)) ==> Propose(f, k, cfg).None?
    ensures f.RootF? && Propose(f, k, cfg).Some? ==> Propose(f, k, cfg).value == Alloc(f.pool, f.bytes)
    ensures f.NestingF? ==> Propose(f, k, cfg) == if LiveNesting(cfg) != BoolWire(f.nesting) then Some("nesting=" + BoolWire(f.nesting)) else None
  {
    hide DiskPropose, EfiPropose, MountPropose, BindPropose, IsNewSlot, Parse, Alloc, RootMatches, CloudInitWire, LiveNesting, BoolWire,
         TrimSpace, Atoi, Itoa, Join, TagsEqual, WordSetsEqual, NicMatches, NicString, CloudInitMatches, CdromMatches, TpmMatches, TpmWire, PciMatches, PciWire,
         Codec.WireMatch, NameserverEquals, NetMatches, NetString;
  }

  lemma CreateValueIs(f: Field)
    ensures f.DiskF? ==> CreateValue(f) == DriveString(f.disk)
    ensures f.EfiF? ==> CreateValue(f) == EfiCreate(f.efi)
    ensures f.MountF? ==> CreateValue(f) == MountCreateWire(f.mount)
    ensures f.BindF? ==> CreateValue(f) == BindWire(f.bind)
    ensures f.RootF? ==> CreateValue(f) == Alloc(f.pool, f.bytes)
    ensures f.NestingF? ==> CreateValue(f) == "nesting=" + BoolWire(f.nesting)
    ensures f.CloudInitF? ==> CreateValue(f) == CloudInitWire(f.storage, f.size)
    ensures f.CdromF? ==> CreateValue(f) == f.volid + ",media=" + f.media
    ensures f.CdromNoneF? ==> CreateValue(f) == "none"
  {
    hide DriveString, EfiCreate, MountCreateWire, BindWire, Alloc, CloudInitWire, BoolWire, NicString, NetString, TpmWire, PciWire, Itoa, Join;
  }

  lemma StuckReadsLittle(f: Field, k: Key, cfg: Config, after: Config)
    requires !f.EfiF? && !f.NestingF?
    ensures Stuck(f, k, cfg) == Stuck(f, k, after)
  {
  }

  /** Apart from in-place rewrites, drift proposes the value a create would send. */
  lemma ProposesCreateValue(f: Field, k: Key, cfg: Config)
    requires hide *; Propose(f, k, cfg).Some? && !f.DiskF? && !f.EfiF? && !f.MountF?
    ensures Propose(f, k, cfg).value == CreateValue(f)
  {
  }

  lemma DiskSettles(d: Disk, cur: string)
    requires CleanDisk(d) && DiskPropose(d, cur).Some? && (IsNewSlot(cur) || ReportForm(cur))
    ensures DiskPropose(d, DiskPropose(d, cur).value).None?
  {
    hide DriveString, Parse, IsNewSlot, CleanDisk, LiveDriveRewrite, OptionsDrift, ReportForm, NormalizeDrive, DiskBlocked;
    if IsNewSlot(cur) {
      CreatedDiskSettles(0, d, DriveString(d));
    } else {
      RewrittenDiskSettles(d, cur);
    }
  }

  lemma EfiSettles(e: EfiDisk, cur: string)
    requires CleanEfi(e) && EfiPropose(e, cur).Some? && (IsNewSlot(cur) || ReportForm(cur))
    ensures EfiPropose(e, EfiPropose(e, cur).value).None? <==> (IsNewSlot(cur) || !EfiTypeDrift(e, Parse(cur)))
  {
    hide Parse, IsNewSlot, CleanEfi, EfiTypeDrift, EfiCreate, EfiRewrite, EfiKeysDrift, ReportForm;
    if IsNewSlot(cur) {
      CreatedEfiSettles(e);
    } else {
      RewrittenEfiSettles(e, cur);
    }
  }

  lemma MountSettles(m: Mount, cur: string)
    requires CleanMount(m) && MountPropose(m, cur).Some? && (IsNewSlot(cur) || ReportForm(cur))
    ensures MountPropose(m, MountPropose(m, cur).value).None?
  {
    hide IsNewSlot, CleanMount, MountCreateWire, MountRewrite, MountNeeds, ReportForm, MountBlocked;
    if IsNewSlot(cur) {
      CreatedMountSettles(m);
    } else {
      RewrittenMountSettles(m, cur);
    }
  }

  lemma BindSettles(b: Bind, cur: string)
    requires CleanBind(b) && BindPropose(b, cur).Some?
    ensures BindPropose(b, BindPropose(b, cur).value).None?
  {
    hide IsNewSlot, CleanBind, BindWire, BindBlocked, BindNeeds;
    WrittenBindSettles(b);
  }

  // ----- a whole table -----

  /** The owned fields that have drifted, with the values to write. */
  function DriftParams(t: Table, cfg: Config): Config {
    hide *;
    map k | k in t && Propose(t[k].field, k, cfg).Some? :: Propose(t[k].field, k, cfg).value
  }

  predicate DriftStops(t: Table, cfg: Config) {
    hide *;
    exists k | k in t :: t[k].stop && Propose(t[k].field, k, cfg).Some?
  }

  function CreateTable(t: Table): Config {
    map k | k in t :: CreateValue(t[k].field)
  }

  /** One /config request: deletions, then settings. */
  function Written(cfg: Config, sets: Config, deletes: set<Key>): Config {
    (cfg - deletes) + sets
  }

  /** The entries at the keys `seen`. */
  function Restrict(t: Table, seen: set<Key>): Table { map k | k in t && k in seen :: t[k] }

  predicate CleanTable(t: Table) {
    forall k | k in t :: CleanField(t[k].field) && k != Nesting && (t[k].field.NestingF? ==> k == Features)
  }

  predicate RewritesReported(t: Table, cfg: Config) {
    hide *;
    forall k | k in t && Propose(t[k].field, k, cfg).Some? :: RewritesReportForm(t[k].field, Get(cfg, k))
  }

  /** Some drifted field is written with a value that drifts again. */
  predicate StuckTable(t: Table, cfg: Config) {
    hide *;
    exists k | k in t :: Propose(t[k].field, k, cfg).Some? && Stuck(t[k].field, k, cfg)
  }

  lemma ParamAt(t: Table, cfg: Config, x: Key)
    ensures hide *; x in DriftParams(t, cfg) <==> x in t && Propose(t[x].field, x, cfg).Some?
    ensures x in DriftParams(t, cfg) ==> DriftParams(t, cfg)[x] == Propose(t[x].field, x, cfg).value
  {
    hide Propose;
  }

  /** Adding one owned key adds at most its own update. */
  lemma ParamsExtend(t: Table, k: Key, e: Entry, cfg: Config)
    requires hide *; k !in t
    ensures DriftParams(t[k := e], cfg) ==
            if Propose(e.field, k, cfg).Some? then DriftParams(t, cfg)[k := Propose(e.field, k, cfg).value] else DriftParams(t, cfg)
  {
    hide Propose, DriftParams;
    var more, before := DriftParams(t[k := e], cfg), DriftParams(t, cfg);
    forall x ensures x != k ==> (x in more <==> x in before) && (x in before ==> more[x] == before[x]) {
      ParamAt(t, cfg, x);
      ParamAt(t[k := e], cfg, x);
    }
    ParamAt(t, cfg, k);
    ParamAt(t[k := e], cfg, k);
  }

  lemma StopsExtend(t: Table, k: Key, e: Entry, cfg: Config)
    requires k !in t
    ensures DriftStops(t[k := e], cfg) <==> DriftStops(t, cfg) || (e.stop && Propose(e.field, k, cfg).Some?)
  {
    hide Propose;
    var more := t[k := e];
    if DriftStops(t, cfg) {
      var x :| x in t && t[x].stop && Propose(t[x].field, x, cfg).Some?;
      assert x in more && more[x] == t[x];
    }
    if e.stop && Propose(e.field, k, cfg).Some? {
      assert k in more && more[k] == e;
    }
  }

  lemma ProposeReads(f: Field, k: Key, a: Config, b: Config)
    requires Get(a, k) == Get(b, k) && Get(a, Nesting) == Get(b, Nesting) && (f.NestingF? ==> k == Features)
    ensures Propose(f, k, a) == Propose(f, k, b)
  {
    hide DiskPropose, EfiPropose, MountPropose, BindPropose, IsNewSlot, Parse, Alloc, RootMatches, CloudInitWire, TagsEqual, WordSetsEqual, NicMatches, NicString, CloudInitMatches, CdromMatches, TpmMatches, TpmWire, PciMatches, PciWire,
         Codec.WireMatch, NameserverEquals, NetMatches, NetString;
  }

  /** The fixpoint law: after one drift write nothing drifts, unless a drifted field was stuck. */
  lemma DriftSettles(t: Table, cfg: Config, deletes: set<Key>)
    requires CleanTable(t) && RewritesReported(t, cfg)
    requires deletes !! t.Keys && Nesting !in deletes
    ensures DriftParams(t, cfg).Keys !! deletes
    ensures DriftParams(t, Written(cfg, DriftParams(t, cfg), deletes)) == map[] <==> !StuckTable(t, cfg)
  {
    hide Propose, Stuck, CleanField, RewritesReportForm;
    var sets := DriftParams(t, cfg);
    var after := Written(cfg, sets, deletes);
    forall k | k in t
      ensures Propose(t[k].field, k, after).Some? <==> Propose(t[k].field, k, cfg).Some? && Stuck(t[k].field, k, cfg)
    {
      var f := t[k].field;
      assert Get(after, Nesting) == Get(cfg, Nesting);
      if Propose(f, k, cfg).Some? {
        FieldSettles(f, k, cfg, after);
      } else {
        ProposeReads(f, k, cfg, after);
      }
    }
    var again := DriftParams(t, after);
    if StuckTable(t, cfg) {
      var k :| k in t && Propose(t[k].field, k, cfg).Some? && Stuck(t[k].field, k, cfg);
      assert k in again;
    } else {
      assert again.Keys == {};
    }
  }

  /** Table keys that hold drives PVE reports in its own words. */
  predicate DriveKey(k: Key) {
    k == Ide2 || k == Ide3 || (k.Dev? && (HasPrefix(k.name, "scsi") || HasPrefix(k.name, "virtio")
                                          || HasPrefix(k.name, "sata") || HasPrefix(k.name, "ide")))
  }

  /** What a create request leaves in the config. */
  function Reported(id: int, k: Key, v: string): string { if DriveKey(k) then NormalizeDrive(id, v) else v }

  function CreatedConfig(id: int, params: Config): Config {
    map k | k in params :: Reported(id, k, params[k])
  }

  /** Numbered network slots are not drive slots, and cloud-init and CD/DVD values are reported verbatim. */
  predicate CreateKeys(t: Table) {
    forall k | k in t :: DriveKey(k) ==> t[k].field.DiskF? || t[k].field.CloudInitF? || t[k].field.CdromF? || t[k].field.CdromNoneF?
  }

  lemma WordIsNoSize()
    ensures !NumericGiB("cloudinit")
  {
    assert "cloudinit"[0] == 'c';
  }

  lemma CloudInitVerbatim(id: int, storage: string, size: string)
    requires StorageId(storage)
    ensures NormalizeDrive(id, CloudInitWire(storage, size)) == CloudInitWire(storage, size)
  {
    hide IndexOf, StorageId, CleanPool, CleanToken, VolumeOf;
    StorageClean(storage);
    var rest := "cloudinit" + (",size=" + size);
    assert CloudInitWire(storage, size) == storage + ":" + rest;
    SplitPool(storage, rest);
    assert rest[0] == 'c';
    assert rest == "cloudinit" + [','] + ("size=" + size);
    IndexOfAt("cloudinit", ',', "size=" + size);
    assert rest[..9] == "cloudinit";
    WordIsNoSize();
  }

  lemma CdromVerbatim(id: int, volid: string, media: string)
    requires CleanVolid(volid)
    ensures NormalizeDrive(id, volid + ",media=" + media) == volid + ",media=" + media
  {
    hide CleanVolid;
    VolidParts(volid);
    var storage, file :| volid == IsoVolid(storage, file) && CleanIso(storage, file);
    IsoVerbatim(id, storage, file, ",media=" + media);
    assert volid + ",media=" + media == IsoVolid(storage, file) + (",media=" + media);
  }

  lemma IsoVerbatim(id: int, storage: string, file: string, tail: string)
    requires CleanIso(storage, file) && tail != "" && tail[0] == ','
    ensures NormalizeDrive(id, IsoVolid(storage, file) + tail) == IsoVolid(storage, file) + tail
  {
    hide VolumeOf, IndexOf;
    var path := "iso/" + file;
    var rest := path + tail;
    assert IsoVolid(storage, file) + tail == storage + ":" + rest;
    SplitPool(storage, rest);
    FileBeforeComma(path, tail);
    assert rest[0] == 'i' && path[0] == 'i';
    assert rest[..|path|] == path;
    assert !NumericGiB(path);
  }

  lemma NoneVerbatim(id: int)
    ensures NormalizeDrive(id, "none") == "none"
  {
    IndexOfAbsent("none", ':');
  }

  /** The created config needs nothing further: diff(create(X)) is empty for every clean table
      whose cloud-init storage is a storage id. */
  lemma CreateSettles(t: Table, id: int, extra: Config)
    requires hide *; CleanTable(t) && CreateKeys(t)
    requires forall k | k in t :: t[k].field.CloudInitF? ==> StorageId(t[k].field.storage)
    requires extra.Keys !! t.Keys && Nesting !in extra
    ensures DriftParams(t, CreatedConfig(id, extra + CreateTable(t))) == map[]
  {
    hide Propose, CleanField, CreateValue, DriveKey, StorageId;
    var cfg := CreatedConfig(id, extra + CreateTable(t));
    forall k | k in t ensures Propose(t[k].field, k, cfg).None? {
      var f := t[k].field;
      assert Get(cfg, k) == Reported(id, k, CreateValue(f));
      assert Get(cfg, Nesting) == "";
      CreatedFieldSettles(id, f, k, cfg);
    }
  }

  lemma CreatedFieldSettles(id: int, f: Field, k: Key, cfg: Config)
    requires hide *; CleanField(f) && (f.NestingF? ==> k == Features) && Get(cfg, Nesting) == ""
    requires DriveKey(k) ==> f.DiskF? || f.CloudInitF? || f.CdromF? || f.CdromNoneF?
    requires f.CloudInitF? ==> StorageId(f.storage)
    requires Get(cfg, k) == Reported(id, k, CreateValue(f))
    ensures Propose(f, k, cfg).None?
  {
    hide *;
    if f.DiskF? || f.EfiF? || f.MountF? || f.BindF? || f.RootF? || f.NestingF? {
      CreatedVolumeSettles(id, f, k, cfg);
    } else {
      KeptVerbatim(id, f, k);
      PlainSettles(f, k, cfg);
      NeverStuck(f, k, cfg);
    }
  }

  lemma NeverStuck(f: Field, k: Key, cfg: Config)
    requires !f.EfiF? && !f.NestingF?
    ensures !Stuck(f, k, cfg)
  {
  }

  lemma CreatedVolumeSettles(id: int, f: Field, k: Key, cfg: Config)
    requires hide *; CleanField(f) && (f.NestingF? ==> k == Features) && Get(cfg, Nesting) == ""
    requires f.DiskF? || f.EfiF? || f.MountF? || f.BindF? || f.RootF? || f.NestingF?
    requires DriveKey(k) ==> f.DiskF?
    requires Get(cfg, k) == Reported(id, k, CreateValue(f))
    ensures Propose(f, k, cfg).None?
  {
    hide DiskPropose, EfiPropose, MountPropose, BindPropose, IsNewSlot, Parse, CleanDisk, CleanEfi, CleanMount,
         CleanBind, Alloc, FeaturesNesting, BoolWire, DriveString, MountCreateWire, StorageId, RootMatches, BindWire,
         EfiCreate, DriveKey, NormalizeDrive, CleanVolid, CloudInitWire, EfiTypeDrift,
         Propose, CreateValue;
    ProposeIs(f, k, cfg);
    CreateValueIs(f);
    match f
    case DiskF(d) => CreatedDiskSettles(id, d, Get(cfg, k));
    case EfiF(e) => CreatedEfiSettles(e);
    case MountF(m) => CreatedMountSettles(m);
    case BindF(b) => WrittenBindSettles(b);
    case RootF(pool, bytes) => AllocIsLive(pool, bytes);
    case NestingF(on) => NestingReads(on);
  }

  /** Of the values without a volume to allocate, none is changed by the report. */
  lemma KeptVerbatim(id: int, f: Field, k: Key)
    requires hide *; CleanField(f) && !f.DiskF? && !f.EfiF? && !f.MountF? && !f.BindF? && !f.RootF? && !f.NestingF?
    requires DriveKey(k) ==> f.DiskF? || f.CloudInitF? || f.CdromF? || f.CdromNoneF?
    requires f.CloudInitF? ==> StorageId(f.storage)
    ensures Reported(id, k, CreateValue(f)) == CreateValue(f)
  {
    hide DriveKey, NormalizeDrive, CloudInitWire, StorageId, CleanVolid, CreateValue, CleanDisk, CleanEfi, CleanMount, CleanBind;
    CreateValueIs(f);
    match f
    case CloudInitF(storage, size, _) => CloudInitVerbatim(id, storage, size);
    case CdromF(volid, media) => CdromVerbatim(id, volid, media);
    case CdromNoneF => NoneVerbatim(id);
    case _ =>
  }
}
