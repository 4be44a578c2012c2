/** Adoption of a VM's disks, network and PCI devices: what is read from a live config against the drift
    check of the manifest it becomes. */
module AdoptDevices {
  import opened Text
  import opened Quantity
  import opened Drive
  import opened Devices
  import opened LxcMounts
  import opened VmDrives
  import opened Owned
  import opened VmCarried
  import Vm

  // ----- disks -----

  /** The quantity a live size becomes; "" when there is none to own. */
  function SizeRead(size: Option<int>): string {
    if size.Some? && HumanFromBytes(size.value).Some? then HumanFromBytes(size.value).value else ""
  }

  /** A manifest disk for a live slot; None when there is nothing to adopt. */
  function DiskFromLive(slot: string, raw: string, scsihw: string): Option<Disk> {
    var c := Parse(raw);
    if IsNewSlot(raw) || c.pool == "" then None
    else Some(Disk(slot, c.pool, SizeRead(c.size), if slot == "scsi0" then scsihw else "", c.iothread, "", "", c.discard, c.ssd, c.aio))
  }

  lemma SizeReads(size: int)
    requires size < TWO63
    ensures DiskBytes(SizeRead(Some(size))) == if size > 0 then size else 0
  {
    if size > 0 {
      HumanRoundTrip(size);
    } else {
      NoBytes();
    }
  }

  lemma NoBytes()
    ensures DiskBytes("") == 0
  {
  }

  /** The create form of a disk with clean parts, whatever its size. */
  lemma AnyDriveString(d: Disk, w: DiskInfo)
    requires d.image == "" && CleanPool(d.storage) && DiskBytes(d.size) >= 0
    requires CleanValue(d.discard) && Lower(d.discard) == d.discard && CleanValue(d.aio) && Lower(d.aio) == d.aio
    requires w == Parse(DriveString(d))
    ensures w.pool == d.storage && w.iothread == d.iothread && w.discard == d.discard && w.ssd == d.ssd && w.aio == d.aio
    ensures w.size == if DiskBytes(d.size) > 0 then Some(DiskBytes(d.size)) else None
  {
    hide CleanToken, DiskOptions, GiBString, Parse, ParseTokens, ParseToken, DiskBytes, NumericGiB, PveSizeBytes, CleanPool, CleanValue, Lower;
    var g, start := GiBString(DiskBytes(d.size)), EMPTY_INFO.(pool := d.storage);
    if DiskBytes(d.size) > 0 {
      GiBTokenParses(DiskBytes(d.size), start);
    } else {
      NoGiB();
      ZeroVolume(start);
    }
    AnyOptions(d, ParseToken(g, true, start));
    ParseRender(d.storage, g, DiskOptions(d));
  }

  lemma NoGiB()
    ensures GiBString(0) == "0"
  {
  }

  lemma AnyOptions(d: Disk, out: DiskInfo)
    requires NoOptions(out)
    requires CleanValue(d.discard) && Lower(d.discard) == d.discard && CleanValue(d.aio) && Lower(d.aio) == d.aio
    ensures ParseTokens(DiskOptions(d), false, out) == WithOptions(d, out)
    ensures forall t | t in DiskOptions(d) :: CleanToken(t)
  {
    hide CleanToken, TextToken, BoolToken, CleanValue, Lower;
    var t1, t2 := IothreadToken(d.iothread), TextToken("discard", d.discard);
    var t3, t4 := BoolToken("ssd", d.ssd), TextToken("aio", d.aio);
    var o1 := out.(iothread := d.iothread);
    var o2 := o1.(discard := d.discard);
    var o3 := o2.(ssd := d.ssd);
    ParseIothread(d.iothread, out);
    ParseText("discard", d.discard, o1);
    ParseBool("ssd", d.ssd, o2);
    ParseText("aio", d.aio, o3);
    ParseTokensConcat(t1 + t2 + t3, t4, out);
    ParseTokensConcat(t1 + t2, t3, out);
    ParseTokensConcat(t1, t2, out);
  }

  lemma ReadParts(raw: string)
    ensures var c := Parse(raw);
            && CleanValue(c.discard) && Lower(c.discard) == c.discard && CleanValue(c.aio) && Lower(c.aio) == c.aio
            && (c.pool != "" ==> CleanPool(c.pool))
  {
    hide Parse, CleanValue, Lower, CleanPool, PveSizeBytes, RawToken;
    ParseClean(raw);
  }

  /** Adopting a disk leaves nothing to do: for every live value drift proposes nothing and reports
      nothing. */
  lemma AdoptedDiskIsQuiet(slot: string, raw: string, scsihw: string)
    requires DiskFromLive(slot, raw, scsihw).Some? && (Parse(raw).size.Some? ==> Parse(raw).size.value < TWO63)
    ensures var d := DiskFromLive(slot, raw, scsihw).value; DiskPropose(d, raw).None? && !DiskBlocked(d, raw)
  {
    hide Parse, DriveString, DiskBytes, SizeRead, CleanValue, CleanPool, LiveDriveRewrite, Lower, IsNewSlot;
    var c, d := Parse(raw), DiskFromLive(slot, raw, scsihw).value;
    ReadParts(raw);
    SizeFits(c.size);
    AnyDriveString(d, Parse(DriveString(d)));
  }

  lemma SizeFits(size: Option<int>)
    requires size.Some? ==> size.value < TWO63
    ensures DiskBytes(SizeRead(size)) == if size.Some? && size.value > 0 then size.value else 0
  {
    hide DiskBytes, HumanFromBytes;
    NoBytes();
    if size.Some? {
      SizeReads(size.value);
    }
  }

  // ----- network devices -----

  /** A manifest network device for a live slot, its address unpinned. */
  function NicFromLive(slot: string, raw: string): Option<Nic> {
    var c := ParseNic(raw);
    if c.model == "" then None else Some(Nic(c.model, c.bridge, "", c.firewall, c.rate, c.vlan, slot))
  }

  lemma {:induction false} BridgeReads(tokens: seq<string>, out: NicFields)
    requires CleanValue(out.bridge) && forall t | t in tokens :: ',' !in t
    ensures CleanValue(NicTokens(tokens, out).bridge)
  {
    hide CutKey, CutValue, TrimSpace, Atoi, CleanValue;
    if tokens != [] {
      CutClean(tokens[0]);
      BridgeReads(tokens[1..], NicToken(tokens[0], out));
    }
  }

  /** Adopting a network device of a known model leaves nothing to do. */
  lemma AdoptedNicIsQuiet(slot: string, raw: string)
    requires NicFromLive(slot, raw).Some? && ParseNic(raw).model in NIC_MODELS
    ensures NicMatches(raw, NicString(NicFromLive(slot, raw).value))
  {
    hide NicTokens, NicString, Split, CleanValue, ParseNic, TrimSpace, Lower;
    var n := NicFromLive(slot, raw).value;
    BridgeOf(raw);
    assert TrimSpace("") == "" && Lower("") == "" && CleanValue("") by { NothingDeclared(); }
    NicReads(n);
  }

  lemma NothingDeclared()
    ensures TrimSpace("") == "" && Lower("") == "" && CleanValue("")
  {
  }

  lemma BridgeOf(raw: string)
    ensures CleanValue(ParseNic(raw).bridge)
  {
    hide NicTokens, CleanValue;
    NothingDeclared();
    BridgeReads(Split(raw, ','), NO_NIC);
  }

  // ----- PCI devices -----

  predicate IsHex(c: char) { '0' <= c <= '9' || 'a' <= c <= 'f' || 'A' <= c <= 'F' }

  /** domain:bus:slot[.func]. */
  predicate IsBdf(s: string) {
    var i := IndexOf(s, ':');
    && 2 <= i <= 5 && |s| >= i + 6 && s[i] == ':' && (forall j | 0 <= j < i :: IsHex(s[j]))
    && IsHex(s[i + 1]) && IsHex(s[i + 2]) && s[i + 3] == ':' && IsHex(s[i + 4]) && IsHex(s[i + 5])
    && (|s| == i + 6 || (|s| == i + 8 && s[i + 6] == '.' && '0' <= s[i + 7] <= '7'))
  }

  /** The options after the address; the first one the schema does not model ends the reading. */
  function PciOptions(tokens: seq<string>, p: Pci): Option<Pci> {
    if tokens == [] then Some(p)
    else
      var t := TrimSpace(tokens[0]);
      if t == "" then PciOptions(tokens[1..], p)
      else if !HasPrefix(t, "pcie=") then Some(p)
      else if t[5..] == "1" then PciOptions(tokens[1..], p.(pcie := Some(true)))
      else if t[5..] == "0" then PciOptions(tokens[1..], p.(pcie := Some(false)))
      else None
  }

  /** A manifest PCI device for a live slot; None is a gap to report. */
  function PciFromLive(slot: string, raw: string): Option<Pci> {
    if !Vm.IsPciSlot(slot) || raw == "" then None
    else
      var tokens := Split(raw, ',');
      var t := TrimSpace(tokens[0]);
      if t == "" then PciOptions(tokens[1..], Pci(slot, "", None))
      else if IsBdf(Lower(t)) then PciOptions(tokens[1..], Pci(slot, Lower(t), None))
      else None
  }

  /** The token loop. */
  method ReadPci(slot: string, raw: string) returns (r: Option<Pci>)
    ensures r == PciFromLive(slot, raw)
  {
    hide IsBdf, Lower, TrimSpace;
    if !Vm.IsPciSlot(slot) || raw == "" {
      return None;
    }
    var tokens, p := Split(raw, ','), Pci(slot, "", None);
    var i := 0;
    while i < |tokens|
      invariant 0 <= i <= |tokens|
      invariant i == 0 ==> p == Pci(slot, "", None)
      invariant i > 0 ==> PciFromLive(slot, raw) == PciOptions(tokens[i..], p)
    {
      assert i > 0 ==> tokens[i..][1..] == tokens[i + 1..];
      var t := TrimSpace(tokens[i]);
      if t == "" {
        i := i + 1;
        continue;
      }
      if i == 0 {
        if !IsBdf(Lower(t)) {
          return None;
        }
        p := p.(device := Lower(t));
        i := i + 1;
        continue;
      }
      if HasPrefix(t, "pcie=") {
        if t[5..] == "1" {
          p := p.(pcie := Some(true));
        } else if t[5..] == "0" {
          p := p.(pcie := Some(false));
        } else {
          return None;
        }
        i := i + 1;
        continue;
      }
      return Some(p);
    }
    r := Some(p);
  }

  function OptionKeyOf(token: string): Option<string> { CutKey(TrimSpace(token)) }

  /** A value as PVE reports it: an address, then options of distinct lower-case names. */
  predicate PciReport(raw: string) {
    var tokens := Split(raw, ',');
    && IsBdf(Lower(TrimSpace(tokens[0]))) && (forall t | t in tokens[1..] :: OptionToken(t))
    && forall i, j | 1 <= i < j < |tokens| :: OptionKeyOf(tokens[i]) != OptionKeyOf(tokens[j])
  }

  predicate OptionToken(t: string) {
    OptionKeyOf(t).Some? && OptionKeyOf(t).value !in {"", "host"} && Lower(TrimSpace(OptionKeyOf(t).value)) == OptionKeyOf(t).value
  }

  /** The only option the schema models. */
  predicate OnlyPcie(raw: string) { forall t | t in Split(raw, ',')[1..] :: OptionKeyOf(t) == Some("pcie") }

  lemma BdfIsPlain(t: string)
    requires Trimmed(t) && IsBdf(Lower(t))
    ensures t != "" && CutKey(t).None? && CleanDevice(Pci("", Lower(t), None)) && Lower(TrimSpace(Lower(t))) == Lower(t)
  {
    hide IsBdf, CutKey, Lower, IndexOf;
    LowerIdempotent(t);
    BdfChars(Lower(t));
    LowerKeepsPlain(t);
    IndexOfAbsent(t, '=');
    assert CutKey(t).None? by { NoCut(t); }
  }

  lemma BdfChars(s: string)
    requires IsBdf(s)
    ensures s != "" && forall c | c in s :: IsHex(c) || c == ':' || c == '.'
  {
  }

  lemma LowerKeepsPlain(t: string)
    requires Trimmed(t) && Lower(t) != "" && forall c | c in Lower(t) :: IsHex(c) || c == ':' || c == '.'
    ensures t != "" && '=' !in t && Trimmed(Lower(t))
  {
    var l := Lower(t);
    forall i | 0 <= i < |t| ensures t[i] != '=' {
      assert l[i] in l && l[i] == LowerChar(t[i]);
    }
    assert l[0] in l && l[|l| - 1] in l;
  }

  /** Every option named in the report is in the token map. */
  lemma {:induction false} OptionInMap(tokens: seq<string>, i: nat)
    requires i < |tokens| && OptionToken(tokens[i])
    ensures OptionKeyOf(tokens[i]).value in PciTokens(tokens)
  {
    hide CutKey, CutValue, TrimSpace, Lower, TrimQuotes;
    if i < |tokens| - 1 {
      OptionInMap(tokens[..|tokens| - 1], i);
    } else {
      NoKeyInBlank(tokens[i]);
    }
  }

  lemma NoKeyInBlank(t: string)
    requires OptionKeyOf(t).Some?
    ensures TrimSpace(t) != ""
  {
  }

  /** Adopting a PCI device leaves nothing to do exactly when the live value holds no option but pcie; any
      other option is drift, and the update drops it. */
  lemma AdoptedPciQuietExactly(slot: string, raw: string)
    requires PciReport(raw) && PciFromLive(slot, raw).Some?
    ensures PciMatches(raw, PciFromLive(slot, raw).value) <==> OnlyPcie(raw)
  {
    hide IsBdf, PciTokens, PciOptions, PciMatches, TrimSpace, Lower, CutKey, CutValue, Split;
    var tokens, p := Split(raw, ','), PciFromLive(slot, raw).value;
    var t := TrimSpace(tokens[0]);
    BdfIsPlain(t);
    var start := Pci(slot, Lower(t), None);
    assert PciOptions(tokens[1..], start) == Some(p);
    OptionsKeepDevice(tokens[1..], start);
    PciQuiet(p, raw);
    if OnlyPcie(raw) {
      AtMostOne(raw);
      OnePcie(tokens, start);
    } else {
      var u :| u in tokens[1..] && OptionKeyOf(u) != Some("pcie");
      var i :| 0 <= i < |tokens[1..]| && tokens[1..][i] == u;
      OptionInMap(tokens, i + 1);
    }
  }

  lemma {:induction false} OptionsKeepDevice(tokens: seq<string>, p: Pci)
    ensures var r := PciOptions(tokens, p); r.Some? ==> r.value.device == p.device && r.value.slot == p.slot
  {
    hide TrimSpace;
    if tokens != [] {
      OptionsKeepDevice(tokens[1..], p);
      OptionsKeepDevice(tokens[1..], p.(pcie := Some(true)));
      OptionsKeepDevice(tokens[1..], p.(pcie := Some(false)));
    }
  }

  lemma AtMostOne(raw: string)
    requires PciReport(raw) && OnlyPcie(raw)
    ensures |Split(raw, ',')| <= 2
  {
    hide IsBdf, TrimSpace, Lower, CutKey, Split, OptionToken, OptionKeyOf;
    var tokens := Split(raw, ',');
    forall i | 1 <= i < |tokens| ensures OptionKeyOf(tokens[i]) == Some("pcie") {
      assert tokens[i] == tokens[1..][i - 1];
    }
    if |tokens| > 2 {
      NotAlike(raw, 1, 2);
    }
  }

  lemma NotAlike(raw: string, i: nat, j: nat)
    requires PciReport(raw) && 1 <= i < j < |Split(raw, ',')|
    ensures OptionKeyOf(Split(raw, ',')[i]) != OptionKeyOf(Split(raw, ',')[j])
  {
    hide IsBdf, Lower, OptionToken, OptionKeyOf, Split;
  }

  /** An address alone or with its flag reads as the device it becomes. */
  lemma OnePcie(tokens: seq<string>, start: Pci)
    requires 1 <= |tokens| <= 2 && PciOptions(tokens[1..], start).Some? && start.pcie.None?
    requires var t := TrimSpace(tokens[0]); t != "" && CutKey(t).None? && start.device == Lower(t) && Lower(TrimSpace(start.device)) == start.device
    requires forall t | t in tokens[1..] :: OptionKeyOf(t) == Some("pcie")
    ensures PciTokens(tokens) == PciMeaning(PciOptions(tokens[1..], start).value)
  {
    hide TrimSpace, Lower, CutKey, CutValue, TrimQuotes;
    assert tokens[..1] == [tokens[0]] && [tokens[0]][..0] == [];
    assert PciTokens([tokens[0]]) == map["host" := start.device];
    if |tokens| == 2 {
      assert tokens[1..] == [tokens[1]] && [tokens[1]][1..] == [];
      assert tokens[1] in tokens[1..];
      PcieFlag(tokens[1]);
    } else {
      assert tokens == [tokens[0]] && tokens[1..] == [];
    }
  }

  lemma PcieFlag(token: string)
    requires OptionKeyOf(token) == Some("pcie")
    ensures var t := TrimSpace(token); t != "" && HasPrefix(t, "pcie=") && CutValue(t) == t[5..]
    ensures var v := TrimSpace(token)[5..]; v in {"0", "1"} ==> TrimQuotes(v) == v
    ensures Lower(TrimSpace("pcie")) == "pcie"
  {
    var t := TrimSpace(token);
    var i := IndexOf(t, '=');
    assert t[..i] == "pcie" && i == 4 && t[4] == '=';
    assert t[..5] == "pcie=";
    assert Trimmed("pcie");
  }

  /** PVE's x-vga option, which the schema leaves out: adopted, the device drifts at once. */
  lemma VgaDrifts(slot: string)
    requires Vm.IsPciSlot(slot)
    ensures var raw := "00:17:00,x-vga=1";
            PciReport(raw) && PciFromLive(slot, raw) == Some(Pci(slot, "00:17:00", None)) && !PciMatches(raw, Pci(slot, "00:17:00", None))
  {
    hide TrimSpace, Lower, CutKey, PciMatches, IsBdf, Split, PciOptions, OptionToken, OptionKeyOf, Vm.IsPciSlot, Join;
    TwoTokens();
    AddressReads17();
    VgaOption();
    AdoptedPciQuietExactly(slot, "00:17:00,x-vga=1");
  }

  lemma TwoTokens()
    ensures Split("00:17:00,x-vga=1", ',') == ["00:17:00", "x-vga=1"] && ["00:17:00", "x-vga=1"][1..] == ["x-vga=1"]
  {
    hide Split;
    SplitJoin(["00:17:00", "x-vga=1"], ',');
    assert Join(["00:17:00", "x-vga=1"], ",") == "00:17:00,x-vga=1";
  }

  lemma AddressReads17()
    ensures TrimSpace("00:17:00") == "00:17:00" && Lower("00:17:00") == "00:17:00" && IsBdf("00:17:00")
  {
    hide IndexOf, TrimSpace;
    var s := "00:17:00";
    IndexOfAt("00", ':', "17:00");
    assert "00" + [':'] + "17:00" == s;
    assert Trimmed(s);
    assert Lower(s) == s;
  }

  lemma VgaOption()
    ensures OptionKeyOf("x-vga=1") == Some("x-vga") && OptionToken("x-vga=1") && "x-vga" != "pcie"
    ensures forall p :: PciOptions(["x-vga=1"], p) == Some(p)
  {
    hide CutKey, TrimSpace;
    BindPair("x-vga", "1");
    assert "x-vga" + "=" + "1" == "x-vga=1";
    CleanTokenTrims("x-vga=1");
    assert Trimmed("x-vga");
    assert Lower("x-vga") == "x-vga";
    assert "x-vga"[0] != "pcie"[0] && "x-vga"[0] != "host"[0];
    assert !HasPrefix("x-vga=1", "pcie=") by { assert "x-vga=1"[0] != "pcie="[0]; }
  }

  // ----- a whole manifest -----

  /** Every disk, network device and PCI device of the manifest was read from this config. */
  predicate Adopted(v: Vm.VmSpec, cfg: Config) {
    && (forall i | 0 <= i < |v.disks| :: AdoptedDisk(v.disks[i], Vm.DiskKey(v.disks, i), cfg))
    && (forall i | 0 <= i < |v.nics| :: AdoptedNic(v.nics[i], Vm.NicKey(v.nics, i), cfg))
    && (forall i | 0 <= i < |v.hw.pci| :: AdoptedPci(v.hw.pci[i], Dev(v.hw.pci[i].slot), cfg))
  }

  predicate AdoptedDisk(d: Disk, k: Key, cfg: Config)
    requires k.Dev?
  {
    && DiskFromLive(k.name, Get(cfg, k), Get(cfg, Scsihw)) == Some(d)
    && (Parse(Get(cfg, k)).size.Some? ==> Parse(Get(cfg, k)).size.value < TWO63)
  }

  predicate AdoptedNic(n: Nic, k: Key, cfg: Config)
    requires k.Dev?
  {
    NicFromLive(k.name, Get(cfg, k)) == Some(n) && n.model in NIC_MODELS
  }

  predicate AdoptedPci(p: Pci, k: Key, cfg: Config)
    requires k.Dev?
  {
    PciFromLive(k.name, Get(cfg, k)) == Some(p) && PciReport(Get(cfg, k)) && OnlyPcie(Get(cfg, k))
  }

  /** The devices of an adopted manifest are quiet: drift proposes nothing for any of them. */
  lemma AdoptedDevicesAreQuiet(v: Vm.VmSpec, cfg: Config)
    requires Vm.WellFormed(v) && Adopted(v, cfg)
    ensures Silent(Vm.DiskTable(v.disks, |v.disks|), cfg) && Silent(Vm.NicTable(v.nics, |v.nics|), cfg)
    ensures Silent(Vm.PciTable(v.hw.pci, |v.hw.pci|), cfg)
  {
    hide Vm.WellFormed, Vm.DiskTable, Vm.NicTable, Vm.PciTable, Vm.DiskKey, Vm.NicKey, Silent, AdoptedDisk, AdoptedNic, AdoptedPci;
    DisksDiffer(v);
    DisksQuiet(v.disks, cfg);
    NicsQuiet(v.nics, cfg);
    PciQuietAll(v.hw.pci, cfg);
  }

  lemma DisksQuiet(disks: seq<Disk>, cfg: Config)
    requires forall i, j | 0 <= i < j < |disks| :: Vm.DiskKey(disks, i) != Vm.DiskKey(disks, j)
    requires forall i | 0 <= i < |disks| :: AdoptedDisk(disks[i], Vm.DiskKey(disks, i), cfg)
    ensures Silent(Vm.DiskTable(disks, |disks|), cfg)
  {
    hide Vm.DiskTable, Vm.SlotName, Propose, AdoptedDisk;
    Vm.DiskTableAt(disks, |disks|);
    forall i | 0 <= i < |disks| ensures Propose(DiskF(disks[i]), Vm.DiskKey(disks, i), cfg).None? {
      QuietDisk(disks[i], Vm.DiskKey(disks, i), cfg);
    }
  }

  lemma NicsQuiet(nics: seq<Nic>, cfg: Config)
    requires forall i, j | 0 <= i < j < |nics| :: Vm.NicKey(nics, i) != Vm.NicKey(nics, j)
    requires forall i | 0 <= i < |nics| :: AdoptedNic(nics[i], Vm.NicKey(nics, i), cfg)
    ensures Silent(Vm.NicTable(nics, |nics|), cfg)
  {
    hide Vm.NicTable, Vm.SlotName, Propose, AdoptedNic;
    Vm.NicTableAt(nics, |nics|);
    forall i | 0 <= i < |nics| ensures Propose(NicF(nics[i]), Vm.NicKey(nics, i), cfg).None? {
      QuietNic(nics[i], Vm.NicKey(nics, i), cfg);
    }
  }

  lemma PciQuietAll(pci: seq<Pci>, cfg: Config)
    requires forall i, j | 0 <= i < j < |pci| :: pci[i].slot != pci[j].slot
    requires forall i | 0 <= i < |pci| :: AdoptedPci(pci[i], Dev(pci[i].slot), cfg)
    ensures Silent(Vm.PciTable(pci, |pci|), cfg)
  {
    hide Vm.PciTable, Propose, AdoptedPci;
    var t := Vm.PciTable(pci, |pci|);
    forall k | k in t ensures Propose(t[k].field, k, cfg).None? {
      Vm.PciSource(pci, |pci|, k);
      var i :| 0 <= i < |pci| && k == Dev(pci[i].slot);
      PciEntry(pci, |pci|, i);
      QuietPci(pci[i], k, cfg);
    }
  }

  lemma QuietDisk(d: Disk, k: Key, cfg: Config)
    requires k.Dev? && AdoptedDisk(d, k, cfg)
    ensures Propose(DiskF(d), k, cfg).None?
  {
    hide DiskFromLive, Parse, DiskPropose, DiskBlocked;
    AdoptedDiskIsQuiet(k.name, Get(cfg, k), Get(cfg, Scsihw));
  }

  lemma QuietNic(n: Nic, k: Key, cfg: Config)
    requires k.Dev? && AdoptedNic(n, k, cfg)
    ensures Propose(NicF(n), k, cfg).None?
  {
    hide ParseNic, NicString, NicMatches;
    AdoptedNicIsQuiet(k.name, Get(cfg, k));
  }

  lemma QuietPci(p: Pci, k: Key, cfg: Config)
    requires k.Dev? && AdoptedPci(p, k, cfg)
    ensures Propose(PciF(p), k, cfg).None?
  {
    hide PciFromLive, PciReport, OnlyPcie, PciMatches, PciWire;
    AdoptedPciQuietExactly(k.name, Get(cfg, k));
  }
}
