/** What it means that a live VM config carries its manifest, told without the comparisons of the
    drift check, and the proof that drift finds nothing exactly then. */
module VmCarried {
  import opened Text
  import opened Quantity
  import opened Drive
  import opened Devices
  import opened LxcWire
  import opened LxcMounts
  import opened VmDrives
  import opened Owned
  import opened Vm
  import Codec

  // ----- word lists -----

  predicate OneWord(w: string) { w != "" && forall i | 0 <= i < |w| :: !IsSpace(w[i]) }

  predicate AllDistinct(ws: seq<string>) { forall i, j | 0 <= i < j < |ws| :: ws[i] != ws[j] }

  lemma {:induction false} WordLengthAt(w: string, tail: string)
    requires forall i | 0 <= i < |w| :: !IsSpace(w[i])
    requires tail == "" || IsSpace(tail[0])
    ensures WordLength(w + tail) == |w|
  {
    if w != "" {
      assert (w + tail)[1..] == w[1..] + tail;
      WordLengthAt(w[1..], tail);
    }
  }

  lemma FirstWord(w: string, tail: string)
    requires OneWord(w) && (tail == "" || IsSpace(tail[0]))
    ensures Words(w + tail) == [w] + Words(tail)
  {
    var s := w + tail;
    assert s[1..] == w[1..] + tail;
    WordLengthAt(w[1..], tail);
    assert s[..|w|] == w && s[|w|..] == tail;
  }

  /** A list of words joined by blanks reads back as the list. */
  lemma {:induction false} WordsJoin(ws: seq<string>)
    requires forall w | w in ws :: OneWord(w)
    ensures Words(Join(ws, " ")) == ws
  {
    if |ws| == 1 {
      FirstWord(ws[0], "");
      assert ws[0] + "" == ws[0];
    } else if ws != [] {
      var rest := Join(ws[1..], " ");
      WordsJoin(ws[1..]);
      FirstWord(ws[0], " " + rest);
      assert Join(ws, " ") == ws[0] + (" " + rest);
      assert (" " + rest)[1..] == rest;
    }
  }

  function Members(ws: seq<string>): set<string> { set w | w in ws }

  lemma {:induction false} DistinctCount(ws: seq<string>)
    ensures |Members(ws)| <= |ws|
    ensures AllDistinct(ws) ==> |Members(ws)| == |ws|
  {
    if ws != [] {
      var n := |ws| - 1;
      DistinctCount(ws[..n]);
      assert ws == ws[..n] + [ws[n]];
      assert Members(ws) == Members(ws[..n]) + {ws[n]};
    }
  }

  /** A word longer than every word of the list. */
  function Fresh(ws: seq<string>): (f: string)
    ensures OneWord(f) && forall w | w in ws :: |w| < |f|
  {
    if ws == [] then "x"
    else
      var f := Fresh(ws[1..]);
      if |ws[0]| < |f| then f else seq(|ws[0]| + 1, _ => 'x')
  }

  lemma SmallerSubset<T>(a: set<T>, b: set<T>)
    requires a <= b
    ensures |a| <= |b|
  {
    assert b == a + (b - a);
  }

  /** A match of name servers or search domains means equal sets of words, for
      every live value, exactly when the declared list has no duplicates. */
  lemma WordSetsExactly(ws: seq<string>)
    requires forall w | w in ws :: OneWord(w)
    ensures (forall cur :: WordSetsEqual(cur, Join(ws, " ")) ==> Members(Words(cur)) == Members(ws)) <==> AllDistinct(ws)
  {
    hide Words, Join;
    WordsJoin(ws);
    if AllDistinct(ws) {
      forall cur | WordSetsEqual(cur, Join(ws, " ")) ensures Members(Words(cur)) == Members(ws) {
        DistinctCount(ws);
        DistinctCount(Words(cur));
        SmallerSubset(Members(ws), Members(Words(cur)));
        Codec.SubsetSameSize(Members(ws), Members(Words(cur)));
      }
    } else {
      var i, j :| 0 <= i < j < |ws| && ws[i] == ws[j];
      var other := ws[j := Fresh(ws)];
      WordsJoin(other);
      var cur := Join(other, " ");
      forall w | w in ws ensures w in other {
        var k :| 0 <= k < |ws| && ws[k] == w;
        assert other[if k == j then i else k] == w;
      }
      assert WordSetsEqual(cur, Join(ws, " "));
      assert other[j] in Members(Words(cur)) && other[j] !in Members(ws);
    }
  }

  // ----- drives -----

  /** Another pool, or another size of a volume that is not seeded from an image. */
  predicate DiskMismatch(d: Disk, cur: string) {
    var c := Parse(cur);
    c.pool != d.storage || (d.image == "" && c.size.Some? && c.size.value != DiskBytes(d.size))
  }

  /** The slot holds a volume with every declared option in effect, or one that must not be touched. */
  predicate DiskHolds(d: Disk, cur: string) {
    var c := Parse(cur);
    && !IsNewSlot(cur)
    && (DiskMismatch(d, cur)
        || (&& c.iothread == d.iothread
            && (d.discard != "" ==> EqualFold(if c.discard == "" then "ignore" else c.discard, d.discard))
            && (d.ssd.Some? ==> (c.ssd == Some(true)) == d.ssd.value)
            && (d.aio != "" ==> c.aio != "" && EqualFold(c.aio, d.aio))))
  }

  lemma LowerBlank(s: string)
    ensures Lower(s) == "" <==> s == ""
    ensures EqualFold(Lower(s), s)
  {
    LowerIdempotent(s);
  }

  lemma DiskQuiet(d: Disk, cur: string)
    requires CleanDisk(d)
    ensures DiskPropose(d, cur).None? <==> DiskHolds(d, cur)
    ensures DiskBlocked(d, cur) <==> !IsNewSlot(cur) && DiskMismatch(d, cur)
  {
    hide DriveString, Parse, IsNewSlot, DiskBytes, CleanDisk, LiveDriveRewrite, Lower;
    ParseDrive(d);
    LowerBlank(d.discard);
    LowerBlank(d.aio);
  }

  /** The EFI volume lives on another pool, or its type and enrolled keys are the declared ones. */
  predicate EfiHolds(e: EfiDisk, cur: string) {
    var c, boot := Parse(cur), Lower(TrimSpace(e.secureBoot));
    && !IsNewSlot(cur)
    && (c.pool != e.storage
        || (&& (e.template != "" && c.efitype != "" ==> c.efitype == Lower(e.template))
            && (boot == "enabled" ==> c.preEnrolled == Some(true))
            && (boot == "disabled" ==> c.preEnrolled != Some(true))))
  }

  lemma EfiQuiet(e: EfiDisk, cur: string)
    requires CleanEfi(e)
    ensures EfiPropose(e, cur).None? <==> EfiHolds(e, cur)
  {
    hide Parse, IsNewSlot, EfiCreate, EfiRewrite, Lower, TrimSpace;
    StorageIsNamed(e.storage);
    assert "enabled" != "disabled" by { assert "enabled"[0] != "disabled"[0]; }
  }

  /** A cloud-init drive on the declared storage whose size, when reported, is the declared one; a
      clone keeps whatever volume it inherited. */
  predicate CloudInitHolds(storage: string, size: string, cloneBacked: bool, cur: string) {
    || (cloneBacked && !IsNewSlot(cur))
    || (var live := SplitCloudInit(cur);
        && live.Some? && live.value.0 == storage
        && (live.value.1 == "" || SameQuantity(live.value.1, size)))
  }

  predicate SameQuantity(a: string, b: string) {
    if PveSizeBytes(a).Some? && PveSizeBytes(b).Some? then PveSizeBytes(a) == PveSizeBytes(b) else EqualFold(a, b)
  }

  lemma CloudInitReads(storage: string, size: string)
    requires StorageId(storage) && CleanValue(size)
    ensures SplitCloudInit(CloudInitWire(storage, size)) == Some((storage, size))
  {
    hide CutKey, CutValue, IndexOf, TrimSpace, Split, CleanToken, StorageId, CleanValue;
    var rest := "cloudinit,size=" + size;
    var s := storage + ":" + rest;
    assert CloudInitWire(storage, size) == s;
    StorageIsLiveAt(storage, rest, size);
    IndexOfAt(storage, ':', rest);
    assert s == storage + [':'] + rest && s[|storage| + 1..] == rest;
    BindPair("size", size);
    var tokens := ["cloudinit", "size" + "=" + size];
    CleanTokenTrims("size" + "=" + size);
    SplitJoin(tokens, ',');
    assert Join(tokens, ",") == rest by { assert tokens[1..] == ["size" + "=" + size]; }
    assert tokens[..1] == ["cloudinit"];
    assert LastValue(tokens, "size") == size;
    assert s[..|storage|] == storage && IndexOf(s, ':') == |storage| && TrimSpace(s) == s;
  }

  lemma StorageIsLiveAt(storage: string, rest: string, size: string)
    requires StorageId(storage) && CleanValue(size) && rest == "cloudinit,size=" + size
    ensures Trimmed(storage + ":" + rest) && ':' !in storage && storage != ""
  {
    var s := storage + ":" + rest;
    assert s[0] == storage[0];
    assert s[|s| - 1] == if size == "" then '=' else size[|size| - 1];
  }

  lemma CloudInitQuiet(storage: string, size: string, cloneBacked: bool, k: Key, cfg: Config)
    requires StorageId(storage) && CleanValue(size)
    ensures Propose(CloudInitF(storage, size, cloneBacked), k, cfg).None? <==> CloudInitHolds(storage, size, cloneBacked, Get(cfg, k))
  {
    hide SplitCloudInit, IsNewSlot, CloudInitWire, PveSizeBytes, EqualFold, StorageId;
    CloudInitReads(storage, size);
  }

  /** The live slot holds the ISO file with this volume id. */
  predicate CdromHolds(volid: string, cur: string) {
    ParseCdrom(cur).Some? && IsoVolid(ParseCdrom(cur).value.pool, ParseCdrom(cur).value.filename) == volid
  }

  lemma CdromQuiet(volid: string, cur: string)
    requires CleanVolid(volid)
    ensures CdromMatches(cur, volid) <==> CdromHolds(volid, cur)
  {
    hide ParseCdrom, CleanVolid, CleanIso;
    VolidParts(volid);
    var storage, file :| volid == IsoVolid(storage, file) && CleanIso(storage, file);
    assert IsoVolid(storage, file) + "" == volid;
    ParseIso(storage, file, "");
    if ParseCdrom(cur).Some? {
      LivePoolPlain(cur);
      SameVolid(ParseCdrom(cur).value.pool, ParseCdrom(cur).value.filename, storage, file);
    }
  }

  lemma LivePoolPlain(cur: string)
    requires ParseCdrom(cur).Some?
    ensures ':' !in ParseCdrom(cur).value.pool
  {
  }

  lemma SameVolid(p: string, f: string, q: string, g: string)
    requires ':' !in p && CleanIso(q, g)
    ensures IsoVolid(p, f) == IsoVolid(q, g) <==> p == q && f == g
  {
    if IsoVolid(p, f) == IsoVolid(q, g) {
      IndexOfAt(p, ':', "iso/" + f);
      IndexOfAt(q, ':', "iso/" + g);
      assert IsoVolid(p, f) == p + [':'] + ("iso/" + f) && IsoVolid(q, g) == q + [':'] + ("iso/" + g);
      assert |p| == |q| && IsoVolid(p, f)[..|p|] == p && IsoVolid(q, g)[..|q|] == q;
      assert IsoVolid(p, f)[|p| + 5..] == f && IsoVolid(q, g)[|q| + 5..] == g;
    }
  }

  // ----- TPM and PCI devices -----

  predicate TpmHolds(version: string, cur: string) {
    cur != "" && FirstValue(Split(cur, ','), "version") == version
  }

  lemma TpmQuiet(version: string, cur: string)
    requires version != "" && CleanValue(version)
    ensures TpmMatches(cur, TpmWire(version)) <==> TpmHolds(version, cur)
  {
    hide CutKey, CutValue, IndexOf, TrimSpace, Split;
    var tokens := ["endpoint" + "=" + "host", "version" + "=" + version];
    BindPair("endpoint", "host");
    BindPair("version", version);
    SplitJoin(tokens, ',');
    assert tokens[1..] == ["version" + "=" + version];
    assert Join(tokens, ",") == TpmWire(version);
    CleanTokenTrims(tokens[0]);
    CleanTokenTrims(tokens[1]);
    assert "endpoint"[0] != "version"[0];
    assert FirstValue(tokens, "version") == FirstValue(tokens[1..], "version") == version;
  }

  predicate CleanDevice(p: Pci) { TrimSpace(p.device) != "" && ',' !in p.device && '=' !in p.device }

  /** What the device owns of its slot: the address and, when declared, the pcie flag. */
  function PciMeaning(p: Pci): map<string, string> {
    map["host" := Lower(TrimSpace(p.device))] + (if p.pcie.Some? then map["pcie" := BoolWire(p.pcie.value)] else map[])
  }

  /** The slot holds exactly the declared device: no other token is live. */
  predicate PciHolds(p: Pci, cur: string) { PciTokens(Split(cur, ',')) == PciMeaning(p) }

  lemma PlainLower(t: string)
    requires Trimmed(t) && t != "" && ',' !in t && '=' !in t
    ensures Lower(t) != "" && Trimmed(Lower(t)) && ',' !in Lower(t) && '=' !in Lower(t)
  {
    var l := Lower(t);
    forall i | 0 <= i < |l| ensures l[i] != ',' && l[i] != '=' {
      assert l[i] == LowerChar(t[i]) && t[i] in t;
    }
    assert l[0] == LowerChar(t[0]) && l[|l| - 1] == LowerChar(t[|t| - 1]);
  }

  lemma NoCut(t: string)
    requires '=' !in t
    ensures CutKey(t).None?
  {
    IndexOfAbsent(t, '=');
  }

  lemma DeviceToken(p: Pci)
    requires CleanDevice(p)
    ensures var d := Lower(TrimSpace(p.device)); d != "" && TrimSpace(d) == d && CutKey(d).None? && ',' !in d && Lower(d) == d
  {
    hide TrimSpace, Lower, CutKey;
    var t := TrimSpace(p.device);
    LowerIdempotent(t);
    PlainLower(t);
    NoCut(Lower(t));
  }

  lemma PciReads(p: Pci)
    requires CleanDevice(p)
    ensures PciTokens(Split(PciWire(p), ',')) == PciMeaning(p)
  {
    hide TrimSpace, Lower, CutKey, CutValue, TrimQuotes, IndexOf, Split;
    DeviceToken(p);
    var d := Lower(TrimSpace(p.device));
    OneToken(d);
    if p.pcie.Some? {
      var v := BoolWire(p.pcie.value);
      var tokens := [d, "pcie" + "=" + v];
      FlagToken(v);
      SplitJoin(tokens, ',');
      assert tokens[1..] == ["pcie" + "=" + v] && tokens[..1] == [d];
      assert Join(tokens, ",") == PciWire(p);
    } else {
      SplitJoin([d], ',');
      assert PciWire(p) == d == Join([d], ",");
    }
  }

  lemma OneToken(d: string)
    requires d != "" && TrimSpace(d) == d && CutKey(d).None? && Lower(d) == d
    ensures PciTokens([d]) == map["host" := d]
  {
    hide TrimSpace, Lower, CutKey;
    assert [d][..0] == [];
  }

  lemma FlagToken(v: string)
    requires v == "0" || v == "1"
    ensures var t := "pcie" + "=" + v;
            && TrimSpace(t) == t && t != "" && ',' !in t && CutKey(t) == Some("pcie") && TrimQuotes(CutValue(t)) == v
            && Lower(TrimSpace("pcie")) == "pcie"
  {
    BindPair("pcie", v);
    CleanTokenTrims("pcie" + "=" + v);
    assert Trimmed("pcie");
  }

  lemma PciQuiet(p: Pci, cur: string)
    requires CleanDevice(p)
    ensures PciMatches(cur, p) <==> PciHolds(p, cur)
  {
    hide PciTokens, PciMeaning, PciWire;
    PciReads(p);
    var c, w := PciTokens(Split(cur, ',')), PciMeaning(p);
    if PciMatches(cur, p) {
      assert |c.Keys| == |c| && |w.Keys| == |w|;
      assert w.Keys <= c.Keys;
      Codec.SubsetSameSize(w.Keys, c.Keys);
    }
  }

  // ----- network devices -----

  predicate KnownNic(n: Nic) { ModelOf(n) in NIC_MODELS && CleanValue(n.bridge) && CleanValue(TrimSpace(n.mac)) }

  /** Model and bridge as declared; address, tag, rate and firewall where declared. */
  predicate NicHolds(n: Nic, cur: string) {
    var c := ParseNic(cur);
    && c.model == ModelOf(n) && c.bridge == n.bridge
    && (MacOf(n) != "" ==> EqualFold(c.mac, MacOf(n)))
    && (n.vlan > 0 ==> c.vlan == n.vlan)
    && (n.rate > 0 ==> c.rate == n.rate)
    && (n.firewall ==> c.firewall)
  }

  lemma {:induction false} NicConcat(a: seq<string>, b: seq<string>, out: NicFields)
    ensures NicTokens(a + b, out) == NicTokens(b, NicTokens(a, out))
  {
    hide NicToken;
    if a == [] {
      assert a + b == b;
    } else {
      assert (a + b)[1..] == a[1..] + b;
      NicConcat(a[1..], b, NicToken(a[0], out));
    }
  }

  lemma ModelPlain(m: string)
    requires m in NIC_MODELS
    ensures CleanKey(m) && Trimmed(m) && m !in {"bridge", "tag", "vlan", "rate", "firewall"}
  {
  }

  const NO_NIC := NicFields("", "", "", 0, 0, false)

  lemma HeadReads(n: Nic)
    requires KnownNic(n)
    ensures ',' !in NicHead(n) && NicToken(NicHead(n), NO_NIC) == NO_NIC.(model := ModelOf(n), mac := MacOf(n))
  {
    hide CutKey, CutValue, TrimSpace, Lower, IndexOf;
    var m := ModelOf(n);
    ModelPlain(m);
    if MacOf(n) != "" {
      LowerClean(TrimSpace(n.mac));
      BindPair(m, MacOf(n));
      CleanTokenTrims(m + "=" + MacOf(n));
    } else {
      BareKey(m);
    }
  }

  lemma BareKey(m: string)
    requires '=' !in m
    ensures CutKey(m).None?
  {
    IndexOfAbsent(m, '=');
  }

  lemma NicPair(k: string, v: string, out: NicFields)
    requires CleanKey(k) && CleanValue(v) && k in {"bridge", "tag", "rate", "firewall"}
    ensures ',' !in k + "=" + v
    ensures NicTokens([k + "=" + v], out) ==
            if k == "bridge" then out.(bridge := v)
            else if k == "tag" then out.(vlan := Atoi(v))
            else if k == "rate" then out.(rate := Atoi(v))
            else out.(firewall := v == "1" || v == "true")
  {
    hide CutKey, CutValue, TrimSpace, IndexOf, Atoi;
    BindPair(k, v);
    CleanTokenTrims(k + "=" + v);
    assert [k + "=" + v][1..] == [];
  }

  lemma NicNumber(k: string, n: int, out: NicFields)
    requires k in {"tag", "rate"} && (if k == "tag" then out.vlan == 0 else out.rate == 0)
    ensures NicTokens(NumberToken(k, n), out) == if k == "tag" then out.(vlan := Positive(n)) else out.(rate := Positive(n))
    ensures forall t | t in NumberToken(k, n) :: ',' !in t
  {
    hide Itoa, Atoi;
    if n > 0 {
      ItoaClean(n);
      AtoiItoa(n);
      NicPair(k, Itoa(n), out);
    }
  }

  /** A written network device reads back as the one it was written for. */
  lemma NicReads(n: Nic)
    requires KnownNic(n)
    ensures ParseNic(NicString(n)) == NicFields(ModelOf(n), MacOf(n), n.bridge, Positive(n.vlan), Positive(n.rate), n.firewall)
  {
    hide NicToken, NicTokens, Split, Join, NicHead, NumberToken, MacOf, ModelOf, Positive, KnownNic;
    HeadReads(n);
    var o0 := NO_NIC.(model := ModelOf(n), mac := MacOf(n));
    var o1 := o0.(bridge := n.bridge);
    var o2 := o1.(vlan := Positive(n.vlan));
    var o3 := o2.(rate := Positive(n.rate));
    assert CleanValue(n.bridge) by { BridgeClean(n); }
    NicPair("bridge", n.bridge, o0);
    NicNumber("tag", n.vlan, o1);
    NicNumber("rate", n.rate, o2);
    NicPair("firewall", "1", o3);
    var t1, t2, t3, t4 := ["bridge" + "=" + n.bridge], NumberToken("tag", n.vlan), NumberToken("rate", n.rate), (if n.firewall then ["firewall" + "=" + "1"] else []);
    NicConcat(t1 + t2 + t3, t4, o0);
    NicConcat(t1 + t2, t3, o0);
    NicConcat(t1, t2, o0);
    NothingMore(o3);
    FirstNic(NicHead(n), NicTail(n), o0);
    SplitJoin([NicHead(n)] + NicTail(n), ',');
  }

  lemma BridgeClean(n: Nic)
    requires KnownNic(n)
    ensures CleanValue(n.bridge)
  {
  }

  lemma NothingMore(out: NicFields)
    ensures NicTokens([], out) == out
  {
  }

  lemma FirstNic(head: string, tail: seq<string>, o: NicFields)
    requires NicToken(head, NO_NIC) == o
    ensures NicTokens([head] + tail, NO_NIC) == NicTokens(tail, o)
  {
    hide NicToken;
    assert ([head] + tail)[1..] == tail;
  }

  lemma NicQuiet(n: Nic, cur: string)
    requires KnownNic(n)
    ensures NicMatches(cur, NicString(n)) <==> NicHolds(n, cur)
  {
    hide ParseNic, NicString, Lower, ModelOf, MacOf, KnownNic;
    NicReads(n);
  }

  // ----- the whole manifest -----

  predicate TextHolds(want: string, cur: string) { want != "" ==> cur == want }

  predicate FlagHolds(want: bool, cur: string) { want ==> PveInt(cur) == 1 }

  /** Every declared word is live, and nothing beside as many words. */
  predicate WordsHold(want: seq<string>, cur: string) {
    want != [] ==> |Words(cur)| == |want| && forall w | w in want :: w in Words(cur)
  }

  predicate CoreHolds(v: VmSpec, cfg: Config) {
    && Get(cfg, Cpu) == v.cpuType && PveInt(Get(cfg, Cores)) == v.cores && Some(PveInt(Get(cfg, Memory))) == MemoryMiB(v.memory)
    && TagSet(Get(cfg, Tags)) == (set t | t in v.tags && t != "") + {OWNERSHIP_TAG}
    && TextHolds(ScsiController(v.disks), Get(cfg, Scsihw))
  }

  predicate HardwareHolds(hw: Hardware, cfg: Config) {
    && TextHolds(hw.machine, Get(cfg, Machine)) && TextHolds(hw.bios, Get(cfg, Bios)) && TextHolds(hw.display, Get(cfg, Vga))
    && TextHolds(hw.serial0, Get(cfg, Serial0)) && (hw.sockets != 0 ==> PveInt(Get(cfg, Sockets)) == hw.sockets)
    && FlagHolds(hw.numa, Get(cfg, Numa))
    && (hw.tpm.Some? ==> TpmHolds(if hw.tpm.value != "" then Lower(hw.tpm.value) else "v2.0", Get(cfg, Tpm0)))
    && (hw.efi.Some? ==> EfiHolds(hw.efi.value, Get(cfg, Efidisk0)))
  }

  /** The cloud-init drive in ide2, the declared ISO (or none) in ide2 or beside it in ide3. */
  predicate MediaHold(v: VmSpec, cfg: Config) {
    var hw, iso := v.hw, TrimSpace(v.hw.cdromIso);
    var disc := Get(cfg, if hw.ciEnabled then Ide3 else Ide2);
    && (hw.ciEnabled ==> CloudInitHolds(hw.ciStorage, hw.ciSize, IsCloneBacked(v), Get(cfg, Ide2)))
    && (iso == CDROM_NONE ==> TrimSpace(disc) == "" || HasPrefix(TrimSpace(disc), "none"))
    && (iso != "" && iso != CDROM_NONE ==> CdromHolds(v.cdromVolid, disc))
  }

  predicate IdentityHolds(ci: CloudInitData, cfg: Config) {
    var keys := SshKeysEffective(ci);
    && TextHolds(ci.ciuser, Get(cfg, Ciuser))
    && (keys != [] && Codec.SENTINEL !in keys ==> Codec.KeySet(Get(cfg, Sshkeys)) == set k | k in keys :: TrimSpace(k))
    && (ci.resolvedPassword != "" ==> Get(cfg, Cipassword) != "")
    && WordsHold(ci.nameservers, Get(cfg, NameServer)) && WordsHold(ci.searchDomains, Get(cfg, SearchDomain))
  }

  predicate OptionsHold(o: VmOptions, cfg: Config) {
    && FlagHolds(o.onboot, Get(cfg, Onboot)) && FlagHolds(o.protection, Get(cfg, Protection)) && FlagHolds(o.agent, Get(cfg, Agent))
    && FlagHolds(o.acpi, Get(cfg, Acpi)) && FlagHolds(o.tablet, Get(cfg, Tablet)) && FlagHolds(o.nestedVirt, Get(cfg, Nestedvirt))
    && FlagHolds(o.hidden, Get(cfg, Hidden)) && TextHolds(o.startup, Get(cfg, Startup))
    && (o.hotplug != [] ==> Get(cfg, Hotplug) == Join(o.hotplug, ","))
    && (o.bootOrder != [] ==> Get(cfg, Boot) == "order=" + Join(o.bootOrder, ";"))
  }

  /** Of several entries for one address slot the last that has an address counts. */
  predicate LastAddress(ips: seq<IpConfig>, i: nat)
    requires i < |ips|
  {
    ips[i].ip != "" && forall j | i < j < |ips| && ips[j].ip != "" :: Vm.IpKey(ips[j]) != Vm.IpKey(ips[i])
  }

  predicate SlotsHold(v: VmSpec, cfg: Config) {
    && (forall i | 0 <= i < |v.disks| :: DiskHolds(v.disks[i], Get(cfg, DiskKey(v.disks, i))))
    && (forall i | 0 <= i < |v.nics| :: NicHolds(v.nics[i], Get(cfg, NicKey(v.nics, i))))
    && (forall i | 0 <= i < |v.hw.pci| :: PciHolds(v.hw.pci[i], Get(cfg, Dev(v.hw.pci[i].slot))))
    && (forall i | 0 <= i < |v.ci.ipConfigs| && LastAddress(v.ci.ipConfigs, i) :: Get(cfg, Vm.IpKey(v.ci.ipConfigs[i])) == IpWire(v.ci.ipConfigs[i]))
  }

  /** No identity key inherited from a template that the manifest does not own. */
  predicate NothingInherited(v: VmSpec, cfg: Config) {
    IsCloneBacked(v) ==> forall k | k in IdentityKeys(v) && Present(cfg, k) :: k in OwnedTable(v)
  }

  predicate Carries(v: VmSpec, cfg: Config) {
    && CoreHolds(v, cfg) && HardwareHolds(v.hw, cfg) && MediaHold(v, cfg) && IdentityHolds(v.ci, cfg) && OptionsHold(v.options, cfg)
    && SlotsHold(v, cfg) && NothingInherited(v, cfg)
  }

  /** Values the wire formats can carry: known NIC models, one key per line, one word per server. */
  predicate Readable(v: VmSpec) {
    && (forall n | n in v.nics :: KnownNic(n)) && (forall p | p in v.hw.pci :: CleanDevice(p))
    && (forall k | k in SshKeysEffective(v.ci) :: Codec.ByteString(k) && '\n' !in k && TrimSpace(k) != "")
    && (forall w | w in v.ci.nameservers :: OneWord(w)) && (forall w | w in v.ci.searchDomains :: OneWord(w))
  }

  /** Nothing is proposed for a fixed key. */
  predicate Quiet(v: VmSpec, k: Key, cfg: Config) {
    hide *;
    FixedEntry(v, k).None? || Propose(FixedEntry(v, k).value.field, k, cfg).None?
  }

  predicate AllQuiet(v: VmSpec, ks: set<Key>, cfg: Config) { forall k | k in ks :: Quiet(v, k, cfg) }

  lemma CoreEntries(v: VmSpec)
    requires MemoryMiB(v.memory).Some? && v.cpuType != "" && v.cores > 0
    ensures FixedEntry(v, Cpu) == Some(Entry(TextF(v.cpuType), true)) && FixedEntry(v, Cores) == Some(Entry(IntF(v.cores), true))
    ensures FixedEntry(v, Memory) == Some(Entry(IntF(MemoryMiB(v.memory).value), true))
    ensures FixedEntry(v, Tags) == Some(Entry(TagsF(AllTags(v.tags)), false))
    ensures FixedEntry(v, Scsihw) == Own(ScsiController(v.disks) != "", TextF(ScsiController(v.disks)), true)
  {
    hide MemoryMiB, ScsiController, AllTags, Join, SshWire, CdromEntry, TpmVersion, IsCloneBacked;
  }

  lemma CoreQuiet(v: VmSpec, cfg: Config)
    requires WellFormed(v)
    ensures AllQuiet(v, {Cpu, Cores, Memory, Tags, Scsihw}, cfg) <==> CoreHolds(v, cfg)
  {
    hide FixedEntry, MemoryMiB, ScsiController, AllTags, TagSet, PveInt, Get, WellFormed, TextHolds;
    CoreDeclared(v);
    CoreEntries(v);
    TextAt(v, Scsihw, ScsiController(v.disks), true, cfg);
    TagsMean(v.tags);
  }

  lemma CoreDeclared(v: VmSpec)
    requires WellFormed(v)
    ensures v.cpuType != "" && v.cores > 0 && MemoryMiB(v.memory).Some?
  {
    hide CleanDisk, CleanEfi, CleanVolid, ExtraKey, StorageId, MemoryMiB, TrimSpace, DiskKey, NicKey, IsDiskSlot, IsNicSlot, IsPciSlot, CleanTag;
  }

  lemma TagsMean(tags: seq<string>)
    ensures (set t | t in AllTags(tags) && t != "") == (set t | t in tags && t != "") + {OWNERSHIP_TAG}
  {
    hide AllTags;
    assert OWNERSHIP_TAG in AllTags(tags) by { OwnTag(tags); }
    forall t ensures t in AllTags(tags) <==> t in tags || t == OWNERSHIP_TAG {
      OwnTag(tags);
    }
  }

  lemma OwnTag(tags: seq<string>)
    ensures OWNERSHIP_TAG in AllTags(tags) && forall t :: t in AllTags(tags) <==> t in tags || t == OWNERSHIP_TAG
  {
  }

  lemma TextAt(v: VmSpec, k: Key, want: string, stop: bool, cfg: Config)
    requires FixedEntry(v, k) == Own(want != "", TextF(want), stop)
    ensures Quiet(v, k, cfg) <==> TextHolds(want, Get(cfg, k))
  {
    hide FixedEntry;
  }

  lemma FlagAt(v: VmSpec, k: Key, want: bool, stop: bool, cfg: Config)
    requires FixedEntry(v, k) == Own(want, FlagF, stop)
    ensures Quiet(v, k, cfg) <==> FlagHolds(want, Get(cfg, k))
  {
    hide FixedEntry;
  }

  lemma HardwareEntries(v: VmSpec)
    ensures var hw := v.hw;
            && FixedEntry(v, Machine) == Own(hw.machine != "", TextF(hw.machine), true)
            && FixedEntry(v, Bios) == Own(hw.bios != "", TextF(hw.bios), true)
            && FixedEntry(v, Vga) == Own(hw.display != "", TextF(hw.display), false)
            && FixedEntry(v, Serial0) == Own(hw.serial0 != "", TextF(hw.serial0), true)
            && FixedEntry(v, Sockets) == Own(hw.sockets != 0, IntF(hw.sockets), true)
            && FixedEntry(v, Numa) == Own(hw.numa, FlagF, true)
            && FixedEntry(v, Tpm0) == Own(hw.tpm.Some?, TpmF(TpmVersion(hw.tpm)), true)
            && FixedEntry(v, Efidisk0) == (if hw.efi.Some? then Some(Entry(EfiF(hw.efi.value), true)) else None)
  {
    hide TpmVersion, Own, Join, SshWire, CdromEntry, MemoryMiB, ScsiController, AllTags, IsCloneBacked;
  }

  lemma HardwareQuiet(v: VmSpec, cfg: Config)
    requires WellFormed(v) && Readable(v)
    ensures AllQuiet(v, {Machine, Bios, Vga, Sockets, Numa, Efidisk0, Tpm0, Serial0}, cfg) <==> HardwareHolds(v.hw, cfg)
  {
    hide FixedEntry, TextHolds, FlagHolds, Quiet, WellFormed, Readable, Get, TpmHolds, EfiHolds, Lower, PveInt;
    var hw := v.hw;
    HardwareEntries(v);
    TextAt(v, Machine, hw.machine, true, cfg);
    TextAt(v, Bios, hw.bios, true, cfg);
    TextAt(v, Vga, hw.display, false, cfg);
    TextAt(v, Serial0, hw.serial0, true, cfg);
    FlagAt(v, Numa, hw.numa, true, cfg);
    SocketsAt(v, cfg);
    EfiAt(v, cfg);
    TpmAt(v, cfg);
  }

  lemma SocketsAt(v: VmSpec, cfg: Config)
    ensures Quiet(v, Sockets, cfg) <==> (v.hw.sockets != 0 ==> PveInt(Get(cfg, Sockets)) == v.hw.sockets)
  {
    hide FixedEntry, PveInt, Get;
    HardwareEntries(v);
  }

  lemma EfiAt(v: VmSpec, cfg: Config)
    requires hide *; WellFormed(v)
    ensures Quiet(v, Efidisk0, cfg) <==> (v.hw.efi.Some? ==> EfiHolds(v.hw.efi.value, Get(cfg, Efidisk0)))
  {
    hide FixedEntry, EfiPropose, EfiHolds, WellFormed, CleanEfi, Get;
    HardwareEntries(v);
    WellFormedParts(v);
    if v.hw.efi.Some? {
      EfiQuiet(v.hw.efi.value, Get(cfg, Efidisk0));
    }
  }

  lemma TpmAt(v: VmSpec, cfg: Config)
    requires hide *; WellFormed(v)
    ensures Quiet(v, Tpm0, cfg) <==>
            (v.hw.tpm.Some? ==> TpmHolds(if v.hw.tpm.value != "" then Lower(v.hw.tpm.value) else "v2.0", Get(cfg, Tpm0)))
  {
    hide FixedEntry, TpmMatches, TpmHolds, TpmWire, WellFormed, KnownTpm, Lower, Get;
    HardwareEntries(v);
    if v.hw.tpm.Some? {
      WellFormedParts(v);
      TpmClean(v.hw.tpm);
      TpmQuiet(TpmVersion(v.hw.tpm), Get(cfg, Tpm0));
    }
  }

  lemma TpmClean(t: Option<string>)
    requires KnownTpm(t)
    ensures CleanValue(TpmVersion(t)) && TpmVersion(t) != ""
  {
    if t.Some? {
      LowerBlank(t.value);
    }
  }

  lemma FlagEntries(v: VmSpec)
    ensures var o := v.options;
            && FixedEntry(v, Onboot) == Own(o.onboot, FlagF, false) && FixedEntry(v, Protection) == Own(o.protection, FlagF, false)
            && FixedEntry(v, Agent) == Own(o.agent, FlagF, false) && FixedEntry(v, Acpi) == Own(o.acpi, FlagF, false)
            && FixedEntry(v, Tablet) == Own(o.tablet, FlagF, false) && FixedEntry(v, Nestedvirt) == Own(o.nestedVirt, FlagF, false)
            && FixedEntry(v, Hidden) == Own(o.hidden, FlagF, false)
  {
    hide Own, FixedEntry;
    FirstFlags(v);
    LastFlags(v);
  }

  lemma FirstFlags(v: VmSpec)
    ensures var o := v.options;
            && FixedEntry(v, Onboot) == Own(o.onboot, FlagF, false) && FixedEntry(v, Protection) == Own(o.protection, FlagF, false)
            && FixedEntry(v, Agent) == Own(o.agent, FlagF, false)
  {
    hide Own, Join, SshWire, CdromEntry, MemoryMiB, ScsiController, AllTags, TpmVersion, IsCloneBacked;
  }

  lemma LastFlags(v: VmSpec)
    ensures var o := v.options;
            && FixedEntry(v, Acpi) == Own(o.acpi, FlagF, false) && FixedEntry(v, Tablet) == Own(o.tablet, FlagF, false)
            && FixedEntry(v, Nestedvirt) == Own(o.nestedVirt, FlagF, false) && FixedEntry(v, Hidden) == Own(o.hidden, FlagF, false)
  {
    hide Own, Join, SshWire, CdromEntry, MemoryMiB, ScsiController, AllTags, TpmVersion, IsCloneBacked;
  }

  lemma ListEntries(v: VmSpec)
    ensures var o := v.options;
            && FixedEntry(v, Startup) == Own(o.startup != "", TextF(o.startup), false)
            && FixedEntry(v, Hotplug) == Own(o.hotplug != [], TextF(Join(o.hotplug, ",")), false)
            && FixedEntry(v, Boot) == Own(o.bootOrder != [], TextF("order=" + Join(o.bootOrder, ";")), false)
  {
    hide Own, Join, SshWire, CdromEntry, MemoryMiB, ScsiController, AllTags, TpmVersion, IsCloneBacked;
  }

  lemma ListAt(v: VmSpec, k: Key, owned: bool, want: string, cfg: Config)
    requires FixedEntry(v, k) == Own(owned, TextF(want), false)
    ensures Quiet(v, k, cfg) <==> (owned ==> Get(cfg, k) == want)
  {
    hide FixedEntry;
  }

  lemma OptionsQuiet(v: VmSpec, cfg: Config)
    ensures AllQuiet(v, {Onboot, Startup, Protection, Agent, Acpi, Tablet, Hotplug, Boot, Nestedvirt, Hidden}, cfg) <==> OptionsHold(v.options, cfg)
  {
    hide FixedEntry, TextHolds, FlagHolds, Quiet, Get, Join;
    var o := v.options;
    FlagEntries(v);
    ListEntries(v);
    FlagAt(v, Onboot, o.onboot, false, cfg);
    FlagAt(v, Protection, o.protection, false, cfg);
    FlagAt(v, Agent, o.agent, false, cfg);
    FlagAt(v, Acpi, o.acpi, false, cfg);
    FlagAt(v, Tablet, o.tablet, false, cfg);
    FlagAt(v, Nestedvirt, o.nestedVirt, false, cfg);
    FlagAt(v, Hidden, o.hidden, false, cfg);
    TextAt(v, Startup, o.startup, false, cfg);
    ListAt(v, Hotplug, o.hotplug != [], Join(o.hotplug, ","), cfg);
    ListAt(v, Boot, o.bootOrder != [], "order=" + Join(o.bootOrder, ";"), cfg);
  }

  lemma MediaEntries(v: VmSpec)
    ensures FixedEntry(v, Ide2) ==
            if v.hw.ciEnabled then Some(Entry(CloudInitF(v.hw.ciStorage, v.hw.ciSize, IsCloneBacked(v)), true)) else CdromEntry(v)
    ensures FixedEntry(v, Ide3) == if v.hw.ciEnabled then CdromEntry(v) else None
  {
    hide Own, Join, SshWire, CdromEntry, MemoryMiB, ScsiController, AllTags, TpmVersion, IsCloneBacked;
  }

  lemma DiscEntryQuiet(volid: string, media: string, k: Key, cfg: Config)
    ensures CleanVolid(volid) ==> (Propose(CdromF(volid, media), k, cfg).None? <==> CdromHolds(volid, Get(cfg, k)))
    ensures Propose(CdromNoneF, k, cfg).None? <==> TrimSpace(Get(cfg, k)) == "" || HasPrefix(TrimSpace(Get(cfg, k)), "none")
  {
    hide CdromHolds, CdromMatches, TrimSpace, CleanVolid, HasPrefix;
    if CleanVolid(volid) {
      CdromQuiet(volid, Get(cfg, k));
    }
  }

  lemma DiscEntry(v: VmSpec)
    requires WellFormed(v)
    ensures var iso := TrimSpace(v.hw.cdromIso);
            && (iso == "" ==> CdromEntry(v).None?)
            && (iso == CDROM_NONE ==> CdromEntry(v) == Some(Entry(CdromNoneF, true)))
            && (iso != "" && iso != CDROM_NONE ==>
                  CleanVolid(v.cdromVolid) && CdromEntry(v).Some? && CdromEntry(v).value.field.CdromF? && CdromEntry(v).value.field.volid == v.cdromVolid)
  {
    hide WellFormed, TrimSpace, CleanVolid;
    WellFormedParts(v);
  }

  /** The declared ISO, or none, at whichever slot the disc has. */
  lemma DiscAt(v: VmSpec, k: Key, cfg: Config)
    requires WellFormed(v) && FixedEntry(v, k) == CdromEntry(v)
    ensures var iso, disc := TrimSpace(v.hw.cdromIso), Get(cfg, k);
            Quiet(v, k, cfg) <==>
            && (iso == CDROM_NONE ==> TrimSpace(disc) == "" || HasPrefix(TrimSpace(disc), "none"))
            && (iso != "" && iso != CDROM_NONE ==> CdromHolds(v.cdromVolid, disc))
  {
    hide FixedEntry, WellFormed, CdromHolds, CdromEntry, Propose, TrimSpace, CleanVolid, HasPrefix, Get;
    DiscEntry(v);
    var e := CdromEntry(v);
    DiscEntryQuiet(v.cdromVolid, if e.Some? && e.value.field.CdromF? then e.value.field.media else "", k, cfg);
  }

  lemma DriveAt(v: VmSpec, cfg: Config)
    requires WellFormed(v) && Readable(v) && v.hw.ciEnabled
    ensures Quiet(v, Ide2, cfg) <==> CloudInitHolds(v.hw.ciStorage, v.hw.ciSize, IsCloneBacked(v), Get(cfg, Ide2))
  {
    hide FixedEntry, WellFormed, Readable, CloudInitHolds, Propose, StorageId, CleanValue, IsCloneBacked, Get;
    MediaEntries(v);
    WellFormedParts(v);
    CloudInitQuiet(v.hw.ciStorage, v.hw.ciSize, IsCloneBacked(v), Ide2, cfg);
  }

  lemma MediaQuiet(v: VmSpec, cfg: Config)
    requires WellFormed(v) && Readable(v)
    ensures AllQuiet(v, {Ide2, Ide3}, cfg) <==> MediaHold(v, cfg)
  {
    hide FixedEntry, WellFormed, Readable, CloudInitHolds, CdromHolds, CdromEntry, Propose, TrimSpace, HasPrefix, IsCloneBacked, Get;
    MediaEntries(v);
    if v.hw.ciEnabled {
      DriveAt(v, cfg);
      DiscAt(v, Ide3, cfg);
    } else {
      DiscAt(v, Ide2, cfg);
    }
  }

  lemma WordsQuiet(want: seq<string>, cur: string)
    requires forall w | w in want :: OneWord(w)
    ensures Join(want, " ") != "" <==> want != []
    ensures want != [] ==> (WordSetsEqual(cur, Join(want, " ")) <==> WordsHold(want, cur))
  {
    WordsJoin(want);
    if want != [] {
      assert want[0] in want;
    }
  }

  lemma KeysQuiet(ci: CloudInitData, cur: string)
    requires forall k | k in SshKeysEffective(ci) :: Codec.ByteString(k) && '\n' !in k && TrimSpace(k) != ""
    ensures var keys := SshKeysEffective(ci);
            && (SshWire(ci) != "" <==> keys != [] && Codec.SENTINEL !in keys)
            && (SshWire(ci) != "" ==> (Codec.WireMatch(cur, SshWire(ci)) <==> Codec.KeySet(cur) == set k | k in keys :: TrimSpace(k)))
  {
    hide Codec.KeySet, TrimSpace, Codec.ByteString, SshKeysEffective;
    var keys := SshKeysEffective(ci);
    if keys != [] && Codec.SENTINEL !in keys {
      Codec.WireCarriesKeys(keys);
      assert keys[0] in keys && TrimSpace(keys[0]) in Codec.KeySet(Codec.SshKeysWire(keys));
      NoKeysInNothing();
      MatchIsEquality(cur, SshWire(ci));
      assert (set k | k in keys :: TrimSpace(k)) == set k | k in keys && TrimSpace(k) != "" :: TrimSpace(k);
    }
  }

  lemma MatchIsEquality(cur: string, want: string)
    ensures Codec.WireMatch(cur, want) <==> Codec.KeySet(cur) == Codec.KeySet(want)
  {
    hide Codec.KeySet;
    if Codec.WireMatch(cur, want) {
      assert Codec.KeySet(want) <= Codec.KeySet(cur);
      Codec.SubsetSameSize(Codec.KeySet(want), Codec.KeySet(cur));
    }
  }

  lemma NoKeysInNothing()
    ensures Codec.KeySet("") == {}
  {
    assert Codec.Decode("") == Some("");
    assert Split("", '\n') == [""];
  }

  lemma IdentityEntries(v: VmSpec)
    ensures var ci := v.ci;
            && FixedEntry(v, Ciuser) == Own(ci.ciuser != "", TextF(ci.ciuser), false)
            && FixedEntry(v, Sshkeys) == Own(SshWire(ci) != "", SshKeysF(SshWire(ci)), false)
            && FixedEntry(v, Cipassword) == Own(ci.resolvedPassword != "", PasswordF(ci.resolvedPassword), false)
            && FixedEntry(v, NameServer) == Own(Join(ci.nameservers, " ") != "", WordsF(Join(ci.nameservers, " ")), false)
            && FixedEntry(v, SearchDomain) == Own(Join(ci.searchDomains, " ") != "", WordsF(Join(ci.searchDomains, " ")), false)
  {
    hide Own, Join, SshWire, CdromEntry, MemoryMiB, ScsiController, AllTags, TpmVersion, IsCloneBacked;
  }

  lemma WordsAt(v: VmSpec, k: Key, want: seq<string>, cfg: Config)
    requires FixedEntry(v, k) == Own(Join(want, " ") != "", WordsF(Join(want, " ")), false)
    requires forall w | w in want :: OneWord(w)
    ensures Quiet(v, k, cfg) <==> WordsHold(want, Get(cfg, k))
  {
    hide FixedEntry, WordSetsEqual, OneWord, Join, Get, WordsHold;
    WordsQuiet(want, Get(cfg, k));
    NoWords();
  }

  lemma KeysAt(v: VmSpec, cfg: Config)
    requires Readable(v)
    ensures var keys := SshKeysEffective(v.ci);
            Quiet(v, Sshkeys, cfg) <==>
            (keys != [] && Codec.SENTINEL !in keys ==> Codec.KeySet(Get(cfg, Sshkeys)) == set k | k in keys :: TrimSpace(k))
  {
    hide FixedEntry, Codec.KeySet, Codec.WireMatch, TrimSpace, SshKeysEffective, SshWire, OneWord, Codec.ByteString, KnownNic, CleanDevice,
         CleanValue, TpmVersion, Get, Join;
    IdentityEntries(v);
    KeysQuiet(v.ci, Get(cfg, Sshkeys));
  }

  lemma PasswordAt(v: VmSpec, cfg: Config)
    ensures Quiet(v, Cipassword, cfg) <==> (v.ci.resolvedPassword != "" ==> Get(cfg, Cipassword) != "")
  {
    hide FixedEntry, Get, SshWire, Join;
    IdentityEntries(v);
  }

  lemma IdentityQuiet(v: VmSpec, cfg: Config)
    requires Readable(v)
    ensures AllQuiet(v, {Ciuser, Sshkeys, Cipassword, NameServer, SearchDomain}, cfg) <==> IdentityHolds(v.ci, cfg)
  {
    hide FixedEntry, Quiet, Get, SshWire, Join, WordsHold, TextHolds, Codec.KeySet, TrimSpace, SshKeysEffective, OneWord, Codec.ByteString, KnownNic,
         CleanDevice, CleanValue, TpmVersion;
    IdentityEntries(v);
    TextAt(v, Ciuser, v.ci.ciuser, false, cfg);
    KeysAt(v, cfg);
    PasswordAt(v, cfg);
    WordsAt(v, NameServer, v.ci.nameservers, cfg);
    WordsAt(v, SearchDomain, v.ci.searchDomains, cfg);
  }

  lemma NoWords()
    ensures forall cur :: WordsHold([], cur)
  {
  }

  // ----- numbered slots -----

  /** Nothing is proposed for any entry of the table. */
  predicate Silent(t: Table, cfg: Config) { hide *; forall k | k in t :: Propose(t[k].field, k, cfg).None? }

  lemma SilentIsEmpty(t: Table, cfg: Config)
    ensures DriftParams(t, cfg) == map[] <==> Silent(t, cfg)
  {
    hide Propose;
    if DriftParams(t, cfg) == map[] {
      forall k | k in t ensures Propose(t[k].field, k, cfg).None? {
        assert k !in DriftParams(t, cfg);
      }
    }
  }

  /** The families of keys do not meet, so each table shows through in the whole. */
  lemma Families(v: VmSpec, k: Key)
    requires WellFormed(v)
    ensures k in DiskTable(v.disks, |v.disks|) ==> k.Dev? && IsDiskSlot(k.name)
    ensures k in NicTable(v.nics, |v.nics|) ==> k.Dev? && IsNicSlot(k.name)
    ensures k in PciTable(v.hw.pci, |v.hw.pci|) ==> k.Dev? && IsPciSlot(k.name)
    ensures k in IpTable(v.ci.ipConfigs, |v.ci.ipConfigs|) ==> k.Dev? && HasPrefix(k.name, "ipconfig")
    ensures k in FixedTable(v) ==> !k.Dev?
  {
    hide DiskKey, NicKey, IsDiskSlot, IsNicSlot, IsPciSlot, Vm.IpKey, FixedEntry, CleanDisk, CleanEfi, CleanVolid, ExtraKey, CleanTag, StorageId;
    DiskTableAt(v.disks, |v.disks|);
    NicTableAt(v.nics, |v.nics|);
    PciTableAt(v.hw.pci, |v.hw.pci|);
    IpTableAt(v.ci.ipConfigs, |v.ci.ipConfigs|, k);
    KeysAreDev(v, k);
  }

  lemma Merges(a: Table, b: Table, cfg: Config)
    requires a.Keys !! b.Keys
    ensures Silent(a + b, cfg) <==> Silent(a, cfg) && Silent(b, cfg)
  {
    hide Propose;
    var all := a + b;
    if Silent(all, cfg) {
      forall k | k in a ensures Propose(a[k].field, k, cfg).None? {
        assert k in all && all[k] == a[k];
      }
      forall k | k in b ensures Propose(b[k].field, k, cfg).None? {
        assert k in all && all[k] == b[k];
      }
    }
  }

  lemma TableSilent(v: VmSpec, cfg: Config)
    requires hide *; WellFormed(v)
    ensures Silent(OwnedTable(v), cfg) <==>
            && Silent(FixedTable(v), cfg) && Silent(DiskTable(v.disks, |v.disks|), cfg) && Silent(NicTable(v.nics, |v.nics|), cfg)
            && Silent(PciTable(v.hw.pci, |v.hw.pci|), cfg) && Silent(IpTable(v.ci.ipConfigs, |v.ci.ipConfigs|), cfg)
  {
    hide FixedTable, DiskTable, NicTable, PciTable, IpTable, IsDiskSlot, IsNicSlot, IsPciSlot, WellFormed, Silent;
    var a, b, c := FixedTable(v), DiskTable(v.disks, |v.disks|), NicTable(v.nics, |v.nics|);
    var d, e := PciTable(v.hw.pci, |v.hw.pci|), IpTable(v.ci.ipConfigs, |v.ci.ipConfigs|);
    forall k | k in a + b + c + d + e
      ensures k in a ==> !k.Dev?
      ensures k in b ==> k.Dev? && IsDiskSlot(k.name) && !IsNicSlot(k.name) && !IsPciSlot(k.name) && !HasPrefix(k.name, "ipconfig")
      ensures k in c ==> k.Dev? && IsNicSlot(k.name) && !IsPciSlot(k.name) && !HasPrefix(k.name, "ipconfig")
      ensures k in d ==> k.Dev? && IsPciSlot(k.name) && !HasPrefix(k.name, "ipconfig")
      ensures k in e ==> k.Dev? && HasPrefix(k.name, "ipconfig")
    {
      Families(v, k);
      if k.Dev? {
        SlotFamilies(k.name);
      }
    }
    Merges(a, b, cfg);
    Merges(a + b, c, cfg);
    Merges(a + b + c, d, cfg);
    Merges(a + b + c + d, e, cfg);
  }

  lemma FixedIsQuiet(v: VmSpec, cfg: Config)
    ensures Silent(FixedTable(v), cfg) <==> AllQuiet(v, FIXED_KEYS, cfg)
  {
    hide FixedEntry, Propose;
    var t := FixedTable(v);
    if Silent(t, cfg) {
      forall k | k in FIXED_KEYS ensures Quiet(v, k, cfg) {
        if FixedEntry(v, k).Some? {
          assert k in t;
        }
      }
    } else {
      var k :| k in t && !Propose(t[k].field, k, cfg).None?;
      assert !Quiet(v, k, cfg);
    }
  }

  lemma FixedSilent(v: VmSpec, cfg: Config)
    requires WellFormed(v) && Readable(v)
    ensures Silent(FixedTable(v), cfg) <==>
            CoreHolds(v, cfg) && HardwareHolds(v.hw, cfg) && MediaHold(v, cfg) && IdentityHolds(v.ci, cfg) && OptionsHold(v.options, cfg)
  {
    hide FixedTable, AllQuiet, Silent, CoreHolds, HardwareHolds, MediaHold, IdentityHolds, OptionsHold, WellFormed, Readable;
    CoreQuiet(v, cfg);
    HardwareQuiet(v, cfg);
    MediaQuiet(v, cfg);
    IdentityQuiet(v, cfg);
    OptionsQuiet(v, cfg);
    FixedIsQuiet(v, cfg);
    AllFixed(v, cfg);
  }

  lemma AllFixed(v: VmSpec, cfg: Config)
    ensures AllQuiet(v, FIXED_KEYS, cfg) <==>
            && AllQuiet(v, {Cpu, Cores, Memory, Tags, Scsihw}, cfg)
            && AllQuiet(v, {Machine, Bios, Vga, Sockets, Numa, Efidisk0, Tpm0, Serial0}, cfg)
            && AllQuiet(v, {Ide2, Ide3}, cfg)
            && AllQuiet(v, {Ciuser, Sshkeys, Cipassword, NameServer, SearchDomain}, cfg)
            && AllQuiet(v, {Onboot, Startup, Protection, Agent, Acpi, Tablet, Hotplug, Boot, Nestedvirt, Hidden}, cfg)
  {
    hide Quiet;
  }

  lemma DiskEntryQuiet(d: Disk, k: Key, cfg: Config)
    requires CleanDisk(d)
    ensures Propose(DiskF(d), k, cfg).None? <==> DiskHolds(d, Get(cfg, k))
  {
    hide DiskPropose, DiskHolds, CleanDisk;
    DiskQuiet(d, Get(cfg, k));
  }

  lemma DisksSilent(v: VmSpec, cfg: Config)
    requires hide *; WellFormed(v)
    ensures Silent(DiskTable(v.disks, |v.disks|), cfg) <==> forall i | 0 <= i < |v.disks| :: DiskHolds(v.disks[i], Get(cfg, DiskKey(v.disks, i)))
  {
    hide DiskTable, DiskKey, IsDiskSlot, IsNicSlot, IsPciSlot, DiskHolds, Propose, Get, WellFormed, CleanDisk;
    var t := DiskTable(v.disks, |v.disks|);
    DisksDiffer(v);
    DiskTableAt(v.disks, |v.disks|);
    forall i | 0 <= i < |v.disks|
      ensures Propose(t[DiskKey(v.disks, i)].field, DiskKey(v.disks, i), cfg).None? <==> DiskHolds(v.disks[i], Get(cfg, DiskKey(v.disks, i)))
    {
      DiskIsClean(v, i);
      DiskEntryQuiet(v.disks[i], DiskKey(v.disks, i), cfg);
    }
    if forall i | 0 <= i < |v.disks| :: DiskHolds(v.disks[i], Get(cfg, DiskKey(v.disks, i))) {
      forall k | k in t ensures Propose(t[k].field, k, cfg).None? {
        var i :| 0 <= i < |v.disks| && k == DiskKey(v.disks, i);
      }
    }
  }

  lemma DisksDiffer(v: VmSpec)
    requires WellFormed(v)
    ensures forall i, j | 0 <= i < j < |v.disks| :: DiskKey(v.disks, i) != DiskKey(v.disks, j)
    ensures forall i, j | 0 <= i < j < |v.nics| :: NicKey(v.nics, i) != NicKey(v.nics, j)
    ensures forall i, j | 0 <= i < j < |v.hw.pci| :: v.hw.pci[i].slot != v.hw.pci[j].slot
  {
    hide DiskKey, NicKey, CleanDisk, CleanEfi, CleanVolid, ExtraKey, StorageId, MemoryMiB, TrimSpace, IsDiskSlot, IsNicSlot, IsPciSlot, CleanTag;
  }

  lemma NicEntryQuiet(n: Nic, k: Key, cfg: Config)
    requires KnownNic(n)
    ensures Propose(NicF(n), k, cfg).None? <==> NicHolds(n, Get(cfg, k))
  {
    hide NicMatches, NicHolds, KnownNic, NicString;
    NicQuiet(n, Get(cfg, k));
  }

  lemma NicsSilent(v: VmSpec, cfg: Config)
    requires hide *; WellFormed(v) && Readable(v)
    ensures Silent(NicTable(v.nics, |v.nics|), cfg) <==> forall i | 0 <= i < |v.nics| :: NicHolds(v.nics[i], Get(cfg, NicKey(v.nics, i)))
  {
    hide NicTable, NicKey, NicHolds, Propose, Get, WellFormed, KnownNic, CleanDevice, OneWord, CleanValue, Codec.ByteString;
    var t := NicTable(v.nics, |v.nics|);
    DisksDiffer(v);
    NicTableAt(v.nics, |v.nics|);
    forall i | 0 <= i < |v.nics|
      ensures Propose(t[NicKey(v.nics, i)].field, NicKey(v.nics, i), cfg).None? <==> NicHolds(v.nics[i], Get(cfg, NicKey(v.nics, i)))
    {
      assert v.nics[i] in v.nics;
      NicEntryQuiet(v.nics[i], NicKey(v.nics, i), cfg);
    }
    if forall i | 0 <= i < |v.nics| :: NicHolds(v.nics[i], Get(cfg, NicKey(v.nics, i))) {
      forall k | k in t ensures Propose(t[k].field, k, cfg).None? {
        var i :| 0 <= i < |v.nics| && k == NicKey(v.nics, i);
      }
    }
  }

  lemma {:induction false} PciEntry(pci: seq<Pci>, n: nat, i: nat)
    requires i < n <= |pci| && forall i, j | 0 <= i < j < |pci| :: pci[i].slot != pci[j].slot
    ensures Dev(pci[i].slot) in PciTable(pci, n) && PciTable(pci, n)[Dev(pci[i].slot)] == Entry(PciF(pci[i]), true)
  {
    if i < n - 1 {
      PciEntry(pci, n - 1, i);
    }
  }

  lemma PciEntryQuiet(p: Pci, k: Key, cfg: Config)
    requires CleanDevice(p)
    ensures Propose(PciF(p), k, cfg).None? <==> PciHolds(p, Get(cfg, k))
  {
    hide PciMatches, PciHolds, CleanDevice;
    PciQuiet(p, Get(cfg, k));
  }

  lemma PciSilent(v: VmSpec, cfg: Config)
    requires hide *; WellFormed(v) && Readable(v)
    ensures Silent(PciTable(v.hw.pci, |v.hw.pci|), cfg) <==>
            forall i | 0 <= i < |v.hw.pci| :: PciHolds(v.hw.pci[i], Get(cfg, Dev(v.hw.pci[i].slot)))
  {
    hide PciTable, PciHolds, Propose, Get, WellFormed, KnownNic, CleanDevice, OneWord, CleanValue, Codec.ByteString;
    var pci, t := v.hw.pci, PciTable(v.hw.pci, |v.hw.pci|);
    DisksDiffer(v);
    forall i | 0 <= i < |pci|
      ensures Dev(pci[i].slot) in t && t[Dev(pci[i].slot)] == Entry(PciF(pci[i]), true)
      ensures Propose(t[Dev(pci[i].slot)].field, Dev(pci[i].slot), cfg).None? <==> PciHolds(pci[i], Get(cfg, Dev(pci[i].slot)))
    {
      assert pci[i] in pci;
      PciEntry(pci, |pci|, i);
      PciEntryQuiet(pci[i], Dev(pci[i].slot), cfg);
    }
    if forall i | 0 <= i < |pci| :: PciHolds(pci[i], Get(cfg, Dev(pci[i].slot))) {
      forall k | k in t ensures Propose(t[k].field, k, cfg).None? {
        PciSource(pci, |pci|, k);
        var i :| 0 <= i < |pci| && k == Dev(pci[i].slot);
      }
    }
  }

  predicate LastOf(ips: seq<IpConfig>, n: nat, i: nat)
    requires i < n <= |ips|
  {
    ips[i].ip != "" && forall j | i < j < n && ips[j].ip != "" :: Vm.IpKey(ips[j]) != Vm.IpKey(ips[i])
  }

  lemma {:induction false} AddressAt(ips: seq<IpConfig>, n: nat, i: nat)
    requires i < n <= |ips| && LastOf(ips, n, i)
    ensures var k := Vm.IpKey(ips[i]); k in IpTable(ips, n) && IpTable(ips, n)[k] == Entry(TextF(IpWire(ips[i])), false)
  {
    hide Vm.IpKey, IpWire;
    if i < n - 1 {
      AddressAt(ips, n - 1, i);
      assert ips[n - 1].ip != "" ==> Vm.IpKey(ips[n - 1]) != Vm.IpKey(ips[i]);
    }
  }

  lemma {:induction false} AddressSource(ips: seq<IpConfig>, n: nat, k: Key) returns (i: nat)
    requires n <= |ips| && k in IpTable(ips, n)
    ensures i < n && k == Vm.IpKey(ips[i]) && LastOf(ips, n, i)
  {
    hide Vm.IpKey, IpWire;
    if ips[n - 1].ip != "" && k == Vm.IpKey(ips[n - 1]) {
      i := n - 1;
    } else {
      i := AddressSource(ips, n - 1, k);
    }
  }

  /** The written address value carries the address and, when declared, the gateway. */
  lemma AddressReads(c: IpConfig)
    requires CleanValue(c.ip) && CleanValue(c.gateway)
    ensures FirstValue(Split(IpWire(c), ','), "ip") == c.ip && FirstValue(Split(IpWire(c), ','), "gw") == c.gateway
  {
    hide CutKey, CutValue, IndexOf, TrimSpace, Split;
    var ip, gw := "ip" + "=" + c.ip, "gw" + "=" + c.gateway;
    BindPair("ip", c.ip);
    BindPair("gw", c.gateway);
    CleanTokenTrims(ip);
    CleanTokenTrims(gw);
    assert "ip"[0] != "gw"[0];
    if c.gateway != "" {
      SplitJoin([ip, gw], ',');
      assert [ip, gw][1..] == [gw] && [gw][1..] == [];
      assert Join([ip, gw], ",") == ip + "," + gw;
      assert IpWire(c) == ip + "," + gw by { assert ",gw=" == "," + "gw="; }
      assert FirstValue([ip, gw], "gw") == FirstValue([gw], "gw");
    } else {
      SplitJoin([ip], ',');
      assert IpWire(c) == Join([ip], ",");
      assert [ip][1..] == [];
    }
  }

  lemma AddressesSilent(v: VmSpec, cfg: Config)
    ensures hide *; var ips := v.ci.ipConfigs;
            Silent(IpTable(ips, |ips|), cfg) <==>
            forall i | 0 <= i < |ips| && LastAddress(ips, i) :: Get(cfg, Vm.IpKey(ips[i])) == IpWire(ips[i])
  {
    hide IpTable, Vm.IpKey, IpWire, Get;
    var ips := v.ci.ipConfigs;
    var t := IpTable(ips, |ips|);
    forall i | 0 <= i < |ips| && LastAddress(ips, i)
      ensures Vm.IpKey(ips[i]) in t && t[Vm.IpKey(ips[i])] == Entry(TextF(IpWire(ips[i])), false)
    {
      AddressAt(ips, |ips|, i);
    }
    if forall i | 0 <= i < |ips| && LastAddress(ips, i) :: Get(cfg, Vm.IpKey(ips[i])) == IpWire(ips[i]) {
      forall k | k in t ensures Propose(t[k].field, k, cfg).None? {
        var i := AddressSource(ips, |ips|, k);
        assert LastAddress(ips, i);
      }
    }
  }

  // ----- the law -----

  /** Drift finds nothing exactly when the live config carries the manifest: each declared value is in
      effect as PVE reads it, volumes that differ in a way only a data-destroying write could mend
      aside, and a clone holds no identity of its template. */
  lemma NoDriftExactly(v: VmSpec, cfg: Config)
    requires WellFormed(v) && Readable(v)
    ensures Vm.Drift(v, cfg).None? <==> Carries(v, cfg)
  {
    hide OwnedTable, DriftParams, DriftStops, FixedTable, DiskTable, NicTable, PciTable, IpTable, Silent, WellFormed, Readable, DiskHolds,
         NicHolds, PciHolds, LastAddress, CoreHolds, HardwareHolds, MediaHold, IdentityHolds, OptionsHold, Get, DiskKey, NicKey, Vm.IpKey, IpWire, ClearKeys, NothingInherited;
    SilentIsEmpty(OwnedTable(v), cfg);
    TableSilent(v, cfg);
    FixedSilent(v, cfg);
    DisksSilent(v, cfg);
    NicsSilent(v, cfg);
    PciSilent(v, cfg);
    AddressesSilent(v, cfg);
    NothingToClearExactly(v, cfg);
  }

  lemma NothingToClearExactly(v: VmSpec, cfg: Config)
    ensures ClearKeys(v, cfg) == {} <==> NothingInherited(v, cfg)
  {
    hide OwnedTable, IdentityKeys, Present, IsCloneBacked;
    if ClearKeys(v, cfg) == {} && IsCloneBacked(v) {
      forall k | k in IdentityKeys(v) && Present(cfg, k) ensures k in OwnedTable(v) {
        assert k !in ClearKeys(v, cfg);
      }
    }
  }

  // ----- what needs a stopped guest -----

  /** Keys written to a running guest. */
  predicate LiveKey(k: Key) {
    || k in {Tags, Vga, Ciuser, Sshkeys, Cipassword, NameServer, SearchDomain, Onboot, Startup, Protection, Agent, Acpi, Tablet, Hotplug,
             Boot, Nestedvirt, Hidden}
    || (k.Dev? && HasPrefix(k.name, "ipconfig"))
  }

  lemma {:induction false} DisksStop(disks: seq<Disk>, n: nat)
    requires n <= |disks|
    ensures forall k | k in DiskTable(disks, n) :: DiskTable(disks, n)[k].stop
  {
    if n > 0 {
      DisksStop(disks, n - 1);
    }
  }

  lemma {:induction false} NicsStop(nics: seq<Nic>, n: nat)
    requires n <= |nics|
    ensures forall k | k in NicTable(nics, n) :: NicTable(nics, n)[k].stop
  {
    if n > 0 {
      NicsStop(nics, n - 1);
    }
  }

  lemma {:induction false} PciStop(pci: seq<Pci>, n: nat)
    requires n <= |pci|
    ensures forall k | k in PciTable(pci, n) :: PciTable(pci, n)[k].stop
  {
    if n > 0 {
      PciStop(pci, n - 1);
    }
  }

  lemma {:induction false} AddressesLive(ips: seq<IpConfig>, n: nat)
    requires n <= |ips|
    ensures forall k | k in IpTable(ips, n) :: !IpTable(ips, n)[k].stop
  {
    if n > 0 {
      AddressesLive(ips, n - 1);
    }
  }

  lemma FixedStop(v: VmSpec, k: Key)
    requires FixedEntry(v, k).Some?
    ensures FixedEntry(v, k).value.stop <==> !LiveKey(k)
  {
    hide Join, SshWire, MemoryMiB, ScsiController, AllTags, TpmVersion, IsCloneBacked, TrimSpace;
  }

  lemma StopFlag(v: VmSpec, k: Key)
    requires WellFormed(v) && k in OwnedTable(v)
    ensures OwnedTable(v)[k].stop <==> !LiveKey(k)
  {
    hide FixedEntry, DiskTable, NicTable, PciTable, IpTable, IsDiskSlot, IsNicSlot, IsPciSlot, WellFormed;
    DisksStop(v.disks, |v.disks|);
    NicsStop(v.nics, |v.nics|);
    PciStop(v.hw.pci, |v.hw.pci|);
    AddressesLive(v.ci.ipConfigs, |v.ci.ipConfigs|);
    Families(v, k);
    if k.Dev? {
      SlotFamilies(k.name);
    } else {
      FixedStop(v, k);
    }
  }

  /** An update asks for a stopped guest exactly when it writes more than tags, display, cloud-init
      data and options. */
  lemma StopExactly(v: VmSpec, cfg: Config)
    requires hide *; WellFormed(v) && Vm.Drift(v, cfg).Some?
    ensures Vm.Drift(v, cfg).value.stop <==> exists k | k in Vm.Drift(v, cfg).value.params :: !LiveKey(k)
  {
    hide OwnedTable, Propose, WellFormed, LiveKey, ClearKeys;
    var t, params := OwnedTable(v), DriftParams(OwnedTable(v), cfg);
    forall k | k in params ensures t[k].stop <==> !LiveKey(k) {
      StopFlag(v, k);
    }
    if DriftStops(t, cfg) {
      var k :| k in t && t[k].stop && Propose(t[k].field, k, cfg).Some?;
      assert k in params;
    }
    if k :| k in params && !LiveKey(k) {
      assert t[k].stop;
    }
  }
}
