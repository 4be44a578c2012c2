/** Updates in PVE's own words: what PVE may report for a value it was sent, and when an update so
    reported settles drift. */
module Reports {
  import opened Text
  import opened Quantity
  import opened Drive
  import opened Devices
  import opened LxcWire
  import opened LxcMounts
  import opened VmDrives
  import opened Owned
  import opened VmCarried
  import LxcCarried

  // ----- what PVE reports for what it was sent -----

  /** A cloud-init drive as PVE reports it: a volume of its own and a size token. */
  function CloudInitReport(id: int, storage: string, size: string): string {
    Render(storage, "vm-" + Itoa(id) + "-cloudinit", ["media" + "=" + "cdrom", "size" + "=" + size])
  }

  const MASK := "**********"

  /** A property string that still holds every option of `own`, in any order, among options of other
      names. */
  ghost predicate AddsTokens(own: seq<string>, held: string) {
    exists tokens :: held == Join(tokens, ",") && TokensAdded(own, tokens)
  }

  predicate TokensAdded(own: seq<string>, tokens: seq<string>) {
    && (forall t | t in tokens :: CleanToken(t)) && (forall t | t in own :: t in tokens)
    && forall t, u | t in own && u in tokens :: CutKey(t) == CutKey(u) ==> t == u
  }

  /** The size PVE reports for a cloud-init drive: a size in its own spelling, and the declared one if
      PVE can read that. */
  predicate SizeOf(declared: string, size: string) {
    CleanValue(size) && PveSizeBytes(size).Some? && (PveSizeBytes(declared).Some? ==> PveSizeBytes(size) == PveSizeBytes(declared))
  }

  /** The value held after `v` was written for the field over `before`, in PVE's words. A cloud-init
      drive comes back as a volume with its size; any other value as it was written or as PVE reports it:
      a volume allocated in an empty slot gets a name and a size token, an unpinned NIC an address, a TPM
      its storage and state, a container network a type and an address; name servers are separated by
      blanks, tags come in any order, a description gains a line break and a password is masked. */
  ghost predicate MayReport(id: int, f: Field, before: string, v: string, held: string) {
    || (held == v && !f.CloudInitF?)
    || match f
       case TagsF(_) => TagSet(held) == TagSet(v)
       case DescriptionF(_) => held == v + "\n"
       case NameserverF(_) => held == ReplaceChar(v, ',', ' ')
       case PasswordF(_) => held == MASK
       case NicF(n) => exists mac :: PinsFreely(n, mac) && held == NicString(n.(mac := mac))
       case CloudInitF(storage, declared, _) => exists size :: SizeOf(declared, size) && held == CloudInitReport(id, storage, size)
       case TpmF(version) => AddsTokens(TpmTokens(version), held)
       case NetF(n) => AddsTokens(NetWireTokens(n), held)
       case CdromF(_, _) => exists size :: CleanValue(size) && held == v + ",size=" + size
       case RootF(_, _) => IsNewSlot(before) && held == NormalizeDrive(id, v)
       case DiskF(_) => IsNewSlot(before) && held == NormalizeDrive(id, v)
       case EfiF(_) => IsNewSlot(before) && held == NormalizeDrive(id, v)
       case MountF(_) => IsNewSlot(before) && held == NormalizeDrive(id, v)
       case _ => false
  }

  function TpmTokens(version: string): seq<string> { ["endpoint" + "=" + "host", "version" + "=" + version] }

  /** PVE may give a device of a known model any address when the manifest pins none. */
  predicate PinsFreely(n: Nic, mac: string) { MacOf(n) == "" && KnownNic(n.(mac := mac)) }

  lemma AssignedMac(n: Nic, mac: string)
    requires PinsFreely(n, mac)
    ensures NicMatches(NicString(n.(mac := mac)), NicString(n))
  {
    hide NicString, ParseNic, Lower, TrimSpace, CleanValue;
    NothingPinned(n, mac);
    NicReads(n);
    NicReads(n.(mac := mac));
  }

  lemma NothingPinned(n: Nic, mac: string)
    requires PinsFreely(n, mac)
    ensures KnownNic(n) && ModelOf(n.(mac := mac)) == ModelOf(n)
  {
    hide TrimSpace;
    assert |Lower(TrimSpace(n.mac))| == |TrimSpace(n.mac)|;
  }

  lemma {:induction false} TrimsLineBreak(s: string)
    ensures TrimSpace(s + "\n") == TrimSpace(s)
    decreases |s|
  {
    var t := s + "\n";
    if s == "" {
      assert t[1..] == "";
    } else if IsSpace(s[0]) {
      assert t[1..] == s[1..] + "\n";
      TrimsLineBreak(s[1..]);
    } else {
      assert t[|t| - 1] == '\n' && t[..|t| - 1] == s;
    }
  }

  lemma BlanksAreBlanks(s: string)
    ensures NameserverEquals(ReplaceChar(s, ',', ' '), s)
  {
    hide Words;
    assert ReplaceChar(ReplaceChar(s, ',', ' '), ',', ' ') == ReplaceChar(s, ',', ' ');
  }

  lemma DiscReported(volid: string, media: string, size: string)
    requires CleanVolid(volid) && media in {"cdrom", "disk"} && CleanValue(size)
    ensures CdromMatches(volid + ",media=" + media + ",size=" + size, volid)
  {
    hide ParseCdrom, CleanVolid, CleanIso;
    VolidParts(volid);
    var storage, file :| volid == IsoVolid(storage, file) && CleanIso(storage, file);
    var tail := ",media=" + media + ",size=" + size;
    assert tail[|tail| - 1] == if size == "" then '=' else size[|size| - 1];
    assert volid + tail == volid + ",media=" + media + ",size=" + size;
    assert IsoVolid(storage, file) + "" == volid;
    ParseIso(storage, file, tail);
    ParseIso(storage, file, "");
  }

  lemma DriveReportReads(id: int, storage: string, size: string)
    requires StorageId(storage) && CleanValue(size)
    ensures SplitCloudInit(CloudInitReport(id, storage, size)) == Some((storage, size))
    ensures !IsNewSlot(CloudInitReport(id, storage, size))
  {
    hide CutKey, CutValue, IndexOf, TrimSpace, CleanToken, IsNewSlot, Itoa;
    var name, tokens := "vm-" + Itoa(id) + "-cloudinit", ["media" + "=" + "cdrom", "size" + "=" + size];
    BindPair("media", "cdrom");
    BindPair("size", size);
    NameIsToken(id);
    StorageClean(storage);
    ParseRender(storage, name, tokens);
    var s, rest := CloudInitReport(id, storage, size), Join([name] + tokens, ",");
    StorageIsLive(storage, rest);
    SplitPool(storage, rest);
    assert s == storage + ":" + rest && TrimSpace(s) == s;
    assert Split(rest, ',') == [name] + tokens;
    CleanTokenTrims(tokens[1]);
    assert ([name] + tokens)[2] == tokens[1];
    assert LastValue([name] + tokens, "size") == size;
    assert storage != "";
  }

  lemma NameIsToken(id: int)
    ensures CleanToken("vm-" + Itoa(id) + "-cloudinit") && Trimmed("vm-" + Itoa(id) + "-cloudinit")
  {
    hide Itoa;
    var n := Itoa(id);
    var s := "vm-" + n + "-cloudinit";
    assert s[0] == 'v' && s[|s| - 1] == 't';
    forall i | 0 <= i < |n| ensures n[i] != ',' {
      if i > 0 {
        assert n[i] == n[1..][i - 1];
      }
    }
  }

  // ----- volumes PVE allocated -----

  /** The report of an allocation written as pool, GiB number and options. */
  lemma AllocationReport(id: int, pool: string, g: string, opts: seq<string>)
    requires StorageId(pool) && CleanToken(g) && NumericGiB(g) && (g == "0" && opts != [] ==> !HasPrefix(opts[0], "import-from="))
    ensures NormalizeDrive(id, Render(pool, g, opts)) == Render(pool, VolumeOf(id), opts + ["size" + "=" + (g + "G")])
  {
    hide CleanToken, NumericGiB, VolumeOf, IndexOf, CleanPool, StorageId, Join, CommaAll, NormalizeDrive, HasPrefix;
    StartClean(pool);
    NoComma(g);
    NotAnImport(g, opts);
    NormalizePlain(id, pool, g, opts);
    JoinFirst(g, opts);
    var size := "size" + "=" + (g + "G");
    CommaSplit(opts, [size]);
    JoinFirst(VolumeOf(id), opts + [size]);
    JoinOne(size);
    assert pool + ":" + VolumeOf(id) + CommaAll(opts) + ",size=" + g + "G"
        == pool + ":" + (VolumeOf(id) + (CommaAll(opts) + ("," + size)));
  }

  lemma NotAnImport(g: string, opts: seq<string>)
    requires CleanToken(g) && NumericGiB(g) && (g == "0" && opts != [] ==> !HasPrefix(opts[0], "import-from="))
    ensures !HasPrefix(g + CommaAll(opts), "0,import-from=")
  {
    var s, p := g + CommaAll(opts), "0,import-from=";
    if p <= s {
      assert s[0] == p[0] && s[1] == p[1] && g[0] == s[0];
      if |g| == 1 {
        assert g == "0" && opts != [];
        assert CommaAll(opts)[1..] == Join(opts, ",");
        assert forall i | 0 <= i < 12 :: Join(opts, ",")[i] == "import-from="[i] by {
          forall i | 0 <= i < 12 ensures Join(opts, ",")[i] == "import-from="[i] {
            assert s[i + 2] == p[i + 2];
          }
        }
        FirstSpelled(opts);
      }
    }
  }

  /** A text that begins with a comma-free key comes from its first token. */
  lemma FirstSpelled(opts: seq<string>)
    requires opts != [] && |Join(opts, ",")| >= 12 && forall i | 0 <= i < 12 :: Join(opts, ",")[i] == "import-from="[i]
    ensures HasPrefix(opts[0], "import-from=")
  {
    var j := Join(opts, ",");
    assert |opts| > 1 ==> j[|opts[0]|] == ',';
    if |opts[0]| >= 12 {
      assert opts[0][..12] == "import-from=" by {
        assert forall i | 0 <= i < 12 :: opts[0][i] == j[i];
      }
    }
  }

  lemma GiBIsNumber(bytes: int)
    ensures CleanToken(GiBString(bytes)) && NumericGiB(GiBString(bytes)) && CleanValue(GiBString(bytes) + "G")
  {
    hide GiBString, NumericGiB, CleanToken, CleanValue;
    GiBChars(bytes);
  }

  lemma EfiReported(id: int, e: EfiDisk)
    requires CleanEfi(e)
    ensures EfiPropose(e, NormalizeDrive(id, EfiCreate(e))).None?
  {
    hide CleanToken, CleanValue, Lower, GiBString, DiskBytes, Parse, IsNewSlot, KeysWire, StorageId, TextToken, BoolToken, Join, CleanEfi,
         CleanPool, KeyOf, ParseToken, ParseTokens, ParseOption, Rest, Pool, Split, NumericGiB, VolumeOf, NormalizeDrive, PveSizeBytes;
    EfiValuesClean(e);
    StartClean(e.storage);
    var g := GiBString(DiskBytes(e.size));
    var opts := TextToken("efitype", Lower(e.template)) + BoolToken("pre-enrolled-keys", KeysWire(e.secureBoot));
    var size := "size" + "=" + (g + "G");
    GiBIsNumber(DiskBytes(e.size));
    EfiOptions(e);
    AllocationReport(id, e.storage, g, opts);
    var out := EMPTY_INFO.(pool := e.storage, volumeName := VolumeOf(id));
    VolumeIsName(id, EMPTY_INFO.(pool := e.storage));
    EfiTail(Lower(e.template), KeysWire(e.secureBoot), out);
    BindPair("size", g + "G");
    ParseRender(e.storage, VolumeOf(id), opts + [size]);
    StorageIsLive(e.storage, Join([VolumeOf(id)] + (opts + [size]), ","));
    ParseTokensConcat(opts, [size], out);
    SizeLast(g + "G", ParseTokens(opts, false, out));
    KeysMean(e.secureBoot);
  }

  lemma EfiOptions(e: EfiDisk)
    ensures var opts := TextToken("efitype", Lower(e.template)) + BoolToken("pre-enrolled-keys", KeysWire(e.secureBoot));
            opts != [] ==> !HasPrefix(opts[0], "import-from=")
  {
    hide Lower, KeysWire;
    var opts := TextToken("efitype", Lower(e.template)) + BoolToken("pre-enrolled-keys", KeysWire(e.secureBoot));
    if opts != [] {
      assert opts[0][0] == 'e' || opts[0][0] == 'p';
    }
  }

  lemma KeysMean(secureBoot: string)
    ensures KeysWire(secureBoot).Some? ==> !BoolDiffersFrom(KeysWire(secureBoot), KeysWire(secureBoot) == Some(true))
  {
  }

  /** A trailing size token changes the size only, readable or not. */
  lemma SizeLast(v: string, out: DiskInfo)
    requires CleanValue(v)
    ensures var r := ParseTokens(["size" + "=" + v], false, out);
            r.pool == out.pool && r.efitype == out.efitype && r.preEnrolled == out.preEnrolled
  {
    hide PveSizeBytes, TrimSpace, TokenKey, TokenValue;
    ParsePair("size", v);
    CleanTokenTrims("size" + "=" + v);
    assert ["size" + "=" + v][1..] == [];
  }

  lemma MountReported(id: int, m: Mount)
    requires CleanMount(m)
    ensures MountPropose(m, NormalizeDrive(id, MountCreateWire(m))).None?
  {
    hide CleanToken, CleanValue, GiBString, IsNewSlot, MountNeeds, OptionTokens, Join, Split, NumericGiB, VolumeOf, NormalizeDrive, CutKey, CleanMount,
         MountBlocked, StorageId, TextToken;
    var g, body := GiBString(m.bytes), TextToken("mp", m.mountPoint) + OptionTokens(Options(m));
    var size := "size" + "=" + (g + "G");
    LxcCarried.MountParts(m);
    GiBIsNumber(m.bytes);
    MountOptionsPlain(m);
    AllocationReport(id, m.storage, g, body);
    VolumeIsName(id, EMPTY_INFO);
    BindPair("size", g + "G");
    RenderedMountSettles(m, VolumeOf(id), [], m.mountPoint, [size]);
    assert [] + body + [size] == body + [size];
  }

  lemma MountOptionsPlain(m: Mount)
    ensures var opts := TextToken("mp", m.mountPoint) + OptionTokens(Options(m)); opts != [] ==> !HasPrefix(opts[0], "import-from=")
  {
    var o := Options(m);
    var opts := TextToken("mp", m.mountPoint) + OptionTokens(o);
    if opts != [] {
      assert opts[0][0] in {'m', 'r', 'b', 'a', 'q', 's'};
    }
  }

  lemma RootReported(id: int, pool: string, bytes: int)
    requires StorageId(pool)
    ensures !IsNewSlot(NormalizeDrive(id, Alloc(pool, bytes)))
  {
    hide CleanToken, CleanValue, GiBString, IsNewSlot, Join, NumericGiB, VolumeOf, NormalizeDrive, StorageId;
    var g := GiBString(bytes);
    GiBIsNumber(bytes);
    AllocationReport(id, pool, g, []);
    var size := "size" + "=" + (g + "G");
    assert [] + [size] == [size];
    VolumeIsName(id, EMPTY_INFO);
    BindPair("size", g + "G");
    StorageClean(pool);
    ParseRender(pool, VolumeOf(id), [size]);
    StorageIsLive(pool, Join([VolumeOf(id)] + [size], ","));
  }

  // ----- one field -----

  /** A cloud-init drive of a plain VM declared with a size PVE does not spell. */
  predicate Misspelled(f: Field) { f.CloudInitF? && !f.cloneBacked && PveSizeBytes(f.size).None? }

  /** What the reports of a field need of its values. */
  predicate Reportable(f: Field) {
    && (f.CloudInitF? ==> StorageId(f.storage) && CleanValue(f.size))
    && (f.TpmF? ==> f.version != "" && CleanValue(f.version))
  }

  /** The fixpoint law of one field: once PVE holds what drift wrote, in whatever words it reports it,
      nothing more is proposed exactly when the field is neither stuck nor a drive with a size PVE does
      not spell. */
  lemma FieldSettles(id: int, f: Field, k: Key, cfg: Config, after: Config)
    requires hide *; CleanField(f) && Reportable(f) && Propose(f, k, cfg).Some? && RewritesReportForm(f, Get(cfg, k))
    requires MayReport(id, f, Get(cfg, k), Propose(f, k, cfg).value, Get(after, k)) && Get(after, Nesting) == Get(cfg, Nesting)
    requires f.NestingF? ==> k == Features
    ensures Propose(f, k, after).None? <==> !Stuck(f, k, cfg) && !Misspelled(f)
  {
    hide Propose, Stuck, MayReport, RewritesReportForm, PveSizeBytes, CleanField;
    var v, held := Propose(f, k, cfg).value, Get(after, k);
    if held == v && !f.CloudInitF? {
      Owned.FieldSettles(f, k, cfg, after);
    } else {
      ReportSettles(id, f, k, cfg, after);
    }
  }

  /** The report in PVE's own words. */
  lemma ReportSettles(id: int, f: Field, k: Key, cfg: Config, after: Config)
    requires hide *; CleanField(f) && Reportable(f) && Propose(f, k, cfg).Some?
    requires MayReport(id, f, Get(cfg, k), Propose(f, k, cfg).value, Get(after, k))
    requires f.CloudInitF? || Get(after, k) != Propose(f, k, cfg).value
    ensures Propose(f, k, after).None? <==> !Stuck(f, k, cfg) && !Misspelled(f)
  {
    hide Parse, IsNewSlot, DriveString, NormalizeDrive, EfiCreate, EfiRewrite, EfiKeysDrift, MountCreateWire, MountRewrite, MountNeeds, MountBlocked,
         LiveDriveRewrite, OptionsDrift, DiskBlocked, Alloc, RootMatches, CleanDisk, CleanEfi, CleanMount, CleanVolid, StorageId, CleanValue,
         SplitCloudInit, PveSizeBytes, CloudInitReport, CloudInitWire, CdromMatches, NicMatches, NicString, TagSet, TrimSpace, ReplaceChar,
         NameserverEquals, PinsFreely, SameQuantity, EqualFold, TpmMatches, TpmWire, NetMatches, NetWireTokens, AddsTokens, CleanNet;
    var v, held := Propose(f, k, cfg).value, Get(after, k);
    match f
    case TagsF(_) => TagsReported(f, k, cfg, after);
    case DescriptionF(d) => TrimsLineBreak(d);
    case NameserverF(servers) => BlanksAreBlanks(servers);
    case NicF(n) =>
      var mac :| PinsFreely(n, mac) && held == NicString(n.(mac := mac));
      AssignedMac(n, mac);
    case CdromF(volid, media) =>
      var size :| CleanValue(size) && held == v + ",size=" + size;
      DiscReported(volid, media, size);
    case DiskF(d) => DiskReported(id, d);
    case EfiF(e) => AllocatedOnce(id, f, k, cfg, after);
    case MountF(m) => MountReported(id, m);
    case RootF(pool, bytes) => RootReported(id, pool, bytes);
    case CloudInitF(storage, size, cloneBacked) =>
      var token :| SizeOf(size, token) && held == CloudInitReport(id, storage, token);
      DriveReportReads(id, storage, token);
      CloudInitQuiet(storage, size, cloneBacked, k, after);
      SizeSettles(token, size);
    case TpmF(version) => TpmReported(version, held);
    case NetF(n) => NetReported(n, held);
    case _ =>
  }

  /** A size in PVE's spelling is the declared one exactly when PVE can read the declared one. */
  lemma SizeSettles(size: string, declared: string)
    requires SizeOf(declared, size)
    ensures size != "" && (SameQuantity(size, declared) <==> PveSizeBytes(declared).Some?)
  {
    hide EqualFold;
    if EqualFold(size, declared) {
      FoldedUpper(size, declared);
    }
  }

  lemma FoldedUpper(a: string, b: string)
    requires EqualFold(a, b)
    ensures Upper(a) == Upper(b)
  {
    forall i | 0 <= i < |a| ensures UpperChar(a[i]) == UpperChar(b[i]) {
      assert |Lower(a)| == |a| && |Lower(b)| == |b|;
      assert LowerChar(a[i]) == Lower(a)[i] == Lower(b)[i] == LowerChar(b[i]);
    }
  }

  // ----- options PVE adds -----

  lemma SplitAdded(own: seq<string>, tokens: seq<string>)
    requires TokensAdded(own, tokens) && own != []
    ensures Split(Join(tokens, ","), ',') == tokens
  {
    hide CutKey;
    assert own[0] in tokens;
    assert forall t | t in tokens :: CleanToken(t);
    SplitJoin(tokens, ',');
  }

  /** The first option of a name is the only one when all of that name are alike. */
  lemma {:induction false} FirstOfName(tokens: seq<string>, token: string, key: string)
    requires token in tokens && CutKey(token) == Some(key) && forall t | t in tokens :: CleanToken(t)
    requires forall t | t in tokens && CutKey(t) == Some(key) :: t == token
    ensures FirstValue(tokens, key) == CutValue(token)
  {
    hide CutKey, CutValue, CleanToken;
    assert tokens[0] in tokens;
    CleanTokenTrims(tokens[0]);
    if CutKey(tokens[0]) != Some(key) {
      assert token in tokens[1..];
      FirstOfName(tokens[1..], token, key);
    }
  }

  lemma TpmReported(version: string, held: string)
    requires version != "" && CleanValue(version) && AddsTokens(TpmTokens(version), held)
    ensures TpmMatches(held, TpmWire(version))
  {
    hide CutKey, CutValue, CleanToken, CleanValue, Split, FirstValue;
    var own, token := TpmTokens(version), "version" + "=" + version;
    var tokens :| held == Join(tokens, ",") && TokensAdded(own, tokens);
    BindPair("version", version);
    assert own[1] == token && token in own;
    SplitAdded(own, tokens);
    FirstOfName(tokens, token, "version");
    NotBlank(tokens, held);
    TpmQuiet(version, held);
  }

  lemma NotBlank(tokens: seq<string>, held: string)
    requires held == Join(tokens, ",") && tokens != [] && forall t | t in tokens :: CleanToken(t)
    ensures held != ""
  {
    assert tokens[0] in tokens;
  }

  /** The parsed network shows an option's value. */
  predicate Shows(k: NetKey, v: string, n: Net) { NetOption(k, v, n) == n }

  lemma OtherShows(k: NetKey, v: string, n: Net, k': NetKey, v': string)
    requires Shows(k, v, n) && k' != k
    ensures Shows(k, v, NetOption(k', v', n))
  {
  }

  lemma SetShows(k: NetKey, v: string, n: Net)
    ensures Shows(k, v, NetOption(k, v, n))
  {
    LowerIdempotent(v);
  }

  lemma {:induction false} OptionShows(tokens: seq<string>, token: string, key: string, out: Net)
    requires NetKeyOf(key) != OtherKey && CutKey(token) == Some(key) && (forall t | t in tokens :: CleanToken(t))
    requires token in tokens || Shows(NetKeyOf(key), CutValue(token), out)
    requires forall t | t in tokens && CutKey(t) == Some(key) :: t == token
    ensures Shows(NetKeyOf(key), CutValue(token), NetTokens(tokens, out))
  {
    hide CutKey, CutValue, CleanToken, NetKeyOf, NetOption, Shows;
    if tokens != [] {
      var t := tokens[0];
      assert t in tokens;
      CleanTokenTrims(t);
      var next := NetToken(t, out);
      if t == token {
        SetShows(NetKeyOf(key), CutValue(token), out);
      } else {
        if CutKey(t).Some? && token !in tokens[1..] {
          KeysDiffer(key, CutKey(t).value);
          OtherShows(NetKeyOf(key), CutValue(token), out, NetKeyOf(CutKey(t).value), CutValue(t));
        }
      }
      OptionShows(tokens[1..], token, key, next);
    }
  }

  lemma KeysDiffer(a: string, b: string)
    requires a != b && NetKeyOf(a) != OtherKey
    ensures NetKeyOf(a) != NetKeyOf(b)
  {
  }

  /** One declared option of a network, in the report. */
  lemma OwnShows(n: Net, tokens: seq<string>, key: string, v: string)
    requires TokensAdded(NetWireTokens(n), tokens) && key + "=" + v in NetWireTokens(n)
    requires CleanKey(key) && CleanValue(v) && NetKeyOf(key) != OtherKey
    ensures Shows(NetKeyOf(key), v, NetTokens(tokens, NO_NET))
  {
    hide CutKey, CutValue, CleanToken, NetKeyOf, NetWireTokens, CleanValue, Shows;
    BindPair(key, v);
    OptionShows(tokens, key + "=" + v, key, NO_NET);
  }

  lemma NetReported(n: Net, held: string)
    requires CleanNet(n) && AddsTokens(NetWireTokens(n), held)
    ensures NetMatches(held, n)
  {
    hide CutKey, CutValue, CleanToken, CleanValue, Split, NetWireTokens, NetTokens, NetKeyOf, TokensAdded, Lower, TrimSpace, Itoa, Atoi, Shows, Interface;
    var own := NetWireTokens(n);
    var tokens :| held == Join(tokens, ",") && TokensAdded(own, tokens);
    NameFirst(n);
    SplitAdded(own, tokens);
    OwnOptions(n, tokens);
  }

  lemma NameFirst(n: Net)
    ensures NetWireTokens(n) != [] && "name" + "=" + Interface(n) in NetWireTokens(n)
  {
    hide Interface, TextToken, NumberToken;
    assert NetWireTokens(n)[0] == "name" + "=" + Interface(n);
  }

  /** The options a network declares are among its tokens. */
  lemma DeclaredTokens(n: Net)
    ensures var own := NetWireTokens(n);
            && (n.bridge != "" ==> "bridge" + "=" + n.bridge in own) && (n.tag > 0 ==> "tag" + "=" + Itoa(n.tag) in own)
            && (Lower(TrimSpace(n.hwaddr)) != "" ==> "hwaddr" + "=" + Lower(TrimSpace(n.hwaddr)) in own)
            && (n.rate > 0 ==> "rate" + "=" + Itoa(n.rate) in own) && (n.firewall ==> "firewall" + "=" + "1" in own)
            && (TrimSpace(n.ip) != "" ==> "ip" + "=" + TrimSpace(n.ip) in own) && (TrimSpace(n.gw) != "" ==> "gw" + "=" + TrimSpace(n.gw) in own)
  {
    hide Interface, Lower, TrimSpace, Itoa;
  }

  lemma OwnOptions(n: Net, tokens: seq<string>)
    requires CleanNet(n) && TokensAdded(NetWireTokens(n), tokens)
    ensures NetSatisfies(NetTokens(tokens, NO_NET), n)
  {
    hide CleanValue, NetWireTokens, NetTokens, NetKeyOf, TokensAdded, Lower, TrimSpace, Itoa, Atoi, Interface;
    var hw := Lower(TrimSpace(n.hwaddr));
    NameFirst(n);
    DeclaredTokens(n);
    NetKeys();
    InterfaceOwned(n);
    LowerClean(TrimSpace(n.hwaddr));
    LowerIdempotent(TrimSpace(n.hwaddr));
    OwnShows(n, tokens, "name", Interface(n));
    if n.bridge != "" { OwnShows(n, tokens, "bridge", n.bridge); }
    if hw != "" { OwnShows(n, tokens, "hwaddr", hw); }
    AddressesShow(n, tokens);
    NumbersShow(n, tokens);
  }

  lemma AddressesShow(n: Net, tokens: seq<string>)
    requires CleanNet(n) && TokensAdded(NetWireTokens(n), tokens)
    ensures var got := NetTokens(tokens, NO_NET);
            (TrimSpace(n.ip) != "" ==> got.ip == TrimSpace(n.ip)) && (TrimSpace(n.gw) != "" ==> got.gw == TrimSpace(n.gw))
  {
    hide CleanValue, NetWireTokens, NetTokens, NetKeyOf, TokensAdded, Lower, TrimSpace, Itoa, Atoi, Interface;
    NetKeys();
    DeclaredTokens(n);
    if TrimSpace(n.ip) != "" { OwnShows(n, tokens, "ip", TrimSpace(n.ip)); }
    if TrimSpace(n.gw) != "" { OwnShows(n, tokens, "gw", TrimSpace(n.gw)); }
  }

  lemma NumbersShow(n: Net, tokens: seq<string>)
    requires TokensAdded(NetWireTokens(n), tokens)
    ensures var got := NetTokens(tokens, NO_NET);
            (n.tag > 0 ==> got.tag == n.tag) && (n.rate > 0 ==> got.rate == n.rate) && (n.firewall ==> got.firewall)
  {
    hide CleanValue, NetWireTokens, NetTokens, NetKeyOf, TokensAdded, Lower, TrimSpace, Itoa, Atoi;
    NetKeys();
    DeclaredTokens(n);
    ItoaClean(n.tag);
    ItoaClean(n.rate);
    AtoiItoa(n.tag);
    AtoiItoa(n.rate);
    if n.tag > 0 { OwnShows(n, tokens, "tag", Itoa(n.tag)); }
    if n.rate > 0 { OwnShows(n, tokens, "rate", Itoa(n.rate)); }
    if n.firewall { FirewallShows(n, tokens); }
  }

  lemma FirewallShows(n: Net, tokens: seq<string>)
    requires TokensAdded(NetWireTokens(n), tokens) && "firewall" + "=" + "1" in NetWireTokens(n)
    ensures NetTokens(tokens, NO_NET).firewall
  {
    hide NetWireTokens, NetTokens, TokensAdded;
    OwnShows(n, tokens, "firewall", "1");
  }

  lemma DiskReported(id: int, d: Disk)
    requires CleanDisk(d)
    ensures DiskPropose(d, NormalizeDrive(id, DriveString(d))).None?
  {
    hide DriveString, NormalizeDrive, DiskPropose;
    CreatedDiskSettles(id, d, NormalizeDrive(id, DriveString(d)));
  }

  lemma TagsReported(f: Field, k: Key, cfg: Config, after: Config)
    requires hide *; f.TagsF? && CleanField(f) && Propose(f, k, cfg).Some? && TagSet(Get(after, k)) == TagSet(Propose(f, k, cfg).value)
    ensures Propose(f, k, after).None?
  {
    hide TagSet, Join, CleanTag;
    CleanTagSet(f.tags);
  }

  /** An EFI volume is reported anew only when it was created, and then it is not pinned. */
  lemma AllocatedOnce(id: int, f: Field, k: Key, cfg: Config, after: Config)
    requires hide *; f.EfiF? && CleanField(f) && Propose(f, k, cfg).Some? && Get(after, k) != Propose(f, k, cfg).value
    requires MayReport(id, f, Get(cfg, k), Propose(f, k, cfg).value, Get(after, k))
    ensures Propose(f, k, after).None? <==> !Stuck(f, k, cfg)
  {
    hide NormalizeDrive, EfiCreate, EfiRewrite, CleanEfi, Parse, IsNewSlot;
    EfiReported(id, f.efi);
  }

  // ----- a whole table -----

  /** The config after PVE took an update: written keys hold the value or its report, deleted keys are
      gone, everything else is as before. */
  ghost predicate Took(id: int, t: Table, cfg: Config, deletes: set<Key>, after: Config) {
    hide Propose, MayReport;
    && (forall k | k in DriftParams(t, cfg) :: MayReport(id, t[k].field, Get(cfg, k), DriftParams(t, cfg)[k], Get(after, k)))
    && (forall k: Key | k !in DriftParams(t, cfg) :: Get(after, k) == Get(cfg - deletes, k))
  }

  predicate ReportableTable(t: Table) { forall k | k in t :: Reportable(t[k].field) }

  /** Drift writes a drive whose size PVE does not spell. */
  predicate WritesMisspelled(t: Table, cfg: Config) {
    hide *;
    exists k | k in t :: Propose(t[k].field, k, cfg).Some? && Misspelled(t[k].field)
  }

  /** The fixpoint law of a table: after one update, as PVE reports it, nothing drifts exactly when no
      drifted field was stuck or a drive with a size PVE does not spell. */
  lemma DriftSettles(id: int, t: Table, cfg: Config, deletes: set<Key>, after: Config)
    requires CleanTable(t) && ReportableTable(t) && RewritesReported(t, cfg)
    requires deletes !! t.Keys && Nesting !in deletes && Took(id, t, cfg, deletes, after)
    ensures DriftParams(t, cfg).Keys !! deletes
    ensures DriftParams(t, after) == map[] <==> !StuckTable(t, cfg) && !WritesMisspelled(t, cfg)
  {
    hide Propose, Stuck, CleanField, RewritesReportForm, MayReport, Misspelled, Reportable;
    assert Get(after, Nesting) == Get(cfg, Nesting);
    forall k | k in t
      ensures Propose(t[k].field, k, after).Some? <==>
              Propose(t[k].field, k, cfg).Some? && (Stuck(t[k].field, k, cfg) || Misspelled(t[k].field))
    {
      var f := t[k].field;
      if Propose(f, k, cfg).Some? {
        assert k in DriftParams(t, cfg);
        FieldSettles(id, f, k, cfg, after);
      } else {
        assert Get(after, k) == Get(cfg, k);
        ProposeReads(f, k, cfg, after);
      }
    }
    SilentIsEmpty(t, after);
    if StuckTable(t, cfg) {
      var k :| k in t && Propose(t[k].field, k, cfg).Some? && Stuck(t[k].field, k, cfg);
      assert !Silent(t, after);
    }
    if WritesMisspelled(t, cfg) {
      var k :| k in t && Propose(t[k].field, k, cfg).Some? && Misspelled(t[k].field);
      assert !Silent(t, after);
    }
  }
}
