/** Which updates PVE takes, and the exact conditions under which one update settles a guest. */
module Updates {
  import opened Text
  import opened Quantity
  import opened Drive
  import opened Devices
  import opened LxcWire
  import opened LxcMounts
  import opened VmDrives
  import opened Owned
  import opened World
  import opened VmCarried
  import opened Reports
  import LxcCarried
  import Vm
  import Lxc

  // ----- which updates PVE takes -----

  /** A report in one word, with no colon beyond the pool's and a volume name that does not read as a
      request for a new volume. */
  predicate Allocated(cur: string) {
    var i := IndexOf(cur, ':');
    && (forall c | c in cur :: !IsSpace(c)) && ReportForm(cur) && ',' !in cur[..i] && (i < |cur| ==> ':' !in cur[i + 1..])
    && !HasPrefix(Parse(cur).volumeName, "cloudinit") && !AllDigits(Parse(cur).volumeName)
  }

  predicate IsDrive(f: Field) { f.DiskF? || f.EfiF? || f.MountF? }

  /** Live drives to rewrite are volumes PVE has allocated. */
  predicate RewritesAllocated(t: Table, cfg: Config) {
    hide *;
    forall k | k in t && Propose(t[k].field, k, cfg).Some? && IsDrive(t[k].field) :: IsNewSlot(Get(cfg, k)) || Allocated(Get(cfg, k))
  }

  lemma AllocatedIsReported(t: Table, cfg: Config)
    requires RewritesAllocated(t, cfg)
    ensures RewritesReported(t, cfg)
  {
    hide Propose, IsNewSlot, Parse;
  }

  /** Apart from volumes, no value of the manifest reads as a request for a new volume. */
  predicate PlainField(f: Field) {
    match f
    case DiskF(_) => true
    case CloudInitF(_, _, _) => true
    case RootF(_, _) => true
    case EfiF(e) => ':' !in e.template
    case MountF(m) => ':' !in m.mountPoint && ':' !in Options(m).mountoptions
    case _ => !IsCreateForm(CreateValue(f))
  }

  predicate PlainTable(t: Table) { forall k | k in t :: PlainField(t[k].field) }

  predicate NoColons(i: DiskInfo) {
    && ':' !in i.volumeName && ':' !in i.sizeToken && ':' !in i.discard && ':' !in i.aio && ':' !in i.efitype
    && forall t | t in i.rawExtra :: ':' !in t
  }

  lemma LowerColon(s: string)
    requires ':' !in s
    ensures ':' !in Lower(s)
  {
    forall i | 0 <= i < |s| ensures Lower(s)[i] != ':' {
      assert s[i] in s;
    }
  }

  lemma TokenNoColon(token: string, first: bool, out: DiskInfo)
    requires ':' !in token && NoColons(out)
    ensures NoColons(ParseToken(token, first, out))
  {
    hide PveSizeBytes, IsDecimal, IsPositive, DecimalTimes, Lower;
    var t := TrimSpace(token);
    var v := TokenValue(t);
    assert forall c | c in v :: c in t;
    LowerColon(v);
  }

  lemma {:induction false} TokensNoColon(tokens: seq<string>, first: bool, out: DiskInfo)
    requires (forall t | t in tokens :: ':' !in t) && NoColons(out)
    ensures NoColons(ParseTokens(tokens, first, out))
  {
    hide ParseToken, NoColons;
    if tokens != [] {
      TokenNoColon(tokens[0], first, out);
      TokensNoColon(tokens[1..], false, ParseToken(tokens[0], first, out));
    }
  }

  lemma {:induction false} SplitChars(s: string, sep: char, c: char)
    requires c !in s
    ensures forall p | p in Split(s, sep) :: c !in p
    decreases |s|
  {
    var i := IndexOf(s, sep);
    if i < |s| {
      SplitChars(s[i + 1..], sep, c);
    }
  }

  lemma AllocatedPieces(cur: string)
    requires Allocated(cur)
    ensures NoColons(Parse(cur))
  {
    hide ParseTokens, NoColons;
    var i := IndexOf(cur, ':');
    if 0 < i < |cur| {
      SplitChars(cur[i + 1..], ',', ':');
      NothingHasColons(cur[..i]);
      TokensNoColon(Split(cur[i + 1..], ','), true, EMPTY_INFO.(pool := cur[..i]));
    }
  }

  lemma NothingHasColons(pool: string)
    ensures NoColons(EMPTY_INFO.(pool := pool))
  {
  }

  lemma {:induction false} JoinNoColon(parts: seq<string>)
    requires forall p | p in parts :: ':' !in p
    ensures ':' !in Join(parts, ",")
  {
    if |parts| > 1 {
      JoinNoColon(parts[1..]);
      assert parts[0] in parts;
    } else if |parts| == 1 {
      assert parts[0] in parts;
    }
  }

  /** A rendered live volume does not read as a request for a new one. */
  lemma RenderedIsLive(pool: string, volume: string, tokens: seq<string>)
    requires CleanPool(pool) && CleanToken(volume) && ':' !in volume && forall t | t in tokens :: ':' !in t
    requires !HasPrefix(volume, "cloudinit") && !AllDigits(volume)
    ensures !IsCreateForm(Render(pool, volume, tokens))
  {
    hide CleanPool, CleanToken, Join, AllDigits, CommaAll;
    var rest := Join([volume] + tokens, ",");
    SplitPool(pool, rest);
    JoinNoColon([volume] + tokens);
    JoinFirst(volume, tokens);
    NoComma(volume);
    FirstToken(volume, tokens);
    CommaHead(tokens);
    VolumeFirst(volume, rest, CommaAll(tokens));
    NeverSpelled(rest);
  }

  lemma VolumeFirst(volume: string, rest: string, tail: string)
    requires rest == volume + tail && (tail == "" || tail[0] == ',') && !HasPrefix(volume, "cloudinit")
    ensures rest[..|volume|] == volume && !HasPrefix(rest, "cloudinit")
  {
    if |volume| >= 9 {
      assert volume[..9] == rest[..9];
    } else if |rest| > |volume| {
      assert rest[|volume|] == ',';
    }
  }

  lemma NeverSpelled(rest: string)
    requires ':' !in rest
    ensures forall j | 0 <= j < |rest| :: !HasPrefix(rest[j..], ":cloudinit")
  {
    forall j | 0 <= j < |rest| ensures !(":cloudinit" <= rest[j..]) {
      assert rest[j..][0] in rest;
    }
  }

  lemma AllocatedTrims(cur: string)
    requires Allocated(cur)
    ensures TrimSpace(cur) == cur && 0 < IndexOf(cur, ':') < |cur| && Parse(cur).pool == cur[..IndexOf(cur, ':')]
    ensures Parse(cur).volumeName != ""
  {
    hide ParseTokens;
    assert Trimmed(cur) by {
      if cur != "" {
        assert cur[0] in cur && cur[|cur| - 1] in cur;
      }
    }
    var i := IndexOf(cur, ':');
    if 0 < i < |cur| {
      LxcCarried.ParseKeepsPool(Split(cur[i + 1..], ','), EMPTY_INFO.(pool := cur[..i]));
    }
  }

  lemma PairHasNoColon(k: string, v: string)
    requires ':' !in k && ':' !in v
    ensures forall t | t in TextToken(k, v) :: ':' !in t
    ensures forall b, t | t in BoolToken(k, b) :: ':' !in t
  {
  }

  lemma LiveParts(cur: string)
    requires Allocated(cur)
    ensures var c := Parse(cur);
            && CleanPool(c.pool) && CleanToken(c.volumeName) && NoColons(c) && !HasPrefix(c.volumeName, "cloudinit") && !AllDigits(c.volumeName)
            && forall t | t in SizeToken(c) :: ':' !in t
  {
    hide Parse, CleanPool, CleanOptions, VolumeName, ReportForm;
    ParseClean(cur);
    AllocatedPieces(cur);
    AllocatedTrims(cur);
    NamedReport(cur);
    VolumeNameIsClean(Parse(cur));
  }

  lemma NamedReport(cur: string)
    requires Allocated(cur)
    ensures Parse(cur).pool != "" && Parse(cur).volumeName != ""
  {
    hide Parse;
  }

  lemma RewrittenDiskIsLive(d: Disk, cur: string)
    requires CleanDisk(d) && Allocated(cur)
    ensures !IsCreateForm(LiveDriveRewrite(Parse(cur), Parse(DriveString(d))))
  {
    hide Parse, DriveString, IsCreateForm, Allocated, CleanPool, CleanToken, AllDigits, HasPrefix, TextToken, BoolToken, SizeToken, DiskBytes, IsNewSlot;
    var c, w := Parse(cur), Parse(DriveString(d));
    LiveParts(cur);
    ParseDrive(d);
    PairHasNoColon("discard", Or(w.discard, c.discard));
    PairHasNoColon("ssd", "");
    PairHasNoColon("aio", Or(w.aio, c.aio));
    RenderedIsLive(c.pool, c.volumeName, RewriteTokens(c, w));
  }

  lemma RewrittenEfiIsLive(e: EfiDisk, cur: string)
    requires ':' !in e.template && Allocated(cur)
    ensures !IsCreateForm(EfiRewrite(e, Parse(cur)))
  {
    hide Parse, IsCreateForm, Allocated, CleanPool, CleanToken, AllDigits, HasPrefix, TextToken, BoolToken, SizeToken, KeysWire, Lower;
    var c := Parse(cur);
    LiveParts(cur);
    LowerColon(e.template);
    PairHasNoColon("efitype", Or(c.efitype, Lower(e.template)));
    PairHasNoColon("pre-enrolled-keys", "");
    RenderedIsLive(c.pool, c.volumeName, EfiRewriteTokens(e, c));
  }

  lemma {:induction false} IndexPrefix(a: string, b: string, c: char)
    requires c !in a
    ensures IndexOf(a + b, c) == |a| + IndexOf(b, c)
  {
    if a == "" {
      assert a + b == b;
    } else {
      assert (a + b)[1..] == a[1..] + b && (a + b)[0] == a[0];
      IndexPrefix(a[1..], b, c);
    }
  }

  lemma SplitPrefix(a: string, b: string)
    requires ',' !in a
    ensures Split(a + b, ',') == [a + Split(b, ',')[0]] + Split(b, ',')[1..]
  {
    hide IndexOf;
    IndexPrefix(a, b, ',');
    var s, j := a + b, IndexOf(b, ',');
    assert s[..|a| + j] == a + b[..j];
    if j < |b| {
      assert s[|a| + j + 1..] == b[j + 1..];
    } else {
      assert b[..j] == b;
      assert s[..|a| + j] == s;
    }
  }

  /** The comma-separated pieces of an allocated volume: pool and volume first, then colon-free ones. */
  lemma Pieces(cur: string)
    requires Allocated(cur)
    ensures var rest := Split(Rest(cur), ',');
            Split(cur, ',') == [Parse(cur).pool + ":" + rest[0]] + rest[1..]
            && (forall t | t in rest :: ':' !in t) && CleanToken(rest[0])
  {
    hide ParseTokens, CleanToken, ReportForm, HasPrefix, AllDigits, Split, Parse;
    AllocatedTrims(cur);
    var i := IndexOf(cur, ':');
    var pool, tail := cur[..i], cur[i + 1..];
    assert cur == (pool + ":") + tail;
    SplitPrefix(pool + ":", tail);
    SplitChars(tail, ',', ':');
    FirstPieceClean(cur);
  }

  lemma FirstPieceClean(cur: string)
    requires Allocated(cur)
    ensures CleanToken(Split(Rest(cur), ',')[0])
  {
    hide HasPrefix, AllDigits;
    AllocatedTrims(cur);
    var i := IndexOf(cur, ':');
    var t := Split(cur[i + 1..], ',')[0];
    assert forall c | c in t :: c in cur[i + 1..];
    FirstIsVolume(cur);
    if t != "" {
      assert t[0] in t && t[|t| - 1] in t;
      assert t[0] in cur && t[|t| - 1] in cur;
    }
  }

  /** Only the first token names the volume, so it is not empty. */
  lemma FirstIsVolume(cur: string)
    requires Allocated(cur)
    ensures Split(Rest(cur), ',')[0] != ""
  {
    hide HasPrefix, AllDigits, ParseToken;
    AllocatedTrims(cur);
    var tokens := Split(Rest(cur), ',');
    if tokens[0] == "" {
      BlankToken(EMPTY_INFO.(pool := Parse(cur).pool));
      NoLaterName(tokens[1..], EMPTY_INFO.(pool := Parse(cur).pool));
    }
  }

  lemma BlankToken(out: DiskInfo)
    ensures ParseToken("", true, out) == out
  {
  }

  lemma {:induction false} NoLaterName(tokens: seq<string>, out: DiskInfo)
    ensures ParseTokens(tokens, false, out).volumeName == out.volumeName
  {
    if tokens != [] {
      NoLaterName(tokens[1..], ParseToken(tokens[0], false, out));
      NotAName(tokens[0], out);
    }
  }

  lemma NotAName(token: string, out: DiskInfo)
    ensures ParseToken(token, false, out).volumeName == out.volumeName
  {
  }

  lemma {:induction false} RawTextNoColon(tokens: seq<string>, key: string)
    requires forall t | t in tokens :: ':' !in t || CutKey(TrimSpace(t)) != Some(key)
    ensures ':' !in RawText(tokens, key)
  {
    if tokens != [] {
      var t := TrimSpace(tokens[0]);
      RawTextNoColon(tokens[1..], key);
      if CutKey(t) == Some(key) {
        assert ':' !in tokens[0];
        assert forall c | c in CutValue(t) :: c in t;
      }
    }
  }

  lemma {:induction false} CarriedNoColon(tokens: seq<string>)
    requires forall t | t in tokens :: ':' !in t
    ensures forall t | t in Carried(tokens) :: ':' !in t
  {
    if tokens != [] {
      CarriedNoColon(tokens[1..]);
    }
  }

  lemma RewrittenMountIsLive(m: Mount, cur: string)
    requires CleanMount(m) && PlainField(MountF(m)) && Allocated(cur) && Parse(cur).pool == m.storage
    ensures !IsCreateForm(MountRewrite(cur, m))
  {
    hide Parse, IsCreateForm, Allocated, CleanPool, CleanToken, AllDigits, HasPrefix, TextToken, BoolToken, SizeToken, CutKey, RawText, Carried, Split,
         CleanMount, TrimSpace;
    var c, tokens, o := Parse(cur), Split(cur, ','), Options(m);
    LiveParts(cur);
    Pieces(cur);
    LxcCarried.MountParts(m);
    var rest := Split(Rest(cur), ',');
    VolumeTokenKey(m.storage, rest[0]);
    assert tokens[1..] == rest[1..] && tokens[0] == m.storage + ":" + rest[0];
    RawTextNoColon(tokens, "mp");
    CarriedNoColon(tokens[1..]);
    PairHasNoColon("mp", Or(m.mountPoint, RawText(tokens, "mp")));
    PairHasNoColon("mountoptions", o.mountoptions);
    PairHasNoColon("ro", "");
    PairHasNoColon("backup", "");
    PairHasNoColon("acl", "");
    PairHasNoColon("quota", "");
    PairHasNoColon("shared", "");
    RenderedIsLive(c.pool, c.volumeName, SizeToken(c) + MountTokens(tokens, m) + Carried(tokens[1..]));
  }

  /** The one write PVE never takes: a cloud-init drive over a volume that is already there. */
  predicate Refuses(f: Field, k: Key, cfg: Config) {
    f.CloudInitF? && Propose(f, k, cfg).Some? && !IsNewSlot(Get(cfg, k))
  }

  lemma WireIsCreateForm(storage: string, size: string)
    requires StorageId(storage)
    ensures IsCreateForm(CloudInitWire(storage, size))
  {
    StorageClean(storage);
    var rest := "cloudinit,size=" + size;
    assert CloudInitWire(storage, size) == storage + ":" + rest;
    SplitPool(storage, rest);
    assert rest[..9] == "cloudinit";
  }

  /** What drift writes over an occupied slot reads as a new volume only for a cloud-init drive. */
  lemma WriteForm(f: Field, k: Key, cfg: Config)
    requires hide *; CleanField(f) && Reportable(f) && PlainField(f) && Propose(f, k, cfg).Some? && !IsNewSlot(Get(cfg, k))
    requires IsDrive(f) ==> Allocated(Get(cfg, k))
    ensures IsCreateForm(Propose(f, k, cfg).value) <==> f.CloudInitF?
  {
    hide Parse, IsNewSlot, DriveString, EfiCreate, EfiRewrite, EfiTypeDrift, EfiKeysDrift, MountCreateWire, MountRewrite, MountNeeds, LiveDriveRewrite,
         OptionsDrift, DiskBlocked, IsBind, CleanDisk, CleanEfi, CleanMount, CleanVolid, StorageId, CleanValue, Allocated, IsCreateForm, CloudInitWire,
         CloudInitMatches, Get;
    var cur := Get(cfg, k);
    match f
    case DiskF(d) => RewrittenDiskIsLive(d, cur);
    case EfiF(e) => RewrittenEfiIsLive(e, cur);
    case MountF(m) =>
      MountPoolAgrees(m, cur);
      RewrittenMountIsLive(m, cur);
    case CloudInitF(storage, size, _) => WireIsCreateForm(storage, size);
    case _ => ProposesCreateValue(f, k, cfg);
  }

  lemma MountPoolAgrees(m: Mount, cur: string)
    requires CleanMount(m) && !IsNewSlot(cur) && MountPropose(m, cur).Some?
    ensures Parse(cur).pool == m.storage
  {
    hide Parse, IsNewSlot, IsBind, MountNeeds, MountCreateWire, CleanMount;
    CreatePool(m);
  }

  predicate RefusedTable(t: Table, cfg: Config) { hide *; exists k | k in t :: Refuses(t[k].field, k, cfg) }

  /** PVE takes the whole update exactly when it writes no cloud-init drive over a volume. */
  lemma AcceptsExactly(t: Table, cfg: Config, deletes: set<Key>)
    requires CleanTable(t) && ReportableTable(t) && PlainTable(t) && RewritesAllocated(t, cfg) && deletes !! t.Keys
    ensures Accepts(cfg, DriftParams(t, cfg), deletes) <==> !RefusedTable(t, cfg)
  {
    hide Propose, CleanField, Reportable, PlainField, IsCreateForm, IsNewSlot, Allocated;
    var sets := DriftParams(t, cfg);
    forall k | k in sets
      ensures IsCreateForm(sets[k]) && !IsNewSlot(Get(cfg - deletes, k)) <==> Refuses(t[k].field, k, cfg)
    {
      assert Get(cfg - deletes, k) == Get(cfg, k);
      if !IsNewSlot(Get(cfg, k)) {
        WriteForm(t[k].field, k, cfg);
      }
    }
    if RefusedTable(t, cfg) {
      var k :| k in t && Refuses(t[k].field, k, cfg);
      assert k in sets;
    }
  }

  // ----- virtual machines -----

  /** The cloud-init drive of a plain VM does not match the volume in ide2: drift writes it over that
      volume, and PVE refuses. */
  predicate DriveRefused(v: Vm.VmSpec, cfg: Config) {
    && v.hw.ciEnabled && !Vm.IsCloneBacked(v) && !IsNewSlot(Get(cfg, Ide2))
    && !CloudInitMatches(Get(cfg, Ide2), CloudInitWire(v.hw.ciStorage, v.hw.ciSize))
  }

  /** Drift writes the cloud-init drive of a plain VM, declared with a size PVE does not spell. */
  predicate DriveMisspelled(v: Vm.VmSpec, cfg: Config) {
    && v.hw.ciEnabled && !Vm.IsCloneBacked(v) && PveSizeBytes(v.hw.ciSize).None?
    && !CloudInitMatches(Get(cfg, Ide2), CloudInitWire(v.hw.ciStorage, v.hw.ciSize))
  }

  lemma DriveEntry(v: Vm.VmSpec, k: Key)
    requires Vm.WellFormed(v) && k in Vm.OwnedTable(v) && Vm.OwnedTable(v)[k].field.CloudInitF?
    ensures k == Ide2 && v.hw.ciEnabled && Vm.OwnedTable(v)[k].field == CloudInitF(v.hw.ciStorage, v.hw.ciSize, Vm.IsCloneBacked(v))
  {
    hide Vm.OwnedTable, Vm.WellFormed, Vm.FixedEntry, Vm.DiskKey, Vm.IsDiskSlot, Vm.IsNicSlot, Vm.IsPciSlot, Vm.IsCloneBacked;
    Vm.Origin(v, k);
    if !k.Dev? {
      OnlyIde2(v, k);
    }
  }

  lemma OnlyIde2(v: Vm.VmSpec, k: Key)
    requires Vm.FixedEntry(v, k).Some? && Vm.FixedEntry(v, k).value.field.CloudInitF?
    ensures k == Ide2 && v.hw.ciEnabled && Vm.FixedEntry(v, k).value.field == CloudInitF(v.hw.ciStorage, v.hw.ciSize, Vm.IsCloneBacked(v))
  {
    hide Vm.FixedEntry, Vm.IsCloneBacked;
    if k == Ide2 {
      Ide2Is(v);
      NoDriveInDisc(v);
    } else {
      NoOtherDrive(v, k);
    }
  }

  lemma Ide2Is(v: Vm.VmSpec)
    ensures Vm.FixedEntry(v, Ide2) ==
            if v.hw.ciEnabled then Some(Entry(CloudInitF(v.hw.ciStorage, v.hw.ciSize, Vm.IsCloneBacked(v)), true)) else Vm.CdromEntry(v)
  {
    hide Vm.IsCloneBacked, Vm.CdromEntry;
  }

  lemma NoOtherDrive(v: Vm.VmSpec, k: Key)
    requires k != Ide2 && Vm.FixedEntry(v, k).Some?
    ensures !Vm.FixedEntry(v, k).value.field.CloudInitF?
  {
    hide Vm.SshWire, Join, MemoryMiB, TrimSpace, Vm.ScsiController, Vm.TpmVersion, AllTags, Vm.IsCloneBacked, Vm.CdromEntry;
    NoDriveInDisc(v);
  }

  lemma TpmEntry(v: Vm.VmSpec, k: Key)
    requires Vm.WellFormed(v) && k in Vm.OwnedTable(v) && Vm.OwnedTable(v)[k].field.TpmF?
    ensures Vm.OwnedTable(v)[k].field == TpmF(Vm.TpmVersion(v.hw.tpm))
  {
    hide Vm.OwnedTable, Vm.WellFormed, Vm.FixedEntry, Vm.DiskKey, Vm.IsDiskSlot, Vm.IsNicSlot, Vm.IsPciSlot;
    Vm.Origin(v, k);
    if !k.Dev? {
      OnlyTpm(v, k);
    }
  }

  lemma OnlyTpm(v: Vm.VmSpec, k: Key)
    requires Vm.FixedEntry(v, k).Some? && Vm.FixedEntry(v, k).value.field.TpmF?
    ensures Vm.FixedEntry(v, k).value.field == TpmF(Vm.TpmVersion(v.hw.tpm))
  {
    hide Vm.TpmVersion, Vm.FixedEntry;
    if k == Tpm0 {
      TpmIs(v);
    } else {
      NoOtherTpm(v, k);
    }
  }

  lemma TpmIs(v: Vm.VmSpec)
    ensures Vm.FixedEntry(v, Tpm0) == Vm.Own(v.hw.tpm.Some?, TpmF(Vm.TpmVersion(v.hw.tpm)), true)
  {
    hide Vm.TpmVersion, Vm.Own;
  }

  lemma NoOtherTpm(v: Vm.VmSpec, k: Key)
    requires k != Tpm0 && Vm.FixedEntry(v, k).Some?
    ensures !Vm.FixedEntry(v, k).value.field.TpmF?
  {
    hide Vm.SshWire, Join, MemoryMiB, TrimSpace, Vm.ScsiController, Vm.TpmVersion, AllTags, Vm.IsCloneBacked, Vm.CdromEntry;
    NoTpmInDisc(v);
  }

  lemma NoTpmInDisc(v: Vm.VmSpec)
    ensures Vm.CdromEntry(v).Some? ==> !Vm.CdromEntry(v).value.field.TpmF?
  {
    hide TrimSpace;
  }

  lemma NoDriveInDisc(v: Vm.VmSpec)
    ensures Vm.CdromEntry(v).Some? ==> !Vm.CdromEntry(v).value.field.CloudInitF?
  {
    hide TrimSpace;
  }

  lemma DriveOwned(v: Vm.VmSpec)
    requires Vm.WellFormed(v) && v.hw.ciEnabled
    ensures Ide2 in Vm.OwnedTable(v) && Vm.OwnedTable(v)[Ide2].field == CloudInitF(v.hw.ciStorage, v.hw.ciSize, Vm.IsCloneBacked(v))
  {
    hide Vm.OwnedTable, Vm.WellFormed, Vm.FixedEntry, Vm.IsCloneBacked, Vm.DiskKey, Vm.IsDiskSlot, Vm.IsNicSlot, Vm.IsPciSlot;
    MediaEntries(v);
    Vm.Origin(v, Ide2);
  }

  lemma VmReportable(v: Vm.VmSpec)
    requires Vm.WellFormed(v)
    ensures ReportableTable(Vm.OwnedTable(v))
  {
    hide Vm.OwnedTable, Vm.WellFormed, StorageId, CleanValue;
    Vm.WellFormedParts(v);
    forall k | k in Vm.OwnedTable(v) ensures Reportable(Vm.OwnedTable(v)[k].field) {
      if Vm.OwnedTable(v)[k].field.CloudInitF? {
        DriveEntry(v, k);
      } else if Vm.OwnedTable(v)[k].field.TpmF? {
        TpmEntry(v, k);
        TpmClean(v.hw.tpm);
      }
    }
  }

  lemma VmRefusal(v: Vm.VmSpec, cfg: Config)
    requires Vm.WellFormed(v)
    ensures RefusedTable(Vm.OwnedTable(v), cfg) <==> DriveRefused(v, cfg)
  {
    hide Vm.OwnedTable, Vm.WellFormed, CloudInitMatches, CloudInitWire, IsNewSlot, Get, Vm.IsCloneBacked;
    var t := Vm.OwnedTable(v);
    if RefusedTable(t, cfg) {
      var k :| k in t && Refuses(t[k].field, k, cfg);
      DriveEntry(v, k);
    }
    if DriveRefused(v, cfg) {
      DriveOwned(v);
      assert Refuses(t[Ide2].field, Ide2, cfg);
    }
  }

  lemma VmMisspelling(v: Vm.VmSpec, cfg: Config)
    requires Vm.WellFormed(v)
    ensures WritesMisspelled(Vm.OwnedTable(v), cfg) <==> DriveMisspelled(v, cfg)
  {
    hide Vm.OwnedTable, Vm.WellFormed, CloudInitMatches, CloudInitWire, IsNewSlot, Get, Vm.IsCloneBacked, PveSizeBytes;
    var t := Vm.OwnedTable(v);
    if WritesMisspelled(t, cfg) {
      var k :| k in t && Propose(t[k].field, k, cfg).Some? && Misspelled(t[k].field);
      DriveEntry(v, k);
    }
    if DriveMisspelled(v, cfg) {
      DriveOwned(v);
      assert Propose(t[Ide2].field, Ide2, cfg).Some? && Misspelled(t[Ide2].field);
    }
  }

  /** One VM update, exactly. PVE takes it unless it would write the cloud-init drive of a plain VM over
      another volume in ide2; what it leaves, in whatever words PVE reports it, needs nothing more unless
      an EFI type is pinned against the live one or a cloud-init drive is written with a size PVE does not
      spell. Set and deleted keys never overlap. */
  lemma VmDriftSettles(id: int, v: Vm.VmSpec, cfg: Config, after: Config)
    requires hide *; Vm.WellFormed(v) && PlainTable(Vm.OwnedTable(v)) && RewritesAllocated(Vm.OwnedTable(v), cfg) && Vm.Drift(v, cfg).Some?
    requires Took(id, Vm.OwnedTable(v), cfg, Vm.ClearKeys(v, cfg), after)
    ensures var d := Vm.Drift(v, cfg).value;
            && d.params.Keys !! d.deletes
            && (Accepts(cfg, d.params, d.deletes) <==> !DriveRefused(v, cfg))
            && (Vm.Drift(v, after).None? <==> !Vm.EfiPinned(v, cfg) && !DriveMisspelled(v, cfg))
  {
    hide Vm.OwnedTable, Vm.WellFormed, Vm.IdentityKeys, DriftParams, DriftStops, StuckTable, RewritesReported, RewritesAllocated, Vm.EfiPinned, DriveRefused,
         DriveMisspelled, CleanTable, PlainTable, ReportableTable, CreateKeys, Accepts, WritesMisspelled, RefusedTable, Took, Vm.ClearKeys, Vm.StuckDrift;
    var t, deletes := Vm.OwnedTable(v), Vm.ClearKeys(v, cfg);
    Vm.TableIsClean(v);
    VmReportable(v);
    Vm.ClearKeysUnowned(v, cfg);
    AllocatedIsReported(t, cfg);
    AcceptsExactly(t, cfg, deletes);
    Reports.DriftSettles(id, t, cfg, deletes, after);
    Vm.VmStuckExactly(v, cfg);
    Vm.StuckIs(v, cfg);
    VmRefusal(v, cfg);
    VmMisspelling(v, cfg);
    ClearedReported(id, v, cfg, after);
  }

  lemma ClearedReported(id: int, v: Vm.VmSpec, cfg: Config, after: Config)
    requires Vm.WellFormed(v) && Took(id, Vm.OwnedTable(v), cfg, Vm.ClearKeys(v, cfg), after)
    ensures Vm.ClearKeys(v, after) == {}
  {
    hide Vm.OwnedTable, Vm.IdentityKeys, Propose, MayReport, Vm.WellFormed, Vm.IsCloneBacked;
    var t := Vm.OwnedTable(v);
    forall k | k in Vm.IdentityKeys(v) && k !in t && Vm.IsCloneBacked(v) ensures !Vm.Present(after, k) {
      assert k !in DriftParams(t, cfg);
      assert Get(after, k) == Get(cfg - Vm.ClearKeys(v, cfg), k);
      if k in Vm.ClearKeys(v, cfg) {
        Absent(cfg - Vm.ClearKeys(v, cfg), after, k);
      } else {
        SamePresence(cfg - Vm.ClearKeys(v, cfg), cfg, after, k);
      }
    }
  }

  lemma Absent(rest: Config, after: Config, k: Key)
    requires k !in rest && Get(after, k) == Get(rest, k)
    ensures !Vm.Present(after, k)
  {
    assert TrimSpace("") == "";
  }

  lemma SamePresence(rest: Config, cfg: Config, after: Config, k: Key)
    requires Get(rest, k) == Get(cfg, k) && Get(after, k) == Get(rest, k) && !Vm.Present(cfg, k)
    ensures !Vm.Present(after, k)
  {
    hide IsNoneSlot, TrimSpace;
  }

  // ----- containers -----

  /** One container update, exactly: PVE always takes it, and what it leaves, in whatever words PVE
      reports it, needs nothing more unless a legacy nesting key disagrees. */
  lemma LxcDriftSettles(id: int, l: Lxc.LxcSpec, cfg: Config, after: Config)
    requires hide *; Lxc.WellFormed(l) && PlainTable(Lxc.OwnedTable(l)) && RewritesAllocated(Lxc.OwnedTable(l), cfg) && Lxc.Drift(l, cfg).Some?
    requires Took(id, Lxc.OwnedTable(l), cfg, {}, after)
    ensures Accepts(cfg, Lxc.Drift(l, cfg).value.params, {})
    ensures Lxc.Drift(l, after).None? <==> !Lxc.StuckDrift(l, cfg)
  {
    hide Lxc.OwnedTable, Lxc.WellFormed, DriftParams, DriftStops, StuckTable, RewritesReported, RewritesAllocated, Lxc.StuckDrift, CleanTable, PlainTable,
         CreateKeys, Accepts, Took;
    var t := Lxc.OwnedTable(l);
    Lxc.TableIsClean(l);
    AllocatedIsReported(t, cfg);
    AcceptsExactly(t, cfg, {});
    Reports.DriftSettles(id, t, cfg, {}, after);
    Lxc.StuckExactly(l, cfg);
  }
}
