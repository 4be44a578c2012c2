/** What it means that a live container config carries its manifest, and the proof that drift finds
    nothing exactly then. */
module LxcCarried {
  import opened Text
  import opened Quantity
  import opened Drive
  import opened Devices
  import opened LxcWire
  import opened LxcMounts
  import opened VmDrives
  import opened Owned
  import opened VmCarried
  import Lxc

  // ----- storage -----

  /** Another pool, or another size of a volume whose size PVE reports. */
  predicate VolumeDiffers(storage: string, bytes: int, cur: string) {
    var c := Parse(cur);
    c.pool != storage || (bytes > 0 && c.size.Some? && c.size.value != bytes)
  }

  /** The slot holds a volume with every declared option in effect, or something that must not be
      touched: a bind, another pool, another size. */
  predicate MountHolds(m: Mount, cur: string) {
    var tokens, o := Split(cur, ','), Options(m);
    && !IsNewSlot(cur)
    && (IsBind(cur) || VolumeDiffers(m.storage, m.bytes, cur)
        || (&& TextAgrees(m.mountPoint, RawText(tokens, "mp")) && TextAgrees(o.mountoptions, RawText(tokens, "mountoptions"))
            && FlagAgrees(o.ro, RawBool(tokens, "ro", false)) && FlagAgrees(o.backup, RawBool(tokens, "backup", false))
            && FlagAgrees(o.acl, RawBool(tokens, "acl", false)) && FlagAgrees(o.quota, RawBool(tokens, "quota", false))
            && FlagAgrees(o.shared, RawBool(tokens, "shared", false))))
  }

  /** A text PVE does not report cannot disagree. */
  predicate TextAgrees(want: string, live: string) { want == "" || live == "" || live == want }

  predicate FlagAgrees(want: Option<bool>, live: bool) { want.Some? ==> live == want.value }

  lemma FirstSize(bytes: int, out: DiskInfo)
    requires out.size.None?
    ensures ParseToken(GiBString(bytes), true, out).size == if bytes > 0 then Some(bytes) else None
  {
    hide ParseToken, GiBString, PveSizeBytes, NumericGiB, CleanToken, CleanValue;
    if bytes > 0 {
      GiBTokenParses(bytes, out);
    } else {
      NothingAllocated(bytes);
      ZeroVolume(out);
    }
  }

  lemma NothingAllocated(bytes: int)
    requires bytes <= 0
    ensures GiBString(bytes) == "0"
  {
  }

  lemma MountCreateReads(m: Mount)
    requires CleanMount(m)
    ensures var w := Parse(MountCreateWire(m)); w.pool == m.storage && w.size == if m.bytes > 0 then Some(m.bytes) else None
  {
    hide CleanToken, OptionTokens, TextToken, CutKey, TokenKey, CutValue, GiBString, ParseToken, ParseTokens, TrimSpace, CleanMount, CleanValue;
    CreatePool(m);
    GiBClean(m.bytes);
    MountParts(m);
    OptionTokensClean(Options(m));
    TextTokenClean("mp", m.mountPoint);
    StorageClean(m.storage);
    var tokens := TextToken("mp", m.mountPoint) + OptionTokens(Options(m));
    var out := EMPTY_INFO.(pool := m.storage);
    ParseRender(m.storage, GiBString(m.bytes), tokens);
    FirstSize(m.bytes, out);
    forall t | t in tokens ensures TokenKey(TrimSpace(t)) != "size" {
      CleanTokenTrims(t);
    }
    KeepsVolume(tokens, ParseToken(GiBString(m.bytes), true, out));
  }

  lemma MountParts(m: Mount)
    requires CleanMount(m)
    ensures StorageId(m.storage) && CleanValue(m.mountPoint) && CleanValue(Options(m).mountoptions)
  {
    hide StorageId, CleanValue;
  }

  lemma MountQuiet(m: Mount, cur: string)
    requires CleanMount(m)
    ensures MountPropose(m, cur).None? <==> MountHolds(m, cur)
  {
    hide MountCreateWire, Parse, IsNewSlot, IsBind, RawText, RawBool, CleanMount, MountRewrite, Split;
    MountCreateReads(m);
  }

  /** The slot holds the declared host directory with guest path and flag in effect, or something
      that must not be touched: a volume or another directory. */
  predicate BindHolds(b: Bind, cur: string) {
    var live := ParseBind(cur);
    && !IsNewSlot(cur)
    && (!IsBind(cur) || (live.host != "" && TrimSlashes(live.host) != TrimSlashes(b.hostPath))
        || (TextAgrees(b.mountPoint, live.guest) && FlagAgrees(b.readOnly, live.ro == Some(true))))
  }

  lemma BindQuiet(b: Bind, cur: string)
    ensures BindPropose(b, cur).None? <==> BindHolds(b, cur)
  {
    hide ParseBind, IsBind, IsNewSlot, TrimSlashes, BindWire;
  }

  /** A rootfs is written only into an empty slot. */
  lemma RootQuiet(pool: string, bytes: int, k: Key, cfg: Config)
    requires StorageId(pool)
    ensures Propose(RootF(pool, bytes), k, cfg).None? <==> !IsNewSlot(Get(cfg, k))
  {
    hide Parse, IsNewSlot, Alloc, Get, StorageId;
    if IsNewSlot(Get(cfg, k)) {
      NewSlotPool(Get(cfg, k));
      AllocPool(pool, bytes);
      StoragePlain(pool);
    }
  }

  lemma StoragePlain(pool: string)
    requires StorageId(pool)
    ensures pool != "" && ',' !in pool && ';' !in pool
  {
  }

  lemma AllocPool(pool: string, bytes: int)
    requires StorageId(pool)
    ensures Parse(Alloc(pool, bytes)).pool == pool
  {
    hide GiBString, ParseToken, ParseTokens, CleanToken;
    GiBClean(bytes);
    StorageClean(pool);
    ParseRender(pool, GiBString(bytes), []);
    ParseTokenPool(GiBString(bytes), EMPTY_INFO.(pool := pool));
    ParsePool([], ParseToken(GiBString(bytes), true, EMPTY_INFO.(pool := pool)));
  }

  /** An empty or detached slot names no storage. */
  lemma NewSlotPool(cur: string)
    requires IsNewSlot(cur)
    ensures var p := Parse(cur).pool; p == "" || ',' in p || ';' in p
  {
    hide TrimSpace, ParseTokens;
    var s := TrimSpace(cur);
    var i := IndexOf(s, ':');
    assert TrimSpace(s) == s;
    if 0 < i < |s| {
      ParseKeepsPool(Split(s[i + 1..], ','), EMPTY_INFO.(pool := s[..i]));
      if s != "none" {
        assert s[4] == ',' || s[4] == ';';
        assert i > 4 ==> s[..i][4] == s[4];
        assert forall j | 0 <= j < 5 :: s[j] != ':';
      }
    }
  }

  lemma ParseKeepsPool(tokens: seq<string>, out: DiskInfo)
    ensures ParseTokens(tokens, true, out).pool == out.pool
  {
    hide ParseToken;
    if tokens != [] {
      ParseTokenPool(tokens[0], out);
      ParsePool(tokens[1..], ParseToken(tokens[0], true, out));
    }
  }

  // ----- fixed keys -----

  /** The declared name servers, in order; PVE reports them separated by blanks. */
  predicate ServersHold(want: seq<string>, cur: string) { want != [] ==> Words(ReplaceChar(cur, ',', ' ')) == want }

  lemma NoComma(a: string)
    requires ',' !in a
    ensures ReplaceChar(a, ',', ' ') == a
  {
    assert forall i | 0 <= i < |a| :: a[i] in a;
  }

  lemma {:induction false} CommasToBlanks(ws: seq<string>)
    requires forall w | w in ws :: ',' !in w
    ensures ReplaceChar(Join(ws, ","), ',', ' ') == Join(ws, " ")
  {
    if ws != [] {
      assert ws[0] in ws;
      NoComma(ws[0]);
      if |ws| > 1 {
        CommasToBlanks(ws[1..]);
        var a, b := ws[0], Join(ws[1..], ",");
        assert ReplaceChar(a + "," + b, ',', ' ') == ReplaceChar(a, ',', ' ') + " " + ReplaceChar(b, ',', ' ');
      }
    }
  }

  lemma ServersQuiet(want: seq<string>, cur: string)
    requires want != [] && forall w | w in want :: OneWord(w) && ',' !in w
    ensures NameserverEquals(cur, Join(want, ",")) <==> ServersHold(want, cur)
  {
    hide OneWord;
    CommasToBlanks(want);
    WordsJoin(want);
    assert want[0] in want;
    NoServers(want);
    assert ReplaceChar("", ',', ' ') == "";
  }

  lemma NoServers(want: seq<string>)
    requires want != [] && OneWord(want[0])
    ensures Join(want, ",") != "" && Words("") == []
  {
  }

  predicate CoreHolds(l: Lxc.LxcSpec, cfg: Config) {
    && PveInt(Get(cfg, Cores)) == l.cores && Some(PveInt(Get(cfg, Memory))) == MemoryMiB(l.memory)
    && (l.swap != "" ==> Some(PveInt(Get(cfg, Swap))) == MemoryMiB(l.swap))
    && TextHolds(l.arch, Get(cfg, Arch))
    && TagSet(Get(cfg, Tags)) == (set t | t in l.tags && t != "") + {OWNERSHIP_TAG}
    && !IsNewSlot(Get(cfg, Rootfs))
  }

  predicate NamesHold(l: Lxc.LxcSpec, cfg: Config) {
    && Get(cfg, Hostname) == (if TrimSpace(l.hostname) != "" then TrimSpace(l.hostname) else l.name)
    && ServersHold(l.nameservers, Get(cfg, NameServer)) && TextHolds(l.domain, Get(cfg, SearchDomain))
    && (l.description != "" ==> TrimSpace(Get(cfg, Description)) == TrimSpace(l.description))
  }

  predicate Switched(want: Option<bool>, cur: string) { want.Some? ==> (cur in {"1", "true"}) == want.value }

  predicate OptionsHold(o: Lxc.LxcOptions, cfg: Config) {
    && Switched(o.protection, Get(cfg, Protection)) && Switched(o.onboot, Get(cfg, Onboot)) && Switched(o.console, Get(cfg, Console))
    && (o.nesting.Some? ==> LiveNesting(cfg) == BoolWire(o.nesting.value))
    && TextHolds(o.startup, Get(cfg, Startup))
  }

  predicate SlotHolds(s: Lxc.Slot, cfg: Config) {
    var cur := Get(cfg, Dev(s.name));
    match s.field
    case MountF(m) => MountHolds(m, cur)
    case BindF(b) => BindHolds(b, cur)
    case NetF(n) => NetSatisfies(ParseNet(cur), n)
    case _ => true
  }

  predicate Carries(l: Lxc.LxcSpec, cfg: Config) {
    && CoreHolds(l, cfg) && NamesHold(l, cfg) && OptionsHold(l.options, cfg)
    && forall s | s in Lxc.Slots(l) :: SlotHolds(s, cfg)
  }

  predicate Readable(l: Lxc.LxcSpec) { forall w | w in l.nameservers :: OneWord(w) && ',' !in w }

  predicate Quiet(l: Lxc.LxcSpec, k: Key, cfg: Config) {
    hide *;
    Lxc.FixedEntry(l, k).None? || Propose(Lxc.FixedEntry(l, k).value.field, k, cfg).None?
  }

  predicate AllQuiet(l: Lxc.LxcSpec, ks: set<Key>, cfg: Config) { forall k | k in ks :: Quiet(l, k, cfg) }

  lemma DeclaredParts(l: Lxc.LxcSpec)
    requires Lxc.WellFormed(l)
    ensures MemoryMiB(l.memory).Some? && (l.swap != "" ==> MemoryMiB(l.swap).Some?) && StorageId(l.rootStorage)
    ensures forall s | s in Lxc.Slots(l) :: Lxc.SlotClean(s)
    ensures Lxc.DistinctSlots(Lxc.Slots(l))
  {
    hide MemoryMiB, StorageId, Lxc.SlotClean, Lxc.Slots, Lxc.DistinctSlots, Lxc.ExtraKey, CleanTag;
  }

  lemma CoreEntries(l: Lxc.LxcSpec)
    requires MemoryMiB(l.memory).Some? && (l.swap != "" ==> MemoryMiB(l.swap).Some?)
    ensures Lxc.FixedEntry(l, Cores) == Some(Entry(IntF(l.cores), true))
    ensures Lxc.FixedEntry(l, Memory) == Some(Entry(IntF(MemoryMiB(l.memory).value), true))
    ensures Lxc.FixedEntry(l, Swap) == if l.swap != "" then Some(Entry(IntF(MemoryMiB(l.swap).value), true)) else None
    ensures Lxc.FixedEntry(l, Arch) == Lxc.Plain(l.arch != "", l.arch, true)
    ensures Lxc.FixedEntry(l, Tags) == Some(Entry(TagsF(AllTags(l.tags)), false))
    ensures Lxc.FixedEntry(l, Rootfs) == Some(Entry(RootF(l.rootStorage, l.rootBytes), true))
  {
    hide MemoryMiB, AllTags, Join, Lxc.HostName;
  }

  lemma PlainAt(l: Lxc.LxcSpec, k: Key, want: string, stop: bool, cfg: Config)
    requires Lxc.FixedEntry(l, k) == Lxc.Plain(want != "", want, stop)
    ensures Quiet(l, k, cfg) <==> TextHolds(want, Get(cfg, k))
  {
    hide Lxc.FixedEntry;
  }

  lemma RootAt(l: Lxc.LxcSpec, cfg: Config)
    requires Lxc.FixedEntry(l, Rootfs) == Some(Entry(RootF(l.rootStorage, l.rootBytes), true)) && StorageId(l.rootStorage)
    ensures Quiet(l, Rootfs, cfg) <==> !IsNewSlot(Get(cfg, Rootfs))
  {
    hide Lxc.FixedEntry, Propose, StorageId, IsNewSlot;
    RootQuiet(l.rootStorage, l.rootBytes, Rootfs, cfg);
  }

  /** Numbers and tags. */
  lemma CountsAt(l: Lxc.LxcSpec, cfg: Config)
    requires MemoryMiB(l.memory).Some? && (l.swap != "" ==> MemoryMiB(l.swap).Some?)
    ensures Quiet(l, Cores, cfg) <==> PveInt(Get(cfg, Cores)) == l.cores
    ensures Quiet(l, Memory, cfg) <==> Some(PveInt(Get(cfg, Memory))) == MemoryMiB(l.memory)
    ensures Quiet(l, Swap, cfg) <==> (l.swap != "" ==> Some(PveInt(Get(cfg, Swap))) == MemoryMiB(l.swap))
    ensures Quiet(l, Tags, cfg) <==> TagSet(Get(cfg, Tags)) == (set t | t in l.tags && t != "") + {OWNERSHIP_TAG}
  {
    hide Lxc.FixedEntry, MemoryMiB, AllTags, TagSet, PveInt, Get;
    CoreEntries(l);
    TagsMean(l.tags);
  }

  lemma CoreQuiet(l: Lxc.LxcSpec, cfg: Config)
    requires Lxc.WellFormed(l)
    ensures AllQuiet(l, {Cores, Memory, Swap, Arch, Tags, Rootfs}, cfg) <==> CoreHolds(l, cfg)
  {
    hide Lxc.FixedEntry, Quiet, MemoryMiB, TagSet, PveInt, Get, Lxc.WellFormed, StorageId, IsNewSlot, TextHolds;
    DeclaredParts(l);
    CoreEntries(l);
    CountsAt(l, cfg);
    PlainAt(l, Arch, l.arch, true, cfg);
    RootAt(l, cfg);
  }

  lemma NameEntries(l: Lxc.LxcSpec)
    ensures Lxc.FixedEntry(l, Hostname) == Some(Entry(TextF(Lxc.HostName(l)), false))
    ensures Lxc.FixedEntry(l, NameServer) == if l.nameservers != [] then Some(Entry(NameserverF(Join(l.nameservers, ",")), false)) else None
    ensures Lxc.FixedEntry(l, SearchDomain) == Lxc.Plain(l.domain != "", l.domain, false)
    ensures Lxc.FixedEntry(l, Description) == if l.description != "" then Some(Entry(DescriptionF(l.description), false)) else None
  {
    hide MemoryMiB, AllTags, Join, Lxc.HostName;
  }

  lemma ServersAt(l: Lxc.LxcSpec, cfg: Config)
    requires Readable(l)
    ensures Quiet(l, NameServer, cfg) <==> ServersHold(l.nameservers, Get(cfg, NameServer))
  {
    hide Lxc.FixedEntry, Get, Join, NameserverEquals, ServersHold, OneWord;
    NameEntries(l);
    if l.nameservers != [] {
      ServersQuiet(l.nameservers, Get(cfg, NameServer));
    }
    NoneDeclared(Get(cfg, NameServer));
  }

  lemma NamesQuiet(l: Lxc.LxcSpec, cfg: Config)
    requires Readable(l)
    ensures AllQuiet(l, {Hostname, NameServer, SearchDomain, Description}, cfg) <==> NamesHold(l, cfg)
  {
    hide Lxc.FixedEntry, Get, TrimSpace, ServersHold, Readable, TextHolds, NameserverEquals, Join;
    NameEntries(l);
    ServersAt(l, cfg);
    PlainAt(l, SearchDomain, l.domain, false, cfg);
  }

  lemma NoneDeclared(cur: string)
    ensures ServersHold([], cur)
  {
  }

  lemma SwitchAt(l: Lxc.LxcSpec, k: Key, want: Option<bool>, cfg: Config)
    requires Lxc.FixedEntry(l, k) == Lxc.Flag(want)
    ensures Quiet(l, k, cfg) <==> Switched(want, Get(cfg, k))
  {
    hide Lxc.FixedEntry;
  }

  lemma OptionEntries(l: Lxc.LxcSpec)
    ensures var o := l.options;
            && Lxc.FixedEntry(l, Protection) == Lxc.Flag(o.protection) && Lxc.FixedEntry(l, Onboot) == Lxc.Flag(o.onboot)
            && Lxc.FixedEntry(l, Console) == Lxc.Flag(o.console)
            && Lxc.FixedEntry(l, Features) == (if o.nesting.Some? then Some(Entry(NestingF(o.nesting.value), true)) else None)
            && Lxc.FixedEntry(l, Startup) == Lxc.Plain(o.startup != "", o.startup, true)
  {
    hide MemoryMiB, AllTags, Join, Lxc.HostName;
  }

  lemma OptionsQuiet(l: Lxc.LxcSpec, cfg: Config)
    ensures AllQuiet(l, {Protection, Onboot, Console, Features, Startup}, cfg) <==> OptionsHold(l.options, cfg)
  {
    hide Lxc.FixedEntry, Switched, LiveNesting, BoolWire;
    var o := l.options;
    OptionEntries(l);
    SwitchAt(l, Protection, o.protection, cfg);
    SwitchAt(l, Onboot, o.onboot, cfg);
    SwitchAt(l, Console, o.console, cfg);
  }

  lemma FixedSilent(l: Lxc.LxcSpec, cfg: Config)
    requires Lxc.WellFormed(l) && Readable(l)
    ensures Silent(Lxc.FixedTable(l), cfg) <==> CoreHolds(l, cfg) && NamesHold(l, cfg) && OptionsHold(l.options, cfg)
  {
    hide Lxc.FixedTable, AllQuiet, Silent, CoreHolds, NamesHold, OptionsHold, Lxc.WellFormed, Readable;
    CoreQuiet(l, cfg);
    NamesQuiet(l, cfg);
    OptionsQuiet(l, cfg);
    FixedIsQuiet(l, cfg);
    AllFixed(l, cfg);
  }

  lemma AllFixed(l: Lxc.LxcSpec, cfg: Config)
    ensures AllQuiet(l, Lxc.FIXED_KEYS, cfg) <==>
            && AllQuiet(l, {Cores, Memory, Swap, Arch, Tags, Rootfs}, cfg)
            && AllQuiet(l, {Hostname, NameServer, SearchDomain, Description}, cfg)
            && AllQuiet(l, {Protection, Onboot, Console, Features, Startup}, cfg)
  {
    hide Quiet;
  }

  lemma FixedIsQuiet(l: Lxc.LxcSpec, cfg: Config)
    ensures Silent(Lxc.FixedTable(l), cfg) <==> AllQuiet(l, Lxc.FIXED_KEYS, cfg)
  {
    hide Lxc.FixedEntry, Propose;
    var t := Lxc.FixedTable(l);
    if Silent(t, cfg) {
      forall k | k in Lxc.FIXED_KEYS ensures Quiet(l, k, cfg) {
        if Lxc.FixedEntry(l, k).Some? {
          assert k in t;
        }
      }
    } else {
      var k :| k in t && !Propose(t[k].field, k, cfg).None?;
      assert !Quiet(l, k, cfg);
    }
  }

  // ----- slots -----

  lemma SlotQuiet(s: Lxc.Slot, cfg: Config)
    requires Lxc.SlotClean(s)
    ensures Propose(s.field, Dev(s.name), cfg).None? <==> SlotHolds(s, cfg)
  {
    hide MountPropose, MountHolds, BindPropose, BindHolds, ParseNet, NetSatisfies, Get, CleanMount, CleanBind, CleanNet, Lxc.IsMpSlot, Lxc.IsNetSlot;
    match s.field
    case MountF(m) => MountQuiet(m, Get(cfg, Dev(s.name)));
    case BindF(b) => BindQuiet(b, Get(cfg, Dev(s.name)));
    case _ =>
  }

  lemma SlotsSilent(slots: seq<Lxc.Slot>, cfg: Config)
    requires hide *; (forall s | s in slots :: Lxc.SlotClean(s)) && Lxc.DistinctSlots(slots)
    ensures Silent(Lxc.SlotTable(slots, |slots|), cfg) <==> forall s | s in slots :: SlotHolds(s, cfg)
  {
    hide Lxc.SlotTable, Lxc.SlotClean, Lxc.DistinctSlots, Propose, SlotHolds;
    var t := Lxc.SlotTable(slots, |slots|);
    Lxc.SlotTableAt(slots, |slots|);
    forall i | 0 <= i < |slots|
      ensures Propose(t[Dev(slots[i].name)].field, Dev(slots[i].name), cfg).None? <==> SlotHolds(slots[i], cfg)
    {
      assert slots[i] in slots;
      SlotQuiet(slots[i], cfg);
    }
    if Silent(t, cfg) {
      forall s | s in slots ensures SlotHolds(s, cfg) {
        var i :| 0 <= i < |slots| && slots[i] == s;
        assert Dev(slots[i].name) in t;
      }
    }
    if forall s | s in slots :: SlotHolds(s, cfg) {
      forall k | k in t ensures Propose(t[k].field, k, cfg).None? {
        var i :| 0 <= i < |slots| && k == Dev(slots[i].name);
        assert slots[i] in slots;
      }
    }
  }

  lemma SlotsAreDev(slots: seq<Lxc.Slot>)
    requires Lxc.DistinctSlots(slots)
    ensures forall k | k in Lxc.SlotTable(slots, |slots|) :: k.Dev?
  {
    hide Lxc.SlotTable, Lxc.DistinctSlots;
    Lxc.SlotTableAt(slots, |slots|);
  }

  lemma FixedAreNotDev(l: Lxc.LxcSpec)
    ensures forall k | k in Lxc.FixedTable(l) :: !k.Dev?
  {
    hide Lxc.FixedEntry;
    forall k | k in Lxc.FixedTable(l) ensures !k.Dev? {
      Lxc.NoDevFixed(k);
    }
  }

  /** Drift finds nothing exactly when the live config carries the manifest, storage that differs in a
      way only a data-destroying write could mend aside. */
  lemma NoDriftExactly(l: Lxc.LxcSpec, cfg: Config)
    requires Lxc.WellFormed(l) && Readable(l)
    ensures Lxc.Drift(l, cfg).None? <==> Carries(l, cfg)
  {
    hide DriftParams, DriftStops, Lxc.FixedTable, Lxc.SlotTable, Silent, Lxc.WellFormed, Readable, SlotHolds, CoreHolds, NamesHold, OptionsHold,
         Lxc.Slots, Lxc.SlotClean, Lxc.DistinctSlots;
    var slots := Lxc.Slots(l);
    DeclaredParts(l);
    SilentIsEmpty(Lxc.OwnedTable(l), cfg);
    FixedSilent(l, cfg);
    SlotsSilent(slots, cfg);
    SlotsAreDev(slots);
    FixedAreNotDev(l);
    Merges(Lxc.FixedTable(l), Lxc.SlotTable(slots, |slots|), cfg);
  }

  // ----- what needs a stopped guest -----

  predicate LiveKey(k: Key) { k in {Hostname, NameServer, SearchDomain, Description, Tags} }

  lemma {:induction false} SlotsStop(slots: seq<Lxc.Slot>, n: nat)
    requires n <= |slots|
    ensures forall k | k in Lxc.SlotTable(slots, n) :: Lxc.SlotTable(slots, n)[k].stop
  {
    if n > 0 {
      SlotsStop(slots, n - 1);
    }
  }

  lemma StopFlag(l: Lxc.LxcSpec, k: Key)
    requires Lxc.WellFormed(l) && k in Lxc.OwnedTable(l)
    ensures Lxc.OwnedTable(l)[k].stop <==> !LiveKey(k)
  {
    hide Lxc.FixedEntry, Lxc.SlotTable, Lxc.WellFormed, Lxc.Slots;
    DeclaredParts(l);
    SlotsStop(Lxc.Slots(l), |Lxc.Slots(l)|);
    SlotsAreDev(Lxc.Slots(l));
    if k in Lxc.FixedTable(l) {
      Lxc.NoDevFixed(k);
      FixedStop(l, k);
    }
  }

  lemma FixedStop(l: Lxc.LxcSpec, k: Key)
    requires Lxc.FixedEntry(l, k).Some?
    ensures Lxc.FixedEntry(l, k).value.stop <==> !LiveKey(k)
  {
    hide Join, MemoryMiB, AllTags, TrimSpace;
  }

  /** An update asks for a stopped container exactly when it writes more than names, description and
      tags. */
  lemma StopExactly(l: Lxc.LxcSpec, cfg: Config)
    requires hide *; Lxc.WellFormed(l) && Lxc.Drift(l, cfg).Some?
    ensures Lxc.Drift(l, cfg).value.stop <==> exists k | k in Lxc.Drift(l, cfg).value.params :: !LiveKey(k)
  {
    hide Lxc.OwnedTable, Propose, Lxc.WellFormed, LiveKey;
    var t, params := Lxc.OwnedTable(l), DriftParams(Lxc.OwnedTable(l), cfg);
    forall k | k in params ensures t[k].stop <==> !LiveKey(k) {
      StopFlag(l, k);
    }
    if DriftStops(t, cfg) {
      var k :| k in t && t[k].stop && Propose(t[k].field, k, cfg).Some?;
      assert k in params;
    }
    if k :| k in params && !LiveKey(k) {
      assert t[k].stop;
    }
  }
}
