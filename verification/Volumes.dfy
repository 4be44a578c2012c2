/** The data-loss guard, exactly: which live values a rewrite leaves on their volume. */
module Volumes {
  import opened Text
  import opened Quantity
  import opened Drive
  import opened Devices
  import LxcWire
  import opened LxcMounts
  import opened VmDrives
  import opened Owned
  import Vm
  import Lxc

  // ----- the volume a drive string names -----

  /** What stands in the volume position: the text between the pool and the first option. */
  function Position(raw: string): string {
    var s := TrimSpace(raw);
    var i := IndexOf(s, ':');
    if 0 < i < |s| then TrimSpace(Split(s[i + 1..], ',')[0]) else ""
  }

  /** The pool and what stands in the volume position. */
  function VolumeId(raw: string): string { Parse(raw).pool + ":" + Position(raw) }

  /** The parser reads a volume name there, or there is nothing to lose. */
  predicate NamesVolume(raw: string) { Parse(raw).volumeName != "" || Position(raw) == "" }

  lemma {:induction false} LaterNamesNothing(tokens: seq<string>, out: DiskInfo)
    ensures ParseTokens(tokens, false, out).volumeName == out.volumeName
  {
    hide PveSizeBytes, TrimSpace, TokenKey, TokenValue;
    if tokens != [] {
      LaterNamesNothing(tokens[1..], ParseToken(tokens[0], false, out));
    }
  }

  /** A volume name is always what stands in the volume position. */
  lemma NameInPosition(raw: string)
    ensures Parse(raw).volumeName in {"", Position(raw)}
  {
    hide PveSizeBytes, TokenKey, TokenValue, IsDecimal, IsPositive, DecimalTimes, ParseTokens, TrimSpace;
    var s := TrimSpace(raw);
    var i := IndexOf(s, ':');
    if 0 < i < |s| {
      var tokens, out := Split(s[i + 1..], ','), EMPTY_INFO.(pool := s[..i]);
      FirstThenRest(tokens, out);
      LaterNamesNothing(tokens[1..], ParseToken(tokens[0], true, out));
    }
  }

  lemma FirstThenRest(tokens: seq<string>, out: DiskInfo)
    requires tokens != []
    ensures ParseTokens(tokens, true, out) == ParseTokens(tokens[1..], false, ParseToken(tokens[0], true, out))
  {
  }

  /** What a rendered value carries in the volume position, named or not. */
  lemma RenderedPosition(pool: string, volume: string, tokens: seq<string>)
    requires CleanPool(pool) && (volume == "" || CleanToken(volume)) && forall t | t in tokens :: CleanToken(t)
    ensures Parse(Render(pool, volume, tokens)).pool == pool && Position(Render(pool, volume, tokens)) == volume
  {
    hide CleanToken, ParseTokens;
    var all := [volume] + tokens;
    var body := Join(all, ",");
    var s := Render(pool, volume, tokens);
    RenderTrimmed(pool, volume, tokens);
    IndexOfAt(pool, ':', body);
    assert s == pool + [':'] + body;
    assert s[..|pool|] == pool && s[|pool| + 1..] == body;
    NoCommas(volume, tokens);
    SplitJoin(all, ',');
    assert all[0] == volume;
    CommaFree(all, EMPTY_INFO.(pool := pool));
    VolumeTrims(volume);
  }

  lemma VolumeTrims(volume: string)
    requires volume == "" || CleanToken(volume)
    ensures TrimSpace(volume) == volume
  {
  }

  lemma NoCommas(volume: string, tokens: seq<string>)
    requires (volume == "" || CleanToken(volume)) && forall t | t in tokens :: CleanToken(t)
    ensures forall p | p in [volume] + tokens :: ',' !in p
  {
  }

  lemma CommaFree(tokens: seq<string>, out: DiskInfo)
    ensures ParseTokens(tokens, true, out).pool == out.pool
  {
    if tokens != [] {
      PoolStays(tokens[0], true, out);
      LaterPool(tokens[1..], ParseToken(tokens[0], true, out));
    }
  }

  lemma PoolStays(token: string, first: bool, out: DiskInfo)
    ensures ParseToken(token, first, out).pool == out.pool
  {
    hide PveSizeBytes, TrimSpace, TokenKey, TokenValue, IsDecimal, IsPositive, DecimalTimes;
  }

  lemma {:induction false} LaterPool(tokens: seq<string>, out: DiskInfo)
    ensures ParseTokens(tokens, false, out).pool == out.pool
  {
    hide ParseToken;
    if tokens != [] {
      PoolStays(tokens[0], false, out);
      LaterPool(tokens[1..], ParseToken(tokens[0], false, out));
    }
  }

  lemma RenderTrimmed(pool: string, volume: string, tokens: seq<string>)
    requires CleanPool(pool) && (volume == "" || CleanToken(volume)) && forall t | t in tokens :: CleanToken(t)
    ensures Trimmed(Render(pool, volume, tokens))
  {
    var all := [volume] + tokens;
    var s := Render(pool, volume, tokens);
    assert s[0] == pool[0];
    if tokens != [] {
      JoinTail(tokens);
      assert all[1..] == tokens;
      assert Join(all, ",") == volume + "," + Join(tokens, ",");
      assert s[|s| - 1] == Join(tokens, ",")[|Join(tokens, ",")| - 1];
    } else if volume != "" {
      assert s[|s| - 1] == volume[|volume| - 1];
    }
  }

  /** A rewrite with the parsed pool and volume name stays on the volume exactly when the parser found its
      name. */
  lemma RewriteKeepsExactly(raw: string, tokens: seq<string>)
    requires Parse(raw).pool != "" && forall t | t in tokens :: CleanToken(t)
    ensures VolumeId(Render(Parse(raw).pool, Parse(raw).volumeName, tokens)) == VolumeId(raw) <==> NamesVolume(raw)
  {
    hide Parse, CleanToken, Position, Render, CleanOptions, CleanPool;
    var c := Parse(raw);
    ParseClean(raw);
    if c.volumeName != "" {
      VolumeNameIsClean(c);
    }
    NameInPosition(raw);
    RenderedPosition(c.pool, c.volumeName, tokens);
    SamePool(c.pool, c.volumeName, Position(raw));
  }

  lemma SamePool(pool: string, a: string, b: string)
    ensures pool + ":" + a == pool + ":" + b <==> a == b
  {
    assert (pool + ":" + a)[|pool| + 1..] == a && (pool + ":" + b)[|pool| + 1..] == b;
  }

  // ----- the three writers -----

  lemma TextClean(k: string, v: string)
    requires CleanKey(k) && CleanValue(v)
    ensures forall t | t in TextToken(k, v) :: CleanToken(t)
  {
    if v != "" {
      ParsePair(k, v);
    }
  }

  lemma BoolClean(k: string, v: Option<bool>)
    requires CleanKey(k)
    ensures forall t | t in BoolToken(k, v) :: CleanToken(t)
  {
    if v.Some? {
      ParsePair(k, BoolWire(v.value));
    }
  }

  lemma OptionParts(c: DiskInfo)
    requires CleanOptions(c)
    ensures CleanValue(c.discard) && CleanValue(c.aio) && CleanValue(c.efitype) && forall t | t in c.rawExtra :: RawToken(t)
  {
    hide PveSizeBytes, CleanValue, RawToken, Lower;
  }

  lemma DiskTokensClean(c: DiskInfo, w: DiskInfo)
    requires CleanOptions(c) && CleanOptions(w)
    ensures forall t | t in RewriteTokens(c, w) :: CleanToken(t)
  {
    hide CleanToken, CleanValue, CleanOptions, TextToken, BoolToken, RawToken, SizeToken;
    OptionParts(c);
    OptionParts(w);
    SizeTokenClean(c);
    ParseIothread(false, EMPTY_INFO);
    TextClean("discard", Or(w.discard, c.discard));
    BoolClean("ssd", OrBool(w.ssd, c.ssd));
    TextClean("aio", Or(w.aio, c.aio));
    RawAreClean(c.rawExtra);
  }

  lemma EfiTokensClean(e: EfiDisk, c: DiskInfo)
    requires CleanOptions(c) && CleanEfi(e)
    ensures forall t | t in EfiRewriteTokens(e, c) :: CleanToken(t)
  {
    hide CleanToken, CleanValue, CleanOptions, TextToken, BoolToken, RawToken, SizeToken, CleanEfi, Lower, KeysWire;
    EfiValuesClean(e);
    OptionParts(c);
    SizeTokenClean(c);
    TextClean("efitype", Or(c.efitype, Lower(e.template)));
    BoolClean("pre-enrolled-keys", OrBool(KeysWire(e.secureBoot), c.preEnrolled));
    RawAreClean(c.rawExtra);
  }

  lemma DiskKeepsExactly(d: Disk, cur: string)
    requires CleanDisk(d) && !IsNewSlot(cur) && DiskPropose(d, cur).Some?
    ensures VolumeId(DiskPropose(d, cur).value) == VolumeId(cur) <==> NamesVolume(cur)
  {
    hide Parse, CleanToken, VolumeId, NamesVolume, CleanOptions, CleanDisk, RewriteTokens, DriveString, OptionsDrift, IsNewSlot;
    ParseClean(cur);
    ParseClean(DriveString(d));
    DiskTokensClean(Parse(cur), Parse(DriveString(d)));
    DiskPool(d);
    RewriteKeepsExactly(cur, RewriteTokens(Parse(cur), Parse(DriveString(d))));
  }

  lemma DiskPool(d: Disk)
    requires CleanDisk(d)
    ensures Parse(DriveString(d)).pool == d.storage && d.storage != ""
  {
    hide Parse, DriveString, DiskBytes, CleanValue, Lower;
    if d.image != "" {
      ParseImageString(d);
    } else {
      ParseAllocString(d);
    }
  }

  /** A create-form value that was never replaced by PVE's report: turning an option on drops the volume. */
  lemma CreateFormIsLost(d: Disk)
    requires CleanDisk(d) && d.image == "" && d.iothread
    ensures var cur := DriveString(d.(iothread := false));
            !IsNewSlot(cur) && DiskPropose(d, cur).Some? && !NamesVolume(cur)
  {
    hide Parse, DiskBytes, CleanToken, DiskOptions, GiBString, CleanValue, Lower, LxcWire.StorageId, LiveDriveRewrite, NumericGiB, PveSizeBytes, Position, IsNewSlot,
         EqualFold;
    var was := d.(iothread := false);
    ParseAllocString(was);
    ParseAllocString(d);
    var g := GiBString(DiskBytes(d.size));
    GiBTokenParses(DiskBytes(d.size), EMPTY_INFO);
    StartClean(d.storage);
    ParseDiskOptions(was, EMPTY_INFO);
    RenderedPosition(d.storage, g, DiskOptions(was));
    NotEmptyToken(g);
  }

  lemma NotEmptyToken(t: string)
    requires CleanToken(t)
    ensures t != ""
  {
  }

  lemma EfiKeepsExactly(e: EfiDisk, cur: string)
    requires CleanEfi(e) && !IsNewSlot(cur) && EfiPropose(e, cur).Some?
    ensures VolumeId(EfiPropose(e, cur).value) == VolumeId(cur) <==> NamesVolume(cur)
  {
    hide Parse, CleanToken, VolumeId, NamesVolume, CleanOptions, CleanEfi, EfiRewriteTokens, EfiTypeDrift, EfiKeysDrift, IsNewSlot;
    ParseClean(cur);
    EfiTokensClean(e, Parse(cur));
    RewriteKeepsExactly(cur, EfiRewriteTokens(e, Parse(cur)));
  }

  lemma MountKeepsExactly(m: Mount, cur: string)
    requires CleanMount(m) && !IsNewSlot(cur) && MountPropose(m, cur).Some?
    ensures VolumeId(MountPropose(m, cur).value) == VolumeId(cur) <==> NamesVolume(cur)
  {
    hide Parse, CleanToken, VolumeId, NamesVolume, CleanOptions, CleanMount, MountTokens, Carried, SizeToken, MountNeeds, IsNewSlot, MountCreateWire;
    var c, tokens := Parse(cur), Split(cur, ',');
    ParseClean(cur);
    CreatePool(m);
    HasStorage(m);
    SizeTokenClean(c);
    MountTokensClean(tokens, m);
    CarriedClean(tokens[1..]);
    RewriteKeepsExactly(cur, SizeToken(c) + MountTokens(tokens, m) + Carried(tokens[1..]));
  }

  lemma HasStorage(m: Mount)
    requires CleanMount(m)
    ensures m.storage != ""
  {
    hide CleanValue;
  }

  // ----- all of drift -----

  /** Over all of a VM's drift: what is written to an occupied data slot stays on the live volume exactly
      when the live value names one the parser can read. */
  lemma VmKeepsExactly(v: Vm.VmSpec, cfg: Config, k: Key)
    requires hide *; Vm.WellFormed(v) && Vm.DataKey(k) && !IsNewSlot(Get(cfg, k)) && k in DriftParams(Vm.OwnedTable(v), cfg)
    ensures VolumeId(DriftParams(Vm.OwnedTable(v), cfg)[k]) == VolumeId(Get(cfg, k)) <==> NamesVolume(Get(cfg, k))
  {
    hide Vm.OwnedTable, Vm.IsDiskSlot, Vm.DiskKey, Vm.FixedEntry, IsNewSlot, VolumeId, NamesVolume, CleanDisk, CleanEfi, DiskPropose, EfiPropose,
         Vm.WellFormed, Get;
    Vm.Origin(v, k);
    if k.Dev? {
      var i :| 0 <= i < |v.disks| && k == Vm.DiskKey(v.disks, i) && Vm.OwnedTable(v)[k] == Entry(DiskF(v.disks[i]), true);
      Vm.DiskIsClean(v, i);
      DiskKeepsExactly(v.disks[i], Get(cfg, k));
    } else {
      Vm.EfiEntry(v);
      Vm.EfiIsClean(v);
      EfiKeepsExactly(v.hw.efi.value, Get(cfg, k));
    }
  }

  /** The same over all of a container's drift, for allocated mount points. */
  lemma LxcKeepsExactly(l: Lxc.LxcSpec, cfg: Config, k: Key)
    requires hide *; Lxc.WellFormed(l) && k in DriftParams(Lxc.OwnedTable(l), cfg) && !IsNewSlot(Get(cfg, k))
    requires k in Lxc.OwnedTable(l) && Lxc.OwnedTable(l)[k].field.MountF?
    ensures VolumeId(DriftParams(Lxc.OwnedTable(l), cfg)[k]) == VolumeId(Get(cfg, k)) <==> NamesVolume(Get(cfg, k))
  {
    hide Lxc.OwnedTable, IsNewSlot, VolumeId, NamesVolume, MountPropose, Lxc.WellFormed, Get, CleanMount, CreateKeys;
    Lxc.TableIsClean(l);
    assert CleanField(Lxc.OwnedTable(l)[k].field);
    MountKeepsExactly(Lxc.OwnedTable(l)[k].field.mount, Get(cfg, k));
  }
}
