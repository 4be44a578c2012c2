/** LXC mount points: the create form, the live-form rewrite that keeps the volume, and host-path
    bind mounts. */
module LxcMounts {
  import opened Text
  import opened Quantity
  import opened Drive
  import opened Devices
  import opened LxcWire

  datatype MountOptions = MountOptions(ro: Option<bool>, backup: Option<bool>, acl: Option<bool>,
                                       quota: Option<bool>, shared: Option<bool>, mountoptions: string)

  const NO_OPTIONS := MountOptions(None, None, None, None, None, "")

  /** An allocated mount point; `bytes` is the parsed size. */
  datatype Mount = Mount(storage: string, bytes: int, mountPoint: string, slot: string, options: Option<MountOptions>)

  datatype Bind = Bind(hostPath: string, mountPoint: string, slot: string, readOnly: Option<bool>)

  /** First token `key=value` of a comma-separated value. */
  function RawValue(tokens: seq<string>, key: string): Option<string> {
    if tokens == [] then None
    else
      var t := TrimSpace(tokens[0]);
      if CutKey(t) == Some(key) then Some(CutValue(t)) else RawValue(tokens[1..], key)
  }

  function RawText(tokens: seq<string>, key: string): string {
    var v := RawValue(tokens, key);
    if v.Some? then v.value else ""
  }

  function RawBool(tokens: seq<string>, key: string, default: bool): bool {
    var v := RawValue(tokens, key);
    if v.Some? then v.value == "1" || v.value == "true" else default
  }

  function Options(m: Mount): MountOptions { if m.options.Some? then m.options.value else NO_OPTIONS }

  function OptionTokens(o: MountOptions): seq<string> {
    BoolToken("ro", o.ro) + BoolToken("backup", o.backup) + BoolToken("acl", o.acl)
    + BoolToken("quota", o.quota) + BoolToken("shared", o.shared) + TextToken("mountoptions", o.mountoptions)
  }

  function Alloc(storage: string, bytes: int): string { Render(storage, GiBString(bytes), []) }

  function MountCreateWire(m: Mount): string {
    Render(m.storage, GiBString(m.bytes), TextToken("mp", m.mountPoint) + OptionTokens(Options(m)))
  }

  predicate StorageChar(c: char) {
    'a' <= c <= 'z' || 'A' <= c <= 'Z' || IsDigit(c) || c == '_' || c == '-'
  }

  /** Does a live mount value have the bind form? */
  predicate IsBind(raw: string) {
    var s := TrimSpace(raw);
    if HasPrefix(s, "/") then true
    else
      var i := IndexOf(s, ':');
      if i == |s| then false
      else
        var pool := TrimSpace(s[..i]);
        pool == "" || exists j | 0 <= j < |pool| :: !StorageChar(pool[j])
  }

  predicate BoolDiffers(want: Option<bool>, live: bool) { want.Some? && want.value != live }

  predicate TextDiffers(want: string, live: string) { want != "" && live != "" && want != live }

  /** Does an owned mount path or option differ from the live value? */
  predicate MountNeeds(tokens: seq<string>, m: Mount) {
    var o := Options(m);
    || TextDiffers(m.mountPoint, RawText(tokens, "mp"))
    || BoolDiffers(o.ro, RawBool(tokens, "ro", false))
    || BoolDiffers(o.backup, RawBool(tokens, "backup", false))
    || BoolDiffers(o.acl, RawBool(tokens, "acl", false))
    || BoolDiffers(o.quota, RawBool(tokens, "quota", false))
    || BoolDiffers(o.shared, RawBool(tokens, "shared", false))
    || TextDiffers(o.mountoptions, RawText(tokens, "mountoptions"))
  }

  const REWRITTEN: set<string> := {"mp", "ro", "backup", "acl", "quota", "shared", "mountoptions", "size"}

  /** The live tokens after the volume whose key the rewrite does not write itself. */
  function Carried(tokens: seq<string>): (r: seq<string>)
    ensures forall t | t in r :: t != "" && Trimmed(t) && (TokenKey(t) == "" || TokenKey(t) !in REWRITTEN)
    ensures (forall t | t in tokens :: ',' !in t) ==> forall t | t in r :: ',' !in t
  {
    if tokens == [] then []
    else
      var t, rest := TrimSpace(tokens[0]), Carried(tokens[1..]);
      if t == "" || (TokenKey(t) != "" && TokenKey(t) in REWRITTEN) then rest else [t] + rest
  }

  function MountTokens(tokens: seq<string>, m: Mount): seq<string> {
    TextToken("mp", Or(m.mountPoint, RawText(tokens, "mp"))) + OptionTokens(Options(m))
  }

  function MountRewrite(raw: string, m: Mount): string {
    var cur, tokens := Parse(raw), Split(raw, ',');
    Render(cur.pool, cur.volumeName, SizeToken(cur) + MountTokens(tokens, m) + Carried(tokens[1..]))
  }

  // ----- the rewrite keeps the volume -----

  /** Parsing tokens that do not set a size leaves volume and size alone. */
  lemma {:induction false} KeepsVolume(tokens: seq<string>, out: DiskInfo)
    requires forall t | t in tokens :: TokenKey(TrimSpace(t)) != "size"
    ensures var r := ParseTokens(tokens, false, out);
            r.pool == out.pool && r.volumeName == out.volumeName && r.size == out.size && r.sizeToken == out.sizeToken
  {
    if tokens != [] {
      var t := TrimSpace(tokens[0]);
      NotSizeKey(TokenKey(t));
      KeepsVolume(tokens[1..], ParseToken(tokens[0], false, out));
    }
  }

  lemma NotSizeKey(k: string)
    requires k != "size"
    ensures KeyOf(k) != SizeKey
  {
  }

  predicate CleanMount(m: Mount) {
    StorageId(m.storage) && m.bytes >= 0 && CleanValue(m.mountPoint) && CleanValue(Options(m).mountoptions)
  }

  lemma TextTokenClean(k: string, v: string)
    requires CleanKey(k) && CleanValue(v)
    ensures forall t | t in TextToken(k, v) :: CleanToken(t) && TokenKey(t) == k && CutKey(t) == Some(k) && CutValue(t) == v
  {
    if v != "" {
      ParsePair(k, v);
    }
  }

  lemma BoolTokenClean(k: string, v: Option<bool>)
    requires CleanKey(k)
    ensures forall t | t in BoolToken(k, v) :: CleanToken(t) && TokenKey(t) == k && CutKey(t) == Some(k)
    ensures v.Some? ==> CutValue(BoolToken(k, v)[0]) == BoolWire(v.value)
  {
    if v.Some? {
      ParsePair(k, BoolWire(v.value));
    }
  }

  lemma OptionTokensClean(o: MountOptions)
    requires CleanValue(o.mountoptions)
    ensures forall t | t in OptionTokens(o) :: CleanToken(t) && TokenKey(t) in REWRITTEN - {"size", "mp"} && CutKey(t) == Some(TokenKey(t))
  {
    hide CleanToken, TokenKey, CutKey, BoolToken, TextToken, CutValue;
    BoolTokenClean("ro", o.ro);
    BoolTokenClean("backup", o.backup);
    BoolTokenClean("acl", o.acl);
    BoolTokenClean("quota", o.quota);
    BoolTokenClean("shared", o.shared);
    TextTokenClean("mountoptions", o.mountoptions);
  }

  lemma RawTextClean(tokens: seq<string>, key: string)
    requires forall t | t in tokens :: ',' !in t
    ensures CleanValue(RawText(tokens, key))
  {
    hide CutKey, CutValue, TrimSpace, CleanValue;
    NoValue();
    if tokens != [] {
      CutClean(tokens[0]);
      RawTextClean(tokens[1..], key);
    }
  }

  lemma NoValue()
    ensures CleanValue("")
  {
  }

  lemma CutClean(token: string)
    requires ',' !in token
    ensures CleanValue(CutValue(TrimSpace(token)))
  {
    var t := TrimSpace(token);
    var i := IndexOf(t, '=');
    if i < |t| {
      var v := t[i + 1..];
      assert forall c | c in v :: c in t;
      if v != "" { assert v[|v| - 1] == t[|t| - 1]; }
    }
  }

  lemma CarriedClean(tokens: seq<string>)
    requires forall t | t in tokens :: ',' !in t
    ensures forall t | t in Carried(tokens) :: CleanToken(t) && TokenKey(TrimSpace(t)) != "size"
  {
  }

  lemma MountTokensClean(tokens: seq<string>, m: Mount)
    requires CleanMount(m) && forall t | t in tokens :: ',' !in t
    ensures forall t | t in MountTokens(tokens, m) :: CleanToken(t) && TokenKey(TrimSpace(t)) != "size"
  {
    hide CleanToken, TokenKey, CutKey, OptionTokens, TextToken, RawText, CutValue;
    RawTextClean(tokens, "mp");
    TextTokenClean("mp", Or(m.mountPoint, RawText(tokens, "mp")));
    OptionTokensClean(Options(m));
    forall t | t in MountTokens(tokens, m) ensures TrimSpace(t) == t {
      CleanTokenTrims(t);
    }
  }

  lemma CleanTokenTrims(t: string)
    requires CleanToken(t)
    ensures TrimSpace(t) == t && ',' !in t
  {
  }

  lemma RewriteBody(cur: DiskInfo, rest: seq<string>)
    requires CleanOptions(cur) && CleanPool(cur.pool) && cur.volumeName != ""
    requires forall t | t in rest :: CleanToken(t) && TokenKey(TrimSpace(t)) != "size"
    ensures var s := Render(cur.pool, cur.volumeName, SizeToken(cur) + rest);
            && Trimmed(s) && Parse(s).pool == cur.pool && Parse(s).volumeName == cur.volumeName
            && Parse(s).size == cur.size && Parse(s).sizeToken == cur.sizeToken
            && Split(Rest(s), ',') == [cur.volumeName] + SizeToken(cur) + rest && Pool(s) == cur.pool
  {
    hide PveSizeBytes, IsDecimal, IsPositive, DecimalTimes, CleanToken, VolumeName, ParseToken, TokenKey, Parse, Render, ParseTokens, Pool, Rest, SizeToken, Lower;
    var start := EMPTY_INFO.(pool := cur.pool);
    var named := start.(volumeName := cur.volumeName);
    VolumeNameParses(cur.volumeName, start);
    VolumeNameClean(cur.volumeName);
    ParseSize(cur, named);
    ParseRender(cur.pool, cur.volumeName, SizeToken(cur) + rest);
    ParseTokensConcat(SizeToken(cur), rest, named);
    KeepsVolume(rest, ParseTokens(SizeToken(cur), false, named));
    assert [cur.volumeName] + (SizeToken(cur) + rest) == [cur.volumeName] + SizeToken(cur) + rest;
  }

  /** What the rewrite of a report-form allocated mount reads back as: the live pool, volume and
      size, whatever the options do. */
  lemma MountRewriteKeepsVolume(raw: string, m: Mount)
    requires ReportForm(raw) && CleanMount(m)
    ensures var cur, r := Parse(raw), Parse(MountRewrite(raw, m));
            r.pool == cur.pool && r.volumeName == cur.volumeName && r.size == cur.size && r.sizeToken == cur.sizeToken
  {
    hide MountTokens, Carried, CleanToken, Render, Parse, SizeToken, TokenKey, CleanOptions, CleanMount;
    var cur, tokens := Parse(raw), Split(raw, ',');
    ParseClean(raw);
    var rest := MountTokens(tokens, m) + Carried(tokens[1..]);
    MountTokensClean(tokens, m);
    CarriedClean(tokens[1..]);
    RewriteBody(cur, rest);
    assert SizeToken(cur) + MountTokens(tokens, m) + Carried(tokens[1..]) == SizeToken(cur) + rest;
  }

  lemma VolumeNameClean(v: string)
    requires VolumeName(v)
    ensures CleanToken(v)
  {
  }

  // ----- after the rewrite nothing is needed any more -----

  lemma {:induction false} RawValueSkips(a: seq<string>, b: seq<string>, key: string)
    requires forall t | t in a :: CutKey(TrimSpace(t)) != Some(key)
    ensures RawValue(a + b, key) == RawValue(b, key)
  {
    if a == [] {
      assert a + b == b;
    } else {
      assert (a + b)[1..] == a[1..] + b;
      RawValueSkips(a[1..], b, key);
    }
  }

  lemma RawBoolFound(before: seq<string>, key: string, want: Option<bool>, after: seq<string>, default: bool)
    requires CleanKey(key)
    requires forall t | t in before :: CutKey(TrimSpace(t)) != Some(key)
    ensures want.Some? ==> RawBool(before + BoolToken(key, want) + after, key, default) == want.value
  {
    if want.Some? {
      BoolTokenClean(key, want);
      var t := BoolToken(key, want)[0];
      CleanTokenTrims(t);
      assert before + BoolToken(key, want) + after == before + ([t] + after);
      RawValueSkips(before, [t] + after, key);
    }
  }

  lemma RawTextFound(before: seq<string>, key: string, v: string, after: seq<string>)
    requires CleanKey(key) && CleanValue(v)
    requires forall t | t in before :: CutKey(TrimSpace(t)) != Some(key)
    ensures v != "" ==> RawText(before + TextToken(key, v) + after, key) == v
  {
    if v != "" {
      TextTokenClean(key, v);
      var t := TextToken(key, v)[0];
      CleanTokenTrims(t);
      assert before + TextToken(key, v) + after == before + ([t] + after);
      RawValueSkips(before, [t] + after, key);
    }
  }

  /** Tokens that start with material not owned by the mount, then the written mount path and
      options: every owned piece is found with its wanted value. */
  lemma WrittenMount(head: seq<string>, mp: string, m: Mount, tail: seq<string>)
    requires CleanMount(m) && CleanValue(mp) && (m.mountPoint != "" ==> mp == m.mountPoint)
    requires OwnsNone(head)
    ensures !MountNeeds(head + TextToken("mp", mp) + OptionTokens(Options(m)) + tail, m)
  {
    hide CleanToken, TokenKey, CutKey, BoolToken, TextToken, CutValue, RawValue, RawText, RawBool, CleanMount, TrimSpace, CleanValue,
         OwnsNone, OptionTokens;
    CleanOptionText(m);
    WrittenTexts(head, mp, Options(m), tail);
    WrittenFlags(head, mp, Options(m), tail);
  }

  /** No token sets an option that is written after it. */
  predicate OwnsNone(head: seq<string>) {
    forall t | t in head :: CutKey(TrimSpace(t)).None? || CutKey(TrimSpace(t)).value !in REWRITTEN - {"size"}
  }

  /** The text options are read back from what is written. */
  lemma WrittenTexts(head: seq<string>, mp: string, o: MountOptions, tail: seq<string>)
    requires CleanValue(mp) && CleanValue(o.mountoptions) && OwnsNone(head)
    ensures var all := head + TextToken("mp", mp) + OptionTokens(o) + tail;
            && (mp != "" ==> RawText(all, "mp") == mp)
            && (o.mountoptions != "" ==> RawText(all, "mountoptions") == o.mountoptions)
  {
    hide CleanToken, TokenKey, CutKey, BoolToken, TextToken, CutValue, RawValue, RawText, RawBool, TrimSpace, CleanValue;
    var flags := BoolToken("ro", o.ro) + BoolToken("backup", o.backup) + BoolToken("acl", o.acl)
                 + BoolToken("quota", o.quota) + BoolToken("shared", o.shared);
    var text := TextToken("mountoptions", o.mountoptions);
    assert head + TextToken("mp", mp) + OptionTokens(o) + tail == head + TextToken("mp", mp) + (flags + text + tail);
    assert head + TextToken("mp", mp) + OptionTokens(o) + tail == (head + TextToken("mp", mp) + flags) + text + tail;
    Skips(mp, o);
    RawTextFound(head, "mp", mp, flags + text + tail);
    RawTextFound(head + TextToken("mp", mp) + flags, "mountoptions", o.mountoptions, tail);
  }

  /** The flags are read back from what is written. */
  lemma WrittenFlags(head: seq<string>, mp: string, o: MountOptions, tail: seq<string>)
    requires CleanValue(mp) && OwnsNone(head)
    ensures var all := head + TextToken("mp", mp) + OptionTokens(o) + tail;
            && (o.ro.Some? ==> RawBool(all, "ro", false) == o.ro.value)
            && (o.backup.Some? ==> RawBool(all, "backup", false) == o.backup.value)
            && (o.acl.Some? ==> RawBool(all, "acl", false) == o.acl.value)
            && (o.quota.Some? ==> RawBool(all, "quota", false) == o.quota.value)
            && (o.shared.Some? ==> RawBool(all, "shared", false) == o.shared.value)
  {
    hide CleanToken, TokenKey, CutKey, BoolToken, TextToken, CutValue, RawValue, RawText, RawBool, TrimSpace, CleanValue, OptionTokens;
    var s1 := head + TextToken("mp", mp);
    var s2 := s1 + BoolToken("ro", o.ro);
    var s3 := s2 + BoolToken("backup", o.backup);
    var s4 := s3 + BoolToken("acl", o.acl);
    var s5 := s4 + BoolToken("quota", o.quota);
    var e6 := TextToken("mountoptions", o.mountoptions) + tail;
    var e5 := BoolToken("shared", o.shared) + e6;
    var e4 := BoolToken("quota", o.quota) + e5;
    var e3 := BoolToken("acl", o.acl) + e4;
    var e2 := BoolToken("backup", o.backup) + e3;
    Skips(mp, o);
    Layout(head, mp, o, tail);
    RawBoolFound(s1, "ro", o.ro, e2, false);
    RawBoolFound(s2, "backup", o.backup, e3, false);
    RawBoolFound(s3, "acl", o.acl, e4, false);
    RawBoolFound(s4, "quota", o.quota, e5, false);
    RawBoolFound(s5, "shared", o.shared, e6, false);
  }

  /** The written tokens seen from each option: what stands before it, itself, what follows. */
  lemma Layout(head: seq<string>, mp: string, o: MountOptions, tail: seq<string>)
    ensures var s1 := head + TextToken("mp", mp);
            var s2 := s1 + BoolToken("ro", o.ro);
            var s3 := s2 + BoolToken("backup", o.backup);
            var s4 := s3 + BoolToken("acl", o.acl);
            var s5 := s4 + BoolToken("quota", o.quota);
            var e6 := TextToken("mountoptions", o.mountoptions) + tail;
            var e5 := BoolToken("shared", o.shared) + e6;
            var e4 := BoolToken("quota", o.quota) + e5;
            var e3 := BoolToken("acl", o.acl) + e4;
            var e2 := BoolToken("backup", o.backup) + e3;
            var all := head + TextToken("mp", mp) + OptionTokens(o) + tail;
            && all == s1 + BoolToken("ro", o.ro) + e2
            && all == s2 + BoolToken("backup", o.backup) + e3 == s3 + BoolToken("acl", o.acl) + e4
            && all == s4 + BoolToken("quota", o.quota) + e5 == s5 + BoolToken("shared", o.shared) + e6
  {
    hide TextToken, BoolToken;
  }

  lemma CleanOptionText(m: Mount)
    requires CleanMount(m)
    ensures CleanValue(Options(m).mountoptions)
  {
    hide CleanValue, StorageId;
  }

  lemma Skips(mp: string, o: MountOptions)
    requires CleanValue(mp)
    ensures forall t | t in TextToken("mp", mp) :: CutKey(TrimSpace(t)) == Some("mp")
    ensures forall t | t in BoolToken("ro", o.ro) :: CutKey(TrimSpace(t)) == Some("ro")
    ensures forall t | t in BoolToken("backup", o.backup) :: CutKey(TrimSpace(t)) == Some("backup")
    ensures forall t | t in BoolToken("acl", o.acl) :: CutKey(TrimSpace(t)) == Some("acl")
    ensures forall t | t in BoolToken("quota", o.quota) :: CutKey(TrimSpace(t)) == Some("quota")
    ensures forall t | t in BoolToken("shared", o.shared) :: CutKey(TrimSpace(t)) == Some("shared")
  {
    hide CutKey, TextToken, CutValue, BoolToken;
    TextTokenClean("mp", mp);
    BoolTokenClean("ro", o.ro);
    BoolTokenClean("backup", o.backup);
    BoolTokenClean("acl", o.acl);
    BoolTokenClean("quota", o.quota);
    BoolTokenClean("shared", o.shared);
  }

  // ----- drift of an allocated mount -----

  /** The live volume differs from the wanted pool or size: reported, never written. */
  predicate StorageDiffers(cur: DiskInfo, want: DiskInfo) {
    cur.pool != want.pool || (want.size.Some? && cur.size.Some? && cur.size != want.size)
  }

  predicate MountBlocked(m: Mount, cur: string) {
    !IsNewSlot(cur) && (IsBind(cur) || StorageDiffers(Parse(cur), Parse(MountCreateWire(m))))
  }

  function MountPropose(m: Mount, cur: string): Option<string> {
    if IsNewSlot(cur) then Some(MountCreateWire(m))
    else if MountBlocked(m, cur) then None
    else if MountNeeds(Split(cur, ','), m) then Some(MountRewrite(cur, m))
    else None
  }

  lemma RenderSplit(pool: string, first: string, tokens: seq<string>)
    requires ',' !in pool && CleanToken(first) && forall t | t in tokens :: CleanToken(t)
    ensures Split(Render(pool, first, tokens), ',') == [pool + ":" + first] + tokens
  {
    var all := [pool + ":" + first] + tokens;
    assert all[1..] == tokens && ([first] + tokens)[1..] == tokens;
    SplitJoin(all, ',');
    assert Join(all, ",") == Render(pool, first, tokens);
  }

  lemma GiBClean(bytes: int)
    ensures CleanToken(GiBString(bytes)) && '=' !in GiBString(bytes)
  {
    hide GiBString;
    assert |GiBString(bytes)| > 0;
  }

  lemma VolumeTokenKey(pool: string, first: string)
    requires StorageId(pool) && CleanToken(first)
    ensures var k := CutKey(TrimSpace(pool + ":" + first)); k.None? || k.value !in REWRITTEN
  {
    var t := pool + ":" + first;
    assert t[|t| - 1] == first[|first| - 1] && t[0] == pool[0];
    assert Trimmed(t);
    var i := IndexOf(t, '=');
    if i < |t| {
      assert t[|pool|] == ':' && '=' !in pool;
      assert '=' !in pool + ":";
      assert t[..|pool| + 1] == pool + ":";
      assert t[..i][|pool|] == ':';
      assert forall k | k in REWRITTEN :: ':' !in k;
    }
  }

  lemma WrittenBodyClean(m: Mount, mp: string)
    requires CleanMount(m) && CleanValue(mp)
    ensures forall t | t in TextToken("mp", mp) + OptionTokens(Options(m)) :: CleanToken(t)
  {
    hide CleanToken, CutKey, OptionTokens, TextToken, CutValue, TokenKey;
    OptionTokensClean(Options(m));
    TextTokenClean("mp", mp);
  }

  lemma FrontSkipped(pool: string, first: string, head: seq<string>)
    requires StorageId(pool) && CleanToken(first)
    requires forall t | t in head :: CleanToken(t) && CutKey(t) == Some("size")
    ensures forall t | t in [pool + ":" + first] + head ::
              CutKey(TrimSpace(t)).None? || CutKey(TrimSpace(t)).value !in REWRITTEN - {"size"}
  {
    hide CutKey;
    VolumeTokenKey(pool, first);
    forall t | t in head ensures TrimSpace(t) == t {
      CleanTokenTrims(t);
    }
  }

  /** A value written for a mount needs nothing further. */
  lemma RenderedMountSettles(m: Mount, first: string, head: seq<string>, mp: string, tail: seq<string>)
    requires CleanMount(m) && CleanToken(first) && CleanValue(mp) && (m.mountPoint != "" ==> mp == m.mountPoint)
    requires forall t | t in head :: CleanToken(t) && CutKey(t) == Some("size")
    requires forall t | t in tail :: CleanToken(t)
    ensures var s := Render(m.storage, first, head + (TextToken("mp", mp) + OptionTokens(Options(m))) + tail);
            && !MountNeeds(Split(s, ','), m) && !IsNewSlot(s)
  {
    hide CleanToken, CutKey, OptionTokens, TextToken, MountNeeds, RawText, CleanValue, TokenKey, IsNewSlot, CutValue, Split, TrimSpace, Join, Pool, Rest, Parse, ParseTokens;
    var body := TextToken("mp", mp) + OptionTokens(Options(m));
    var tokens := head + body + tail;
    WrittenBodyClean(m, mp);
    StorageClean(m.storage);
    ParseRender(m.storage, first, tokens);
    StorageIsLive(m.storage, Join([first] + tokens, ","));
    RenderSplit(m.storage, first, tokens);
    FrontSkipped(m.storage, first, head);
    var front := [m.storage + ":" + first] + head;
    WrittenMount(front, mp, m, tail);
    assert [m.storage + ":" + first] + tokens == front + TextToken("mp", mp) + OptionTokens(Options(m)) + tail;
  }

  lemma StorageClean(pool: string)
    requires StorageId(pool)
    ensures CleanPool(pool) && ',' !in pool
  {
    assert Trimmed(pool + ":" + "x");
    StorageIsLive(pool, "x");
  }

  lemma CreatedMountSettles(m: Mount)
    requires CleanMount(m)
    ensures MountPropose(m, MountCreateWire(m)).None?
    ensures !IsNewSlot(MountCreateWire(m))
  {
    hide MountNeeds, Render, Parse, IsBind, IsNewSlot, CleanToken, OptionTokens, TextToken;
    GiBClean(m.bytes);
    RenderedMountSettles(m, GiBString(m.bytes), [], m.mountPoint, []);
    var body := TextToken("mp", m.mountPoint) + OptionTokens(Options(m));
    assert [] + body + [] == body;
  }

  lemma SizeTokenClean(cur: DiskInfo)
    requires CleanOptions(cur)
    ensures forall t | t in SizeToken(cur) :: CleanToken(t) && CutKey(t) == Some("size")
  {
    if cur.size.Some? {
      ParsePair("size", cur.sizeToken);
    }
  }

  lemma RewrittenMountSettles(m: Mount, raw: string)
    requires CleanMount(m) && ReportForm(raw) && !IsNewSlot(raw) && !MountBlocked(m, raw)
    ensures MountPropose(m, MountRewrite(raw, m)).None?
    ensures !IsNewSlot(MountRewrite(raw, m))
  {
    hide MountNeeds, Render, Parse, IsBind, IsNewSlot, CleanToken, OptionTokens, TextToken, RawText, SizeToken, Carried, CutKey, CleanOptions, CleanValue, CleanPool, TokenKey, VolumeName;
    var cur, tokens := Parse(raw), Split(raw, ',');
    ParseClean(raw);
    VolumeNameIsClean(cur);
    RawTextClean(tokens, "mp");
    SizeTokenClean(cur);
    CarriedClean(tokens[1..]);
    CreatePool(m);
    var mp := Or(m.mountPoint, RawText(tokens, "mp"));
    RenderedMountSettles(m, cur.volumeName, SizeToken(cur), mp, Carried(tokens[1..]));
    MountRewriteKeepsVolume(raw, m);
  }

  lemma VolumeNameIsClean(cur: DiskInfo)
    requires CleanOptions(cur) && cur.volumeName != ""
    ensures CleanToken(cur.volumeName)
  {
  }

  lemma CreatePool(m: Mount)
    requires CleanMount(m)
    ensures Parse(MountCreateWire(m)).pool == m.storage
  {
    hide CleanToken, OptionTokens, TextToken, CutKey, TokenKey, CutValue;
    GiBClean(m.bytes);
    OptionTokensClean(Options(m));
    TextTokenClean("mp", m.mountPoint);
    StorageClean(m.storage);
    var tokens := TextToken("mp", m.mountPoint) + OptionTokens(Options(m));
    ParseRender(m.storage, GiBString(m.bytes), tokens);
    ParseTokenPool(GiBString(m.bytes), EMPTY_INFO.(pool := m.storage));
    ParsePool(tokens, ParseToken(GiBString(m.bytes), true, EMPTY_INFO.(pool := m.storage)));
  }

  lemma ParseTokenPool(t: string, out: DiskInfo)
    ensures ParseToken(t, true, out).pool == out.pool && ParseToken(t, false, out).pool == out.pool
  {
  }

  lemma {:induction false} ParsePool(tokens: seq<string>, out: DiskInfo)
    ensures ParseTokens(tokens, false, out).pool == out.pool
  {
    if tokens != [] {
      ParseTokenPool(tokens[0], out);
      ParsePool(tokens[1..], ParseToken(tokens[0], false, out));
    }
  }

  // ----- bind mounts -----

  function BindWire(b: Bind): string {
    Join([b.hostPath, "mp" + "=" + b.mountPoint] + BoolToken("ro", b.readOnly), ",")
  }

  function TrimSlashes(s: string): string {
    if s != "" && s[|s| - 1] == '/' then TrimSlashes(s[..|s| - 1]) else s
  }

  datatype LiveBind = LiveBind(host: string, guest: string, ro: Option<bool>)

  function BindToken(token: string, out: LiveBind): LiveBind {
    var t := TrimSpace(token);
    if CutKey(t) == Some("mp") then out.(guest := TrimSpace(CutValue(t)))
    else if CutKey(t) == Some("ro") then out.(ro := Some(CutValue(t) == "1" || CutValue(t) == "true"))
    else if t == "ro" then out.(ro := Some(true))
    else out
  }

  function BindTokens(tokens: seq<string>, out: LiveBind): LiveBind {
    if tokens == [] then out else BindTokens(tokens[1..], BindToken(tokens[0], out))
  }

  function ParseBind(raw: string): LiveBind {
    var tokens := Split(TrimSpace(raw), ',');
    var out := BindTokens(tokens[1..], LiveBind(TrimSpace(tokens[0]), "", None));
    var colon := IndexOf(out.host, ':');
    if out.guest == "" && colon < |out.host| && HasPrefix(out.host[colon + 1..], "/")
    then LiveBind(TrimSpace(out.host[..colon]), TrimSpace(out.host[colon + 1..]), out.ro)
    else out
  }

  /** A live volume, or a bind of another host directory: reported, never written. */
  predicate BindBlocked(b: Bind, cur: string) {
    !IsNewSlot(cur)
    && (!IsBind(cur)
        || (ParseBind(cur).host != "" && TrimSlashes(ParseBind(cur).host) != TrimSlashes(b.hostPath)))
  }

  predicate BindNeeds(b: Bind, live: LiveBind) {
    || TextDiffers(b.mountPoint, live.guest)
    || BoolDiffers(b.readOnly, live.ro == Some(true))
  }

  function BindPropose(b: Bind, cur: string): Option<string> {
    if IsNewSlot(cur) then Some(BindWire(b))
    else if BindBlocked(b, cur) then None
    else if BindNeeds(b, ParseBind(cur)) then Some(BindWire(b))
    else None
  }

  predicate CleanBind(b: Bind) {
    && HasPrefix(b.hostPath, "/") && CleanToken(b.hostPath)
    && HasPrefix(b.mountPoint, "/") && CleanToken(b.mountPoint)
  }

  /** The written bind value is read back as the bind it was written for. */
  lemma BindRoundTrip(b: Bind)
    requires CleanBind(b)
    ensures ParseBind(BindWire(b)) == LiveBind(b.hostPath, b.mountPoint, b.readOnly)
    ensures !IsNewSlot(BindWire(b)) && IsBind(BindWire(b))
  {
    hide CutKey, CutValue, BoolToken, IndexOf, TokenKey, TokenValue, Split, TrimSpace, BindTokens;
    var mp := "mp" + "=" + b.mountPoint;
    var tokens := [b.hostPath, mp] + BoolToken("ro", b.readOnly);
    BindPair("mp", b.mountPoint);
    BoolTokenClean("ro", b.readOnly);
    forall t | t in tokens ensures CleanToken(t) {
    }
    JoinTail(tokens);
    SplitJoin(tokens, ',');
    var s := BindWire(b);
    JoinHead(tokens);
    assert s[0] == '/';
    assert tokens[1..] == [mp] + BoolToken("ro", b.readOnly);
    BindTokensTwo(b, mp, LiveBind(b.hostPath, "", None));
  }

  lemma BindPair(k: string, v: string)
    requires CleanKey(k) && CleanValue(v)
    ensures CutKey(k + "=" + v) == Some(k) && CutValue(k + "=" + v) == v && CleanToken(k + "=" + v)
  {
    ParsePair(k, v);
  }

  lemma JoinHead(tokens: seq<string>)
    requires tokens != [] && tokens[0] != ""
    ensures Join(tokens, ",") != "" && Join(tokens, ",")[0] == tokens[0][0]
  {
  }

  lemma BindTokensTwo(b: Bind, mp: string, out: LiveBind)
    requires CleanBind(b) && out.ro.None? && mp == "mp" + "=" + b.mountPoint
    ensures BindTokens([mp] + BoolToken("ro", b.readOnly), out) == out.(guest := b.mountPoint, ro := b.readOnly)
  {
    hide CutKey, CutValue, IndexOf, TokenKey, TokenValue;
    BindPair("mp", b.mountPoint);
    var next := out.(guest := b.mountPoint);
    assert BindToken(mp, out) == next;
    assert ([mp] + BoolToken("ro", b.readOnly))[1..] == BoolToken("ro", b.readOnly);
    if b.readOnly.Some? {
      BindPair("ro", BoolWire(b.readOnly.value));
      var ro := "ro" + "=" + BoolWire(b.readOnly.value);
      assert BindToken(ro, next) == next.(ro := b.readOnly);
      assert BindTokens([ro][1..], next.(ro := b.readOnly)) == next.(ro := b.readOnly);
    }
  }

  lemma WrittenBindSettles(b: Bind)
    requires CleanBind(b)
    ensures BindPropose(b, BindWire(b)).None?
    ensures !IsNewSlot(BindWire(b))
  {
    BindRoundTrip(b);
  }
}
