/** VM data disks and the EFI vars disk: create form, PVE's report of it, and the data-loss guard. */
module VmDrives {
  import opened Text
  import opened Quantity
  import opened Drive
  import opened Devices
  import opened LxcWire

  /** A manifest disk after slot defaulting; an image-seeded disk takes its size from the image. */
  datatype Disk = Disk(slot: string, storage: string, size: string, controller: string, iothread: bool,
                       image: string, imageVolid: string, discard: string, ssd: Option<bool>, aio: string)

  function DiskBytes(size: string): int {
    var b := Bytes(size);
    if b.Some? then b.value else 0
  }

  function IothreadToken(on: bool): seq<string> { if on then ["iothread=1"] else [] }

  function DiskOptions(d: Disk): seq<string> {
    IothreadToken(d.iothread) + TextToken("discard", Lower(d.discard)) + BoolToken("ssd", d.ssd) + TextToken("aio", Lower(d.aio))
  }

  function ImageVolid(d: Disk): string { if d.imageVolid != "" then d.imageVolid else d.image }

  /** The full create-form drive string. */
  function DriveString(d: Disk): string {
    if d.image != "" then Render(d.storage, "0", ["import-from" + "=" + ImageVolid(d)] + DiskOptions(d))
    else Render(d.storage, GiBString(DiskBytes(d.size)), DiskOptions(d))
  }

  predicate CleanDisk(d: Disk) {
    && StorageId(d.storage)
    && Lower(d.discard) in {"", "ignore", "on"}
    && Lower(d.aio) in {"", "native", "threads", "io_uring"}
    && (if d.image != "" then CleanValue(ImageVolid(d)) else DiskBytes(d.size) > 0)
  }

  /** Pool or size differs from the live volume: reported, never written. */
  predicate DiskBlocked(d: Disk, cur: string) {
    var c, w := Parse(cur), Parse(DriveString(d));
    !IsNewSlot(cur) && (c.pool != w.pool || (w.size.Some? && c.size.Some? && c.size != w.size))
  }

  function DiskPropose(d: Disk, cur: string): Option<string> {
    if IsNewSlot(cur) then Some(DriveString(d))
    else if DiskBlocked(d, cur) then None
    else if OptionsDrift(Parse(cur), Parse(DriveString(d))) then Some(LiveDriveRewrite(Parse(cur), Parse(DriveString(d))))
    else None
  }

  // ----- PVE's report of a create-form drive -----

  predicate NumericGiB(s: string) {
    s != "" && (forall i | 0 <= i < |s| :: IsDigit(s[i]) || s[i] == '.')
    && '.' !in s[if IndexOf(s, '.') < |s| then IndexOf(s, '.') + 1 else |s|..]
  }

  function VolumeOf(id: int): string { "vm-" + Itoa(id) + "-disk-0" }

  /** What PVE reports after allocating a create-form drive; anything else is kept verbatim. */
  function NormalizeDrive(id: int, val: string): string {
    var ci := IndexOf(val, ':');
    if !(0 < ci < |val|) then val
    else
      var pool, rest := val[..ci], val[ci + 1..];
      if HasPrefix(rest, "0,import-from=") then
        var tail := rest[14..];
        pool + ":" + VolumeOf(id) + ",size=3G" + tail[IndexOf(tail, ',')..]
      else
        var j := IndexOf(rest, ',');
        if !NumericGiB(rest[..j]) then val
        else pool + ":" + VolumeOf(id) + rest[j..] + ",size=" + rest[..j] + "G"
  }

  /** What the slot holds after a create-form write: the value itself or PVE's report of it. */
  predicate Stored(id: int, val: string, held: string) {
    held == val || held == NormalizeDrive(id, val)
  }

  // ----- option tokens are read back -----

  function WithOptions(d: Disk, out: DiskInfo): DiskInfo {
    out.(iothread := d.iothread, discard := Lower(d.discard), ssd := d.ssd, aio := Lower(d.aio))
  }

  predicate NoOptions(out: DiskInfo) {
    !out.iothread && out.discard == "" && out.ssd.None? && out.aio == ""
  }

  lemma OptionValuesClean(d: Disk)
    requires CleanDisk(d)
    ensures CleanValue(Lower(d.discard)) && CleanValue(Lower(d.aio))
    ensures Lower(Lower(d.discard)) == Lower(d.discard) && Lower(Lower(d.aio)) == Lower(d.aio)
  {
    hide Lower, StorageId, CleanValue, DiskBytes;
    LowerIdempotent(d.discard);
    LowerIdempotent(d.aio);
    OptionWordsClean();
  }

  lemma OptionWordsClean()
    ensures CleanValue("") && CleanValue("ignore") && CleanValue("on") && CleanValue("native") && CleanValue("threads") && CleanValue("io_uring")
  {
  }

  lemma ParseDiskOptions(d: Disk, out: DiskInfo)
    requires CleanDisk(d) && NoOptions(out)
    ensures ParseTokens(DiskOptions(d), false, out) == WithOptions(d, out)
    ensures forall t | t in DiskOptions(d) :: CleanToken(t)
  {
    hide CleanToken, TextToken, BoolToken, CleanValue, Lower, CleanDisk;
    OptionValuesClean(d);
    var t1, t2 := IothreadToken(d.iothread), TextToken("discard", Lower(d.discard));
    var t3, t4 := BoolToken("ssd", d.ssd), TextToken("aio", Lower(d.aio));
    var o1 := out.(iothread := d.iothread);
    var o2 := o1.(discard := Lower(d.discard));
    var o3 := o2.(ssd := d.ssd);
    ParseIothread(d.iothread, out);
    ParseText("discard", Lower(d.discard), o1);
    ParseBool("ssd", d.ssd, o2);
    ParseText("aio", Lower(d.aio), o3);
    ParseTokensConcat(t1 + t2 + t3, t4, out);
    ParseTokensConcat(t1 + t2, t3, out);
    ParseTokensConcat(t1, t2, out);
  }

  lemma GiBChars(bytes: int)
    ensures CleanToken(GiBString(bytes)) && CleanValue(GiBString(bytes) + "G") && '=' !in GiBString(bytes)
    ensures NumericGiB(GiBString(bytes))
  {
    hide GiBString, IsDecimal, NumericGiB;
    DecimalNumeric(GiBString(bytes));
    assert |GiBString(bytes)| > 0;
  }

  lemma DecimalToken(g: string, bytes: int, out: DiskInfo)
    requires CleanToken(g) && '=' !in g && IsDecimal(g) && IsPositive(g) && DecimalTimes(g, GIB) == bytes
    ensures ParseToken(g, true, out) == out.(size := Some(bytes), sizeToken := g)
  {
    hide ParseOption, DecimalTimes, IsPositive, IsDecimal;
    IndexOfAbsent(g, '=');
  }

  /** A GiB number stands for its bytes both after the pool and, with a G, as a size token. */
  lemma GiBTokenParses(bytes: int, out: DiskInfo)
    requires bytes > 0
    ensures var g := GiBString(bytes);
            && ParseToken(g, true, out) == out.(size := Some(bytes), sizeToken := g)
            && CleanToken(g) && CleanValue(g + "G") && NumericGiB(g)
    ensures PveSizeBytes(GiBString(bytes) + "G") == Some(bytes)
  {
    hide ParseToken, DecimalTimes, IsPositive, GiBString, IsDecimal, NumericGiB, PveSizeBytes, CleanToken, CleanValue;
    var g := GiBString(bytes);
    GiBStringExact(bytes);
    GiBChars(bytes);
    DecimalToken(g, bytes, out);
    GiBUpper(g, bytes);
  }

  lemma DecimalNumeric(g: string)
    requires IsDecimal(g)
    ensures NumericGiB(g)
  {
    var i := IndexOf(g, '.');
    if i < |g| {
      assert forall j | i < j < |g| :: g[j] == g[i + 1..][j - i - 1];
    }
    assert forall j | 0 <= j < i :: g[j] == g[..i][j];
  }

  lemma UpperKeeps(s: string)
    requires forall i | 0 <= i < |s| :: IsDigit(s[i]) || s[i] == '.' || s[i] == 'G'
    ensures Upper(s) == s
  {
  }

  lemma SuffixIsG(s: string)
    requires s != "" && s[|s| - 1] == 'G'
    ensures !HasSuffix(s, "T") && HasSuffix(s, "G")
  {
    assert s[|s| - 1..] == "G";
  }

  lemma GiBUpper(g: string, bytes: int)
    requires IsDecimal(g) && DecimalTimes(g, GIB) == bytes && IsDigit(g[0])
    requires forall i | 0 <= i < |g| :: IsDigit(g[i]) || g[i] == '.'
    ensures PveSizeBytes(g + "G") == Some(bytes)
  {
    hide DecimalTimes, IsDecimal, TrimSpace, IndexOf, NatValue, Upper, HasSuffix, IsPositive;
    var s := g + "G";
    UpperKeeps(s);
    SuffixIsG(s);
    assert Trimmed(s) && Trimmed(g);
    assert !AllDigits(s) by { assert !IsDigit(s[|s| - 1]); }
    assert ParseInt64(s).None?;
    assert s[..|s| - 1] == g;
  }

  lemma StartClean(storage: string)
    requires StorageId(storage)
    ensures CleanPool(storage) && ',' !in storage
  {
    assert Trimmed(storage + ":" + "x");
    StorageIsLive(storage, "x");
  }

  function Start(d: Disk): DiskInfo { EMPTY_INFO.(pool := d.storage) }

  lemma CleanDiskStorage(d: Disk)
    requires CleanDisk(d)
    ensures StorageId(d.storage)
  {
  }

  lemma ParseImageString(d: Disk)
    requires CleanDisk(d) && d.image != ""
    ensures Parse(DriveString(d))
            == WithOptions(d, Start(d).(volumeName := "0", rawExtra := ["import-from" + "=" + ImageVolid(d)]))
    ensures !IsNewSlot(DriveString(d))
  {
    hide CleanToken, DiskOptions, Parse, IsNewSlot, Pool, ParseTokens, ParseToken, CleanDisk, ImageVolid, Join, StorageId, TokenKey, TrimSpace, Rest, IndexOf, Split, CleanPool;
    assert StorageId(d.storage) by { CleanDiskStorage(d); }
    StartClean(d.storage);
    var t := "import-from" + "=" + ImageVolid(d);
    var out := Start(d).(volumeName := "0");
    ImageTokens(d, out);
    assert out.rawExtra + [t] == [t];
    ParseDiskOptions(d, out.(rawExtra := [t]));
    ZeroVolume(Start(d));
    ParseRender(d.storage, "0", [t] + DiskOptions(d));
    ParseTokensConcat([t], DiskOptions(d), out);
    StorageIsLive(d.storage, Join(["0"] + ([t] + DiskOptions(d)), ","));
  }

  lemma ParseAllocString(d: Disk)
    requires CleanDisk(d) && d.image == ""
    ensures Parse(DriveString(d))
            == WithOptions(d, Start(d).(size := Some(DiskBytes(d.size)), sizeToken := GiBString(DiskBytes(d.size))))
    ensures !IsNewSlot(DriveString(d))
  {
    hide CleanToken, DiskOptions, GiBString, Parse, IsNewSlot, Pool, ParseTokens, ParseToken, DiskBytes, NumericGiB, PveSizeBytes;
    StartClean(d.storage);
    var g := GiBString(DiskBytes(d.size));
    GiBTokenParses(DiskBytes(d.size), Start(d));
    ParseDiskOptions(d, ParseToken(g, true, Start(d)));
    ParseRender(d.storage, g, DiskOptions(d));
    StorageIsLive(d.storage, Join([g] + DiskOptions(d), ","));
  }

  lemma ZeroVolume(out: DiskInfo)
    ensures ParseToken("0", true, out) == out.(volumeName := "0") && CleanToken("0")
  {
    assert Whole("0") + Fraction("0") == "0";
    assert NatValue("0") == 0;
  }

  lemma ImageTokens(d: Disk, out: DiskInfo)
    requires CleanDisk(d) && d.image != ""
    ensures var t := "import-from" + "=" + ImageVolid(d);
            CleanToken(t) && ParseTokens([t], false, out) == out.(rawExtra := out.rawExtra + [t])
  {
    hide TokenKey, TokenValue;
    PairOne("import-from", ImageVolid(d), out);
  }

  // ----- settling -----

  /** Tokens after the first, each with its comma. */
  function CommaAll(tokens: seq<string>): string {
    if tokens == [] then "" else "," + Join(tokens, ",")
  }

  lemma JoinFirst(a: string, tokens: seq<string>)
    ensures Join([a] + tokens, ",") == a + CommaAll(tokens)
  {
    assert ([a] + tokens)[1..] == tokens;
  }

  lemma CommaCons(h: string, t: seq<string>)
    ensures CommaAll([h] + t) == "," + h + CommaAll(t)
  {
    JoinFirst(h, t);
  }

  lemma {:induction false} CommaSplit(a: seq<string>, b: seq<string>)
    ensures CommaAll(a + b) == CommaAll(a) + CommaAll(b)
  {
    hide Join, CommaAll;
    if a == [] {
      assert a + b == b;
      CommaNone();
    } else {
      var h, t := a[0], a[1..];
      assert [h] + (t + b) == a + b && [h] + t == a;
      CommaCons(h, t + b);
      CommaCons(h, t);
      CommaSplit(t, b);
      assert "," + h + (CommaAll(t) + CommaAll(b)) == "," + h + CommaAll(t) + CommaAll(b);
    }
  }

  lemma CommaNone()
    ensures CommaAll([]) == ""
  {
  }

  lemma CommaHead(tokens: seq<string>)
    ensures CommaAll(tokens) == "" || CommaAll(tokens)[0] == ','
  {
  }

  lemma FirstToken(head: string, tokens: seq<string>)
    requires ',' !in head
    ensures var rest := head + CommaAll(tokens); IndexOf(rest, ',') == |head| && rest[|head|..] == CommaAll(tokens)
  {
    var rest := head + CommaAll(tokens);
    if tokens == [] {
      assert rest == head;
      IndexOfAbsent(head, ',');
    } else {
      assert rest == head + [','] + Join(tokens, ",");
      IndexOfAt(head, ',', Join(tokens, ","));
    }
  }

  lemma SplitPool(pool: string, rest: string)
    requires CleanPool(pool)
    ensures var s := pool + ":" + rest; IndexOf(s, ':') == |pool| && s[..|pool|] == pool && s[|pool| + 1..] == rest
  {
    assert pool + ":" + rest == pool + [':'] + rest;
    IndexOfAt(pool, ':', rest);
  }

  lemma NormalizePlain(id: int, pool: string, g: string, opts: seq<string>)
    requires CleanPool(pool) && NumericGiB(g) && ',' !in g
    requires !HasPrefix(g + CommaAll(opts), "0,import-from=")
    ensures NormalizeDrive(id, pool + ":" + (g + CommaAll(opts)))
            == pool + ":" + VolumeOf(id) + CommaAll(opts) + ",size=" + g + "G"
  {
    hide Join, CommaAll, IndexOf, NumericGiB, VolumeOf;
    SplitPool(pool, g + CommaAll(opts));
    FirstToken(g, opts);
    assert (g + CommaAll(opts))[..|g|] == g;
  }

  /** PVE's report of a plain allocation names the volume and restates the size. */
  lemma NormalizedAlloc(id: int, d: Disk)
    requires CleanDisk(d) && d.image == ""
    ensures NormalizeDrive(id, DriveString(d))
            == Render(d.storage, VolumeOf(id), DiskOptions(d) + ["size" + "=" + (GiBString(DiskBytes(d.size)) + "G")])
  {
    hide CleanToken, DiskOptions, GiBString, DiskBytes, PveSizeBytes, ParseToken, NumericGiB, CleanDisk, VolumeOf, IndexOf, CleanPool, StorageId, Join, CommaAll, NormalizeDrive, HasPrefix, CleanValue;
    CleanDiskStorage(d);
    StartClean(d.storage);
    var g, opts := GiBString(DiskBytes(d.size)), DiskOptions(d);
    AllocBytes(d);
    GiBTokenParses(DiskBytes(d.size), EMPTY_INFO);
    CommaHead(opts);
    GiBPrefix(g, CommaAll(opts), DiskBytes(d.size));
    NoComma(g);
    NormalizePlain(id, d.storage, g, opts);
    JoinFirst(g, opts);
    var size := "size" + "=" + (g + "G");
    CommaSplit(opts, [size]);
    JoinFirst(VolumeOf(id), opts + [size]);
    JoinOne(size);
    assert d.storage + ":" + VolumeOf(id) + CommaAll(opts) + ",size=" + g + "G"
        == d.storage + ":" + (VolumeOf(id) + (CommaAll(opts) + ("," + size)));
  }

  lemma JoinOne(t: string)
    ensures CommaAll([t]) == "," + t
  {
  }

  lemma NoComma(g: string)
    requires CleanToken(g)
    ensures ',' !in g
  {
  }

  lemma PoolNonEmpty(pool: string)
    requires CleanPool(pool)
    ensures |pool| > 0
  {
  }

  lemma AllocBytes(d: Disk)
    requires CleanDisk(d) && d.image == ""
    ensures DiskBytes(d.size) > 0
  {
  }

  /** A positive GiB number is never the import form's zero. */
  lemma GiBPrefix(g: string, tail: string, bytes: int)
    requires bytes > 0 && g == GiBString(bytes) && ParseToken(g, true, EMPTY_INFO).size == Some(bytes)
    requires tail == "" || tail[0] == ','
    ensures !HasPrefix(g + tail, "0,import-from=")
  {
    hide GiBString, PveSizeBytes;
    ZeroVolume(EMPTY_INFO);
    assert g != "0" && g != "";
    assert (g + tail)[0] == g[0];
    if |g| > 1 {
      assert (g + tail)[1] == g[1] && (IsDigit(g[1]) || g[1] == '.');
    }
  }

  lemma ImportBody(volid: string, opts: seq<string>)
    requires ',' !in volid
    ensures var body := "0" + CommaAll(["import-from" + "=" + volid] + opts);
            && HasPrefix(body, "0,import-from=") && body[14..] == volid + CommaAll(opts)
            && IndexOf(body[14..], ',') == |volid|
            && body[14..][|volid|..] == CommaAll(opts)
  {
    hide Join, CommaAll, IndexOf;
    var t := "import-from" + "=" + volid;
    CommaCons(t, opts);
    assert "0" + ("," + t + CommaAll(opts)) == "0,import-from=" + (volid + CommaAll(opts));
    FirstToken(volid, opts);
  }

  /** PVE's report of an import names the volume and gives a size of its own. */
  lemma NormalizedImport(id: int, d: Disk)
    requires CleanDisk(d) && d.image != ""
    ensures NormalizeDrive(id, DriveString(d))
            == Render(d.storage, VolumeOf(id), ["size" + "=" + "3G"] + DiskOptions(d))
  {
    hide CleanToken, DiskOptions, VolumeOf, IndexOf, CleanPool, StorageId, Join, ImageVolid, CleanDisk, CommaAll;
    CleanDiskStorage(d);
    StartClean(d.storage);
    ImageClean(d);
    var opts := DiskOptions(d);
    var t := "import-from" + "=" + ImageVolid(d);
    var body := "0" + CommaAll([t] + opts);
    JoinFirst("0", [t] + opts);
    ImportBody(ImageVolid(d), opts);
    SplitPool(d.storage, body);
    PoolNonEmpty(d.storage);
    CommaCons("size" + "=" + "3G", opts);
    JoinFirst(VolumeOf(id), ["size" + "=" + "3G"] + opts);
    assert DriveString(d) == d.storage + ":" + body;
    assert d.storage + ":" + VolumeOf(id) + ",size=3G" + CommaAll(opts)
        == d.storage + ":" + (VolumeOf(id) + ("," + ("size" + "=" + "3G") + CommaAll(opts)));
  }

  lemma ImageClean(d: Disk)
    requires CleanDisk(d) && d.image != ""
    ensures CleanValue(ImageVolid(d)) && ',' !in ImageVolid(d)
  {
  }

  lemma VolumeIsName(id: int, out: DiskInfo)
    ensures CleanToken(VolumeOf(id)) && '=' !in VolumeOf(id) && VolumeOf(id) != ""
    ensures ParseToken(VolumeOf(id), true, out) == out.(volumeName := VolumeOf(id))
  {
    hide Itoa;
    var v := VolumeOf(id);
    var n := Itoa(id);
    assert v[0] == 'v' && v[|v| - 1] == '0';
    assert forall c | c in n :: c == '-' || IsDigit(c) by {
      forall i | 0 <= i < |n| ensures n[i] == '-' || IsDigit(n[i]) {
        if i > 0 { assert n[i] == n[1..][i - 1]; }
      }
    }
    assert forall c | c in v :: c in "vm-" || c in n || c in "-disk-0";
    IndexOfAbsent(v, '=');
    assert !IsDecimal(v) by { VolumeNotDecimal(v); }
  }

  lemma VolumeNotDecimal(v: string)
    requires v != "" && v[0] == 'v'
    ensures !IsDecimal(v)
  {
    var i := IndexOf(v, '.');
    assert i > 0;
    assert v[..i][0] == 'v';
  }

  lemma ParseReport(id: int, d: Disk)
    requires CleanDisk(d)
    ensures var r := Parse(NormalizeDrive(id, DriveString(d)));
            && r == WithOptions(d, r) && r.pool == d.storage && r.volumeName == VolumeOf(id)
            && (d.image == "" ==> r.size == Some(DiskBytes(d.size)))
    ensures !IsNewSlot(NormalizeDrive(id, DriveString(d)))
  {
    hide CleanToken, DiskOptions, GiBString, DiskBytes, PveSizeBytes, ParseToken, NumericGiB, CleanDisk, VolumeOf, Parse, IsNewSlot, NormalizeDrive, ParseTokens, StorageId, CleanValue, DriveString, CleanPool, Join;
    CleanDiskStorage(d);
    StartClean(d.storage);
    var out := Start(d).(volumeName := VolumeOf(id));
    VolumeIsName(id, Start(d));
    if d.image == "" {
      var bytes := DiskBytes(d.size);
      var token := GiBString(bytes) + "G";
      AllocBytes(d);
      NormalizedAlloc(id, d);
      GiBTokenParses(bytes, out);
      ParseDiskOptions(d, out);
      PairOne("size", token, WithOptions(d, out));
      SizeRead(token, bytes, WithOptions(d, out));
      ParseRender(d.storage, VolumeOf(id), DiskOptions(d) + ["size" + "=" + token]);
      StorageIsLive(d.storage, Join([VolumeOf(id)] + (DiskOptions(d) + ["size" + "=" + token]), ","));
      ParseTokensConcat(DiskOptions(d), ["size" + "=" + token], out);
    } else {
      NormalizedImport(id, d);
      ThreeGiB();
      PairOne("size", "3G", out);
      SizeRead("3G", 3 * GIB, out);
      ParseDiskOptions(d, out.(size := Some(3 * GIB), sizeToken := "3G"));
      ParseRender(d.storage, VolumeOf(id), ["size" + "=" + "3G"] + DiskOptions(d));
      StorageIsLive(d.storage, Join([VolumeOf(id)] + (["size" + "=" + "3G"] + DiskOptions(d)), ","));
      ParseTokensConcat(["size" + "=" + "3G"], DiskOptions(d), out);
    }
  }

  lemma SizeRead(token: string, bytes: int, out: DiskInfo)
    requires PveSizeBytes(token) == Some(bytes)
    ensures ParseOption(KeyOf("size"), token, "size" + "=" + token, out) == out.(size := Some(bytes), sizeToken := token)
  {
    hide PveSizeBytes;
  }

  lemma ThreeGiB()
    ensures PveSizeBytes("3G") == Some(3 * GIB) && CleanValue("3G")
  {
    assert Whole("3") + Fraction("3") == "3";
    assert NatValue("3") == 3;
    assert Pow10(0) == 1;
    assert DecimalTimes("3", GIB) == 3 * GIB by { QuotientExact(3 * GIB, 1); }
    assert IsDecimal("3");
    assert forall i | 0 <= i < |"3"| :: IsDigit("3"[i]) || "3"[i] == '.';
    GiBUpper("3", 3 * GIB);
    assert "3" + "G" == "3G";
  }

  /** After a create-form write, held verbatim or as PVE reports it, the slot needs nothing. */
  lemma CreatedDiskSettles(id: int, d: Disk, held: string)
    requires CleanDisk(d) && Stored(id, DriveString(d), held)
    ensures DiskPropose(d, held).None? && !IsNewSlot(held) && Parse(held).pool == d.storage
  {
    hide DriveString, Parse, NormalizeDrive, IsNewSlot, DiskBytes, CleanDisk;
    ParseDrive(d);
    ParseReport(id, d);
  }

  lemma ParseDrive(d: Disk)
    requires CleanDisk(d)
    ensures var w := Parse(DriveString(d));
            && w == WithOptions(d, w) && w.pool == d.storage && !IsNewSlot(DriveString(d))
            && w.size == if d.image != "" then None else Some(DiskBytes(d.size))
  {
    hide DriveString, Parse, IsNewSlot, DiskBytes, CleanDisk;
    if d.image != "" {
      ParseImageString(d);
    } else {
      ParseAllocString(d);
    }
  }

  /** The in-place rewrite of a live report-form slot needs nothing further. */
  lemma RewrittenDiskSettles(d: Disk, cur: string)
    requires CleanDisk(d) && ReportForm(cur) && !IsNewSlot(cur) && !DiskBlocked(d, cur)
    ensures var s := LiveDriveRewrite(Parse(cur), Parse(DriveString(d)));
            DiskPropose(d, s).None? && !IsNewSlot(s)
  {
    hide DriveString, Parse, IsNewSlot, DiskBytes, CleanDisk, LiveDriveRewrite, OptionsDrift;
    ParseDrive(d);
    RewriteRoundTrip(cur, DriveString(d));
    CleanDiskStorage(d);
    RewriteIsLive(cur, DriveString(d));
  }

  lemma RewriteIsLive(cur: string, w: string)
    requires ReportForm(cur) && StorageId(Parse(cur).pool)
    ensures !IsNewSlot(LiveDriveRewrite(Parse(cur), Parse(w)))
  {
    hide Parse, IsNewSlot, CleanToken, RewriteTokens, CleanOptions, VolumeName, StorageId, CleanPool;
    var c := Parse(cur);
    ParseClean(cur);
    ParseClean(w);
    NameIsClean(c);
    ParseRewriteTokens(c, Parse(w), EMPTY_INFO.(pool := c.pool, volumeName := c.volumeName));
    ParseRender(c.pool, c.volumeName, RewriteTokens(c, Parse(w)));
    StorageIsLive(c.pool, Join([c.volumeName] + RewriteTokens(c, Parse(w)), ","));
  }

  lemma NameIsClean(c: DiskInfo)
    requires CleanOptions(c) && c.volumeName != ""
    ensures CleanToken(c.volumeName)
  {
  }

  // ----- data-loss guard -----

  /** On an occupied report-form slot every proposed value keeps the live volume and its size. */
  lemma DiskKeepsVolume(d: Disk, cur: string)
    requires CleanDisk(d) && !IsNewSlot(cur) && ReportForm(cur) && DiskPropose(d, cur).Some?
    ensures var c, r := Parse(cur), Parse(DiskPropose(d, cur).value);
            r.pool == c.pool && r.volumeName == c.volumeName && r.size == c.size && r.rawExtra == c.rawExtra
    ensures !DiskBlocked(d, cur)
  {
    hide DriveString, Parse, IsNewSlot, LiveDriveRewrite, OptionsDrift;
    RewriteRoundTrip(cur, DriveString(d));
  }

  // ----- EFI vars disk -----

  datatype EfiDisk = EfiDisk(storage: string, size: string, template: string, secureBoot: string)

  function KeysWire(secureBoot: string): Option<bool> {
    var s := Lower(TrimSpace(secureBoot));
    if s == "enabled" then Some(true) else if s == "disabled" then Some(false) else None
  }

  function EfiCreate(e: EfiDisk): string {
    Render(e.storage, GiBString(DiskBytes(e.size)),
           TextToken("efitype", Lower(e.template)) + BoolToken("pre-enrolled-keys", KeysWire(e.secureBoot)))
  }

  predicate EfiTypeDrift(e: EfiDisk, cur: DiskInfo) {
    e.template != "" && cur.efitype != "" && cur.efitype != Lower(e.template)
  }

  predicate EfiKeysDrift(e: EfiDisk, cur: DiskInfo) {
    BoolDiffersFrom(KeysWire(e.secureBoot), cur.preEnrolled == Some(true))
  }

  predicate BoolDiffersFrom(want: Option<bool>, live: bool) { want.Some? && want.value != live }

  function EfiRewriteTokens(e: EfiDisk, cur: DiskInfo): seq<string> {
    SizeToken(cur) + TextToken("efitype", Or(cur.efitype, Lower(e.template)))
    + BoolToken("pre-enrolled-keys", OrBool(KeysWire(e.secureBoot), cur.preEnrolled)) + cur.rawExtra
  }

  function EfiRewrite(e: EfiDisk, cur: DiskInfo): string {
    Render(cur.pool, cur.volumeName, EfiRewriteTokens(e, cur))
  }

  function EfiPropose(e: EfiDisk, raw: string): Option<string> {
    var cur := Parse(raw);
    if IsNewSlot(raw) then Some(EfiCreate(e))
    else if cur.pool != "" && cur.pool == e.storage && (EfiTypeDrift(e, cur) || EfiKeysDrift(e, cur))
    then Some(EfiRewrite(e, cur))
    else None
  }

  /** A live EFI volume on another pool: reported, never written. */
  predicate EfiBlocked(e: EfiDisk, raw: string) {
    !IsNewSlot(raw) && Parse(raw).pool != "" && Parse(raw).pool != e.storage
  }

  predicate CleanEfi(e: EfiDisk) {
    StorageId(e.storage) && CleanValue(e.template)
  }

  lemma EfiValuesClean(e: EfiDisk)
    requires CleanEfi(e)
    ensures CleanValue(Lower(e.template)) && Lower(Lower(e.template)) == Lower(e.template) && StorageId(e.storage)
    ensures e.template != "" <==> Lower(e.template) != ""
  {
    LowerClean(e.template);
    LowerIdempotent(e.template);
  }

  lemma EfiTail(efitype: string, keys: Option<bool>, out: DiskInfo)
    requires CleanValue(efitype) && Lower(efitype) == efitype && out.efitype == "" && out.preEnrolled.None?
    ensures var t := TextToken("efitype", efitype) + BoolToken("pre-enrolled-keys", keys);
            && ParseTokens(t, false, out) == out.(efitype := efitype, preEnrolled := keys)
            && forall x | x in t :: CleanToken(x)
  {
    hide CleanToken, CleanValue, Lower;
    ParseText("efitype", efitype, out);
    ParseBool("pre-enrolled-keys", keys, out.(efitype := efitype));
    ParseTokensConcat(TextToken("efitype", efitype), BoolToken("pre-enrolled-keys", keys), out);
  }

  lemma EfiCreateParses(e: EfiDisk)
    requires CleanEfi(e)
    ensures var r := Parse(EfiCreate(e));
            && r.pool == e.storage && r.efitype == Lower(e.template) && r.preEnrolled == KeysWire(e.secureBoot)
    ensures !IsNewSlot(EfiCreate(e))
  {
    hide CleanToken, CleanValue, Lower, GiBString, DiskBytes, Parse, IsNewSlot, KeysWire, StorageId, TextToken, BoolToken, Join, IsDecimal, CleanEfi, CleanPool, KeyOf, ParseToken, ParseTokens, Rest, Pool, Split;
    EfiValuesClean(e);
    StartClean(e.storage);
    var g := GiBString(DiskBytes(e.size));
    var t := TextToken("efitype", Lower(e.template)) + BoolToken("pre-enrolled-keys", KeysWire(e.secureBoot));
    var out := ParseToken(g, true, EMPTY_INFO.(pool := e.storage));
    GiBChars(DiskBytes(e.size));
    FirstTokenPlain(g, EMPTY_INFO.(pool := e.storage));
    EfiTail(Lower(e.template), KeysWire(e.secureBoot), out);
    ParseRender(e.storage, g, t);
    StorageIsLive(e.storage, Join([g] + t, ","));
  }

  lemma CreatedEfiSettles(e: EfiDisk)
    requires CleanEfi(e)
    ensures EfiPropose(e, EfiCreate(e)).None? && !IsNewSlot(EfiCreate(e))
  {
    hide EfiCreate, Parse, IsNewSlot, KeysWire, Lower, CleanEfi;
    EfiCreateParses(e);
  }

  lemma FirstTokenPlain(g: string, out: DiskInfo)
    requires CleanToken(g) && '=' !in g
    ensures var r := ParseToken(g, true, out);
            r.pool == out.pool && r.efitype == out.efitype && r.preEnrolled == out.preEnrolled
  {
    IndexOfAbsent(g, '=');
  }

  lemma EfiRewriteParses(e: EfiDisk, raw: string)
    requires CleanEfi(e) && ReportForm(raw) && Parse(raw).pool == e.storage
    ensures var c, r := Parse(raw), Parse(EfiRewrite(e, Parse(raw)));
            && r.pool == c.pool && r.volumeName == c.volumeName && r.size == c.size && r.rawExtra == c.rawExtra
            && r.efitype == Or(c.efitype, Lower(e.template))
            && r.preEnrolled == OrBool(KeysWire(e.secureBoot), c.preEnrolled)
    ensures !IsNewSlot(EfiRewrite(e, Parse(raw)))
  {
    hide CleanToken, CleanValue, Lower, Parse, IsNewSlot, KeysWire, Join, VolumeName, StorageId, CleanEfi, CleanPool, RawToken,
         EfiRewriteTokens, ParseTokens, ParseToken, CleanOptions, SizeToken;
    var c := Parse(raw);
    ParseClean(raw);
    NameIsClean(c);
    EfiValuesClean(e);
    EfiCleanParts(c);
    VolumeNameParses(c.volumeName, EMPTY_INFO.(pool := c.pool));
    EfiTokensParse(e, c, EMPTY_INFO.(pool := c.pool, volumeName := c.volumeName));
    ParseRender(c.pool, c.volumeName, EfiRewriteTokens(e, c));
    StorageIsLive(c.pool, Join([c.volumeName] + EfiRewriteTokens(e, c), ","));
  }

  /** The rewritten tokens read back as the size, the merged EFI options and the carried tokens. */
  lemma EfiTokensParse(e: EfiDisk, c: DiskInfo, o1: DiskInfo)
    requires CleanEfi(e) && CleanOptions(c) && c.volumeName != ""
    requires o1.size.None? && o1.sizeToken == "" && o1.efitype == "" && o1.preEnrolled.None? && o1.rawExtra == []
    ensures ParseTokens(EfiRewriteTokens(e, c), false, o1)
            == o1.(size := c.size, sizeToken := c.sizeToken, efitype := Or(c.efitype, Lower(e.template)),
                   preEnrolled := OrBool(KeysWire(e.secureBoot), c.preEnrolled), rawExtra := c.rawExtra)
    ensures forall t | t in EfiRewriteTokens(e, c) :: CleanToken(t)
  {
    hide CleanToken, CleanValue, Lower, KeysWire, TextToken, BoolToken, SizeToken, PveSizeBytes, VolumeName, StorageId, CleanEfi,
         RawToken, ParseTokens, CleanOptions;
    EfiValuesClean(e);
    EfiCleanParts(c);
    var o2 := o1.(size := c.size, sizeToken := c.sizeToken);
    var efitype, keys := Or(c.efitype, Lower(e.template)), OrBool(KeysWire(e.secureBoot), c.preEnrolled);
    var t2 := TextToken("efitype", efitype) + BoolToken("pre-enrolled-keys", keys);
    var o3 := o2.(efitype := efitype, preEnrolled := keys);
    ParseSize(c, o1);
    EfiTail(efitype, keys, o2);
    ParseRaw(c.rawExtra, o3);
    RawAreClean(c.rawExtra);
    assert EfiRewriteTokens(e, c) == SizeToken(c) + t2 + c.rawExtra;
    ParseTokensConcat(SizeToken(c) + t2, c.rawExtra, o1);
    ParseTokensConcat(SizeToken(c), t2, o1);
    assert o3.rawExtra + c.rawExtra == c.rawExtra;
  }

  lemma EfiCleanParts(c: DiskInfo)
    requires CleanOptions(c) && c.volumeName != ""
    ensures CleanValue(c.efitype) && Lower(c.efitype) == c.efitype && VolumeName(c.volumeName)
    ensures forall t | t in c.rawExtra :: RawToken(t)
    ensures if c.size.Some? then CleanValue(c.sizeToken) && PveSizeBytes(c.sizeToken) == c.size else c.sizeToken == ""
  {
  }

  lemma RawAreClean(tokens: seq<string>)
    requires forall t | t in tokens :: RawToken(t)
    ensures forall t | t in tokens :: CleanToken(t)
  {
    forall t | t in tokens ensures CleanToken(t) {
      assert RawToken(t);
    }
  }

  /** The rewrite settles exactly when no pinned efitype contradicts the live one. */
  lemma RewrittenEfiSettles(e: EfiDisk, raw: string)
    requires CleanEfi(e) && ReportForm(raw) && Parse(raw).pool == e.storage && !IsNewSlot(raw)
    requires EfiPropose(e, raw).Some?
    ensures EfiPropose(e, EfiRewrite(e, Parse(raw))).None? <==> !EfiTypeDrift(e, Parse(raw))
  {
    hide CleanValue, Lower, Parse, IsNewSlot, KeysWire, EfiRewrite, StorageId;
    EfiRewriteParses(e, raw);
    EfiValuesClean(e);
  }
}
