/** PVE drive property strings: the parser, the option comparison and the live-form rewrite that
    keeps the volume id. */
module Drive {
  import opened Text
  import opened Quantity

  /** The owned-field view of a drive string; rawExtra lists every token nobody owns. */
  datatype DiskInfo = DiskInfo(
    pool: string, volumeName: string,
    size: Option<int>, sizeToken: string,
    iothread: bool, discard: string, ssd: Option<bool>, aio: string,
    efitype: string, preEnrolled: Option<bool>,
    rawExtra: seq<string>)

  const EMPTY_INFO := DiskInfo("", "", None, "", false, "", None, "", "", None, [])

  predicate WireTrue(v: string) { v == "1" || v == "on" || v == "true" }

  function BoolWire(b: bool): string { if b then "1" else "0" }

  /** A `key=value` token's key and value; the key is "" when there is no leading key. */
  function TokenKey(t: string): string {
    var eq := IndexOf(t, '=');
    if 0 < eq < |t| then t[..eq] else ""
  }

  function TokenValue(t: string): string {
    var eq := IndexOf(t, '=');
    if 0 < eq < |t| then t[eq + 1..] else ""
  }

  /** The option keys the parser owns. */
  datatype OptionKey = SizeKey | IothreadKey | DiscardKey | SsdKey | AioKey | EfitypeKey | EnrolledKey | UnownedKey

  function KeyOf(k: string): OptionKey {
    if k == "size" then SizeKey
    else if k == "iothread" then IothreadKey
    else if k == "discard" then DiscardKey
    else if k == "ssd" then SsdKey
    else if k == "aio" then AioKey
    else if k == "efitype" then EfitypeKey
    else if k == "pre-enrolled-keys" then EnrolledKey
    else UnownedKey
  }

  function ParseOption(key: OptionKey, v: string, t: string, out: DiskInfo): DiskInfo {
    match key
    case SizeKey =>
      if PveSizeBytes(v).Some? then out.(size := PveSizeBytes(v), sizeToken := v)
      else out.(rawExtra := out.rawExtra + [t])
    case IothreadKey => out.(iothread := WireTrue(v))
    case DiscardKey => out.(discard := Lower(v))
    case SsdKey => out.(ssd := Some(WireTrue(v)))
    case AioKey => out.(aio := Lower(v))
    case EfitypeKey => out.(efitype := Lower(v))
    case EnrolledKey => out.(preEnrolled := Some(WireTrue(v)))
    case UnownedKey => out.(rawExtra := out.rawExtra + [t])
  }

  /** One comma-separated token; `first` marks the volume position. */
  function ParseToken(token: string, first: bool, out: DiskInfo): DiskInfo {
    var t := TrimSpace(token);
    if t == "" then out
    else if TokenKey(t) != "" then ParseOption(KeyOf(TokenKey(t)), TokenValue(t), t, out)
    else if first && '=' !in t then
      if IsDecimal(t) && IsPositive(t)
      then out.(size := Some(DecimalTimes(t, GIB)), sizeToken := t)
      else out.(volumeName := t)
    else out.(rawExtra := out.rawExtra + [t])
  }

  function ParseTokens(tokens: seq<string>, first: bool, out: DiskInfo): DiskInfo {
    if tokens == [] then out
    else ParseTokens(tokens[1..], false, ParseToken(tokens[0], first, out))
  }

  function Pool(s: string): string { s[..IndexOf(s, ':')] }

  function Rest(s: string): string {
    var i := IndexOf(s, ':');
    if i < |s| then s[i + 1..] else ""
  }

  function Parse(raw: string): DiskInfo {
    var s := TrimSpace(raw);
    var ci := IndexOf(s, ':');
    if 0 < ci < |s| then ParseTokens(Split(s[ci + 1..], ','), true, EMPTY_INFO.(pool := s[..ci]))
    else EMPTY_INFO
  }

  method ParseDiskInfo(raw: string) returns (out: DiskInfo)
    ensures out == Parse(raw)
  {
    out := EMPTY_INFO;
    var s := TrimSpace(raw);
    var ci := IndexOf(s, ':');
    if 0 < ci < |s| {
      out := out.(pool := s[..ci]);
      var toks := Split(s[ci + 1..], ',');
      var i := 0;
      while i < |toks|
        invariant 0 <= i <= |toks|
        invariant ParseTokens(toks[i..], i == 0, out) == Parse(raw)
      {
        assert toks[i..][1..] == toks[i + 1..];
        out := ParseToken(toks[i], i == 0, out);
        i := i + 1;
      }
    }
  }

  /** Has any owned drive option drifted? An absent live token counts as PVE's default. */
  predicate OptionsDrift(cur: DiskInfo, want: DiskInfo) {
    || cur.iothread != want.iothread
    || (want.discard != "" && !EqualFold(if cur.discard == "" then "ignore" else cur.discard, want.discard))
    || (want.ssd.Some? && (cur.ssd == Some(true)) != want.ssd.value)
    || (want.aio != "" && (cur.aio == "" || !EqualFold(cur.aio, want.aio)))
  }

  function Or(owned: string, live: string): string { if owned != "" then owned else live }

  function OrBool(owned: Option<bool>, live: Option<bool>): Option<bool> { if owned.Some? then owned else live }

  function TextToken(k: string, v: string): seq<string> { if v != "" then [k + "=" + v] else [] }

  function BoolToken(k: string, v: Option<bool>): seq<string> {
    if v.Some? then [k + "=" + BoolWire(v.value)] else []
  }

  function SizeToken(info: DiskInfo): seq<string> {
    if info.size.Some? then ["size" + "=" + info.sizeToken] else []
  }

  /** pool:volume followed by comma-separated option tokens. */
  function Render(pool: string, volume: string, tokens: seq<string>): string {
    pool + ":" + Join([volume] + tokens, ",")
  }

  /** The option tokens of the live-form rewrite, in the order they are written. */
  function RewriteTokens(cur: DiskInfo, want: DiskInfo): seq<string> {
    SizeToken(cur)
    + (if want.iothread then ["iothread=1"] else [])
    + TextToken("discard", Or(want.discard, cur.discard))
    + BoolToken("ssd", OrBool(want.ssd, cur.ssd))
    + TextToken("aio", Or(want.aio, cur.aio))
    + cur.rawExtra
  }

  function LiveDriveRewrite(cur: DiskInfo, want: DiskInfo): string {
    Render(cur.pool, cur.volumeName, RewriteTokens(cur, want))
  }

  // ----- what parsing guarantees about its pieces -----

  /** A value that survives being printed after `key=` and read again. */
  predicate CleanValue(v: string) {
    ',' !in v && (v != "" ==> !IsSpace(v[|v| - 1]))
  }

  /** A non-empty token without commas or outer white space. */
  predicate CleanToken(t: string) {
    t != "" && ',' !in t && Trimmed(t)
  }

  /** A token the parser keeps verbatim wherever it stands after the volume. */
  predicate RawToken(t: string) {
    && CleanToken(t)
    && (TokenKey(t) != "" ==>
          || KeyOf(TokenKey(t)) == UnownedKey
          || (KeyOf(TokenKey(t)) == SizeKey && PveSizeBytes(TokenValue(t)).None?))
  }

  predicate CleanPool(pool: string) {
    pool != "" && ':' !in pool && !IsSpace(pool[0])
  }

  predicate VolumeName(v: string) {
    CleanToken(v) && '=' !in v && !(IsDecimal(v) && IsPositive(v))
  }

  predicate CleanOptions(i: DiskInfo) {
    && (if i.size.Some? then CleanValue(i.sizeToken) else i.sizeToken == "")
    && CleanValue(i.discard) && Lower(i.discard) == i.discard
    && CleanValue(i.aio) && Lower(i.aio) == i.aio
    && CleanValue(i.efitype) && Lower(i.efitype) == i.efitype
    && (forall t | t in i.rawExtra :: RawToken(t))
    && (i.volumeName != "" ==> VolumeName(i.volumeName))
    && (i.size.Some? && i.volumeName != "" ==> PveSizeBytes(i.sizeToken) == i.size)
  }

  /** The report form: a live volume with a name of its own. */
  predicate ReportForm(s: string) {
    Parse(s).pool != "" && Parse(s).volumeName != ""
  }

  /** A key that is read back from `key=value` as itself. */
  predicate CleanKey(k: string) {
    k != "" && '=' !in k && ',' !in k && !IsSpace(k[0])
  }

  /** Printing `k=v` and parsing the token is the same as handling the pair. */
  lemma ParsePair(k: string, v: string)
    requires CleanKey(k) && CleanValue(v)
    ensures CleanToken(k + "=" + v)
    ensures TokenKey(k + "=" + v) == k && TokenValue(k + "=" + v) == v
  {
    var t := k + "=" + v;
    IndexOfAt(k, '=', v);
    assert k + ['='] + v == t;
    assert t[..|k|] == k && t[|k| + 1..] == v;
  }

  lemma LowerClean(v: string)
    requires CleanValue(v)
    ensures CleanValue(Lower(v))
  {
    forall i | 0 <= i < |v| ensures Lower(v)[i] != ',' {
      assert v[i] != ',';
    }
  }

  lemma TokenValueClean(t: string)
    requires CleanToken(t)
    ensures CleanValue(TokenValue(t))
  {
    var eq := IndexOf(t, '=');
    if 0 < eq < |t| {
      var v := t[eq + 1..];
      assert forall c | c in v :: c in t;
      if v != "" { assert v[|v| - 1] == t[|t| - 1]; }
    }
  }

  lemma ParseOptionClean(key: OptionKey, v: string, t: string, out: DiskInfo)
    requires CleanToken(t) && CleanValue(v) && CleanOptions(out)
    requires key == UnownedKey || (key == SizeKey && PveSizeBytes(v).None?) ==> RawToken(t)
    ensures CleanOptions(ParseOption(key, v, t, out))
  {
    LowerClean(v);
    LowerIdempotent(v);
  }

  lemma ParseTokenClean(token: string, first: bool, out: DiskInfo)
    requires ',' !in token
    requires CleanOptions(out)
    requires first ==> out.volumeName == "" && out.size.None?
    ensures CleanOptions(ParseToken(token, first, out))
    ensures ParseToken(token, first, out).pool == out.pool
  {
    var t := TrimSpace(token);
    if t != "" {
      if TokenKey(t) != "" {
        TokenValueClean(t);
        ParseOptionClean(KeyOf(TokenKey(t)), TokenValue(t), t, out);
      } else if first && '=' !in t {
      } else {
        assert RawToken(t);
      }
    }
  }

  lemma {:induction false} ParseTokensClean(tokens: seq<string>, first: bool, out: DiskInfo)
    requires forall t | t in tokens :: ',' !in t
    requires CleanOptions(out)
    requires first ==> out.volumeName == "" && out.size.None?
    ensures CleanOptions(ParseTokens(tokens, first, out))
    ensures ParseTokens(tokens, first, out).pool == out.pool
  {
    if tokens != [] {
      ParseTokenClean(tokens[0], first, out);
      ParseTokensClean(tokens[1..], false, ParseToken(tokens[0], first, out));
    }
  }

  lemma ParseClean(s: string)
    ensures CleanOptions(Parse(s))
    ensures Parse(s).pool != "" ==> CleanPool(Parse(s).pool)
  {
    var t := TrimSpace(s);
    var ci := IndexOf(t, ':');
    LowerIdempotent("");
    if 0 < ci < |t| {
      ParseTokensClean(Split(t[ci + 1..], ','), true, EMPTY_INFO.(pool := t[..ci]));
    }
  }

  // ----- parsing what was printed -----

  lemma {:induction false} ParseTokensConcat(a: seq<string>, b: seq<string>, out: DiskInfo)
    ensures ParseTokens(a + b, false, out) == ParseTokens(b, false, ParseTokens(a, false, out))
  {
    if a == [] {
      assert a + b == b;
    } else {
      assert (a + b)[1..] == a[1..] + b;
      ParseTokensConcat(a[1..], b, ParseToken(a[0], false, out));
    }
  }

  lemma {:induction false} JoinTail(tokens: seq<string>)
    requires tokens != [] && forall t | t in tokens :: CleanToken(t)
    ensures var s := Join(tokens, ","); s != "" && !IsSpace(s[|s| - 1])
  {
    assert CleanToken(tokens[0]);
    if |tokens| > 1 {
      JoinTail(tokens[1..]);
    }
  }

  /** A rendered drive string is parsed token by token. */
  lemma ParseRender(pool: string, first: string, tokens: seq<string>)
    requires CleanPool(pool) && CleanToken(first) && forall t | t in tokens :: CleanToken(t)
    ensures Parse(Render(pool, first, tokens))
            == ParseTokens(tokens, false, ParseToken(first, true, EMPTY_INFO.(pool := pool)))
    ensures Trimmed(Render(pool, first, tokens))
    ensures Pool(Render(pool, first, tokens)) == pool
    ensures Rest(Render(pool, first, tokens)) == Join([first] + tokens, ",")
    ensures Split(Join([first] + tokens, ","), ',') == [first] + tokens
  {
    var all := [first] + tokens;
    var body := Join(all, ",");
    var s := Render(pool, first, tokens);
    JoinTail(all);
    assert s[|s| - 1] == body[|body| - 1];
    IndexOfAt(pool, ':', body);
    assert s == pool + [':'] + body;
    assert s[..|pool|] == pool && s[|pool| + 1..] == body;
    SplitJoin(all, ',');
    assert all[1..] == tokens;
  }

  lemma {:induction false} ParseRaw(tokens: seq<string>, out: DiskInfo)
    requires forall t | t in tokens :: RawToken(t)
    ensures ParseTokens(tokens, false, out) == out.(rawExtra := out.rawExtra + tokens)
  {
    if tokens != [] {
      var next := out.(rawExtra := out.rawExtra + [tokens[0]]);
      assert RawToken(tokens[0]);
      ParseRaw(tokens[1..], next);
      assert out.rawExtra + [tokens[0]] + tokens[1..] == out.rawExtra + tokens;
    } else {
      assert out.rawExtra + tokens == out.rawExtra;
    }
  }

  /** Reading a list of one printed pair. */
  lemma PairOne(k: string, v: string, out: DiskInfo)
    requires CleanKey(k) && CleanValue(v)
    ensures ParseTokens([k + "=" + v], false, out) == ParseOption(KeyOf(k), v, k + "=" + v, out)
    ensures CleanToken(k + "=" + v)
  {
    ParsePair(k, v);
    var t := k + "=" + v;
    assert ParseTokens([t][1..], false, ParseToken(t, false, out)) == ParseToken(t, false, out);
  }

  lemma ParseSize(info: DiskInfo, out: DiskInfo)
    requires if info.size.Some? then CleanValue(info.sizeToken) && PveSizeBytes(info.sizeToken) == info.size
             else info.sizeToken == ""
    requires out.size.None? && out.sizeToken == ""
    ensures ParseTokens(SizeToken(info), false, out) == out.(size := info.size, sizeToken := info.sizeToken)
    ensures forall t | t in SizeToken(info) :: CleanToken(t)
  {
    hide PveSizeBytes;
    if info.size.Some? {
      PairOne("size", info.sizeToken, out);
    }
  }

  lemma ParseText(k: string, v: string, out: DiskInfo)
    requires k == "discard" || k == "aio" || k == "efitype"
    requires CleanValue(v) && Lower(v) == v
    requires v == "" ==> (if k == "discard" then out.discard else if k == "aio" then out.aio else out.efitype) == ""
    ensures ParseTokens(TextToken(k, v), false, out)
            == if k == "discard" then out.(discard := v) else if k == "aio" then out.(aio := v) else out.(efitype := v)
    ensures forall t | t in TextToken(k, v) :: CleanToken(t)
  {
    if v != "" {
      PairOne(k, v, out);
    }
  }

  lemma ParseBool(k: string, v: Option<bool>, out: DiskInfo)
    requires k == "ssd" || k == "pre-enrolled-keys"
    requires v.None? ==> (if k == "ssd" then out.ssd else out.preEnrolled).None?
    ensures ParseTokens(BoolToken(k, v), false, out)
            == if k == "ssd" then out.(ssd := v) else out.(preEnrolled := v)
    ensures forall t | t in BoolToken(k, v) :: CleanToken(t)
  {
    if v.Some? {
      PairOne(k, BoolWire(v.value), out);
    }
  }

  /** The value the option merge leaves in each field. */
  function Merged(cur: DiskInfo, want: DiskInfo): DiskInfo {
    DiskInfo(cur.pool, cur.volumeName, cur.size, cur.sizeToken,
             want.iothread, Or(want.discard, cur.discard), OrBool(want.ssd, cur.ssd), Or(want.aio, cur.aio),
             "", None, cur.rawExtra)
  }

  lemma ParseIothread(b: bool, out: DiskInfo)
    requires !out.iothread
    ensures ParseTokens(if b then ["iothread=1"] else [], false, out) == out.(iothread := b)
    ensures CleanToken("iothread=1")
  {
    PairOne("iothread", "1", out);
    assert "iothread" + "=" + "1" == "iothread=1";
  }

  lemma ParseRewriteTokens(cur: DiskInfo, want: DiskInfo, out: DiskInfo)
    requires CleanOptions(cur) && CleanOptions(want) && cur.volumeName != ""
    requires out == EMPTY_INFO.(pool := cur.pool, volumeName := cur.volumeName)
    ensures ParseTokens(RewriteTokens(cur, want), false, out) == Merged(cur, want)
    ensures forall t | t in RewriteTokens(cur, want) :: CleanToken(t)
  {
    var t1, t2 := SizeToken(cur), if want.iothread then ["iothread=1"] else [];
    var t3, t4 := TextToken("discard", Or(want.discard, cur.discard)), BoolToken("ssd", OrBool(want.ssd, cur.ssd));
    var t5, t6 := TextToken("aio", Or(want.aio, cur.aio)), cur.rawExtra;
    var o1 := ParseTokens(t1, false, out);
    var o2 := ParseTokens(t2, false, o1);
    var o3 := ParseTokens(t3, false, o2);
    var o4 := ParseTokens(t4, false, o3);
    var o5 := ParseTokens(t5, false, o4);
    ParseSize(cur, out);
    ParseIothread(want.iothread, o1);
    ParseText("discard", Or(want.discard, cur.discard), o2);
    ParseBool("ssd", OrBool(want.ssd, cur.ssd), o3);
    ParseText("aio", Or(want.aio, cur.aio), o4);
    ParseRaw(t6, o5);
    assert o5.rawExtra + t6 == t6;
    ParseTokensConcat(t1 + t2 + t3 + t4 + t5, t6, out);
    ParseTokensConcat(t1 + t2 + t3 + t4, t5, out);
    ParseTokensConcat(t1 + t2 + t3, t4, out);
    ParseTokensConcat(t1 + t2, t3, out);
    ParseTokensConcat(t1, t2, out);
  }

  lemma RewriteParses(cur: DiskInfo, want: DiskInfo)
    requires CleanOptions(cur) && CleanOptions(want) && cur.volumeName != "" && CleanPool(cur.pool)
    ensures Parse(LiveDriveRewrite(cur, want)) == Merged(cur, want)
  {
    hide PveSizeBytes, IsDecimal, IsPositive, DecimalTimes;
    var start := EMPTY_INFO.(pool := cur.pool);
    VolumeNameParses(cur.volumeName, start);
    ParseRewriteTokens(cur, want, start.(volumeName := cur.volumeName));
    ParseRender(cur.pool, cur.volumeName, RewriteTokens(cur, want));
  }

  lemma MergedConverged(cur: DiskInfo, want: DiskInfo)
    ensures !OptionsDrift(Merged(cur, want), want)
  {
  }

  /** Parser and printer are a pair: reading the rewrite of any report-form string gives back the
      live pool, volume, size and unowned tokens, the wanted value of every owned option and the
      live value of every other, and no owned option drifts any more. */
  lemma RewriteRoundTrip(s: string, w: string)
    requires ReportForm(s)
    ensures Parse(LiveDriveRewrite(Parse(s), Parse(w))) == Merged(Parse(s), Parse(w))
    ensures !OptionsDrift(Parse(LiveDriveRewrite(Parse(s), Parse(w))), Parse(w))
    ensures ReportForm(LiveDriveRewrite(Parse(s), Parse(w)))
  {
    hide Parse, CleanOptions, OptionsDrift, LiveDriveRewrite;
    ParseClean(s);
    ParseClean(w);
    RewriteParses(Parse(s), Parse(w));
    MergedConverged(Parse(s), Parse(w));
  }

  lemma VolumeNameParses(v: string, out: DiskInfo)
    requires VolumeName(v)
    ensures ParseToken(v, true, out) == out.(volumeName := v)
  {
    IndexOfAbsent(v, '=');
  }

  /** The same volume: pool, volume name and size. */
  predicate SameVolume(a: string, b: string) {
    Parse(a).pool == Parse(b).pool && Parse(a).volumeName == Parse(b).volumeName && Parse(a).size == Parse(b).size
  }
}
