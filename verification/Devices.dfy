/** Renderers and matchers of the PVE property strings that are not drives: network devices,
    CD/DVD, cloud-init drives, TPM, PCI devices, tags and token lists. */
module Devices {
  import opened Text
  import opened Quantity
  import Drive

  /** Everything before the first `=`; None when there is none. */
  function CutKey(t: string): Option<string> {
    var i := IndexOf(t, '=');
    if i < |t| then Some(t[..i]) else None
  }

  function CutValue(t: string): string {
    var i := IndexOf(t, '=');
    if i < |t| then t[i + 1..] else ""
  }

  /** Value of the last `key=` among comma-separated tokens, "" when absent. */
  function LastValue(tokens: seq<string>, key: string): string {
    if tokens == [] then ""
    else
      var t := TrimSpace(tokens[|tokens| - 1]);
      if CutKey(t) == Some(key) then CutValue(t) else LastValue(tokens[..|tokens| - 1], key)
  }

  /** Value of the first `key=` among comma-separated tokens, "" when absent. */
  function FirstValue(tokens: seq<string>, key: string): string {
    if tokens == [] then ""
    else
      var t := TrimSpace(tokens[0]);
      if CutKey(t) == Some(key) then CutValue(t) else FirstValue(tokens[1..], key)
  }

  // ----- VM network devices -----

  datatype Nic = Nic(model: string, bridge: string, mac: string, firewall: bool, rate: int, vlan: int, slot: string)

  datatype NicFields = NicFields(model: string, mac: string, bridge: string, vlan: int, rate: int, firewall: bool)

  const NIC_MODELS: set<string> :=
    {"virtio", "vmxnet3", "e1000", "e1000-82540", "rtl8139", "i82551", "ne2k_pci", "pcnet", "shaper"}

  function NicToken(token: string, out: NicFields): NicFields {
    var t := TrimSpace(token);
    if t == "" then out
    else if CutKey(t).Some? then
      var k, v := CutKey(t).value, CutValue(t);
      if k == "bridge" then out.(bridge := v)
      else if k == "tag" || k == "vlan" then out.(vlan := Atoi(v))
      else if k == "rate" then out.(rate := Atoi(v))
      else if k == "firewall" then out.(firewall := v == "1" || v == "true")
      else if k in NIC_MODELS then out.(model := k, mac := v)
      else out
    else if out.model == "" then out.(model := t)
    else out
  }

  function NicTokens(tokens: seq<string>, out: NicFields): NicFields {
    if tokens == [] then out else NicTokens(tokens[1..], NicToken(tokens[0], out))
  }

  function ParseNic(s: string): NicFields {
    NicTokens(Split(s, ','), NicFields("", "", "", 0, 0, false))
  }

  function NumberToken(k: string, n: int): seq<string> {
    if n > 0 then [k + "=" + Itoa(n)] else []
  }

  function ModelOf(n: Nic): string { if n.model == "" then "virtio" else n.model }

  function MacOf(n: Nic): string { Lower(TrimSpace(n.mac)) }

  /** The model, with the pinned address when there is one. */
  function NicHead(n: Nic): string { if MacOf(n) != "" then ModelOf(n) + "=" + MacOf(n) else ModelOf(n) }

  function NicTail(n: Nic): seq<string> {
    ["bridge" + "=" + n.bridge] + NumberToken("tag", n.vlan) + NumberToken("rate", n.rate)
    + (if n.firewall then ["firewall" + "=" + "1"] else [])
  }

  function NicString(n: Nic): string { Join([NicHead(n)] + NicTail(n), ",") }

  predicate NicMatches(cur: string, want: string) {
    var c, w := ParseNic(cur), ParseNic(want);
    && c.model == w.model && c.bridge == w.bridge
    && (w.mac != "" ==> EqualFold(w.mac, c.mac))
    && (w.vlan > 0 ==> c.vlan == w.vlan)
    && (w.rate > 0 ==> c.rate == w.rate)
    && (w.firewall ==> c.firewall)
  }

  // ----- cloud-init drive -----

  /** Pool and size token of a cloud-init drive; None without a pool. */
  function SplitCloudInit(raw: string): Option<(string, string)> {
    var s := TrimSpace(raw);
    var colon := IndexOf(s, ':');
    if 0 < colon < |s| then Some((s[..colon], LastValue(Split(s[colon + 1..], ','), "size"))) else None
  }

  predicate CloudInitMatches(cur: string, want: string) {
    var c, w := SplitCloudInit(cur), SplitCloudInit(want);
    if c.None? then w.None?
    else if w.None? || c.value.0 != w.value.0 then false
    else if c.value.1 == "" then true
    else if PveSizeBytes(c.value.1).Some? && PveSizeBytes(w.value.1).Some?
    then PveSizeBytes(c.value.1) == PveSizeBytes(w.value.1)
    else EqualFold(c.value.1, w.value.1)
  }

  // ----- CD/DVD -----

  datatype Cdrom = Cdrom(pool: string, filename: string, media: string)

  /** Owned fields of a CD/DVD string; None when no ISO is attached. */
  function ParseCdrom(raw: string): Option<Cdrom> {
    var s := TrimSpace(raw);
    var colon := IndexOf(s, ':');
    if s == "none" || !(0 < colon < |s|) then None
    else
      var rest := s[colon + 1..];
      if !HasPrefix(rest, "iso/") then None
      else
        var file := rest[4..];
        var name := file[..IndexOf(file, ',')];
        if name == "" then None else Some(Cdrom(s[..colon], name, LastMedia(Split(rest, ','))))
  }

  function LastMedia(tokens: seq<string>): string {
    if tokens == [] then ""
    else
      var t := tokens[|tokens| - 1];
      if CutKey(t) == Some("media") then CutValue(t) else LastMedia(tokens[..|tokens| - 1])
  }

  predicate CdromMatches(cur: string, want: string) {
    var c, w := ParseCdrom(cur), ParseCdrom(want);
    if c.None? || w.None? then c.None? && w.None?
    else
      && c.value.pool == w.value.pool && c.value.filename == w.value.filename
      && (w.value.media != "" ==> c.value.media == w.value.media)
  }

  /** The volume id of an ISO file on a storage. */
  function IsoVolid(storage: string, file: string): string { storage + ":iso/" + file }

  predicate CleanIso(storage: string, file: string) {
    && storage != "" && ':' !in storage && !IsSpace(storage[0])
    && file != "" && ',' !in file && !IsSpace(file[|file| - 1])
  }

  lemma FileBeforeComma(file: string, tail: string)
    requires ',' !in file && (tail == "" || tail[0] == ',')
    ensures IndexOf(file + tail, ',') == |file|
  {
    if tail == "" {
      assert file + tail == file;
      IndexOfAbsent(file, ',');
    } else {
      assert file + tail == file + [','] + tail[1..];
      IndexOfAt(file, ',', tail[1..]);
    }
  }

  lemma ParseIso(storage: string, file: string, tail: string)
    requires CleanIso(storage, file)
    requires tail == "" || (tail[0] == ',' && !IsSpace(tail[|tail| - 1]))
    ensures var c := ParseCdrom(IsoVolid(storage, file) + tail);
            && c.Some? && c.value.pool == storage && c.value.filename == file
            && (tail == "" ==> c.value.media == "")
  {
    hide LastMedia, Split, TrimSpace, CutKey, IndexOf;
    var s := IsoVolid(storage, file) + tail;
    var rest := "iso/" + file + tail;
    assert s == storage + [':'] + rest;
    IndexOfAt(storage, ':', rest);
    assert s[..|storage|] == storage;
    assert s[|storage| + 1..] == rest;
    assert rest[4..] == file + tail;
    FileBeforeComma(file, tail);
    assert (file + tail)[..|file|] == file;
    assert s[|s| - 1] == (if tail == "" then file[|file| - 1] else tail[|tail| - 1]);
    assert TrimSpace(s) == s by { assert Trimmed(s); }
    NotNone(s, |storage|);
    if tail == "" {
      assert rest == "iso/" + file;
      NoMediaInPath(rest);
    }
  }

  lemma NotNone(s: string, i: nat)
    requires i < |s| && s[i] == ':'
    ensures s != "none" && s != ""
  {
    assert ':' in s && ':' !in "none";
  }

  /** The path token itself is never read as the media option. */
  lemma NoMediaInPath(rest: string)
    requires HasPrefix(rest, "iso/") && ',' !in rest
    ensures LastMedia(Split(rest, ',')) == ""
  {
    IndexOfAbsent(rest, ',');
    assert rest[..|rest|] == rest;
    assert [rest][..0] == [];
    assert rest[0] == 'i';
    var i := IndexOf(rest, '=');
    assert rest[..i] != "media";
  }

  /** The written CD/DVD value satisfies the wanted volume id. */
  lemma WrittenCdrom(storage: string, file: string, media: string)
    requires CleanIso(storage, file) && media in {"cdrom", "disk"}
    ensures CdromMatches(IsoVolid(storage, file) + ",media=" + media, IsoVolid(storage, file))
  {
    hide ParseCdrom;
    var tail := ",media=" + media;
    assert tail[|tail| - 1] == media[|media| - 1];
    ParseIso(storage, file, tail);
    ParseIso(storage, file, "");
    assert IsoVolid(storage, file) + "" == IsoVolid(storage, file);
    assert IsoVolid(storage, file) + ",media=" + media == IsoVolid(storage, file) + tail;
  }

  // ----- TPM -----

  predicate TpmMatches(cur: string, want: string) {
    if cur == "" || want == "" then cur == want
    else
      var c, w := FirstValue(Split(cur, ','), "version"), FirstValue(Split(want, ','), "version");
      if c == "" && w == ""
      then FirstValue(Split(cur, ','), "endpoint") == FirstValue(Split(want, ','), "endpoint")
      else c == w
  }

  // ----- PCI passthrough -----

  datatype Pci = Pci(slot: string, device: string, pcie: Option<bool>)

  function PciWire(p: Pci): string {
    Lower(TrimSpace(p.device)) + (if p.pcie.Some? then ",pcie=" + Drive.BoolWire(p.pcie.value) else "")
  }

  function TrimQuotes(s: string): string
    decreases |s|
  {
    if s == "" then s
    else if s[0] == '"' || s[0] == ' ' then TrimQuotes(s[1..])
    else if s[|s| - 1] == '"' || s[|s| - 1] == ' ' then TrimQuotes(s[..|s| - 1])
    else s
  }

  function PciTokens(tokens: seq<string>): map<string, string> {
    if tokens == [] then map[]
    else
      var before := PciTokens(tokens[..|tokens| - 1]);
      var t := TrimSpace(tokens[|tokens| - 1]);
      if t == "" then before
      else if CutKey(t).Some? then before[Lower(TrimSpace(CutKey(t).value)) := TrimQuotes(CutValue(t))]
      else before["host" := Lower(t)]
  }

  predicate PciMatches(cur: string, want: Pci) {
    var c, w := PciTokens(Split(cur, ',')), PciTokens(Split(PciWire(want), ','));
    |c| == |w| && forall k | k in w :: k in c && c[k] == w[k]
  }

  // ----- tags and token lists -----

  const OWNERSHIP_TAG := "proxops"

  /** The manifest's tags, deduplicated, with the ownership tag appended when missing. */
  function AllTags(tags: seq<string>): (r: seq<string>)
    ensures OWNERSHIP_TAG in r
    ensures forall t | t in r :: t in tags || t == OWNERSHIP_TAG
    ensures forall t | t in tags :: t in r
  {
    var own := DedupTags(tags);
    if OWNERSHIP_TAG in own then own else own + [OWNERSHIP_TAG]
  }

  function DedupTags(tags: seq<string>): (r: seq<string>)
    ensures forall t :: t in tags <==> t in r
  {
    if tags == [] then []
    else
      var before := DedupTags(tags[..|tags| - 1]);
      var t := tags[|tags| - 1];
      assert tags == tags[..|tags| - 1] + [t];
      if t in before then before else before + [t]
  }

  function TagSet(value: string): set<string> {
    set t | t in Split(value, ',') && TrimSpace(t) != "" :: TrimSpace(t)
  }

  predicate TagsEqual(cur: string, desired: seq<string>) {
    TagSet(cur) == set t | t in desired && t != ""
  }

  predicate HasTag(value: string, tag: string) {
    exists t | t in Split(value, ',') :: TrimSpace(t) == tag
  }

  predicate CleanTag(t: string) { ',' !in t && Trimmed(t) }

  lemma CleanTagSet(all: seq<string>)
    requires all != [] && forall t | t in all :: CleanTag(t)
    ensures TagsEqual(Join(all, ","), all)
    ensures forall t | t in all :: HasTag(Join(all, ","), t)
  {
    SplitJoin(all, ',');
    forall t | t in all ensures TrimSpace(t) == t {
      assert CleanTag(t);
    }
  }

  lemma TagsClean(tags: seq<string>)
    requires forall t | t in tags :: CleanTag(t)
    ensures AllTags(tags) != [] && forall t | t in AllTags(tags) :: CleanTag(t)
  {
    assert CleanTag(OWNERSHIP_TAG);
    assert OWNERSHIP_TAG in AllTags(tags);
  }

  predicate WordSetsEqual(cur: string, want: string) {
    |Words(cur)| == |Words(want)| && forall w | w in Words(want) :: w in Words(cur)
  }

  predicate NameserverEquals(cur: string, want: string) {
    if cur == "" || want == "" then cur == want
    else Words(ReplaceChar(cur, ',', ' ')) == Words(ReplaceChar(want, ',', ' '))
  }

  /** PVE's "detached" spelling of a slot. */
  predicate IsNoneSlot(raw: string) {
    var s := TrimSpace(raw);
    s == "none" || HasPrefix(s, "none,") || HasPrefix(s, "none;")
  }

  /** No storage is allocated at the slot, so a create-form write is safe. */
  predicate IsNewSlot(raw: string) {
    TrimSpace(raw) == "" || IsNoneSlot(raw)
  }
}
