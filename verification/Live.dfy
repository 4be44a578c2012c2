/** Loading the live inventory: the cluster listing, then config and power of every listed guest on
    an allowed node, then the presence of every wanted file. Any read may fail. */
module Live {
  import opened Text
  import opened Desired
  import opened Plan
  import opened World

  const READ_ERROR := "read-error"

  /** The reads that succeed this cycle. */
  datatype Reads = Reads(configs: set<Loc>, statuses: set<Loc>, storages: set<LiveKey>)

  function EntryLoc(e: Listed): Loc { Loc(e.node, e.vmid) }

  function KindOf(f: Family): Kind { if f == Qemu then VM else LXC }

  function TemplateKindOf(k: Kind): Kind { if k == VM then TemplateVM else TemplateCT }

  predicate IsGuestEntry(e: Listed) {
    e.node != "" && e.vmid > 0 && e.typ != "" && (NormalizeKind(e.typ) == VM || NormalizeKind(e.typ) == LXC)
  }

  /** PVE lists every guest once, under its own type. */
  predicate Lists(listing: seq<Listed>, s: Site) {
    && (forall e | e in listing && IsGuestEntry(e) ::
          EntryLoc(e) in s.objs && NormalizeKind(e.typ) == KindOf(s.objs[EntryLoc(e)].family))
    && (forall loc | loc in s.objs :: loc.node != "" && loc.id > 0)
    && (forall loc | loc in s.objs :: exists e | e in listing :: IsGuestEntry(e) && EntryLoc(e) == loc)
    && (forall i, j | 0 <= i < j < |listing| && IsGuestEntry(listing[i]) && IsGuestEntry(listing[j]) ::
          EntryLoc(listing[i]) != EntryLoc(listing[j]))
  }

  function StatusOf(o: Obj): string { if o.running then RUNNING else STOPPED }

  /** One listing entry read into the inventory. */
  function ReadEntry(e: Listed, s: Site, allow: seq<string>, rd: Reads, inv: LiveInventory): LiveInventory {
    var loc, kind := EntryLoc(e), NormalizeKind(e.typ);
    var key := ObjKey(e.node, kind, e.vmid);
    if !IsGuestEntry(e) || !NodeAllowed(allow, e.node) || loc !in s.objs then inv
    else if loc !in rd.configs then inv.(power := inv.power[key := READ_ERROR])
    else
      var o := s.objs[loc];
      var power := if loc in rd.statuses then inv.power[key := StatusOf(o)] else inv.power;
      var configs := inv.configs[key := o.config];
      inv.(power := power,
           configs := if IsTemplate(o.config) then configs[ObjKey(e.node, TemplateKindOf(kind), e.vmid) := o.config] else configs)
  }

  function ReadEntries(listing: seq<Listed>, n: nat, s: Site, allow: seq<string>, rd: Reads): LiveInventory
    requires n <= |listing|
  {
    if n == 0 then LiveInventory(map[], map[], map[], listing)
    else ReadEntry(listing[n - 1], s, allow, rd, ReadEntries(listing, n - 1, s, allow, rd))
  }

  /** The file keys a manifest wants. */
  function FileKeys(r: Resource): set<LiveKey> {
    match r.body
    case File(f) => set n | n in f.nodes :: FileKey(n, r.kind, f.storage, f.filename)
    case _ => {}
  }

  function WantedFiles(desired: seq<Resource>): set<LiveKey> {
    if desired == [] then {} else WantedFiles(desired[..|desired| - 1]) + FileKeys(desired[|desired| - 1])
  }

  function Inventory(listing: seq<Listed>, s: Site, desired: seq<Resource>, allow: seq<string>, rd: Reads): LiveInventory {
    ReadEntries(listing, |listing|, s, allow, rd).(
      present := map k | k in WantedFiles(desired) && k in rd.storages :: k in s.files)
  }

  method LoadLive(listing: seq<Listed>, s: Site, desired: seq<Resource>, allow: seq<string>, rd: Reads) returns (inv: LiveInventory)
    ensures inv == Inventory(listing, s, desired, allow, rd)
  {
    hide ReadEntry, FileKeys;
    inv := LiveInventory(map[], map[], map[], listing);
    for i := 0 to |listing|
      invariant inv == ReadEntries(listing, i, s, allow, rd)
    {
      inv := ReadEntry(listing[i], s, allow, rd, inv);
    }
    KeepsNoFiles(listing, |listing|, s, allow, rd);
    ghost var guests := inv;
    for i := 0 to |desired|
      invariant inv == guests.(present := inv.present)
      invariant inv.present == map k | k in WantedFiles(desired[..i]) && k in rd.storages :: k in s.files
    {
      assert desired[..i + 1][..i] == desired[..i];
      inv := inv.(present := inv.present + map k | k in FileKeys(desired[i]) && k in rd.storages :: k in s.files);
    }
    assert desired[..|desired|] == desired;
  }

  lemma {:induction false} KeepsNoFiles(listing: seq<Listed>, n: nat, s: Site, allow: seq<string>, rd: Reads)
    requires n <= |listing|
    ensures ReadEntries(listing, n, s, allow, rd).present == map[] && ReadEntries(listing, n, s, allow, rd).listing == listing
  {
    if n > 0 {
      KeepsNoFiles(listing, n - 1, s, allow, rd);
    }
  }

  // ----- what the inventory holds -----

  /** Kinds under which the object at `loc` is keyed. */
  predicate KeyedAs(o: Obj, k: Kind) {
    k == KindOf(o.family) || (IsTemplate(o.config) && k == TemplateKindOf(KindOf(o.family)))
  }

  predicate Read(s: Site, allow: seq<string>, rd: Reads, loc: Loc) {
    loc in s.objs && NodeAllowed(allow, loc.node) && loc in rd.configs
  }

  predicate SeenBy(listing: seq<Listed>, n: nat, loc: Loc)
    requires n <= |listing|
  {
    exists i | 0 <= i < n :: IsGuestEntry(listing[i]) && EntryLoc(listing[i]) == loc
  }

  lemma {:induction false} EntriesConfig(listing: seq<Listed>, n: nat, s: Site, allow: seq<string>, rd: Reads, k: LiveKey)
    requires n <= |listing| && Lists(listing, s)
    ensures ConfigAt(ReadEntries(listing, n, s, allow, rd), k) ==
            if k.ObjKey? && SeenBy(listing, n, Loc(k.node, k.id)) && Read(s, allow, rd, Loc(k.node, k.id)) && KeyedAs(s.objs[Loc(k.node, k.id)], k.kind)
            then Some(s.objs[Loc(k.node, k.id)].config) else None
  {
    hide IsGuestEntry, NodeAllowed, NormalizeKind, IsTemplate, Lists;
    if n > 0 {
      EntriesConfig(listing, n - 1, s, allow, rd, k);
      EntryFamily(listing, n - 1, s);
      if k.ObjKey? {
        SeenMore(listing, n - 1, Loc(k.node, k.id));
      }
    }
  }

  lemma SeenMore(listing: seq<Listed>, n: nat, loc: Loc)
    requires n < |listing|
    ensures SeenBy(listing, n + 1, loc) <==> SeenBy(listing, n, loc) || (IsGuestEntry(listing[n]) && EntryLoc(listing[n]) == loc)
  {
    hide IsGuestEntry;
    if SeenBy(listing, n, loc) {
      var i :| 0 <= i < n && IsGuestEntry(listing[i]) && EntryLoc(listing[i]) == loc;
      assert 0 <= i < n + 1;
    }
    if IsGuestEntry(listing[n]) && EntryLoc(listing[n]) == loc {
      assert 0 <= n < n + 1;
    }
  }

  lemma EntryFamily(listing: seq<Listed>, i: nat, s: Site)
    requires i < |listing| && Lists(listing, s)
    ensures IsGuestEntry(listing[i]) ==>
              EntryLoc(listing[i]) in s.objs && NormalizeKind(listing[i].typ) == KindOf(s.objs[EntryLoc(listing[i])].family)
  {
    hide IsGuestEntry, NormalizeKind;
    assert listing[i] in listing;
  }

  lemma {:induction false} EntriesPower(listing: seq<Listed>, n: nat, s: Site, allow: seq<string>, rd: Reads, k: LiveKey)
    requires n <= |listing| && Lists(listing, s)
    ensures var loc := Loc(k.node, if k.ObjKey? then k.id else 0);
            Power(ReadEntries(listing, n, s, allow, rd), k) ==
            if !(k.ObjKey? && SeenBy(listing, n, loc) && loc in s.objs && NodeAllowed(allow, loc.node) && k.kind == KindOf(s.objs[loc].family)) then ""
            else if loc !in rd.configs then READ_ERROR
            else if loc in rd.statuses then StatusOf(s.objs[loc]) else ""
  {
    hide IsGuestEntry, NodeAllowed, NormalizeKind, IsTemplate, Lists;
    if n > 0 {
      EntriesPower(listing, n - 1, s, allow, rd, k);
      EntryFamily(listing, n - 1, s);
      if k.ObjKey? {
        SeenMore(listing, n - 1, Loc(k.node, k.id));
      }
    }
  }

  lemma AllSeen(listing: seq<Listed>, s: Site, loc: Loc)
    requires Lists(listing, s) && loc in s.objs
    ensures SeenBy(listing, |listing|, loc)
  {
    hide IsGuestEntry;
    var e :| e in listing && IsGuestEntry(e) && EntryLoc(e) == loc;
    var i :| 0 <= i < |listing| && listing[i] == e;
  }

  /** The inventory invariant: a guest's config is found under its own kind, and under the template
      kind too when it is flagged, exactly when it lives on an allowed node and was read; its power
      is found under its own kind only. */
  lemma InventoryAt(listing: seq<Listed>, s: Site, desired: seq<Resource>, allow: seq<string>, rd: Reads, node: string, kind: Kind, id: int)
    requires Lists(listing, s)
    ensures var inv, loc, k := Inventory(listing, s, desired, allow, rd), Loc(node, id), ObjKey(node, kind, id);
            && ConfigAt(inv, k) == (if Read(s, allow, rd, loc) && KeyedAs(s.objs[loc], kind) then Some(s.objs[loc].config) else None)
            && Power(inv, k) ==
               (if loc !in s.objs || !NodeAllowed(allow, node) || kind != KindOf(s.objs[loc].family) then ""
                else if loc !in rd.configs then READ_ERROR
                else if loc in rd.statuses then StatusOf(s.objs[loc]) else "")
  {
    hide IsGuestEntry, NodeAllowed, NormalizeKind, IsTemplate, Lists, SeenBy, ReadEntries;
    var k := ObjKey(node, kind, id);
    EntriesConfig(listing, |listing|, s, allow, rd, k);
    EntriesPower(listing, |listing|, s, allow, rd, k);
    if Loc(node, id) in s.objs {
      AllSeen(listing, s, Loc(node, id));
    }
  }
}
