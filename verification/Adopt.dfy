/** Adoption of live SSH keys as references into a cluster's secret store, and the merge that makes
    the references resolve. */
module Adopt {
  import opened Text
  import opened Secrets

  /** Type and base64 body of a public key line; the comment is not part of its identity. */
  function KeyParts(line: string): Option<(string, string)> {
    var parts := Words(TrimSpace(line));
    if |parts| < 2 || |parts[1]| < 16 then None else Some((parts[0], parts[1]))
  }

  /** A key up to its comment; a line that is not a key stands for itself. */
  datatype KeyId = Key(typ: string, blob: string) | Raw(line: string)

  function KeyIdOf(line: string): KeyId {
    var p := KeyParts(line);
    if p.Some? then Key(p.value.0, p.value.1) else Raw(TrimSpace(line))
  }

  function KeyIds(lines: seq<string>): set<KeyId> { set l | l in lines :: KeyIdOf(l) }

  /** The digest behind fingerprints, taken as injective. */
  type Digest = ((string, string)) -> string

  ghost predicate Injective(hash: Digest) { forall a, b :: hash(a) == hash(b) ==> a == b }

  const ADOPTED := "adopted-"
  const SENTINEL := "*"

  function AdoptedName(hash: Digest, line: string): Option<string> {
    var p := KeyParts(line);
    if p.Some? then Some(ADOPTED + hash(p.value)) else None
  }

  /** Imported keys sit under the name of their own fingerprint. */
  predicate OwnNames(hash: Digest, newNames: map<string, string>) {
    forall n | n in newNames :: AdoptedName(hash, newNames[n]) == Some(n)
  }

  /** No blank entries, and adopted names hold keys of that fingerprint. */
  ghost predicate StoreOk(hash: Digest, store: map<string, string>) {
    && (forall n | n in store :: TrimSpace(store[n]) != "")
    && (forall line :: AdoptedName(hash, line).Some? && AdoptedName(hash, line).value in store ==>
          AdoptedName(hash, store[AdoptedName(hash, line).value]) == AdoptedName(hash, line))
  }

  /** `name` stands for `line`: a store entry with that very line, or the import of its key. */
  predicate Stands(hash: Digest, store: map<string, string>, newNames: map<string, string>, name: string, line: string) {
    || (name in store && TrimSpace(store[name]) == TrimSpace(line))
    || (Some(name) == AdoptedName(hash, line) && name in newNames)
  }

  function RefTo(name: string): string { SSH_PREFIX + name }

  predicate Covers(hash: Digest, store: map<string, string>, newNames: map<string, string>, refs: seq<string>, lines: seq<string>) {
    && (forall l | l in lines :: HasRef(hash, store, newNames, refs, l))
    && (forall r | r in refs :: HasLine(hash, store, newNames, lines, r))
  }

  predicate HasRef(hash: Digest, store: map<string, string>, newNames: map<string, string>, refs: seq<string>, line: string) {
    exists r | r in refs :: RefStands(hash, store, newNames, r, line)
  }

  predicate HasLine(hash: Digest, store: map<string, string>, newNames: map<string, string>, lines: seq<string>, ref: string) {
    exists l | l in lines :: RefStands(hash, store, newNames, ref, l)
  }

  predicate RefStands(hash: Digest, store: map<string, string>, newNames: map<string, string>, ref: string, line: string) {
    HasPrefix(ref, SSH_PREFIX) && Stands(hash, store, newNames, ref[|SSH_PREFIX|..], line)
  }

  /** A live line that can be turned into a reference. */
  predicate Matchable(store: map<string, string>, adopting: bool, line: string) {
    && TrimSpace(line) != "" && TrimSpace(line) != SENTINEL
    && ((exists n | n in store :: TrimSpace(store[n]) == TrimSpace(line)) || (adopting && KeyParts(TrimSpace(line)).Some?))
  }

  lemma TrimTwice(s: string)
    ensures TrimSpace(TrimSpace(s)) == TrimSpace(s) && KeyParts(TrimSpace(s)) == KeyParts(s)
  {
    hide TrimSpace, Words;
  }

  class AdoptContext {
    const hash: Digest
    const store: map<string, string>
    const adopting: bool
    var uniqueNames: set<string>
    var reusedNames: set<string>
    var newNames: map<string, string>
    var liveKeys: set<KeyId>

    ghost predicate Valid()
      reads this`newNames
    {
      OwnNames(hash, newNames)
    }

    constructor (hash: Digest, store: map<string, string>, adopting: bool)
      ensures Valid() && this.hash == hash && this.store == store && this.adopting == adopting
      ensures uniqueNames == {} && reusedNames == {} && newNames == map[] && liveKeys == {}
    {
      this.hash, this.store, this.adopting := hash, store, adopting;
      uniqueNames, reusedNames, newNames, liveKeys := {}, {}, map[], {};
    }

    /** The store's lines by value; of several names for one line any one is kept. */
    method ExistingByLine() returns (byLine: map<string, string>)
      ensures forall l | l in byLine :: l != "" && byLine[l] in store && TrimSpace(store[byLine[l]]) == l
      ensures forall n | n in store && TrimSpace(store[n]) != "" :: TrimSpace(store[n]) in byLine
    {
      hide TrimSpace;
      byLine := map[];
      var todo := store.Keys;
      while todo != {}
        invariant todo <= store.Keys
        invariant forall l | l in byLine :: l != "" && byLine[l] in store && TrimSpace(store[byLine[l]]) == l
        invariant forall n | n in store && n !in todo && TrimSpace(store[n]) != "" :: TrimSpace(store[n]) in byLine
        decreases todo
      {
        var n :| n in todo;
        var line := TrimSpace(store[n]);
        if line != "" {
          byLine := byLine[line := n];
        }
        todo := todo - {n};
      }
    }

    /** Maps live lines to references, all or nothing: on failure the census is untouched; on success
        every line has a reference standing for it and no reference stands for nothing. */
    method MatchOrAdoptLines(lines: seq<string>) returns (refs: seq<string>, matched: bool)
      requires Valid()
      modifies this`uniqueNames, this`reusedNames, this`newNames
      ensures Valid()
      ensures matched <==> forall l | l in lines :: Matchable(store, adopting, l)
      ensures !matched ==> refs == [] && uniqueNames == old(uniqueNames) && reusedNames == old(reusedNames) && newNames == old(newNames)
      ensures matched ==> Covers(hash, store, newNames, refs, lines)
      ensures old(newNames).Keys <= newNames.Keys && forall n | n in old(newNames) :: newNames[n] == old(newNames)[n]
      ensures matched ==> uniqueNames == old(uniqueNames) + set r | r in refs && HasPrefix(r, SSH_PREFIX) :: r[|SSH_PREFIX|..]
    {
      hide TrimSpace, Words, KeyParts, Covers;
      var byLine := ExistingByLine();
      var unique: set<string>, reused: set<string>, imports: map<string, string> := {}, {}, map[];
      refs := [];
      NothingCovered(hash, store, imports);
      for i := 0 to |lines|
        modifies {}
        invariant forall l | l in lines[..i] :: Matchable(store, adopting, l)
        invariant OwnNames(hash, imports)
        invariant Covers(hash, store, imports, refs, lines[..i])
        invariant forall r | r in refs :: HasPrefix(r, SSH_PREFIX)
        invariant unique == set r | r in refs && HasPrefix(r, SSH_PREFIX) :: r[|SSH_PREFIX|..]
        invariant reused <= store.Keys
      {
        var line := TrimSpace(lines[i]);
        TrimTwice(lines[i]);
        assert lines[..i + 1] == lines[..i] + [lines[i]] && lines[i] in lines;
        if line == "" || line == SENTINEL {
          assert !Matchable(store, adopting, lines[i]);
          return [], false;
        }
        var name;
        if line in byLine {
          name := byLine[line];
          reused := reused + {name};
          Extends(hash, store, imports, imports, refs, lines[..i]);
        } else {
          if !adopting {
            assert !Matchable(store, adopting, lines[i]);
            return [], false;
          }
          var adopted := AdoptedName(hash, line);
          if adopted.None? {
            Unnamed(hash, line);
            assert !Matchable(store, adopting, lines[i]);
            return [], false;
          }
          name := adopted.value;
          NamedKey(hash, line);
          Extends(hash, store, imports, imports[name := line], refs, lines[..i]);
          imports := imports[name := line];
        }
        SameName(hash, lines[i]);
        assert Stands(hash, store, imports, name, lines[i]);
        AddRef(hash, store, imports, refs, lines[..i], name, lines[i]);
        unique := unique + {name};
        if RefTo(name) !in refs {
          refs := refs + [RefTo(name)];
        }
      }
      assert lines[..|lines|] == lines;
      uniqueNames := uniqueNames + unique;
      reusedNames := reusedNames + reused;
      Extends(hash, store, imports, imports + newNames, refs, lines);
      newNames := imports + newNames;
      matched := true;
    }

    /** The live-key census counts keys up to their comment. */
    method RecordLiveKeys(lines: seq<string>)
      modifies this`liveKeys
      ensures liveKeys == old(liveKeys) + set l | l in lines && TrimSpace(l) != "" && TrimSpace(l) != SENTINEL :: KeyIdOf(l)
    {
      hide TrimSpace, Words, KeyIdOf;
      for i := 0 to |lines|
        invariant liveKeys == old(liveKeys) + set l | l in lines[..i] && TrimSpace(l) != "" && TrimSpace(l) != SENTINEL :: KeyIdOf(l)
      {
        assert lines[..i + 1] == lines[..i] + [lines[i]];
        if TrimSpace(lines[i]) != "" && TrimSpace(lines[i]) != SENTINEL {
          liveKeys := liveKeys + {KeyIdOf(lines[i])};
        }
      }
      assert lines[..|lines|] == lines;
    }

    /** Cloud-init keys of an adopted VM: references when every line has one, the sentinel otherwise. */
    method AdoptKeys(lines: seq<string>) returns (keys: seq<string>, refs: seq<string>)
      requires Valid() && lines != []
      modifies this
      ensures Valid()
      ensures (keys == [] && Covers(hash, store, newNames, refs, lines)) || (keys == [SENTINEL] && refs == [] && newNames == old(newNames))
      ensures keys == [] <==> forall l | l in lines :: Matchable(store, adopting, l)
    {
      hide Matchable, Covers, OwnNames;
      RecordLiveKeys(lines);
      var matched;
      refs, matched := MatchOrAdoptLines(lines);
      keys := if matched then [] else [SENTINEL];
    }
  }

  lemma Unnamed(hash: Digest, line: string)
    requires AdoptedName(hash, line).None?
    ensures KeyParts(line).None?
  {
    hide KeyParts;
  }

  lemma NamedKey(hash: Digest, line: string)
    requires AdoptedName(hash, line).Some?
    ensures KeyParts(line).Some?
  {
    hide KeyParts;
  }

  lemma SameName(hash: Digest, line: string)
    ensures AdoptedName(hash, TrimSpace(line)) == AdoptedName(hash, line) && TrimSpace(TrimSpace(line)) == TrimSpace(line)
  {
    hide TrimSpace, Words, KeyParts;
    TrimTwice(line);
  }

  lemma StandsMore(hash: Digest, store: map<string, string>, a: map<string, string>, b: map<string, string>, ref: string, line: string)
    requires RefStands(hash, store, a, ref, line) && a.Keys <= b.Keys
    ensures RefStands(hash, store, b, ref, line)
  {
    hide TrimSpace, KeyParts;
  }

  lemma NothingCovered(hash: Digest, store: map<string, string>, names: map<string, string>)
    ensures Covers(hash, store, names, [], [])
  {
  }

  lemma IsHeld(hash: Digest, store: map<string, string>, names: map<string, string>, refs: seq<string>, lines: seq<string>, r: string, l: string)
    requires r in refs && l in lines && RefStands(hash, store, names, r, l)
    ensures HasRef(hash, store, names, refs, l) && HasLine(hash, store, names, lines, r)
  {
    hide RefStands;
  }

  lemma RefFor(hash: Digest, store: map<string, string>, names: map<string, string>, refs: seq<string>, lines: seq<string>, l: string) returns (r: string)
    requires Covers(hash, store, names, refs, lines) && l in lines
    ensures r in refs && RefStands(hash, store, names, r, l)
  {
    hide RefStands;
    r :| r in refs && RefStands(hash, store, names, r, l);
  }

  lemma LineFor(hash: Digest, store: map<string, string>, names: map<string, string>, refs: seq<string>, lines: seq<string>, r: string) returns (l: string)
    requires Covers(hash, store, names, refs, lines) && r in refs
    ensures l in lines && RefStands(hash, store, names, r, l)
  {
    hide RefStands;
    l :| l in lines && RefStands(hash, store, names, r, l);
  }

  /** More imported names keep every reference standing. */
  lemma Extends(hash: Digest, store: map<string, string>, a: map<string, string>, b: map<string, string>, refs: seq<string>, lines: seq<string>)
    requires Covers(hash, store, a, refs, lines) && a.Keys <= b.Keys
    ensures Covers(hash, store, b, refs, lines)
  {
    hide RefStands, HasRef, HasLine;
    forall l | l in lines ensures HasRef(hash, store, b, refs, l) {
      var r := RefFor(hash, store, a, refs, lines, l);
      StandsMore(hash, store, a, b, r, l);
      IsHeld(hash, store, b, refs, lines, r, l);
    }
    forall r | r in refs ensures HasLine(hash, store, b, lines, r) {
      var l := LineFor(hash, store, a, refs, lines, r);
      StandsMore(hash, store, a, b, r, l);
      IsHeld(hash, store, b, refs, lines, r, l);
    }
  }

  lemma RefName(hash: Digest, store: map<string, string>, names: map<string, string>, name: string, line: string)
    ensures HasPrefix(RefTo(name), SSH_PREFIX) && RefTo(name)[|SSH_PREFIX|..] == name
    ensures RefStands(hash, store, names, RefTo(name), line) <==> Stands(hash, store, names, name, line)
  {
    hide Stands;
  }

  lemma AddRef(hash: Digest, store: map<string, string>, names: map<string, string>, refs: seq<string>, lines: seq<string>, name: string, line: string)
    requires Covers(hash, store, names, refs, lines) && Stands(hash, store, names, name, line)
    ensures Covers(hash, store, names, if RefTo(name) in refs then refs else refs + [RefTo(name)], lines + [line])
    ensures HasPrefix(RefTo(name), SSH_PREFIX) && RefTo(name)[|SSH_PREFIX|..] == name
  {
    hide Stands, RefTo, RefStands, HasRef, HasLine;
    RefName(hash, store, names, name, line);
    var ref := RefTo(name);
    var more, all := if ref in refs then refs else refs + [ref], lines + [line];
    IsHeld(hash, store, names, more, all, ref, line);
    forall l | l in all ensures HasRef(hash, store, names, more, l) {
      if l != line {
        var r := RefFor(hash, store, names, refs, lines, l);
        IsHeld(hash, store, names, more, all, r, l);
      }
    }
    forall r | r in more ensures HasLine(hash, store, names, all, r) {
      if r in refs {
        var l := LineFor(hash, store, names, refs, lines, r);
        IsHeld(hash, store, names, more, all, r, l);
      }
    }
  }

  // ----- the merge -----

  /** Existing names keep their values, new names are added. */
  function Merged(store: map<string, string>, newKeys: map<string, string>): map<string, string> { newKeys + store }

  method MergeSshKeys(doc: map<string, string>, newKeys: map<string, string>) returns (merged: map<string, string>, added: set<string>)
    ensures merged == Merged(doc, newKeys) && added == newKeys.Keys - doc.Keys
  {
    merged, added := doc, {};
    var todo := newKeys.Keys;
    while todo != {}
      invariant todo <= newKeys.Keys
      invariant merged == (map n | n in newKeys && n !in todo :: newKeys[n]) + doc
      invariant added == newKeys.Keys - todo - doc.Keys
      decreases todo
    {
      var n :| n in todo;
      if n !in merged {
        merged := merged[n := newKeys[n]];
        added := added + {n};
      }
      todo := todo - {n};
    }
    assert (map n | n in newKeys && n !in todo :: newKeys[n]) == newKeys;
  }

  // ----- the loop closes -----

  lemma KeyIsNotBlank(line: string)
    requires KeyParts(line).Some?
    ensures TrimSpace(line) != ""
  {
    hide TrimSpace;
  }

  /** What a standing reference resolves to after the merge: the line's key, comment aside. */
  lemma StandingResolves(hash: Digest, store: map<string, string>, newNames: map<string, string>, ref: string, line: string)
    requires Injective(hash) && StoreOk(hash, store) && OwnNames(hash, newNames)
    requires RefStands(hash, store, newNames, ref, line)
    ensures var v := Lookup(ref, SSH_PREFIX, Merged(store, newNames)); v.Some? && KeyIdOf(v.value) == KeyIdOf(line)
  {
    hide TrimSpace, Words, KeyParts;
    var name := ref[|SSH_PREFIX|..];
    var merged := Merged(store, newNames);
    var value := merged[name];
    TrimTwice(value);
    TrimTwice(line);
    if !(name in store && TrimSpace(store[name]) == TrimSpace(line)) {
      assert AdoptedName(hash, line) == Some(name);
      assert AdoptedName(hash, value) == Some(name);
      SamePrefix(hash(KeyParts(value).value), hash(KeyParts(line).value));
      KeyIsNotBlank(value);
    }
  }

  lemma SamePrefix(a: string, b: string)
    requires ADOPTED + a == ADOPTED + b
    ensures a == b
  {
    assert (ADOPTED + a)[|ADOPTED|..] == a && (ADOPTED + b)[|ADOPTED|..] == b;
  }

  /** Adopted references close the loop: after the no-clobber merge, at any later point of the run,
      they all resolve and yield exactly the live keys up to comment. */
  lemma AdoptedRefsResolve(hash: Digest, store: map<string, string>, newNames: map<string, string>, later: map<string, string>, refs: seq<string>, lines: seq<string>)
    requires Injective(hash) && StoreOk(hash, store)
    requires Covers(hash, store, newNames, refs, lines) && newNames.Keys <= later.Keys && OwnNames(hash, later)
    ensures var out := ResolveRefs(refs, Merged(store, later)); out.Some? && KeyIds(out.value) == KeyIds(lines)
  {
    hide TrimSpace, KeyParts, KeyIdOf, Lookup, Injective, StoreOk, OwnNames, RefStands, Merged, ResolveRefs, HasPrefix, Covers;
    Extends(hash, store, newNames, later, refs, lines);
    var merged := Merged(store, later);
    ResolveRefsAre(refs, merged);
    forall r | r in refs ensures Lookup(r, SSH_PREFIX, merged).Some? {
      var l := LineFor(hash, store, later, refs, lines, r);
      StandingResolves(hash, store, later, r, l);
    }
    var out := ResolveRefs(refs, merged).value;
    forall v | v in out ensures KeyIdOf(v) in KeyIds(lines) {
      var r :| r in refs && Lookup(r, SSH_PREFIX, merged) == Some(v);
      var l := LineFor(hash, store, later, refs, lines, r);
      StandingResolves(hash, store, later, r, l);
    }
    forall l | l in lines ensures KeyIdOf(l) in KeyIds(out) {
      var r := RefFor(hash, store, later, refs, lines, l);
      StandingResolves(hash, store, later, r, l);
      assert Lookup(r, SSH_PREFIX, merged).value in out;
    }
  }
}
