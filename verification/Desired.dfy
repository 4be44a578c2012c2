/** Desired state: decoded manifests, reference resolution and the validated index. */
module Desired {
  import opened Text
  import opened Graph
  import opened VmDrives
  import Vm
  import Lxc

  datatype Kind = VM | LXC | CTTemplate | ISO | DiskImage | TemplateVM | TemplateCT | Other(spelling: string)

  datatype Ref = Ref(kind: Kind, name: string)

  /** A downloadable file: an ISO, container template or disk image wanted on every listed node. */
  datatype Artifact = Artifact(name: string, nodes: seq<string>, storage: string, filename: string, url: string)

  datatype Body = Machine(vm: Vm.VmSpec) | Container(lxc: Lxc.LxcSpec) | File(file: Artifact)

  /** The depends-on annotation. */
  datatype Annotation = Malformed | DependsOn(edges: seq<Ref>)

  datatype Resource = Resource(kind: Kind, dependsOn: Annotation, body: Body)

  predicate ArtifactKind(k: Kind) { k == ISO || k == CTTemplate || k == DiskImage }

  function NameOf(r: Resource): string {
    match r.body
    case Machine(v) => v.name
    case Container(l) => l.name
    case File(f) => f.name
  }

  function RefOf(r: Resource): Ref { Ref(r.kind, NameOf(r)) }

  function NodesOf(r: Resource): seq<string> {
    match r.body
    case Machine(v) => if v.node == "" then [] else [v.node]
    case Container(l) => if l.node == "" then [] else [l.node]
    case File(f) => f.nodes
  }

  function NodeOf(r: Resource): string {
    match r.body
    case Machine(v) => v.node
    case Container(l) => l.node
    case File(f) => if f.nodes == [] then "" else f.nodes[0]
  }

  /** The PVE id, 0 for artifacts. */
  function IdOf(r: Resource): int {
    match r.body
    case Machine(v) => v.vmid
    case Container(l) => l.vmid
    case File(_) => 0
  }

  const STARTED := "started"
  const STOPPED := "stopped"

  /** Templates are always stopped; artifacts have no power state. */
  function DesiredState(r: Resource): string {
    match r.body
    case Machine(v) => if r.kind == TemplateVM || v.state == STOPPED then STOPPED else STARTED
    case Container(l) => if r.kind == TemplateCT || l.state == STOPPED then STOPPED else STARTED
    case File(_) => ""
  }

  /** Identity and lifecycle rules every indexed manifest meets. */
  predicate Valid(r: Resource) {
    match r.kind
    case VM => r.body.Machine? && r.body.vm.node != "" && r.body.vm.vmid > 0
               && (Vm.IsCloneBacked(r.body.vm) ==> r.body.vm.disks == [])
    case TemplateVM => r.body.Machine? && r.body.vm.node != "" && r.body.vm.vmid > 0
                       && !Vm.IsCloneBacked(r.body.vm) && r.body.vm.state in {"", STOPPED}
    case LXC => r.body.Container? && r.body.lxc.node != "" && r.body.lxc.vmid > 0 && r.body.lxc.template != ""
    case TemplateCT => r.body.Container? && r.body.lxc.node != "" && r.body.lxc.vmid > 0 && r.body.lxc.template != ""
                       && r.body.lxc.state in {"", STOPPED}
    case Other(_) => false
    case _ => r.body.File? && r.body.file.nodes != [] && "" !in r.body.file.nodes && r.body.file.storage != "" && r.body.file.filename != ""
              && r.body.file.url != ""
  }

  // ----- edges -----

  function ImageRefs(disks: seq<Disk>): seq<Ref> {
    if disks == [] then []
    else
      var name := TrimSpace(disks[0].image);
      (if name != "" then [Ref(DiskImage, name)] else []) + ImageRefs(disks[1..])
  }

  /** Structured dependencies. */
  function Deps(r: Resource): seq<Ref> {
    match r.body
    case Machine(v) =>
      var iso := TrimSpace(v.hw.cdromIso);
      (if iso != "" && iso != Vm.CDROM_NONE then [Ref(ISO, iso)] else [])
      + ImageRefs(v.disks)
      + (if r.kind != TemplateVM && Vm.IsCloneBacked(v) then [Ref(TemplateVM, TrimSpace(v.clone))] else [])
    case Container(l) => if l.template == "" then [] else [Ref(CTTemplate, l.template)]
    case File(_) => []
  }

  /** Annotations of disk images are not read. */
  function Annotated(r: Resource): seq<Ref> {
    if r.kind == DiskImage || r.dependsOn.Malformed? then [] else r.dependsOn.edges
  }

  function Merge(out: seq<Ref>, more: seq<Ref>): (r: seq<Ref>)
    ensures forall x :: x in r <==> x in out || x in more
    ensures Distinct(out) ==> Distinct(r)
    decreases |more|
  {
    if more == [] then out
    else Merge(if more[0] in out then out else out + [more[0]], more[1..])
  }

  /** Structured and annotated edges, each target once. */
  function Edges(r: Resource): (e: seq<Ref>)
    ensures Distinct(e) && forall x :: x in e <==> x in Deps(r) || x in Annotated(r)
  {
    Merge([], Deps(r) + Annotated(r))
  }

  lemma MergeStep(out: seq<Ref>, all: seq<Ref>, i: nat)
    requires i < |all|
    ensures Merge(out, all[i..]) == Merge(if all[i] in out then out else out + [all[i]], all[i + 1..])
  {
    assert all[i..][1..] == all[i + 1..];
  }

  lemma MergeNone(out: seq<Ref>)
    ensures Merge(out, []) == out
  {
  }

  method EdgesFor(r: Resource) returns (out: seq<Ref>)
    ensures out == Edges(r)
  {
    hide Deps, Annotated, Merge;
    out := [];
    var all := Deps(r) + Annotated(r);
    assert all[0..] == all;
    for i := 0 to |all|
      invariant Merge(out, all[i..]) == Edges(r)
    {
      MergeStep(out, all, i);
      if all[i] !in out {
        out := out + [all[i]];
      }
    }
    MergeNone(out);
    assert all[|all|..] == [];
  }

  // ----- reference resolution -----

  type ByRef = map<Ref, Resource>

  /** The artifact `name` of kind `k`, when it is defined and placed on `node`. */
  function PlacedFile(byRef: ByRef, k: Kind, name: string, node: string): Option<Artifact> {
    if Ref(k, name) in byRef && byRef[Ref(k, name)].body.File? && node in byRef[Ref(k, name)].body.file.nodes
    then Some(byRef[Ref(k, name)].body.file) else None
  }

  function ResolveCdrom(v: Vm.VmSpec, byRef: ByRef): Option<Vm.VmSpec> {
    var iso := TrimSpace(v.hw.cdromIso);
    if iso == "" || iso == Vm.CDROM_NONE then Some(v.(cdromVolid := ""))
    else
      var f := PlacedFile(byRef, ISO, iso, v.node);
      if f.None? then None else Some(v.(cdromVolid := f.value.storage + ":iso/" + f.value.filename))
  }

  function ResolveImage(d: Disk, node: string, byRef: ByRef): Option<Disk> {
    var name := TrimSpace(d.image);
    if name == "" then Some(d.(imageVolid := ""))
    else
      var f := PlacedFile(byRef, DiskImage, name, node);
      if f.None? then None else Some(d.(imageVolid := f.value.storage + ":import/" + f.value.filename))
  }

  function ResolveImages(disks: seq<Disk>, node: string, byRef: ByRef): Option<seq<Disk>> {
    if disks == [] then Some([])
    else
      var d, rest := ResolveImage(disks[0], node, byRef), ResolveImages(disks[1..], node, byRef);
      if d.None? || rest.None? then None else Some([d.value] + rest.value)
  }

  /** The clone source is the referenced template's own pinned id. */
  function ResolveClone(v: Vm.VmSpec, byRef: ByRef): Option<Vm.VmSpec> {
    if !Vm.IsCloneBacked(v) then Some(v.(cloneSource := 0))
    else
      var ref := Ref(TemplateVM, TrimSpace(v.clone));
      if ref in byRef && byRef[ref].body.Machine? && v.node in NodesOf(byRef[ref]) && IdOf(byRef[ref]) > 0
      then Some(v.(cloneSource := IdOf(byRef[ref]))) else None
  }

  function ResolveMachine(v: Vm.VmSpec, cloneTarget: bool, byRef: ByRef): Option<Vm.VmSpec> {
    var a := ResolveCdrom(v, byRef);
    if a.None? then None
    else
      var disks := ResolveImages(v.disks, v.node, byRef);
      if disks.None? then None
      else
        var b := a.value.(disks := disks.value);
        if cloneTarget then ResolveClone(b, byRef) else Some(b)
  }

  /** ResolveArtifactRefs for one manifest; None is the fail-closed error. */
  function Resolve(r: Resource, byRef: ByRef): (out: Option<Resource>)
    ensures out.Some? ==> RefOf(out.value) == RefOf(r) && NodesOf(out.value) == NodesOf(r) && IdOf(out.value) == IdOf(r)
    ensures out.Some? ==> NodeOf(out.value) == NodeOf(r) && DesiredState(out.value) == DesiredState(r)
  {
    match r.body
    case Machine(v) =>
      var m := ResolveMachine(v, r.kind == VM, byRef);
      if m.None? then None else Some(r.(body := Machine(m.value)))
    case Container(l) =>
      if l.template == "" then Some(r.(body := Container(l.(ostemplate := ""))))
      else
        var f := PlacedFile(byRef, CTTemplate, l.template, l.node);
        if f.None? then None else Some(r.(body := Container(l.(ostemplate := f.value.storage + ":vztmpl/" + f.value.filename))))
    case File(_) => Some(r)
  }

  /** Binding references leaves a valid manifest valid. */
  lemma ResolveKeepsValid(r: Resource, byRef: ByRef)
    requires Valid(r) && Resolve(r, byRef).Some?
    ensures Valid(Resolve(r, byRef).value)
  {
    hide TrimSpace, Vm.IsCloneBacked, ResolveCdrom, ResolveClone;
    if r.body.Machine? {
      MachineKeeps(r.body.vm, r.kind == VM, byRef);
    }
  }

  lemma MachineKeeps(v: Vm.VmSpec, cloneTarget: bool, byRef: ByRef)
    requires ResolveMachine(v, cloneTarget, byRef).Some?
    ensures var w := ResolveMachine(v, cloneTarget, byRef).value;
            && w.node == v.node && w.vmid == v.vmid && w.state == v.state && Vm.IsCloneBacked(w) == Vm.IsCloneBacked(v)
            && (v.disks == [] ==> w.disks == [])
  {
  }

  lemma {:induction false} ImagesPrefix(disks: seq<Disk>, i: nat, node: string, byRef: ByRef)
    requires i < |disks|
    ensures ResolveImages(disks[..i + 1], node, byRef) ==
            var before, d := ResolveImages(disks[..i], node, byRef), ResolveImage(disks[i], node, byRef);
            if before.None? || d.None? then None else Some(before.value + [d.value])
  {
    hide ResolveImage, ResolveImages;
    var first, last := ResolveImage(disks[0], node, byRef), ResolveImage(disks[i], node, byRef);
    ImagesHead(disks[..i + 1], node, byRef);
    ImagesHead(disks[..i], node, byRef);
    if i > 0 {
      var rest := disks[1..];
      assert disks[..i + 1][1..] == rest[..i - 1 + 1] && disks[..i][1..] == rest[..i - 1] && rest[i - 1] == disks[i];
      ImagesPrefix(rest, i - 1, node, byRef);
      var middle := ResolveImages(rest[..i - 1], node, byRef);
      assert first.Some? && middle.Some? && last.Some? ==>
               [first.value] + (middle.value + [last.value]) == ([first.value] + middle.value) + [last.value];
    } else {
      assert disks[..1][1..] == [] && disks[..0] == [];
      ImagesHead([], node, byRef);
      assert first.Some? ==> [] + [first.value] == [first.value] + [];
    }
  }

  lemma ImagesHead(disks: seq<Disk>, node: string, byRef: ByRef)
    ensures disks == [] ==> ResolveImages(disks, node, byRef) == Some([])
    ensures disks != [] ==>
              var d, rest := ResolveImage(disks[0], node, byRef), ResolveImages(disks[1..], node, byRef);
              ResolveImages(disks, node, byRef) == if d.None? || rest.None? then None else Some([d.value] + rest.value)
  {
    hide ResolveImage;
  }

  lemma {:induction false} ImagesFail(disks: seq<Disk>, i: nat, node: string, byRef: ByRef)
    requires i < |disks| && ResolveImage(disks[i], node, byRef).None?
    ensures ResolveImages(disks, node, byRef).None?
  {
    hide ResolveImage;
    if i > 0 {
      ImagesFail(disks[1..], i - 1, node, byRef);
    }
  }

  /** A decoded VM manifest whose references are bound in place. */
  class VmManifest {
    var spec: Vm.VmSpec

    constructor (spec: Vm.VmSpec)
      ensures this.spec == spec
    {
      this.spec := spec;
    }

    method BindCdrom(byRef: ByRef) returns (ok: bool)
      modifies this
      ensures ok <==> ResolveCdrom(old(spec), byRef).Some?
      ensures spec == if ok then ResolveCdrom(old(spec), byRef).value else old(spec)
    {
      var iso := TrimSpace(spec.hw.cdromIso);
      if iso == "" || iso == Vm.CDROM_NONE {
        spec := spec.(cdromVolid := "");
        return true;
      }
      var file := PlacedFile(byRef, ISO, iso, spec.node);
      if file.None? {
        return false;
      }
      spec := spec.(cdromVolid := file.value.storage + ":iso/" + file.value.filename);
      ok := true;
    }

    /** One disk after the other; disks before a failing one stay bound. */
    method BindDiskImages(byRef: ByRef) returns (ok: bool)
      modifies this
      ensures ok <==> ResolveImages(old(spec).disks, old(spec).node, byRef).Some?
      ensures ok ==> spec == old(spec).(disks := ResolveImages(old(spec).disks, old(spec).node, byRef).value)
    {
      hide ResolveImage, ResolveImages;
      ghost var disks, node := spec.disks, spec.node;
      NoImages(disks, node, byRef);
      for i := 0 to |spec.disks|
        invariant |spec.disks| == |disks| && spec == old(spec).(disks := spec.disks)
        invariant ResolveImages(disks[..i], node, byRef) == Some(spec.disks[..i]) && spec.disks[i..] == disks[i..]
      {
        assert spec.disks[i] == disks[i];
        ImagesPrefix(disks, i, node, byRef);
        var d := ResolveImage(spec.disks[i], spec.node, byRef);
        if d.None? {
          ImagesFail(disks, i, node, byRef);
          return false;
        }
        ghost var before := spec.disks;
        spec := spec.(disks := spec.disks[i := d.value]);
        assert spec.disks[..i + 1] == before[..i] + [d.value];
      }
      assert disks[..|disks|] == disks && spec.disks[..|disks|] == spec.disks;
      assert ResolveImages(disks, node, byRef) == Some(spec.disks);
      ok := true;
    }

    method BindClone(byRef: ByRef) returns (ok: bool)
      modifies this
      ensures ok <==> ResolveClone(old(spec), byRef).Some?
      ensures spec == if ok then ResolveClone(old(spec), byRef).value else old(spec)
    {
      var r := ResolveClone(spec, byRef);
      ok := r.Some?;
      if ok {
        spec := r.value;
      }
    }

    /** The three bindings in order; a TemplateVM is never a clone target. */
    method Bind(cloneTarget: bool, byRef: ByRef) returns (ok: bool)
      modifies this
      ensures ok <==> ResolveMachine(old(spec), cloneTarget, byRef).Some?
      ensures ok ==> spec == ResolveMachine(old(spec), cloneTarget, byRef).value
    {
      hide ResolveImages, ResolveClone;
      ok := BindCdrom(byRef);
      if !ok {
        return;
      }
      ok := BindDiskImages(byRef);
      if ok && cloneTarget {
        ok := BindClone(byRef);
      }
    }
  }

  lemma NoImages(disks: seq<Disk>, node: string, byRef: ByRef)
    ensures ResolveImages(disks[..0], node, byRef) == Some([])
  {
  }

  /** Two maps that agree on everything resolution reads. */
  predicate SameSources(a: ByRef, b: ByRef) {
    a.Keys == b.Keys && forall ref | ref in a :: SameSource(a[ref], b[ref])
  }

  predicate SameSource(x: Resource, y: Resource) {
    && x.body.Machine? == y.body.Machine? && x.body.File? == y.body.File? && NodesOf(x) == NodesOf(y) && IdOf(x) == IdOf(y)
    && (x.body.File? ==> x.body == y.body)
  }

  lemma {:induction false} ImagesAgain(disks: seq<Disk>, node: string, a: ByRef, b: ByRef)
    requires SameSources(a, b) && ResolveImages(disks, node, a).Some?
    ensures var out := ResolveImages(disks, node, a).value; ResolveImages(out, node, b) == Some(out)
  {
    hide TrimSpace;
    if disks != [] {
      ImagesAgain(disks[1..], node, a, b);
      var out := ResolveImages(disks, node, a).value;
      assert out[1..] == ResolveImages(disks[1..], node, a).value;
      ImageAgain(disks[0], node, a, b);
    }
  }

  lemma ImageAgain(d: Disk, node: string, a: ByRef, b: ByRef)
    requires SameSources(a, b) && ResolveImage(d, node, a).Some?
    ensures var out := ResolveImage(d, node, a).value; ResolveImage(out, node, b) == Some(out)
  {
    hide TrimSpace;
  }

  /** Binding an already bound manifest again changes nothing. */
  lemma ResolveIdempotent(r: Resource, a: ByRef, b: ByRef)
    requires SameSources(a, b) && Resolve(r, a).Some?
    ensures Resolve(Resolve(r, a).value, b) == Resolve(r, a)
    ensures SameSource(r, Resolve(r, a).value)
  {
    hide TrimSpace, ResolveMachine;
    match r.body
    case Machine(v) => MachineAgain(v, r.kind == VM, a, b);
    case _ =>
  }

  lemma MachineAgain(v: Vm.VmSpec, cloneTarget: bool, a: ByRef, b: ByRef)
    requires SameSources(a, b) && ResolveMachine(v, cloneTarget, a).Some?
    ensures var out := ResolveMachine(v, cloneTarget, a).value; ResolveMachine(out, cloneTarget, b) == Some(out)
    ensures var out := ResolveMachine(v, cloneTarget, a).value; out.node == v.node && out.vmid == v.vmid && out.name == v.name
  {
    hide TrimSpace, ResolveImages, ResolveCdrom, ResolveClone, SameSources;
    CdromAgain(v, a, b);
    var c := ResolveCdrom(v, a).value;
    ImagesAgain(v.disks, v.node, a, b);
    var d := c.(disks := ResolveImages(v.disks, v.node, a).value);
    CdromUnread(c, d, b);
    if cloneTarget {
      CloneAgain(d, a, b);
      CdromUnread(d, ResolveClone(d, a).value, b);
    }
  }

  lemma CdromAgain(v: Vm.VmSpec, a: ByRef, b: ByRef)
    requires SameSources(a, b)
    ensures ResolveCdrom(v, a) == ResolveCdrom(v, b)
    ensures ResolveCdrom(v, a).Some? ==>
              var out := ResolveCdrom(v, a).value; ResolveCdrom(out, b) == Some(out) && out == v.(cdromVolid := out.cdromVolid)
  {
    hide TrimSpace;
  }

  /** CD/DVD binding reads the ISO name and the node only. */
  lemma CdromUnread(v: Vm.VmSpec, w: Vm.VmSpec, byRef: ByRef)
    requires ResolveCdrom(v, byRef) == Some(v) && w.hw == v.hw && w.node == v.node && w.cdromVolid == v.cdromVolid
    ensures ResolveCdrom(w, byRef) == Some(w)
  {
    hide TrimSpace;
  }

  lemma CloneAgain(v: Vm.VmSpec, a: ByRef, b: ByRef)
    requires SameSources(a, b) && ResolveClone(v, a).Some?
    ensures var out := ResolveClone(v, a).value; ResolveClone(out, b) == Some(out) && out == v.(cloneSource := out.cloneSource)
  {
    hide TrimSpace;
  }

  // ----- the index -----

  datatype Index = Index(byRef: ByRef, order: seq<Ref>)

  predicate Consistent(idx: Index) {
    && Distinct(idx.order)
    && (forall ref | ref in idx.order :: ref in idx.byRef) && (forall ref | ref in idx.byRef :: ref in idx.order)
    && (forall ref | ref in idx.byRef :: RefOf(idx.byRef[ref]) == ref)
  }

  function List(idx: Index): (rs: seq<Resource>)
    requires Consistent(idx)
    ensures |rs| == |idx.order|
    ensures forall i | 0 <= i < |rs| :: RefOf(rs[i]) == idx.order[i] && rs[i] == idx.byRef[idx.order[i]]
  {
    seq(|idx.order|, i requires 0 <= i < |idx.order| => idx.byRef[idx.order[i]])
  }

  function GraphOf(byRef: ByRef): Graph<Ref> { map ref | ref in byRef :: Edges(byRef[ref]) }

  function Docs(docs: seq<Resource>): ByRef {
    if docs == [] then map[] else Docs(docs[..|docs| - 1])[RefOf(docs[|docs| - 1]) := docs[|docs| - 1]]
  }

  predicate DistinctRefs(docs: seq<Resource>) {
    forall i, j | 0 <= i < j < |docs| :: RefOf(docs[i]) != RefOf(docs[j])
  }

  /** Guests of one node share PVE's id space, whatever their kind. */
  predicate DistinctIds(docs: seq<Resource>) {
    forall i, j | 0 <= i < j < |docs| && IdOf(docs[i]) > 0 && IdOf(docs[j]) > 0 ::
      (NodeOf(docs[i]), IdOf(docs[i])) != (NodeOf(docs[j]), IdOf(docs[j]))
  }

  /** Valid manifests with references and ids of their own. */
  predicate Unique(docs: seq<Resource>) { (forall d | d in docs :: Valid(d)) && DistinctRefs(docs) && DistinctIds(docs) }

  predicate Resolvable(docs: seq<Resource>) { forall d | d in docs :: Resolve(d, Docs(docs)).Some? }

  predicate Annotations(docs: seq<Resource>) { forall d | d in docs :: d.kind == DiskImage || !d.dependsOn.Malformed? }

  /** Exactly when a set of manifests is accepted. */
  ghost predicate Acceptable(docs: seq<Resource>) {
    && Unique(docs) && Resolvable(docs) && Annotations(docs)
    && Closed(GraphOf(ResolvedDocs(docs))) && Acyclic(GraphOf(ResolvedDocs(docs)))
  }

  /** The resolved manifests by reference. */
  function ResolvedDocs(docs: seq<Resource>): ByRef {
    map ref | ref in Docs(docs) && Resolve(Docs(docs)[ref], Docs(docs)).Some? :: Resolve(Docs(docs)[ref], Docs(docs)).value
  }

  function Refs(docs: seq<Resource>): seq<Ref> { seq(|docs|, i requires 0 <= i < |docs| => RefOf(docs[i])) }

  lemma {:induction false} DocsAt(docs: seq<Resource>, n: nat)
    requires n <= |docs| && DistinctRefs(docs)
    ensures forall i | 0 <= i < n :: RefOf(docs[i]) in Docs(docs[..n]) && Docs(docs[..n])[RefOf(docs[i])] == docs[i]
    ensures forall ref | ref in Docs(docs[..n]) :: exists i | 0 <= i < n :: RefOf(docs[i]) == ref
  {
    hide RefOf, DistinctRefs;
    if n > 0 {
      DocsAt(docs, n - 1);
      assert docs[..n][..n - 1] == docs[..n - 1] && docs[..n][n - 1] == docs[n - 1];
      EarlierRefs(docs, n - 1);
      forall ref | ref in Docs(docs[..n]) ensures exists i | 0 <= i < n :: RefOf(docs[i]) == ref {
        if ref != RefOf(docs[n - 1]) {
          assert ref in Docs(docs[..n - 1]);
          var i :| 0 <= i < n - 1 && RefOf(docs[i]) == ref;
          assert 0 <= i < n;
        } else {
          assert 0 <= n - 1 < n;
        }
      }
    }
  }

  lemma EarlierRefs(docs: seq<Resource>, n: nat)
    requires n < |docs| && DistinctRefs(docs)
    ensures forall i | 0 <= i < n :: RefOf(docs[i]) != RefOf(docs[n])
  {
    hide RefOf;
  }

  /** The (node, id) pairs taken by the first n manifests. */
  function TakenIds(docs: seq<Resource>, n: nat): set<(string, int)>
    requires n <= |docs|
  {
    set i | 0 <= i < n && IdOf(docs[i]) > 0 :: (NodeOf(docs[i]), IdOf(docs[i]))
  }

  lemma DocsExtend(docs: seq<Resource>, n: nat)
    requires n < |docs|
    ensures Docs(docs[..n + 1]) == Docs(docs[..n])[RefOf(docs[n]) := docs[n]]
    ensures Refs(docs[..n + 1]) == Refs(docs[..n]) + [RefOf(docs[n])]
    ensures TakenIds(docs, n + 1) == TakenIds(docs, n) + (if IdOf(docs[n]) > 0 then {(NodeOf(docs[n]), IdOf(docs[n]))} else {})
  {
    assert docs[..n + 1][..n] == docs[..n];
  }

  /** Reading the manifests: reference and id uniqueness. */
  method Collect(docs: seq<Resource>) returns (r: Option<Index>)
    ensures r.Some? <==> (forall d | d in docs :: Valid(d)) && DistinctRefs(docs) && DistinctIds(docs)
    ensures r.Some? ==> r.value == Index(Docs(docs), Refs(docs)) && Consistent(r.value)
  {
    hide Valid, RefOf, IdOf, NodeOf;
    var byRef: ByRef, order: seq<Ref>, seenId: set<(string, int)> := map[], [], {};
    for i := 0 to |docs|
      invariant byRef == Docs(docs[..i]) && order == Refs(docs[..i]) && seenId == TakenIds(docs, i)
      invariant (forall j | 0 <= j < i :: Valid(docs[j])) && DistinctRefs(docs[..i]) && DistinctIds(docs[..i])
    {
      var doc := docs[i];
      if !Valid(doc) {
        assert doc in docs;
        return None;
      }
      DocsAt(docs[..i], i);
      assert docs[..i][..i] == docs[..i];
      if RefOf(doc) in byRef {
        var j :| 0 <= j < i && RefOf(docs[..i][j]) == RefOf(doc);
        assert docs[..i][j] == docs[j];
        return None;
      }
      var id := IdOf(doc);
      if id > 0 {
        if (NodeOf(doc), id) in seenId {
          return None;
        }
        seenId := seenId + {(NodeOf(doc), id)};
      }
      DocsExtend(docs, i);
      StillDistinct(docs, i);
      byRef := byRef[RefOf(doc) := doc];
      order := order + [RefOf(doc)];
    }
    assert docs[..|docs|] == docs;
    DocsConsistent(docs);
    r := Some(Index(byRef, order));
  }

  lemma StillDistinctRefs(docs: seq<Resource>, i: nat)
    requires i < |docs| && DistinctRefs(docs[..i]) && RefOf(docs[i]) !in Docs(docs[..i])
    ensures DistinctRefs(docs[..i + 1])
  {
    hide RefOf, Docs;
    DocsAt(docs[..i], i);
    assert docs[..i][..i] == docs[..i];
    var more := docs[..i + 1];
    forall a, b | 0 <= a < b < |more| ensures RefOf(more[a]) != RefOf(more[b]) {
      assert more[a] == docs[..i][a];
      if b < i {
        assert more[b] == docs[..i][b];
      }
    }
  }

  lemma StillDistinct(docs: seq<Resource>, i: nat)
    requires i < |docs| && DistinctRefs(docs[..i]) && DistinctIds(docs[..i])
    requires RefOf(docs[i]) !in Docs(docs[..i])
    requires IdOf(docs[i]) > 0 ==> (NodeOf(docs[i]), IdOf(docs[i])) !in TakenIds(docs, i)
    ensures DistinctRefs(docs[..i + 1]) && DistinctIds(docs[..i + 1])
  {
    hide RefOf, NodeOf, IdOf;
    StillDistinctRefs(docs, i);
    var more := docs[..i + 1];
    forall a, b | 0 <= a < b < |more| && IdOf(more[a]) > 0 && IdOf(more[b]) > 0
      ensures (NodeOf(more[a]), IdOf(more[a])) != (NodeOf(more[b]), IdOf(more[b]))
    {
      assert more[a] == docs[..i][a];
      if b < i {
        assert more[b] == docs[..i][b];
      } else {
        assert (NodeOf(docs[a]), IdOf(docs[a])) in TakenIds(docs, i);
      }
    }
  }

  lemma DocsConsistent(docs: seq<Resource>)
    requires DistinctRefs(docs)
    ensures Consistent(Index(Docs(docs), Refs(docs)))
    ensures forall i | 0 <= i < |docs| :: RefOf(docs[i]) in Docs(docs) && Docs(docs)[RefOf(docs[i])] == docs[i]
    ensures forall ref | ref in Docs(docs) :: Docs(docs)[ref] in docs
  {
    DocsAt(docs, |docs|);
    assert docs[..|docs|] == docs;
    var order := Refs(docs);
    forall ref | ref in order ensures ref in Docs(docs) {
      var i :| 0 <= i < |order| && order[i] == ref;
      assert order[i] == RefOf(docs[i]);
    }
    forall ref | ref in Docs(docs) ensures ref in order && RefOf(Docs(docs)[ref]) == ref && Docs(docs)[ref] in docs {
      var i :| 0 <= i < |docs| && RefOf(docs[i]) == ref;
      assert order[i] == ref;
    }
  }

  function IndexOfDocs(docs: seq<Resource>): Index { Index(ResolvedDocs(docs), Refs(docs)) }

  lemma ResolvedConsistent(docs: seq<Resource>)
    requires DistinctRefs(docs) && forall d | d in docs :: Resolve(d, Docs(docs)).Some?
    ensures Consistent(IndexOfDocs(docs)) && ResolvedDocs(docs).Keys == Docs(docs).Keys
    ensures forall ref | ref in Docs(docs) :: Resolve(Docs(docs)[ref], Docs(docs)) == Some(ResolvedDocs(docs)[ref])
  {
    hide Resolve, Docs;
    DocsConsistent(docs);
    forall ref | ref in Docs(docs)
      ensures ref in ResolvedDocs(docs) && Resolve(Docs(docs)[ref], Docs(docs)) == Some(ResolvedDocs(docs)[ref])
    {
      assert Docs(docs)[ref] in docs;
    }
  }

  method AllResolve(docs: seq<Resource>, byRef: ByRef) returns (ok: bool)
    requires byRef == Docs(docs)
    ensures ok == Resolvable(docs)
  {
    hide Resolve, Docs;
    for i := 0 to |docs|
      invariant forall j | 0 <= j < i :: Resolve(docs[j], byRef).Some?
    {
      if Resolve(docs[i], byRef).None? {
        assert docs[i] in docs;
        return false;
      }
    }
    ok := true;
  }

  method AllAnnotated(docs: seq<Resource>) returns (ok: bool)
    ensures ok == Annotations(docs)
  {
    for i := 0 to |docs|
      invariant forall j | 0 <= j < i :: docs[j].kind == DiskImage || !docs[j].dependsOn.Malformed?
    {
      if docs[i].kind != DiskImage && docs[i].dependsOn.Malformed? {
        assert docs[i] in docs;
        return false;
      }
    }
    ok := true;
  }

  lemma UniqueIs(docs: seq<Resource>)
    ensures Unique(docs) <==> (forall d | d in docs :: Valid(d)) && DistinctRefs(docs) && DistinctIds(docs)
  {
    hide Valid, DistinctRefs, DistinctIds;
  }

  /** BuildIndexFromFiles and its dependency checks. */
  method BuildIndex(docs: seq<Resource>) returns (r: Option<Index>)
    ensures r.Some? <==> Acceptable(docs)
    ensures r.Some? ==> r.value == IndexOfDocs(docs) && Consistent(r.value)
  {
    hide Unique, Resolvable, Annotations, Docs, ResolvedDocs, Refs, GraphOf, DistinctRefs, DistinctIds, Valid;
    UniqueIs(docs);
    var collected := Collect(docs);
    if collected.None? {
      return None;
    }
    var order := collected.value.order;
    var resolves := AllResolve(docs, collected.value.byRef);
    if !resolves {
      return None;
    }
    var annotated := AllAnnotated(docs);
    if !annotated {
      return None;
    }
    var resolved := ResolvedDocs(docs);
    AcceptedConsistent(docs);
    var g := GraphOf(resolved);
    GraphKeys(resolved);
    if !Closed(g) {
      return None;
    }
    var finder := new CycleFinder(g);
    var cycle := finder.IndexOfCycle(order);
    if cycle != [] {
      return None;
    }
    r := Some(Index(resolved, order));
  }

  lemma AcceptedConsistent(docs: seq<Resource>)
    requires Unique(docs) && Resolvable(docs)
    ensures Consistent(IndexOfDocs(docs)) && (forall n :: n in Refs(docs) <==> n in ResolvedDocs(docs))
  {
    hide Resolve, Valid, Docs;
    ResolvedConsistent(docs);
    DocsConsistent(docs);
  }

  lemma GraphKeys(byRef: ByRef)
    ensures GraphOf(byRef).Keys == byRef.Keys
  {
  }

  // ----- what acceptance guarantees -----

  lemma AcceptedAt(docs: seq<Resource>, ref: Ref)
    requires Acceptable(docs) && ref in Docs(docs)
    ensures ref in ResolvedDocs(docs) && Docs(docs)[ref] in docs && RefOf(Docs(docs)[ref]) == ref
    ensures Resolve(Docs(docs)[ref], Docs(docs)) == Some(ResolvedDocs(docs)[ref])
    ensures Valid(Docs(docs)[ref]) && ResolvedDocs(docs)[ref].kind == ref.kind
  {
    hide Resolve, Docs, Valid, GraphOf;
    DocsConsistent(docs);
    ResolvedConsistent(docs);
  }

  /** The manifests of an accepted index are the resolved ones, valid and with ids of their own. */
  lemma AcceptedList(docs: seq<Resource>)
    requires Acceptable(docs) && Consistent(IndexOfDocs(docs))
    ensures (forall r | r in List(IndexOfDocs(docs)) :: Valid(r)) && DistinctIds(List(IndexOfDocs(docs)))
  {
    hide Resolve, Docs, Valid, GraphOf, RefOf, IdOf, NodeOf, Resolvable, Annotations, Consistent;
    var desired := List(IndexOfDocs(docs));
    DocsConsistent(docs);
    forall i | 0 <= i < |desired| ensures Valid(desired[i]) && NodeOf(desired[i]) == NodeOf(docs[i]) && IdOf(desired[i]) == IdOf(docs[i]) {
      AcceptedAt(docs, RefOf(docs[i]));
      ResolveKeepsValid(docs[i], Docs(docs));
    }
  }

  /** A clone-backed VM of an accepted index clones a declared template on its own node, never
      itself, and depends on it. */
  lemma CloneSourceSound(docs: seq<Resource>, ref: Ref)
    requires Acceptable(docs) && ref in ResolvedDocs(docs) && ref.kind == VM
    requires var b := ResolvedDocs(docs)[ref].body; b.Machine? && Vm.IsCloneBacked(b.vm)
    ensures var v, t := ResolvedDocs(docs)[ref].body.vm, Ref(TemplateVM, TrimSpace(ResolvedDocs(docs)[ref].body.vm.clone));
            && t in ResolvedDocs(docs) && t in Edges(ResolvedDocs(docs)[ref])
            && v.cloneSource == IdOf(ResolvedDocs(docs)[t]) && NodeOf(ResolvedDocs(docs)[t]) == v.node
            && v.cloneSource != 0 && v.cloneSource != v.vmid
  {
    hide Docs, Closed, Acyclic, GraphOf, Edges;
    AcceptedAt(docs, ref);
    var doc := Docs(docs)[ref];
    var v := ResolvedDocs(docs)[ref].body.vm;
    CloneResolved(doc, Docs(docs));
    var t := Ref(TemplateVM, TrimSpace(v.clone));
    AcceptedAt(docs, t);
    DifferentIds(docs, ref, t);
    CloneEdge(ResolvedDocs(docs)[ref]);
  }

  lemma CloneEdge(r: Resource)
    requires r.kind == VM && r.body.Machine? && Vm.IsCloneBacked(r.body.vm)
    ensures Ref(TemplateVM, TrimSpace(r.body.vm.clone)) in Edges(r)
  {
  }

  lemma CloneResolved(r: Resource, byRef: ByRef)
    requires r.kind == VM && r.body.Machine? && Resolve(r, byRef).Some? && Vm.IsCloneBacked(r.body.vm)
    ensures var v, t := Resolve(r, byRef).value.body.vm, Ref(TemplateVM, TrimSpace(r.body.vm.clone));
            && v.clone == r.body.vm.clone && v.node == r.body.vm.node && v.vmid == r.body.vm.vmid
            && t in byRef && byRef[t].body.Machine? && v.node in NodesOf(byRef[t]) && IdOf(byRef[t]) > 0
            && v.cloneSource == IdOf(byRef[t])
  {
  }

  lemma DifferentIds(docs: seq<Resource>, a: Ref, b: Ref)
    requires Acceptable(docs) && a in Docs(docs) && b in Docs(docs) && a != b
    requires IdOf(Docs(docs)[a]) > 0 && IdOf(Docs(docs)[b]) > 0 && NodeOf(Docs(docs)[a]) == NodeOf(Docs(docs)[b])
    ensures IdOf(Docs(docs)[a]) != IdOf(Docs(docs)[b])
  {
    hide Resolve, Valid, GraphOf, Docs;
    DocsConsistent(docs);
    var i :| 0 <= i < |docs| && docs[i] == Docs(docs)[a];
    var j :| 0 <= j < |docs| && docs[j] == Docs(docs)[b];
    assert i != j;
  }

  /** Every container of an accepted index is created from a template file placed on its node. */
  lemma ContainerTemplateSound(docs: seq<Resource>, ref: Ref)
    requires Acceptable(docs) && ref in ResolvedDocs(docs) && ResolvedDocs(docs)[ref].body.Container?
    ensures var l := ResolvedDocs(docs)[ref].body.lxc;
            var t := Ref(CTTemplate, l.template);
            && t in ResolvedDocs(docs) && t in Edges(ResolvedDocs(docs)[ref]) && ResolvedDocs(docs)[t].body.File?
            && l.node in ResolvedDocs(docs)[t].body.file.nodes
            && l.ostemplate == ResolvedDocs(docs)[t].body.file.storage + ":vztmpl/" + ResolvedDocs(docs)[t].body.file.filename
  {
    hide Docs, Closed, Acyclic, GraphOf;
    AcceptedAt(docs, ref);
    var l := ResolvedDocs(docs)[ref].body.lxc;
    AcceptedAt(docs, Ref(CTTemplate, l.template));
  }

  /** The file `name` of kind `k` is indexed, placed on `node`, and depended on by `r`. */
  predicate Supplies(byRef: ByRef, k: Kind, name: string, r: Resource, node: string) {
    && Ref(k, name) in byRef && Ref(k, name) in Edges(r)
    && byRef[Ref(k, name)].body.File? && node in byRef[Ref(k, name)].body.file.nodes
  }

  /** Every VM of an accepted index boots from the ISO and copies the disk images it names: each is
      placed on its node, is a dependency, and is bound to that very file. */
  lemma MediaSound(docs: seq<Resource>, ref: Ref)
    requires Acceptable(docs) && ref in ResolvedDocs(docs) && ResolvedDocs(docs)[ref].body.Machine?
    ensures var byRef, r := ResolvedDocs(docs), ResolvedDocs(docs)[ref];
            var v, iso := r.body.vm, TrimSpace(r.body.vm.hw.cdromIso);
            && (iso != "" && iso != Vm.CDROM_NONE ==>
                  Supplies(byRef, ISO, iso, r, v.node)
                  && v.cdromVolid == byRef[Ref(ISO, iso)].body.file.storage + ":iso/" + byRef[Ref(ISO, iso)].body.file.filename)
            && (forall i | 0 <= i < |v.disks| && TrimSpace(v.disks[i].image) != "" ::
                  var image := TrimSpace(v.disks[i].image);
                  Supplies(byRef, DiskImage, image, r, v.node)
                  && v.disks[i].imageVolid == byRef[Ref(DiskImage, image)].body.file.storage + ":import/" + byRef[Ref(DiskImage, image)].body.file.filename)
  {
    hide Docs, Acceptable, GraphOf, Edges, Valid, TrimSpace, ResolveMachine;
    AcceptedAt(docs, ref);
    var byRef, r := ResolvedDocs(docs), ResolvedDocs(docs)[ref];
    var was, v := Docs(docs)[ref].body.vm, r.body.vm;
    var iso := TrimSpace(v.hw.cdromIso);
    MachineBinds(was, r.kind == VM, Docs(docs));
    EdgesOfMachine(r);
    if iso != "" && iso != Vm.CDROM_NONE {
      KeepsFile(docs, Ref(ISO, iso));
    }
    forall i | 0 <= i < |v.disks| && TrimSpace(v.disks[i].image) != ""
      ensures var image := TrimSpace(v.disks[i].image);
              Supplies(byRef, DiskImage, image, r, v.node)
              && v.disks[i].imageVolid == byRef[Ref(DiskImage, image)].body.file.storage + ":import/" + byRef[Ref(DiskImage, image)].body.file.filename
    {
      ImageEdge(v.disks, i);
      KeepsFile(docs, Ref(DiskImage, TrimSpace(v.disks[i].image)));
    }
  }

  /** Resolution leaves files as they are. */
  lemma KeepsFile(docs: seq<Resource>, ref: Ref)
    requires Acceptable(docs) && ref in Docs(docs) && Docs(docs)[ref].body.File?
    ensures ref in ResolvedDocs(docs) && ResolvedDocs(docs)[ref] == Docs(docs)[ref]
  {
    hide Docs, Acceptable, GraphOf;
    AcceptedAt(docs, ref);
  }

  /** What binding a machine's media gives, field by field. */
  lemma MachineBinds(v: Vm.VmSpec, cloneTarget: bool, byRef: ByRef)
    requires ResolveMachine(v, cloneTarget, byRef).Some?
    ensures var out, iso := ResolveMachine(v, cloneTarget, byRef).value, TrimSpace(v.hw.cdromIso);
            && out.node == v.node && out.hw == v.hw && |out.disks| == |v.disks|
            && (iso != "" && iso != Vm.CDROM_NONE ==>
                  var f := PlacedFile(byRef, ISO, iso, v.node);
                  f.Some? && out.cdromVolid == f.value.storage + ":iso/" + f.value.filename)
            && (forall i | 0 <= i < |v.disks| ::
                  out.disks[i].image == v.disks[i].image
                  && (TrimSpace(v.disks[i].image) != "" ==>
                        var f := PlacedFile(byRef, DiskImage, TrimSpace(v.disks[i].image), v.node);
                        f.Some? && out.disks[i].imageVolid == f.value.storage + ":import/" + f.value.filename))
  {
    hide TrimSpace, ResolveImages, PlacedFile;
    ImagesBind(v.disks, v.node, byRef);
  }

  lemma {:induction false} ImagesBind(disks: seq<Disk>, node: string, byRef: ByRef)
    requires ResolveImages(disks, node, byRef).Some?
    ensures var out := ResolveImages(disks, node, byRef).value;
            |out| == |disks| && forall i | 0 <= i < |disks| :: Some(out[i]) == ResolveImage(disks[i], node, byRef)
  {
    hide ResolveImage;
    if disks != [] {
      ImagesBind(disks[1..], node, byRef);
    }
  }

  lemma {:induction false} ImageEdge(disks: seq<Disk>, i: nat)
    requires i < |disks| && TrimSpace(disks[i].image) != ""
    ensures Ref(DiskImage, TrimSpace(disks[i].image)) in ImageRefs(disks)
  {
    hide TrimSpace;
    if i > 0 {
      ImageEdge(disks[1..], i - 1);
    }
  }

  lemma EdgesOfMachine(r: Resource)
    requires r.body.Machine?
    ensures var v, iso := r.body.vm, TrimSpace(r.body.vm.hw.cdromIso);
            && (iso != "" && iso != Vm.CDROM_NONE ==> Ref(ISO, iso) in Edges(r))
            && (forall x | x in ImageRefs(v.disks) :: x in Edges(r))
  {
    hide TrimSpace, ImageRefs;
  }

  /** Re-running resolution on an accepted index yields the same resources. */
  lemma ResolutionIdempotent(docs: seq<Resource>, ref: Ref)
    requires Acceptable(docs) && ref in ResolvedDocs(docs)
    ensures Resolve(ResolvedDocs(docs)[ref], ResolvedDocs(docs)) == Some(ResolvedDocs(docs)[ref])
  {
    hide Docs, Acceptable, Resolve, GraphOf;
    var docsByRef, byRef := Docs(docs), ResolvedDocs(docs);
    AcceptedKeys(docs);
    forall x | x in docsByRef ensures SameSource(docsByRef[x], byRef[x]) {
      AcceptedAt(docs, x);
      ResolveIdempotent(docsByRef[x], docsByRef, docsByRef);
    }
    AcceptedAt(docs, ref);
    ResolveIdempotent(docsByRef[ref], docsByRef, byRef);
  }

  lemma AcceptedKeys(docs: seq<Resource>)
    requires Acceptable(docs)
    ensures ResolvedDocs(docs).Keys == Docs(docs).Keys && SameSources(Docs(docs), Docs(docs))
  {
    hide Docs, Resolve, Valid, GraphOf;
    ResolvedConsistent(docs);
  }
}
