/** The accepted index of the chain, beside a cluster that runs the guest to be kept stopped: the
    hypotheses of bounded convergence are met, and all three cycles are needed. */
module Cluster {
  import opened Text
  import opened Quantity
  import opened Devices
  import opened Owned
  import opened Updates
  import opened Desired
  import opened P = Plan
  import opened PlanSafety
  import opened World
  import opened Exec
  import opened Local
  import opened ExecSafety
  import opened Runs
  import opened Guests
  import opened Convergence
  import opened Bound
  import opened Witness
  import opened Chain
  import Vm

  /** Only the idle VM is there, running, with nothing configured. */
  const FOUND := Obj(Qemu, map[], true)

  const CLUSTER := Site(map[Loc("n", 102) := FOUND], {})

  // ----- the manifests -----

  lemma BaseFits()
    ensures WellFormed(BaseDoc("s:iso/f"))
  {
    hide Vm.WellFormed, PlainTable, Vm.OwnedTable, IsCreateForm, CleanVolid;
    Names();
    VolidIsClean();
    var v := BaseVm("s:iso/f");
    VmWellFormed(v);
    PlainVm(v);
  }

  lemma VolidIsClean()
    ensures CleanVolid("s:iso/f") && !IsCreateForm("s:iso/f" + ",media=" + "cdrom")
  {
    hide CreateRest, CleanIso;
    ColonAt("s:iso/f");
    ColonAt("s:iso/f,media=cdrom");
    CleanParts();
    NoCreateRest();
    assert "s:iso/f" + ",media=" + "cdrom" == "s:iso/f,media=cdrom";
    assert "s:iso/f,media=cdrom"[2..] == "iso/f,media=cdrom";
    assert "s:iso/f"[..1] == "s" && "s:iso/f"[2..] == "iso/f" && "s:iso/f"[6..] == "f";
  }

  lemma ColonAt(s: string)
    requires |s| > 1 && s[0] != ':' && s[1] == ':'
    ensures IndexOf(s, ':') == 1
  {
    assert IndexOf(s[1..], ':') == 0;
  }

  lemma CleanParts()
    ensures CleanIso("s", "f")
  {
  }

  lemma NoCreateRest()
    ensures !CreateRest("iso/f,media=cdrom")
  {
    hide IndexOf;
    var rest := "iso/f,media=cdrom";
    assert rest[0] == 'i';
    assert ':' !in rest;
    forall j | 0 <= j < |rest| ensures !HasPrefix(rest[j..], ":cloudinit") {
      assert rest[j..][0] == rest[j];
    }
  }

  lemma CopyFits()
    ensures WellFormed(CopyDoc(100)) && Vm.IsCloneBacked(CopyVm(100))
  {
    hide Vm.WellFormed, PlainTable, Vm.OwnedTable, IsCreateForm, Vm.CreateParams, CreateValue, Vm.FixedEntry;
    Names();
    var v := CopyVm(100);
    VmWellFormed(v);
    PlainVm(v);
    forall k | k in Vm.CreateParams(v) ensures !IsCreateForm(Vm.CreateParams(v)[k]) {
      CopyParam(k);
      ColonFree("c");
      if k in Vm.OwnedTable(v) {
        Vm.Origin(v, k);
        NoCloudInit(v, k);
      }
    }
  }

  lemma CopyParam(k: Key)
    requires k in Vm.CreateParams(CopyVm(100))
    ensures var v := CopyVm(100);
            if k in Vm.OwnedTable(v) then Vm.CreateParams(v)[k] == CreateValue(Vm.OwnedTable(v)[k].field) else Vm.CreateParams(v)[k] == "c"
  {
    hide Vm.OwnedTable, CreateValue, OneMiB;
  }

  lemma NoCloudInit(v: Vm.VmSpec, k: Key)
    requires !v.hw.ciEnabled && Vm.FixedEntry(v, k).Some?
    ensures !Vm.FixedEntry(v, k).value.field.CloudInitF?
  {
    hide MemoryMiB, TrimSpace, Vm.IsCloneBacked, Vm.SshWire, Join, AllTags, Vm.ScsiController, Vm.TpmVersion;
  }

  lemma IdleFits()
    ensures WellFormed(IdleDoc())
  {
    hide Vm.WellFormed, PlainTable, Vm.OwnedTable, IsCreateForm;
    Blank();
    VmWellFormed(IdleVm());
    PlainVm(IdleVm());
  }

  lemma AllFit()
    ensures Manageable(RESOLVED, PLANNING)
  {
    hide WellFormed, FromIndex, Acceptable, List, ResolvedDocs, GraphOf, Manageable, NodeAllowed, Consistent, OneMiB;
    IsAccepted();
    BaseFits();
    CopyFits();
    IdleFits();
    assert WellFormed(ISO_DOC) by { FileFits(); }
    AcceptedManageable(DOCS, PLANNING) by { Anywhere(); }
  }

  lemma FileFits()
    ensures WellFormed(ISO_DOC)
  {
  }

  lemma Anywhere()
    ensures forall n :: NodeAllowed(PLANNING.allow, n)
  {
  }

  // ----- the live object -----

  lemma NoFlag()
    ensures !IsTemplate(map[])
  {
    assert "1" != "" && "true" != "";
  }

  lemma BareIsTractable()
    ensures Tractable(IdleDoc(), map[])
  {
    hide Vm.OwnedTable, Propose;
    Blank();
  }

  lemma BareDrifts()
    ensures hide *; DriftOf(IdleDoc(), map[]).Some? && DriftOf(IdleDoc(), map[]).value.stop
  {
    hide Vm.OwnedTable, Vm.ClearKeys, Vm.WellFormed, Propose, Vm.FixedEntry;
    Blank();
    var v := IdleVm();
    VmWellFormed(v);
    Vm.Origin(v, Cores);
    CoresDrift(v);
    var t := Vm.OwnedTable(v);
    assert t[Cores] == Entry(IntF(1), true);
    assert Cores in DriftParams(t, map[]) && DriftStops(t, map[]);
    DriftIs(IdleDoc(), map[]);
  }

  lemma CoresDrift(v: Vm.VmSpec)
    requires v.cores == 1
    ensures Vm.FixedEntry(v, Cores) == Some(Entry(IntF(1), true)) && Cores in Vm.FIXED_KEYS
    ensures Propose(IntF(1), Cores, map[]).Some?
  {
    Blank();
    assert Atoi("") == 0;
  }

  /** The index is accepted, its list is manageable, the cluster is workable, and the clone waits for the
      overrunning VM: what three cycles and no fewer need. */
  lemma HypothesesAreMet()
    ensures hide *; Acceptable(DOCS) && Consistent(IndexOfDocs(DOCS)) && List(IndexOfDocs(DOCS)) == RESOLVED
    ensures FromIndex(PLANNING, GraphOf(ResolvedDocs(DOCS))) && Manageable(RESOLVED, PLANNING) && AllWorkable(RESOLVED, CLUSTER)
    ensures IdleDoc() in RESOLVED && Overrunning(IdleDoc(), ObjAt(CLUSTER, HomeOf(IdleDoc())))
    ensures CopyDoc(100) in RESOLVED && Waits(PLANNING, CLUSTER, IdleDoc(), CopyDoc(100))
  {
    hide WellFormed, FromIndex, Acceptable, List, ResolvedDocs, GraphOf, Manageable, Tractable, DriftOf, IsTemplate, OneMiB, Consistent, IndexOfDocs;
    Names();
    IsAccepted();
    AllFit();
    NoFlag();
    BareIsTractable();
    BareDrifts();
  }

  /** Every run from this cluster: the third plan starts the clone, the fourth holds prunes only. */
  lemma ThreeCycles(listings: seq<seq<Listed>>, plans: seq<P.Plan>, ws: seq<World>)
    requires hide CycleStep; Cycles(RESOLVED, PLANNING, listings, plans, ws) && ws[0].site == CLUSTER && ws[0].faults == [] && |plans| >= 4
    ensures exists a | a in plans[2].actions :: a.what == Start && LocOf(a) == HomeOf(CopyDoc(100))
    ensures forall a | a in plans[3].actions :: a.what == Delete
  {
    hide Cycles, Manageable, AllWorkable, FromIndex, Overrunning, Waits, Acceptable, Consistent, List, ResolvedDocs, GraphOf, OneMiB;
    HypothesesAreMet();
    ThirdCycleNeeded(RESOLVED, PLANNING, GraphOf(ResolvedDocs(DOCS)), listings, plans, ws, IdleDoc(), CopyDoc(100));
    ConvergesInThree(RESOLVED, PLANNING, listings, plans, ws, 3);
  }
}
