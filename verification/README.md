# A verified model of ProxOps

ProxOps is a stateless reconciler: every cycle it reads manifests and live PVE reports, plans an ordered
list of actions and executes them. This project models that loop in Dafny and proves what its parts and its
runs guarantee. The configuration of a guest is a map from keys to strings, as in the repository's mock PVE;
property strings (drives, CD/DVD, cloud-init, SSH keys, networks, mounts, binds) are parsed and rendered as real
strings.

* **Strings and quantities** — `Text`, `Quantity`, `Codec`: splitting, trimming, numerals, byte quantities
  with 64-bit wrap-around, percent-encoding.
* **Drift engine** — `Drive`, `VmDrives`, `Devices`, `LxcWire`, `LxcMounts` hold the property strings;
  `Owned` is the table of owned keys both drift and create read; `Vm` and `Lxc` instantiate it. `Reports` says in
  which words PVE may report what it was sent, `Updates` when PVE takes an update and when it settles; `VmCarried`
  and `LxcCarried` say, field by field and without the drift code, which live configs carry a manifest; `Volumes`
  says which live values a rewrite leaves on their volume. The laws are: no drift exactly when the live config
  carries the manifest, one update settles drift (with the exact exceptions), a create settles, no update touches
  the volume under a live slot, every mismatch is reported, and a clone keeps nothing of its template's identity.
* **Index** — `Graph` (cycle search and levels, against definitions by walks), `Desired` (references,
  resolution, acceptance), `Secrets`.
* **Planner** — `Plan`, `Sorting`, `Live`, with `PlanSafety` and `Local` for what every plan guarantees. A plan is any
  result whose actions are a permutation in the order of the comparison: tier, level, kind of action, node, id, name.
  Inside a level that mixes creates and mark-templates the comparison is no order, and there nothing depends on how the
  sort breaks ties.
* **World and executor** — `World` follows the mock PVE; each call consumes one entry of an arbitrary fault
  script and may be refused, take effect while the caller sees a failure, or, for a config write, stop halfway.
  `Exec` is the specification, `Executor` the object that makes the calls and moves the counters of `Status`;
  `ExecSafety` and `PowerSafety` are proved for every fault script.
* **Cycles** — `Reconcile` (the gated cycle and any sequence of cycles), `Runs` (prune progress and the
  empty-desired guard over runs), `Guests`, `Converge` and `Convergence` (three cycles are enough), `Bound` (when
  three are needed) and `Stalemate` (a guest no number of cycles settles).
* **Adopt** — `Adopt`: live SSH keys to references and back; `AdoptDevices`: live disks, network and PCI devices to
  manifests, against the drift check of the manifest they become.
* **Examples** — `Witness` (small manifests that meet the hypotheses, and one for every exception), `Chain` (an
  accepted index and its plan) and `Cluster` (the same index beside a cluster that needs all three cycles).

Where the code is narrower than its comments, the model follows the code:

* Dependency deferral is one hop: a deferred action is not a failure. `Exec.DeferralExact` says exactly when an
  action is deferred, `Chain.DeferralIsNotTransitive` gives the plan that breaks the transitive reading.
* `mark-template` has no rank of its own and ties with `create` (internal/plan/plan.go:531). Ties then hide
  the order the comparison asks for (`PlanSafety.MarkTiesHideOrder`), but only in a level that holds both
  (`PlanSafety.RunOrder`).
* Prunes are not ordered by reverse dependency level; they run by node and id.
* A cycle after a failed git fetch parses the working directory again; the last good tree is only a flag
  (internal/reconcile/reconcile.go:165-203).
* The two template tests after the prune membership test decide a verdict exactly across guest families
  (`PlanSafety.TemplateChecksFire`), and there they can (`Witness.TemplateCheckCanFire`).
* The comparison of a VM's name servers and search domains is said to be about membership only; a match means
  equal membership exactly when the declared list has no duplicates (`VmCarried.WordSetsExactly`).
* A cloud-init drive is written in create form over whatever volume a plain VM has in `ide2`. PVE takes a VM update
  exactly when that does not happen (`Updates.VmDriftSettles`); otherwise the update is planned in every cycle
  and the volume stays (`Stalemate.RefusedForever`). A size declared with a suffix PVE does not write is enough
  (`Witness.DriveCanBeRefused`).
* A VM update settles unless a live EFI volume on the declared storage has another `efitype`, or it writes a
  cloud-init drive whose declared size is not spelled as PVE spells sizes, like `4MiB`
  (`Updates.VmDriftSettles`, `Witness.EfiCanBePinned`, `Witness.DriveCanBeMisread`). A container update
  is always taken and settles unless a legacy top-level `nesting` key disagrees (`Updates.LxcDriftSettles`,
  `Witness.NestingCanBeStuck`).
* An in-place rewrite stays on the live volume exactly when the parser reads a volume name there
  (`Volumes.VmKeepsExactly`, `Volumes.LxcKeepsExactly`); a value still in create form has none and loses what it says
  (`Volumes.CreateFormIsLost`).
* Options of a PCI device that the schema does not model, such as `x-vga`, are said not to be compared
  (internal/schema/pci.go:228-230); they are. An adopted device is quiet exactly when its live value holds no option
  but `pcie` (`AdoptDevices.AdoptedPciQuietExactly`, `AdoptDevices.VgaDrifts`).
* A memory quantity converted from PVE survives the way back exactly below 2^43 MiB (`Quantity.MemoryRoundTrip`).

Well-formedness (`Vm.WellFormed`, `Lxc.WellFormed`) is the schema's validation plus what it leaves open: distinct
numbered slots, values without separators, passthrough keys that are not owned keys. A live drive that is to be
rewritten is in report form (`Drive.ReportForm`): it has a pool and a volume name. Where PVE's acceptance matters it
is an allocated volume (`Updates.Allocated`): one word with one colon whose volume name is no number and does not begin
like a cloud-init request; and no declared value other than a volume reads as a request for a new one
(`Updates.PlainTable`). A reported cloud-init drive has a size in PVE's spelling, the same number of bytes as the
declared one where that can be read.

Many contracts begin with `hide`: it keeps the check that the clauses are well-formed from unfolding the predicates
they name. It has no bearing on what the clauses say.

## Model

| member | source | states |
|---|---|---|
| Quantity.ParseBytes | internal/schema/quantity.go:74-120 | the digit scan computes the quantity: bare integer, or integer prefix times unit factor with 64-bit wrap-around, None for blank, unknown unit or out-of-range input |
| Quantity.HumanRoundTrip | internal/schema/adopt.go:988-1012 | parsing the human form of any positive 63-bit byte count gives the count back |
| Quantity.MemoryRoundTrip | internal/schema/adopt.go:30-36 | a MiB count survives conversion to a quantity and back exactly when it is below 2^43 |
| Quantity.GiBStringExact | internal/schema/quantity.go:47-59 | the GiB numeral of a byte count denotes exactly that many bytes |
| Codec.UrlEncode | internal/schema/vm.go:2378-2394 | the byte loop computes the percent-encoding of RFC 3986 section 2.1 with the unreserved set of section 2.3 |
| Codec.CodecRoundTrip | internal/schema/vm.go:2378-2394 | decoding the encoded form gives back every byte string |
| Codec.WireMatchIsSetEquality | internal/schema/vm.go:2402-2428 | two encoded key lists match exactly when their sets of trimmed lines are equal |
| Codec.WireCarriesKeys | internal/schema/vm.go:2349-2371 | the wire value of a key list carries exactly its trimmed, non-sentinel keys |
| Drive.ParseDiskInfo | internal/schema/vm.go:1957-2023 | the token loop reads a drive string into pool, volume, owned options and raw tokens |
| Drive.RewriteRoundTrip | internal/schema/vm.go:2138-2175 | for every report-form string the rewrite parses back to the live pool, volume, size and raw tokens with wanted values for owned options and live ones for the rest, and no option drifts |
| VmDrives.CreatedDiskSettles | internal/schema/vm.go:2041-2092 | after a create-form write, held verbatim or as PVE reports it, a disk slot needs nothing |
| VmDrives.RewrittenDiskSettles | internal/schema/vm.go:2041-2092 | an in-place rewrite of a report-form disk needs nothing further |
| VmDrives.DiskKeepsVolume | internal/schema/vm.go:2041-2092 | whatever is written to an occupied disk slot has the live pool, volume name and size |
| VmDrives.RewrittenEfiSettles | internal/schema/vm.go:1546-1579 | a rewritten EFI volume needs nothing exactly when its type was not pinned against the live one |
| VmDrives.CreatedEfiSettles | internal/schema/vm.go:1533-1545 | a created EFI volume needs nothing |
| Devices.WrittenCdrom | internal/schema/vm.go:2574-2635 | the written CD/DVD value matches the wanted volume id |
| LxcWire.WrittenNet | internal/schema/lxc.go:730-867 | the rendered network string matches the manifest it was rendered for |
| LxcMounts.MountRewriteKeepsVolume | internal/schema/lxc.go:985-1043 | the rewrite of a report-form mount reads back as the live pool, volume and size |
| Reports.MountReported | internal/schema/lxc.go:945-951 | a created mount, as PVE reports the volume it allocated, needs nothing |
| Reports.TpmReported | internal/schema/vm.go:2637-2661 | a written tpm0 needs nothing more once PVE has added any options around its version, in any order |
| Reports.NetReported | internal/schema/lxc.go:719-867 | a written container network needs nothing more once PVE has added options the manifest does not pin, such as type and hwaddr, in any order |
| LxcMounts.RewrittenMountSettles | internal/schema/lxc.go:945-979 | a rewritten mount needs nothing further |
| LxcMounts.BindRoundTrip | internal/schema/lxc.go:657-716 | a written bind reads back as its host path, guest path and flag, and is recognised as a bind |
| LxcMounts.WrittenBindSettles | internal/schema/lxc.go:1114-1149 | a written bind needs nothing |
| Reports.FieldSettles | internal/schema/resource.go:114-123 | for every owned field and every way PVE may report what drift wrote, nothing more is needed exactly when the field is not stuck and is no cloud-init drive of a plain VM declared with a size PVE does not spell |
| Reports.DriftSettles | internal/schema/resource.go:114-123 | for every table of owned fields and every report of one update, nothing drifts exactly when no drifted field was stuck and no cloud-init drive was written with a size PVE does not spell; set and deleted keys are disjoint |
| Owned.CreateSettles | internal/schema/resource.go:106-112 | what PVE stores for a create request needs nothing |
| Updates.AcceptsExactly | internal/pveclient/mock/mock.go:929-988 | PVE takes an update of allocated volumes and plain values exactly when it writes no cloud-init drive over a volume |
| Updates.VmDriftSettles | internal/schema/vm.go:1389-1788 | PVE takes a VM update exactly when it does not write the cloud-init drive of a plain VM over another volume in ide2; what an update leaves, in every modelled report form, needs nothing more exactly when no EFI type is pinned against the live one and no cloud-init drive is written with a declared size PVE does not spell; set and deleted keys never overlap |
| Witness.EfiCanBePinned | internal/schema/vm.go:1546-1579 | a VM with a live EFI volume of another type drifts before its update and after it |
| Witness.DriveCanBeRefused | internal/schema/vm.go:1503-1511 | a VM whose cloud-init size is spelled differently from the reported one: its update is one PVE does not take |
| Witness.DriveCanBeMisread | internal/schema/vm.go:1503-1511 | the same VM with an empty ide2: PVE reports the 4MiB drive it created as 4M, and that drifts again |
| Witness.SmallGuestsFit | internal/schema/vm.go:487-663 | a small VM and a small container are well-formed, plain and readable: the hypotheses of the settling results can be met |
| Stalemate.RefusedForever | internal/schema/vm.go:1503-1511 | over any number of cycles and any faults, writes that stop halfway included, such an update is planned every time and the volume in ide2 never changes |
| VmCarried.NoDriftExactly | internal/schema/vm.go:1389-1788 | drift finds nothing exactly when every declared value is in effect in the live config as PVE reads it, volumes that must not be written aside, and a clone holds no inherited identity |
| VmCarried.StopExactly | internal/schema/vm.go:1389-1788 | an update asks for a stopped guest exactly when it writes more than tags, display, cloud-init data and options |
| VmCarried.WordSetsExactly | internal/schema/vm.go:2456-2476 | a match of name servers or search domains means equal sets of words, for every live value, exactly when the declared list has no duplicates |
| VmCarried.NicReads | internal/schema/vm.go:2210-2241 | a written network device reads back as the one it was written for |
| VmCarried.AddressReads | internal/schema/vm.go:2430-2454 | a written address value carries the address and the gateway |
| Vm.VmDriftKeepsData | internal/schema/vm.go:2041-2092 | over all of drift, an occupied disk or EFI slot keeps pool, volume name and size, is not reported as a mismatch at the same time, and undeclared disk slots are never written |
| Volumes.VmKeepsExactly | internal/schema/vm.go:2041-2175 | whatever a VM's drift writes to an occupied disk or EFI slot stays on the live volume exactly when the parser reads a volume name in the live value, or nothing stands there |
| Volumes.CreateFormIsLost | internal/schema/vm.go:2138-2175 | for every disk: a value left in create form is rewritten without what stood in its volume position |
| Vm.VmReportsDiskMismatch | internal/schema/vm.go:1186-1283 | a pool or size mismatch of a live disk is in the anomalies and not in the update |
| Vm.VmReportsEfiMismatch | internal/schema/vm.go:1186-1283 | a pool mismatch of a live EFI volume is in the anomalies and not in the update |
| Vm.VmCreateSettles | internal/schema/vm.go:766-918 | a VM created from its manifest has no drift |
| Vm.CloneLeavesNoIdentity | internal/schema/vm.go:1040-1169 | after the post-clone write every inherited identity key is the manifest's or absent, disk slots and an inherited ide2 are untouched, nothing is both set and deleted |
| Vm.DriftClearsIdentity | internal/schema/vm.go:1100-1135 | if the post-clone write failed, after the next drift update every identity key the manifest owns needs nothing more and no other one is live |
| Vm.ComputeDrift | internal/schema/vm.go:1389-1788 | checking one owned key after the other yields the drift of the specification |
| Vm.ComputeClearKeys | internal/schema/vm.go:1100-1135 | the scan finds exactly the live inherited keys the manifest does not own |
| Vm.DiskSlotDrift | internal/schema/vm.go:2041-2092 | the slot loop yields the safe disk updates, stops when there is one, and reports exactly the blocked slots |
| Updates.LxcDriftSettles | internal/schema/lxc.go:1202-1401 | PVE takes every container update, and what it leaves, in every modelled report form, needs nothing more exactly when no legacy nesting key disagrees |
| Lxc.StuckExactly | internal/schema/lxc.go:1456-1470 | the one container field that can be written again and again, and when |
| Witness.NestingCanBeStuck | internal/schema/lxc.go:1456-1470 | a container beside a legacy nesting key drifts before its update and after it |
| LxcCarried.NoDriftExactly | internal/schema/lxc.go:1202-1401 | drift finds nothing exactly when every declared value is in effect in the live config, storage that must not be written aside |
| LxcCarried.StopExactly | internal/schema/lxc.go:1202-1401 | an update asks for a stopped container exactly when it writes more than names, description and tags |
| Lxc.LxcDriftKeepsData | internal/schema/lxc.go:899-1149 | an occupied rootfs is never written, an occupied mount keeps pool, volume name and size, an occupied bind keeps its host directory up to trailing slashes, and no written slot is reported as a mismatch |
| Volumes.LxcKeepsExactly | internal/schema/lxc.go:945-1043 | the same exact condition for every allocated mount point of a container |
| Lxc.LxcReportsMismatch | internal/schema/lxc.go:899-1149 | every storage mismatch is in the anomalies and not in the update |
| Lxc.LxcCreateSettles | internal/schema/lxc.go:492-609 | a container created from its manifest has no drift |
| Lxc.LxcResource.CheckDrift | internal/schema/lxc.go:1202-1401 | drift returns the specified update and re-derives the anomaly field from nothing |
| Lxc.LxcResource.DriftAnomalies | internal/schema/lxc.go:1157-1187 | after a drift check the anomalies are the live-only mount points and the recorded ones |
| Graph.CycleFinder.Visit | internal/parse/parse.go:177-215 | depth-first search terminates on the white nodes, keeps its stack a walk, and returns a closed walk of real edges or finishes the node |
| Graph.CycleFinder.IndexOfCycle | internal/parse/parse.go:177-215 | nil exactly when the graph is acyclic; a returned path is a closed walk |
| Graph.OrderedIsAcyclic | internal/parse/parse.go:177-215 | a graph whose nodes are ordered after their dependencies has no cycle |
| Graph.LevelStep | internal/parse/parse.go:148-173 | one more than the largest dependency level is the length of the longest walk |
| Graph.LevelDescends | internal/parse/parse.go:148-173 | levels strictly decrease along edges and level 0 means no edges |
| Graph.Leveler.Levels | internal/parse/parse.go:148-173 | memoised levels are longest-walk lengths for every node in any visiting order |
| Desired.EdgesFor | internal/parse/parse.go:120-142 | structured and annotated edges, each target once |
| Desired.Collect | internal/parse/parse.go:354-392 | accepted exactly when all manifests are valid with unique references and unique ids per node |
| Desired.BuildIndex | internal/parse/parse.go:330-400 | an index exactly when manifests are unique, resolvable, well annotated, closed and acyclic; it holds the resolved manifests in order |
| Desired.CloneSourceSound | internal/schema/resolve_refs.go:82-107 | a clone of an accepted index uses the id of a declared template on its own node, never its own, and depends on it |
| Desired.ContainerTemplateSound | internal/schema/resolve_refs.go:142-164 | a container of an accepted index depends on a template file placed on its node and is created from it |
| Desired.MediaSound | internal/schema/resolve_refs.go:26-80 | every VM of an accepted index boots from the ISO and copies the disk images it names: placed on its node, dependencies of it, bound to those very files |
| Desired.ResolutionIdempotent | internal/schema/resolve_refs.go:20-26 | resolving an accepted index again changes nothing |
| Desired.VmManifest.BindDiskImages | internal/schema/resolve_refs.go:170-193 | the in-place loop binds every disk image or fails closed |
| Desired.VmManifest.Bind | internal/schema/resolve_refs.go:35-46 | CD/DVD, disk images and clone source are bound in order, exactly as the specification resolves them |
| Secrets.ResolveRefsAre | internal/schema/resolve_secrets.go:85-116 | references resolve exactly when each does, to exactly their trimmed values |
| Secrets.ResolveVm | internal/schema/resolve_secrets.go:82-134 | the reference loop resolves keys and password or fails closed |
| Sorting.StableSort | internal/plan/plan.go:532-550 | insertion sort permutes and orders by any total preorder that sandwiches the comparison |
| Plan.PassDesired | internal/plan/plan.go:191-357 | creates, updates, power changes and findings of all manifests, or an error exactly when one manifest has one |
| Plan.PassListing | internal/plan/plan.go:397-456 | candidates are the judged orphans and untagged objects are skipped, in listing order |
| Plan.Guard | internal/plan/plan.go:474-496 | a kind is suppressed exactly when it has no manifest and more candidates than the budget |
| Plan.ApplyBudget | internal/plan/plan.go:509-520 | the budget's worth of candidates is chosen, none of the rest before any of them by node and id |
| Plan.PlanActions | internal/plan/plan.go:165-552 | fails exactly when a manifest cannot be planned; otherwise returns a plan of the specification |
| PlanSafety.ActionSource | internal/plan/plan.go:191-523 | every action is a manifest's own tier-0 action or the prune of a judged orphan of an unsuppressed kind |
| PlanSafety.PruneSafety | internal/plan/plan.go:397-456 | every delete targets a listed object on an allowed node, readable, tagged, and claimed by no manifest of its family by id or by name |
| PlanSafety.TemplateChecksFire | internal/plan/plan.go:440-449 | the template tests decide a verdict exactly for a PVE template that would be an orphan and whose id a template manifest of the other guest family has |
| Witness.TemplateCheckCanFire | internal/plan/plan.go:440-449 | a tagged, flagged container at the id of a declared VM template: an orphan but for the test, ignored with it |
| PlanSafety.PrunePartition | internal/plan/plan.go:397-550 | deletes and deferred are the candidates, each once; a positive budget bounds deletes; deletes come last and are least by node and id among the unsuppressed |
| PlanSafety.PruneOrderIndependent | internal/plan/plan.go:509-520 | what is deleted does not depend on the order PVE lists objects in |
| PlanSafety.DependencyOrder | internal/plan/plan.go:525-550 | every tier-0 action comes after all tier-0 actions of its direct prerequisites |
| PlanSafety.RunOrder | internal/plan/plan.go:525-550 | no action runs before one the comparison puts before it unless their level holds creates and mark-templates; prunes run by node and id |
| PlanSafety.MarkTiesHideOrder | internal/plan/plan.go:531-550 | the comparison is not transitive where a create and a mark-template share a level |
| Local.PlanAtHome | internal/plan/plan.go:525-550 | the plan holds exactly a guest's own actions for its node and id, an update before a power change |
| Live.LoadLive | internal/plan/plan.go:565-658 | the read loops compute the inventory of the specification, whichever reads fail |
| Live.InventoryAt | internal/plan/plan.go:565-658 | a config is keyed under its guest kind, and under the template kind when flagged, exactly when its object is on an allowed node and was read; power only under the guest kind |
| World.Pve.Request | internal/pveclient/mock/mock.go:800-1239 | one PVE call: PVE's answer, a refusal without effect, an effect whose answer is lost, or a config write that stops after some of its keys and never takes a new volume over an occupied slot |
| Exec.ResultsAlign | internal/exec/exec.go:90-118 | one result per action in plan order; a deferred action is never OK |
| Exec.FailuresAre | internal/exec/exec.go:90-128 | the failure set holds exactly the named references and nodes of executed failures so far |
| Exec.DeferralExact | internal/exec/exec.go:90-118 | an action is deferred exactly when a direct prerequisite was executed on its node earlier and failed |
| Chain.DeferralIsNotTransitive | internal/exec/exec.go:107-114 | in the plan of an accepted index a download is refused, the template that boots from it is deferred and the clone of that template is executed |
| ExecSafety.DependencySafety | internal/exec/exec.go:82-118 | in the plan of an accepted index a dependent guest's create or mark is never executed after its prerequisite's action failed on the same node |
| ExecSafety.CreateBusy | internal/pveclient/mock/mock.go:818-822 | a create, template create or clone never touches an object that is already there |
| ExecSafety.ApplyFrame | internal/exec/exec.go:210-285 | an action changes no object but its own, whatever fails |
| ExecSafety.ApplySafe | internal/exec/exec.go:210-285 | with an accurate snapshot no call of an action deletes a running object or writes a stop-required config to one |
| ExecSafety.UpdateRestores | internal/exec/exec.go:261-285 | an update reported OK leaves an object that was running and is wanted running, running |
| PowerSafety.PowerSafety | internal/exec/exec.go:210-285 | in a whole run planned from an accurate snapshot both hold for every action, whatever calls fail |
| PowerSafety.NoRunningObjectDeleted | internal/exec/exec.go:212-222 | no delete in the log of such a run reached a running object |
| Executor.Runner.Update | internal/exec/exec.go:261-285 | stop, write and restart as specified, stopping at the first failure |
| Executor.Runner.CloneCreate | internal/exec/exec.go:409-442 | clone, read back, write as specified, stopping at the first failure |
| Executor.Runner.ApplyAction | internal/exec/exec.go:210-259 | each action makes the calls of the specification |
| Executor.Runner.Execute | internal/exec/exec.go:155-207 | one action, its result, and its counters: OK, pruned or error |
| Executor.Runner.RunPlan | internal/exec/exec.go:90-118 | the loop computes the specified results and world, counts executed actions and adds one per deferred prune |
| Executor.NoErrorMeansAllOk | internal/app/app.go:645-661 | when no executed action failed, no action was deferred and every result is OK |
| Status.Store.FinishCycle | internal/statusx/statusx.go:188-198 | closes the open cycle with its reason and object total and leaves the counters |
| Status.SortObjects | internal/statusx/statusx.go:213-222 | the swapping sort permutes the records and orders them by cluster, kind and name |
| Reconcile.Reconciler.constructor | internal/reconcile/reconcile.go:100-142 | a budget of zero or less becomes three |
| Reconcile.Reconciler.RunOneCycle | internal/reconcile/reconcile.go:160-403 | the cycle stops at the first closed gate without touching PVE; past all gates it executes a plan made for its own index and inventory, unless it is a dry run; memory, counters and result are accounted |
| Reconcile.Reconciler.RunCycles | internal/reconcile/reconcile.go:160-403 | over any sequence of cycles each stops at the first gate its own input and memory close, or at planning exactly when some manifest cannot be planned; an open cycle ran a plan made for its own index and the world it met, any other left PVE alone, and every call is about an allowed node |
| Reconcile.ConvergedIsHonest | internal/app/app.go:645-661 | a cycle that reads converged executed every planned action successfully |
| Reconcile.AllowedNodes | internal/reconcile/reconcile.go:416-440 | with a non-empty allowlist every planned action is on an allowed node |
| Reconcile.RunLogs | internal/exec/exec.go:90-118 | a run calls PVE only about nodes its actions name, whatever fails |
| Runs.CandidatesAreOrphans | internal/plan/plan.go:397-456 | the candidates of a fully read inventory are the orphans of the cluster, each once |
| Runs.NoNewOrphans | internal/plan/plan.go:358-523 | no cycle makes an orphan, whatever calls fail |
| Runs.DeletedIsGone | internal/exec/exec.go:212-222 | when no call fails every planned delete removes its object for good |
| Runs.PruneProgress | internal/plan/plan.go:397-523 | an unguarded cycle without failures removes exactly the smaller of budget and orphan count |
| Runs.AllPruned | internal/plan/plan.go:397-523 | k such cycles leave n minus k times budget orphans, and none once that reaches n |
| Runs.GuardExactly | internal/plan/plan.go:466-496 | the guard trips for a kind exactly when it has no manifest and more orphans than the budget |
| Runs.GuardedKindKept | internal/plan/plan.go:466-508 | orphans of a guarded kind come out of a cycle untouched, whatever calls fail |
| Runs.GuardedForever | internal/plan/plan.go:466-508 | a guarded kind loses nothing in any number of cycles, whatever calls fail |
| Guests.UpdateSettles | internal/schema/vm.go:1389-1788 | a guest whose live config passes the guards on its drives, EFI type, cloud-init drive and nesting key needs one update, which PVE takes and which settles |
| Guests.CloneWriteAccepted | internal/exec/exec.go:427-442 | PVE takes the post-clone write of a clone whose values do not read as new volumes |
| Converge.ClonedWithoutIdentity | internal/exec/exec.go:409-442 | for every fault script, when a clone's create is reported OK every inherited identity key of the new object is the manifest's or absent, and its disk slots are the clone's own |
| Guests.CloneTractable | internal/schema/vm.go:1389-1788 | a clone passes those guards whatever it inherited |
| Converge.PlanIsLocal | internal/plan/plan.go:206-357 | in a fully read inventory a guest's plan depends on the object at its own node and id only |
| Converge.CalmIsQuiet | internal/plan/plan.go:300-357 | a proper guest has nothing planned exactly when it has no drift and the wanted power |
| Convergence.AcceptedClonesOrdered | internal/parse/parse.go:148-173 | an accepted index puts every clone on a higher level than its template |
| Convergence.AcceptedManageable | internal/parse/parse.go:330-400 | the list of an accepted index is manageable as soon as its manifests are well-formed and on allowed nodes |
| Convergence.CycleTracks | internal/exec/exec.go:90-285 | one cycle calms every guest present with the right template flag and never leaves a guest running that should be stopped |
| Convergence.CycleSettles | internal/exec/exec.go:304-442 | once no guest overruns, one cycle makes every guest present and marked |
| Convergence.CycleDownloads | internal/plan/plan.go:723-764 | one cycle downloads every missing file |
| Convergence.ConvergesInThree | internal/plan/plan.go:191-357 | from the fourth plan on there is nothing to create, update, mark, start or stop, for any manageable desired state, workable cluster and number of cycles |
| Bound.ThirdCycleNeeded | internal/exec/exec.go:90-118 | the third plan still starts a clone whenever it waits for a guest of its node that must be updated and stopped |
| Cluster.HypothesesAreMet | internal/parse/parse.go:330-400 | an accepted index with a file, a template, a clone and a VM, and a cluster that runs the VM, meet the hypotheses of both bounds |
| Cluster.ThreeCycles | internal/plan/plan.go:191-357 | in every run from that cluster the third plan starts the clone and the fourth holds prunes only |
| Convergence.ClonedStartIsPending | internal/exec/exec.go:409-442 | one cycle is not enough: a clone that is to run leaves its start to a later plan |
| Adopt.AdoptContext.MatchOrAdoptLines | internal/adopt/kinds.go:900-978 | succeeds exactly when every line can be referenced; on failure the census is untouched, on success references and lines cover each other |
| Adopt.AdoptContext.RecordLiveKeys | internal/adopt/kinds.go:1038-1050 | the live census is the set of keys up to comment |
| Adopt.AdoptContext.AdoptKeys | internal/adopt/kinds.go:857-885 | either references for every line or the sentinel and no import |
| Adopt.MergeSshKeys | cmd/proxops/run_adopt.go:121-135 | existing names keep their values, new names are added and listed |
| Adopt.AdoptedRefsResolve | internal/adopt/kinds.go:900-978 | after the merge, at any later point of the run, the references resolve to exactly the live keys up to comment |
| AdoptDevices.AdoptedDiskIsQuiet | internal/schema/adopt.go:47-99 | a disk read from any live drive value below 2^63 bytes needs no update and reports no mismatch against that value |
| AdoptDevices.AdoptedNicIsQuiet | internal/schema/adopt.go:114-137 | a network device of a model the schema knows, read from any live value, needs no update against it |
| AdoptDevices.ReadPci | internal/schema/pci.go:141-186 | the token loop reads a PCI device or refuses it, as specified |
| AdoptDevices.AdoptedPciQuietExactly | internal/schema/pci.go:231-262 | a PCI device read from a live value needs no update exactly when that value holds no option but pcie |
| AdoptDevices.VgaDrifts | internal/schema/pci.go:228-230 | a device with x-vga drifts as soon as it is adopted |
| AdoptDevices.AdoptedDevicesAreQuiet | internal/schema/adopt.go:47-137 | all devices of a manifest adopted from a config are quiet against it |

## Left out

- HTTP, retries, TLS, authentication and task polling: each PVE call with its wait is one step that may fail; the write breaker is not modelled.
- Git fetching, YAML decoding, the file walk, composition files and the sops and age processes: cycles start from decoded manifests and a decrypted store.
- The text of the depends-on annotation: edges start from parsed kind and name pairs.
- Configuration loading, the command line, the HTTP server, metrics, logs and report texts; anomalies are a set, not a list of messages.
- Adopt's manifest writing and gap report, the order it lists devices in, and the readers from PVE reports to manifests other than those of memory, SSH keys, disks, network and PCI devices.
- Floating point: GiB numbers are exact decimals; signs, exponents and infinities that Go's ParseFloat accepts are not read as numbers, and the shortest decimal of a size is its exact expansion.
- SHA-256: the key fingerprint is an injective function of type and body.
- White space and letter case are ASCII.
- The stable sort of more than twenty elements under a comparison that is not a strict weak order: inside a level that mixes creates and mark-templates proofs use the permutation and the order by kind of action only.
- Manifests and their specs are values except where references are bound; that one resource object is shared between index and planner is not captured.
- The field-by-field messages of Validate: well-formedness is one predicate.
- Passthrough keys other than that they may not collide with owned keys; a collision with an owned key of a container that the schema does not reserve is excluded.
- World.Pve.Request: a config write that PVE itself refuses has no effect unless the fault script makes it stop halfway, although the mock always applies its deletions first; the detached spelling `none;` counts as an empty slot; a clone needs a VM as its source; a mark does not rename the rootfs volume.
- Convergence.ConvergesInThree: starting objects have the guest family of their manifest, pass the guards of `Guests.Tractable` and are no running templates.
- Chain.DeferralIsNotTransitive: one plan and one fault script; the general law is `Exec.DeferralExact`.
- Reports.FieldSettles: PVE's report forms are those of the mock, of the schema's own readers and of the comments on tpm0 and container networks; anything else PVE might do to a value is not covered.
- Vm.VmCreateSettles: a clone-backed VM is created by cloning, so its own law is the clone one.
- Runs.AllPruned: deletes of a run with failing calls may leave more orphans; nothing is claimed about how many.
- Per-object states in the status store: only counters are claimed.
