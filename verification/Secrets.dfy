/** Cloud-init references into a cluster's decrypted store. */
module Secrets {
  import opened Text
  import opened Graph
  import opened Desired
  import Vm

  const SSH_PREFIX := "cloud-init.ssh-keys."
  const PASSWORD_PREFIX := "cloud-init.passwords."

  datatype Stores = Stores(sshKeys: map<string, string>, passwords: map<string, string>)

  /** The trimmed value a reference names; None when it is malformed, missing or blank. */
  function Lookup(ref: string, prefix: string, store: map<string, string>): Option<string> {
    if !HasPrefix(ref, prefix) then None
    else
      var name := ref[|prefix|..];
      if name !in store || TrimSpace(store[name]) == "" then None else Some(TrimSpace(store[name]))
  }

  /** All references looked up, each value once, in order. */
  function ResolveRefs(refs: seq<string>, store: map<string, string>): (out: Option<seq<string>>)
    ensures out.Some? ==> Distinct(out.value)
  {
    if refs == [] then Some([])
    else
      var before, v := ResolveRefs(refs[..|refs| - 1], store), Lookup(refs[|refs| - 1], SSH_PREFIX, store);
      if before.None? || v.None? then None
      else if v.value in before.value then before
      else Some(before.value + [v.value])
  }

  /** Resolution succeeds exactly when every reference does, and yields exactly their values. */
  lemma {:induction false} ResolveRefsAre(refs: seq<string>, store: map<string, string>)
    ensures ResolveRefs(refs, store).Some? <==> forall r | r in refs :: Lookup(r, SSH_PREFIX, store).Some?
    ensures ResolveRefs(refs, store).Some? ==>
              forall v :: v in ResolveRefs(refs, store).value <==> exists r | r in refs :: Lookup(r, SSH_PREFIX, store) == Some(v)
  {
    hide Lookup;
    if refs != [] {
      var front, last := refs[..|refs| - 1], refs[|refs| - 1];
      assert refs == front + [last];
      ResolveRefsAre(front, store);
      if ResolveRefs(refs, store).Some? {
        forall v ensures v in ResolveRefs(refs, store).value <==> exists r | r in refs :: Lookup(r, SSH_PREFIX, store) == Some(v) {
          if v in ResolveRefs(front, store).value {
            var r :| r in front && Lookup(r, SSH_PREFIX, store) == Some(v);
            assert r in refs;
          }
          if Lookup(last, SSH_PREFIX, store) == Some(v) {
            assert last in refs;
          }
        }
      }
    }
  }

  /** resolveVMCloudInitSecrets; None is the fail-closed error. */
  function ResolveCloudInit(ci: Vm.CloudInitData, st: Stores): Option<Vm.CloudInitData> {
    var keys := ResolveRefs(ci.sshKeyRefs, st.sshKeys);
    var password := Lookup(ci.ciPasswordRef, PASSWORD_PREFIX, st.passwords);
    if ci.sshKeyRefs != [] && (st.sshKeys == map[] || keys.None? || keys.value == []) then None
    else if ci.ciPasswordRef != "" && (st.passwords == map[] || password.None?) then None
    else
      Some(ci.(resolvedSshKeys := if ci.sshKeyRefs != [] then keys.value else ci.resolvedSshKeys,
               resolvedPassword := if ci.ciPasswordRef != "" then password.value else ci.resolvedPassword))
  }

  method ResolveVm(ci: Vm.CloudInitData, st: Stores) returns (r: Option<Vm.CloudInitData>)
    ensures r == ResolveCloudInit(ci, st)
  {
    hide Lookup;
    var out := ci;
    if |ci.sshKeyRefs| > 0 {
      if |st.sshKeys| == 0 {
        return None;
      }
      var values: seq<string>, seen: set<string> := [], {};
      for i := 0 to |ci.sshKeyRefs|
        invariant ResolveRefs(ci.sshKeyRefs[..i], st.sshKeys) == Some(values)
        invariant forall v :: v in seen <==> v in values
      {
        assert ci.sshKeyRefs[..i + 1][..i] == ci.sshKeyRefs[..i];
        var v := Lookup(ci.sshKeyRefs[i], SSH_PREFIX, st.sshKeys);
        if v.None? {
          ResolveRefsAre(ci.sshKeyRefs, st.sshKeys);
          assert ci.sshKeyRefs[i] in ci.sshKeyRefs;
          return None;
        }
        if v.value !in seen {
          seen := seen + {v.value};
          values := values + [v.value];
        }
      }
      assert ci.sshKeyRefs[..|ci.sshKeyRefs|] == ci.sshKeyRefs;
      if |values| == 0 {
        return None;
      }
      out := out.(resolvedSshKeys := values);
    }
    if ci.ciPasswordRef != "" {
      if |st.passwords| == 0 {
        return None;
      }
      var p := Lookup(ci.ciPasswordRef, PASSWORD_PREFIX, st.passwords);
      if p.None? {
        return None;
      }
      out := out.(resolvedPassword := p.value);
    }
    r := Some(out);
  }

  function ResolveSecrets(r: Resource, st: Stores): (out: Option<Resource>)
    ensures out.Some? ==> out.value.kind == r.kind && RefOf(out.value) == RefOf(r) && NodesOf(out.value) == NodesOf(r)
                          && NodeOf(out.value) == NodeOf(r) && IdOf(out.value) == IdOf(r) && Edges(out.value) == Edges(r)
  {
    match r.body
    case Machine(v) =>
      var ci := ResolveCloudInit(v.ci, st);
      if ci.None? then None else Some(r.(body := Machine(v.(ci := ci.value))))
    case _ => Some(r)
  }

  function AllSecrets(byRef: ByRef, st: Stores): (out: Option<ByRef>)
    ensures out.Some? ==> out.value.Keys == byRef.Keys && forall ref | ref in byRef :: ResolveSecrets(byRef[ref], st) == Some(out.value[ref])
  {
    if forall ref | ref in byRef :: ResolveSecrets(byRef[ref], st).Some?
    then Some(map ref | ref in byRef :: ResolveSecrets(byRef[ref], st).value) else None
  }
}
