/** The in-memory status store: object records and the counters of the current cycle. */
module Status {
  import opened Text
  import opened Desired

  datatype State = Drifting | Converged | Pruned | Skipped | Anomalous | InProgress | Failed

  datatype Record = Record(cluster: string, kind: Kind, name: string, node: string, id: int, state: State)

  datatype ObjectRef = ObjectRef(cluster: string, kind: Kind, name: string)

  datatype Cycle = Cycle(
    commit: string, stale: bool, readOnly: bool, objects: nat, actionsOk: nat, actionsError: nat, pruned: nat,
    pruneDeferred: nat, skipped: nat, anomalies: nat, aborted: bool, abortReason: string)

  function NewCycle(commit: string, stale: bool, readOnly: bool): Cycle {
    Cycle(commit, stale, readOnly, 0, 0, 0, 0, 0, 0, 0, false, "")
  }

  /** The word an operator reads. */
  datatype StateWord = Aborted(reason: string) | Incomplete(failed: nat) | AllConverged

  function Word(c: Cycle): StateWord {
    if c.aborted then Aborted(c.abortReason) else if c.actionsError > 0 then Incomplete(c.actionsError) else AllConverged
  }

  class Store {
    var objects: map<ObjectRef, Record>
    var last: Option<Cycle>

    constructor ()
      ensures objects == map[] && last == None
    {
      objects, last := map[], None;
    }

    method BeginCycle(commit: string, stale: bool, readOnly: bool)
      modifies this`last
      ensures last == Some(NewCycle(commit, stale, readOnly))
    {
      last := Some(NewCycle(commit, stale, readOnly));
    }

    /** The latest record per cluster, kind and name. */
    method SetObject(o: Record)
      modifies this`objects
      ensures objects == old(objects)[ObjectRef(o.cluster, o.kind, o.name) := o]
    {
      objects := objects[ObjectRef(o.cluster, o.kind, o.name) := o];
    }

    /** Counters move only while a cycle is open. */
    method BumpActionsOk()
      modifies this`last
      ensures last == if old(last).None? then None else Some(old(last).value.(actionsOk := old(last).value.actionsOk + 1))
    {
      if last.Some? {
        last := Some(last.value.(actionsOk := last.value.actionsOk + 1));
      }
    }

    method BumpActionsError()
      modifies this`last
      ensures last == if old(last).None? then None else Some(old(last).value.(actionsError := old(last).value.actionsError + 1))
    {
      if last.Some? {
        last := Some(last.value.(actionsError := last.value.actionsError + 1));
      }
    }

    method BumpPruned()
      modifies this`last
      ensures last == if old(last).None? then None else Some(old(last).value.(pruned := old(last).value.pruned + 1))
    {
      if last.Some? {
        last := Some(last.value.(pruned := last.value.pruned + 1));
      }
    }

    method BumpPruneDeferred()
      modifies this`last
      ensures last == if old(last).None? then None else Some(old(last).value.(pruneDeferred := old(last).value.pruneDeferred + 1))
    {
      if last.Some? {
        last := Some(last.value.(pruneDeferred := last.value.pruneDeferred + 1));
      }
    }

    method BumpSkipped()
      modifies this`last
      ensures last == if old(last).None? then None else Some(old(last).value.(skipped := old(last).value.skipped + 1))
    {
      if last.Some? {
        last := Some(last.value.(skipped := last.value.skipped + 1));
      }
    }

    method BumpAnomaly()
      modifies this`last
      ensures last == if old(last).None? then None else Some(old(last).value.(anomalies := old(last).value.anomalies + 1))
    {
      if last.Some? {
        last := Some(last.value.(anomalies := last.value.anomalies + 1));
      }
    }

    method FinishCycle(aborted: bool, reason: string)
      modifies this`last
      ensures last == if old(last).None? then None
                      else Some(old(last).value.(aborted := aborted, abortReason := reason, objects := |objects|))
    {
      if last.Some? {
        last := Some(last.value.(aborted := aborted, abortReason := reason, objects := |objects|));
      }
    }
  }

  // ----- deterministic order of the records -----

  function KindString(k: Kind): string {
    match k
    case VM => "VM"
    case LXC => "LXC"
    case CTTemplate => "CTTemplate"
    case ISO => "ISO"
    case DiskImage => "DiskImage"
    case TemplateVM => "TemplateVM"
    case TemplateCT => "TemplateCT"
    case Other(s) => s
  }

  predicate LessRecord(a: Record, b: Record) {
    if a.cluster != b.cluster then StrLess(a.cluster, b.cluster)
    else if KindString(a.kind) != KindString(b.kind) then StrLess(KindString(a.kind), KindString(b.kind))
    else StrLess(a.name, b.name)
  }

  predicate NotAbove(a: Record, b: Record) { !LessRecord(b, a) }

  lemma NotAboveTotal(a: Record, b: Record)
    ensures NotAbove(a, b) || NotAbove(b, a)
  {
    hide KindString;
    StrLessTotal(a.cluster, b.cluster);
    StrLessTotal(KindString(a.kind), KindString(b.kind));
    StrLessTotal(a.name, b.name);
  }

  lemma NotAboveTransitive(a: Record, b: Record, c: Record)
    requires NotAbove(a, b) && NotAbove(b, c)
    ensures NotAbove(a, c)
  {
    hide KindString;
    if LessRecord(c, a) {
      Between(c.cluster, a.cluster, b.cluster);
      Between(KindString(c.kind), KindString(a.kind), KindString(b.kind));
      Between(c.name, a.name, b.name);
    }
  }

  /** Anything is above `lo` or below `hi`. */
  lemma Between(lo: string, hi: string, x: string)
    ensures StrLess(lo, hi) ==> StrLess(lo, x) || StrLess(x, hi)
    ensures StrLess(lo, hi) ==> lo != hi
    ensures lo != x ==> StrLess(lo, x) || StrLess(x, lo)
    ensures hi != x ==> StrLess(hi, x) || StrLess(x, hi)
    ensures StrLess(lo, x) && StrLess(x, hi) ==> StrLess(lo, hi)
    ensures !(StrLess(lo, hi) && StrLess(hi, lo)) && !(StrLess(lo, x) && StrLess(x, lo)) && !(StrLess(hi, x) && StrLess(x, hi))
    ensures StrLess(hi, x) && StrLess(x, lo) ==> StrLess(hi, lo)
  {
    StrLessTotal(lo, hi);
    StrLessTotal(lo, x);
    StrLessTotal(hi, x);
    if StrLess(lo, x) && StrLess(x, hi) {
      StrLessTransitive(lo, x, hi);
    }
    if StrLess(hi, x) && StrLess(x, lo) {
      StrLessTransitive(hi, x, lo);
    }
    if StrLess(lo, hi) && StrLess(hi, x) {
      StrLessTransitive(lo, hi, x);
    }
  }

  predicate Sorted(s: seq<Record>) { forall i, j | 0 <= i < j < |s| :: NotAbove(s[i], s[j]) }

  /** Sorted apart from the element still sinking at `j`. */
  predicate SortedExcept(s: seq<Record>, j: nat) {
    forall a, b | 0 <= a < b < |s| && b != j :: NotAbove(s[a], s[b])
  }

  predicate BelowRest(s: seq<Record>, j: nat)
    requires j < |s|
  {
    forall b | j < b < |s| :: NotAbove(s[j], s[b])
  }

  lemma SinkStarts(s: seq<Record>)
    requires s != [] && Sorted(s[..|s| - 1])
    ensures SortedExcept(s, |s| - 1) && BelowRest(s, |s| - 1)
  {
    hide NotAbove;
    var front := s[..|s| - 1];
    forall a, b | 0 <= a < b < |s| && b != |s| - 1 ensures NotAbove(s[a], s[b]) {
      assert front[a] == s[a] && front[b] == s[b];
    }
  }

  /** In-place insertion sort of the records. */
  method SortObjects(o: array<Record>)
    modifies o
    ensures multiset(o[..]) == multiset(old(o[..])) && Sorted(o[..])
  {
    for i := 0 to o.Length
      invariant multiset(o[..]) == multiset(old(o[..])) && Sorted(o[..i])
    {
      Sink(o, i);
    }
    assert o[..o.Length] == o[..];
  }

  /** The inner loop: element i sinks to its place among the first i + 1. */
  method Sink(o: array<Record>, i: nat)
    requires i < o.Length && Sorted(o[..i])
    modifies o
    ensures multiset(o[..]) == multiset(old(o[..])) && Sorted(o[..i + 1])
  {
    hide LessRecord, NotAbove;
    var j := i;
    assert o[..i + 1][..i] == o[..i];
    SinkStarts(o[..i + 1]);
    while j > 0
      invariant 0 <= j <= i
      invariant multiset(o[..]) == multiset(old(o[..]))
      invariant SortedExcept(o[..i + 1], j)
      invariant BelowRest(o[..i + 1], j)
    {
      if !LessRecord(o[j], o[j - 1]) {
        break;
      }
      SwapSinks(o[..i + 1], j);
      ghost var before := o[..i + 1];
      o[j], o[j - 1] := o[j - 1], o[j];
      assert o[..i + 1] == before[j := before[j - 1]][j - 1 := before[j]];
      j := j - 1;
    }
    SinkDone(o[..i + 1], j);
  }

  lemma SwapSinks(s: seq<Record>, j: nat)
    requires 0 < j < |s| && SortedExcept(s, j) && LessRecord(s[j], s[j - 1])
    requires BelowRest(s, j)
    ensures var t := s[j := s[j - 1]][j - 1 := s[j]];
            SortedExcept(t, j - 1) && BelowRest(t, j - 1)
  {
    NotAboveTotal(s[j], s[j - 1]);
  }

  lemma SinkDone(s: seq<Record>, j: nat)
    requires j < |s| && SortedExcept(s, j) && (j > 0 ==> !LessRecord(s[j], s[j - 1]))
    requires BelowRest(s, j)
    ensures Sorted(s)
  {
    forall a, b | 0 <= a < b < |s| ensures NotAbove(s[a], s[b]) {
      if b == j && a < j - 1 {
        NotAboveTransitive(s[a], s[j - 1], s[j]);
      }
    }
  }
}
