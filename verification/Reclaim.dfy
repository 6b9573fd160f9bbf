/** The hibernate-reclaim record: the VMs whose `:hibernate` tag the set owes the registry a
    delete, those owed a restore, and those a suspend has listed and no unsuspend has processed. */
module Reclaims {
  import opened World

  // ---- lists without repetition ----

  ghost predicate NoDup(xs: seq<string>) {
    forall i, j | 0 <= i < j < |xs| :: xs[i] != xs[j]
  }

  function Appended(xs: seq<string>, x: string): (r: seq<string>)
    ensures NoDup(xs) ==> NoDup(r)
    ensures forall y :: y in r <==> y in xs || y == x
  {
    if x in xs then xs else xs + [x]
  }

  function AppendedAll(xs: seq<string>, ys: seq<string>): (r: seq<string>)
    ensures NoDup(xs) ==> NoDup(r)
    ensures forall y :: y in r <==> y in xs || y in ys
    decreases |ys|
  {
    if ys == [] then xs
    else
      assert forall y :: y in ys <==> y == ys[0] || y in ys[1..];
      AppendedAll(Appended(xs, ys[0]), ys[1..])
  }

  function Filtered(xs: seq<string>, drop: set<string>): (r: seq<string>)
    ensures NoDup(xs) ==> NoDup(r)
    ensures forall y :: y in r <==> y in xs && y !in drop
  {
    if xs == [] then []
    else
      assert forall y :: y in xs <==> y == xs[0] || y in xs[1..];
      if xs[0] in drop then Filtered(xs[1..], drop) else [xs[0]] + Filtered(xs[1..], drop)
  }

  lemma {:induction false} AppendedAllKnown(xs: seq<string>, ys: seq<string>)
    requires forall y | y in ys :: y in xs
    ensures AppendedAll(xs, ys) == xs
  {
    if ys != [] {
      assert ys[0] in xs;
      AppendedAllKnown(xs, ys[1..]);
    }
  }

  function Elements(xs: seq<string>): set<string> {
    set x | x in xs
  }

  lemma FirstIn(xs: seq<string>, ys: seq<string>)
    requires forall x | x in xs :: x in ys
    ensures xs != [] ==> ys != []
  {
    if xs != [] {
      assert xs[0] in ys;
    }
  }

  lemma HasElement(xs: seq<string>)
    ensures xs != [] ==> exists x :: x in xs
  {
    if xs != [] {
      assert xs[0] in xs;
    }
  }

  // ---- the record ----

  ghost predicate RecordOK(r: Reclaim) {
    && NoDup(r.vms)
    && (forall x | x in r.restore :: x in r.vms)
    && (forall x | x in r.suspended :: x in r.vms)
    && (r.vms == [] ==> r == EMPTY_RECLAIM)
  }

  /** What reading the annotation back yields: a record without VMs is not stored. */
  function Stored(r: Reclaim): Reclaim {
    if r.vms == [] then EMPTY_RECLAIM else r
  }

  /** A record whose restore and suspended lists only name recorded VMs survives the write and the
      read that follows it. */
  lemma StoredIsLossless(r: Reclaim)
    requires (forall x | x in r.restore :: x in r.vms) && (forall x | x in r.suspended :: x in r.vms)
    ensures Stored(r).vms == r.vms && Stored(r).restore == r.restore && Stored(r).suspended == r.suspended
    ensures NoDup(r.vms) ==> RecordOK(Stored(r))
  {
    FirstIn(r.restore, r.vms);
    FirstIn(r.suspended, r.vms);
  }

  function Listing(r: Reclaim, names: seq<string>): Reclaim {
    r.(vms := AppendedAll(r.vms, names), suspended := AppendedAll(r.suspended, names))
  }

  function Forgotten(r: Reclaim, drop: set<string>): Reclaim {
    Reclaim(r.generation, Filtered(r.vms, drop), Filtered(r.restore, drop), Filtered(r.suspended, drop))
  }

  /** The record the unsuspend writes before it clears any annotation. `awaiting` are the pods that
      still carry one and that no CocoonHibernation owns; `owned` are the VMs with a pod. */
  function Unsuspending(generation: nat, r: Reclaim, awaiting: seq<string>, owned: set<string>): Reclaim {
    Reclaim(generation,
            AppendedAll(r.vms, awaiting),
            AppendedAll(r.restore, Filtered(r.suspended, owned)),
            if awaiting == [] then [] else r.suspended)
  }

  // ---- the unsuspend as a list of writes ----

  datatype Bookkeeping = WriteRecord(r: Reclaim) | ClearHibernate(name: string)

  /** The annotations the unsuspend works on. */
  datatype Notes = Notes(record: Reclaim, hibernating: set<string>)

  function Clears(awaiting: seq<string>): seq<Bookkeeping> {
    seq(|awaiting|, i requires 0 <= i < |awaiting| => ClearHibernate(awaiting[i]))
  }

  function UnsuspendPlan(generation: nat, r: Reclaim, awaiting: seq<string>, owned: set<string>): seq<Bookkeeping> {
    if awaiting == [] && r.suspended == [] then []
    else
      var r' := Unsuspending(generation, r, awaiting, owned);
      [WriteRecord(r')] + Clears(awaiting) + [WriteRecord(r'.(suspended := []))]
  }

  function Perform(n: Notes, b: Bookkeeping): Notes {
    match b
    case WriteRecord(r) => n.(record := Stored(r))
    case ClearHibernate(name) => n.(hibernating := n.hibernating - {name})
  }

  function PerformAll(n: Notes, bs: seq<Bookkeeping>): Notes
    decreases |bs|
  {
    if bs == [] then n else PerformAll(Perform(n, bs[0]), bs[1..])
  }

  /** The pods, in pass order, that a later pass over the same pods finds still hibernating. */
  function Still(awaiting: seq<string>, hibernating: set<string>): (r: seq<string>)
    ensures forall y :: y in r <==> y in awaiting && y in hibernating
  {
    if awaiting == [] then []
    else
      assert forall y :: y in awaiting <==> y == awaiting[0] || y in awaiting[1..];
      if awaiting[0] in hibernating then [awaiting[0]] + Still(awaiting[1..], hibernating)
      else Still(awaiting[1..], hibernating)
  }

  lemma {:induction false} PerformAllSplit(n: Notes, a: seq<Bookkeeping>, b: seq<Bookkeeping>)
    ensures PerformAll(n, a + b) == PerformAll(PerformAll(n, a), b)
    decreases |a|
  {
    if a == [] {
      assert a + b == b;
    } else {
      assert (a + b)[1..] == a[1..] + b;
      PerformAllSplit(Perform(n, a[0]), a[1..], b);
    }
  }

  lemma {:induction false} PerformClears(n: Notes, awaiting: seq<string>)
    ensures PerformAll(n, Clears(awaiting)) == n.(hibernating := n.hibernating - Elements(awaiting))
    decreases |awaiting|
  {
    if awaiting == [] {
      assert n.hibernating - Elements(awaiting) == n.hibernating;
    } else {
      assert Clears(awaiting)[1..] == Clears(awaiting[1..]);
      PerformClears(n.(hibernating := n.hibernating - {awaiting[0]}), awaiting[1..]);
      assert n.hibernating - {awaiting[0]} - Elements(awaiting[1..]) == n.hibernating - Elements(awaiting);
    }
  }

  function Outcome(generation: nat, n: Notes, awaiting: seq<string>, owned: set<string>): Notes {
    if awaiting == [] && n.record.suspended == [] then n
    else Notes(Stored(Unsuspending(generation, n.record, awaiting, owned).(suspended := [])),
               n.hibernating - Elements(awaiting))
  }

  lemma PlanOutcome(generation: nat, n: Notes, awaiting: seq<string>, owned: set<string>)
    ensures PerformAll(n, UnsuspendPlan(generation, n.record, awaiting, owned)) == Outcome(generation, n, awaiting, owned)
  {
    if awaiting != [] || n.record.suspended != [] {
      var r' := Unsuspending(generation, n.record, awaiting, owned);
      var n' := n.(record := Stored(r'));
      var last := [WriteRecord(r'.(suspended := []))];
      PerformAllSplit(n, [WriteRecord(r')] + Clears(awaiting), last);
      PerformAllSplit(n, [WriteRecord(r')], Clears(awaiting));
      assert PerformAll(n, [WriteRecord(r')]) == PerformAll(n', []) == n';
      PerformClears(n', awaiting);
      var m := n'.(hibernating := n.hibernating - Elements(awaiting));
      assert PerformAll(m, last) == PerformAll(Perform(m, last[0]), []);
    }
  }

  /** The notes after the first k writes of an unsuspend that was not skipped. */
  lemma PrefixOutcome(generation: nat, n: Notes, awaiting: seq<string>, owned: set<string>, k: nat)
    requires awaiting != [] || n.record.suspended != []
    requires k <= |UnsuspendPlan(generation, n.record, awaiting, owned)|
    ensures
      var plan := UnsuspendPlan(generation, n.record, awaiting, owned);
      var r' := Unsuspending(generation, n.record, awaiting, owned);
      PerformAll(n, plan[..k]) ==
        if k == 0 then n
        else if k < |plan| then Notes(Stored(r'), n.hibernating - Elements(awaiting[..k - 1]))
        else Outcome(generation, n, awaiting, owned)
  {
    var plan := UnsuspendPlan(generation, n.record, awaiting, owned);
    if k == |plan| {
      assert plan[..k] == plan;
      PlanOutcome(generation, n, awaiting, owned);
    } else if k > 0 {
      assert plan[..k] == [plan[0]] + Clears(awaiting[..k - 1]);
      PerformAllSplit(n, [plan[0]], Clears(awaiting[..k - 1]));
      assert PerformAll(n, [plan[0]]) == PerformAll(Perform(n, plan[0]), []);
      PerformClears(Perform(n, plan[0]), awaiting[..k - 1]);
    }
  }

  /** Redoing the bookkeeping over its own first write adds nothing. */
  lemma UnsuspendingTwice(generation: nat, r: Reclaim, awaiting: seq<string>, still: seq<string>, owned: set<string>)
    requires RecordOK(r) && (awaiting != [] || r.suspended != [])
    requires forall x | x in still :: x in awaiting
    ensures
      var r' := Unsuspending(generation, r, awaiting, owned);
      && Stored(r') == r'
      && Unsuspending(generation, r', still, owned).(suspended := []) == r'.(suspended := [])
  {
    var r' := Unsuspending(generation, r, awaiting, owned);
    FirstIn(awaiting, r'.vms);
    FirstIn(r.suspended, r'.vms);
    AppendedAllKnown(r'.vms, still);
    AppendedAllKnown(r'.restore, Filtered(r'.suspended, owned));
  }

  lemma RerunAfterCrash(generation: nat, n: Notes, awaiting: seq<string>, owned: set<string>, k: nat)
    requires RecordOK(n.record) && (awaiting != [] || n.record.suspended != [])
    requires 0 < k < |UnsuspendPlan(generation, n.record, awaiting, owned)|
    ensures
      var r' := Unsuspending(generation, n.record, awaiting, owned);
      var crashed := Notes(Stored(r'), n.hibernating - Elements(awaiting[..k - 1]));
      Outcome(generation, crashed, Still(awaiting, crashed.hibernating), owned)
        == Outcome(generation, n, awaiting, owned)
  {
    var r' := Unsuspending(generation, n.record, awaiting, owned);
    var crashed := Notes(Stored(r'), n.hibernating - Elements(awaiting[..k - 1]));
    var still := Still(awaiting, crashed.hibernating);
    UnsuspendingTwice(generation, n.record, awaiting, still, owned);
    assert crashed.hibernating - Elements(still) == n.hibernating - Elements(awaiting);
    assert still == [] ==> Elements(still) == {};
  }

  /** applyUnsuspend is crash-idempotent: stopping after any prefix of its writes and running it
      again over the same pods ends with the record and annotations of one uninterrupted run. */
  lemma UnsuspendIsCrashIdempotent(generation: nat, n: Notes, awaiting: seq<string>, owned: set<string>, k: nat)
    requires RecordOK(n.record)
    requires forall x | x in awaiting :: x in n.hibernating
    requires k <= |UnsuspendPlan(generation, n.record, awaiting, owned)|
    ensures
      var plan := UnsuspendPlan(generation, n.record, awaiting, owned);
      var crashed := PerformAll(n, plan[..k]);
      var rerun := UnsuspendPlan(generation, crashed.record, Still(awaiting, crashed.hibernating), owned);
      PerformAll(crashed, rerun) == PerformAll(n, plan)
  {
    var plan := UnsuspendPlan(generation, n.record, awaiting, owned);
    var crashed := PerformAll(n, plan[..k]);
    PlanOutcome(generation, n, awaiting, owned);
    PlanOutcome(generation, crashed, Still(awaiting, crashed.hibernating), owned);
    StillAll(awaiting, n.hibernating);
    if plan != [] {
      PrefixOutcome(generation, n, awaiting, owned, k);
      if 0 < k < |plan| {
        RerunAfterCrash(generation, n, awaiting, owned, k);
      } else if k == |plan| {
        SecondRunIsEmpty(generation, n, awaiting, owned);
      }
    }
  }

  lemma SecondRunIsEmpty(generation: nat, n: Notes, awaiting: seq<string>, owned: set<string>)
    requires RecordOK(n.record) && (awaiting != [] || n.record.suspended != [])
    ensures
      var done := Outcome(generation, n, awaiting, owned);
      && Outcome(generation, done, Still(awaiting, done.hibernating), owned) == done
      && done.record.suspended == [] && Still(awaiting, done.hibernating) == []
  {
    var done := Outcome(generation, n, awaiting, owned);
    var still := Still(awaiting, done.hibernating);
    HasElement(still);
  }

  lemma {:induction false} StillAll(awaiting: seq<string>, hibernating: set<string>)
    requires forall x | x in awaiting :: x in hibernating
    ensures Still(awaiting, hibernating) == awaiting
  {
    if awaiting != [] {
      assert forall y | y in awaiting[1..] :: y in awaiting;
      StillAll(awaiting[1..], hibernating);
    }
  }

  /** When the unsuspend clears the suspended list, every VM on it stays recorded, and has a pod or
      is owed a restore; nothing recorded or owed a restore before is forgotten. */
  lemma UnsuspendForgetsNoVM(generation: nat, r: Reclaim, awaiting: seq<string>, owned: set<string>, vm: string)
    requires RecordOK(r) && (awaiting != [] || r.suspended != [])
    ensures
      var done := Stored(Unsuspending(generation, r, awaiting, owned).(suspended := []));
      && RecordOK(done) && done.suspended == [] && done.generation == generation
      && (vm in r.suspended ==> vm in done.vms && (vm in owned || vm in done.restore))
      && (vm in r.vms || vm in awaiting ==> vm in done.vms)
      && (vm in r.restore ==> vm in done.restore)
  {
    UnsuspendingTwice(generation, r, awaiting, [], owned);
    StoredIsLossless(Unsuspending(generation, r, awaiting, owned).(suspended := []));
  }
}
