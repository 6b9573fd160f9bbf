/** The reconciler's single writes to the CocoonSet: status, annotations, reclaim record. */
module Writes {
  import opened World
  import opened Reclaims
  import opened Invariant
  import opened Fleet
  import opened Deeds
  import opened Facts
  import opened Clusters
  import H = Hibernations

  /** The one way to write a phase; nobody writes Suspended without an open gate. */
  method PatchStatus(c: Cluster, phase: Phase, ghost view: View) returns (ok: bool)
    requires c.Valid() && ViewOK(c.W(), view) && PhaseOK(c.W(), phase)
    requires phase == Suspended ==> SuspendedOK(c.W(), view)
    modifies c`cs, c`slots, c`now, c`log, c`trace
    ensures c.Valid() && ViewOK(c.W(), view) && EvolvesAll(c.crs, old(c.slots), c.slots)
    ensures c.now >= old(c.now)
    ensures ok ==> c.cs == old(c.cs).(phase := phase) && c.log == old(c.log) + [SetStatus(phase)]
    ensures (c.cs == old(c.cs) && c.log == old(c.log))
         || (c.cs == old(c.cs).(phase := phase) && c.log == old(c.log) + [SetStatus(phase)])
  {
    hide Inv, ViewOK, Recorded, Accountable, PhaseOK;
    PhaseMay(c.W(), phase);
    ok := c.WriteSet(c.cs.(phase := phase), SetStatus(phase), view);
  }

  /** patchAnnotation on hibernated-on-node; an empty value deletes the key. */
  method PatchHint(c: Cluster, node: string, ghost view: View) returns (ok: bool)
    requires c.Valid() && ViewOK(c.W(), view) && HintOK(c.W(), node)
    modifies c`cs, c`slots, c`now, c`log, c`trace
    ensures c.Valid() && ViewOK(c.W(), view) && EvolvesAll(c.crs, old(c.slots), c.slots)
    ensures ok ==> c.cs == old(c.cs).(hint := node) && c.log == old(c.log) + [SetHint(node)]
    ensures c.log == old(c.log) || c.log == old(c.log) + [SetHint(node)]
    ensures c.cs == old(c.cs) || c.cs == old(c.cs).(hint := node)
  {
    hide Inv, ViewOK, Recorded, Accountable, HintOK;
    HintMay(c.W(), node);
    ok := c.WriteSet(c.cs.(hint := node), SetHint(node), view);
  }

  /** patchAnnotation on suspending-since: the time of the call, or nothing. */
  method PatchSince(c: Cluster, since: Option<int>, ghost view: View) returns (ok: bool)
    requires c.Valid() && ViewOK(c.W(), view) && (since.Some? ==> since.value == H.Truncated(c.now))
    modifies c`cs, c`slots, c`now, c`log, c`trace
    ensures c.Valid() && ViewOK(c.W(), view) && EvolvesAll(c.crs, old(c.slots), c.slots)
    ensures c.now >= old(c.now)
    ensures ok ==> c.cs == old(c.cs).(since := since, asked := old(c.now))
    ensures c.cs == old(c.cs) || c.cs == old(c.cs).(since := since, asked := old(c.now))
    ensures c.log == old(c.log) || c.log == old(c.log) + [SetSince(since)]
  {
    hide Inv, ViewOK, Recorded, Accountable;
    SinceMay(c.W(), since, c.now);
    ok := c.WriteSet(c.cs.(since := since, asked := c.now), SetSince(since), view);
  }

  /** stashDeleteVMNames: every VM the set may owe a tag delete at teardown. */
  method StashDeleteVMNames(c: Cluster, owned: set<string>, ghost view: View) returns (ok: bool)
    requires c.Valid() && ViewOK(c.W(), view)
    modifies c`cs, c`slots, c`now, c`log, c`trace
    ensures c.Valid() && ViewOK(c.W(), view) && EvolvesAll(c.crs, old(c.slots), c.slots)
    ensures c.cs == old(c.cs).(stash := c.cs.stash) && old(c.cs).stash <= c.cs.stash
    ensures ok ==> c.cs.stash == old(c.cs.stash) + Elements(c.cs.record.vms) + owned
  {
    hide Inv, ViewOK, Recorded, Accountable;
    var names := c.cs.stash + Elements(c.cs.record.vms) + owned;
    StashMay(c.W(), names);
    ok := c.WriteSet(c.cs.(stash := names), SetStash(names), view);
  }

  method WriteHibernateReclaim(c: Cluster, owed: Reclaim, ghost view: View) returns (ok: bool)
    requires c.Valid() && ViewOK(c.W(), view) && MayBecome(c.W(), c.cs.(record := Stored(owed)))
    modifies c`cs, c`slots, c`now, c`log, c`trace
    ensures c.Valid() && ViewOK(c.W(), view) && EvolvesAll(c.crs, old(c.slots), c.slots)
    ensures ok ==> c.cs == old(c.cs).(record := Stored(owed)) && c.log == old(c.log) + [SetRecord(owed)]
    ensures (c.cs == old(c.cs) && c.log == old(c.log))
         || (c.cs == old(c.cs).(record := Stored(owed)) && c.log == old(c.log) + [SetRecord(owed)])
  {
    hide Inv, ViewOK, Recorded, Accountable, MayBecome;
    ok := c.WriteSet(c.cs.(record := Stored(owed)), SetRecord(owed), view);
  }

  method ForgetReclaim(c: Cluster, drop: set<string>, ghost view: View) returns (ok: bool)
    requires c.Valid() && ViewOK(c.W(), view)
    requires forall n | n in drop && n in c.slots && n !in c.crs :: Forgettable(c.slots[n])
    modifies c`cs, c`slots, c`now, c`log, c`trace
    ensures c.Valid() && ViewOK(c.W(), view) && EvolvesAll(c.crs, old(c.slots), c.slots)
    ensures ok ==> c.cs == old(c.cs).(record := c.cs.record) && Forgot(old(c.cs).record, c.cs.record, drop)
    ensures AtMostRecord(old(c.log), c.log)
    ensures if c.log == old(c.log) then c.cs == old(c.cs)
            else c.cs == old(c.cs).(record := c.cs.record) && Forgot(old(c.cs).record, c.cs.record, drop)
  {
    hide Inv, ViewOK, Recorded, Accountable, MayBecome;
    var owed := c.cs.record;
    if forall n | n in owed.vms :: n !in drop {
      NothingForgotten(c.W(), drop);
      return true;
    }
    ForgettingMay(c.W(), drop);
    ForgotLemma(c.W(), drop);
    ok := WriteHibernateReclaim(c, Forgotten(owed, drop), view);
  }

  ghost predicate AtMostRecord(log0: seq<Effect>, log1: seq<Effect>) {
    log1 == log0 || (|log1| == |log0| + 1 && log1[..|log0|] == log0 && log1[|log0|].SetRecord?)
  }

  ghost predicate Forgot(r: Reclaim, r': Reclaim, drop: set<string>) {
    && (forall x :: x in r'.vms <==> x in r.vms && x !in drop)
    && (forall x :: x in r'.restore <==> x in r.restore && x !in drop)
    && (forall x :: x in r'.suspended <==> x in r.suspended && x !in drop)
    && (r'.vms != [] ==> r'.generation == r.generation)
  }

  lemma ForgotLemma(w: World, drop: set<string>)
    requires Inv(w)
    ensures Forgot(w.cs.record, Stored(Forgotten(w.cs.record, drop)), drop)
  {
    StoredIsLossless(Forgotten(w.cs.record, drop));
  }

  lemma NothingForgotten(w: World, drop: set<string>)
    requires Inv(w) && forall n | n in w.cs.record.vms :: n !in drop
    ensures Forgot(w.cs.record, w.cs.record, drop)
  {}
}
