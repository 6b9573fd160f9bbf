/** The suspend: list every VM, ask it to hibernate, wait for the snapshots, and, under the release
    policy, free the seats. */
module Suspension {
  import opened World
  import opened Reclaims
  import opened Invariant
  import opened Fleet
  import opened Deeds
  import opened Facts
  import opened Clusters
  import opened Writes
  import opened Creators
  import H = Hibernations
  import D = SuspendDeadline

  ghost predicate Enumerates(names: seq<string>, view: View) {
    NoDup(names) && forall n :: n in names <==> n in view
  }

  ghost predicate AllListed(cs: CocoonSet, names: seq<string>) {
    forall n | n in names :: n in cs.record.vms && n in cs.record.suspended
  }

  lemma QuiescingMay(w: World, view: View, names: seq<string>, n: string)
    requires ViewOK(w, view) && n in view && n in names && AllListed(w.cs, names)
    requires !w.pinning && w.cs.suspend
    ensures MayWrite(w, n, Quiesce)
  {}

  /** podpatch.HibernateState(true) on a pod that lacks the annotation. */
  method QuiescePod(c: Cluster, n: string, view: View) returns (ok: bool, quiet: View)
    requires c.Valid() && ViewOK(c.W(), view) && n in view && MayWrite(c.W(), n, Quiesce)
    modifies c`cs, c`slots, c`now, c`log, c`lost, c`deeds, c`trace
    ensures c.Valid() && c.cs == old(c.cs) && c.lost == old(c.lost) && (!c.pinning ==> ViewOK(c.W(), view))
    ensures ok ==> ViewOK(c.W(), quiet) && quiet.Keys == view.Keys && quiet[n].hibernate
    ensures ok ==> forall m | m in view && m != n :: quiet[m] == view[m]
    ensures ok ==> c.log == old(c.log) + [OnSlot(n, Quiesce)]
  {
    hide Inv, ViewOK, Recorded, Accountable, MayWrite, Apply, Losses, EvolvesAll, Accepts;
    var r, p, before := c.WriteSlot(n, Quiesce, QuiescedWake, view);
    QuiesceSpares(c.crs, n, before);
    ok, quiet := r == Done, view;
    if ok {
      PatchedQuiet(c.cs, before[n], p);
      quiet := view[n := p.value];
    }
  }

  /** applySuspend: the record is durable before the first annotation. */
  method ApplySuspend(c: Cluster, view: View, names: seq<string>) returns (ok: bool, quiet: View)
    requires c.Valid() && ViewOK(c.W(), view) && Enumerates(names, view)
    requires !c.pinning && c.cs.suspend
    modifies c`cs, c`slots, c`now, c`log, c`lost, c`deeds, c`trace
    ensures c.Valid() && c.lost == old(c.lost)
    ensures c.cs == old(c.cs).(record := c.cs.record)
    ensures ok ==> ViewOK(c.W(), quiet) && quiet.Keys == view.Keys && AllListed(c.cs, names)
    ensures ok ==> c.cs.record == Stored(Listing(old(c.cs).record, names))
    ensures ok ==> forall n | n in quiet :: quiet[n].hibernate
  {
    hide Inv, ViewOK, Recorded, Accountable, MayWrite, MayBecome, Apply, Losses, EvolvesAll, Accepts;
    quiet := view;
    var owed := Listing(c.cs.record, names);
    ListingMay(c.W(), names);
    ListingRecords(c.W(), names);
    ok := WriteHibernateReclaim(c, owed, view);
    if !ok {
      return;
    }
    ghost var cs := c.cs;
    for i := 0 to |names|
      invariant c.Valid() && ViewOK(c.W(), quiet) && c.cs == cs && c.lost == old(c.lost)
      invariant quiet.Keys == view.Keys
      invariant forall j | 0 <= j < i :: names[j] in quiet && quiet[names[j]].hibernate
    {
      var n := names[i];
      assert n in names;
      if !quiet[n].hibernate {
        QuiescingMay(c.W(), quiet, names, n);
        ok, quiet := QuiescePod(c, n, quiet);
        if !ok {
          return;
        }
      }
    }
    assert forall n | n in quiet :: n in names;
  }

  lemma ListingRecords(w: World, names: seq<string>)
    requires Inv(w)
    ensures AllListed(w.cs.(record := Stored(Listing(w.cs.record, names))), names)
  {
    StoredIsLossless(Listing(w.cs.record, names));
  }

  lemma QuiesceSpares(crs: set<string>, n: string, slots: Slots)
    requires n in slots
    ensures Losses(crs, n, Quiesce, QuiescedWake, slots[n]) == []
  {}

  lemma PatchedQuiet(cs: CocoonSet, before: Slot, p: Option<Pod>)
    requires Accepts(Quiesce, before) && p == Apply(cs, Quiesce, before).server
    ensures p.Some? && p.value.hibernate
  {}

  datatype Gate = Open | Shut | ProbeFailed

  /** vk-cocoon reported this version hibernated at this generation. */
  predicate ReportedAt(p: Pod, generation: nat) {
    p.state == Hibernated && p.observed >= generation
  }

  /** A listed version, however stale, that carries the annotation and was reported hibernated at
      the current generation describes a VM that is still hibernated. */
  lemma ReportIsCurrent(w: World, view: View, n: string)
    requires Inv(w) && ViewOK(w, view) && n in view && n !in w.crs
    requires !w.pinning && w.cs.suspend
    requires view[n].hibernate && ReportedAt(view[n], w.cs.generation) && !view[n].terminal
    ensures Asleep(w.slots[n])
    ensures w.slots[n].tag.Some? ==> Hibernating(w.slots[n])
    ensures view[n].node != ""
  {
    assert SlotInv(w.pinning, w.cs, n, w.slots[n]);
    assert Knows(w.pinning, w.cs, view[n], w.slots[n]);
  }

  lemma GateStable(w: World, before: Slots, view: View, names: set<string>)
    requires Inv(w) && EvolvesAll(w.crs, before, w.slots) && GateHolds(w.crs, before, view, names)
    ensures GateHolds(w.crs, w.slots, view, names)
  {
    forall n | n in names && n in view && n in w.slots && n !in w.crs && !view[n].terminal
      ensures Hibernating(w.slots[n])
    {
      assert SlotInv(w.pinning, w.cs, n, w.slots[n]) && Evolves(before[n], w.slots[n]);
    }
  }

  /** A suspended set: the main hibernated and reported, and a sub-agent that was created before the
      suspend and still runs. A list may not show the sub-agent yet. */
  function HalfSuspended(): World {
    var cs := CocoonSet(2, true, false, "", "image", 0, {"image"}, {0}, 0, Suspending, "", {}, None, 0, Reclaim(0, [MAIN], [], [MAIN]));
    var quiet := Pod("a", "", "image", 0, false, false, true, false, 2, Frozen, Hibernated, 2);
    var live := Pod("a", "", "image", 0, false, false, false, false, 1, Live, Unreported, 0);
    World(false, {}, cs, map[MAIN := Slot(Some(quiet), [], Some(Snapshot("image", 1)), 1, Some(1), false, 2, 0),
                             "set-1" := Slot(Some(live), [None], None, 0, Some(0), false, 0, 0)])
  }

  lemma HalfSuspendedHolds()
    ensures Inv(HalfSuspended())
  {
    var w := HalfSuspended();
    assert TogglingSlot(w.cs, MAIN, w.slots[MAIN]);
    assert TogglingSlot(w.cs, "set-1", w.slots["set-1"]);
  }

  /** The gate speaks of listed pods: behind it a member the list does not show yet runs on. */
  lemma GateMissesUnlisted()
    ensures
      var w, view := HalfSuspended(), ListedView(HalfSuspended(), map[]);
      && Inv(w) && ViewOK(w.(slots := CaughtUp(w, map[])), view) && MAIN in view && "set-1" !in view
      && GateHolds(w.crs, w.slots, view, view.Keys) && LiveNow(w.slots["set-1"])
  {
    hide Inv;
    HalfSuspendedHolds();
    ListedIsKnown(HalfSuspended(), map[]);
  }

  /** allOwnedPodsHibernated. */
  method AllOwnedPodsHibernated(c: Cluster, view: View, names: seq<string>) returns (g: Gate)
    requires c.Valid() && ViewOK(c.W(), view) && Enumerates(names, view)
    requires !c.pinning && c.cs.suspend && forall n | n in view :: view[n].hibernate
    modifies c`slots, c`now, c`trace, c`refusals
    ensures c.Valid() && ViewOK(c.W(), view) && EvolvesAll(c.crs, old(c.slots), c.slots)
    ensures if g == ProbeFailed then exists n :: c.refusals == old(c.refusals) + [Refusal(n, |c.log|)]
            else c.refusals == old(c.refusals)
    ensures g == Open ==> GateHolds(c.crs, c.slots, view, view.Keys)
  {
    hide Inv, ViewOK, Recorded, Accountable, Evolves;
    NothingSeenSlots(c.crs, c.slots);
    for i := 0 to |names|
      invariant c.Valid() && ViewOK(c.W(), view) && EvolvesAll(c.crs, old(c.slots), c.slots)
      invariant c.refusals == old(c.refusals)
      invariant GateHolds(c.crs, c.slots, view, Elements(names[..i]))
    {
      var n := names[i];
      assert n in names;
      ghost var w := c.W();
      assert names[..i + 1] == names[..i] + [n];
      if !view[n].terminal {
        if !ReportedAt(view[n], c.cs.generation) {
          return Shut;
        }
        SeenInSlots(c.W(), view, n);
        var ok, present := c.HasSnapshot(n, view);
        EvolvesAllTransitive(c.crs, old(c.slots), w.slots, c.slots);
        if !ok {
          return ProbeFailed;
        }
        if !present {
          return Shut;
        }
        GateStable(c.W(), w.slots, view, Elements(names[..i]));
        if n !in c.crs {
          ReportIsCurrent(c.W(), view, n);
        }
      }
      assert GateHolds(c.crs, c.slots, view, Elements(names[..i + 1]));
    }
    assert names[..|names|] == names;
    g := Open;
  }

  lemma NothingSeenSlots(crs: set<string>, slots: Slots)
    ensures EvolvesAll(crs, slots, slots)
  {}

  lemma SeenInSlots(w: World, view: View, n: string)
    requires ViewOK(w, view) && n in view
    ensures n in w.slots
  {}

  // ---- the two suspend branches of a pass ----

  datatype Suspend = Landed | Polling | Creating | Stopped

  lemma SuspendingPhaseOK(w: World, phase: Phase)
    requires Inv(w) && !w.pinning && phase != Migrating
    requires MAIN in w.cs.record.suspended || phase in {Suspending, Suspended}
    ensures PhaseOK(w, phase)
  {}

  /** pollSuspend: Suspending until the deadline, then Failed, which takes the whole timeout since the
      clock was started; an entry into Suspending starts it. */
  method PollSuspend(c: Cluster, view: View) returns (o: Suspend)
    requires c.Valid() && ViewOK(c.W(), view) && !c.pinning && MAIN in c.cs.record.suspended
    modifies c`cs, c`slots, c`now, c`log, c`lost, c`deeds, c`trace
    ensures c.Valid() && ViewOK(c.W(), view) && c.lost == old(c.lost)
    ensures c.cs == old(c.cs).(phase := c.cs.phase, since := c.cs.since, asked := c.cs.asked)
    ensures c.cs.phase in {old(c.cs).phase, Suspending, FailedPhase} && o in {Polling, Stopped}
    ensures c.cs.phase == FailedPhase && old(c.cs).phase != FailedPhase ==>
      !D.Restarts(old(c.cs).phase, old(c.cs).since) && c.now - old(c.cs).asked > D.TIMEOUT - H.SECOND
    ensures o == Polling && !D.Restarts(old(c.cs).phase, old(c.cs).since) && old(c.now) - old(c.cs).asked > D.TIMEOUT ==>
      c.cs.phase == FailedPhase
    ensures o == Polling && D.Restarts(old(c.cs).phase, old(c.cs).since) ==>
      c.cs.phase == Suspending && c.cs.since.Some? && c.cs.asked >= old(c.now)
    ensures !D.Restarts(old(c.cs).phase, old(c.cs).since) ==> c.cs.since == old(c.cs).since && c.cs.asked == old(c.cs).asked
    ensures NoSlotWrites(old(c.log), c.log)
  {
    hide Inv, ViewOK, Recorded, Accountable, PhaseOK, H.Truncated;
    var ok, exceeded := SuspendDeadlineExceeded(c, view);
    if !ok {
      return Stopped;
    }
    var phase := if exceeded then FailedPhase else Suspending;
    SuspendingPhaseOK(c.W(), phase);
    ok := PatchStatus(c, phase, view);
    o := if ok then Polling else Stopped;
  }

  /** suspendDeadlineExceeded. */
  method SuspendDeadlineExceeded(c: Cluster, view: View) returns (ok: bool, exceeded: bool)
    requires c.Valid() && ViewOK(c.W(), view)
    modifies c`cs, c`slots, c`now, c`log, c`trace
    ensures c.Valid() && ViewOK(c.W(), view) && c.now >= old(c.now)
    ensures c.cs == old(c.cs).(since := c.cs.since, asked := c.cs.asked)
    ensures if D.Restarts(old(c.cs).phase, old(c.cs).since)
            then !exceeded && (ok ==> c.cs.since.Some? && c.cs.asked >= old(c.now))
            else ok && c.cs == old(c.cs)
                 && (exceeded ==> c.now - c.cs.asked > D.TIMEOUT - H.SECOND)
                 && (old(c.now) - c.cs.asked > D.TIMEOUT ==> exceeded)
    ensures NoSlotWrites(old(c.log), c.log)
  {
    hide Inv, ViewOK, Recorded, Accountable, H.Truncated;
    c.Vk(view);
    if !D.Restarts(c.cs.phase, c.cs.since) {
      D.ExceededIsElapsed(c.cs, c.now);
      return true, D.Exceeded(c.cs.since.value, c.now);
    }
    ok := PatchSince(c, Some(H.Truncated(c.now)), view);
    exceeded := false;
  }

  ghost predicate NoSlotWrites(log0: seq<Effect>, log1: seq<Effect>) {
    log0 <= log1 && forall i | |log0| <= i < |log1| :: !log1[i].OnSlot?
  }

  /** A stage that writes to no slot leaves an earlier refusal closed. */
  lemma ClosedAfter(before: seq<Refusal>, after: seq<Refusal>, log0: seq<Effect>, log1: seq<Effect>)
    requires after == before || (|after| == |before| + 1 && after[..|before|] == before && after[|before|].at == |log0|)
    requires NoSlotWrites(log0, log1)
    ensures FailClosed(before, after, log1)
  {}

  /** clearSuspendDeadline, ahead of Suspended. */
  method ClearSuspendDeadline(c: Cluster, ghost view: View) returns (ok: bool)
    requires c.Valid() && ViewOK(c.W(), view)
    modifies c`cs, c`slots, c`now, c`log, c`trace
    ensures c.Valid() && ViewOK(c.W(), view) && EvolvesAll(c.crs, old(c.slots), c.slots)
    ensures c.cs == old(c.cs).(since := c.cs.since, asked := c.cs.asked) && (ok ==> c.cs.since == None)
    ensures NoSlotWrites(old(c.log), c.log)
  {
    hide Inv, ViewOK, Recorded, Accountable;
    if c.cs.since.None? {
      NothingSeenSlots(c.crs, c.slots);
      return true;
    }
    ok := PatchSince(c, None, view);
  }

  lemma MainListed(w: World, names: seq<string>, n: string)
    requires AllListed(w.cs, names) && n in names
    ensures n in w.cs.record.suspended && n in w.cs.record.vms
  {}

  /** reconcileSuspend, the retain policy: Suspended only behind an open gate. */
  method ReconcileSuspend(c: Cluster, view: View, names: seq<string>) returns (o: Suspend, quiet: View)
    requires c.Valid() && ViewOK(c.W(), view) && Enumerates(names, view)
    requires !c.pinning && c.cs.suspend && !c.cs.release
    modifies c
    ensures c.Valid() && SameUser(old(c.cs), c.cs)
    ensures ByImage(c.cs, old(c.lost), c.lost) && (MAIN in view ==> c.lost == old(c.lost))
    ensures c.cs.phase == Suspended ==>
      old(c.cs).phase == Suspended || (quiet.Keys == view.Keys && GateHolds(c.crs, c.slots, quiet, view.Keys))
    ensures o == Landed ==>
      c.cs.phase == Suspended && MAIN in view && quiet.Keys == view.Keys && GateHolds(c.crs, c.slots, quiet, view.Keys)
    ensures FailClosed(old(c.refusals), c.refusals, c.log)
  {
    hide Inv, ViewOK, Recorded, Accountable, PhaseOK, GateHolds, Lingering, Forgot, OthersEvolve, EvolvesAll, ByImage;
    hide FailClosed, DiscardLogged, AtMostCreate;
    quiet := view;
    NothingCosts(c.cs, c.lost);
    NoneRefused(c.refusals, c.log);
    if MAIN !in view {
      MainHasSlot(c.W());
      UnpinnedMain(c.W());
      var r; ghost var prepared;
      r, prepared := CreateManaged(c, MAIN, c.cs.nodeName, true, false, view);
      return Creating, view;
    }
    var ok;
    ok, quiet := ApplySuspend(c, view, names);
    NothingCosts(c.cs, c.lost);
    NoneRefused(c.refusals, c.log);
    if !ok {
      return Stopped, quiet;
    }
    MainListed(c.W(), names, MAIN);
    EnumeratesSame(names, view, quiet);
    ghost var log1 := c.log;
    var g := AllOwnedPodsHibernated(c, quiet, names);
    if g != Open {
      o := PollSuspend(c, quiet);
      NothingCosts(c.cs, c.lost);
      ClosedAfter(old(c.refusals), c.refusals, log1, c.log);
      return;
    }
    o := Settle(c, quiet, view.Keys);
    NothingCosts(c.cs, c.lost);
    ClosedAfter(old(c.refusals), c.refusals, log1, c.log);
  }

  /** The gate is open: the deadline goes, then Suspended lands. */
  method Settle(c: Cluster, quiet: View, ghost keys: set<string>) returns (o: Suspend)
    requires c.Valid() && ViewOK(c.W(), quiet) && !c.pinning && c.cs.suspend
    requires quiet.Keys == keys && GateHolds(c.crs, c.slots, quiet, keys)
    modifies c`cs, c`slots, c`now, c`log, c`trace
    ensures c.Valid() && GateHolds(c.crs, c.slots, quiet, keys)
    ensures c.cs == old(c.cs).(phase := c.cs.phase, since := c.cs.since, asked := c.cs.asked) && o in {Landed, Stopped}
    ensures o == Landed ==> c.cs.phase == Suspended
    ensures NoSlotWrites(old(c.log), c.log)
  {
    hide Inv, ViewOK, Recorded, Accountable, PhaseOK, GateHolds, EvolvesAll;
    ghost var before := c.slots;
    var ok := ClearSuspendDeadline(c, quiet);
    GateStable(c.W(), before, quiet, keys);
    if !ok {
      return Stopped;
    }
    SuspendingPhaseOK(c.W(), Suspended);
    before := c.slots;
    ok := PatchStatus(c, Suspended, quiet);
    GateStable(c.W(), before, quiet, keys);
    o := if ok then Landed else Stopped;
  }

  lemma UnpinnedMain(w: World)
    requires Inv(w) && !w.pinning && !(w.cs.suspend && w.cs.release)
    ensures Placeable(w, MAIN, w.cs.nodeName)
  {}

  lemma MainHasSlot(w: World)
    requires Inv(w)
    ensures MAIN in w.slots
  {}

  lemma EnumeratesSame(names: seq<string>, view: View, quiet: View)
    requires Enumerates(names, view) && quiet.Keys == view.Keys
    ensures Enumerates(names, quiet)
  {
    forall n
      ensures n in names <==> n in quiet
    {
      assert n in view <==> n in view.Keys;
      assert n in quiet <==> n in quiet.Keys;
    }
  }

  // ---- the release policy ----

  lemma ReleasingMay(w: World, view: View, n: string)
    requires Inv(w) && ViewOK(w, view) && n in view && !view[n].terminal
    requires !w.pinning && w.cs.suspend && w.cs.release
    requires GateHolds(w.crs, w.slots, view, view.Keys)
    requires n !in w.crs ==> w.cs.hint != "" && n in w.cs.record.suspended && n in w.cs.record.vms && n in w.cs.stash
    ensures MayWrite(w, n, Delete)
  {
    assert n in w.slots.Keys;
  }

  lemma DeleteSpares(cs: CocoonSet, crs: set<string>, n: string, slots: Slots)
    requires n in slots
    ensures Losses(crs, n, Delete, QuiescedWake, slots[n]) == []
    ensures Losses(crs, n, Keep, QuiescedWake, slots[n]) == []
    ensures Apply(cs, Delete, slots[n]) == Deleted(slots[n])
    ensures Accepts(Keep, slots[n]) ==> Apply(cs, Keep, slots[n]) == slots[n]
  {}

  lemma OnlyMain(w: World, view: View)
    requires Inv(w) && ViewOK(w, view) && !w.pinning && w.cs.release
    ensures forall n | n in view :: n == MAIN
  {
    assert forall n | n in view :: n in w.slots.Keys;
  }

  /** One pod of the drain: flag it, delete it. A refused flag does not stop the delete. */
  method ReleaseSeat(c: Cluster, n: string, view: View) returns (ok: bool)
    requires c.Valid() && ViewOK(c.W(), view) && n in view && !view[n].terminal
    requires !c.pinning && c.cs.suspend && c.cs.release && GateHolds(c.crs, c.slots, view, view.Keys)
    requires n !in c.crs ==> c.cs.hint != "" && n in c.cs.record.suspended && n in c.cs.record.vms && n in c.cs.stash
    modifies c`cs, c`slots, c`now, c`log, c`lost, c`deeds, c`trace
    ensures c.Valid() && ViewOK(c.W(), view) && c.cs == old(c.cs) && c.lost == old(c.lost)
    ensures GateHolds(c.crs, c.slots, view, view.Keys)
    ensures c.slots.Keys == old(c.slots).Keys && GoneStays(c.crs, old(c.slots), c.slots)
    ensures ok && n !in c.crs ==> n in c.slots && Gone(c.slots[n])
  {
    hide Inv, ViewOK, Recorded, Accountable, MayWrite, GateHolds, Apply, Losses, GoneStays;
    KeepingMay(c.W(), view, n);
    ghost var s0 := c.slots;
    var r, p, before := c.WriteSlot(n, Keep, QuiescedWake, view);
    DeleteSpares(c.cs, c.crs, n, before);
    EvolvesAllSame(c.crs, s0, before, c.slots, n);
    GateStable(c.W(), s0, view, view.Keys);
    ReleasingMay(c.W(), view, n);
    s0 := c.slots;
    r, p, before := c.WriteSlot(n, Delete, QuiescedWake, view);
    DeleteSpares(c.cs, c.crs, n, before);
    DeletedGate(c.W(), s0, before, view, n);
    Gones(c.crs, old(c.slots), s0, before, c.slots, n);
    ok := r == Done;
  }

  lemma KeepingMay(w: World, view: View, n: string)
    requires ViewOK(w, view) && n in view
    ensures MayWrite(w, n, Keep)
  {}

  lemma EvolvesAllSame(crs: set<string>, a: Slots, b: Slots, c: Slots, n: string)
    requires EvolvesAll(crs, a, b) && n in b && (c == b || c == b[n := b[n]])
    ensures EvolvesAll(crs, a, c)
  {
    assert b[n := b[n]] == b;
  }

  ghost predicate GoneStays(crs: set<string>, a: Slots, b: Slots) {
    forall m | m in a && m in b && m !in crs && Gone(a[m]) :: Gone(b[m])
  }

  lemma Gones(crs: set<string>, a: Slots, b: Slots, c: Slots, d: Slots, n: string)
    requires EvolvesAll(crs, a, b) && EvolvesAll(crs, b, c) && n in c && (d == c || d == c[n := Deleted(c[n])])
    ensures GoneStays(crs, a, d)
  {
    EvolvesAllTransitive(crs, a, b, c);
  }

  lemma DeletedGate(w: World, before: Slots, mid: Slots, view: View, n: string)
    requires Inv(w) && EvolvesAll(w.crs, before, mid) && GateHolds(w.crs, before, view, view.Keys)
    requires n in mid && (w.slots == mid || w.slots == mid[n := Deleted(mid[n])])
    ensures GateHolds(w.crs, w.slots, view, view.Keys)
  {
    if w.slots == mid {
      GateStable(w, before, view, view.Keys);
    } else {
      forall m | m in view && m in w.slots && m !in w.crs && !view[m].terminal
        ensures Hibernating(w.slots[m])
      {
        assert SlotInv(w.pinning, w.cs, m, w.slots[m]) && Evolves(before[m], mid[m]);
        assert Hibernating(before[m]);
      }
    }
  }

  /** What a finished drain leaves of the pods `names`: no pod, and a tag that holds the state. */
  ghost predicate Drained(crs: set<string>, slots: Slots, view: View, names: set<string>) {
    forall n | n in names && n in view && n in slots && n !in crs && !view[n].terminal ::
      Gone(slots[n]) && Hibernating(slots[n])
  }

  lemma DrainedSoFar(crs: set<string>, a: Slots, b: Slots, view: View, names: set<string>, n: string)
    requires a.Keys == b.Keys && Drained(crs, a, view, names) && GoneStays(crs, a, b)
    requires GateHolds(crs, b, view, view.Keys)
    requires n in view && n !in crs && !view[n].terminal ==> n in b && Gone(b[n])
    ensures Drained(crs, b, view, names + {n})
  {
    forall m | m in names + {n} && m in view && m in b && m !in crs && !view[m].terminal
      ensures Gone(b[m]) && Hibernating(b[m])
    {
      assert m in view.Keys;
    }
  }

  lemma DrainedStays(crs: set<string>, w: World, a: Slots, view: View, names: set<string>)
    requires Inv(w) && crs == w.crs && EvolvesAll(crs, a, w.slots) && Drained(crs, a, view, names)
    ensures Drained(crs, w.slots, view, names)
  {
    forall n | n in names && n in view && n in w.slots && n !in crs && !view[n].terminal
      ensures Gone(w.slots[n]) && Hibernating(w.slots[n])
    {
      assert SlotInv(w.pinning, w.cs, n, w.slots[n]) && Evolves(a[n], w.slots[n]);
    }
  }

  method Drain(c: Cluster, view: View, names: seq<string>) returns (ok: bool)
    requires c.Valid() && ViewOK(c.W(), view) && Enumerates(names, view)
    requires !c.pinning && c.cs.suspend && c.cs.release && GateHolds(c.crs, c.slots, view, view.Keys)
    requires forall n | n in view && !view[n].terminal && n !in c.crs ::
               c.cs.hint != "" && n in c.cs.record.suspended && n in c.cs.record.vms && n in c.cs.stash
    modifies c`cs, c`slots, c`now, c`log, c`lost, c`deeds, c`trace
    ensures c.Valid() && ViewOK(c.W(), view) && c.cs == old(c.cs) && c.lost == old(c.lost)
    ensures ok ==> Drained(c.crs, c.slots, view, view.Keys) && GateHolds(c.crs, c.slots, view, view.Keys)
  {
    hide Inv, ViewOK, Recorded, Accountable, GateHolds, Drained, GoneStays;
    NothingDrained(c.crs, c.slots, view);
    for i := 0 to |names|
      invariant c.Valid() && ViewOK(c.W(), view) && c.cs == old(c.cs) && c.lost == old(c.lost)
      invariant GateHolds(c.crs, c.slots, view, view.Keys)
      invariant Drained(c.crs, c.slots, view, Elements(names[..i]))
    {
      var n := names[i];
      assert n in names;
      assert Elements(names[..i + 1]) == Elements(names[..i]) + {n};
      ghost var a := c.slots;
      if !view[n].terminal {
        ok := ReleaseSeat(c, n, view);
        if !ok {
          return;
        }
      } else {
        SameGone(c.crs, a);
      }
      DrainedSoFar(c.crs, a, c.slots, view, Elements(names[..i]), n);
    }
    assert names[..|names|] == names;
    AllDrained(c.crs, c.slots, view, names);
    ok := true;
  }

  /** reconcileSuspendRelease: an open gate, the VM names and the node on record, then the deletes,
      then Suspended; a set without a live pod is already released. */
  method ReconcileSuspendRelease(c: Cluster, view: View, names: seq<string>) returns (o: Suspend, quiet: View)
    requires c.Valid() && ViewOK(c.W(), view) && Enumerates(names, view)
    requires !c.pinning && c.cs.suspend && c.cs.release
    modifies c
    ensures c.Valid() && SameUser(old(c.cs), c.cs) && c.lost == old(c.lost)
    ensures c.cs.phase == Suspended ==>
      old(c.cs).phase == Suspended || !HasLivePod(view)
      || (quiet.Keys == view.Keys && Drained(c.crs, c.slots, quiet, view.Keys))
    ensures o == Landed && HasLivePod(view) ==>
      && c.cs.phase == Suspended && quiet.Keys == view.Keys && Drained(c.crs, c.slots, quiet, view.Keys)
      && Elements(c.cs.record.vms) + quiet.Keys <= c.cs.stash
    ensures FailClosed(old(c.refusals), c.refusals, c.log)
  {
    hide Inv, ViewOK, Recorded, Accountable, PhaseOK, GateHolds, Drained, EvolvesAll, FailClosed;
    quiet := view;
    NoneRefused(c.refusals, c.log);
    var ok;
    if !HasLivePod(view) {
      ok := ClearSuspendDeadline(c, view);
      NoneRefused(c.refusals, c.log);
      if !ok {
        return Stopped, view;
      }
      SuspendingPhaseOK(c.W(), Suspended);
      ok := PatchStatus(c, Suspended, view);
      NoneRefused(c.refusals, c.log);
      return if ok then Landed else Stopped, view;
    }
    OnlyMain(c.W(), view);
    assert MAIN in names;
    ok, quiet := ApplySuspend(c, view, names);
    NoneRefused(c.refusals, c.log);
    if !ok {
      return Stopped, quiet;
    }
    MainListed(c.W(), names, MAIN);
    EnumeratesSame(names, view, quiet);
    ghost var log1 := c.log;
    var g := AllOwnedPodsHibernated(c, quiet, names);
    if g != Open {
      o := PollSuspend(c, quiet);
      ClosedAfter(old(c.refusals), c.refusals, log1, c.log);
      return;
    }
    ok := StashAndHint(c, quiet);
    NoneRefused(c.refusals, c.log);
    if !ok {
      return Stopped, quiet;
    }
    assert MAIN in view.Keys;
    ok := Drain(c, quiet, names);
    NoneRefused(c.refusals, c.log);
    if !ok {
      return Stopped, quiet;
    }
    ghost var s1 := c.slots;
    SuspendingPhaseOK(c.W(), Suspended);
    ok := PatchStatus(c, Suspended, quiet);
    DrainedStays(c.crs, c.W(), s1, quiet, view.Keys);
    NoneRefused(c.refusals, c.log);
    o := if ok then Landed else Stopped;
  }

  /** The gate is open: the deadline goes; then, before the first delete, the VM names teardown needs
      and the node the wake needs are put on record. */
  method StashAndHint(c: Cluster, view: View) returns (ok: bool)
    requires c.Valid() && ViewOK(c.W(), view) && MAIN in view && !c.pinning
    requires GateHolds(c.crs, c.slots, view, view.Keys)
    modifies c`cs, c`slots, c`now, c`log, c`lost, c`deeds, c`trace
    ensures c.Valid() && ViewOK(c.W(), view) && c.lost == old(c.lost)
    ensures c.cs == old(c.cs).(hint := c.cs.hint, stash := c.cs.stash, since := c.cs.since, asked := c.cs.asked)
    ensures old(c.cs).stash <= c.cs.stash
    ensures GateHolds(c.crs, c.slots, view, view.Keys)
    ensures ok ==> Elements(c.cs.record.vms) + view.Keys <= c.cs.stash
    ensures ok && MAIN !in c.crs && !view[MAIN].terminal ==> c.cs.hint != ""
  {
    hide Inv, ViewOK, Recorded, Accountable, HintOK, EvolvesAll, GateHolds;
    ghost var s0 := c.slots;
    ok := ClearSuspendDeadline(c, view);
    GateStable(c.W(), s0, view, view.Keys);
    if !ok {
      return;
    }
    s0 := c.slots;
    ok := StashDeleteVMNames(c, view.Keys, view);
    GateStable(c.W(), s0, view, view.Keys);
    GateMain(c.W(), view);
    if !ok || view[MAIN].node == "" {
      return;
    }
    s0 := c.slots;
    NodeHintOK(c.W(), view[MAIN].node);
    ok := PatchHint(c, view[MAIN].node, view);
    GateStable(c.W(), s0, view, view.Keys);
  }

  lemma GateMain(w: World, view: View)
    requires Inv(w) && MAIN in view && GateHolds(w.crs, w.slots, view, view.Keys)
    ensures MAIN !in w.crs && !view[MAIN].terminal ==> view[MAIN].node != ""
  {}

  lemma NodeHintOK(w: World, node: string)
    requires Inv(w) && !w.pinning && node != ""
    ensures HintOK(w, node)
  {}

  lemma NothingDrained(crs: set<string>, slots: Slots, view: View)
    ensures Drained(crs, slots, view, Elements([]))
  {}

  lemma AllDrained(crs: set<string>, slots: Slots, view: View, names: seq<string>)
    requires Enumerates(names, view) && Drained(crs, slots, view, Elements(names))
    ensures Drained(crs, slots, view, view.Keys)
  {
    assert Elements(names) == view.Keys;
  }

  lemma SameGone(crs: set<string>, slots: Slots)
    ensures GoneStays(crs, slots, slots)
  {}
}
