/** A whole reconcile pass of a CocoonSet, and runs of passes against spec edits and vk-cocoon. */
module Passes {
  import opened World
  import opened Reclaims
  import opened Invariant
  import opened Fleet
  import opened Deeds
  import opened Facts
  import opened Clusters
  import opened Writes
  import opened Creators
  import opened Suspension
  import opened Unsuspension
  import opened Woken
  import opened SlotRelease
  import opened Migration
  import opened Migrate
  import opened Members

  lemma StampingMay(w: World, view: View, n: string)
    requires ViewOK(w, view) && n in view
    ensures MayWrite(w, n, Stamp)
  {}

  lemma StampSpares(cs: CocoonSet, crs: set<string>, n: string, slots: Slots, p: Option<Pod>)
    requires n in slots
    ensures Losses(crs, n, Stamp, QuiescedWake, slots[n]) == []
    ensures Accepts(Stamp, slots[n]) && p == Apply(cs, Stamp, slots[n]).server ==> p.Some? && p.value.stamp == cs.generation
  {}

  lemma StillUnbooted(w: World, view: View, before: Slots, n: string, w': World, p: Pod)
    requires ViewOK(w, view) && n in view && EvolvesAll(w.crs, w.slots, before)
    requires n in before && Accepts(Stamp, before[n])
    requires w' == w.(slots := before[n := Apply(w.cs, Stamp, before[n])]) && w'.slots[n].server == Some(p)
    ensures UnbootedMain(w, view) ==> UnbootedMain(w', view[n := p])
  {
    if w.pinning && MAIN !in w.crs && MAIN in view {
      assert Knows(w.pinning, w.cs, view[MAIN], w.slots[MAIN]);
      assert Evolves(w.slots[MAIN], before[MAIN]);
    }
  }

  lemma StillCovered(w: World, deeds: seq<Deed>, view: View, before: Slots, n: string, w': World, deeds': seq<Deed>, p: Pod)
    requires ViewOK(w, view) && n in view && EvolvesAll(w.crs, w.slots, before)
    requires n in before && Accepts(Stamp, before[n])
    requires w' == w.(slots := before[n := Apply(w.cs, Stamp, before[n])]) && w'.slots[n].server == Some(p)
    requires deeds' == deeds + [Deed(n, Stamp, w.cs, before[n], QuiescedWake)]
    ensures RepinCovered(w, deeds, view) ==> RepinCovered(w', deeds', view[n := p])
  {
    assert deeds'[..|deeds'| - 1] == deeds;
    if w.pinning && MAIN !in w.crs && MAIN in view {
      assert Knows(w.pinning, w.cs, view[MAIN], w.slots[MAIN]);
      assert Evolves(w.slots[MAIN], before[MAIN]);
    }
  }

  /** syncCocoonSetGeneration: every listed pod carries the generation before any spec-driven patch. */
  method SyncGeneration(c: Cluster, view: View, names: seq<string>) returns (ok: bool, seen: View)
    requires c.Valid() && ViewOK(c.W(), view) && Enumerates(names, view)
    modifies c`slots, c`now, c`log, c`lost, c`deeds, c`trace
    ensures c.Valid() && c.lost == old(c.lost)
    ensures ok ==> ViewOK(c.W(), seen) && seen.Keys == view.Keys && AllStamped(c.cs, seen)
    ensures ok ==> Enumerates(names, seen)
    ensures AllStamped(c.cs, view) ==> ok && seen == view && c.log == old(c.log)
    ensures UnbootedMain(old(c.W()), view) && ok ==> UnbootedMain(c.W(), seen)
    ensures RepinCovered(old(c.W()), old(c.deeds), view) && ok ==> RepinCovered(c.W(), c.deeds, seen)
  {
    hide Inv, ViewOK, Recorded, Accountable, MayWrite, Apply, Losses, Accepts, UnbootedMain, RepinCovered, EvolvesAll;
    seen := view;
    for i := 0 to |names|
      invariant c.Valid() && ViewOK(c.W(), seen) && c.lost == old(c.lost)
      invariant RepinCovered(old(c.W()), old(c.deeds), view) ==> RepinCovered(c.W(), c.deeds, seen)
      invariant seen.Keys == view.Keys && (UnbootedMain(old(c.W()), view) ==> UnbootedMain(c.W(), seen))
      invariant forall j | 0 <= j < i :: names[j] in seen && seen[names[j]].stamp == c.cs.generation
      invariant AllStamped(c.cs, view) ==> seen == view && c.log == old(c.log)
    {
      var n := names[i];
      assert n in names && n in view.Keys;
      if seen[n].stamp != c.cs.generation {
        StampingMay(c.W(), seen, n);
        ghost var w, deeds := c.W(), c.deeds;
        var r, p, before := c.WriteSlot(n, Stamp, QuiescedWake, seen);
        StampSpares(c.cs, c.crs, n, before, p);
        if r != Done {
          return false, seen;
        }
        StillUnbooted(w, seen, before, n, c.W(), p.value);
        StillCovered(w, deeds, seen, before, n, c.W(), c.deeds, p.value);
        seen := seen[n := p.value];
      }
    }
    ok := true;
    EnumeratesSame(names, view, seen);
    assert forall n | n in seen :: n in names;
  }

  lemma FailedFine(w: World, view: View)
    requires Inv(w) && ViewOK(w, view) && AllStamped(w.cs, view) && !w.cs.suspend
    requires MAIN in view && IsFailed(view[MAIN])
    ensures NotStranded(w, view.Keys)
    ensures MAIN !in w.crs ==> MAIN in w.slots && !Lingering(w.slots[MAIN]) && Excluded(w.slots[MAIN])
    ensures MAIN !in w.crs && w.pinning ==> w.slots[MAIN].excused
  {
    if MAIN !in w.crs {
      assert SlotInv(w.pinning, w.cs, MAIN, w.slots[MAIN]);
      assert Knows(w.pinning, w.cs, view[MAIN], w.slots[MAIN]);
      if !w.pinning {
        StampedPresent(w, view);
      }
    }
  }

  lemma FailedPhaseOK(w: World, before: Slots)
    requires Inv(w) && KeepsPods(w.crs, before, w.slots)
    requires MAIN !in w.crs ==> MAIN in before && !Lingering(before[MAIN]) && (w.pinning ==> before[MAIN].excused)
    ensures PhaseOK(w, FailedPhase)
  {
    if MAIN !in w.crs {
      assert SlotInv(w.pinning, w.cs, MAIN, w.slots[MAIN]);
    }
  }

  lemma StillExcluded(crs: set<string>, a: Slots, b: Slots)
    requires KeepsPods(crs, a, b) && MAIN !in crs && MAIN in a && Excluded(a[MAIN])
    ensures MAIN in b && Excluded(b[MAIN])
  {}

  /** handleFailedMainAgent: the unsuspend, unless the main is on its way to another node; then a main
      that drifted may be deleted to be built anew, or waits; otherwise the set is Failed. */
  method HandleFailedMain(c: Cluster, view: View, names: seq<string>) returns (ok: bool, t: Triaged)
    requires c.Valid() && ViewOK(c.W(), view) && Enumerates(names, view)
    requires !c.cs.suspend && AllStamped(c.cs, view) && MAIN in view && IsFailed(view[MAIN])
    modifies c`cs, c`slots, c`now, c`log, c`lost, c`deeds, c`trace
    ensures c.Valid() && SameUser(old(c.cs), c.cs) && c.lost == old(c.lost)
    ensures if t == Left then ok ==> c.cs.phase == FailedPhase else c.cs == old(c.cs).(record := c.cs.record)
    ensures t == Deleted && MAIN !in c.crs ==> MAIN in c.slots && Gone(c.slots[MAIN])
  {
    hide Inv, ViewOK, Recorded, Accountable, PhaseOK, NotStranded, KeepsPods, AllStamped, Lingering, AsEffects, UnsuspendPlan, Performed;
    hide Excluded, OthersEvolve, SameBuild, Unsuspending, Awaiting;
    t := Left;
    ghost var s0 := c.slots;
    FailedFine(c.W(), view);
    SameKept(c.crs, s0);
    var seen := view;
    if !MainOffTarget(c.cs, MainOf(view)) {
      var owned;
      ok, seen, owned := ApplyUnsuspend(c, view, names);
      if !ok {
        return;
      }
    }
    assert MAIN in view.Keys;
    if MAIN !in c.crs {
      StillExcluded(c.crs, s0, c.slots);
    }
    ok, t := RebuildOrFail(c, seen, s0);
  }

  /** The second half of handleFailedMainAgent. */
  method RebuildOrFail(c: Cluster, seen: View, ghost s0: Slots) returns (ok: bool, t: Triaged)
    requires c.Valid() && ViewOK(c.W(), seen) && !c.cs.suspend && MAIN in seen && KeepsPods(c.crs, s0, c.slots)
    requires MAIN !in c.crs ==>
      && MAIN in s0 && !Lingering(s0[MAIN]) && (c.pinning ==> s0[MAIN].excused)
      && MAIN in c.slots && Excluded(c.slots[MAIN])
    modifies c`cs, c`slots, c`now, c`log, c`lost, c`deeds, c`trace
    ensures c.Valid() && SameUser(old(c.cs), c.cs) && c.lost == old(c.lost)
    ensures if t == Left then ok ==> c.cs.phase == FailedPhase else c.cs == old(c.cs)
    ensures t == Deleted && MAIN !in c.crs ==> MAIN in c.slots && Gone(c.slots[MAIN])
  {
    hide Inv, ViewOK, Recorded, Accountable, PhaseOK, KeepsPods, Lingering, Excluded, OthersEvolve;
    var classDrifted: bool := *;   // a failed main may also drift by a scheduling class a live one keeps
    t := TriagePod(c, MAIN, Drifts(c.cs, seen[MAIN]) || classDrifted, seen);
    if t != Left {
      return t != Failing, t;
    }
    FailedPhaseOK(c.W(), s0);
    ok := PatchStatus(c, FailedPhase, seen);
  }

  /** Any phase but Migrating describes a main that has its pod and is not asked to hibernate. */
  lemma OrdinaryPhaseOK(w: World, view: View, phase: Phase)
    requires Inv(w) && ViewOK(w, view) && Grounded(w) && MAIN in view
    requires MAIN in w.crs || !view[MAIN].hibernate
    requires phase in {Pending, Scaling, Running}
    ensures PhaseOK(w, phase)
  {
    if MAIN !in w.crs {
      assert Knows(w.pinning, w.cs, view[MAIN], w.slots[MAIN]);
    }
  }

  lemma MainPlaceable(w: World)
    requires Inv(w) && !w.cs.suspend
    ensures Placeable(w, MAIN, w.cs.nodeName)
  {}

  lemma MainOwedRestore(w: World, owned: set<string>)
    requires Inv(w) && NotStranded(w, owned) && w.cs.record.suspended == []
    requires w.pinning ==> Grounded(w)
    ensures MAIN in w.slots && (MAIN !in w.crs && Lingering(w.slots[MAIN]) ==> MAIN in w.cs.record.restore)
  {
    if MAIN !in w.crs && !w.pinning {
      OwedRestore(w, owned);
    }
  }

  lemma GroundedMain(w: World, owned: set<string>)
    requires Inv(w) && NotStranded(w, owned) && MAIN in owned && HandedBack(w)
    ensures Grounded(w)
  {}

  /** createMainAgent: a main that lost its pod to a release is restored, never booted fresh. */
  method CreateMain(c: Cluster, view: View) returns (r: Reply, ghost prepared: bool)
    requires c.Valid() && ViewOK(c.W(), view) && !c.cs.suspend && MAIN !in view
    requires NotStranded(c.W(), view.Keys) && c.cs.record.suspended == [] && (c.pinning ==> Grounded(c.W()))
    modifies c
    ensures c.Valid() && SameUser(old(c.cs), c.cs)
    ensures ByImage(c.cs, old(c.lost), c.lost)
    ensures !prepared ==> r == Error && DiscardLogged(MAIN, old(c.log), c.log, old(c.cs), c.cs)
    ensures FailClosed(old(c.refusals), c.refusals, c.log) && (prepared ==> c.refusals == old(c.refusals))
    ensures r == Done && MAIN !in c.crs ==> MAIN in c.slots && ByTheRules(c.cs, c.slots[MAIN])
  {
    hide Inv, ViewOK, Recorded, Accountable, Grounded, NotStranded, OthersEvolve, Lingering, Forgot, ByTheRules, ByImage, FailClosed, DiscardLogged;
    MainOwedRestore(c.W(), view.Keys);
    MainPlaceable(c.W());
    r, prepared := CreateManaged(c, MAIN, c.cs.nodeName, false, false, view);
  }

  lemma ParkedPhaseOK(w: World, view: View)
    requires Inv(w) && ViewOK(w, view) && MAIN !in view && (w.pinning ==> Grounded(w))
    requires MAIN in w.slots && (MAIN !in w.crs && Lingering(w.slots[MAIN]) ==> MAIN in w.cs.record.restore)
    ensures PhaseOK(w, FailedPhase)
  {}

  /** A main parked by the rebuild budget stays absent; the set is Failed, and a released main stays on
      record for its restore. */
  method FailParked(c: Cluster, view: View) returns (ok: bool)
    requires c.Valid() && ViewOK(c.W(), view) && !c.cs.suspend && MAIN !in view
    requires NotStranded(c.W(), view.Keys) && c.cs.record.suspended == [] && (c.pinning ==> Grounded(c.W()))
    modifies c`cs, c`slots, c`now, c`log, c`lost, c`deeds, c`trace
    ensures c.Valid() && c.cs == old(c.cs).(phase := c.cs.phase) && c.lost == old(c.lost)
    ensures ok ==> c.cs.phase == FailedPhase
  {
    hide Inv, ViewOK, Recorded, Accountable, Grounded, NotStranded, PhaseOK, Lingering;
    MainOwedRestore(c.W(), view.Keys);
    ParkedPhaseOK(c.W(), view);
    ok := PatchStatus(c, FailedPhase, view);
  }

  /** What the set and the listed pods tell, before the pass acts, of each way it may give guest
      state up. */
  ghost predicate Warned(cs: CocoonSet, seen: View, h: Hazard) {
    match h
    case ImageReplaced(pushed) => Conflicting(cs, pushed)
    case Drifted(n) => n in seen && Drifts(cs, seen[n]) && Named(cs, seen[n])
    case RepinRace => MAIN in seen && PinnedElsewhere(seen[MAIN], cs.nodeName)
    case QuiescedWake => !cs.suspend && DropsQuiesced(cs, seen)
    case UnconfirmedHandBack => !cs.suspend && HandsBackDeleted(cs, seen)
  }

  ghost predicate WarnedAll(cs: CocoonSet, seen: View, a: seq<Hazard>, b: seq<Hazard>) {
    a <= b && forall i | |a| <= i < |b| :: Warned(cs, seen, b[i])
  }

  lemma OutdatedWarned(w: World, seen: View, cs0: CocoonSet, cs: CocoonSet, a: seq<Hazard>, b: seq<Hazard>)
    requires ViewOK(w, seen) && OnlyOutdated(cs, w.crs, seen, a, b) && SameSpec(w.cs, cs) && SameSpec(cs0, cs)
    ensures WarnedAll(cs0, seen, a, b)
  {
    forall i | |a| <= i < |b|
      ensures Warned(cs0, seen, b[i])
    {
      assert Outdated(cs, w.crs, seen, b[i]);
      if b[i].Drifted? {
        assert Knows(w.pinning, w.cs, seen[b[i].name], w.slots[b[i].name]);
      }
    }
  }

  /** What the spec wants beside the main, and which of the listed pods are ready. */
  datatype Roster = Roster(subs: set<string>, toolboxes: set<string>, ready: set<string>)

  /** From the unsuspend on: wake what a suspend stopped, reclaim the snapshots, rebuild what drifted,
      create what is missing. */
  method OrdinaryFlow(c: Cluster, view: View, names: seq<string>, roster: Roster) returns (ok: bool)
    requires c.Valid() && ViewOK(c.W(), view) && Enumerates(names, view)
    requires !c.cs.suspend && AllStamped(c.cs, view)
    requires NotStranded(c.W(), view.Keys) && HandedBack(c.W())
    modifies c
    ensures c.Valid() && SameUser(old(c.cs), c.cs) && OnlyOutdated(c.cs, c.crs, view, old(c.lost), c.lost)
    ensures FailClosed(old(c.refusals), c.refusals, c.log)
    ensures Quiet(old(c.cs), view, roster) ==> OnlyStatus(old(c.log), c.log) && c.cs == old(c.cs).(phase := c.cs.phase)
  {
    hide Inv, ViewOK, Recorded, Accountable, PhaseOK, NotStranded, KeepsPods, AllStamped, Lingering, AsEffects, UnsuspendPlan, Performed;
    hide HandedBack, Grounded, Stamped, Awake, OnlyOutdated, ByImage, FailClosed, DropsAwake, CreatesNothing, LeftGone, ReportedSince;
    hide SameBuild, Matches;
    ghost var w0 := c.W();
    var ok1, awake, owned := ApplyUnsuspend(c, view, names);
    NothingOutdated(c.cs, c.crs, view, c.lost);
    NoneRefused(c.refusals, c.log);
    if !ok1 {
      return false;
    }
    StampedStill(w0.cs, c.cs, view, awake);
    ghost var w1 := c.W();
    ok := ReclaimWokenSnapshots(c, awake);
    NothingOutdated(c.cs, c.crs, view, c.lost);
    if !ok {
      return;
    }
    KeptOn(c.crs, w0.slots, w1.slots, c.slots);
    HandedBackStays(w0, c.W());
    NotStrandedStays(w1, c.W(), view.Keys);
    KeysSame(view, awake);
    if MAIN !in awake {
      ok := WithoutMain(c, awake);
      OutdatedAlike(c.cs, c.crs, view, awake, old(c.lost), c.lost);
      return;
    }
    assert MAIN in view.Keys;
    GroundedMain(c.W(), view.Keys);
    ok := WithMain(c, awake, roster);
    OutdatedAlike(c.cs, c.crs, view, awake, old(c.lost), c.lost);
  }

  /** The main is missing: parked, or created. */
  method WithoutMain(c: Cluster, view: View) returns (ok: bool)
    requires c.Valid() && ViewOK(c.W(), view) && !c.cs.suspend && MAIN !in view
    requires NotStranded(c.W(), view.Keys) && c.cs.record.suspended == [] && HandedBack(c.W())
    modifies c
    ensures c.Valid() && SameUser(old(c.cs), c.cs) && OnlyOutdated(c.cs, c.crs, view, old(c.lost), c.lost)
    ensures FailClosed(old(c.refusals), c.refusals, c.log)
  {
    hide Inv, ViewOK, Recorded, Accountable, NotStranded, HandedBack, Grounded, OnlyOutdated, ByImage, FailClosed;
    PinnedGrounded(c.W());
    NothingOutdated(c.cs, c.crs, view, c.lost);
    var parked: bool := *;
    if parked {
      ghost var cs1 := c.cs;
      ok := FailParked(c, view);
      OutdatedFor(cs1, c.cs, c.crs, view, old(c.lost), c.lost);
      NoneRefused(c.refusals, c.log);
      return;
    }
    ghost var cs1 := c.cs;
    var r; ghost var prepared;
    r, prepared := CreateMain(c, view);
    OutdatedImage(cs1, c.cs, c.crs, view, old(c.lost), old(c.lost), c.lost);
    ok := r != Error;
  }

  /** The main is listed: a drifted one is deleted to be built anew, or waits; otherwise the pass goes on. */
  method WithMain(c: Cluster, view: View, roster: Roster) returns (ok: bool)
    requires c.Valid() && ViewOK(c.W(), view) && !c.cs.suspend && MAIN in view && Grounded(c.W())
    requires MAIN in c.crs || !view[MAIN].hibernate
    modifies c
    ensures c.Valid() && SameUser(old(c.cs), c.cs) && OnlyOutdated(c.cs, c.crs, view, old(c.lost), c.lost)
    ensures FailClosed(old(c.refusals), c.refusals, c.log)
    ensures AllThere(old(c.cs), view, roster) ==> OnlyStatus(old(c.log), c.log) && c.cs == old(c.cs).(phase := c.cs.phase)
  {
    hide Inv, ViewOK, Recorded, Accountable, Grounded, OnlyOutdated, FailClosed, OthersEvolve, Excluded, AllThere;
    NothingOutdated(c.cs, c.crs, view, c.lost);
    var t := TriagePod(c, MAIN, Drifts(c.cs, view[MAIN]), view);
    OutdatedPod(c.cs, c.crs, view, old(c.lost), old(c.lost), MAIN, c.lost);
    NoneRefused(c.refusals, c.log);
    SoundMain(c.cs, view, roster);
    if t != Left {
      return t != Failing;
    }
    ok := FinishPass(c, view, roster);
  }

  lemma KeysSame(view: View, awake: View)
    requires view.Keys == awake.Keys
    ensures forall n :: n in view <==> n in awake
  {
    forall n
      ensures n in view <==> n in awake
    {
      assert n in view.Keys <==> n in awake.Keys;
    }
  }

  lemma StampedStill(a: CocoonSet, b: CocoonSet, view: View, awake: View)
    requires AllStamped(a, view) && a.generation == b.generation
    requires b.record.generation == b.generation || b.record == EMPTY_RECLAIM || (b.record == a.record && awake == view)
    ensures Stamped(b, awake)
  {}

  lemma HandedBackStays(w: World, w': World)
    requires HandedBack(w) && w'.pinning == w.pinning && w'.crs == w.crs && KeepsPods(w.crs, w.slots, w'.slots)
    ensures HandedBack(w')
  {}

  lemma PinnedGrounded(w: World)
    requires HandedBack(w)
    ensures w.pinning ==> Grounded(w)
  {}

  /** Every member the spec wants is listed, and none of them, nor the main, would be built anew. */
  predicate AllThere(cs: CocoonSet, view: View, roster: Roster) {
    && MAIN in view && !Drifts(cs, view[MAIN])
    && forall n | n in roster.subs + roster.toolboxes :: n == MAIN || (n in view && Matches(cs, view[n]))
  }

  /** Nothing is under way in the set, and every pod is listed as the spec wants it. */
  predicate Quiet(cs: CocoonSet, view: View, roster: Roster) {
    && cs.record.vms == [] && cs.record.suspended == []
    && (forall n | n in view :: !view[n].hibernate)
    && AllThere(cs, view, roster)
  }

  /** A settled set: no suspend, no wake and no migration is under way, the main is there and well, and
      the list shows every pod stamped and as the spec wants it. */
  predicate Steady(cs: CocoonSet, view: View, roster: Roster) {
    && !cs.suspend && cs.hint == "" && !WakeInFlight(cs, view) && !AwaitsWake(cs)
    && MAIN in view && !IsFailed(view[MAIN]) && Settles(cs, MainOf(view))
    && (forall n | n in view :: view[n].stamp == cs.generation)
    && Quiet(cs, view, roster)
  }

  /** Nothing was written but, perhaps, the status. */
  ghost predicate OnlyStatus(log0: seq<Effect>, log1: seq<Effect>) {
    log1 == log0 || exists phase :: log1 == log0 + [SetStatus(phase)]
  }

  lemma SoundMain(cs: CocoonSet, view: View, roster: Roster)
    ensures AllThere(cs, view, roster) ==> MAIN in view && !Drifts(cs, view[MAIN])
  {}

  /** The main is up: the other pods follow, then the status. */
  method FinishPass(c: Cluster, view: View, roster: Roster) returns (ok: bool)
    requires c.Valid() && ViewOK(c.W(), view) && !c.cs.suspend && MAIN in view && Grounded(c.W())
    requires MAIN in c.crs || !view[MAIN].hibernate
    modifies c
    ensures c.Valid() && SameUser(old(c.cs), c.cs) && OnlyOutdated(c.cs, c.crs, view, old(c.lost), c.lost)
    ensures FailClosed(old(c.refusals), c.refusals, c.log)
    ensures c.cs.phase in {old(c.cs).phase, Pending, Scaling, Running} && c.cs.hint == old(c.cs).hint
    ensures AllThere(old(c.cs), view, roster) ==> OnlyStatus(old(c.log), c.log) && c.cs == old(c.cs).(phase := c.cs.phase)
  {
    hide Inv, ViewOK, Recorded, Accountable, PhaseOK, Grounded, OnlyOutdated, FailClosed, AllThere;
    NothingOutdated(c.cs, c.crs, view, c.lost);
    ghost var cs0, lost0 := c.cs, c.lost;
    if MAIN !in roster.ready {
      OrdinaryPhaseOK(c.W(), view, Pending);
      ok := PatchStatus(c, Pending, view);
      OutdatedFor(cs0, c.cs, c.crs, view, lost0, c.lost);
      NoneRefused(c.refusals, c.log);
      return;
    }
    var changed;
    ok, changed := EnsureMembers(c, view, roster);
    if !ok || changed {
      return;
    }
    var allReady := roster.subs + roster.toolboxes <= roster.ready;
    var phase := DerivePhase(MainOf(view), allReady);
    OrdinaryPhaseOK(c.W(), view, phase);
    ghost var cs2 := c.cs;
    ok := PatchStatus(c, phase, view);
    OutdatedFor(cs2, c.cs, c.crs, view, lost0, c.lost);
    NoneRefused(c.refusals, c.log);
  }

  lemma EachThere(cs: CocoonSet, view: View, roster: Roster)
    ensures AllThere(cs, view, roster) ==>
      && (forall n | n in roster.subs - {MAIN} :: n in view && Matches(cs, view[n]))
      && (forall n | n in roster.toolboxes - roster.subs - {MAIN} :: n in view && Matches(cs, view[n]))
  {
    assert forall n | n in roster.subs || n in roster.toolboxes :: n in roster.subs + roster.toolboxes;
  }

  /** ensureSubAgents, then ensureToolboxes. */
  method EnsureMembers(c: Cluster, view: View, roster: Roster) returns (ok: bool, changed: bool)
    requires c.Valid() && ViewOK(c.W(), view) && !c.cs.suspend && Grounded(c.W())
    modifies c
    ensures c.Valid() && Grounded(c.W()) && c.cs == old(c.cs).(record := c.cs.record)
    ensures OnlyOutdated(c.cs, c.crs, view, old(c.lost), c.lost)
    ensures FailClosed(old(c.refusals), c.refusals, c.log)
    ensures ok ==> c.refusals == old(c.refusals) && (!changed ==> ViewOK(c.W(), view))
    ensures AllThere(old(c.cs), view, roster) ==> ok && !changed && c.cs == old(c.cs) && c.log == old(c.log)
  {
    hide Inv, ViewOK, Recorded, Accountable, Grounded, OnlyOutdated, FailClosed, Part, Matches, AllThere;
    ghost var lost0 := c.lost;
    PartItself(view);
    EachThere(c.cs, view, roster);
    ghost var known, left;
    ok, changed, known := EnsureSubAgents(c, view, roster.subs - {MAIN}, view);
    if !ok {
      return;
    }
    ghost var cs1, lost1 := c.cs, c.lost;
    StillKnown(view, known, roster);
    var more;
    ok, more, left := EnsureToolboxes(c, view, roster.toolboxes - roster.subs - {MAIN}, known);
    OutdatedOn(cs1, c.cs, c.crs, view, lost0, lost1, c.lost);
    changed := changed || more;
  }

  lemma StillKnown(view: View, known: View, roster: Roster)
    requires Part(known, view) && view.Keys - (roster.subs - {MAIN}) <= known.Keys
    ensures (roster.toolboxes - roster.subs - {MAIN}) * view.Keys <= known.Keys
  {}

  /** Reconcile: the stages of a pass, in the order the source runs them. */
  method Reconcile(c: Cluster, roster: Roster) returns (ok: bool, ghost listed: View, ghost seen: View)
    requires c.Valid()
    modifies c
    ensures c.Valid() && SameUser(old(c.cs), c.cs)
    ensures WarnedAll(old(c.cs), seen, old(c.lost), c.lost)
    ensures FailClosed(old(c.refusals), c.refusals, c.log)
    ensures Steady(old(c.cs), listed, roster) ==> OnlyStatus(old(c.log), c.log) && c.cs == old(c.cs).(phase := c.cs.phase)
  {
    hide Inv, ViewOK, Recorded, Accountable, PhaseOK, AllStamped, NotStranded, HandedBack, EvolvesAll, ArmPerformed, Enumerates, GateHolds, Drained;
    hide Elements, UnbootedMain, RepinCovered, FailClosed, RecreateLogged, Steady, OnlyStatus;
    seen, listed := map[], map[];
    SteadyStages(c.cs, listed, roster);
    NoneRefused(c.refusals, c.log);
    var view, names;
    ok, view, names := c.ListOwnedPods();
    if !ok {
      return;
    }
    listed := view;
    EnumeratedAll(names, view);
    SteadyIsStamped(c.cs, view, roster);
    ok, view := SyncGeneration(c, view, names);
    NoneRefused(c.refusals, c.log);
    if !ok {
      return;
    }
    seen := view;
    if c.cs.suspend {
      ok := SuspendPass(c, view, names);
      return;
    }
    ok := RunningPass(c, view, names, roster);
  }

  lemma SteadyIsStamped(cs: CocoonSet, view: View, roster: Roster)
    ensures Steady(cs, view, roster) ==> AllStamped(cs, view) && !cs.suspend
  {}

  lemma SteadyStages(cs: CocoonSet, view: View, roster: Roster)
    ensures Steady(cs, view, roster) ==>
      && MAIN in view && !IsFailed(view[MAIN]) && Settles(cs, MainOf(view))
      && !WakeInFlight(cs, view) && !AwaitsWake(cs) && cs.hint == "" && Quiet(cs, view, roster)
  {}

  /** The stages of a pass over a set that is not suspended. */
  method RunningPass(c: Cluster, view: View, names: seq<string>, roster: Roster) returns (ok: bool)
    requires c.Valid() && ViewOK(c.W(), view) && Enumerates(names, view) && !c.cs.suspend && AllStamped(c.cs, view)
    requires UnbootedMain(c.W(), view) && RepinCovered(c.W(), c.deeds, view)
    modifies c
    ensures c.Valid() && SameUser(old(c.cs), c.cs)
    ensures WarnedAll(old(c.cs), view, old(c.lost), c.lost)
    ensures FailClosed(old(c.refusals), c.refusals, c.log)
    ensures Steady(old(c.cs), view, roster) ==> OnlyStatus(old(c.log), c.log) && c.cs == old(c.cs).(phase := c.cs.phase)
  {
    hide Inv, ViewOK, Recorded, Accountable, PhaseOK, AllStamped, NotStranded, HandedBack, EvolvesAll, ArmPerformed, Enumerates;
    hide UnbootedMain, RepinCovered, FailClosed, RecreateLogged, Steady, OnlyStatus;
    SteadyStages(c.cs, view, roster);
    NoneRefused(c.refusals, c.log);
    if MAIN in view && IsFailed(view[MAIN]) {
      var t;
      ok, t := HandleFailedMain(c, view, names);
      NoneRefused(c.refusals, c.log);
      return;
    }
    ghost var cs0 := c.cs;
    var v; ghost var arm, read;
    v, arm, read := ReconcileMigration(c, view);
    MigrationWarned(cs0, view, arm, read);
    if v.Handled? {
      return v.ok;
    }
    AllStampedFor(cs0, c.cs, view);
    ok := WakeAndGoOn(c, view, names, roster);
  }

  /** What entering Suspended stands for: no live pod was listed, or the gate of the policy holds over
      the listed pods as the suspend left them. */
  ghost predicate Sound(release: bool, crs: set<string>, slots: Slots, view: View) {
    !HasLivePod(view) || exists quiet: View ::
      quiet.Keys == view.Keys && if release then Drained(crs, slots, quiet, view.Keys) else GateHolds(crs, slots, quiet, view.Keys)
  }

  /** The suspend short-circuit of a pass. */
  method SuspendPass(c: Cluster, view: View, names: seq<string>) returns (ok: bool)
    requires c.Valid() && ViewOK(c.W(), view) && Enumerates(names, view) && c.cs.suspend
    modifies c
    ensures c.Valid() && SameUser(old(c.cs), c.cs)
    ensures WarnedAll(old(c.cs), view, old(c.lost), c.lost)
    ensures FailClosed(old(c.refusals), c.refusals, c.log)
    ensures c.cs.phase == Suspended && old(c.cs).phase != Suspended ==> Sound(old(c.cs).release, c.crs, c.slots, view)
  {
    hide Inv, ViewOK, Recorded, Accountable, Enumerates, GateHolds, Drained, FailClosed, Elements;
    SuspendedTogglesOnly(c.W());
    var o, quiet;
    if c.cs.release {
      o, quiet := ReconcileSuspendRelease(c, view, names);
    } else {
      o, quiet := ReconcileSuspend(c, view, names);
    }
    ok := o != Stopped;
  }

  lemma EnumeratedAll(names: seq<string>, view: View)
    requires NoDup(names) && forall n :: n in names <==> n in view
    ensures Enumerates(names, view)
  {}

  lemma SuspendedTogglesOnly(w: World)
    requires Inv(w) && w.cs.suspend
    ensures !w.pinning
  {}

  method WakeAndGoOn(c: Cluster, view: View, names: seq<string>, roster: Roster) returns (ok: bool)
    requires c.Valid() && ViewOK(c.W(), view) && Enumerates(names, view)
    requires !c.cs.suspend && AllStamped(c.cs, view) && HandedBack(c.W())
    modifies c
    ensures c.Valid() && SameUser(old(c.cs), c.cs)
    ensures WarnedAll(old(c.cs), view, old(c.lost), c.lost)
    ensures FailClosed(old(c.refusals), c.refusals, c.log)
    ensures Steady(old(c.cs), view, roster) ==> OnlyStatus(old(c.log), c.log) && c.cs == old(c.cs).(phase := c.cs.phase)
  {
    SteadyStages(c.cs, view, roster);
    hide Inv, ViewOK, Recorded, Accountable, AllStamped, NotStranded, HandedBack, EvolvesAll, Enumerates, DropsQuiesced, HandsBackDeleted, FailClosed, Steady, OnlyStatus, Quiet;
    ghost var w0 := c.W();
    var v := ReconcileWake(c, view);
    if v.Handled? {
      return v.ok;
    }
    HandedBackThen(w0, c.W());
    ghost var w1, lost1 := c.W(), c.lost;
    ok := OrdinaryFlow(c, view, names, roster);
    OutdatedWarned(w1, view, w0.cs, c.cs, lost1, c.lost);
    WarnedOn(w0.cs, view, old(c.lost), lost1, c.lost);
  }

  lemma WarnedOn(cs: CocoonSet, seen: View, a: seq<Hazard>, b: seq<Hazard>, c: seq<Hazard>)
    requires WarnedAll(cs, seen, a, b) && WarnedAll(cs, seen, b, c)
    ensures WarnedAll(cs, seen, a, c)
  {}

  lemma HandedBackThen(w: World, w': World)
    requires HandedBack(w) && w.pinning == w'.pinning && w.crs == w'.crs && (w.pinning ==> w.slots == w'.slots)
    ensures HandedBack(w')
  {}

  lemma MigrationWarned(cs: CocoonSet, seen: View, arm: Option<Arm>, read: Read)
    requires arm == Some(RecreateUnbound) ==> RecreateUnbound == ArmOf(cs, MainOf(seen), read.owned, read.snap, read.tracked)
    ensures arm == Some(RecreateUnbound) ==> Warned(cs, seen, RepinRace)
  {}

  // ---- runs ----

  /** A user's edit of the spec, within the scope of the run. */
  datatype Edit = Edit(suspend: bool, release: bool, nodeName: string, image: string, shape: nat)

  predicate Admitted(pinning: bool, slots: Slots, e: Edit) {
    if pinning then !e.suspend else e.nodeName == "" && (e.release ==> slots.Keys == {MAIN})
  }

  function Edited(cs: CocoonSet, e: Edit): CocoonSet {
    cs.(generation := cs.generation + 1, suspend := e.suspend, release := e.release,
        nodeName := e.nodeName, repins := cs.repins + if e.nodeName == cs.nodeName then 0 else 1,
        image := e.image, images := cs.images + {e.image}, shape := e.shape, shapes := cs.shapes + {e.shape})
  }

  lemma EditImaged(cs: CocoonSet, e: Edit, s: Slot)
    requires Imaged(cs, s)
    ensures Imaged(Edited(cs, e), s)
  {}

  lemma EditInv(w: World, e: Edit)
    requires Inv(w) && Admitted(w.pinning, w.slots, e)
    ensures Inv(w.(cs := Edited(w.cs, e)))
  {
    forall n | n in w.slots && n !in w.crs
      ensures SlotInv(w.pinning, Edited(w.cs, e), n, w.slots[n]) && Imaged(Edited(w.cs, e), w.slots[n])
    {
      InvAt(w, n);
      EditKeeps(w.pinning, w.cs, Edited(w.cs, e), n, w.slots[n]);
      EditImaged(w.cs, e, w.slots[n]);
    }
  }

  lemma EditAccountable(w: World, e: Edit, deeds: seq<Deed>, lost: seq<Hazard>)
    requires Accountable(w, deeds, lost)
    ensures Accountable(w.(cs := Edited(w.cs, e)), deeds, lost)
  {}

  method EditSpec(c: Cluster, e: Edit)
    requires c.Valid() && Admitted(c.pinning, c.slots, e)
    modifies c`cs, c`trace
    ensures c.Valid() && c.cs == Edited(old(c.cs), e)
    ensures c.trace == old(c.trace) + [c.W()]
  {
    hide Inv, Recorded, Accountable;
    EditInv(c.W(), e);
    EditAccountable(c.W(), e, c.deeds, c.lost);
    Remember(c.trace, c.W(), c.W().(cs := Edited(c.cs, e)));
    c.cs := Edited(c.cs, e);
    c.trace := c.trace + [c.W()];
  }

  /** What one pass started from. */
  datatype Entry = Entry(cs: CocoonSet, seen: View)

  ghost predicate Foretold(history: seq<Entry>, lost: seq<Hazard>) {
    forall i | 0 <= i < |lost| :: WarnedBy(history, lost[i])
  }

  ghost predicate WarnedBy(history: seq<Entry>, h: Hazard) {
    exists j | 0 <= j < |history| :: Warned(history[j].cs, history[j].seen, h)
  }

  lemma WarnedLater(history: seq<Entry>, e: Entry, h: Hazard)
    requires WarnedBy(history, h) || Warned(e.cs, e.seen, h)
    ensures WarnedBy(history + [e], h)
  {
    var longer := history + [e];
    if WarnedBy(history, h) {
      var j :| 0 <= j < |history| && Warned(history[j].cs, history[j].seen, h);
      assert longer[j] == history[j];
    } else {
      assert longer[|history|] == e;
    }
  }

  lemma ForetoldOn(history: seq<Entry>, e: Entry, a: seq<Hazard>, b: seq<Hazard>)
    requires Foretold(history, a) && WarnedAll(e.cs, e.seen, a, b)
    ensures Foretold(history + [e], b)
  {
    forall i | 0 <= i < |b|
      ensures WarnedBy(history + [e], b[i])
    {
      assert i < |a| ==> b[i] == a[i] && WarnedBy(history, a[i]);
      WarnedLater(history, e, b[i]);
    }
  }

  /** What every pass of a run has known the spec to ask for. */
  ghost predicate Remembered(history: seq<Entry>, images: set<string>, shapes: set<nat>) {
    forall i | 0 <= i < |history| ::
      history[i].cs.images <= images && history[i].cs.shapes <= shapes && OnRecord(history[i].cs)
  }

  lemma RememberedOn(history: seq<Entry>, e: Entry, a: CocoonSet, b: CocoonSet)
    requires Remembered(history, a.images, a.shapes) && a.images <= b.images && a.shapes <= b.shapes
    requires e.cs.images <= b.images && e.cs.shapes <= b.shapes && OnRecord(e.cs)
    ensures Remembered(history + [e], b.images, b.shapes) && Remembered(history, b.images, b.shapes)
  {}

  lemma AskedFor(c: Cluster)
    requires c.Valid()
    ensures OnRecord(c.cs)
  {}

  lemma OneImageNoConflict(cs: CocoonSet, images: set<string>)
    requires OneImage(images) && cs.images <= images && cs.image in cs.images
    ensures forall pushed :: !Conflicting(cs, pushed)
  {}

  ghost predicate OneShape(shapes: set<nat>) {
    forall a, b | a in shapes && b in shapes :: a == b
  }

  /** A run in which nobody edits the image gives nothing up to the image rule; one in which nobody
      edits what pods are built from gives nothing up to drift. */
  lemma UneditedSpec(history: seq<Entry>, images: set<string>, shapes: set<nat>, lost: seq<Hazard>)
    requires Remembered(history, images, shapes) && OneImage(images) && Foretold(history, lost)
    ensures forall i | 0 <= i < |lost| :: !lost[i].ImageReplaced? && (OneShape(shapes) ==> !lost[i].Drifted?)
  {
    forall i | 0 <= i < |lost|
      ensures !lost[i].ImageReplaced? && (OneShape(shapes) ==> !lost[i].Drifted?)
    {
      assert WarnedBy(history, lost[i]);
      var j :| 0 <= j < |history| && Warned(history[j].cs, history[j].seen, lost[i]);
      OneImageNoConflict(history[j].cs, images);
    }
  }

  /** What the deeds of a run show. Pods are created by the rules, sub-agents marked exactly when their
      tag exists, and suspends and migrations delete pods only over a tag that holds their state; while nothing is lost a tag goes only when its VM runs or is owed nothing; and
      mains are deleted for their pin no more often than the node name was edited. */
  ghost predicate DeedsShow(w: World, deeds: seq<Deed>, lost: seq<Hazard>) {
    && (forall i | 0 <= i < |deeds| && deeds[i].name !in w.crs ::
          && (deeds[i].write.Create? ==>
                Accepts(deeds[i].write, deeds[i].slot)
                && ByTheRules(deeds[i].cs, Apply(deeds[i].cs, deeds[i].write, deeds[i].slot))
                && (deeds[i].write.fork ==> (deeds[i].write.restore <==> deeds[i].slot.tag.Some?)))
          && (deeds[i].write.Delete? && deeds[i].slot.claim.Some? ==>
                deeds[i].slot.tag.Some? && deeds[i].slot.tag.value.version == deeds[i].slot.claim.value)
          && (deeds[i].write.DropTag? && deeds[i].slot.claim.Some? && lost == [] ==> LiveNow(deeds[i].slot)))
    && (w.pinning && MAIN !in w.crs ==> RepinDeletes(deeds) <= w.cs.repins)
  }

  lemma AccountsShow(c: Cluster)
    requires c.Valid()
    ensures AllSafe(c.trace) && DeedsShow(c.W(), c.deeds, c.lost)
  {
    assert Accountable(c.W(), c.deeds, c.lost);
  }

  /** Any run: passes that fail or crash at any call, spec edits between them, and any steps of
      vk-cocoon, the scheduler, the kubelet and the guests. In every state of the run each VM outside
      the CocoonHibernations still has the guest state its user is owed, and what ceased to be owed
      was given up by a pass whose own entry warned of it; a run that never edits what pods are built
      from gives nothing up to the image rule or to drift. */
  method Run(c: Cluster) returns (ghost history: seq<Entry>)
    requires c.Valid() && c.lost == []
    modifies c
    ensures c.Valid() && AllSafe(c.trace) && Foretold(history, c.lost) && DeedsShow(c.W(), c.deeds, c.lost)
    ensures OneImage(c.cs.images) ==> forall i | 0 <= i < |c.lost| ::
      !c.lost[i].ImageReplaced? && (OneShape(c.cs.shapes) ==> !c.lost[i].Drifted?)
  {
    hide Inv, Recorded, Accountable, ViewOK, Warned, WarnedAll, EvolvesAll, Remembered, Foretold, FailClosed, Quiet;
    history := [];
    NothingRemembered(c.cs);
    var steps: nat := *;
    while steps > 0
      invariant c.Valid() && Foretold(history, c.lost) && Remembered(history, c.cs.images, c.cs.shapes)
    {
      if * {
        c.Vk(map[]);
      } else if * {
        var e: Edit := *;
        if Admitted(c.pinning, c.slots, e) {
          ghost var cs := c.cs;
          EditSpec(c, e);
          WiderMemory(history, cs, c.cs);
        }
      } else {
        ghost var cs, lost := c.cs, c.lost;
        AskedFor(c);
        var roster: Roster := *;
        var ok; ghost var listed, seen;
        ok, listed, seen := Reconcile(c, roster);
        ForetoldOn(history, Entry(cs, seen), lost, c.lost);
        RememberedOn(history, Entry(cs, seen), cs, c.cs);
        history := history + [Entry(cs, seen)];
      }
      steps := steps - 1;
    }
    AccountsShow(c);
    if OneImage(c.cs.images) {
      UneditedSpec(history, c.cs.images, c.cs.shapes, c.lost);
    }
  }

  lemma NothingRemembered(cs: CocoonSet)
    ensures Remembered([], cs.images, cs.shapes) && Foretold([], [])
  {}

  lemma WiderMemory(history: seq<Entry>, a: CocoonSet, b: CocoonSet)
    requires Remembered(history, a.images, a.shapes) && a.images <= b.images && a.shapes <= b.shapes
    ensures Remembered(history, b.images, b.shapes)
  {}
}
