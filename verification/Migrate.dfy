/** reconcileMigration on the cluster: every arm of Migration, with its reads and its failures. */
module Migrate {
  import opened World
  import opened Reclaims
  import opened Invariant
  import opened Fleet
  import opened Deeds
  import opened Facts
  import opened Clusters
  import opened Writes
  import opened Creators
  import opened Suspension
  import opened Unsuspension
  import opened Woken
  import opened SlotRelease
  import opened Migration

  /** The writes between two logs are those of the arm, or, when the pass was cut short, the first of
      them; the keep-snapshot flag that precedes the delete is best-effort. */
  ghost predicate ArmPerformed(cs: CocoonSet, main: Option<Pod>, arm: Arm, log0: seq<Effect>, log1: seq<Effect>, whole: bool) {
    var writes := ArmWrites(cs, main, arm);
    || (log0 <= log1 <= log0 + writes && (whole ==> log1 == log0 + writes))
    || (arm == DeleteOld && log0 <= log1 <= log0 + writes[1..] && (whole ==> log1 == log0 + writes[1..]))
  }

  /** What the normal flow needs of a main the migration hands back. */
  ghost predicate HandedBack(w: World) {
    w.pinning && MAIN !in w.crs ==> MAIN in w.slots && Settled(w.slots[MAIN])
  }

  lemma NotMigrating(w: World)
    requires Inv(w) && w.cs.phase != Migrating
    ensures HandedBack(w)
  {
    if MAIN !in w.crs {
      assert SlotInv(w.pinning, w.cs, MAIN, w.slots[MAIN]);
    }
  }

  lemma ScheduledMain(w: World, view: View)
    requires Inv(w) && ViewOK(w, view) && MAIN in view && view[MAIN].node != ""
    ensures HandedBack(w)
  {
    if w.pinning && MAIN !in w.crs {
      assert Knows(w.pinning, w.cs, view[MAIN], w.slots[MAIN]);
    }
  }

  lemma TaglessMain(w: World)
    requires Inv(w) && w.slots[MAIN].tag.None?
    ensures HandedBack(w)
  {
    if MAIN !in w.crs {
      assert SlotInv(w.pinning, w.cs, MAIN, w.slots[MAIN]);
    }
  }

  lemma MigratingPhaseOK(w: World)
    requires Inv(w) && w.pinning
    ensures PhaseOK(w, Migrating)
  {}

  method MarkMigrating(c: Cluster, ghost view: View) returns (v: Verdict)
    requires c.Valid() && ViewOK(c.W(), view) && c.pinning
    modifies c`cs, c`slots, c`now, c`log, c`lost, c`deeds, c`trace
    ensures c.Valid() && v.Handled? && c.cs == old(c.cs).(phase := c.cs.phase) && c.lost == old(c.lost)
    ensures c.log == old(c.log) || c.log == old(c.log) + [SetStatus(Migrating)]
    ensures v == Handled(true) ==> c.cs.phase == Migrating && c.log == old(c.log) + [SetStatus(Migrating)]
  {
    hide Inv, ViewOK, Recorded, Accountable, PhaseOK;
    MigratingPhaseOK(c.W());
    var ok := PatchStatus(c, Migrating, view);
    v := Handled(ok);
  }

  /** A main that waits for a node it is no longer pinned to. It has no VM yet, unless it was bound
      and booted after the list: the one step of a migration that can lose guest state. */
  method DeleteStalePin(c: Cluster, ghost view: View) returns (v: Verdict)
    requires c.Valid() && ViewOK(c.W(), view) && MAIN in c.slots
    requires MAIN in c.crs || (c.pinning && Unbooted(c.cs, c.slots[MAIN]))
    requires Covered(c.W(), c.deeds)
    modifies c`cs, c`slots, c`now, c`log, c`lost, c`deeds, c`trace
    ensures c.Valid() && v.Handled? && c.cs == old(c.cs)
    ensures c.lost == old(c.lost) || c.lost == old(c.lost) + [RepinRace]
    ensures c.log == old(c.log) || c.log == old(c.log) + [OnSlot(MAIN, DeleteUnbound)]
    ensures v == Handled(true) ==> c.log == old(c.log) + [OnSlot(MAIN, DeleteUnbound)]
  {
    hide Inv, ViewOK, Recorded, Accountable, MayWrite, Losses, Covered;
    StalePinMay(c.W());
    var r, p, before := c.WriteSlot(MAIN, DeleteUnbound, RepinRace, view);
    OneLossAtMost(c.crs, MAIN, DeleteUnbound, RepinRace, before);
    v := Handled(r == Done);
  }

  lemma StalePinMay(w: World)
    requires MAIN in w.slots && (MAIN in w.crs || (w.pinning && Unbooted(w.cs, w.slots[MAIN])))
    ensures MayWrite(w, MAIN, DeleteUnbound)
  {}

  lemma QuiescingMainMay(w: World, view: View)
    requires Inv(w) && ViewOK(w, view) && w.pinning && w.cs.phase == Migrating
    requires MAIN in view && !view[MAIN].hibernate && view[MAIN].node != ""
    requires MAIN in w.crs || w.slots[MAIN].tag.None?
    ensures MayWrite(w, MAIN, Quiesce)
  {
    if MAIN !in w.crs {
      assert Knows(w.pinning, w.cs, view[MAIN], w.slots[MAIN]);
    }
  }

  lemma TagOfListed(w: World, view: View, before: Slots)
    requires Inv(w) && ViewOK(w, view) && w.pinning && MAIN in view && MAIN !in w.crs
    requires EvolvesAll(w.crs, before, w.slots) && MAIN in before
    ensures before[MAIN].tag.Some? ==> w.slots[MAIN].tag.Some?
    ensures !view[MAIN].hibernate && before[MAIN].tag.None? ==> w.slots[MAIN].tag.None?
  {
    assert Knows(w.pinning, w.cs, view[MAIN], w.slots[MAIN]);
    assert Evolves(before[MAIN], w.slots[MAIN]);
  }

  /** startMigration: Migrating is durable before the annotation. */
  method StartMigration(c: Cluster, view: View) returns (v: Verdict)
    requires c.Valid() && ViewOK(c.W(), view) && c.pinning && MAIN in view && MAIN in c.slots && view[MAIN].node != ""
    requires MAIN in c.crs || c.slots[MAIN].tag.None?
    modifies c`cs, c`slots, c`now, c`log, c`lost, c`deeds, c`trace
    ensures c.Valid() && v.Handled? && SameUser(old(c.cs), c.cs) && c.lost == old(c.lost)
    ensures ArmPerformed(old(c.cs), MainOf(view), Start, old(c.log), c.log, v == Handled(true))
  {
    hide Inv, ViewOK, Recorded, Accountable, MayWrite, PhaseOK, EvolvesAll, Losses, Apply;
    ghost var s0 := c.slots;
    MigratingPhaseOK(c.W());
    var ok := PatchStatus(c, Migrating, view);
    if !ok || view[MAIN].hibernate {
      return Handled(ok);
    }
    if MAIN !in c.crs {
      TagOfListed(c.W(), view, s0);
    }
    QuiescingMainMay(c.W(), view);
    var r, p, before := c.WriteSlot(MAIN, Quiesce, QuiescedWake, view);
    QuiesceSpares(c.crs, MAIN, before);
    v := Handled(r == Done);
  }

  lemma AwakeMain(w: World, view: View)
    requires Inv(w) && ViewOK(w, view) && w.pinning && MAIN in view && MAIN !in w.crs
    requires view[MAIN].vm == Live && !view[MAIN].hibernate
    ensures Awake(w.slots[MAIN])
  {
    assert Knows(w.pinning, w.cs, view[MAIN], w.slots[MAIN]);
  }

  lemma AwakeDropSpares(w: World, before: Slots, n: string)
    requires n !in w.crs ==> n in w.slots && Awake(w.slots[n])
    requires EvolvesAll(w.crs, w.slots, before) && Inv(w.(slots := before)) && n in before
    ensures Losses(w.crs, n, DropTag, QuiescedWake, before[n]) == []
  {
    if n !in w.crs {
      StaysPut(w.slots[n], before[n]);
      assert SlotInv(w.pinning, w.cs, n, before[n]);
    }
  }

  /** A tag the migration no longer needs, or never made, goes while the main is live. */
  method DropMainTag(c: Cluster, view: View) returns (v: Verdict)
    requires c.Valid() && ViewOK(c.W(), view) && c.pinning && MAIN in view && MAIN in c.slots
    requires view[MAIN].vm == Live && (MAIN !in c.crs ==> !view[MAIN].hibernate)
    modifies c
    ensures FailClosed(old(c.refusals), c.refusals, c.log)
    ensures c.Valid() && v.Handled? && SameUser(old(c.cs), c.cs) && c.lost == old(c.lost)
    ensures ArmPerformed(old(c.cs), MainOf(view), DropRestored, old(c.log), c.log, v == Handled(true))
  {
    hide Inv, ViewOK, Recorded, Accountable, FailClosed;
    var ok := DropLiveTag(c, view);
    RefusedLast(old(c.refusals), c.refusals, MAIN, c.log);
    if !ok {
      return Handled(false);
    }
    v := MarkMigrating(c, view);
    NoneRefused(c.refusals, c.log);
  }

  method DropLiveTag(c: Cluster, view: View) returns (ok: bool)
    requires c.Valid() && ViewOK(c.W(), view) && c.pinning && MAIN in view && MAIN in c.slots
    requires view[MAIN].vm == Live && (MAIN !in c.crs ==> !view[MAIN].hibernate)
    modifies c`slots, c`now, c`log, c`lost, c`deeds, c`trace, c`refusals
    ensures c.Valid() && ViewOK(c.W(), view) && c.lost == old(c.lost) && c.Answered(MAIN, ok, old(c.refusals))
    ensures c.log == old(c.log) + [OnSlot(MAIN, DropTag)] || (!ok && c.log == old(c.log))
  {
    hide Inv, ViewOK, Recorded, Accountable, MayWrite, EvolvesAll, Losses, Apply;
    ghost var w0 := c.W();
    if MAIN !in c.crs {
      AwakeMain(c.W(), view);
    }
    DroppingMay(c.W(), MAIN);
    var r, p, before := c.WriteSlot(MAIN, DropTag, QuiescedWake, view);
    AwakeDropSpares(w0, before, MAIN);
    DroppingAccepted(before[MAIN]);
    ok := r == Done;
    c.Note(MAIN, ok);
  }

  lemma DeletingOldMay(w: World, view: View)
    requires Inv(w) && ViewOK(w, view) && w.pinning && MAIN in view && view[MAIN].hibernate
    requires MAIN in w.crs || w.slots[MAIN].tag.Some?
    ensures MayWrite(w, MAIN, Delete)
  {
    if MAIN !in w.crs {
      assert Knows(w.pinning, w.cs, view[MAIN], w.slots[MAIN]);
    }
  }

  lemma OldKept(w: World, before: Slots, s0: Slots)
    requires EvolvesAll(w.crs, s0, before) && MAIN in before
    requires w.slots == before || (Accepts(Keep, before[MAIN]) && w.slots == before[MAIN := Apply(w.cs, Keep, before[MAIN])])
    ensures MAIN !in w.crs && s0[MAIN].tag.Some? ==> w.slots[MAIN].tag.Some?
  {
    assert MAIN !in w.crs ==> Evolves(s0[MAIN], before[MAIN]);
  }

  lemma KeepSpares(cs: CocoonSet, crs: set<string>, n: string, slots: Slots)
    requires n in slots
    ensures Losses(crs, n, Delete, QuiescedWake, slots[n]) == []
    ensures Losses(crs, n, Keep, QuiescedWake, slots[n]) == []
    ensures Losses(crs, n, Wake, QuiescedWake, slots[n]) == []
  {}

  lemma DeleteOldPerformed(cs: CocoonSet, main: Option<Pod>, log0: seq<Effect>, kept: seq<Effect>, more: seq<Effect>, whole: bool)
    requires kept in {[], [OnSlot(MAIN, Keep)]}
    requires more in {[], [OnSlot(MAIN, Delete)], [OnSlot(MAIN, Delete), SetStatus(Migrating)]}
    requires whole ==> |more| == 2
    ensures ArmPerformed(cs, main, DeleteOld, log0, log0 + kept + more, whole)
  {
    assert ArmWrites(cs, main, DeleteOld) == [OnSlot(MAIN, Keep)] + [OnSlot(MAIN, Delete), SetStatus(Migrating)];
    assert log0 + [] + more == log0 + more;
    assert log0 + [OnSlot(MAIN, Keep)] + more <= log0 + ArmWrites(cs, main, DeleteOld);
  }

  /** The keep-snapshot flag: refused or lost, it costs the wake a registry pull and nothing else. */
  method FlagMain(c: Cluster, view: View) returns (ghost kept: seq<Effect>)
    requires c.Valid() && ViewOK(c.W(), view) && MAIN in view && MAIN in c.slots
    modifies c`cs, c`slots, c`now, c`log, c`lost, c`deeds, c`trace
    ensures c.Valid() && ViewOK(c.W(), view) && c.cs == old(c.cs) && c.lost == old(c.lost) && MAIN in c.slots
    ensures MAIN !in c.crs && old(c.slots)[MAIN].tag.Some? ==> c.slots[MAIN].tag.Some?
    ensures kept in {[], [OnSlot(MAIN, Keep)]} && c.log == old(c.log) + kept
  {
    hide Inv, ViewOK, Recorded, Accountable, MayWrite, EvolvesAll, Losses, Apply, Accepts;
    KeepingMay(c.W(), view, MAIN);
    var r, p, before := c.WriteSlot(MAIN, Keep, QuiescedWake, view);
    KeepSpares(c.cs, c.crs, MAIN, before);
    OldKept(c.W(), before, old(c.slots));
    kept := if c.log == old(c.log) then [] else [OnSlot(MAIN, Keep)];
  }

  /** The old pod dies only once it was asked to hibernate and the tag was seen. */
  method DeleteOldMain(c: Cluster, view: View) returns (v: Verdict)
    requires c.Valid() && ViewOK(c.W(), view) && c.pinning && MAIN in view && MAIN in c.slots
    requires view[MAIN].hibernate && (MAIN in c.crs || c.slots[MAIN].tag.Some?)
    modifies c`cs, c`slots, c`now, c`log, c`lost, c`deeds, c`trace
    ensures c.Valid() && v.Handled? && SameUser(old(c.cs), c.cs) && c.lost == old(c.lost)
    ensures ArmPerformed(old(c.cs), MainOf(view), DeleteOld, old(c.log), c.log, v == Handled(true))
  {
    hide Inv, ViewOK, Recorded, Accountable, MayWrite, EvolvesAll, Losses, Apply, Accepts, ArmPerformed, ArmWrites;
    ghost var log0, main := c.log, MainOf(view);
    ghost var kept := FlagMain(c, view);
    DeletingOldMay(c.W(), view);
    var r, p, before := c.WriteSlot(MAIN, Delete, QuiescedWake, view);
    KeepSpares(c.cs, c.crs, MAIN, before);
    if r != Done {
      DeleteOldPerformed(c.cs, main, log0, kept, [], false);
      DeleteOldPerformed(c.cs, main, log0, kept, [OnSlot(MAIN, Delete)], false);
      assert log0 + kept + [] == log0 + kept;
      return Handled(false);
    }
    ghost var cs1 := c.cs;
    v := MarkMigrating(c, view - {MAIN});
    ghost var more := if c.log == log0 + kept + [OnSlot(MAIN, Delete)] then [OnSlot(MAIN, Delete)]
                      else [OnSlot(MAIN, Delete), SetStatus(Migrating)];
    assert c.log == log0 + kept + more;
    DeleteOldPerformed(cs1, main, log0, kept, more, v == Handled(true));
  }

  lemma WakingInPlaceMay(w: World, view: View)
    requires w.pinning && MAIN in w.slots
    ensures MayWrite(w, MAIN, Wake)
  {}

  method WakeMainInPlace(c: Cluster, view: View) returns (v: Verdict)
    requires c.Valid() && ViewOK(c.W(), view) && c.pinning && MAIN in c.slots && MAIN in view
    modifies c`cs, c`slots, c`now, c`log, c`lost, c`deeds, c`trace
    ensures c.Valid() && v.Handled? && SameUser(old(c.cs), c.cs) && c.lost == old(c.lost)
    ensures ArmPerformed(old(c.cs), MainOf(view), WakeInPlace, old(c.log), c.log, v == Handled(true))
  {
    hide Inv, ViewOK, Recorded, Accountable, MayWrite, EvolvesAll, Losses, Apply, Accepts;
    WakingInPlaceMay(c.W(), view);
    var r, p, before := c.WriteSlot(MAIN, Wake, QuiescedWake, view);
    KeepSpares(c.cs, c.crs, MAIN, before);
    if r != Done {
      return Handled(false);
    }
    v := MarkMigrating(c, view[MAIN := p.value]);
  }

  lemma RecreatingMay(w: World, view: View)
    requires Inv(w) && ViewOK(w, view) && MAIN !in view && w.pinning && (MAIN !in w.crs ==> NoConflict(w.cs, w.slots[MAIN]) && w.slots[MAIN].tag.Some?)
    ensures MayWrite(w, MAIN, Create(w.cs.nodeName, true, false))
  {}

  /** The recreate arm. A snapshot of another image is discarded and the main left to the normal flow. */
  method RecreateOnTarget(c: Cluster, view: View) returns (v: Verdict, ghost discarded: bool)
    requires c.Valid() && ViewOK(c.W(), view) && c.pinning && MAIN !in view && MAIN in c.slots
    requires MAIN in c.crs || c.slots[MAIN].tag.Some?
    modifies c
    ensures c.Valid() && SameUser(old(c.cs), c.cs) && ByImage(c.cs, old(c.lost), c.lost)
    ensures v.NotHandled? ==> ViewOK(c.W(), view) && HandedBack(c.W()) && discarded && c.refusals == old(c.refusals)
    ensures discarded ==> v != Handled(true) && DiscardLogged(MAIN, old(c.log), c.log, old(c.cs), c.cs)
    ensures !discarded ==> v.Handled? && c.lost == old(c.lost)
    ensures !discarded ==> ArmPerformed(old(c.cs), None, Recreate, old(c.log), c.log, v == Handled(true) && c.log != old(c.log))
    ensures FailClosed(old(c.refusals), c.refusals, c.log)
  {
    hide Inv, ViewOK, Recorded, Accountable, MayWrite, EvolvesAll, Evolves, Losses, Apply, Accepts, Forgettable, Lingering;
    hide OthersEvolve, EvolvesOrDiscards, NoConflict, Forgot, ByImage, DiscardLogged, FailClosed;
    ghost var s0 := c.slots;
    var ok, dropped := DiscardImageConflict(c, MAIN, view);
    MainHasSlot(c.W());
    RefusedLast(old(c.refusals), c.refusals, MAIN, c.log);
    discarded := !ok || dropped;
    if !ok {
      return Handled(false), discarded;
    }
    if dropped {
      return NotHandled, discarded;
    }
    if MAIN !in c.crs {
      OneTagSurvives(s0[MAIN], c.slots[MAIN]);
    }
    NothingCosts(c.cs, c.lost);
    v := CreateOnTarget(c, view);
    NoneRefused(c.refusals, c.log);
    NothingCosts(c.cs, c.lost);
  }

  /** The create and the status of the recreate arm. */
  method CreateOnTarget(c: Cluster, view: View) returns (v: Verdict)
    requires c.Valid() && ViewOK(c.W(), view) && c.pinning && MAIN in c.slots && MAIN !in view
    requires MAIN !in c.crs ==> NoConflict(c.cs, c.slots[MAIN]) && c.slots[MAIN].tag.Some?
    modifies c`cs, c`slots, c`now, c`log, c`lost, c`deeds, c`trace
    ensures c.Valid() && v.Handled? && SameUser(old(c.cs), c.cs) && c.lost == old(c.lost)
    ensures ArmPerformed(old(c.cs), None, Recreate, old(c.log), c.log, v == Handled(true) && c.log != old(c.log))
  {
    hide Inv, ViewOK, Recorded, Accountable, MayWrite, EvolvesAll, Losses, Apply, Accepts, NoConflict;
    RecreatingMay(c.W(), view);
    var r, p, before := c.WriteSlot(MAIN, Create(c.cs.nodeName, true, false), QuiescedWake, view);
    CreateSpares(c.crs, before, MAIN, c.cs.nodeName, true);
    if r != Done {
      return Handled(r == Refused);
    }
    v := MarkMigrating(c, view);
  }

  lemma OneTagSurvives(s: Slot, t: Slot)
    requires Evolves(s, t)
    ensures s.tag.Some? ==> t.tag.Some?
  {}

  lemma StalePinned(w: World, view: View)
    requires ViewOK(w, view) && MAIN in view && PinnedElsewhere(view[MAIN], w.cs.nodeName)
    ensures MAIN in w.crs || w.pinning
  {}

  /** What a migration pass has read. */
  datatype Read = Read(owned: bool, snap: bool, tracked: bool)

  /** The recreate arm: a discard, whole or cut short, after which nothing is created; or the arm's own
      writes, or none of them when the old pod is still there. */
  ghost predicate RecreateLogged(a: CocoonSet, b: CocoonSet, log0: seq<Effect>, log1: seq<Effect>, v: Verdict) {
    || (v != Handled(true) && DiscardLogged(MAIN, log0, log1, a, b))
    || (v.Handled? && ArmPerformed(a, None, Recreate, log0, log1, v == Handled(true) && log1 != log0))
  }

  /** reconcileMigration: one arm, decided by what the pass has read, and nothing but its writes. Only
      the delete of a stale pin, racing the scheduler, and the image rule can cost guest state. */
  method ReconcileMigration(c: Cluster, view: View) returns (v: Verdict, ghost arm: Option<Arm>, ghost read: Read)
    requires c.Valid() && ViewOK(c.W(), view) && !c.cs.suspend
    requires UnbootedMain(c.W(), view) && RepinCovered(c.W(), c.deeds, view)
    modifies c
    ensures c.Valid() && SameUser(old(c.cs), c.cs)
    ensures arm.Some? ==> arm.value == ArmOf(old(c.cs), MainOf(view), read.owned, read.snap, read.tracked)
    ensures arm.None? ==> v == Handled(false) && c.log == old(c.log)
    ensures arm.Some? && arm.value != Recreate ==>
      ArmPerformed(old(c.cs), MainOf(view), arm.value, old(c.log), c.log, v == Handled(true))
    ensures v.NotHandled? ==> arm in {Some(HandBack), Some(Recreate)} && ViewOK(c.W(), view) && HandedBack(c.W())
    ensures arm == Some(HandBack) ==> v.NotHandled? && c.cs == old(c.cs)
    ensures || c.lost == old(c.lost)
            || (arm == Some(RecreateUnbound) && c.lost == old(c.lost) + [RepinRace])
            || (arm == Some(Recreate) && ByImage(c.cs, old(c.lost), c.lost))
    ensures arm == Some(Recreate) ==> RecreateLogged(old(c.cs), c.cs, old(c.log), c.log, v)
    ensures FailClosed(old(c.refusals), c.refusals, c.log) && (v.NotHandled? ==> c.refusals == old(c.refusals))
    ensures Settles(old(c.cs), MainOf(view)) ==> v.NotHandled? && c.cs == old(c.cs) && c.log == old(c.log)
  {
    hide Inv, ViewOK, Recorded, Accountable, HandedBack, ArmPerformed, EvolvesAll, Unbooted, FailClosed, ByImage, RecreateLogged, Covered;
    NoneRefused(c.refusals, c.log);
    MainHasSlot(c.W());
    NothingPerformed(c.cs, MainOf(view), c.log);
    read := Read(false, false, false);
    if MAIN in view && PinnedElsewhere(view[MAIN], c.cs.nodeName) {
      StalePinned(c.W(), view);
      v := DeleteStalePin(c, view);
      arm := Some(RecreateUnbound);
      NoneRefused(c.refusals, c.log);
      UnboundPerformed(old(c.cs), MainOf(view), old(c.log), c.log, v == Handled(true));
      return;
    }
    if (c.cs.nodeName == "" && c.cs.phase != Migrating) || FastPath(c.cs, MainOf(view)) {
      NotMigrating(c.W());
      return NotHandled, Some(HandBack), read;
    }
    var ok, owned, snap := true, {}, false;
    if MAIN in view && view[MAIN].hibernate {
      ok, owned := c.HibernationPodNames(view);
      if !ok {
        return Handled(false), None, read;
      }
      if MAIN in owned {
        OwnedHandedBack(c.W());
        return NotHandled, Some(HandBack), Read(true, false, false);
      }
    }
    MainHasSlot(c.W());
    ok, snap := c.HasSnapshot(MAIN, view);
    RefusedLast(old(c.refusals), c.refusals, MAIN, c.log);
    if !ok {
      return Handled(false), None, read;
    }
    MainHasSlot(c.W());
    PinningHere(c.W());
    read := Read(false, snap, false);
    if !snap {
      if !MainOffTarget(c.cs, MainOf(view)) {
        TaglessMain(c.W());
        return NotHandled, Some(HandBack), read;
      }
      v := StartMigration(c, view);
      NoneRefused(c.refusals, c.log);
      arm := Some(Start);
      return;
    }
    v, arm, read := AdvanceMigration(c, view);
  }

  lemma NothingPerformed(cs: CocoonSet, main: Option<Pod>, log0: seq<Effect>)
    ensures forall whole :: ArmPerformed(cs, main, HandBack, log0, log0, whole)
  {
    assert log0 + [] == log0;
  }

  lemma UnboundPerformed(cs: CocoonSet, main: Option<Pod>, log0: seq<Effect>, log1: seq<Effect>, whole: bool)
    requires log1 == log0 + [OnSlot(MAIN, DeleteUnbound)] || (!whole && log1 == log0)
    ensures ArmPerformed(cs, main, RecreateUnbound, log0, log1, whole)
  {}

  lemma DropPerformed(cs: CocoonSet, main: Option<Pod>, log0: seq<Effect>, log1: seq<Effect>, whole: bool)
    requires ArmPerformed(cs, main, DropRestored, log0, log1, whole)
    ensures ArmPerformed(cs, main, DropStale, log0, log1, whole)
  {}

  lemma AwaitPerformed(cs: CocoonSet, main: Option<Pod>, log0: seq<Effect>, log1: seq<Effect>, whole: bool)
    requires log1 == log0 + [SetStatus(Migrating)] || (!whole && log1 == log0)
    ensures ArmPerformed(cs, main, Await, log0, log1, whole)
  {}

  lemma OwnedHandedBack(w: World)
    requires MAIN in w.crs
    ensures HandedBack(w)
  {}

  lemma PinningHere(w: World)
    requires Inv(w) && !(w.cs.nodeName == "" && w.cs.phase != Migrating)
    ensures w.pinning
  {}

  lemma LiveMainScheduled(w: World, view: View)
    requires ViewOK(w, view) && MAIN in view && w.pinning && MAIN !in w.crs
    ensures view[MAIN].vm != Booting ==> view[MAIN].node != ""
  {
    assert Knows(w.pinning, w.cs, view[MAIN], w.slots[MAIN]);
  }

  lemma OffTargetHandedBack(w: World, view: View)
    requires Inv(w) && ViewOK(w, view) && MainOffTarget(w.cs, MainOf(view))
    ensures HandedBack(w)
  {
    ScheduledMain(w, view);
  }

  /** advanceMigration: the tag exists. */
  method AdvanceMigration(c: Cluster, view: View) returns (v: Verdict, ghost arm: Option<Arm>, ghost read: Read)
    requires c.Valid() && ViewOK(c.W(), view) && !c.cs.suspend && c.pinning && MAIN in c.slots
    requires MAIN in c.crs || c.slots[MAIN].tag.Some?
    requires !FastPath(c.cs, MainOf(view)) && (MAIN in view ==> !PinnedElsewhere(view[MAIN], c.cs.nodeName))
    requires !(c.cs.nodeName == "" && c.cs.phase != Migrating)
    modifies c
    ensures c.Valid() && SameUser(old(c.cs), c.cs)
    ensures arm.Some? ==> arm.value == ArmOf(old(c.cs), MainOf(view), read.owned, read.snap, read.tracked)
    ensures arm.None? ==> v == Handled(false) && c.log == old(c.log)
    ensures arm.Some? && arm.value != Recreate ==>
      ArmPerformed(old(c.cs), MainOf(view), arm.value, old(c.log), c.log, v == Handled(true))
    ensures v.NotHandled? ==> arm in {Some(HandBack), Some(Recreate)} && ViewOK(c.W(), view) && HandedBack(c.W())
    ensures arm == Some(HandBack) ==> v.NotHandled? && c.cs == old(c.cs)
    ensures c.lost == old(c.lost) || (arm == Some(Recreate) && ByImage(c.cs, old(c.lost), c.lost))
    ensures arm == Some(Recreate) ==> RecreateLogged(old(c.cs), c.cs, old(c.log), c.log, v)
    ensures FailClosed(old(c.refusals), c.refusals, c.log) && (v.NotHandled? ==> c.refusals == old(c.refusals))
  {
    hide Inv, ViewOK, Recorded, Accountable, HandedBack, ArmPerformed, EvolvesAll, FailClosed, ByImage, DiscardLogged;
    NoneRefused(c.refusals, c.log);
    NothingPerformed(c.cs, MainOf(view), c.log);
    read := Read(false, true, false);
    if MainOffTarget(c.cs, MainOf(view)) {
      v, arm, read := LeaveOldNode(c, view);
    } else if MAIN !in view {
      ghost var discarded;
      v, discarded := RecreateOnTarget(c, view);
      arm := Some(Recreate);
    } else if view[MAIN].hibernate && (c.cs.nodeName == "" || view[MAIN].node == c.cs.nodeName) {
      if c.cs.phase != Migrating {
        NotMigrating(c.W());
        return NotHandled, Some(HandBack), read;
      }
      v := WakeMainInPlace(c, view);
      NoneRefused(c.refusals, c.log);
      arm := Some(WakeInPlace);
    } else if view[MAIN].vm != Live {
      if c.cs.phase != Migrating {
        NotMigrating(c.W());
        return NotHandled, Some(HandBack), read;
      }
      ghost var cs0, log0 := c.cs, c.log;
      v := MarkMigrating(c, view);
      NoneRefused(c.refusals, c.log);
      arm := Some(Await);
      AwaitPerformed(cs0, MainOf(view), log0, c.log, v == Handled(true));
    } else {
      if MAIN !in c.crs {
        LiveMainScheduled(c.W(), view);
      }
      v := DropMainTag(c, view);
      arm := Some(DropRestored);
    }
  }

  /** The main runs, or is quiesced, off its target. */
  method LeaveOldNode(c: Cluster, view: View) returns (v: Verdict, ghost arm: Option<Arm>, ghost read: Read)
    requires c.Valid() && ViewOK(c.W(), view) && !c.cs.suspend && c.pinning && MAIN in c.slots
    requires MAIN in c.crs || c.slots[MAIN].tag.Some?
    requires MainOffTarget(c.cs, MainOf(view))
    modifies c
    ensures FailClosed(old(c.refusals), c.refusals, c.log) && (v.NotHandled? ==> c.refusals == old(c.refusals))
    ensures c.Valid() && SameUser(old(c.cs), c.cs) && c.lost == old(c.lost)
    ensures read.snap && !read.owned
    ensures arm.Some? ==>
      (arm.value == if view[MAIN].hibernate then DeleteOld
                    else if view[MAIN].vm != Live || read.tracked then HandBack else DropStale)
    ensures arm.None? ==> v == Handled(false) && c.log == old(c.log)
    ensures arm.Some? ==> ArmPerformed(old(c.cs), MainOf(view), arm.value, old(c.log), c.log, v == Handled(true))
    ensures v.NotHandled? ==> arm == Some(HandBack) && ViewOK(c.W(), view) && HandedBack(c.W())
    ensures arm == Some(HandBack) ==> v.NotHandled? && c.cs == old(c.cs)
  {
    hide Inv, ViewOK, Recorded, Accountable, HandedBack, ArmPerformed, EvolvesAll, FailClosed;
    NoneRefused(c.refusals, c.log);
    ghost var log0 := c.log;
    NothingPerformed(c.cs, MainOf(view), log0);
    read := Read(false, true, false);
    if view[MAIN].hibernate {
      v := DeleteOldMain(c, view);
      NoneRefused(c.refusals, c.log);
      return v, Some(DeleteOld), read;
    }
    OffTargetHandedBack(c.W(), view);
    if view[MAIN].vm != Live {
      return NotHandled, Some(HandBack), read;
    }
    var ok, tracked := c.HibernationPodNames(view);
    if !ok {
      return Handled(false), None, read;
    }
    if MAIN in tracked {
      OwnedHandedBack(c.W());
      return NotHandled, Some(HandBack), Read(false, true, true);
    }
    MainHasSlot(c.W());
    v := DropMainTag(c, view);
    arm := Some(DropStale);
    DropPerformed(old(c.cs), MainOf(view), log0, c.log, v == Handled(true));
  }
}
