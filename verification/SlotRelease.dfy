/** The wake of a set that released its seat, or was suspended: it engages on the phase and on the
    node hint, never on the policy. */
module SlotRelease {
  import opened World
  import opened Reclaims
  import opened Invariant
  import opened Fleet
  import opened Deeds
  import opened Facts
  import opened Clusters
  import opened Writes
  import opened Creators
  import opened Suspension
  import opened Unsuspension
  import opened Woken

  datatype Verdict = NotHandled | Handled(ok: bool)

  /** A restore-marked main that is not hibernating, with the hint still set, is an unfinished wake. */
  predicate CleanupPending(cs: CocoonSet, view: View) {
    MAIN in view && view[MAIN].restore && !view[MAIN].hibernate && cs.hint != ""
  }

  predicate WakeInFlight(cs: CocoonSet, view: View) {
    cs.phase == Waking || CleanupPending(cs, view)
  }

  predicate AwaitsWake(cs: CocoonSet) {
    cs.phase == Suspended || (cs.phase == Suspending && cs.hint != "")
  }

  function DerivePhase(main: Option<Pod>, allReady: bool): Phase {
    if main.None? then Pending else if allReady then Running else Scaling
  }

  /** The wake drops the tag of a VM that a suspend has asked to hibernate since: the guard a caller
      can check is the annotation on the listed main. */
  predicate DropsQuiesced(cs: CocoonSet, view: View) {
    WakeInFlight(cs, view) && MAIN in view && view[MAIN].vm == Live && view[MAIN].hibernate
  }

  /** The pass hands back a released main it has only seen being deleted: neither the phase nor the
      reclaim record remembers it. */
  predicate HandsBackDeleted(cs: CocoonSet, view: View) {
    && !WakeInFlight(cs, view) && !AwaitsWake(cs)
    && cs.hint != "" && MAIN !in cs.record.restore
    && MAIN in view && view[MAIN].terminating && !IsFailed(view[MAIN])
  }

  ghost predicate AllStamped(cs: CocoonSet, view: View) {
    forall n | n in view :: view[n].stamp == cs.generation
  }

  lemma StampedPresent(w: World, view: View)
    requires Inv(w) && ViewOK(w, view) && AllStamped(w.cs, view) && !w.cs.suspend && !w.pinning
    requires MAIN in view && MAIN !in w.crs
    ensures !view[MAIN].terminating ==> Present(w.slots[MAIN]) || Rebuilt(w.slots[MAIN])
    ensures !view[MAIN].terminating || IsFailed(view[MAIN]) || w.cs.hint == "" ==> !Lingering(w.slots[MAIN])
    ensures view[MAIN].vm == Live && !view[MAIN].hibernate ==> Awake(w.slots[MAIN]) || Rebuilt(w.slots[MAIN])
    ensures view[MAIN].vm == Live ==> Present(w.slots[MAIN]) || Rebuilt(w.slots[MAIN])
    ensures Rebuilt(w.slots[MAIN]) ==> w.slots[MAIN].claim.None?
  {
    assert SlotInv(w.pinning, w.cs, MAIN, w.slots[MAIN]);
    assert Knows(w.pinning, w.cs, view[MAIN], w.slots[MAIN]);
  }

  /** A released main the list no longer shows: the phase, the hint or the record remembers it. */
  lemma MissingMain(w: World)
    requires Inv(w) && !w.cs.suspend && !w.pinning && MAIN !in w.crs && Lingering(w.slots[MAIN])
    ensures w.cs.hint != "" && Tracked(w.cs, MAIN) && w.slots[MAIN].tag.Some?
  {
    assert SlotInv(w.pinning, w.cs, MAIN, w.slots[MAIN]);
  }

  lemma PhaseFine(w: World, phase: Phase)
    requires Inv(w) && !w.pinning && phase != Migrating
    requires MAIN in w.crs || !Lingering(w.slots[MAIN]) || phase in {Suspending, Suspended, Waking}
    ensures PhaseOK(w, phase)
  {}

  lemma RestoringMay(w: World, view: View)
    requires Inv(w) && ViewOK(w, view) && !w.pinning && !w.cs.suspend && MAIN !in view
    requires MAIN !in w.crs ==> NoConflict(w.cs, w.slots[MAIN]) && w.slots[MAIN].tag.Some?
    ensures MayWrite(w, MAIN, Create(w.cs.nodeName, true, false))
  {}

  lemma TagStays(w: World, before: Slots)
    requires Inv(w) && EvolvesAll(w.crs, before, w.slots) && MAIN in before && MAIN !in w.crs
    requires NoConflict(w.cs, before[MAIN]) && before[MAIN].tag.Some?
    ensures NoConflict(w.cs, w.slots[MAIN]) && w.slots[MAIN].tag.Some?
  {
    assert Evolves(before[MAIN], w.slots[MAIN]);
  }

  lemma CreateSpares(crs: set<string>, slots: Slots, n: string, pin: string, restore: bool)
    requires n in slots
    ensures Losses(crs, n, Create(pin, restore, false), QuiescedWake, slots[n]) == []
  {}

  /** The restore half of the wake: Waking is durable before the create. */
  method RecreateMain(c: Cluster, ghost view: View) returns (v: Verdict)
    requires c.Valid() && ViewOK(c.W(), view) && !c.pinning && !c.cs.suspend && MAIN in c.slots && MAIN !in view
    requires MAIN !in c.crs ==> NoConflict(c.cs, c.slots[MAIN]) && c.slots[MAIN].tag.Some?
    modifies c`cs, c`slots, c`now, c`log, c`lost, c`deeds, c`trace
    ensures c.Valid() && v.Handled? && SameUser(old(c.cs), c.cs) && c.lost == old(c.lost)
    ensures c.log == old(c.log) || c.cs.phase == Waking
    ensures v == Handled(true) ==>
      c.log in {old(c.log) + [SetStatus(Waking)],
                old(c.log) + [SetStatus(Waking)] + [OnSlot(MAIN, Create(c.cs.nodeName, true, false))]}
  {
    hide Inv, ViewOK, Recorded, Accountable, MayWrite, PhaseOK, EvolvesAll, Losses, Lingering;
    PhaseFine(c.W(), Waking);
    ghost var s0 := c.slots;
    var ok := PatchStatus(c, Waking, view);
    if !ok {
      return Handled(false);
    }
    MainHasSlot(c.W());
    if MAIN !in c.crs {
      TagStays(c.W(), s0);
    }
    RestoringMay(c.W(), view);
    var r, p, before := c.WriteSlot(MAIN, Create(c.cs.nodeName, true, false), QuiescedWake, view);
    CreateSpares(c.crs, before, MAIN, c.cs.nodeName, true);
    v := Handled(r != Error);
  }

  /** startReleasedWake: not handled only when no restorable snapshot exists. */
  method StartReleasedWake(c: Cluster, view: View) returns (v: Verdict)
    requires c.Valid() && ViewOK(c.W(), view) && !c.pinning && !c.cs.suspend && MAIN !in view
    modifies c
    ensures c.Valid() && SameUser(old(c.cs), c.cs)
    ensures ByImage(c.cs, old(c.lost), c.lost)
    ensures FailClosed(old(c.refusals), c.refusals, c.log)
    ensures v.NotHandled? ==> c.refusals == old(c.refusals)
    ensures v.NotHandled? ==> ViewOK(c.W(), view) && NotStranded(c.W(), view.Keys) && c.cs.hint == ""
  {
    hide Inv, ViewOK, Recorded, Accountable, PhaseOK, HintOK, NoConflict, Evolves, Lingering, Forgot, Forgettable, ByImage;
    hide FailClosed, DiscardLogged;
    MainHasSlot(c.W());
    var ok, dropped := DiscardImageConflict(c, MAIN, view);
    RefusedLast(old(c.refusals), c.refusals, MAIN, c.log);
    if !ok {
      return Handled(false);
    }
    ghost var s1 := c.slots;
    var present;
    MainHasSlot(c.W());
    ok, present := c.HasSnapshot(MAIN, view);
    MainHasSlot(c.W());
    RefusedLast(old(c.refusals), c.refusals, MAIN, c.log);
    if !ok {
      return Handled(false);
    }
    if present {
      if MAIN !in c.crs {
        ConflictFreeStays(c.cs, s1[MAIN], c.slots[MAIN]);
      }
      ghost var cs := c.cs;
      v := RecreateMain(c, view);
      NoneRefused(c.refusals, c.log);
      ByImageStill(cs, c.cs, old(c.lost), c.lost);
      return;
    }
    if MAIN !in c.crs {
      TaglessLingersNot(c.W(), MAIN);
    }
    if c.cs.hint != "" {
      NoHintOK(c.W());
      ghost var s2 := c.slots;
      ghost var cs := c.cs;
      ok := PatchHint(c, "", view);
      NoneRefused(c.refusals, c.log);
      ByImageStill(cs, c.cs, old(c.lost), c.lost);
      StillNotLingering(c.crs, s2, c.slots);
      if !ok {
        return Handled(false);
      }
    }
    MainHasSlot(c.W());
    NotLingeringNotStranded(c.W(), view.Keys);
    v := NotHandled;
  }

  lemma NoHintOK(w: World)
    requires Inv(w) && !w.pinning && (MAIN !in w.crs ==> !Lingering(w.slots[MAIN]))
    ensures HintOK(w, "")
  {}

  lemma StillNotLingering(crs: set<string>, a: Slots, b: Slots)
    requires EvolvesAll(crs, a, b)
    ensures forall n | n in a && n !in crs && !Lingering(a[n]) :: !Lingering(b[n])
    ensures forall n | n in a && n !in crs && Awake(a[n]) :: Awake(b[n])
    ensures a.Keys == b.Keys
  {
    forall n | n in a && n !in crs
      ensures !Lingering(a[n]) ==> !Lingering(b[n])
      ensures Awake(a[n]) ==> Awake(b[n])
    {
      StaysPut(a[n], b[n]);
    }
  }

  lemma NotLingeringNotStranded(w: World, owned: set<string>)
    requires Inv(w) && (MAIN !in w.crs ==> !Lingering(w.slots[MAIN]))
    ensures NotStranded(w, owned)
  {}

  /** confirmReleasedDelete: an uncached read tells a stale view of a deleted main from a delete that
      never ran. */
  method ConfirmReleasedDelete(c: Cluster, view: View) returns (v: Verdict)
    requires c.Valid() && ViewOK(c.W(), view)
    modifies c`slots, c`now, c`trace
    ensures c.Valid()
    ensures v.NotHandled? ==> ViewOK(c.W(), view) && NotStranded(c.W(), view.Keys)
    ensures v.NotHandled? && MAIN !in c.crs ==> MAIN in c.slots && Present(c.slots[MAIN])
  {
    hide Inv, ViewOK, Recorded, Accountable;
    MainHasSlot(c.W());
    var ok, p := c.GetPod(MAIN, view);
    if !ok {
      return Handled(false);
    }
    if p.None? || p.value.terminating {
      return Handled(true);
    }
    v := NotHandled;
  }

  lemma DropMayLose(w: World, view: View, before: Slots)
    requires Inv(w) && ViewOK(w, view) && !w.pinning && !w.cs.suspend && AllStamped(w.cs, view)
    requires MAIN in view && view[MAIN].vm == Live
    requires EvolvesAll(w.crs, w.slots, before) && Inv(w.(slots := before)) && MAIN in before
    ensures view[MAIN].hibernate || Losses(w.crs, MAIN, DropTag, QuiescedWake, before[MAIN]) == []
    ensures MAIN !in w.crs ==>
      !Lingering(w.slots[MAIN]) && !Lingering(before[MAIN]) && !Lingering(Apply(w.cs, DropTag, before[MAIN]))
  {
    if MAIN !in w.crs {
      StampedPresent(w, view);
      StaysPut(w.slots[MAIN], before[MAIN]);
      assert SlotInv(w.pinning, w.cs, MAIN, before[MAIN]);
    }
  }

  /** The last arm of a wake: the restored VM is live, so its snapshot, then the hint, can go. */
  method FinishWake(c: Cluster, view: View) returns (v: Verdict)
    requires c.Valid() && ViewOK(c.W(), view) && !c.pinning && !c.cs.suspend && AllStamped(c.cs, view)
    requires MAIN in view && view[MAIN].vm == Live
    modifies c
    ensures c.Valid() && SameUser(old(c.cs), c.cs) && v.Handled?
    ensures FailClosed(old(c.refusals), c.refusals, c.log)
    ensures c.lost == old(c.lost) || (view[MAIN].hibernate && c.lost == old(c.lost) + [QuiescedWake])
    ensures v == Handled(true) ==> c.cs.hint == "" && c.cs.phase in {Pending, Scaling, Running}
    ensures v == Handled(true) ==> old(c.log) + [OnSlot(MAIN, DropTag)] <= c.log
  {
    hide Inv, ViewOK, Recorded, Accountable, PhaseOK, HintOK, EvolvesAll, Lingering, AllStamped, FailClosed;
    var ok := DropWokenTag(c, view);
    RefusedLast(old(c.refusals), c.refusals, MAIN, c.log);
    if !ok {
      return Handled(false);
    }
    if c.cs.hint != "" {
      NoHintOK(c.W());
      ghost var s1 := c.slots;
      ok := PatchHint(c, "", view);
      NoneRefused(c.refusals, c.log);
      StillNotLingering(c.crs, s1, c.slots);
      if !ok {
        return Handled(false);
      }
    }
    var allReady: bool := *;
    PhaseFine(c.W(), DerivePhase(MainOf(view), allReady));
    ok := PatchStatus(c, DerivePhase(MainOf(view), allReady), view);
    NoneRefused(c.refusals, c.log);
    v := Handled(ok);
  }

  method DropWokenTag(c: Cluster, view: View) returns (ok: bool)
    requires c.Valid() && ViewOK(c.W(), view) && !c.pinning && !c.cs.suspend && AllStamped(c.cs, view)
    requires MAIN in view && view[MAIN].vm == Live
    modifies c`slots, c`now, c`log, c`lost, c`deeds, c`trace, c`refusals
    ensures c.Valid() && ViewOK(c.W(), view) && MAIN in c.slots
    ensures MAIN !in c.crs ==> !Lingering(c.slots[MAIN])
    ensures c.Answered(MAIN, ok, old(c.refusals))
    ensures c.lost == old(c.lost) || (view[MAIN].hibernate && c.lost == old(c.lost) + [QuiescedWake])
    ensures ok ==> c.log == old(c.log) + [OnSlot(MAIN, DropTag)]
  {
    hide Inv, ViewOK, Recorded, Accountable, MayWrite, Apply, Losses, EvolvesAll, Lingering, AllStamped;
    MainHasSlot(c.W());
    DroppingMay(c.W(), MAIN);
    ghost var w0 := c.W();
    var r, p, before := c.WriteSlot(MAIN, DropTag, QuiescedWake, view);
    DropMayLose(w0, view, before);
    OneLossAtMost(c.crs, MAIN, DropTag, QuiescedWake, before);
    DroppingAccepted(before[MAIN]);
    ok := r == Done;
    c.Note(MAIN, ok);
  }

  lemma OneLossAtMost(crs: set<string>, n: string, e: SlotWrite, cause: Hazard, slots: Slots)
    requires n in slots
    ensures Losses(crs, n, e, cause, slots[n]) in {[], [cause]}
  {}

  lemma DroppingAccepted(s: Slot)
    ensures Accepts(DropTag, s)
  {}

  /** Nothing in the set tells this pass that the main it sees was released: when it was, the pass
      goes on to treat the VM as never suspended, and its guest state is given up here. */
  method Concede(c: Cluster, view: View)
    requires c.Valid() && ViewOK(c.W(), view) && !c.pinning && MAIN in c.slots
    modifies c`cs, c`slots, c`now, c`log, c`lost, c`deeds, c`trace
    ensures c.Valid() && ViewOK(c.W(), view) && c.cs == old(c.cs)
    ensures c.lost == old(c.lost) || c.lost == old(c.lost) + [UnconfirmedHandBack]
    ensures MAIN !in c.crs ==> MAIN in c.slots && !Lingering(c.slots[MAIN])
  {
    hide Inv, ViewOK, Recorded, Accountable, MayWrite, ViewAfter, Apply, Losses;
    GivingUpMay(c.W());
    OneLossAtMost(c.crs, MAIN, GiveUp, UnconfirmedHandBack, c.slots);
    GivenUp(c.cs, c.slots[MAIN]);
    ghost var w := c.W();
    c.Land(MAIN, GiveUp, UnconfirmedHandBack, view);
    SparedView(w, c.W(), view, MAIN, GiveUp);
  }

  lemma GivingUpMay(w: World)
    requires MAIN in w.slots
    ensures MayWrite(w, MAIN, GiveUp)
  {}

  lemma GivenUp(cs: CocoonSet, s: Slot)
    ensures Accepts(GiveUp, s) && !Lingering(Apply(cs, GiveUp, s))
  {}

  lemma SparedView(w: World, w': World, view: View, n: string, e: SlotWrite)
    requires n in w'.slots && ViewAfter(w, view, n, e, w') && Informed(w.pinning, w.crs, n, e, view)
    ensures ViewOK(w', view)
  {}

  lemma DisengagedPinning(w: World)
    requires Inv(w) && w.pinning
    ensures w.cs.hint == "" && w.cs.phase !in {Suspending, Suspended, Waking}
  {}

  /** A pass that hands a main back without waiting has lost track of it only when it saw that main
      being deleted. */
  lemma HandBackFine(w: World, view: View)
    requires Inv(w) && ViewOK(w, view) && !w.pinning && !w.cs.suspend && AllStamped(w.cs, view)
    requires MAIN !in view ==> !WakeInFlight(w.cs, view) && !AwaitsWake(w.cs)
    requires MAIN in view ==> !AwaitsWake(w.cs) || w.cs.hint == "" || view[MAIN].terminal
    requires !HandsBackDeleted(w.cs, view) && !WakeInFlight(w.cs, view)
    ensures NotStranded(w, view.Keys)
  {
    if MAIN !in w.crs && Lingering(w.slots[MAIN]) {
      MissingMain(w);
      if MAIN in view {
        StampedPresent(w, view);
      }
    }
  }

  /** reconcileWake. A pass it does not handle still finds every VM with state: the main has its pod,
      or no phase claims it and the reclaim record will. Guest state is given up in three cases only,
      each told apart by the set and the listed main at entry. */
  method ReconcileWake(c: Cluster, view: View) returns (v: Verdict)
    requires c.Valid() && ViewOK(c.W(), view) && !c.cs.suspend && AllStamped(c.cs, view)
    modifies c
    ensures c.Valid() && SameUser(old(c.cs), c.cs)
    ensures v.NotHandled? ==> ViewOK(c.W(), view) && NotStranded(c.W(), view.Keys) && AllStamped(c.cs, view)
    ensures || c.lost == old(c.lost)
            || (MAIN !in view && ByImage(c.cs, old(c.lost), c.lost))
            || (DropsQuiesced(old(c.cs), view) && c.lost == old(c.lost) + [QuiescedWake])
            || (HandsBackDeleted(old(c.cs), view) && c.lost == old(c.lost) + [UnconfirmedHandBack])
    ensures FailClosed(old(c.refusals), c.refusals, c.log) && (v.NotHandled? ==> c.refusals == old(c.refusals))
    ensures !WakeInFlight(old(c.cs), view) && !AwaitsWake(old(c.cs)) && old(c.cs).hint == "" ==>
      v.NotHandled? && c.cs == old(c.cs) && c.log == old(c.log)
    ensures c.pinning ==> v.NotHandled? && c.slots == old(c.slots) && c.cs == old(c.cs) && c.lost == old(c.lost)
  {
    hide Inv, ViewOK, Recorded, Accountable, PhaseOK, NotStranded, EvolvesAll, Lingering, AllStamped, FailClosed, ByImage;
    NoneRefused(c.refusals, c.log);
    MainHasSlot(c.W());
    if c.pinning {
      DisengagedPinning(c.W());
      PinnedNotStranded(c.W(), view.Keys);
      return NotHandled;
    }
    var waking := WakeInFlight(c.cs, view);
    if !waking && !AwaitsWake(c.cs) {
      if HandsBackDeleted(c.cs, view) {
        Concede(c, view);
        NoneRefused(c.refusals, c.log);
        NotLingeringNotStranded(c.W(), view.Keys);
      } else {
        HandBackFine(c.W(), view);
      }
      return NotHandled;
    }
    if MAIN !in view {
      v := StartReleasedWake(c, view);
      AllStampedFor(old(c.cs), c.cs, view);
    } else if waking && view[MAIN].vm != Live {
      PhaseFine(c.W(), Waking);
      var ok := PatchStatus(c, Waking, view);
      NoneRefused(c.refusals, c.log);
      v := Handled(ok);
    } else if waking {
      v := FinishWake(c, view);
    } else if c.cs.hint != "" && !view[MAIN].terminal {
      v := ConfirmReleasedDelete(c, view);
    } else {
      HandBackFine(c.W(), view);
      v := NotHandled;
    }
  }

  lemma PinnedNotStranded(w: World, owned: set<string>)
    requires Inv(w) && w.pinning
    ensures NotStranded(w, owned)
  {}

  lemma AllStampedFor(a: CocoonSet, b: CocoonSet, view: View)
    requires AllStamped(a, view) && SameUser(a, b)
    ensures AllStamped(b, view)
  {}
}
