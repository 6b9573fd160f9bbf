/** Reclaiming the snapshots of the VMs that woke. */
module Woken {
  import opened World
  import opened Reclaims
  import opened Invariant
  import opened Fleet
  import opened Deeds
  import opened Facts
  import opened Clusters
  import opened Writes
  import opened Creators
  import opened Suspension
  import opened Unsuspension

  predicate WokenAt(p: Pod, generation: nat) {
    !p.hibernate && p.vm == Live && p.state == Ready && p.observed >= generation
  }

  /** The pods carry this generation's stamp, or the record demands a report at this generation. */
  ghost predicate Stamped(cs: CocoonSet, view: View) {
    || cs.record.vms == [] || cs.record.generation == cs.generation
    || forall n | n in view :: view[n].stamp == cs.generation
  }

  /** A pod that reads as woken, in a list however stale, is awake, unless the rebuild budget has deleted
      it and nothing is owed of it: no suspend has asked it to hibernate since. The report it shows is of a generation later than every suspend that ever
      quiesced it, because a record that still lists a suspend gets this generation first. */
  lemma WokenIsAwake(w: World, view: View, n: string)
    requires Inv(w) && ViewOK(w, view) && n in view && n !in w.crs && !w.cs.suspend
    requires Stamped(w.cs, view) && n in w.cs.record.vms && WokenAt(view[n], w.cs.record.generation)
    ensures Awake(w.slots[n]) || Rebuilt(w.slots[n])
    ensures !w.pinning && w.cs.record.suspended == [] ==>
      w.slots[n].quiesced < w.cs.record.generation <= view[n].observed
  {
    assert SlotInv(w.pinning, w.cs, n, w.slots[n]);
    assert Knows(w.pinning, w.cs, view[n], w.slots[n]);
  }

  ghost predicate AllAwake(forks: bool, crs: set<string>, slots: Slots, woken: set<string>) {
    forall n | n in woken && n in slots && n !in crs :: Spare(forks, slots[n])
  }

  /** The tag is no longer needed: the VM is awake, or its pod was deleted by the rebuild budget; or,
      for the fork of a missing member, nothing is owed of it. */
  ghost predicate Spare(forks: bool, s: Slot) {
    Awake(s) || Rebuilt(s) || Forgettable(s) || (forks && s.claim.None? && !HibernationAsked(s))
  }

  lemma SpareStays(forks: bool, s: Slot, t: Slot)
    requires Spare(forks, s) && Evolves(s, t) && Scheduled(t)
    ensures Spare(forks, t)
  {}

  lemma AwakeStays(w: World, forks: bool, a: Slots, woken: set<string>)
    requires Inv(w) && EvolvesAll(w.crs, a, w.slots) && AllAwake(forks, w.crs, a, woken)
    ensures AllAwake(forks, w.crs, w.slots, woken)
  {
    hide Inv, SlotInv, Imaged, Scheduled, Spare, Evolves;
    forall n | n in woken && n in w.slots && n !in w.crs
      ensures Spare(forks, w.slots[n])
    {
      InvAt(w, n);
      ScheduledSlot(w.pinning, w.cs, n, w.slots[n]);
      SpareStays(forks, a[n], w.slots[n]);
    }
  }

  ghost predicate AllForgettable(crs: set<string>, slots: Slots, names: set<string>) {
    forall n | n in names && n in slots && n !in crs :: Forgettable(slots[n])
  }

  lemma ForgettableAllStays(crs: set<string>, a: Slots, b: Slots, names: set<string>)
    requires EvolvesAll(crs, a, b) && AllForgettable(crs, a, names)
    ensures AllForgettable(crs, b, names)
  {
    forall n | n in names && n in b && n !in crs
      ensures Forgettable(b[n])
    {
      ForgettableStays(a[n], b[n]);
    }
  }

  /** Dropping the tag of a VM that can spare it loses nothing. */
  lemma ReclaimLands(w: World, forks: bool, before: Slots, n: string, cause: Hazard, woken: set<string>, names: set<string>)
    requires Inv(w) && w.slots == before && n in before && n in woken
    requires AllAwake(forks, w.crs, before, woken) && AllForgettable(w.crs, before, names)
    ensures Losses(w.crs, n, DropTag, cause, before[n]) == []
    ensures
      var after := before[n := Apply(w.cs, DropTag, before[n])];
      && AllAwake(forks, w.crs, after, woken) && AllForgettable(w.crs, after, names + {n})
      && AllForgettable(w.crs, after, names) && KeepsPods(w.crs, before, after)
  {
    if n !in w.crs {
      assert SlotInv(w.pinning, w.cs, n, before[n]);
    }
  }

  lemma DroppingMay(w: World, n: string)
    requires n in w.slots
    ensures MayWrite(w, n, DropTag)
  {}

  /** Deletes one tag; true when the registry confirmed it is gone. */
  method ReclaimSnapshot(c: Cluster, ghost forks: bool, n: string, ghost woken: set<string>, ghost gone: set<string>, ghost view: View)
    returns (ok: bool)
    requires c.Valid() && ViewOK(c.W(), view) && n in c.slots && n in woken
    requires AllAwake(forks, c.crs, c.slots, woken) && AllForgettable(c.crs, c.slots, gone)
    modifies c`slots, c`now, c`log, c`lost, c`deeds, c`trace, c`refusals
    ensures c.Valid() && ViewOK(c.W(), view) && c.lost == old(c.lost)
    ensures c.Answered(n, ok, old(c.refusals)) && DropsAwake(forks, c.crs, old(c.deeds), c.deeds)
    ensures c.slots.Keys == old(c.slots).Keys && KeepsPods(c.crs, old(c.slots), c.slots)
    ensures AllAwake(forks, c.crs, c.slots, woken) && AllForgettable(c.crs, c.slots, gone)
    ensures ok ==> AllForgettable(c.crs, c.slots, gone + {n}) && c.log == old(c.log) + [OnSlot(n, DropTag)]
    ensures c.log == old(c.log) || c.log == old(c.log) + [OnSlot(n, DropTag)]
  {
    hide Inv, ViewOK, Recorded, Accountable, MayWrite, Apply, Losses, AllAwake, AllForgettable, KeepsPods, EvolvesAll, Awake;
    DroppingMay(c.W(), n);
    ghost var s0 := c.slots;
    var r, p, before := c.WriteSlot(n, DropTag, QuiescedWake, view);
    SameKept(c.crs, s0);
    EvolvingKeepsPods(c.crs, s0, s0, before);
    AwakeStays(c.W().(slots := before), forks, s0, woken);
    ForgettableAllStays(c.crs, s0, before, gone);
    ReclaimLands(c.W().(slots := before), forks, before, n, QuiescedWake, woken, gone);
    KeptOn(c.crs, s0, before, before[n := Apply(c.cs, DropTag, before[n])]);
    KeysStay(c.crs, s0, c.slots);
    FoundAwake(forks, c.crs, before, woken, n);
    ok := r == Done;
    c.Note(n, ok);
  }

  lemma FoundAwake(forks: bool, crs: set<string>, slots: Slots, woken: set<string>, n: string)
    requires AllAwake(forks, crs, slots, woken) && n in woken && n in slots
    ensures n !in crs ==> Awake(slots[n]) || Rebuilt(slots[n]) || slots[n].tag.None? || (forks && slots[n].claim.None?)
  {}

  lemma KeysStay(crs: set<string>, a: Slots, b: Slots)
    ensures KeepsPods(crs, a, b) ==> a.Keys == b.Keys
  {}

  /** The names of the pods that read as woken. */
  function WokenPods(view: View, generation: nat): (r: set<string>)
    ensures forall n :: n in r <==> n in view && WokenAt(view[n], generation)
  {
    set n | n in view && WokenAt(view[n], generation)
  }

  lemma WokenAreAwake(w: World, forks: bool, view: View)
    requires Inv(w) && ViewOK(w, view) && !w.cs.suspend && Stamped(w.cs, view)
    ensures AllAwake(forks, w.crs, w.slots, WokenPods(view, w.cs.record.generation) * Elements(w.cs.record.vms))
  {
    forall n | n in WokenPods(view, w.cs.record.generation) && n in w.cs.record.vms && n in w.slots && n !in w.crs
      ensures Spare(forks, w.slots[n])
    {
      WokenIsAwake(w, view, n);
    }
  }

  /** The tags the pass asked the registry to delete. */
  predicate OnlyDrops(log: seq<Effect>, names: set<string>) {
    forall e | e in log :: e.OnSlot? && e.write.DropTag? && e.name in names
  }

  lemma DropLogged(a: seq<Effect>, b: seq<Effect>, n: string, names: set<string>)
    requires OnlyDrops(b, names) && n in names
    ensures OnlyDrops(b + [OnSlot(n, DropTag)], names)
    ensures a + b + [OnSlot(n, DropTag)] == a + (b + [OnSlot(n, DropTag)])
  {}

  /** The loop of reclaimSnapshots: an entry whose delete fails is kept for the next pass. */
  method DropSnapshots(c: Cluster, ghost forks: bool, vms: set<string>, ghost view: View)
    returns (ok: bool, gone: set<string>, ghost drops: seq<Effect>)
    requires c.Valid() && ViewOK(c.W(), view) && AllAwake(forks, c.crs, c.slots, vms)
    modifies c`slots, c`now, c`log, c`lost, c`deeds, c`trace, c`refusals
    ensures c.Valid() && ViewOK(c.W(), view) && c.lost == old(c.lost)
    ensures DropsAwake(forks, c.crs, old(c.deeds), c.deeds) && RefusedSince(old(c.refusals), c.refusals, |old(c.log)|)
    ensures ok ==> c.refusals == old(c.refusals)
    ensures KeepsPods(c.crs, old(c.slots), c.slots) && AllForgettable(c.crs, c.slots, gone)
    ensures gone <= vms && (ok ==> forall n | n in c.cs.record.vms && n in vms && n in c.slots :: n in gone)
    ensures c.log == old(c.log) + drops && OnlyDrops(drops, vms * Elements(c.cs.record.vms))
  {
    hide Inv, ViewOK, Recorded, Accountable, AllAwake, AllForgettable, KeepsPods, Awake;
    ok, gone, drops := true, {}, [];
    ghost var s0, log0 := c.slots, c.log;
    SameKept(c.crs, s0);
    NothingForgettable(c.crs, s0);
    var listed := c.cs.record.vms;
    for i := 0 to |listed|
      invariant c.Valid() && ViewOK(c.W(), view) && c.lost == old(c.lost)
      invariant DropsAwake(forks, c.crs, old(c.deeds), c.deeds) && RefusedSince(old(c.refusals), c.refusals, |log0|)
      invariant ok ==> c.refusals == old(c.refusals)
      invariant AllAwake(forks, c.crs, c.slots, vms) && AllForgettable(c.crs, c.slots, gone)
      invariant c.slots.Keys == s0.Keys && KeepsPods(c.crs, s0, c.slots) && gone <= vms
      invariant ok ==> forall j | 0 <= j < i :: listed[j] in vms && listed[j] in s0 ==> listed[j] in gone
      invariant c.log == log0 + drops && OnlyDrops(drops, vms * Elements(listed))
    {
      var n := listed[i];
      assert n in listed;
      if n in vms && n in c.slots {
        ghost var s1, log1 := c.slots, c.log;
        DropLogged(log0, drops, n, vms * Elements(listed));
        var done := ReclaimSnapshot(c, forks, n, vms, gone, view);
        KeptOn(c.crs, s0, s1, c.slots);
        if c.log != log1 {
          drops := drops + [OnSlot(n, DropTag)];
        }
        if done {
          gone := gone + {n};
        } else {
          ok := false;
        }
      }
    }
  }

  lemma NothingForgettable(crs: set<string>, slots: Slots)
    ensures AllForgettable(crs, slots, {})
  {}

  lemma ForgetAll(w: World, names: set<string>)
    requires AllForgettable(w.crs, w.slots, names)
    ensures forall n | n in names && n in w.slots && n !in w.crs :: Forgettable(w.slots[n])
  {}

  /** reclaimSnapshots: delete the tags, then take off the record those the registry confirmed. */
  method ReclaimSnapshots(c: Cluster, ghost forks: bool, vms: set<string>, ghost view: View) returns (ok: bool)
    requires c.Valid() && ViewOK(c.W(), view) && AllAwake(forks, c.crs, c.slots, vms)
    modifies c
    ensures c.Valid() && ViewOK(c.W(), view) && c.cs == old(c.cs).(record := c.cs.record) && c.lost == old(c.lost)
    ensures KeepsPods(c.crs, old(c.slots), c.slots)
    ensures exists gone :: gone <= vms && (c.cs == old(c.cs) || Forgot(old(c.cs).record, c.cs.record, gone))
    ensures ok ==> forall n | n in vms && n in c.slots :: n !in c.cs.record.vms
    ensures LeftGone(c.crs, c.slots, old(c.cs).record, c.cs.record)
    ensures DropsAwake(forks, c.crs, old(c.deeds), c.deeds) && CreatesNothing(old(c.log), c.log)
    ensures FailClosed(old(c.refusals), c.refusals, c.log) && (ok ==> c.refusals == old(c.refusals))
  {
    hide Inv, ViewOK, Recorded, Accountable, AllAwake, AllForgettable, KeepsPods, Forgot, LeftGone, DropsAwake, FailClosed;
    var gone; ghost var drops;
    ok, gone, drops := DropSnapshots(c, forks, vms, view);
    ForgetAll(c.W(), gone);
    ghost var s1 := c.slots;
    var forgotten := ForgetReclaim(c, gone, view);
    ClosedWithoutCreates(old(c.refusals), c.refusals, old(c.log), c.log);
    EvolvingKeepsPods(c.crs, old(c.slots), s1, c.slots);
    ForgettableAllStays(c.crs, s1, c.slots, gone);
    OnlyGoneLeave(old(c.cs), c.cs, gone, c.crs, c.slots);
    if ok && forgotten {
      ForgotAll(old(c.cs).record, c.cs.record, gone, vms, c.slots.Keys);
    }
    ok := ok && forgotten;
  }

  /** Whatever left the record has no tag any more, or none it owes, and nothing asks it to hibernate. */
  ghost predicate LeftGone(crs: set<string>, slots: Slots, r: Reclaim, r': Reclaim) {
    forall n | n in r.vms && n !in r'.vms && n in slots && n !in crs :: Forgettable(slots[n])
  }

  lemma OnlyGoneLeave(a: CocoonSet, b: CocoonSet, gone: set<string>, crs: set<string>, slots: Slots)
    requires a == b || Forgot(a.record, b.record, gone)
    requires AllForgettable(crs, slots, gone)
    ensures LeftGone(crs, slots, a.record, b.record)
  {}

  lemma ForgotAll(r: Reclaim, r': Reclaim, gone: set<string>, vms: set<string>, keys: set<string>)
    requires Forgot(r, r', gone) && forall n | n in r.vms && n in vms && n in keys :: n in gone
    ensures forall n | n in vms && n in keys :: n !in r'.vms
  {}

  /** Every recorded VM that reads as woken reported so at a generation later than any suspend that
      ever asked it to hibernate. */
  ghost predicate ReportedSince(crs: set<string>, slots: Slots, r: Reclaim, view: View) {
    forall n | n in view && n in r.vms && n !in crs && WokenAt(view[n], r.generation) ::
      n in slots && slots[n].quiesced < r.generation <= view[n].observed
  }

  lemma WokenReportedSince(w: World, view: View)
    requires Inv(w) && ViewOK(w, view) && !w.cs.suspend && Stamped(w.cs, view) && w.cs.record.suspended == []
    ensures !w.pinning ==> ReportedSince(w.crs, w.slots, w.cs.record, view)
  {
    if !w.pinning {
      forall n | n in view && n in w.cs.record.vms && n !in w.crs && WokenAt(view[n], w.cs.record.generation)
        ensures n in w.slots && w.slots[n].quiesced < w.cs.record.generation <= view[n].observed
      {
        WokenIsAwake(w, view, n);
      }
    }
  }

  /** reclaimWokenSnapshots: deletes a tag only while its VM is really live; an empty record and an
      unconfirmed delete change nothing. */
  method ReclaimWokenSnapshots(c: Cluster, view: View) returns (ok: bool)
    requires c.Valid() && ViewOK(c.W(), view) && !c.cs.suspend && Stamped(c.cs, view)
    requires c.cs.record.suspended == []
    modifies c
    ensures c.Valid() && ViewOK(c.W(), view) && c.cs == old(c.cs).(record := c.cs.record) && c.lost == old(c.lost)
    ensures KeepsPods(c.crs, old(c.slots), c.slots) && c.cs.record.suspended == []
    ensures old(c.cs).record.vms == [] ==> ok && c.cs == old(c.cs) && c.log == old(c.log)
    ensures LeftGone(c.crs, c.slots, old(c.cs).record, c.cs.record)
    ensures DropsAwake(false, c.crs, old(c.deeds), c.deeds) && CreatesNothing(old(c.log), c.log)
    ensures FailClosed(old(c.refusals), c.refusals, c.log) && (ok ==> c.refusals == old(c.refusals))
    ensures !c.pinning ==> ReportedSince(c.crs, old(c.slots), old(c.cs).record, view)
    ensures ok ==> forall n | n in view && WokenAt(view[n], old(c.cs).record.generation) :: n !in c.cs.record.vms
    ensures MAIN in old(c.cs).record.restore ==>
      MAIN in c.cs.record.restore || MAIN in c.crs || (MAIN in old(c.slots) && !Lingering(old(c.slots)[MAIN]))
  {
    hide Inv, ViewOK, Recorded, Accountable, AllAwake, KeepsPods, Forgot, Stamped, ReportedSince, Forgettable, Awake, FailClosed;
    SameKept(c.crs, c.slots);
    NoneRefused(c.refusals, c.log);
    WokenReportedSince(c.W(), view);
    if c.cs.record.vms == [] {
      return true;
    }
    var woken := WokenPods(view, c.cs.record.generation) * Elements(c.cs.record.vms);
    WokenAreAwake(c.W(), false, view);
    ViewInSlots(c.W(), view);
    ok := ReclaimSnapshots(c, false, woken, view);
    ghost var gone :| gone <= woken && (c.cs == old(c.cs) || Forgot(old(c.cs).record, c.cs.record, gone));
    ForgotSuspended(old(c.cs), c.cs, gone);
    ForgotAwake(old(c.cs), c.cs, gone, woken, old(c.W()));
    KeysStay(c.crs, old(c.slots), c.slots);
  }

  lemma ViewInSlots(w: World, view: View)
    requires ViewOK(w, view)
    ensures forall n | n in view :: n in w.slots
  {}

  lemma ForgotAwake(a: CocoonSet, b: CocoonSet, gone: set<string>, woken: set<string>, w: World)
    requires a == b || Forgot(a.record, b.record, gone)
    requires Inv(w) && gone <= woken && AllAwake(false, w.crs, w.slots, woken) && forall n | n in woken :: n in w.slots
    ensures MAIN in a.record.restore ==>
      MAIN in b.record.restore || MAIN in w.crs || (MAIN in w.slots && !Lingering(w.slots[MAIN]))
  {
    if MAIN !in w.crs {
      InvAt(w, MAIN);
    }
  }

  lemma ForgotSuspended(a: CocoonSet, b: CocoonSet, gone: set<string>)
    requires a == b || Forgot(a.record, b.record, gone)
    ensures a.record.suspended == [] ==> b.record.suspended == []
    ensures forall n | n !in a.record.vms :: n !in b.record.vms
  {
    HasElement(b.record.suspended);
  }
}
