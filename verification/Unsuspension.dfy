/** The unsuspend: clear the annotations under a write-ahead record, then reclaim the snapshots of
    the VMs that woke. */
module Unsuspension {
  import opened World
  import opened Reclaims
  import opened Invariant
  import opened Fleet
  import opened Deeds
  import opened Facts
  import opened Clusters
  import opened Writes
  import opened Creators
  import opened Suspension

  /** The pods the unsuspend wakes: those that carry the annotation and that no CocoonHibernation
      wants hibernated. */
  function Awaiting(view: View, names: seq<string>, owned: set<string>): (r: seq<string>)
    requires forall n | n in names :: n in view
    ensures forall n :: n in r <==> n in names && view[n].hibernate && n !in owned
    ensures NoDup(names) ==> NoDup(r)
  {
    if names == [] then []
    else
      assert forall n :: n in names <==> n == names[0] || n in names[1..];
      if view[names[0]].hibernate && names[0] !in owned then [names[0]] + Awaiting(view, names[1..], owned)
      else Awaiting(view, names[1..], owned)
  }

  function AsEffect(b: Bookkeeping): Effect {
    match b
    case WriteRecord(r) => SetRecord(r)
    case ClearHibernate(name) => OnSlot(name, Wake)
  }

  function AsEffects(plan: seq<Bookkeeping>): seq<Effect> {
    seq(|plan|, i requires 0 <= i < |plan| => AsEffect(plan[i]))
  }

  /** No VM with state loses its pod, none loses its node, and none is owed again what it failed to keep. */
  ghost predicate KeepsPods(crs: set<string>, a: Slots, b: Slots) {
    && a.Keys == b.Keys
    && forall n | n in a && n !in crs ::
         (Lingering(b[n]) ==> Lingering(a[n])) && (Settled(a[n]) ==> Settled(b[n]))
         && (Present(a[n]) ==> Present(b[n])) && (Gone(a[n]) ==> Gone(b[n])) && (a[n].excused ==> b[n].excused)
  }

  lemma EvolvingKeepsPods(crs: set<string>, a: Slots, b: Slots, c: Slots)
    requires KeepsPods(crs, a, b) && EvolvesAll(crs, b, c)
    ensures KeepsPods(crs, a, c)
  {
    forall n | n in a && n !in crs
      ensures (Lingering(c[n]) ==> Lingering(a[n])) && (Settled(a[n]) ==> Settled(c[n]))
           && (Present(a[n]) ==> Present(c[n])) && (Gone(a[n]) ==> Gone(c[n])) && (a[n].excused ==> c[n].excused)
    {
      StaysPut(b[n], c[n]);
    }
  }

  lemma WakingKeepsPods(cs: CocoonSet, crs: set<string>, a: Slots, b: Slots, c: Slots, n: string)
    requires KeepsPods(crs, a, b) && n in b && Accepts(Wake, b[n]) && c == b[n := Apply(cs, Wake, b[n])]
    ensures KeepsPods(crs, a, c)
    ensures c[n].server.Some? && !c[n].server.value.hibernate
    ensures Losses(crs, n, Wake, QuiescedWake, b[n]) == []
  {}

  lemma NothingWoken(cs: CocoonSet, crs: set<string>, a: Slots, n: string)
    requires n in a
    ensures KeepsPods(crs, a, a)
    ensures Losses(crs, n, Wake, QuiescedWake, a[n]) == []
  {}

  lemma WakingMay(w: World, view: View, n: string)
    requires ViewOK(w, view) && n in view && !w.cs.suspend
    ensures MayWrite(w, n, Wake)
  {}

  lemma NotStrandedStays(w: World, w': World, owned: set<string>)
    requires NotStranded(w, owned) && w'.pinning == w.pinning && w'.crs == w.crs && w'.cs.phase == w.cs.phase
    requires KeepsPods(w.crs, w.slots, w'.slots)
    requires MAIN in w.cs.record.restore ==> MAIN in w'.cs.record.restore || MAIN in w.crs || (MAIN in w.slots && !Lingering(w.slots[MAIN]))
    ensures NotStranded(w', owned)
  {}

  lemma RestoreKept(w: World, awaiting: seq<string>, owned: set<string>)
    requires Inv(w) && (awaiting != [] || w.cs.record.suspended != [])
    ensures
      var r := Unsuspending(w.cs.generation, w.cs.record, awaiting, owned);
      forall vm | vm in w.cs.record.restore ::
        vm in Stored(r).restore && vm in Stored(r.(suspended := [])).restore
  {
    var r := Unsuspending(w.cs.generation, w.cs.record, awaiting, owned);
    UnsuspendingTwice(w.cs.generation, w.cs.record, awaiting, [], owned);
    StoredIsLossless(r.(suspended := []));
  }

  method ClearHibernation(c: Cluster, view: View, n: string) returns (ok: bool, awake: View)
    requires c.Valid() && ViewOK(c.W(), view) && !c.cs.suspend && n in view
    modifies c`cs, c`slots, c`now, c`log, c`lost, c`deeds, c`trace
    ensures c.Valid() && c.cs == old(c.cs) && c.lost == old(c.lost)
    ensures KeepsPods(c.crs, old(c.slots), c.slots)
    ensures c.log == old(c.log) + [OnSlot(n, Wake)] || (!ok && c.log == old(c.log))
    ensures ok ==> ViewOK(c.W(), awake) && awake.Keys == view.Keys && !awake[n].hibernate && SameBuild(c.crs, view, awake)
    ensures ok ==> forall m | m in view && m != n :: awake[m] == view[m]
  {
    hide Inv, ViewOK, Recorded, Accountable, MayWrite, Apply, KeepsPods, Losses, Accepts, EvolvesAll, SameBuild;
    WakingMay(c.W(), view, n);
    ghost var a := c.slots;
    SameKept(c.crs, a);
    var r, p, before := c.WriteSlot(n, Wake, QuiescedWake, view);
    EvolvingKeepsPods(c.crs, a, a, before);
    NothingWoken(c.cs, c.crs, before, n);
    if c.slots != before {
      WakingKeepsPods(c.cs, c.crs, a, before, c.slots, n);
    }
    ok, awake := r == Done, view;
    if ok {
      WakingKeepsPods(c.cs, c.crs, a, before, c.slots, n);
      PatchedAlike(old(c.W()), view, n, before, Wake, p);
      awake := view[n := p.value];
    }
  }

  lemma KeptOn(crs: set<string>, a: Slots, b: Slots, c: Slots)
    requires KeepsPods(crs, a, b) && KeepsPods(crs, b, c)
    ensures KeepsPods(crs, a, c)
  {}

  /** The clears of the unsuspend, under a record that is already durable. */
  method ClearHibernations(c: Cluster, view: View, awaiting: seq<string>)
    returns (ok: bool, awake: View, ghost done: nat)
    requires c.Valid() && ViewOK(c.W(), view) && !c.cs.suspend
    requires (forall n | n in awaiting :: n in view) && NoDup(awaiting)
    modifies c`cs, c`slots, c`now, c`log, c`lost, c`deeds, c`trace
    ensures c.Valid() && c.cs == old(c.cs) && c.lost == old(c.lost)
    ensures KeepsPods(c.crs, old(c.slots), c.slots)
    ensures done <= |awaiting| && c.log == old(c.log) + AsEffects(Clears(awaiting[..done]))
    ensures ok ==> done == |awaiting| && ViewOK(c.W(), awake) && awake.Keys == view.Keys && SameBuild(c.crs, view, awake)
    ensures ok ==> forall n | n in view :: if n in awaiting then !awake[n].hibernate else awake[n] == view[n]
  {
    hide Inv, ViewOK, Recorded, Accountable, KeepsPods, SameBuild;
    SameItself(c.crs, view);
    awake, done := view, 0;
    SameKept(c.crs, c.slots);
    for i := 0 to |awaiting|
      invariant c.Valid() && ViewOK(c.W(), awake) && c.cs == old(c.cs) && c.lost == old(c.lost)
      invariant KeepsPods(c.crs, old(c.slots), c.slots) && done == i
      invariant c.log == old(c.log) + AsEffects(Clears(awaiting[..i])) && awake.Keys == view.Keys && SameBuild(c.crs, view, awake)
      invariant forall n | n in view :: if n in awaiting[..i] then !awake[n].hibernate else awake[n] == view[n]
    {
      assert awaiting[i] in awaiting && awaiting[i] in view.Keys;
      assert awaiting[..i + 1] == awaiting[..i] + [awaiting[i]];
      ClearsSnoc(awaiting, i);
      ghost var s0, log0, seen := c.slots, c.log, awake;
      ok, awake := ClearHibernation(c, awake, awaiting[i]);
      KeptOn(c.crs, old(c.slots), s0, c.slots);
      done := if c.log == log0 then i else i + 1;
      if !ok {
        return;
      }
      SameBuildOn(c.crs, view, seen, awake);
    }
    assert awaiting[..|awaiting|] == awaiting;
    ok := true;
  }

  lemma SameKept(crs: set<string>, a: Slots)
    ensures KeepsPods(crs, a, a)
  {}

  lemma ClearsSnoc(awaiting: seq<string>, i: nat)
    requires i < |awaiting|
    ensures AsEffects(Clears(awaiting[..i + 1])) == AsEffects(Clears(awaiting[..i])) + [OnSlot(awaiting[i], Wake)]
  {}

  /** The writes between two logs are the plan, or, when the plan was cut short, the start of it. */
  ghost predicate Performed(log0: seq<Effect>, log1: seq<Effect>, plan: seq<Effect>, whole: bool) {
    && log0 <= log1 <= log0 + plan
    && (whole ==> log1 == log0 + plan)
  }

  lemma PlanPerformed(generation: nat, r: Reclaim, awaiting: seq<string>, owned: set<string>, k: nat, log0: seq<Effect>)
    requires (awaiting != [] || r.suspended != []) && k <= |awaiting|
    ensures
      var r' := Unsuspending(generation, r, awaiting, owned);
      var plan := AsEffects(UnsuspendPlan(generation, r, awaiting, owned));
      && Performed(log0, log0, plan, false)
      && Performed(log0, log0 + [SetRecord(r')], plan, false)
      && Performed(log0, log0 + [SetRecord(r')] + AsEffects(Clears(awaiting[..k])), plan, false)
      && Performed(log0, log0 + [SetRecord(r')] + AsEffects(Clears(awaiting)) + [SetRecord(r'.(suspended := []))], plan, true)
      && Performed(log0, log0 + [SetRecord(r')] + AsEffects(Clears(awaiting)) + [SetRecord(r'.(suspended := []))], plan, false)
  {
    var r' := Unsuspending(generation, r, awaiting, owned);
    var plan := AsEffects(UnsuspendPlan(generation, r, awaiting, owned));
    var first, last := [SetRecord(r')], [SetRecord(r'.(suspended := []))];
    assert AsEffects(Clears(awaiting[..k])) == AsEffects(Clears(awaiting))[..k];
    assert plan == first + AsEffects(Clears(awaiting)) + last;
    assert log0 + first + AsEffects(Clears(awaiting)) + last == log0 + plan;
    assert log0 + first + AsEffects(Clears(awaiting[..k])) <= log0 + plan;
  }

  /** A main left without a pod by the unsuspend is owed a restore. */
  lemma OwedRestore(w: World, owned: set<string>)
    requires Inv(w) && NotStranded(w, owned) && w.cs.record.suspended == [] && !w.pinning && MAIN !in w.crs
    ensures Lingering(w.slots[MAIN]) ==> MAIN in w.cs.record.restore
  {
    assert SlotInv(w.pinning, w.cs, MAIN, w.slots[MAIN]);
  }

  lemma StayingMay(w: World)
    requires Inv(w)
    ensures MayBecome(w, w.cs)
  {
    forall n | n in w.slots && n !in w.crs
      ensures MayFollow(w.pinning, w.cs, n, w.slots[n])
    {
      assert SlotInv(w.pinning, w.cs, n, w.slots[n]);
    }
  }

  /** The last write of the unsuspend is safe whatever happened since the first. */
  lemma ClearingMay(w: World, r: Reclaim, awaiting: seq<string>, owned: set<string>)
    requires Inv(w) && !w.cs.suspend && NotStranded(w, owned)
    requires RecordOK(r) && (awaiting != [] || r.suspended != [])
    requires w.cs.record == Stored(Unsuspending(w.cs.generation, r, awaiting, owned))
    ensures MayBecome(w, w.cs.(record := Stored(Unsuspending(w.cs.generation, r, awaiting, owned).(suspended := []))))
  {
    UnsuspendingTwice(w.cs.generation, r, awaiting, awaiting, owned);
    if awaiting != [] {
      UnsuspendingMay(w, awaiting, owned);
    } else {
      StayingMay(w);
    }
  }

  method Unsuspend(c: Cluster, view: View, awaiting: seq<string>) returns (ok: bool, awake: View)
    requires c.Valid() && ViewOK(c.W(), view) && !c.cs.suspend && NotStranded(c.W(), view.Keys)
    requires (forall n | n in awaiting :: n in view) && NoDup(awaiting)
    requires awaiting != [] || c.cs.record.suspended != []
    modifies c`cs, c`slots, c`now, c`log, c`lost, c`deeds, c`trace
    ensures c.Valid() && c.lost == old(c.lost) && c.cs == old(c.cs).(record := c.cs.record)
    ensures KeepsPods(c.crs, old(c.slots), c.slots)
    ensures Performed(old(c.log), c.log, AsEffects(UnsuspendPlan(c.cs.generation, old(c.cs).record, awaiting, view.Keys)), ok)
    ensures ok ==> ViewOK(c.W(), awake) && awake.Keys == view.Keys && SameBuild(c.crs, view, awake)
    ensures ok ==> c.cs.record == Stored(Unsuspending(c.cs.generation, old(c.cs).record, awaiting, view.Keys).(suspended := []))
    ensures ok ==> forall n | n in view :: if n in awaiting then !awake[n].hibernate else awake[n] == view[n]
  {
    hide Inv, ViewOK, Recorded, Accountable, KeepsPods, NotStranded, MayBecome, EvolvesAll, Unsuspending, UnsuspendPlan, AsEffects, Clears, Performed, SameBuild;
    ghost var s0, log0, cs0 := c.slots, c.log, c.cs;
    awake := view;
    var r := Unsuspending(c.cs.generation, c.cs.record, awaiting, view.Keys);
    RecordIsOK(c.W());
    PlanPerformed(c.cs.generation, c.cs.record, awaiting, view.Keys, 0, log0);
    UnsuspendingMay(c.W(), awaiting, view.Keys);
    RestoreKept(c.W(), awaiting, view.Keys);
    ok := WriteHibernateReclaim(c, r, view);
    SameKept(c.crs, s0);
    EvolvingKeepsPods(c.crs, s0, s0, c.slots);
    if !ok {
      return;
    }
    ghost var s1, done := c.slots, 0;
    ok, awake, done := ClearHibernations(c, view, awaiting);
    KeptOn(c.crs, s0, s1, c.slots);
    PlanPerformed(c.cs.generation, cs0.record, awaiting, view.Keys, done, log0);
    if !ok {
      return;
    }
    NotStrandedStays(old(c.W()), c.W(), view.Keys);
    ClearingMay(c.W(), cs0.record, awaiting, view.Keys);
    ghost var s2 := c.slots;
    ok := WriteHibernateReclaim(c, r.(suspended := []), awake);
    EvolvingKeepsPods(c.crs, s0, s2, c.slots);
    assert awaiting[..|awaiting|] == awaiting;
  }

  lemma RecordIsOK(w: World)
    requires Inv(w)
    ensures RecordOK(w.cs.record)
  {}

  lemma NoneAwaiting(view: View, names: seq<string>, owned: set<string>, crs: set<string>)
    requires Enumerates(names, view) && Awaiting(view, names, owned) == [] && owned <= crs
    ensures forall n | n in view && n !in crs :: !view[n].hibernate
  {
    forall n | n in view && n !in crs
      ensures !view[n].hibernate
    {
      assert n in names && n !in Awaiting(view, names, owned);
    }
  }

  lemma AwaitingAll(view: View, names: seq<string>, owned: set<string>, crs: set<string>, awake: View)
    requires Enumerates(names, view) && owned <= crs
    requires forall n | n in view :: n in awake && if n in Awaiting(view, names, owned) then !awake[n].hibernate else awake[n] == view[n]
    ensures forall n | n in view ::
      && (n !in crs ==> !awake[n].hibernate)
      && (!view[n].hibernate || n in owned ==> awake[n] == view[n])
  {}

  lemma DoneRecord(generation: nat, r: Reclaim, awaiting: seq<string>, owned: set<string>)
    requires RecordOK(r) && (awaiting != [] || r.suspended != [])
    ensures
      var done := Stored(Unsuspending(generation, r, awaiting, owned).(suspended := []));
      done.suspended == [] && (done.generation == generation || done == EMPTY_RECLAIM)
  {}

  /** applyUnsuspend. Its writes are UnsuspendPlan, in order, or the beginning of it. */
  method ApplyUnsuspend(c: Cluster, view: View, names: seq<string>) returns (ok: bool, awake: View, owned: set<string>)
    requires c.Valid() && ViewOK(c.W(), view) && Enumerates(names, view)
    requires !c.cs.suspend && NotStranded(c.W(), view.Keys)
    modifies c`cs, c`slots, c`now, c`log, c`lost, c`deeds, c`trace
    ensures c.Valid() && c.lost == old(c.lost) && c.cs == old(c.cs).(record := c.cs.record)
    ensures KeepsPods(c.crs, old(c.slots), c.slots) && owned <= c.crs
    ensures ok ==> NotStranded(c.W(), view.Keys)
    ensures
      var plan := UnsuspendPlan(c.cs.generation, old(c.cs).record, Awaiting(view, names, owned), view.Keys);
      Performed(old(c.log), c.log, AsEffects(plan), ok)
    ensures ok ==> ViewOK(c.W(), awake) && awake.Keys == view.Keys && c.cs.record.suspended == [] && SameBuild(c.crs, view, awake)
    ensures ok ==> (c.cs.record.generation == c.cs.generation || c.cs.record == EMPTY_RECLAIM
                    || (c.cs.record == old(c.cs).record && awake == view))
    ensures ok ==> forall n | n in view ::
      && (n !in c.crs ==> !awake[n].hibernate)
      && (!view[n].hibernate || n in owned ==> awake[n] == view[n])
    ensures (forall n | n in view :: !view[n].hibernate) && old(c.cs).record.suspended == [] ==>
      ok && awake == view && c.cs == old(c.cs) && c.log == old(c.log)
  {
    hide Inv, ViewOK, Recorded, Accountable, KeepsPods, NotStranded, MayBecome, EvolvesAll, Enumerates;
    hide Unsuspending, UnsuspendPlan, AsEffects, Awaiting, Clears, Performed, SameBuild;
    SameItself(c.crs, view);
    var awaiting;
    awake := view;
    ok, awaiting, owned := FindAwaiting(c, view, names);
    PlanStarts(c.cs.generation, c.cs.record, Awaiting(view, names, owned), view.Keys, c.log);
    if !ok {
      return;
    }
    if awaiting == [] && c.cs.record.suspended == [] {
      NoneAwaiting(view, names, owned, c.crs);
      return;
    }
    RecordIsOK(c.W());
    DoneRecord(c.cs.generation, c.cs.record, awaiting, view.Keys);
    RestoreKept(c.W(), awaiting, view.Keys);
    ghost var w1 := c.W();
    ok, awake := Unsuspend(c, view, awaiting);
    KeptOn(c.crs, old(c.slots), w1.slots, c.slots);
    if ok {
      NotStrandedStays(w1, c.W(), view.Keys);
      AwaitingAll(view, names, owned, c.crs, awake);
    }
  }

  lemma PlanStarts(generation: nat, r: Reclaim, awaiting: seq<string>, owned: set<string>, log0: seq<Effect>)
    ensures Performed(log0, log0, AsEffects(UnsuspendPlan(generation, r, awaiting, owned)), false)
    ensures awaiting == [] && r.suspended == [] ==>
      Performed(log0, log0, AsEffects(UnsuspendPlan(generation, r, awaiting, owned)), true)
  {}

  lemma NothingAwaits(view: View, awaiting: seq<string>)
    requires forall n | n in awaiting :: n in view && view[n].hibernate
    ensures (forall n | n in view :: !view[n].hibernate) ==> awaiting == []
  {
    if awaiting != [] {
      assert awaiting[0] in awaiting;
    }
  }

  /** The pods to wake: the CocoonHibernations are listed only when some pod carries the annotation. */
  method FindAwaiting(c: Cluster, view: View, names: seq<string>)
    returns (ok: bool, awaiting: seq<string>, owned: set<string>)
    requires c.Valid() && ViewOK(c.W(), view) && Enumerates(names, view) && NotStranded(c.W(), view.Keys)
    modifies c`cs, c`slots, c`now, c`log, c`lost, c`deeds, c`trace
    ensures c.Valid() && ViewOK(c.W(), view) && c.lost == old(c.lost) && c.cs == old(c.cs) && c.log == old(c.log)
    ensures KeepsPods(c.crs, old(c.slots), c.slots) && NotStranded(c.W(), view.Keys) && owned <= c.crs
    ensures (forall n | n in names :: n in view) && (ok ==> awaiting == Awaiting(view, names, owned))
    ensures NoDup(awaiting) && forall n | n in awaiting :: n in view && view[n].hibernate
    ensures (forall n | n in view :: !view[n].hibernate) ==> ok && awaiting == []
  {
    hide Inv, ViewOK, Recorded, Accountable, KeepsPods, NotStranded, EvolvesAll, Awaiting;
    ok, awaiting, owned := true, [], {};
    SameKept(c.crs, c.slots);
    if exists n | n in view :: view[n].hibernate {
      ghost var s0 := c.slots;
      ok, owned := c.HibernationPodNames(view);
      EvolvingKeepsPods(c.crs, s0, s0, c.slots);
      NotStrandedStays(old(c.W()), c.W(), view.Keys);
    }
    if ok {
      awaiting := Awaiting(view, names, owned);
      NothingAwaits(view, awaiting);
    }
  }
}
