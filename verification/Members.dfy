/** The pods of a running set beside the main: what failed or drifted is deleted to be built anew, and
    what is missing is created, sub-agents as forks of the main. */
module Members {
  import opened World
  import opened Reclaims
  import opened Invariant
  import opened Fleet
  import opened Deeds
  import opened Facts
  import opened Clusters
  import opened Writes
  import opened Creators
  import opened Unsuspension
  import opened Woken

  // ---- what a running set gives up by design ----

  /** The state sat in a tag of an image the spec no longer names, or in a listed pod that does not
      match the spec any more. */
  ghost predicate Outdated(cs: CocoonSet, crs: set<string>, seen: View, h: Hazard) {
    match h
    case ImageReplaced(pushed) => Conflicting(cs, pushed)
    case Drifted(n) => n !in crs && n in seen && Drifts(cs, seen[n])
    case _ => false
  }

  ghost predicate OnlyOutdated(cs: CocoonSet, crs: set<string>, seen: View, a: seq<Hazard>, b: seq<Hazard>) {
    a <= b && forall i | |a| <= i < |b| :: Outdated(cs, crs, seen, b[i])
  }

  lemma NothingOutdated(cs: CocoonSet, crs: set<string>, seen: View, a: seq<Hazard>)
    ensures OnlyOutdated(cs, crs, seen, a, a)
  {}

  lemma OutdatedFor(cs: CocoonSet, cs': CocoonSet, crs: set<string>, seen: View, a: seq<Hazard>, b: seq<Hazard>)
    requires OnlyOutdated(cs, crs, seen, a, b) && SameSpec(cs, cs')
    ensures OnlyOutdated(cs', crs, seen, a, b)
  {}

  lemma OutdatedImage(cs: CocoonSet, cs': CocoonSet, crs: set<string>, seen: View, a: seq<Hazard>, b: seq<Hazard>, c: seq<Hazard>)
    requires OnlyOutdated(cs, crs, seen, a, b) && ByImage(cs', b, c) && SameSpec(cs, cs')
    ensures OnlyOutdated(cs', crs, seen, a, c)
  {}

  lemma OutdatedPod(cs: CocoonSet, crs: set<string>, seen: View, a: seq<Hazard>, b: seq<Hazard>, n: string, c: seq<Hazard>)
    requires OnlyOutdated(cs, crs, seen, a, b) && (c == b || c == b + [Drifted(n)])
    requires c != b ==> Outdated(cs, crs, seen, Drifted(n))
    ensures OnlyOutdated(cs, crs, seen, a, c)
  {}

  lemma OutdatedOn(cs: CocoonSet, cs': CocoonSet, crs: set<string>, seen: View, a: seq<Hazard>, b: seq<Hazard>, c: seq<Hazard>)
    requires OnlyOutdated(cs, crs, seen, a, b) && OnlyOutdated(cs', crs, seen, b, c) && SameSpec(cs, cs')
    ensures OnlyOutdated(cs', crs, seen, a, c)
  {
    forall i | |a| <= i < |c|
      ensures Outdated(cs', crs, seen, c[i])
    {
      assert i < |b| ==> c[i] == b[i] && Outdated(cs, crs, seen, b[i]);
    }
  }

  lemma OutdatedAlike(cs: CocoonSet, crs: set<string>, seen: View, awake: View, a: seq<Hazard>, b: seq<Hazard>)
    requires OnlyOutdated(cs, crs, awake, a, b) && SameBuild(crs, seen, awake)
    ensures OnlyOutdated(cs, crs, seen, a, b)
  {
    assert forall n :: n in awake <==> n in awake.Keys;
  }

  // ---- the main, meanwhile ----

  /** The main has its pod, and, while pins are edited, its node; or it is on record for a restore. */
  ghost predicate Grounded(w: World) {
    MAIN !in w.crs ==>
      && MAIN in w.slots
      && if w.pinning then Settled(w.slots[MAIN]) else !Lingering(w.slots[MAIN]) || MAIN in w.cs.record.restore
  }

  lemma GroundedEvolves(w: World, w': World, n: string)
    requires Grounded(w) && w'.pinning == w.pinning && w'.crs == w.crs && n != MAIN
    requires OthersEvolve(w.crs, n, w.slots, w'.slots)
    requires w.cs.record == w'.cs.record || Forgot(w.cs.record, w'.cs.record, {n})
    ensures Grounded(w')
  {
    if MAIN !in w.crs {
      StaysPut(w.slots[MAIN], w'.slots[MAIN]);
    }
  }

  lemma GroundedKept(w: World, w': World, forks: set<string>, gone: set<string>)
    requires Grounded(w) && w'.pinning == w.pinning && w'.crs == w.crs && KeepsPods(w.crs, w.slots, w'.slots)
    requires gone <= forks && MAIN !in forks && (w.cs == w'.cs || Forgot(w.cs.record, w'.cs.record, gone))
    ensures Grounded(w')
  {}

  // ---- triage ----

  datatype Triaged = Left | Waiting | Deleted | Failing

  /** Nothing is owed of the VM, or its pod is gone, whatever happens to it next. */
  ghost predicate Excluded(s: Slot) {
    s.excused || Gone(s)
  }

  lemma RetiringMay(w: World, known: View, n: string)
    requires ViewOK(w, known) && n in known && !w.cs.suspend
    ensures MayWrite(w, n, Retire)
  {}

  lemma RetiringCosts(w: World, s0: Slots, n: string)
    requires Inv(w) && EvolvesAll(w.crs, s0, w.slots) && n in w.slots
    ensures Losses(w.crs, n, Retire, Drifted(n), w.slots[n]) in {[], [Drifted(n)]}
    ensures n in w.crs || Excluded(s0[n]) ==> Losses(w.crs, n, Retire, Drifted(n), w.slots[n]) == []
  {
    if n !in w.crs {
      InvAt(w, n);
      ScheduledSlot(w.pinning, w.cs, n, w.slots[n]);
      assert Evolves(s0[n], w.slots[n]);
    }
  }

  lemma Retired(cs: CocoonSet, s: Slot)
    ensures Accepts(Retire, s) && Gone(Apply(cs, Retire, s))
  {}

  /** What a pass still knows after it has deleted a pod. */
  function Without(pinning: bool, known: View, n: string): View {
    if pinning then known - {n} else known
  }

  /** triagePod, as far as guests are concerned: a pod that failed or drifted is deleted, waits out its
      backoff, or is parked; which of them the rebuild budget decides. */
  method TriagePod(c: Cluster, n: string, stale: bool, ghost known: View) returns (t: Triaged)
    requires c.Valid() && ViewOK(c.W(), known) && !c.cs.suspend && n in known
    modifies c`slots, c`now, c`log, c`lost, c`deeds, c`trace
    ensures c.Valid() && (!stale ==> t == Left)
    ensures t == Left || t == Waiting ==> c.W() == old(c.W()) && c.log == old(c.log) && c.lost == old(c.lost)
    ensures OthersEvolve(c.crs, n, old(c.slots), c.slots)
    ensures c.log == old(c.log) || c.log == old(c.log) + [OnSlot(n, Retire)]
    ensures t == Deleted ==> ViewOK(c.W(), Without(c.pinning, known, n))
    ensures t == Deleted && n !in c.crs ==> n in c.slots && Gone(c.slots[n])
    ensures c.lost == old(c.lost)
         || (n !in c.crs && n in old(c.slots) && !Excluded(old(c.slots)[n]) && c.lost == old(c.lost) + [Drifted(n)])
  {
    hide Inv, ViewOK, Recorded, Accountable, MayWrite, Apply, Losses, Evolves, Excluded;
    NothingSeenSlots(c.crs, c.slots);
    if !stale {
      return Left;
    }
    t := *;
    if t != Deleted {
      return;
    }
    RetiringMay(c.W(), known, n);
    var r, p, before := c.WriteSlot(n, Retire, Drifted(n), known);
    RetiringCosts(c.W().(slots := before), old(c.slots), n);
    Retired(c.cs, before[n]);
    OthersEvolveAfter(c.crs, n, old(c.slots), before, c.slots);
    t := if r == Done then Deleted else Failing;
  }

  lemma NothingSeenSlots(crs: set<string>, slots: Slots)
    ensures forall n :: OthersEvolve(crs, n, slots, slots)
  {}

  /** The pod has nothing that would have it built anew. */
  predicate Matches(cs: CocoonSet, p: Pod) {
    !IsFailed(p) && !Drifts(cs, p)
  }

  /** Of the listed pods, those the pass still knows. */
  ghost predicate Part(known: View, view: View) {
    forall n | n in known :: n in view && known[n] == view[n]
  }

  /** A listed pod that failed is owed nothing, or gone. */
  lemma FailedExcluded(w: World, known: View, n: string)
    requires Inv(w) && ViewOK(w, known) && n in known && n !in w.crs && IsFailed(known[n])
    ensures n in w.slots && Excluded(w.slots[n])
  {
    assert Knows(w.pinning, w.cs, known[n], w.slots[n]);
  }

  /** The triage loop over the listed members. */
  method TriageMembers(c: Cluster, view: View, existing: seq<string>, ghost known: View)
    returns (ok: bool, changed: bool, ghost left: View)
    requires c.Valid() && ViewOK(c.W(), known) && Part(known, view) && !c.cs.suspend && Grounded(c.W())
    requires NoDup(existing) && forall n | n in existing :: n in known && n in view && n != MAIN
    modifies c`slots, c`now, c`log, c`lost, c`deeds, c`trace
    ensures c.Valid() && Grounded(c.W()) && OnlyOutdated(c.cs, c.crs, view, old(c.lost), c.lost)
    ensures ok ==> ViewOK(c.W(), left) && Part(left, known) && known.Keys - Elements(existing) <= left.Keys
    ensures ok && !changed ==> left == known
    ensures (forall n | n in existing :: Matches(c.cs, view[n])) ==> ok && !changed && c.log == old(c.log)
  {
    hide Inv, ViewOK, Recorded, Accountable, Grounded, OthersEvolve, OnlyOutdated, Excluded;
    ok, changed, left := true, false, known;
    NothingOutdated(c.cs, c.crs, view, c.lost);
    for i := 0 to |existing|
      invariant c.Valid() && ViewOK(c.W(), left) && Part(left, known) && Grounded(c.W())
      invariant OnlyOutdated(c.cs, c.crs, view, old(c.lost), c.lost)
      invariant known.Keys - Elements(existing[..i]) <= left.Keys && (!changed ==> left == known)
      invariant (forall n | n in existing :: Matches(c.cs, view[n])) ==> !changed && c.log == old(c.log)
    {
      var n := existing[i];
      assert n in existing && n !in existing[..i] && n in known.Keys;
      assert Elements(existing[..i + 1]) == Elements(existing[..i]) + {n};
      ghost var w, lost1 := c.W(), c.lost;
      if n !in c.crs && IsFailed(view[n]) {
        FailedExcluded(c.W(), left, n);
      }
      var t := TriagePod(c, n, !Matches(c.cs, view[n]), left);
      OutdatedPod(c.cs, c.crs, view, old(c.lost), lost1, n, c.lost);
      GroundedEvolves(w, c.W(), n);
      if t == Failing {
        return false, changed, left;
      }
      if t == Deleted {
        changed, left := true, Without(c.pinning, left, n);
      }
    }
  }

  // ---- the creates ----

  /** Every missing member the record owes a tag delete is owed a restore too. */
  ghost predicate ForksReclaimed(record: Reclaim, missing: seq<string>, slots: Slots, crs: set<string>) {
    forall n | n in missing && n in slots && n !in crs :: n in record.vms ==> n in record.restore
  }

  lemma ForkSpare(w: World, known: View, n: string)
    requires Inv(w) && ViewOK(w, known) && n != MAIN && n !in known && n in w.slots && n !in w.crs
    ensures Spare(true, w.slots[n])
  {
    InvAt(w, n);
    assert Absent(w.pinning, w.slots[n]);
  }

  lemma ForksSpare(w: World, known: View, forks: set<string>)
    requires Inv(w) && ViewOK(w, known) && forall n | n in forks :: n != MAIN && n !in known
    ensures AllAwake(true, w.crs, w.slots, forks)
  {
    forall n | n in forks && n in w.slots && n !in w.crs
      ensures Spare(true, w.slots[n])
    {
      ForkSpare(w, known, n);
    }
  }

  /** reclaimUnrestoredForks: a missing member nobody restores must not be forked over a tag the
      record still owes a delete. */
  method ReclaimForks(c: Cluster, missing: seq<string>, ghost known: View) returns (ok: bool)
    requires c.Valid() && ViewOK(c.W(), known) && !c.cs.suspend && Grounded(c.W())
    requires forall n | n in missing :: n != MAIN && n !in known
    modifies c
    ensures c.Valid() && ViewOK(c.W(), known) && Grounded(c.W()) && c.lost == old(c.lost)
    ensures c.cs == old(c.cs).(record := c.cs.record) && c.slots.Keys == old(c.slots).Keys
    ensures FailClosed(old(c.refusals), c.refusals, c.log) && (ok ==> c.refusals == old(c.refusals))
    ensures DropsAwake(true, c.crs, old(c.deeds), c.deeds) && CreatesNothing(old(c.log), c.log)
    ensures LeftGone(c.crs, c.slots, old(c.cs).record, c.cs.record)
    ensures ok ==> ForksReclaimed(c.cs.record, missing, c.slots, c.crs)
    ensures missing == [] ==> ok && c.log == old(c.log) && c.cs == old(c.cs)
  {
    hide Inv, ViewOK, Recorded, Accountable, Grounded, KeepsPods, Forgot, FailClosed, AllAwake, LeftGone, Forgettable;
    NoneRefused(c.refusals, c.log);
    NobodyLeft(c.crs, c.slots, c.cs.record);
    if missing == [] || c.cs.record.vms == [] {
      return true;
    }
    ghost var w0 := c.W();
    SameKept(c.crs, c.slots);
    var names;
    ok, names := c.HibernationPodNames(known);
    EvolvingKeepsPods(c.crs, w0.slots, w0.slots, c.slots);
    NobodyLeft(c.crs, c.slots, c.cs.record);
    var forks := set n | n in missing && n !in names && n !in c.cs.record.restore;
    GroundedKept(w0, c.W(), forks, {});
    if !ok {
      return;
    }
    ForksSpare(c.W(), known, forks);
    ghost var w1 := c.W();
    ok := ReclaimSnapshots(c, true, forks, known);
    ghost var gone :| gone <= forks && (c.cs == w1.cs || Forgot(w1.cs.record, c.cs.record, gone));
    GroundedKept(w1, c.W(), forks, gone);
    KeysStay(c.crs, w1.slots, c.slots);
    if ok {
      ForgotRestores(w1.cs, c.cs, gone, forks);
    }
  }

  lemma NobodyLeft(crs: set<string>, slots: Slots, r: Reclaim)
    ensures LeftGone(crs, slots, r, r)
  {}

  lemma ForgotRestores(a: CocoonSet, b: CocoonSet, gone: set<string>, forks: set<string>)
    requires gone <= forks && (a == b || Forgot(a.record, b.record, gone)) && forall n | n in forks :: n !in a.record.restore
    ensures forall n :: n in b.record.restore <==> n in a.record.restore
  {}

  /** A missing member outside the CocoonHibernations with a tag is on record for its restore. */
  lemma ForkNeeds(w: World, n: string)
    requires Inv(w) && n != MAIN && n in w.slots && n !in w.crs
    ensures !Lingering(w.slots[n])
    ensures w.slots[n].tag.Some? ==> n in w.cs.record.vms
  {
    InvAt(w, n);
  }

  lemma StillReclaimed(r: Reclaim, r': Reclaim, missing: seq<string>, a: Slots, b: Slots, crs: set<string>, n: string)
    requires ForksReclaimed(r, missing, a, crs) && a.Keys == b.Keys && (r == r' || Forgot(r, r', {n}))
    ensures ForksReclaimed(r', missing, b, crs)
  {}

  /** One create of a member, as a fork or on its own. */
  method CreateMember(c: Cluster, view: View, n: string, fork: bool, ghost known: View) returns (r: Reply)
    requires c.Valid() && ViewOK(c.W(), known) && !c.cs.suspend && Grounded(c.W()) && n != MAIN && n !in known
    requires n in c.slots && (fork && n !in c.crs && n in c.cs.record.vms ==> n in c.cs.record.restore)
    modifies c
    ensures c.Valid() && ViewOK(c.W(), known) && Grounded(c.W()) && c.slots.Keys == old(c.slots).Keys
    ensures c.cs == old(c.cs) || (c.cs == old(c.cs).(record := c.cs.record) && Forgot(old(c.cs).record, c.cs.record, {n}))
    ensures ByImage(c.cs, old(c.lost), c.lost)
    ensures FailClosed(old(c.refusals), c.refusals, c.log) && (r != Error ==> c.refusals == old(c.refusals))
    ensures r == Done && n !in c.crs ==> n in c.slots && ByTheRules(c.cs, c.slots[n]) && (fork ==> Marked(c.slots[n]))
  {
    hide Inv, ViewOK, Recorded, Accountable, Grounded, OthersEvolve, Lingering, Forgot, ByImage, FailClosed, DiscardLogged;
    hide AtMostCreate, ByTheRules, Marked;
    ghost var w := c.W();
    if n !in c.crs {
      ForkNeeds(w, n);
    }
    ghost var prepared;
    r, prepared := CreateManaged(c, n, "", false, fork, known);
    OthersKeys(c.crs, n, w.slots, c.slots);
    GroundedEvolves(w, c.W(), n);
  }

  lemma OthersKeys(crs: set<string>, n: string, a: Slots, b: Slots)
    ensures OthersEvolve(crs, n, a, b) ==> a.Keys == b.Keys
  {}

  /** The creates of the missing sub-agents: outside the CocoonHibernations each is restore-marked
      exactly when its tag exists. */
  method CreateForks(c: Cluster, view: View, missing: seq<string>, ghost known: View) returns (ok: bool, created: bool)
    requires c.Valid() && ViewOK(c.W(), known) && !c.cs.suspend && Grounded(c.W())
    requires (forall n | n in missing :: n != MAIN && n !in known) && ForksReclaimed(c.cs.record, missing, c.slots, c.crs)
    modifies c
    ensures c.Valid() && ViewOK(c.W(), known) && Grounded(c.W())
    ensures c.cs == old(c.cs).(record := c.cs.record)
    ensures OnlyOutdated(c.cs, c.crs, view, old(c.lost), c.lost)
    ensures FailClosed(old(c.refusals), c.refusals, c.log) && (ok ==> c.refusals == old(c.refusals))
    ensures missing == [] ==> ok && !created && c.log == old(c.log) && c.cs == old(c.cs)
  {
    hide Inv, ViewOK, Recorded, Accountable, Grounded, Forgot, OnlyOutdated, ByImage, FailClosed, ForksReclaimed, ByTheRules, Marked;
    ghost var lost0 := c.lost;
    created := false;
    NothingOutdated(c.cs, c.crs, view, lost0);
    for i := 0 to |missing|
      invariant c.Valid() && ViewOK(c.W(), known) && Grounded(c.W()) && c.cs == old(c.cs).(record := c.cs.record)
      invariant OnlyOutdated(c.cs, c.crs, view, lost0, c.lost) && c.refusals == old(c.refusals)
      invariant ForksReclaimed(c.cs.record, missing, c.slots, c.crs)
      invariant missing == [] ==> !created && c.log == old(c.log) && c.cs == old(c.cs)
    {
      var n := missing[i];
      assert n in missing;
      if n in c.slots {
        ghost var w, lost1 := c.W(), c.lost;
        OneReclaimed(w, missing, n);
        var r := CreateMember(c, view, n, true, known);
        OutdatedImage(w.cs, c.cs, c.crs, view, lost0, lost1, c.lost);
        StillReclaimed(w.cs.record, c.cs.record, missing, w.slots, c.slots, c.crs, n);
        if r == Error {
          return false, created;
        }
        created := created || r == Done;
      }
    }
    NoneRefused(c.refusals, c.log);
    ok := true;
  }

  lemma OneReclaimed(w: World, missing: seq<string>, n: string)
    requires ForksReclaimed(w.cs.record, missing, w.slots, w.crs) && n in missing && n in w.slots
    ensures n !in w.crs && n in w.cs.record.vms ==> n in w.cs.record.restore
  {}

  /** ensureSubAgents on the cluster: triage what is listed, reclaim the forks, create what is missing
      and not parked. */
  method EnsureSubAgents(c: Cluster, view: View, wanted: set<string>, ghost known: View)
    returns (ok: bool, changed: bool, ghost left: View)
    requires c.Valid() && ViewOK(c.W(), known) && Part(known, view) && !c.cs.suspend && Grounded(c.W())
    requires MAIN !in wanted && wanted * view.Keys <= known.Keys
    modifies c
    ensures c.Valid() && Grounded(c.W()) && c.cs == old(c.cs).(record := c.cs.record)
    ensures OnlyOutdated(c.cs, c.crs, view, old(c.lost), c.lost)
    ensures FailClosed(old(c.refusals), c.refusals, c.log) && (ok ==> c.refusals == old(c.refusals))
    ensures ok ==> ViewOK(c.W(), left) && Part(left, known) && known.Keys - wanted <= left.Keys
    ensures ok && !changed ==> left == known
    ensures (forall n | n in wanted :: n in view && Matches(old(c.cs), view[n])) ==>
      ok && !changed && c.cs == old(c.cs) && c.log == old(c.log)
  {
    hide Inv, ViewOK, Recorded, Accountable, Grounded, OnlyOutdated, FailClosed, ForksReclaimed, DropsAwake, CreatesNothing, LeftGone, Part;
    ghost var cs0, lost0 := c.cs, c.lost;
    var existing := Enumerate(wanted * view.Keys);
    ListedMembers(view, wanted, existing, known);
    ok, changed, left := TriageMembers(c, view, existing, known);
    NoneRefused(c.refusals, c.log);
    if !ok {
      return;
    }
    ghost var lost1 := c.lost;
    var parked: set<string> := *;
    var missing := Enumerate(wanted - view.Keys - parked);
    MissingMembers(view, wanted, parked, missing, known, left);
    ok := ReclaimForks(c, missing, left);
    OutdatedFor(cs0, c.cs, c.crs, view, lost0, lost1);
    if !ok {
      return;
    }
    ghost var cs2 := c.cs;
    var created;
    ok, created := CreateForks(c, view, missing, left);
    OutdatedOn(cs2, c.cs, c.crs, view, lost0, lost1, c.lost);
    changed := changed || created;
  }

  lemma ListedMembers(view: View, wanted: set<string>, existing: seq<string>, known: View)
    requires forall n :: n in existing <==> n in wanted * view.Keys
    requires wanted * view.Keys <= known.Keys
    ensures forall n | n in existing :: n in known && n in view && n in wanted
    ensures Elements(existing) <= wanted
  {
    forall n | n in existing
      ensures n in known && n in view && n in wanted
    {
      assert n in wanted * view.Keys && n in known.Keys;
    }
    forall n | n in Elements(existing)
      ensures n in wanted
    {
      assert n in existing && n in wanted * view.Keys;
    }
  }

  lemma MissingMembers(view: View, wanted: set<string>, parked: set<string>, missing: seq<string>, known: View, left: View)
    requires (forall n :: n in missing <==> n in wanted - view.Keys - parked) && Part(known, view) && Part(left, known)
    ensures forall n | n in missing :: n !in left && n in wanted
    ensures (forall n | n in wanted :: n in view) ==> missing == []
  {
    if missing != [] {
      assert missing[0] in missing;
    }
    forall n | n in missing
      ensures n !in left && n in wanted
    {
      assert n in wanted - view.Keys - parked;
    }
  }

  /** ensureToolboxes on the cluster: each toolbox is triaged where it is listed, and created where it
      is missing and not parked, over a tag or not. */
  method EnsureToolboxes(c: Cluster, view: View, wanted: set<string>, ghost known: View)
    returns (ok: bool, changed: bool, ghost left: View)
    requires c.Valid() && ViewOK(c.W(), known) && Part(known, view) && !c.cs.suspend && Grounded(c.W())
    requires MAIN !in wanted && wanted * view.Keys <= known.Keys
    modifies c
    ensures c.Valid() && Grounded(c.W()) && c.cs == old(c.cs).(record := c.cs.record)
    ensures OnlyOutdated(c.cs, c.crs, view, old(c.lost), c.lost)
    ensures FailClosed(old(c.refusals), c.refusals, c.log)
    ensures ok ==> ViewOK(c.W(), left) && Part(left, known) && c.refusals == old(c.refusals)
    ensures ok && !changed ==> left == known
    ensures (forall n | n in wanted :: n in view && Matches(old(c.cs), view[n])) ==>
      ok && !changed && c.cs == old(c.cs) && c.log == old(c.log)
  {
    hide Inv, ViewOK, Recorded, Accountable, Grounded, OnlyOutdated, FailClosed, Part, ByImage, Forgot, ByTheRules, Marked;
    ghost var cs0, lost0 := c.cs, c.lost;
    ok, changed, left := true, false, known;
    var names := Enumerate(wanted);
    PartItself(known);
    NothingOutdated(c.cs, c.crs, view, lost0);
    NoneRefused(c.refusals, c.log);
    for i := 0 to |names|
      invariant c.Valid() && ViewOK(c.W(), left) && Part(left, known) && Grounded(c.W())
      invariant c.cs == old(c.cs).(record := c.cs.record) && c.refusals == old(c.refusals)
      invariant OnlyOutdated(c.cs, c.crs, view, lost0, c.lost) && (!changed ==> left == known)
      invariant forall j | i <= j < |names| && names[j] in view :: names[j] in left
      invariant (forall n | n in wanted :: n in view && Matches(old(c.cs), view[n])) ==>
        !changed && c.cs == old(c.cs) && c.log == old(c.log)
    {
      var n := names[i];
      assert n in names && n in wanted;
      if n in view {
        var t; ghost var left0 := left;
        t, left := TriageOne(c, view, names, i, known, left, lost0);
        if t == Failing {
          NoneRefused(c.refusals, c.log);
          return false, changed, left;
        }
        changed := changed || t == Deleted;
      } else {
        NotLeft(view, known, left, n);
        var parked: bool := *;
        if !parked && n in c.slots {
          ghost var cs1, lost1 := c.cs, c.lost;
          var r := CreateMember(c, view, n, false, left);
          OutdatedImage(cs1, c.cs, c.crs, view, lost0, lost1, c.lost);
          if r == Error {
            return false, changed, left;
          }
          changed := changed || r == Done;
        }
      }
    }
    NoneRefused(c.refusals, c.log);
  }

  method TriageOne(c: Cluster, view: View, names: seq<string>, i: nat, ghost known: View, ghost left0: View, ghost lost0: seq<Hazard>)
    returns (t: Triaged, ghost left: View)
    requires c.Valid() && ViewOK(c.W(), left0) && Part(left0, known) && Part(known, view) && !c.cs.suspend && Grounded(c.W())
    requires i < |names| && NoDup(names) && names[i] in view && names[i] != MAIN
    requires forall j | i <= j < |names| && names[j] in view :: names[j] in left0
    requires OnlyOutdated(c.cs, c.crs, view, lost0, c.lost)
    modifies c`slots, c`now, c`log, c`lost, c`deeds, c`trace
    ensures c.Valid() && Grounded(c.W()) && OnlyOutdated(c.cs, c.crs, view, lost0, c.lost)
    ensures t != Failing ==> ViewOK(c.W(), left) && Part(left, known)
    ensures t != Failing ==> forall j | i < j < |names| && names[j] in view :: names[j] in left
    ensures t != Deleted ==> left == left0
    ensures Matches(c.cs, view[names[i]]) ==> t == Left && c.log == old(c.log)
  {
    hide Inv, ViewOK, Recorded, Accountable, Grounded, OnlyOutdated, OthersEvolve, Excluded;
    var n := names[i];
    left := left0;
    ghost var w, lost1 := c.W(), c.lost;
    if n !in c.crs && IsFailed(view[n]) {
      FailedExcluded(c.W(), left0, n);
    }
    t := TriagePod(c, n, !Matches(c.cs, view[n]), left0);
    OutdatedPod(c.cs, c.crs, view, lost0, lost1, n, c.lost);
    GroundedEvolves(w, c.W(), n);
    if t == Deleted {
      left := Without(c.pinning, left0, n);
    }
  }

  lemma PartItself(view: View)
    ensures Part(view, view)
  {}

  lemma NotLeft(view: View, known: View, left: View, n: string)
    requires Part(known, view) && Part(left, known) && n !in view
    ensures n !in left
  {}
}
