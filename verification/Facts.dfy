/** What the reconciler may conclude, mid-pass, from the invariant and from the pods it has listed. */
module Facts {
  import opened World
  import opened Reclaims
  import opened Invariant
  import opened Fleet

  /** The VM has state and no pod: only its tag holds it. */
  ghost predicate Lingering(s: Slot) {
    s.claim.Some? && Gone(s)
  }

  lemma StaysPut(s: Slot, t: Slot)
    requires Evolves(s, t)
    ensures !Lingering(s) ==> !Lingering(t)
    ensures Settled(s) ==> Settled(t)
    ensures Present(s) ==> Present(t)
    ensures Gone(s) ==> Gone(t)
    ensures Awake(s) ==> Awake(t)
    ensures Asleep(s) ==> Asleep(t)
  {}

  function MainOf(view: View): Option<Pod> {
    if MAIN in view then Some(view[MAIN]) else None
  }

  /** The spec, which only the user edits. */
  ghost predicate SameUser(a: CocoonSet, b: CocoonSet) {
    SameSpec(a, b)
  }

  // ---- the suspend gate ----

  /** What an open gate proves of a slot: its pod, unless already deleted, is hibernated and asked to
      stay so, and its tag holds the state the user is owed. */
  ghost predicate Hibernating(s: Slot) {
    && Asleep(s) && s.tag.Some?
    && (s.claim.Some? ==> s.tag.value.version == s.claim.value)
  }

  /** The promise an open gate makes, for every pod it did not skip as kubelet-terminal. */
  ghost predicate GateHolds(crs: set<string>, slots: Slots, view: View, names: set<string>) {
    forall n | n in names && n in view && n in slots && n !in crs && !view[n].terminal ::
      Hibernating(slots[n]) && view[n].node != ""
  }

  predicate HasLivePod(view: View) {
    exists n :: n in view && !view[n].terminal
  }

  /** Suspended may be written when every listed pod that is not kubelet-terminal has an open gate. */
  ghost predicate SuspendedOK(w: World, view: View) {
    w.cs.suspend && (GateHolds(w.crs, w.slots, view, view.Keys) || !HasLivePod(view))
  }

  // ---- status and hint ----

  ghost predicate PhaseOK(w: World, phase: Phase) {
    MAIN in w.slots &&
    var s := w.slots[MAIN];
    if w.pinning then
      && phase !in {Suspending, Suspended, Waking}
      && (phase == Migrating || MAIN in w.crs || (Settled(s) && (HibernationAsked(s) ==> s.excused)))
    else
      && phase != Migrating
      && (MAIN in w.crs || !Lingering(s) || Tracked(w.cs.(phase := phase), MAIN))
  }

  lemma PhaseMay(w: World, phase: Phase)
    requires Inv(w) && PhaseOK(w, phase)
    ensures MayBecome(w, w.cs.(phase := phase))
  {
    forall n | n in w.slots && n !in w.crs
      ensures MayFollow(w.pinning, w.cs.(phase := phase), n, w.slots[n])
    {
      assert SlotInv(w.pinning, w.cs, n, w.slots[n]);
    }
  }

  ghost predicate HintOK(w: World, node: string) {
    MAIN in w.slots && !w.pinning && (node != "" || MAIN in w.crs || !Lingering(w.slots[MAIN]))
  }

  lemma HintMay(w: World, node: string)
    requires Inv(w) && HintOK(w, node)
    ensures MayBecome(w, w.cs.(hint := node))
  {
    forall n | n in w.slots && n !in w.crs
      ensures MayFollow(w.pinning, w.cs.(hint := node), n, w.slots[n])
    {
      assert SlotInv(w.pinning, w.cs, n, w.slots[n]);
    }
  }

  lemma StashMay(w: World, names: set<string>)
    requires Inv(w) && w.cs.stash <= names
    ensures MayBecome(w, w.cs.(stash := names))
  {
    forall n | n in w.slots && n !in w.crs
      ensures MayFollow(w.pinning, w.cs.(stash := names), n, w.slots[n])
    {
      assert SlotInv(w.pinning, w.cs, n, w.slots[n]);
    }
  }

  lemma SinceMay(w: World, since: Option<int>, asked: int)
    requires Inv(w)
    ensures MayBecome(w, w.cs.(since := since, asked := asked))
  {
    forall n | n in w.slots && n !in w.crs
      ensures MayFollow(w.pinning, w.cs.(since := since, asked := asked), n, w.slots[n])
    {
      assert SlotInv(w.pinning, w.cs, n, w.slots[n]);
    }
  }

  // ---- the reclaim record ----

  /** Listing VMs as suspended before any of them is asked to hibernate. */
  lemma ListingMay(w: World, names: seq<string>)
    requires Inv(w) && !w.pinning
    ensures MayBecome(w, w.cs.(record := Stored(Listing(w.cs.record, names))))
  {
    var r := Listing(w.cs.record, names);
    StoredIsLossless(r);
    var next := w.cs.(record := Stored(r));
    forall n | n in w.slots && n !in w.crs
      ensures MayFollow(w.pinning, next, n, w.slots[n])
    {
      assert SlotInv(w.pinning, w.cs, n, w.slots[n]);
    }
  }

  /** A main with state but without a pod is still found by a later pass. */
  ghost predicate NotStranded(w: World, owned: set<string>) {
    MAIN in w.slots &&
    (w.pinning || MAIN in w.crs || !Lingering(w.slots[MAIN]) || MAIN in w.cs.record.restore
     || (MAIN !in owned && w.cs.phase !in {Suspending, Suspended, Waking}))
  }

  lemma UnsuspendingMay(w: World, awaiting: seq<string>, owned: set<string>)
    requires Inv(w) && !w.cs.suspend && NotStranded(w, owned)
    requires awaiting != [] || w.cs.record.suspended != []
    ensures MayBecome(w, w.cs.(record := Stored(Unsuspending(w.cs.generation, w.cs.record, awaiting, owned))))
    ensures MayBecome(w, w.cs.(record := Stored(Unsuspending(w.cs.generation, w.cs.record, awaiting, owned).(suspended := []))))
  {
    var r := Unsuspending(w.cs.generation, w.cs.record, awaiting, owned);
    UnsuspendingTwice(w.cs.generation, w.cs.record, awaiting, [], owned);
    StoredIsLossless(r);
    StoredIsLossless(r.(suspended := []));
    if w.pinning {
      assert r.restore == [];
    }
    forall n | n in w.slots && n !in w.crs
      ensures MayFollow(w.pinning, w.cs.(record := r), n, w.slots[n])
      ensures MayFollow(w.pinning, w.cs.(record := r.(suspended := [])), n, w.slots[n])
    {
      assert SlotInv(w.pinning, w.cs, n, w.slots[n]);
    }
  }

  /** A VM leaves the record once its tag is gone and nothing asks it to hibernate. */
  ghost predicate Forgettable(s: Slot) {
    s.tag.None? && !HibernationAsked(s) && !Lingering(s)
  }

  lemma ForgettableStays(s: Slot, t: Slot)
    requires Forgettable(s) && Evolves(s, t)
    ensures Forgettable(t)
  {}

  lemma ForgettingMay(w: World, drop: set<string>)
    requires Inv(w)
    requires forall n | n in drop && n in w.slots && n !in w.crs :: Forgettable(w.slots[n])
    ensures MayBecome(w, w.cs.(record := Stored(Forgotten(w.cs.record, drop))))
  {
    var r := Forgotten(w.cs.record, drop);
    StoredIsLossless(r);
    var next := w.cs.(record := Stored(r));
    forall n | n in w.slots && n !in w.crs
      ensures MayFollow(w.pinning, next, n, w.slots[n])
    {
      assert SlotInv(w.pinning, w.cs, n, w.slots[n]);
    }
  }
}
