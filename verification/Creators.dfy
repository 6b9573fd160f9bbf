/** Creating a managed pod: the snapshot image rule, the restore mark, the create. */
module Creators {
  import opened World
  import opened Reclaims
  import opened Invariant
  import opened Fleet
  import opened Deeds
  import opened Facts
  import opened Clusters
  import opened Writes

  /** A pod created now is not created over a tag recorded from another image. */
  ghost predicate NoConflict(cs: CocoonSet, s: Slot) {
    Gone(s) ==> !ImageConflict(s.tag, cs.image)
  }

  /** Outside steps, and possibly the discard of a tag pushed from another image. */
  ghost predicate EvolvesOrDiscards(s: Slot, t: Slot) {
    && (Evolves(s, t) || t.tag.None?)
    && (!Lingering(s) ==> !Lingering(t))
    && (Settled(s) ==> Settled(t))
    && (Present(s) ==> Present(t))
  }

  lemma Discards(cs: CocoonSet, s: Slot, before: Slot, t: Slot)
    requires Evolves(s, before) && Scheduled(before) && !HibernationAsked(before) && t == Apply(cs, DropTagForImage, before)
    ensures EvolvesOrDiscards(s, t) && Forgettable(t) && Settled(t) && NoConflict(cs, t)
  {
    StaysPut(s, before);
  }

  /** The tag was pushed from an image the spec once named and no longer names. */
  predicate Conflicting(cs: CocoonSet, pushed: string) {
    pushed != "" && pushed != cs.image && pushed in cs.images
  }

  /** The only guest state given up, if any, sat in a tag of another image. */
  ghost predicate ByImage(cs: CocoonSet, a: seq<Hazard>, b: seq<Hazard>) {
    b == a || (exists pushed :: Conflicting(cs, pushed) && b == a + [ImageReplaced(pushed)])
  }

  lemma ConflictingTag(w: World, n: string, tag: Option<Snapshot>)
    requires Inv(w) && n in w.slots && n !in w.crs && w.slots[n].tag == tag && ImageConflict(tag, w.cs.image)
    ensures tag.Some? && Conflicting(w.cs, tag.value.image)
  {
    InvAt(w, n);
    assert w.cs.image in w.cs.images && tag.value.image in w.cs.images;
  }

  lemma DiscardingMay(w: World, view: View, n: string)
    requires ViewOK(w, view) && n in w.slots && n !in view
    ensures MayWrite(w, n, DropTagForImage)
    ensures n !in w.crs ==> Absent(w.pinning, w.slots[n])
  {}

  lemma DiscardingCosts(cs: CocoonSet, crs: set<string>, n: string, pushed: string, slots: Slots, lost: seq<Hazard>)
    requires n in slots && (n !in crs ==> Conflicting(cs, pushed))
    ensures ByImage(cs, lost, lost + Losses(crs, n, DropTagForImage, ImageReplaced(pushed), slots[n])) && ByImage(cs, lost, lost)
  {
    assert lost + [] == lost;
  }

  ghost predicate OthersEvolve(crs: set<string>, n: string, a: Slots, b: Slots) {
    a.Keys == b.Keys && forall m | m in a && m !in crs && m != n :: Evolves(a[m], b[m])
  }

  lemma OthersEvolveLater(crs: set<string>, n: string, a: Slots, b: Slots, c: Slots)
    requires OthersEvolve(crs, n, a, b) && EvolvesAll(crs, b, c)
    ensures OthersEvolve(crs, n, a, c)
  {
    forall m | m in a && m !in crs && m != n
      ensures Evolves(a[m], c[m])
    {
      EvolvesTransitive(a[m], b[m], c[m]);
    }
  }

  /** dropImageConflict: vk-cocoon would refuse the pod, so the tag goes first. */
  method DropImageConflict(c: Cluster, n: string, ghost view: View) returns (ok: bool, dropped: bool)
    requires c.Valid() && ViewOK(c.W(), view) && n in c.slots && n !in view
    modifies c`slots, c`now, c`log, c`lost, c`deeds, c`trace, c`refusals
    ensures c.Valid() && ViewOK(c.W(), view)
    ensures OthersEvolve(c.crs, n, old(c.slots), c.slots)
    ensures n !in c.crs ==> EvolvesOrDiscards(old(c.slots)[n], c.slots[n])
    ensures n !in c.crs && ok ==> NoConflict(c.cs, c.slots[n])
    ensures n !in c.crs && ok && dropped ==> Forgettable(c.slots[n]) && Settled(c.slots[n])
    ensures n !in c.crs && ok && !dropped ==> Evolves(old(c.slots)[n], c.slots[n])
    ensures ByImage(c.cs, old(c.lost), c.lost) && c.Answered(n, ok, old(c.refusals))
    ensures ok && !dropped ==> c.lost == old(c.lost) && c.log == old(c.log)
    ensures !ok ==> !dropped
    ensures ok && dropped ==> c.log == old(c.log) + [OnSlot(n, DropTagForImage)]
    ensures c.log == old(c.log) || c.log == old(c.log) + [OnSlot(n, DropTagForImage)]
  {
    hide Inv, ViewOK, Recorded, Accountable, MayWrite, Evolves, Forgettable, Losses, ByImage, ImageConflict, Conflicting;
    dropped := false;
    var tag;
    ok, tag := c.ReadTag(n, view);
    NothingCosts(c.cs, c.lost);
    if n !in c.crs {
      StaysPut(old(c.slots)[n], c.slots[n]);
      NoConflictWithout(c.cs, c.slots[n]);
    }
    if !ok || !ImageConflict(tag, c.cs.image) {
      return;
    }
    ghost var pushed := if tag.Some? then tag.value.image else "";
    if n !in c.crs {
      ConflictingTag(c.W(), n, tag);
    }
    ghost var mid := c.slots;
    ok := DropConflicting(c, n, pushed, view);
    dropped := ok;
    if n !in c.crs {
      DiscardsBefore(old(c.slots)[n], mid[n], c.slots[n]);
    }
    OthersEvolveSooner(c.crs, n, old(c.slots), mid, c.slots);
  }

  /** The delete of a tag pushed from another image. */
  method DropConflicting(c: Cluster, n: string, ghost pushed: string, ghost view: View) returns (ok: bool)
    requires c.Valid() && ViewOK(c.W(), view) && n in c.slots
    requires n !in view && (n !in c.crs ==> Conflicting(c.cs, pushed))
    modifies c`slots, c`now, c`log, c`lost, c`deeds, c`trace, c`refusals
    ensures c.Valid() && ViewOK(c.W(), view)
    ensures OthersEvolve(c.crs, n, old(c.slots), c.slots)
    ensures n !in c.crs ==> EvolvesOrDiscards(old(c.slots)[n], c.slots[n])
    ensures n !in c.crs && ok ==> NoConflict(c.cs, c.slots[n]) && Forgettable(c.slots[n]) && Settled(c.slots[n])
    ensures ByImage(c.cs, old(c.lost), c.lost) && c.Answered(n, ok, old(c.refusals))
    ensures ok ==> c.log == old(c.log) + [OnSlot(n, DropTagForImage)]
    ensures c.log == old(c.log) || c.log == old(c.log) + [OnSlot(n, DropTagForImage)]
  {
    hide Inv, ViewOK, Recorded, Accountable, MayWrite, Evolves, Forgettable, Losses, ByImage, Conflicting, Settled, HibernationAsked;
    hide NoConflict, Apply, Accepts;
    DiscardingMay(c.W(), view, n);
    var r, p, before := c.WriteSlot(n, DropTagForImage, ImageReplaced(pushed), view);
    DiscardingCosts(c.cs, c.crs, n, pushed, before, old(c.lost));
    DiscardAccepted(before[n]);
    if n !in c.crs {
      Discarded(c.W().(slots := before), n, old(c.slots)[n]);
      StaysPut(old(c.slots)[n], before[n]);
    }
    ok := r == Done;
    c.Note(n, ok);
  }

  lemma DiscardsBefore(s: Slot, t: Slot, u: Slot)
    requires Evolves(s, t) && EvolvesOrDiscards(t, u)
    ensures EvolvesOrDiscards(s, u)
  {
    StaysPut(s, t);
    if Evolves(t, u) {
      EvolvesTransitive(s, t, u);
    }
  }

  lemma OthersEvolveSooner(crs: set<string>, n: string, a: Slots, b: Slots, c: Slots)
    requires EvolvesAll(crs, a, b) && OthersEvolve(crs, n, b, c)
    ensures OthersEvolve(crs, n, a, c)
  {
    forall m | m in a && m !in crs && m != n
      ensures Evolves(a[m], c[m])
    {
      EvolvesTransitive(a[m], b[m], c[m]);
    }
  }

  lemma DiscardAccepted(s: Slot)
    ensures Accepts(DropTagForImage, s)
  {}

  lemma NothingCosts(cs: CocoonSet, lost: seq<Hazard>)
    ensures ByImage(cs, lost, lost)
  {}

  lemma NoConflictWithout(cs: CocoonSet, s: Slot)
    ensures !ImageConflict(s.tag, cs.image) ==> NoConflict(cs, s)
  {}

  lemma Discarded(w: World, n: string, s: Slot)
    requires Inv(w) && n in w.slots && n !in w.crs && Evolves(s, w.slots[n]) && !HibernationAsked(s)
    ensures
      var t := Apply(w.cs, DropTagForImage, w.slots[n]);
      EvolvesOrDiscards(s, t) && Forgettable(t) && Settled(t) && NoConflict(w.cs, t)
  {
    InvAt(w, n);
    ScheduledSlot(w.pinning, w.cs, n, w.slots[n]);
    Discards(w.cs, s, w.slots[n], Apply(w.cs, DropTagForImage, w.slots[n]));
  }

  /** What a discard writes: nothing, the drop, or the drop and then the record without the VM. A
      refused read or delete keeps the record. */
  ghost predicate DiscardLogged(n: string, log0: seq<Effect>, log1: seq<Effect>, a: CocoonSet, b: CocoonSet) {
    || (b == a && log1 == log0)
    || (b == a && log1 == log0 + [OnSlot(n, DropTagForImage)])
    || (|log1| == |log0| + 2 && log1[..|log0|] == log0 && log1[|log0|] == OnSlot(n, DropTagForImage)
        && log1[|log0| + 1].SetRecord? && b == a.(record := b.record) && Forgot(a.record, b.record, {n}))
  }

  lemma DiscardLogs(n: string, log0: seq<Effect>, log1: seq<Effect>, log2: seq<Effect>, a: CocoonSet, b: CocoonSet)
    requires log1 == log0 + [OnSlot(n, DropTagForImage)] && AtMostRecord(log1, log2)
    requires if log2 == log1 then b == a else b == a.(record := b.record) && Forgot(a.record, b.record, {n})
    ensures DiscardLogged(n, log0, log2, a, b)
  {}

  /** discardImageConflict: a VM whose tag was discarded leaves the reclaim record. */
  method DiscardImageConflict(c: Cluster, n: string, ghost view: View) returns (ok: bool, dropped: bool)
    requires c.Valid() && ViewOK(c.W(), view) && n in c.slots && n !in view
    modifies c
    ensures c.Valid() && ViewOK(c.W(), view)
    ensures OthersEvolve(c.crs, n, old(c.slots), c.slots)
    ensures n !in c.crs ==> EvolvesOrDiscards(old(c.slots)[n], c.slots[n])
    ensures n !in c.crs && ok ==> NoConflict(c.cs, c.slots[n])
    ensures n !in c.crs && ok && dropped ==> Forgettable(c.slots[n]) && Settled(c.slots[n])
    ensures n !in c.crs && ok && !dropped ==> Evolves(old(c.slots)[n], c.slots[n])
    ensures ok && !dropped ==> c.cs == old(c.cs) && c.lost == old(c.lost) && c.log == old(c.log)
    ensures c.cs == old(c.cs) || (c.cs == old(c.cs).(record := c.cs.record) && Forgot(old(c.cs).record, c.cs.record, {n}))
    ensures DiscardLogged(n, old(c.log), c.log, old(c.cs), c.cs)
    ensures ByImage(c.cs, old(c.lost), c.lost)
    ensures if ok || dropped then c.refusals == old(c.refusals) else c.refusals == old(c.refusals) + [Refusal(n, |c.log|)]
  {
    hide Inv, ViewOK, Recorded, Accountable, MayWrite, Evolves, Forgettable, ByImage, Forgot;
    ok, dropped := DropImageConflict(c, n, view);
    if !ok || !dropped {
      return;
    }
    ghost var mid, log1, cs := c.slots, c.log, c.cs;
    ok := ForgetReclaim(c, {n}, view);
    OthersEvolveLater(c.crs, n, old(c.slots), mid, c.slots);
    ByImageStill(cs, c.cs, old(c.lost), c.lost);
    DiscardLogs(n, old(c.log), log1, c.log, cs, c.cs);
    if n !in c.crs {
      StaysPut(mid[n], c.slots[n]);
      ForgettableStays(mid[n], c.slots[n]);
      DiscardsLater(c.cs, old(c.slots)[n], mid[n], c.slots[n]);
    }
  }

  lemma ByImageStill(a: CocoonSet, b: CocoonSet, lost0: seq<Hazard>, lost1: seq<Hazard>)
    requires ByImage(a, lost0, lost1) && SameSpec(a, b)
    ensures ByImage(b, lost0, lost1)
  {
    if lost1 != lost0 {
      var pushed :| Conflicting(a, pushed) && lost1 == lost0 + [ImageReplaced(pushed)];
      assert Conflicting(b, pushed);
    }
  }

  lemma DiscardsLater(cs: CocoonSet, s: Slot, t: Slot, u: Slot)
    requires EvolvesOrDiscards(s, t) && Evolves(t, u) && Forgettable(t)
    ensures EvolvesOrDiscards(s, u)
    ensures NoConflict(cs, t) ==> NoConflict(cs, u)
  {
    StaysPut(t, u);
    if Evolves(s, t) {
      EvolvesTransitive(s, t, u);
    }
  }

  lemma TaglessLingersNot(w: World, n: string)
    requires Inv(w) && n in w.slots && n !in w.crs && w.slots[n].tag.None?
    ensures !Lingering(w.slots[n])
  {
    assert SlotInv(w.pinning, w.cs, n, w.slots[n]);
  }

  /** markRestoreFromIntent: a VM owed a restore, by the record or by a CocoonHibernation, is marked
      when its tag exists; a refused probe marks nothing and fails the pass. */
  method MarkRestoreFromIntent(c: Cluster, n: string, unconditional: bool, ghost view: View)
    returns (ok: bool, restore: bool)
    requires c.Valid() && ViewOK(c.W(), view) && n in c.slots
    modifies c`slots, c`now, c`trace, c`refusals
    ensures c.Valid() && ViewOK(c.W(), view) && EvolvesAll(c.crs, old(c.slots), c.slots)
    ensures c.Answered(n, ok, old(c.refusals))
    ensures ok && n !in c.crs ==> restore == ((unconditional || n in c.cs.record.restore) && c.slots[n].tag.Some?)
  {
    hide Inv, ViewOK, Recorded, Accountable;
    var want := unconditional || n in c.cs.record.restore;
    restore := false;
    if !want {
      var names;
      ok, names := c.HibernationPodNames(view);
      if !ok {
        c.Note(n, ok);
        return;
      }
      want := n in names;
    }
    ghost var mid := c.slots;
    if !want {
      return true, false;
    }
    ok, restore := c.HasSnapshot(n, view);
    EvolvesAllTransitive(c.crs, old(c.slots), mid, c.slots);
  }

  /** Where a pod may be created: the main under the pin of the spec, the others anywhere. */
  ghost predicate Placeable(w: World, n: string, pin: string) {
    if w.pinning then n == MAIN ==> pin == w.cs.nodeName else pin == "" && !(w.cs.suspend && w.cs.release)
  }

  lemma CreatingMay(w: World, view: View, n: string, pin: string, restore: bool, fork: bool)
    requires ViewOK(w, view) && n in w.slots && n !in view && Placeable(w, n, pin)
    requires n !in w.crs ==> NoConflict(w.cs, w.slots[n])
    requires n !in w.crs && restore ==> w.slots[n].tag.Some?
    requires n !in w.crs && (Lingering(w.slots[n]) || (fork && w.slots[n].tag.Some?)) ==> restore
    ensures MayWrite(w, n, Create(pin, restore, fork))
  {}

  lemma ConflictFreeStays(cs: CocoonSet, s: Slot, t: Slot)
    requires NoConflict(cs, s) && Evolves(s, t)
    ensures NoConflict(cs, t)
  {}

  /** The image rule and the restore mark, before any managed pod is created. */
  method PrepareManaged(c: Cluster, n: string, pin: string, unconditional: bool, ghost fork: bool, ghost view: View)
    returns (ok: bool, restore: bool)
    requires c.Valid() && ViewOK(c.W(), view) && n in c.slots && n !in view
    requires Placeable(c.W(), n, pin)
    requires n !in c.crs && (Lingering(c.slots[n]) || (fork && c.slots[n].tag.Some?)) ==>
      unconditional || n in c.cs.record.restore
    modifies c
    ensures c.Valid() && ViewOK(c.W(), view)
    ensures OthersEvolve(c.crs, n, old(c.slots), c.slots)
    ensures c.cs == old(c.cs) || (c.cs == old(c.cs).(record := c.cs.record) && Forgot(old(c.cs).record, c.cs.record, {n}))
    ensures DiscardLogged(n, old(c.log), c.log, old(c.cs), c.cs)
    ensures ByImage(c.cs, old(c.lost), c.lost)
    ensures c.refusals == old(c.refusals) || (!ok && c.refusals == old(c.refusals) + [Refusal(n, |c.log|)])
    ensures ok ==> MayWrite(c.W(), n, Create(pin, restore, fork))
  {
    hide Inv, ViewOK, Recorded, Accountable, MayWrite, Evolves, Forgettable, NoConflict, EvolvesOrDiscards, Lingering, Forgot, ByImage;
    var dropped;
    ok, dropped := DiscardImageConflict(c, n, view);
    restore := false;
    if !ok {
      return;
    }
    ghost var s1, w1 := c.slots, c.W();
    ok, restore := MarkRestoreFromIntent(c, n, unconditional, view);
    OthersEvolveLater(c.crs, n, old(c.slots), s1, c.slots);
    if ok {
      if n !in c.crs {
        ConflictFreeStays(c.cs, s1[n], c.slots[n]);
        Needed(old(c.W()), view, w1, c.W(), n, dropped);
      }
      CreatingMay(c.W(), view, n, pin, restore, fork);
    }
  }

  ghost predicate AtMostCreate(n: string, pin: string, fork: bool, log0: seq<Effect>, log1: seq<Effect>) {
    log1 == log0 || log1 == log0 + [OnSlot(n, Create(pin, true, fork))] || log1 == log0 + [OnSlot(n, Create(pin, false, fork))]
  }

  /** The create path every managed pod goes through: image rule, restore mark, create. A refused
      read, delete or probe creates nothing, and a drop that did not land keeps the record. */
  method CreateManaged(c: Cluster, n: string, pin: string, unconditional: bool, fork: bool, ghost view: View)
    returns (r: Reply, ghost prepared: bool)
    requires c.Valid() && ViewOK(c.W(), view) && n in c.slots && n !in view
    requires Placeable(c.W(), n, pin)
    requires n !in c.crs && (Lingering(c.slots[n]) || (fork && c.slots[n].tag.Some?)) ==>
      unconditional || n in c.cs.record.restore
    modifies c
    ensures c.Valid() && ViewOK(c.W(), view)
    ensures OthersEvolve(c.crs, n, old(c.slots), c.slots)
    ensures c.cs == old(c.cs) || (c.cs == old(c.cs).(record := c.cs.record) && Forgot(old(c.cs).record, c.cs.record, {n}))
    ensures ByImage(c.cs, old(c.lost), c.lost)
    ensures !prepared ==> r == Error && DiscardLogged(n, old(c.log), c.log, old(c.cs), c.cs)
    ensures prepared ==> c.refusals == old(c.refusals)
    ensures prepared ==> exists log1 :: DiscardLogged(n, old(c.log), log1, old(c.cs), c.cs) && AtMostCreate(n, pin, fork, log1, c.log)
    ensures FailClosed(old(c.refusals), c.refusals, c.log)
    ensures r == Done && n !in c.crs ==> n in c.slots && ByTheRules(c.cs, c.slots[n]) && (fork ==> Marked(c.slots[n]))
  {
    hide Inv, ViewOK, Recorded, Accountable, MayWrite, Evolves, Lingering, Forgot, ByTheRules, ByImage, DiscardLogged, AtMostCreate, Marked, OthersEvolve;
    var ok, restore := PrepareManaged(c, n, pin, unconditional, fork, view);
    prepared := ok;
    RefusedLast(old(c.refusals), c.refusals, n, c.log);
    if !ok {
      return Error, prepared;
    }
    ghost var mid, log1 := c.slots, c.log;
    r := CreatePrepared(c, n, pin, restore, fork, view);
    NoneRefused(c.refusals, c.log);
    assert DiscardLogged(n, old(c.log), log1, old(c.cs), c.cs) && AtMostCreate(n, pin, fork, log1, c.log);
    OthersEvolveOn(c.crs, n, old(c.slots), mid, c.slots);
  }

  /** The create itself. */
  method CreatePrepared(c: Cluster, n: string, pin: string, restore: bool, fork: bool, ghost view: View) returns (r: Reply)
    requires c.Valid() && ViewOK(c.W(), view) && n !in view && MayWrite(c.W(), n, Create(pin, restore, fork))
    modifies c`slots, c`now, c`log, c`lost, c`deeds, c`trace
    ensures c.Valid() && ViewOK(c.W(), view) && c.lost == old(c.lost)
    ensures OthersEvolve(c.crs, n, old(c.slots), c.slots) && AtMostCreate(n, pin, fork, old(c.log), c.log)
    ensures r == Done && n !in c.crs ==> n in c.slots && ByTheRules(c.cs, c.slots[n]) && (fork ==> Marked(c.slots[n]))
  {
    hide Inv, ViewOK, Recorded, Accountable, MayWrite, Evolves, Apply, Losses, ByTheRules, Marked;
    var p; ghost var before;
    r, p, before := c.WriteSlot(n, Create(pin, restore, fork), QuiescedWake, view);
    NoLossOnCreate(c.crs, n, pin, restore, fork, before);
    OthersEvolveAfter(c.crs, n, old(c.slots), before, c.slots);
    if r == Done && n !in c.crs {
      CreatedUnderTheRules(c.W().(slots := before), n, pin, restore, fork);
      MarkedFork(c.cs, pin, restore, fork, before[n]);
    }
  }

  /** Marked to restore exactly when its tag exists. */
  ghost predicate Marked(s: Slot) {
    Present(s) && (s.server.value.restore <==> s.tag.Some?)
  }

  lemma MarkedFork(cs: CocoonSet, pin: string, restore: bool, fork: bool, s: Slot)
    requires Accepts(Create(pin, restore, fork), s) && (fork ==> (restore <==> s.tag.Some?))
    ensures fork ==> Marked(Apply(cs, Create(pin, restore, fork), s))
  {}

  lemma OthersEvolveOn(crs: set<string>, n: string, a: Slots, b: Slots, c: Slots)
    requires OthersEvolve(crs, n, a, b) && OthersEvolve(crs, n, b, c)
    ensures OthersEvolve(crs, n, a, c)
  {
    forall m | m in a && m !in crs && m != n
      ensures Evolves(a[m], c[m])
    {
      EvolvesTransitive(a[m], b[m], c[m]);
    }
  }

  /** A VM that waits for its pod, or whose tag exists, did so before, unless its tag was dropped. */
  lemma Needed(w0: World, view: View, w1: World, w2: World, n: string, dropped: bool)
    requires Inv(w2) && ViewOK(w0, view) && n !in view && n in w0.slots && n in w1.slots && n in w2.slots && n !in w0.crs
    requires w2.crs == w0.crs == w1.crs
    requires EvolvesOrDiscards(w0.slots[n], w1.slots[n]) && (dropped ==> Forgettable(w1.slots[n]))
    requires (!dropped ==> Evolves(w0.slots[n], w1.slots[n])) && Evolves(w1.slots[n], w2.slots[n])
    ensures Lingering(w2.slots[n]) ==> Lingering(w0.slots[n]) && !dropped && w2.slots[n].tag.Some?
    ensures w2.slots[n].tag.Some? ==> w0.slots[n].tag.Some? && !dropped
  {
    StaysPut(w1.slots[n], w2.slots[n]);
    InvAt(w2, n);
    DiscardedLingersNot(w0.slots[n], w1.slots[n], dropped);
    assert Absent(w0.pinning, w0.slots[n]);
    if dropped {
      ForgettableStays(w1.slots[n], w2.slots[n]);
    }
  }

  lemma DiscardedLingersNot(s: Slot, t: Slot, dropped: bool)
    requires EvolvesOrDiscards(s, t) && (dropped ==> Forgettable(t)) && (!dropped ==> Evolves(s, t))
    ensures dropped ==> !Lingering(t)
    ensures Lingering(t) ==> Lingering(s)
  {}

  lemma NoLossOnCreate(crs: set<string>, n: string, pin: string, restore: bool, fork: bool, slots: Slots)
    requires n in slots
    ensures Losses(crs, n, Create(pin, restore, fork), QuiescedWake, slots[n]) == []
  {}

  lemma OthersEvolveAfter(crs: set<string>, n: string, a: Slots, b: Slots, c: Slots)
    requires EvolvesAll(crs, a, b) && b.Keys == c.Keys && forall m | m in b && m != n :: c[m] == b[m]
    ensures OthersEvolve(crs, n, a, c)
  {}
}
