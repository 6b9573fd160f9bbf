/** What every write of a run answers for: the slot it found, and what it did to it. */
module Deeds {
  import opened World
  import opened Reclaims
  import opened Invariant
  import opened Fleet

  /** A new pod meets no tag of another image, carries a restore mark only over a tag, and carries one
      whenever its VM has state. */
  ghost predicate ByTheRules(cs: CocoonSet, s: Slot) {
    && Present(s) && !ImageConflict(s.tag, cs.image)
    && (s.server.value.restore ==> s.tag.Some?)
    && (s.claim.Some? ==> s.server.value.restore && s.tag.Some? && s.tag.value.version == s.claim.value)
  }

  /** Every create of the model lands under MayWrite, whoever makes it, and so keeps the rules; a fork
      is marked exactly when its tag exists. */
  lemma CreatedUnderTheRules(w: World, n: string, pin: string, restore: bool, fork: bool)
    requires Inv(w) && MayWrite(w, n, Create(pin, restore, fork)) && n !in w.crs && Accepts(Create(pin, restore, fork), w.slots[n])
    ensures ByTheRules(w.cs, Apply(w.cs, Create(pin, restore, fork), w.slots[n]))
    ensures fork ==> (restore <==> w.slots[n].tag.Some?)
  {
    InvAt(w, n);
  }

  /** A pod is created by the rules; a pod is deleted only over a tag that holds what its user is owed;
      a write that costs a user state is a loss with a cause. */
  ghost predicate Rightful(d: Deed, lost: seq<Hazard>) {
    && Accepts(d.write, d.slot)
    && (d.write.Create? ==>
          ByTheRules(d.cs, Apply(d.cs, d.write, d.slot))
          && (d.write.fork ==> (d.write.restore <==> d.slot.tag.Some?)))
    && (d.write.Delete? && d.slot.claim.Some? ==> d.slot.tag.Some? && d.slot.tag.value.version == d.slot.claim.value)
    && (Forfeits(d.write, d.slot) && d.slot.claim.Some? ==> d.cause in lost)
  }

  // ---- the deletes of mains under a dropped pin ----

  function RepinDeletes(deeds: seq<Deed>): nat
    decreases |deeds|
  {
    if deeds == [] then 0
    else
      var d := deeds[|deeds| - 1];
      RepinDeletes(deeds[..|deeds| - 1]) + if d.write.DeleteUnbound? && Present(d.slot) then 1 else 0
  }

  /** A re-pin delete a later pass may make: a list may show the main waiting under a dropped pin. */
  ghost function Due(w: World): nat {
    if MAIN in w.slots && Present(w.slots[MAIN]) && Roaming(w.slots[MAIN])
       && w.slots[MAIN].server.value.pin != "" && w.slots[MAIN].server.value.pin != w.cs.nodeName then 1 else 0
  }

  /** The edits of the node name still cover one more re-pin delete. */
  ghost predicate Covered(w: World, deeds: seq<Deed>) {
    w.pinning && MAIN !in w.crs ==>
      MAIN in w.slots && (Gone(w.slots[MAIN]) || RepinDeletes(deeds) + 1 <= w.cs.repins)
  }

  ghost predicate Accountable(w: World, deeds: seq<Deed>, lost: seq<Hazard>) {
    && (forall i | 0 <= i < |deeds| && deeds[i].name !in w.crs :: Rightful(deeds[i], lost))
    && (w.pinning && MAIN !in w.crs ==> RepinDeletes(deeds) + Due(w) <= w.cs.repins)
  }

  lemma DueStays(w: World, slots: Slots)
    requires EvolvesAll(w.crs, w.slots, slots) && MAIN !in w.crs
    ensures Due(w.(slots := slots)) <= Due(w)
  {
    if MAIN in slots {
      assert Evolves(w.slots[MAIN], slots[MAIN]);
    }
  }

  lemma AccountableStays(w: World, slots: Slots, deeds: seq<Deed>, lost: seq<Hazard>)
    requires Accountable(w, deeds, lost) && EvolvesAll(w.crs, w.slots, slots)
    ensures Accountable(w.(slots := slots), deeds, lost)
  {
    if MAIN !in w.crs {
      DueStays(w, slots);
    }
  }

  lemma AccountableFor(w: World, next: CocoonSet, deeds: seq<Deed>, lost: seq<Hazard>)
    requires Accountable(w, deeds, lost) && SameSpec(w.cs, next)
    ensures Accountable(w.(cs := next), deeds, lost)
  {}

  lemma CoveredStays(w: World, slots: Slots, deeds: seq<Deed>)
    requires Covered(w, deeds) && EvolvesAll(w.crs, w.slots, slots)
    ensures Covered(w.(slots := slots), deeds)
  {
    if MAIN !in w.crs && MAIN in w.slots {
      assert Evolves(w.slots[MAIN], slots[MAIN]);
    }
  }

  lemma DeedRightful(w: World, n: string, e: SlotWrite, cause: Hazard, lost: seq<Hazard>)
    requires Inv(w) && MayWrite(w, n, e) && n !in w.crs && Accepts(e, w.slots[n])
    ensures Rightful(Deed(n, e, w.cs, w.slots[n], cause), lost + Losses(w.crs, n, e, cause, w.slots[n]))
  {
    InvAt(w, n);
    if e.Create? {
      CreatedUnderTheRules(w, n, e.pin, e.restore, e.fork);
    }
  }

  lemma StillRightful(d: Deed, lost: seq<Hazard>, more: seq<Hazard>)
    requires Rightful(d, lost)
    ensures Rightful(d, lost + more)
  {}

  lemma DueAfter(w: World, n: string, e: SlotWrite, deeds: seq<Deed>)
    requires Inv(w) && MayWrite(w, n, e) && Accepts(e, w.slots[n]) && w.pinning && MAIN !in w.crs
    requires e.DeleteUnbound? ==> n == MAIN && Covered(w, deeds)
    requires RepinDeletes(deeds) + Due(w) <= w.cs.repins
    ensures
      RepinDeletes(deeds) + (if e.DeleteUnbound? && Present(w.slots[n]) then 1 else 0) + Due(After(w, n, e)) <= w.cs.repins
  {
    if n !in w.crs {
      InvAt(w, n);
    }
  }

  /** A write that lands leaves the run accountable. */
  lemma AccountableAfter(w: World, n: string, e: SlotWrite, cause: Hazard, deeds: seq<Deed>, lost: seq<Hazard>)
    requires Inv(w) && MayWrite(w, n, e) && Accepts(e, w.slots[n]) && Accountable(w, deeds, lost)
    requires n in w.slots && (e.DeleteUnbound? ==> n == MAIN && Covered(w, deeds))
    ensures Accountable(After(w, n, e), deeds + [Deed(n, e, w.cs, w.slots[n], cause)],
                        lost + Losses(w.crs, n, e, cause, w.slots[n]))
  {
    hide Inv, MayWrite, Rightful, Accepts, Losses, Due, After;
    var d := Deed(n, e, w.cs, w.slots[n], cause);
    var more := deeds + [d];
    assert more[..|more| - 1] == deeds;
    forall i | 0 <= i < |more| && more[i].name !in w.crs
      ensures Rightful(more[i], lost + Losses(w.crs, n, e, cause, w.slots[n]))
    {
      if i < |deeds| {
        StillRightful(deeds[i], lost, Losses(w.crs, n, e, cause, w.slots[n]));
      } else {
        DeedRightful(w, n, e, cause, lost);
      }
    }
    AfterKeeps(w, n, e);
    if w.pinning && MAIN !in w.crs {
      DueAfter(w, n, e, deeds);
    }
  }

  lemma AfterKeeps(w: World, n: string, e: SlotWrite)
    requires n in w.slots && Accepts(e, w.slots[n])
    ensures After(w, n, e).cs == w.cs && After(w, n, e).crs == w.crs && After(w, n, e).pinning == w.pinning
  {}

  /** A main listed under a dropped pin is covered by the edit that dropped it. */
  ghost predicate RepinCovered(w: World, deeds: seq<Deed>, view: View) {
    MAIN in view && PinnedElsewhere(view[MAIN], w.cs.nodeName) ==> Covered(w, deeds)
  }

  lemma ListedCovered(w: World, ages: Ages, deeds: seq<Deed>, lost: seq<Hazard>)
    requires Inv(w) && Accountable(w, deeds, lost)
    ensures RepinCovered(w.(slots := CaughtUp(w, ages)), deeds, ListedView(w, ages))
  {}

  // ---- refused registry calls ----

  ghost predicate NoCreates(log: seq<Effect>, name: string, from: nat) {
    forall i | from <= i < |log| :: !(log[i].OnSlot? && log[i].name == name && log[i].write.Create?)
  }

  /** No pod is created after a registry call about its VM was refused. */
  ghost predicate FailClosed(before: seq<Refusal>, after: seq<Refusal>, log: seq<Effect>) {
    && before <= after
    && forall i | |before| <= i < |after| :: NoCreates(log, after[i].name, after[i].at)
  }

  lemma NoneRefused(refusals: seq<Refusal>, log: seq<Effect>)
    ensures FailClosed(refusals, refusals, log)
  {}

  /** A refusal that ends a stage closes it. */
  lemma RefusedLast(before: seq<Refusal>, after: seq<Refusal>, n: string, log: seq<Effect>)
    requires after == before || after == before + [Refusal(n, |log|)]
    ensures FailClosed(before, after, log)
  {}

  ghost predicate RefusedSince(before: seq<Refusal>, after: seq<Refusal>, from: nat) {
    before <= after && forall i | |before| <= i < |after| :: after[i].at >= from
  }

  ghost predicate CreatesNothing(log0: seq<Effect>, log1: seq<Effect>) {
    log0 <= log1 && forall i | |log0| <= i < |log1| :: !(log1[i].OnSlot? && log1[i].write.Create?)
  }

  /** A stage that creates nothing leaves its own refusals closed. */
  lemma ClosedWithoutCreates(before: seq<Refusal>, after: seq<Refusal>, log0: seq<Effect>, log1: seq<Effect>)
    requires RefusedSince(before, after, |log0|) && CreatesNothing(log0, log1)
    ensures FailClosed(before, after, log1)
  {}

  /** The VM of every tag the stage dropped was awake, or its pod had been deleted by the rebuild budget;
      the forks of missing members may also be owed nothing. A delete may find no tag. */
  ghost predicate DropsAwake(forks: bool, crs: set<string>, before: seq<Deed>, after: seq<Deed>) {
    && before <= after
    && forall i | |before| <= i < |after| ::
         && after[i].write.DropTag?
         && (after[i].name !in crs && after[i].slot.tag.Some? ==>
               Awake(after[i].slot) || Rebuilt(after[i].slot) || (forks && after[i].slot.claim.None?))
  }
}
