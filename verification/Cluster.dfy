/** The API server, the registry and vk-cocoon as the reconciler meets them: every call may fail
    before or after it takes effect, and any number of outside steps may precede it. */
module Clusters {
  import opened World
  import opened Reclaims
  import opened Invariant
  import opened Fleet
  import opened Deeds
  import D = SuspendDeadline

  datatype Reply = Done | Refused | Error

  class Cluster {
    const pinning: bool
    const crs: set<string>     // slots targeted by a CocoonHibernation
    var cs: CocoonSet
    var slots: Slots
    var now: int               // the operator's clock
    ghost var log: seq<Effect>
    ghost var lost: seq<Hazard>
    ghost var deeds: seq<Deed>
    ghost var refusals: seq<Refusal>
    ghost var trace: seq<World>

    function W(): World
      reads this
    {
      World(pinning, crs, cs, slots)
    }

    /** The invariant holds now, no state the cluster ever passed through had lost guest state, and
        every write that landed answers for itself. */
    ghost predicate Valid()
      reads this
    {
      Inv(W()) && Recorded(trace, W()) && Accountable(W(), deeds, lost) && D.Clocked(cs, now)
    }

    /** A new set with a slot for each VM it may ever run, none of them booted. */
    constructor (pinning: bool, crs: set<string>, names: set<string>, image: string)
      requires MAIN in names
      ensures Valid() && fresh(this) && lost == [] && cs.images == {image}
      ensures this.pinning == pinning && this.crs == crs && slots.Keys == names
    {
      this.pinning := pinning;
      this.crs := crs;
      cs := CocoonSet(1, false, false, "", image, 0, {image}, {0}, 0, Unset, "", {}, None, 0, EMPTY_RECLAIM);
      slots := map n | n in names :: Slot(None, [], None, 0, None, false, 0, 0);
      now := 0;
      log, lost, deeds, refusals := [], [], [], [];
      trace := [World(pinning, crs, cs, slots)];
    }

    /** The cluster has moved to a new state without the operator; the trace remembers it. */
    method Advance(next: Slots)
      requires Inv(World(pinning, crs, cs, next)) && Valid() && EvolvesAll(crs, slots, next)
      modifies this`slots, this`trace
      ensures Valid() && slots == next
    {
      hide Inv, Recorded, Accountable, EvolvesAll;
      Remember(trace, W(), World(pinning, crs, cs, next));
      AccountableStays(W(), next, deeds, lost);
      slots := next;
      trace := trace + [W()];
    }

    /** Any number of steps of vk-cocoon, the scheduler, the kubelet and the guests, and time. */
    method Vk(ghost view: View)
      requires Valid()
      modifies this`slots, this`now, this`trace
      ensures Valid() && EvolvesAll(crs, old(slots), slots) && now >= old(now)
      ensures ViewOK(old(W()), view) ==> ViewOK(W(), view)
    {
      hide Inv, ViewOK, Recorded, Accountable;
      var later: int := *;
      if later > now {
        now := later;
      }
      var steps: nat := *;
      while steps > 0
        invariant Valid() && EvolvesAll(crs, old(slots), slots) && now >= old(now)
        invariant ViewOK(old(W()), view) ==> ViewOK(W(), view)
      {
        var n: string := *;
        if n in slots {
          ghost var w := W();
          var s: Slot := *;
          if n in crs {
            CrsActInv(w, n, s);
          } else {
            var a: VkAction := *;
            s := Act(a, slots[n]);
            ActInv(w, n, a);
          }
          Advance(slots[n := s]);
          EvolvesAllTransitive(crs, old(slots), w.slots, slots);
          if ViewOK(w, view) {
            ViewStable(w, view, slots);
          }
        }
        steps := steps - 1;
      }
    }

    ghost predicate Idle(before: Slots, log0: seq<Effect>, lost0: seq<Hazard>, deeds0: seq<Deed>)
      reads this
    {
      slots == before && log == log0 && lost == lost0 && deeds == deeds0
    }

    ghost predicate Wrote(n: string, e: SlotWrite, cause: Hazard, before: Slots, log0: seq<Effect>, lost0: seq<Hazard>, deeds0: seq<Deed>)
      requires n in before
      reads this
    {
      && Accepts(e, before[n]) && slots == before[n := Apply(cs, e, before[n])]
      && log == log0 + [OnSlot(n, e)]
      && lost == lost0 + Losses(crs, n, e, cause, before[n])
      && deeds == deeds0 + [Deed(n, e, cs, before[n], cause)]
    }

    /** One write to a pod or a tag. `before` is the cluster the write found. */
    method WriteSlot(n: string, e: SlotWrite, ghost cause: Hazard, ghost view: View)
      returns (r: Reply, p: Option<Pod>, ghost before: Slots)
      requires Valid() && ViewOK(W(), view) && MayWrite(W(), n, e)
      requires e.DeleteUnbound? ==> n == MAIN && Covered(W(), deeds)
      modifies this`slots, this`now, this`log, this`lost, this`deeds, this`trace
      ensures Valid() && EvolvesAll(crs, old(slots), before) && n in before && n in slots
      ensures Inv(W().(slots := before)) && MayWrite(W().(slots := before), n, e)
      ensures r == Done ==> Wrote(n, e, cause, before, old(log), old(lost), old(deeds)) && p == slots[n].server
      ensures r == Refused ==> Idle(before, old(log), old(lost), old(deeds)) && !Accepts(e, before[n])
      ensures r == Error ==>
        Idle(before, old(log), old(lost), old(deeds)) || Wrote(n, e, cause, before, old(log), old(lost), old(deeds))
      ensures r == Refused ==> ViewOK(W(), view)
      ensures Informed(pinning, crs, n, e, view) ==> ViewOK(W(), view)
      ensures r == Done && pinning && DeletesPod(e) ==> ViewOK(W(), view - {n})
      ensures r == Done && IsPatch(e) && n in view ==> p.Some? && ViewOK(W(), view[n := p.value])
    {
      hide Inv, ViewOK, Recorded, Accountable, MayWrite, Losses, Covered, Informed;
      Vk(view);
      MayWriteStable(old(W()), n, e, slots);
      if e.DeleteUnbound? {
        CoveredStays(old(W()), slots, deeds);
      }
      before, p := slots, None;
      if * {
        return Error, None, before;
      }
      if !Accepts(e, slots[n]) {
        return Refused, None, before;
      }
      Land(n, e, cause, view);
      p := slots[n].server;
      if * {
        return Error, None, before;
      }
      r := Done;
    }

    method Land(n: string, e: SlotWrite, ghost cause: Hazard, ghost view: View)
      requires Valid() && ViewOK(W(), view) && MayWrite(W(), n, e) && n in slots && Accepts(e, slots[n])
      requires e.DeleteUnbound? ==> n == MAIN && Covered(W(), deeds)
      modifies this`slots, this`now, this`log, this`lost, this`deeds, this`trace
      ensures Valid() && n in slots && Wrote(n, e, cause, old(slots), old(log), old(lost), old(deeds))
      ensures ViewAfter(old(W()), view, n, e, W())
    {
      hide Inv, ViewOK, Recorded, Accountable, MayWrite, Losses, Apply, Accepts, ViewAfter;
      WriteLands(W(), view, n, e);
      AccountableAfter(W(), n, e, cause, deeds, lost);
      Remember(trace, W(), After(W(), n, e));
      trace := trace + [After(W(), n, e)];
      log := log + [OnSlot(n, e)];
      deeds := deeds + [Deed(n, e, cs, slots[n], cause)];
      lost := lost + Losses(crs, n, e, cause, slots[n]);
      slots := slots[n := Apply(cs, e, slots[n])];
    }

    /** One write to the CocoonSet: its status, or one of its annotations. */
    method WriteSet(next: CocoonSet, ghost e: Effect, ghost view: View) returns (ok: bool)
      requires Valid() && ViewOK(W(), view) && MayBecome(W(), next) && D.Clocked(next, now)
      modifies this`cs, this`slots, this`now, this`log, this`trace
      ensures Valid() && ViewOK(W(), view) && EvolvesAll(crs, old(slots), slots)
      ensures now >= old(now)
      ensures ok ==> cs == next && log == old(log) + [e]
      ensures !ok ==> (cs == old(cs) && log == old(log)) || (cs == next && log == old(log) + [e])
    {
      hide Inv, ViewOK, Recorded, Accountable;
      Vk(view);
      MayBecomeStable(old(W()), next, slots);
      if * {
        return false;
      }
      SetInvariant(W(), next, view);
      AccountableFor(W(), next, deeds, lost);
      Remember(trace, W(), W().(cs := next));
      cs := next;
      log := log + [e];
      trace := trace + [W()];
      ok := *;
    }

    /** HasHibernateSnapshot: the same lookup vk-cocoon performs at wake. */
    method HasSnapshot(n: string, ghost view: View) returns (ok: bool, present: bool)
      requires Valid() && ViewOK(W(), view) && n in slots
      modifies this`slots, this`now, this`trace, this`refusals
      ensures Valid() && ViewOK(W(), view) && EvolvesAll(crs, old(slots), slots)
      ensures present == slots[n].tag.Some?
      ensures Answered(n, ok, old(refusals))
    {
      hide Inv, ViewOK, Recorded, Accountable;
      Vk(view);
      ok, present := *, slots[n].tag.Some?;
      Note(n, ok);
    }

    method ReadTag(n: string, ghost view: View) returns (ok: bool, tag: Option<Snapshot>)
      requires Valid() && ViewOK(W(), view) && n in slots
      modifies this`slots, this`now, this`trace, this`refusals
      ensures Valid() && ViewOK(W(), view) && EvolvesAll(crs, old(slots), slots)
      ensures tag == slots[n].tag
      ensures Answered(n, ok, old(refusals))
    {
      hide Inv, ViewOK, Recorded, Accountable;
      Vk(view);
      ok, tag := *, slots[n].tag;
      Note(n, ok);
    }

    /** A refused registry call about a VM is on record with the point in the log it was made at. */
    ghost predicate Answered(n: string, ok: bool, refusals0: seq<Refusal>)
      reads this
    {
      refusals == if ok then refusals0 else refusals0 + [Refusal(n, |log|)]
    }

    ghost method Note(n: string, ok: bool)
      modifies this`refusals
      ensures Answered(n, ok, old(refusals))
    {
      if !ok {
        refusals := refusals + [Refusal(n, |log|)];
      }
    }

    /** An uncached read of one pod. */
    method GetPod(n: string, ghost view: View) returns (ok: bool, p: Option<Pod>)
      requires Valid() && ViewOK(W(), view) && n in slots
      modifies this`slots, this`now, this`trace
      ensures Valid() && ViewOK(W(), view) && EvolvesAll(crs, old(slots), slots)
      ensures p == slots[n].server
    {
      Vk(view);
      ok, p := *, slots[n].server;
    }

    /** The pods the CocoonHibernations of the namespace select, by any of the three acceptors. */
    method HibernationPodNames(ghost view: View) returns (ok: bool, names: set<string>)
      requires Valid() && ViewOK(W(), view)
      modifies this`slots, this`now, this`trace
      ensures Valid() && ViewOK(W(), view) && EvolvesAll(crs, old(slots), slots)
      ensures names <= crs
    {
      Vk(view);
      names := *;
      ok, names := *, names * crs;
    }

    /** The owned pods that are not being deleted, in some fixed order. */
    method ListOwnedPods() returns (ok: bool, view: View, names: seq<string>)
      requires Valid()
      modifies this`slots, this`now, this`trace
      ensures Valid() && ViewOK(W(), view) && EvolvesAll(crs, old(slots), slots)
      ensures UnbootedMain(W(), view) && RepinCovered(W(), deeds, view)
      ensures NoDup(names) && forall n :: n in names <==> n in view
      ensures forall n | n in view :: !view[n].terminating
    {
      hide Inv, ViewOK, Recorded, Accountable, UnbootedMain, RepinCovered, EvolvesAll;
      Vk(map[]);
      ghost var mid := W();
      var ages: Ages := *;
      ListedIsKnown(mid, ages);
      ListedUnbooted(mid, ages);
      ListedCovered(mid, ages, deeds, lost);
      view := ListedView(W(), ages);
      Advance(CaughtUp(W(), ages));
      EvolvesAllTransitive(crs, old(slots), mid.slots, slots);
      names := Enumerate(view.Keys);
      ok := *;
    }
  }

  method Enumerate(keys: set<string>) returns (names: seq<string>)
    ensures NoDup(names) && forall n :: n in names <==> n in keys
  {
    names := [];
    var todo := keys;
    while todo != {}
      invariant todo <= keys && NoDup(names)
      invariant forall n :: n in names <==> n in keys && n !in todo
    {
      var n :| n in todo;
      names := names + [n];
      todo := todo - {n};
    }
  }
}
