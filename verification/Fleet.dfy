/** The invariant of the whole cluster, and what a pass knows about the pods it has listed. */
module Fleet {
  import opened World
  import opened Reclaims
  import opened Invariant

  type View = map<string, Pod>
  type Slots = map<string, Slot>

  ghost predicate PinningSet(cs: CocoonSet) {
    && !cs.suspend && cs.hint == ""
    && cs.phase !in {Suspending, Suspended, Waking}
    && cs.record.suspended == [] && cs.record.restore == []
  }

  ghost predicate TogglingSet(cs: CocoonSet, slots: Slots) {
    && cs.nodeName == "" && cs.phase != Migrating
    && (cs.release ==> slots.Keys == {MAIN})   // admission: release needs a set without sub-agents and toolboxes
  }

  ghost predicate SetInv(w: World) {
    && MAIN in w.slots && w.cs.generation >= 1 && RecordOK(w.cs.record) && OnRecord(w.cs)
    && if w.pinning then PinningSet(w.cs) else TogglingSet(w.cs, w.slots)
  }

  /** Slots a CocoonHibernation targets are outside the promise: its own reconciler drives them. */
  ghost predicate Inv(w: World) {
    var holds :=
      && SetInv(w)
      && forall n | n in w.slots && n !in w.crs :: SlotInv(w.pinning, w.cs, n, w.slots[n]) && Imaged(w.cs, w.slots[n]);
    holds
  }

  ghost predicate OneImage(images: set<string>) {
    forall a, b | a in images && b in images :: a == b
  }

  /** Pods and tags carry images the spec has named. */
  ghost predicate Imaged(cs: CocoonSet, s: Slot) {
    && (s.server.Some? ==> Named(cs, s.server.value))
    && (s.tag.Some? ==> s.tag.value.image == "" || s.tag.value.image in cs.images)
  }

  /** What every state of a run promises: the guest state is there, and every tag and every annotation
      a suspend set are on a record that loses nothing when it is written and read back. */
  ghost predicate SafeWorld(w: World) {
    && RecordOK(w.cs.record)
    && forall n | n in w.slots && n !in w.crs ::
         && NoLoss(w.slots[n])
         && (!w.pinning ==> Owed(w.cs, n, w.slots[n]))
  }

  lemma InvIsSafe(w: World)
    requires Inv(w)
    ensures SafeWorld(w)
  {
    forall n | n in w.slots && n !in w.crs
      ensures NoLoss(w.slots[n])
      ensures !w.pinning ==> Owed(w.cs, n, w.slots[n])
    {
      assert SlotInv(w.pinning, w.cs, n, w.slots[n]);
    }
  }

  ghost predicate AllSafe(trace: seq<World>) {
    forall i | 0 <= i < |trace| :: SafeWorld(trace[i])
  }

  /** No state of the trace lost guest state, and the trace ends in the present. */
  ghost predicate Recorded(trace: seq<World>, w: World) {
    AllSafe(trace) && trace != [] && trace[|trace| - 1] == w
  }

  lemma Remember(trace: seq<World>, before: World, w: World)
    requires Recorded(trace, before) && Inv(w)
    ensures Recorded(trace + [w], w)
  {
    InvIsSafe(w);
  }

  /** What a pass knows: of every pod in its list, and of every slot the list shows no pod for. */
  ghost predicate ViewOK(w: World, view: View) {
    var holds :=
      && (forall n | n in view :: n in w.slots && (n !in w.crs ==> Knows(w.pinning, w.cs, view[n], w.slots[n])))
      && (forall n | n in w.slots && n !in w.crs && n !in view :: Absent(w.pinning, w.slots[n]));
    holds
  }

  ghost predicate EvolvesAll(crs: set<string>, a: Slots, b: Slots) {
    a.Keys == b.Keys && forall n | n in a && n !in crs :: Evolves(a[n], b[n])
  }

  lemma EvolvesAllTransitive(crs: set<string>, a: Slots, b: Slots, c: Slots)
    requires EvolvesAll(crs, a, b) && EvolvesAll(crs, b, c)
    ensures EvolvesAll(crs, a, c)
  {
    forall n | n in a && n !in crs
      ensures Evolves(a[n], c[n])
    {
      EvolvesTransitive(a[n], b[n], c[n]);
    }
  }

  lemma ViewStable(w: World, view: View, slots: Slots)
    requires ViewOK(w, view) && EvolvesAll(w.crs, w.slots, slots)
    ensures ViewOK(w.(slots := slots), view)
  {
    hide Knows, Absent, Evolves;
    forall n | n in view && n !in w.crs
      ensures Knows(w.pinning, w.cs, view[n], slots[n])
    {
      KnowsStable(w.pinning, w.cs, view[n], w.slots[n], slots[n]);
    }
    forall n | n in slots && n !in w.crs && n !in view
      ensures Absent(w.pinning, slots[n])
    {
      AbsentStable(w.pinning, w.slots[n], slots[n]);
    }
  }

  lemma ActImaged(cs: CocoonSet, a: VkAction, s: Slot)
    requires Imaged(cs, s)
    ensures Imaged(cs, Act(a, s))
  {}

  lemma InvAt(w: World, n: string)
    requires Inv(w) && n in w.slots && n !in w.crs
    ensures SlotInv(w.pinning, w.cs, n, w.slots[n]) && Imaged(w.cs, w.slots[n])
  {}

  lemma OneSlotInv(w: World, n: string, s: Slot)
    requires Inv(w) && n in w.slots && SlotInv(w.pinning, w.cs, n, s) && Imaged(w.cs, s)
    ensures Inv(w.(slots := w.slots[n := s]))
  {
    hide SlotInv, Imaged;
    assert w.slots[n := s].Keys == w.slots.Keys;
  }

  lemma OneSlotEvolves(w: World, n: string, s: Slot)
    requires n in w.slots && (n in w.crs || Evolves(w.slots[n], s))
    ensures EvolvesAll(w.crs, w.slots, w.slots[n := s])
  {
    assert w.slots[n := s].Keys == w.slots.Keys;
  }

  lemma ScheduledSlot(pinning: bool, cs: CocoonSet, n: string, s: Slot)
    requires SlotInv(pinning, cs, n, s)
    ensures Scheduled(s) && NoLoss(s) && RestoreMarked(s)
  {}

  /** One step outside the operator: on a slot of a CocoonHibernation anything may happen. */
  lemma ActInv(w: World, n: string, a: VkAction)
    requires Inv(w) && n in w.slots && n !in w.crs
    ensures
      var slots := w.slots[n := Act(a, w.slots[n])];
      Inv(w.(slots := slots)) && EvolvesAll(w.crs, w.slots, slots)
  {
    hide Inv, SlotInv, Imaged, Evolves, Act, EvolvesAll, Scheduled;
    InvAt(w, n);
    ScheduledSlot(w.pinning, w.cs, n, w.slots[n]);
    ActKeeps(w.pinning, w.cs, n, a, w.slots[n]);
    ActEvolves(a, w.slots[n]);
    ActImaged(w.cs, a, w.slots[n]);
    OneSlotInv(w, n, Act(a, w.slots[n]));
    OneSlotEvolves(w, n, Act(a, w.slots[n]));
  }

  lemma CrsActInv(w: World, n: string, s: Slot)
    requires Inv(w) && n in w.slots && n in w.crs
    ensures
      var slots := w.slots[n := s];
      Inv(w.(slots := slots)) && EvolvesAll(w.crs, w.slots, slots)
  {
    var slots := w.slots[n := s];
    assert slots.Keys == w.slots.Keys;
    forall m | m in slots && m !in w.crs
      ensures SlotInv(w.pinning, w.cs, m, slots[m]) && Evolves(w.slots[m], slots[m])
    {
      assert slots[m] == w.slots[m];
    }
  }

  ghost predicate MayWrite(w: World, n: string, e: SlotWrite) {
    var holds := n in w.slots && (n !in w.crs ==> May(w.pinning, w.cs, n, e, w.slots[n]));
    holds
  }

  lemma MayWriteStable(w: World, n: string, e: SlotWrite, slots: Slots)
    requires MayWrite(w, n, e) && EvolvesAll(w.crs, w.slots, slots)
    ensures MayWrite(w.(slots := slots), n, e)
  {
    if n !in w.crs {
      MayStable(w.pinning, w.cs, n, e, w.slots[n], slots[n]);
    }
  }

  function After(w: World, n: string, e: SlotWrite): World
    requires n in w.slots && Accepts(e, w.slots[n])
  {
    w.(slots := w.slots[n := Apply(w.cs, e, w.slots[n])])
  }

  lemma WriteImaged(cs: CocoonSet, e: SlotWrite, s: Slot)
    requires Imaged(cs, s) && Accepts(e, s) && OnRecord(cs)
    ensures Imaged(cs, Apply(cs, e, s))
  {}

  lemma WriteInv(w: World, n: string, e: SlotWrite)
    requires Inv(w) && MayWrite(w, n, e) && Accepts(e, w.slots[n])
    ensures Inv(After(w, n, e))
  {
    hide SlotInv, Imaged, Apply, May, Accepts;
    if n !in w.crs {
      WriteKeeps(w.pinning, w.cs, n, e, w.slots[n]);
      WriteImaged(w.cs, e, w.slots[n]);
    }
    assert After(w, n, e).slots.Keys == w.slots.Keys;
  }

  function Losses(crs: set<string>, n: string, e: SlotWrite, cause: Hazard, s: Slot): seq<Hazard> {
    if n !in crs && Forfeits(e, s) && s.claim.Some? then [cause] else []
  }

  predicate IsPatch(e: SlotWrite) {
    e.Stamp? || e.Quiesce? || e.Wake?
  }

  predicate SparesPod(e: SlotWrite) {
    e.Keep? || e.DropTag? || e.DropTagForImage? || e.GiveUp?
  }

  /** A write after which the pass still knows its list: any while lists may be stale, where knowledge
      is kept for good; while pins are edited, those that spare the pod and those that bring a new one. */
  predicate Informed(pinning: bool, crs: set<string>, n: string, e: SlotWrite, view: View) {
    && (e.Create? ==> n !in view) && (IsPatch(e) || DeletesPod(e) ==> n in view || n in crs)
    && (!pinning || SparesPod(e) || e.Create?)
  }

  predicate DeletesPod(e: SlotWrite) {
    e.Delete? || e.DeleteUnbound? || e.Retire?
  }

  lemma KnownAfter(pinning: bool, cs: CocoonSet, n: string, e: SlotWrite, v: Pod, s: Slot)
    requires SlotInv(pinning, cs, n, s) && May(pinning, cs, n, e, s) && Accepts(e, s) && Knows(pinning, cs, v, s)
    requires !e.Create? && (!pinning || SparesPod(e))
    ensures Knows(pinning, cs, v, Apply(cs, e, s))
  {
    if !pinning {
      WriteKnown(cs, n, e, v, s);
      InListAfter(cs, e, s);
    }
  }

  lemma InListAfter(cs: CocoonSet, e: SlotWrite, s: Slot)
    requires InList(s) && Accepts(e, s) && !e.Create?
    ensures InList(Apply(cs, e, s))
  {
    var t := Apply(cs, e, s);
    if Present(t) {
      forall i | 0 <= i < |t.past|
        ensures Here(t.past[i])
      {
        assert t.past[i] == if i < |s.past| then s.past[i] else s.server;
      }
    }
  }

  lemma AbsentAfter(pinning: bool, cs: CocoonSet, e: SlotWrite, s: Slot)
    requires Absent(pinning, s) && Accepts(e, s) && !IsPatch(e) && !DeletesPod(e)
    ensures Absent(pinning, Apply(cs, e, s))
  {}

  lemma ViewAfterWrite(w: World, view: View, n: string, e: SlotWrite)
    requires Inv(w) && ViewOK(w, view) && MayWrite(w, n, e) && Accepts(e, w.slots[n])
    requires Informed(w.pinning, w.crs, n, e, view)
    ensures ViewOK(After(w, n, e), view)
  {
    hide Knows, Absent, SlotInv, May, Apply, Accepts, Imaged;
    if n !in w.crs {
      InvAt(w, n);
      if n in view {
        KnownAfter(w.pinning, w.cs, n, e, view[n], w.slots[n]);
      } else {
        AbsentAfter(w.pinning, w.cs, e, w.slots[n]);
      }
    }
  }

  lemma KnownPatched(pinning: bool, cs: CocoonSet, n: string, e: SlotWrite, v: Pod, s: Slot)
    requires SlotInv(pinning, cs, n, s) && May(pinning, cs, n, e, s) && Accepts(e, s) && Knows(pinning, cs, v, s)
    requires IsPatch(e) && OnRecord(cs)
    ensures Apply(cs, e, s).server.Some? && Knows(pinning, cs, Apply(cs, e, s).server.value, Apply(cs, e, s))
  {
    if !pinning {
      WrittenKnown(cs, n, e, s);
      InListAfter(cs, e, s);
    }
  }

  lemma ViewAfterPatch(w: World, view: View, n: string, e: SlotWrite)
    requires Inv(w) && ViewOK(w, view) && MayWrite(w, n, e) && Accepts(e, w.slots[n])
    requires IsPatch(e) && n in view
    ensures After(w, n, e).slots[n].server.Some?
    ensures ViewOK(After(w, n, e), view[n := After(w, n, e).slots[n].server.value])
  {
    hide Knows, Absent, SlotInv, May, Imaged;
    if n !in w.crs {
      InvAt(w, n);
      KnownPatched(w.pinning, w.cs, n, e, view[n], w.slots[n]);
    }
  }

  lemma ViewAfterDelete(w: World, view: View, n: string, e: SlotWrite)
    requires Inv(w) && ViewOK(w, view) && MayWrite(w, n, e) && Accepts(e, w.slots[n]) && w.pinning && DeletesPod(e)
    ensures ViewOK(After(w, n, e), view - {n})
  {
    hide Knows, SlotInv, May;
  }

  /** The pods of both lists were built alike. */
  ghost predicate SameBuild(crs: set<string>, a: View, b: View) {
    a.Keys == b.Keys && forall n | n in a && n !in crs :: a[n].image == b[n].image && a[n].shape == b[n].shape
  }

  /** A patch answers with the pod it was sent for. */
  lemma PatchedAlike(w: World, view: View, n: string, before: Slots, e: SlotWrite, p: Option<Pod>)
    requires ViewOK(w, view) && n in view && n in before && EvolvesAll(w.crs, w.slots, before)
    requires IsPatch(e) && Accepts(e, before[n]) && p == Apply(w.cs, e, before[n]).server
    ensures p.Some? && SameBuild(w.crs, view, view[n := p.value])
  {
    if n !in w.crs {
      assert Knows(w.pinning, w.cs, view[n], w.slots[n]) && Evolves(w.slots[n], before[n]);
    }
  }

  lemma SameItself(crs: set<string>, view: View)
    ensures SameBuild(crs, view, view)
  {}

  lemma SameBuildOn(crs: set<string>, a: View, b: View, c: View)
    requires SameBuild(crs, a, b) && SameBuild(crs, b, c)
    ensures SameBuild(crs, a, c)
  {
    assert forall n :: n in a <==> n in a.Keys;
    assert forall n :: n in b <==> n in b.Keys;
  }

  ghost predicate ViewAfter(w: World, view: View, n: string, e: SlotWrite, w': World)
    requires n in w'.slots
  {
    && (Informed(w.pinning, w.crs, n, e, view) ==> ViewOK(w', view))
    && (w.pinning && DeletesPod(e) ==> ViewOK(w', view - {n}))
    && (IsPatch(e) && n in view ==>
          w'.slots[n].server.Some? && ViewOK(w', view[n := w'.slots[n].server.value]))
  }

  lemma WriteLands(w: World, view: View, n: string, e: SlotWrite)
    requires Inv(w) && ViewOK(w, view) && MayWrite(w, n, e) && n in w.slots && Accepts(e, w.slots[n])
    ensures Inv(After(w, n, e)) && ViewAfter(w, view, n, e, After(w, n, e))
  {
    hide Inv, ViewOK, MayWrite, After, Accepts;
    WriteInv(w, n, e);
    AfterSlots(w, n, e);
    if Informed(w.pinning, w.crs, n, e, view) {
      ViewAfterWrite(w, view, n, e);
    }
    if w.pinning && DeletesPod(e) {
      ViewAfterDelete(w, view, n, e);
    }
    if IsPatch(e) && n in view {
      ViewAfterPatch(w, view, n, e);
    }
  }

  lemma AfterSlots(w: World, n: string, e: SlotWrite)
    requires n in w.slots && Accepts(e, w.slots[n])
    ensures After(w, n, e).slots.Keys == w.slots.Keys
  {}

  /** The set may become `next` without breaking any slot. */
  ghost predicate MayBecome(w: World, next: CocoonSet) {
    && SameSpec(w.cs, next)
    && SetInv(w.(cs := next))
    && forall n | n in w.slots && n !in w.crs :: MayFollow(w.pinning, next, n, w.slots[n])
  }

  lemma MayBecomeStable(w: World, next: CocoonSet, slots: Slots)
    requires MayBecome(w, next) && EvolvesAll(w.crs, w.slots, slots)
    ensures MayBecome(w.(slots := slots), next)
  {
    forall n | n in slots && n !in w.crs
      ensures MayFollow(w.pinning, next, n, slots[n])
    {
      MayFollowStable(w.pinning, next, n, w.slots[n], slots[n]);
    }
  }

  lemma SetInvariant(w: World, next: CocoonSet, view: View)
    requires Inv(w) && MayBecome(w, next) && ViewOK(w, view)
    ensures Inv(w.(cs := next)) && ViewOK(w.(cs := next), view)
  {
    hide SlotInv, MayFollow;
    forall n | n in w.slots && n !in w.crs
      ensures SlotInv(w.pinning, next, n, w.slots[n]) && Imaged(next, w.slots[n])
    {
      FollowKeeps(w.pinning, w.cs, next, n, w.slots[n]);
    }
  }

  // ---- listing the owned pods ----

  /** Where in the older versions a list may be: nowhere before the last version listed, and, while
      pins are edited, nowhere before the operator's last write to the pod. */
  function Position(pinning: bool, s: Slot, k: nat): nat {
    if pinning && k < s.own then s.own else k
  }

  /** The version a list returns. */
  function Listed(pinning: bool, s: Slot, k: nat): Option<Pod> {
    var at := Position(pinning, s, k);
    if at < |s.past| then s.past[at] else s.server
  }

  function Caught(pinning: bool, s: Slot, k: nat): Slot {
    var at := Position(pinning, s, k);
    if at < |s.past| then s.(past := s.past[at..], own := if s.own < at then 0 else s.own - at) else s.(past := [], own := 0)
  }

  lemma CaughtEvolves(pinning: bool, s: Slot, k: nat)
    requires Scheduled(s)
    ensures Evolves(s, Caught(pinning, s, k))
  {}

  lemma CaughtInSight(s: Slot, k: nat)
    requires InSight(s)
    ensures
      var v, t := Listed(false, s, k), Caught(false, s, k);
      InSight(t) && if Here(v) then InList(t) else Absent(false, t)
  {}

  lemma CaughtToggling(cs: CocoonSet, n: string, s: Slot, k: nat)
    requires TogglingSlot(cs, n, s)
    ensures TogglingSlot(cs, n, Caught(false, s, k))
    ensures
      var v, t := Listed(false, s, k), Caught(false, s, k);
      && (Here(v) ==> KnowsToggling(cs, v.value, t))
      && (if Here(v) then InList(t) else Absent(false, t))
  {
    hide InSight, InList, Absent;
    var t := Caught(false, s, k);
    CaughtInSight(s, k);
    CaughtEvolves(false, s, k);
    if k < |s.past| {
      forall i | k <= i < |s.past| && Here(s.past[i])
        ensures KnowsToggling(cs, s.past[i].value, t)
      {
        KnowsTogglingStable(cs, s.past[i].value, s, t);
      }
      CaughtPast(cs, s, k);
    }
    if s.server.Some? {
      KnowsTogglingStable(cs, s.server.value, s, t);
    }
  }

  lemma CaughtPast(cs: CocoonSet, s: Slot, k: nat)
    requires k < |s.past|
    requires forall i | k <= i < |s.past| && Here(s.past[i]) :: KnowsToggling(cs, s.past[i].value, Caught(false, s, k))
    ensures
      var t := Caught(false, s, k);
      forall i | 0 <= i < |t.past| && Here(t.past[i]) :: KnowsToggling(cs, t.past[i].value, t)
  {
    hide KnowsToggling;
    var t := Caught(false, s, k);
    assert forall i | 0 <= i < |t.past| :: t.past[i] == s.past[k + i];
  }

  lemma SinceOwnWriteCaught(cs: CocoonSet, s: Slot, k: nat)
    requires SinceOwnWrite(cs, s) && Scheduled(s)
    ensures SinceOwnWrite(cs, Caught(true, s, k))
    ensures
      var v, t := Listed(true, s, k), Caught(true, s, k);
      if Here(v) then KnowsPinning(cs, v.value, t) && (v.value.node != "" ==> !Roaming(t)) else Absent(true, t)
    ensures Roaming(Caught(true, s, k)) ==> Roaming(s)
    ensures Here(Listed(true, s, k)) && Listed(true, s, k).value.node == "" ==> Roaming(s)
  {
    var v, t, at := Listed(true, s, k), Caught(true, s, k), Position(true, s, k);
    CaughtEvolves(true, s, k);
    if at < |s.past| {
      assert forall i | 0 <= i < |t.past| :: t.past[i] == s.past[at + i];
      forall i | t.own <= i < |t.past|
        ensures if Here(t.past[i]) then KnowsPinning(cs, t.past[i].value, t) else Gone(t)
      {
        if Here(t.past[i]) {
          KnowsPinningStable(cs, t.past[i].value, s, t);
        }
      }
      if Here(v) {
        KnowsPinningStable(cs, v.value, s, t);
      }
    } else if Here(v) {
      ItselfKnown(cs, t);
    }
  }

  lemma CaughtPinning(cs: CocoonSet, n: string, s: Slot, k: nat)
    requires SlotInv(true, cs, n, s) && Imaged(cs, s)
    ensures SlotInv(true, cs, n, Caught(true, s, k))
    ensures
      var v, t := Listed(true, s, k), Caught(true, s, k);
      if Here(v) then KnowsPinning(cs, v.value, t) && (v.value.node != "" ==> !Roaming(t)) else Absent(true, t)
  {
    hide SinceOwnWrite, Roaming, KnowsPinning, Absent;
    ScheduledSlot(true, cs, n, s);
    SinceOwnWriteCaught(cs, s, k);
  }

  lemma ListingKeeps(w: World, n: string, k: nat)
    requires Inv(w) && n in w.slots && n !in w.crs
    ensures SlotInv(w.pinning, w.cs, n, Caught(w.pinning, w.slots[n], k)) && Imaged(w.cs, Caught(w.pinning, w.slots[n], k))
    ensures Evolves(w.slots[n], Caught(w.pinning, w.slots[n], k))
    ensures
      var v, t := Listed(w.pinning, w.slots[n], k), Caught(w.pinning, w.slots[n], k);
      if Here(v) then Knows(w.pinning, w.cs, v.value, t) else Absent(w.pinning, t)
  {
    hide Inv, TogglingSlot, KnowsToggling, KnowsPinning, Evolves, Scheduled, NoLoss, RestoreMarked, PinningMain, PinningOther;
    hide Absent, InList;
    InvAt(w, n);
    ScheduledSlot(w.pinning, w.cs, n, w.slots[n]);
    CaughtEvolves(w.pinning, w.slots[n], k);
    if w.pinning {
      CaughtPinning(w.cs, n, w.slots[n], k);
    } else {
      CaughtToggling(w.cs, n, w.slots[n], k);
    }
  }

  type Ages = map<string, nat>

  function Age(ages: Ages, n: string): nat {
    if n in ages then ages[n] else 0
  }

  function CaughtUp(w: World, ages: Ages): Slots {
    map n | n in w.slots :: Caught(w.pinning, w.slots[n], Age(ages, n))
  }

  function ListedView(w: World, ages: Ages): View {
    map n | n in w.slots && Here(Listed(w.pinning, w.slots[n], Age(ages, n)))
      :: Listed(w.pinning, w.slots[n], Age(ages, n)).value
  }

  /** However old the versions a list returns are, acting on them starts from sound knowledge. */
  lemma ListedIsKnown(w: World, ages: Ages)
    requires Inv(w)
    ensures
      var w' := w.(slots := CaughtUp(w, ages));
      Inv(w') && EvolvesAll(w.crs, w.slots, w'.slots) && ViewOK(w', ListedView(w, ages))
  {
    hide SlotInv, Imaged, Knows, Absent, Evolves, Caught, Listed;
    var slots := CaughtUp(w, ages);
    assert slots.Keys == w.slots.Keys;
    forall n | n in w.slots && n !in w.crs
      ensures SlotInv(w.pinning, w.cs, n, slots[n]) && Imaged(w.cs, slots[n]) && Evolves(w.slots[n], slots[n])
      ensures if n in ListedView(w, ages) then Knows(w.pinning, w.cs, ListedView(w, ages)[n], slots[n])
              else Absent(w.pinning, slots[n])
    {
      ListingKeeps(w, n, Age(ages, n));
    }
  }

  /** A main listed unbound has not booted, unless the migration is under way. */
  ghost predicate UnbootedMain(w: World, view: View) {
    w.pinning && MAIN !in w.crs && MAIN in view && view[MAIN].node == "" ==>
      MAIN in w.slots && Unbooted(w.cs, w.slots[MAIN])
  }

  lemma ListedUnbooted(w: World, ages: Ages)
    requires Inv(w)
    ensures UnbootedMain(w.(slots := CaughtUp(w, ages)), ListedView(w, ages))
  {
    if MAIN !in w.crs {
      assert SlotInv(w.pinning, w.cs, MAIN, w.slots[MAIN]);
    }
  }
}
