/** The inductive invariants behind the no-loss theorems, one slot at a time, in two scopes.
    Pinning: spec.nodeName is edited at will, the set is never suspended, and a pass may list stale pods,
    though none older than the operator's own last write to it.
    Toggling: spec.suspend and spec.hibernatePolicy are edited at will, nothing is pinned, and a
    pass may list stale pods, though never older than the ones an earlier pass listed. */
module Invariant {
  import opened World

  const MAIN := "main"

  ghost predicate HibernationAsked(s: Slot) {
    Present(s) && s.server.value.hibernate
  }

  /** A booting pod of a VM that already has state will restore it. */
  ghost predicate RestoreMarked(s: Slot) {
    s.claim.Some? && Present(s) && s.server.value.vm == Booting ==> s.server.value.restore
  }

  ghost predicate Scheduled(s: Slot) {
    && (s.server.Some? ==>
          && (s.server.value.vm != Booting ==> s.server.value.node != "")
          && (s.server.value.terminal ==> s.server.value.vm == Booting)
          && (IsFailed(s.server.value) ==> s.excused))
    && (s.excused ==> s.claim.None?)
  }

  // ---- Toggling ----

  /** What an old version `v` of a slot's pod still says about the pod the API server has. Versions
      stamped at the current generation are the only ones a pass acts on. */
  ghost predicate KnowsWhileSuspended(cs: CocoonSet, v: Pod, s: Slot) {
    && (v.state == Hibernated && v.observed == cs.generation ==> v.hibernate && (v.vm == Frozen || v.terminal))
    && (v.stamp == cs.generation && v.hibernate && !v.terminating ==>
          || (cs.release && Gone(s))
          || (&& Present(s) && s.server.value.hibernate && s.server.value.stamp == cs.generation
              && (v.vm == Frozen ==> s.server.value.vm == Frozen || s.server.value.terminal)
              && (v.terminal ==> s.server.value.terminal)))
    && (v.stamp == cs.generation && v.terminating ==> if cs.release then Gone(s) else v.observed < cs.generation)
  }

  /** The rebuild budget has deleted the pod, and nothing is owed of it. */
  ghost predicate Rebuilt(s: Slot) {
    Gone(s) && s.excused
  }

  ghost predicate KnowsWhileRunning(cs: CocoonSet, v: Pod, s: Slot) {
    && (v.stamp == cs.generation && !v.terminating ==>
          || Rebuilt(s)
          || (&& Present(s) && s.server.value.stamp == cs.generation
              && (!v.hibernate ==>
                    && !s.server.value.hibernate
                    && (v.vm == Live ==> s.server.value.vm == Live || s.server.value.terminal))))
    && (v.stamp == cs.generation && v.terminating && IsFailed(v) && Gone(s) ==> s.claim.None?)
  }

  /** The pod was built from what the spec asked for at some time. */
  predicate Named(cs: CocoonSet, v: Pod) {
    v.image in cs.images && v.shape in cs.shapes
  }

  predicate OnRecord(cs: CocoonSet) {
    cs.image in cs.images && cs.shape in cs.shapes
  }

  /** What is left of the pod was built as `v` was. */
  predicate Kin(v: Pod, s: Slot) {
    s.server.Some? ==> s.server.value.image == v.image && s.server.value.shape == v.shape
  }

  ghost predicate KnowsToggling(cs: CocoonSet, v: Pod, s: Slot) {
    && Named(cs, v) && Kin(v, s)
    && v.pin == "" && v.stamp <= cs.generation && v.observed <= v.stamp
    && (v.vm != Booting ==> v.node != "") && (v.terminating && v.vm == Live ==> Rebuilt(s))
    && (v.terminal ==> v.vm == Booting) && (v.terminating ==> Gone(s))
    && (!v.terminating && IsFailed(v) ==> s.excused)
    && (if cs.suspend then KnowsWhileSuspended(cs, v, s) else KnowsWhileRunning(cs, v, s))
  }

  /** A released main is remembered by the phase, or by the reclaim record. */
  ghost predicate Tracked(cs: CocoonSet, n: string) {
    cs.phase in {Suspending, Suspended, Waking} || n in cs.record.suspended || n in cs.record.restore
  }

  /** The write-ahead debt: every tag, and every VM asked to hibernate, is in the reclaim record. */
  ghost predicate Owed(cs: CocoonSet, n: string, s: Slot) {
    HibernationAsked(s) || s.tag.Some? ==> n in cs.record.vms
  }

  /** A list that returns this version shows the pod. */
  predicate Here(v: Option<Pod>) {
    v.Some? && !v.value.terminating
  }

  /** Whatever version a list may still return, it shows the pod. */
  ghost predicate Unmissable(s: Slot) {
    Present(s) && forall i | 0 <= i < |s.past| :: Here(s.past[i])
  }

  /** Whatever version a list may still return, it does not show a pod. */
  ghost predicate Unseen(s: Slot) {
    Gone(s) && forall i | 0 <= i < |s.past| :: !Here(s.past[i])
  }

  /** A pod that is there was absent, then there; one that is gone was there, then absent. No list
      returns to a pod that an earlier pass has replaced. */
  ghost predicate Ordered(s: Slot) {
    if Present(s) then forall i, j | 0 <= i < j < |s.past| && Here(s.past[i]) :: Here(s.past[j])
    else forall i, j | 0 <= i < j < |s.past| && Here(s.past[j]) :: Here(s.past[i])
  }

  /** A VM that hibernates, or was asked to, is in every list. */
  ghost predicate InSight(s: Slot) {
    && Ordered(s)
    && (HibernationAsked(s) || (Present(s) && s.server.value.vm == Frozen) ==> Unmissable(s))
  }

  /** Any generation at which a suspend set the annotation of a recorded VM is below the record's
      generation, unless the VM is still listed as suspended. */
  ghost predicate GenerationAhead(cs: CocoonSet, n: string, s: Slot) {
    && s.quiesced <= cs.generation && (!cs.suspend ==> s.quiesced < cs.generation)
    && (n in cs.record.vms ==> n in cs.record.suspended || s.quiesced < cs.record.generation)
  }

  ghost predicate TogglingSlot(cs: CocoonSet, n: string, s: Slot) {
    && (forall i | 0 <= i < |s.past| && Here(s.past[i]) :: KnowsToggling(cs, s.past[i].value, s))
    && (s.server.Some? ==> KnowsToggling(cs, s.server.value, s))
    && NoLoss(s) && RestoreMarked(s) && Scheduled(s)
    && (s.claim.Some? && Gone(s) ==> n == MAIN && cs.hint != "" && Tracked(cs, n))
    && (s.claim.Some? && n != MAIN ==> Present(s) && s.server.value.vm != Booting)
    && Owed(cs, n, s)
    && GenerationAhead(cs, n, s)
    && InSight(s)
    && (s.server.Some? && s.server.value.terminating ==> n in cs.stash || s.excused)   // teardown must find its tag
  }

  // ---- Pinning ----

  /** A version no older than the operator's last write to the pod shows it unbound. */
  ghost predicate Roaming(s: Slot) {
    || (Present(s) && s.server.value.node == "")
    || exists i | s.own <= i < |s.past| :: Here(s.past[i]) && s.past[i].value.node == ""
  }

  /** Nothing that an unbound pod does not tell is at stake. */
  ghost predicate Calm(s: Slot) {
    Gone(s) || s.excused || (!s.server.value.hibernate && (s.claim.None? || Underway(s.server.value)))
  }

  /** What the versions since the operator's last write tell: the pod, or that it is gone; and once it
      is bound it stays bound. */
  ghost predicate SinceOwnWrite(cs: CocoonSet, s: Slot) {
    && (s.server.Some? ==> Named(cs, s.server.value))
    && (forall i | s.own <= i < |s.past| && Here(s.past[i]) :: KnowsPinning(cs, s.past[i].value, s))
    && (forall i | s.own <= i < |s.past| && !Here(s.past[i]) :: Gone(s))
    && (forall i, j | s.own <= i <= j < |s.past| && Here(s.past[i]) && Here(s.past[j]) && s.past[i].value.node != "" ::
          s.past[j].value.node != "")
  }

  ghost predicate KnowsPinning(cs: CocoonSet, v: Pod, s: Slot) {
    && Named(cs, v) && Kin(v, s)
    && !v.terminating && Present(s)
    && s.server.value.hibernate == v.hibernate && s.server.value.pin == v.pin && s.server.value.restore == v.restore
    && (v.node != "" ==> s.server.value.node == v.node)
    && (v.terminal ==> s.server.value.terminal && v.vm == Booting)
    && (IsFailed(v) ==> s.excused)
    && (v.vm == Live && !v.hibernate ==> s.server.value.vm == Live || s.server.value.terminal)
    && (v.vm != Booting ==> v.node != "")
  }

  /** A VM with state has a pod with a node, and a list that still shows it unbound hides nothing. */
  ghost predicate Settled(s: Slot) {
    && (s.claim.Some? ==> Present(s) && s.server.value.node != "")
    && (Roaming(s) ==> Calm(s))
  }

  ghost predicate PinningMain(cs: CocoonSet, s: Slot) {
    && NoLoss(s) && RestoreMarked(s) && Scheduled(s)
    && (Present(s) && s.server.value.hibernate ==> cs.phase == Migrating || s.excused)
    && (Present(s) && s.server.value.hibernate && s.tag.Some? && !s.excused ==> s.server.value.vm == Frozen)
    && (!Settled(s) ==> cs.phase == Migrating)
    && (HibernationAsked(s) ==> !Roaming(s))
    && SinceOwnWrite(cs, s)
  }

  ghost predicate PinningOther(cs: CocoonSet, s: Slot) {
    && SinceOwnWrite(cs, s)
    && NoLoss(s) && RestoreMarked(s) && Scheduled(s) && !HibernationAsked(s) && s.tag.None?
    && (s.server.Some? && s.server.value.terminating ==> s.excused)
  }

  // ---- both ----

  ghost predicate SlotInv(pinning: bool, cs: CocoonSet, n: string, s: Slot) {
    if !pinning then TogglingSlot(cs, n, s)
    else if n == MAIN then PinningMain(cs, s)
    else PinningOther(cs, s)
  }

  ghost predicate Knows(pinning: bool, cs: CocoonSet, v: Pod, s: Slot) {
    if pinning then KnowsPinning(cs, v, s) && (v.node != "" ==> !Roaming(s)) else KnowsToggling(cs, v, s) && InList(s)
  }

  /** A pod in the list stays in every later one until it is deleted. */
  ghost predicate InList(s: Slot) {
    Present(s) ==> Unmissable(s)
  }

  /** What a list that does not show a slot's pod tells about it. */
  ghost predicate Absent(pinning: bool, s: Slot) {
    && !HibernationAsked(s)
    && (!pinning ==> if Gone(s) then Unseen(s) else s.server.value.vm != Frozen)
  }

  /** What vk-cocoon, the scheduler and the guest cannot undo, however many steps they take. */
  ghost predicate Evolves(s: Slot, t: Slot) {
    && (Gone(s) ==>
          && (t.server.None? || t.server == s.server)
          && t.tag == s.tag && t.claim == s.claim && t.excused == s.excused)
    && (Present(s) ==> SamePod(s.server.value, t))
    && (t.tag != s.tag ==> Present(s) && s.server.value.hibernate)
    && (s.tag.Some? ==> t.tag.Some?)
    && (s.claim.None? && t.claim.Some? ==> Present(t) && Underway(t.server.value))
    && (s.excused ==> t.excused) && t.quiesced == s.quiesced
    && (Unmissable(s) ==> Unmissable(t)) && (Unseen(s) ==> Unseen(t))
    && (Roaming(t) ==> Roaming(s))
  }

  /** The pod is bound and has booted, unless it was asked to hibernate or has terminated since. */
  ghost predicate Underway(p: Pod) {
    p.node != "" && (p.vm == Live || p.hibernate || p.terminal)
  }

  ghost predicate SamePod(p: Pod, t: Slot) {
    && Present(t)
    && var q := t.server.value;
    && q.hibernate == p.hibernate && q.stamp == p.stamp && q.restore == p.restore && q.pin == p.pin
    && (p.node != "" ==> q.node == p.node) && (p.terminal ==> q.terminal)
    && (p.vm == Live && !p.hibernate ==> q.vm == Live || q.terminal)
    && (p.vm == Frozen && p.hibernate ==> q.vm == Frozen || q.terminal)
    && (p.vm != Frozen && !p.hibernate ==> q.vm != Frozen)
    && q.image == p.image && q.shape == p.shape
  }

  lemma EvolvesTransitive(s: Slot, t: Slot, u: Slot)
    requires Evolves(s, t) && Evolves(t, u)
    ensures Evolves(s, u)
  {}

  lemma BootEvolves(s: Slot)
    requires Scheduled(s)
    ensures Evolves(s, Act(Boot, s))
  {}

  lemma GuestStepEvolves(a: VkAction, s: Slot)
    requires Scheduled(s) && (a.Work? || a.Freeze? || a.Thaw?)
    ensures Evolves(s, Act(a, s))
  {}

  lemma PodStepEvolves(a: VkAction, s: Slot)
    requires Scheduled(s) && !a.Boot? && !a.Work? && !a.Freeze? && !a.Thaw?
    ensures Evolves(s, Act(a, s))
  {}

  lemma ActEvolves(a: VkAction, s: Slot)
    requires Scheduled(s)
    ensures Evolves(s, Act(a, s))
  {
    hide Act, Evolves, Scheduled;
    if a.Boot? {
      BootEvolves(s);
    } else if a.Work? || a.Freeze? || a.Thaw? {
      GuestStepEvolves(a, s);
    } else {
      PodStepEvolves(a, s);
    }
  }

  lemma KnowsTogglingStable(cs: CocoonSet, v: Pod, s: Slot, t: Slot)
    requires KnowsToggling(cs, v, s) && Evolves(s, t)
    ensures KnowsToggling(cs, v, t)
  {}

  lemma AbsentStable(pinning: bool, s: Slot, t: Slot)
    requires Absent(pinning, s) && Evolves(s, t)
    ensures Absent(pinning, t)
  {}

  lemma KnowsStable(pinning: bool, cs: CocoonSet, v: Pod, s: Slot, t: Slot)
    requires Knows(pinning, cs, v, s) && Evolves(s, t)
    ensures Knows(pinning, cs, v, t)
  {}

  lemma NewVersionKnown(cs: CocoonSet, a: VkAction, s: Slot)
    requires s.server.Some? && KnowsToggling(cs, s.server.value, s) && Scheduled(s)
    ensures var t := Act(a, s); t.server.Some? ==> KnowsToggling(cs, t.server.value, t)
  {}

  lemma PastKnown(cs: CocoonSet, n: string, s: Slot, t: Slot)
    requires TogglingSlot(cs, n, s) && Evolves(s, t)
    requires t.past == s.past || t.past == s.past + [s.server]
    ensures forall i | 0 <= i < |t.past| && Here(t.past[i]) :: KnowsToggling(cs, t.past[i].value, t)
  {
    forall i | 0 <= i < |t.past| && Here(t.past[i])
      ensures KnowsToggling(cs, t.past[i].value, t)
    {
      assert t.past[i] == if i < |s.past| then s.past[i] else s.server;
      KnowsTogglingStable(cs, t.past[i].value, s, t);
    }
  }

  lemma ActInSight(a: VkAction, s: Slot)
    requires InSight(s)
    ensures InSight(Act(a, s))
  {}

  lemma TogglingActKeeps(cs: CocoonSet, n: string, a: VkAction, s: Slot)
    requires TogglingSlot(cs, n, s)
    ensures TogglingSlot(cs, n, Act(a, s))
  {
    hide InSight, KnowsToggling;
    var t := Act(a, s);
    ActEvolves(a, s);
    PastKnown(cs, n, s, t);
    if s.server.Some? {
      NewVersionKnown(cs, a, s);
    }
    GuestKept(a, s);
    ActInSight(a, s);
  }

  /** One step of the world keeps the guest state, provided a pod of a VM with state is restore-marked. */
  lemma GuestKept(a: VkAction, s: Slot)
    requires NoLoss(s) && RestoreMarked(s) && Scheduled(s)
    ensures var t := Act(a, s); NoLoss(t) && RestoreMarked(t) && Scheduled(t)
  {}

  lemma ActGrows(a: VkAction, s: Slot)
    ensures var t := Act(a, s); t.own == s.own && (t.past == s.past || t.past == s.past + [s.server])
    ensures s.server.Some? && Act(a, s).server.Some? ==>
      Act(a, s).server.value.image == s.server.value.image && Act(a, s).server.value.shape == s.server.value.shape
    ensures s.server.None? ==> Act(a, s) == s
  {}

  lemma SinceOwnWriteActs(cs: CocoonSet, a: VkAction, s: Slot)
    requires SinceOwnWrite(cs, s) && Scheduled(s)
    ensures SinceOwnWrite(cs, Act(a, s))
  {
    hide Act, Scheduled, KnowsPinning, Evolves;
    var t := Act(a, s);
    ActEvolves(a, s);
    ActGrows(a, s);
    if Here(s.server) {
      ItselfKnown(cs, s);
    }
    forall i | t.own <= i < |t.past|
      ensures if Here(t.past[i]) then KnowsPinning(cs, t.past[i].value, t) else Gone(t)
    {
      assert t.past[i] == if i < |s.past| then s.past[i] else s.server;
      if Here(t.past[i]) {
        KnowsPinningStable(cs, t.past[i].value, s, t);
      } else {
        GoneStays(s, t);
      }
    }
    BoundStays(cs, s, t);
  }

  lemma GoneStays(s: Slot, t: Slot)
    requires Evolves(s, t)
    ensures Gone(s) ==> Gone(t)
  {}

  lemma BoundStays(cs: CocoonSet, s: Slot, t: Slot)
    requires SinceOwnWrite(cs, s) && t.own == s.own && (t.past == s.past || t.past == s.past + [s.server])
    ensures forall i, j | t.own <= i <= j < |t.past| && Here(t.past[i]) && Here(t.past[j]) && t.past[i].value.node != "" ::
              t.past[j].value.node != ""
  {
    forall i, j | t.own <= i <= j < |t.past| && Here(t.past[i]) && Here(t.past[j]) && t.past[i].value.node != ""
      ensures t.past[j].value.node != ""
    {
      assert i < |s.past| ==> t.past[i] == s.past[i];
      assert t.past[j] == if j < |s.past| then s.past[j] else s.server;
    }
  }

  lemma ItselfKnown(cs: CocoonSet, s: Slot)
    requires Here(s.server) && Scheduled(s) && Named(cs, s.server.value)
    ensures KnowsPinning(cs, s.server.value, s)
  {}

  lemma KnowsPinningStable(cs: CocoonSet, v: Pod, s: Slot, t: Slot)
    requires KnowsPinning(cs, v, s) && Evolves(s, t)
    ensures KnowsPinning(cs, v, t)
  {}

  lemma SettledStable(s: Slot, t: Slot)
    requires Settled(s) && Evolves(s, t)
    ensures Settled(t)
  {}

  lemma PinningActKeeps(cs: CocoonSet, a: VkAction, s: Slot)
    requires PinningMain(cs, s)
    ensures PinningMain(cs, Act(a, s))
  {
    hide SinceOwnWrite, Settled, Roaming;
    GuestKept(a, s);
    ActEvolves(a, s);
    SinceOwnWriteActs(cs, a, s);
    if Settled(s) {
      SettledStable(s, Act(a, s));
    }
  }

  /** No step of vk-cocoon, the scheduler or the guest breaks the invariant of a slot. */
  lemma ActKeeps(pinning: bool, cs: CocoonSet, n: string, a: VkAction, s: Slot)
    requires SlotInv(pinning, cs, n, s)
    ensures SlotInv(pinning, cs, n, Act(a, s))
  {
    if !pinning {
      TogglingActKeeps(cs, n, a, s);
    } else if n == MAIN {
      PinningActKeeps(cs, a, s);
    } else {
      GuestKept(a, s);
      SinceOwnWriteActs(cs, a, s);
    }
  }

  // ---- the writes of the operator ----

  /** The guest runs and nothing asks it to hibernate, or the kubelet has already given the pod up. */
  ghost predicate Awake(s: Slot) {
    && Present(s) && !s.server.value.hibernate
    && (s.server.value.vm == Live || s.server.value.terminal)
  }

  /** Deleting the pod loses nothing: its memory is in the tag. */
  ghost predicate Asleep(s: Slot) {
    Present(s) ==> s.server.value.hibernate && (s.server.value.vm == Frozen || s.server.value.terminal)
  }

  /** A pod seen unbound has no VM whose state sits in a tag alone, unless the migration knows. */
  ghost predicate Unbooted(cs: CocoonSet, s: Slot) {
    cs.phase == Migrating || Calm(s)
  }

  ghost predicate MayCreate(cs: CocoonSet, restore: bool, fork: bool, s: Slot) {
    Gone(s) ==>
      && (s.claim.Some? ==> restore)
      && (fork && s.tag.Some? ==> restore)
      && (restore ==> s.tag.Some?)
      && !ImageConflict(s.tag, cs.image)
  }

  /** The condition under which each write is safe. Every conjunct survives the steps of the world
      (MayStable), so a pass may establish it long before the write lands. */
  ghost predicate May(pinning: bool, cs: CocoonSet, n: string, e: SlotWrite, s: Slot) {
    match e
    case Stamp => true
    case Quiesce =>
      if pinning then n == MAIN && cs.phase == Migrating && s.tag.None? && !HibernationAsked(s) && !Roaming(s)
      else cs.suspend && n in cs.record.vms && n in cs.record.suspended && InList(s)
    case Wake => pinning || !cs.suspend
    case Keep => true
    case Delete =>
      if pinning then n == MAIN && (Present(s) ==> s.server.value.hibernate && s.tag.Some?)
      else && n == MAIN && cs.suspend && cs.release && Asleep(s) && InList(s)
           && cs.hint != "" && n in cs.record.suspended && n in cs.record.vms && n in cs.stash
    case DeleteUnbound => pinning && n == MAIN && Unbooted(cs, s)
    case Create(pin, restore, fork) =>
      && MayCreate(cs, restore, fork, s)
      && Absent(pinning, s)
      && (if pinning then n == MAIN ==> pin == cs.nodeName else pin == "" && !(cs.suspend && cs.release))
    case Retire => pinning || (!cs.suspend && InList(s))
    case DropTag => true
    case DropTagForImage => !HibernationAsked(s)
    case GiveUp => true
  }

  lemma MayStable(pinning: bool, cs: CocoonSet, n: string, e: SlotWrite, s: Slot, t: Slot)
    requires May(pinning, cs, n, e, s) && Evolves(s, t)
    ensures May(pinning, cs, n, e, t)
  {}

  lemma WriteKnown(cs: CocoonSet, n: string, e: SlotWrite, v: Pod, s: Slot)
    requires TogglingSlot(cs, n, s) && May(false, cs, n, e, s) && Accepts(e, s) && !e.Create?
    requires KnowsToggling(cs, v, s)
    ensures KnowsToggling(cs, v, Apply(cs, e, s))
  {}

  lemma WrittenKnown(cs: CocoonSet, n: string, e: SlotWrite, s: Slot)
    requires TogglingSlot(cs, n, s) && May(false, cs, n, e, s) && Accepts(e, s) && OnRecord(cs)
    ensures var t := Apply(cs, e, s); t.server.Some? ==> KnowsToggling(cs, t.server.value, t)
  {}

  lemma CreateSeesNothing(cs: CocoonSet, n: string, e: SlotWrite, s: Slot)
    requires e.Create? && May(false, cs, n, e, s) && Accepts(e, s)
    ensures var t := Apply(cs, e, s); forall i | 0 <= i < |t.past| :: !Here(t.past[i])
  {}

  lemma PastKnownAfterWrite(cs: CocoonSet, n: string, e: SlotWrite, s: Slot)
    requires TogglingSlot(cs, n, s) && May(false, cs, n, e, s) && Accepts(e, s)
    ensures
      var t := Apply(cs, e, s);
      forall i | 0 <= i < |t.past| && Here(t.past[i]) :: KnowsToggling(cs, t.past[i].value, t)
  {
    hide KnowsToggling, May;
    var t := Apply(cs, e, s);
    if e.Create? {
      CreateSeesNothing(cs, n, e, s);
      return;
    }
    forall i | 0 <= i < |t.past| && Here(t.past[i])
      ensures KnowsToggling(cs, t.past[i].value, t)
    {
      assert t.past[i] == if i < |s.past| then s.past[i] else s.server;
      WriteKnown(cs, n, e, t.past[i].value, s);
    }
  }

  lemma WriteInSight(cs: CocoonSet, n: string, e: SlotWrite, s: Slot)
    requires TogglingSlot(cs, n, s) && May(false, cs, n, e, s) && Accepts(e, s)
    ensures InSight(Apply(cs, e, s))
  {
    hide KnowsToggling;
  }

  lemma TogglingWriteKeeps(cs: CocoonSet, n: string, e: SlotWrite, s: Slot)
    requires TogglingSlot(cs, n, s) && May(false, cs, n, e, s) && Accepts(e, s) && OnRecord(cs)
    ensures TogglingSlot(cs, n, Apply(cs, e, s))
  {
    hide KnowsToggling, InSight;
    WrittenKnown(cs, n, e, s);
    PastKnownAfterWrite(cs, n, e, s);
    WriteInSight(cs, n, e, s);
  }

  lemma SinceOwnWriteWrites(cs: CocoonSet, e: SlotWrite, s: Slot)
    requires SinceOwnWrite(cs, s) && Accepts(e, s) && OnRecord(cs)
    ensures SinceOwnWrite(cs, Apply(cs, e, s))
    ensures Roaming(Apply(cs, e, s)) ==> Roaming(s) || e.Create?
  {}

  lemma PinningWriteKeeps(cs: CocoonSet, e: SlotWrite, s: Slot)
    requires PinningMain(cs, s) && May(true, cs, MAIN, e, s) && Accepts(e, s) && OnRecord(cs)
    ensures PinningMain(cs, Apply(cs, e, s))
  {
    hide SinceOwnWrite, Roaming;
    SinceOwnWriteWrites(cs, e, s);
  }

  lemma PinningOtherWriteKeeps(cs: CocoonSet, n: string, e: SlotWrite, s: Slot)
    requires n != MAIN && PinningOther(cs, s) && May(true, cs, n, e, s) && Accepts(e, s) && OnRecord(cs)
    ensures PinningOther(cs, Apply(cs, e, s))
  {}

  /** A write made under its condition keeps the invariant of the slot. */
  lemma WriteKeeps(pinning: bool, cs: CocoonSet, n: string, e: SlotWrite, s: Slot)
    requires SlotInv(pinning, cs, n, s) && May(pinning, cs, n, e, s) && Accepts(e, s) && OnRecord(cs)
    ensures SlotInv(pinning, cs, n, Apply(cs, e, s))
  {
    if !pinning {
      TogglingWriteKeeps(cs, n, e, s);
    } else if n == MAIN {
      PinningWriteKeeps(cs, e, s);
    } else {
      PinningOtherWriteKeeps(cs, n, e, s);
    }
  }

  // ---- writes to the CocoonSet ----

  /** The condition under which a write that turns the set into `next` keeps the slot's invariant. */
  ghost predicate MayFollow(pinning: bool, next: CocoonSet, n: string, s: Slot) {
    if !pinning then
      && (s.claim.Some? && Gone(s) ==> n == MAIN && next.hint != "" && Tracked(next, n))
      && Owed(next, n, s)
      && (n in next.record.vms ==> n in next.record.suspended || s.quiesced < next.record.generation)
    else n == MAIN ==>
      && (Present(s) && s.server.value.hibernate ==> next.phase == Migrating || s.excused)
      && (!Settled(s) ==> next.phase == Migrating)
  }

  lemma MayFollowStable(pinning: bool, next: CocoonSet, n: string, s: Slot, t: Slot)
    requires MayFollow(pinning, next, n, s) && Evolves(s, t)
    ensures MayFollow(pinning, next, n, t)
  {}

  ghost predicate SameSpec(cs: CocoonSet, next: CocoonSet) {
    && cs.generation == next.generation && cs.suspend == next.suspend && cs.release == next.release
    && cs.nodeName == next.nodeName && cs.repins == next.repins
    && cs.image == next.image && cs.images == next.images && cs.shape == next.shape && cs.shapes == next.shapes
    && cs.stash <= next.stash
  }

  lemma FollowKeeps(pinning: bool, cs: CocoonSet, next: CocoonSet, n: string, s: Slot)
    requires SlotInv(pinning, cs, n, s) && SameSpec(cs, next) && MayFollow(pinning, next, n, s)
    ensures SlotInv(pinning, next, n, s)
  {
    if !pinning {
      forall i | 0 <= i < |s.past| && Here(s.past[i])
        ensures KnowsToggling(next, s.past[i].value, s)
      {
        assert KnowsToggling(cs, s.past[i].value, s);
      }
    }
  }

  /** A spec edit makes every pod version stale at once: none carries the new generation. */
  lemma EditKeeps(pinning: bool, cs: CocoonSet, next: CocoonSet, n: string, s: Slot)
    requires SlotInv(pinning, cs, n, s)
    requires cs.generation < next.generation && next.phase == cs.phase && next.hint == cs.hint && next.record == cs.record
    requires cs.stash <= next.stash && cs.images <= next.images && cs.shapes <= next.shapes
    ensures SlotInv(pinning, next, n, s)
  {
    if !pinning {
      forall i | 0 <= i < |s.past| && Here(s.past[i])
        ensures KnowsToggling(next, s.past[i].value, s)
      {
        assert KnowsToggling(cs, s.past[i].value, s);
      }
    }
  }
}
