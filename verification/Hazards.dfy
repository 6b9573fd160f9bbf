/** Where a run may give guest state up: a concrete run for each way, and the exact condition. */
module Hazards {
  import opened World
  import opened Reclaims
  import opened Invariant
  import opened Fleet
  import opened Facts
  import opened SlotRelease
  import opened Migration

  function ActAll(steps: seq<VkAction>, s: Slot): Slot
    decreases |steps|
  {
    if steps == [] then s else ActAll(steps[1..], Act(steps[0], s))
  }

  lemma {:induction false} ActAllKeeps(steps: seq<VkAction>, s: Slot)
    requires NoLoss(s) && RestoreMarked(s) && Scheduled(s)
    ensures Evolves(s, ActAll(steps, s))
    ensures var t := ActAll(steps, s); NoLoss(t) && RestoreMarked(t) && Scheduled(t)
    decreases |steps|
  {
    if steps != [] {
      var t := Act(steps[0], s);
      ActEvolves(steps[0], s);
      GuestKept(steps[0], s);
      ActAllKeeps(steps[1..], t);
      EvolvesTransitive(s, t, ActAll(steps[1..], t));
    }
  }

  /** The user is owed exactly what the guest last computed: outside the operator only a failure of
      the VM or of its pod ends the debt, and only running guests change it. */
  lemma DebtFollowsGuest(a: VkAction, s: Slot)
    requires NoLoss(s) && RestoreMarked(s) && Scheduled(s) && s.claim.Some?
    ensures
      var t := Act(a, s);
      && (t.claim.None? ==> a.Fail? || a.Terminate?)
      && (t.claim.Some? && t.claim != s.claim ==> LiveNow(s) && LiveNow(t) && t.claim.value == t.guest)
  {}

  // ---- what a user is owed ----

  datatype Move = Outside(a: VkAction) | Inside(cs: CocoonSet, e: SlotWrite)

  function Moved(m: Move, s: Slot): Slot {
    match m
    case Outside(a) => Act(a, s)
    case Inside(cs, e) => if Accepts(e, s) then Apply(cs, e, s) else s
  }

  function MovedAll(ms: seq<Move>, s: Slot): Slot
    decreases |ms|
  {
    if ms == [] then s else MovedAll(ms[1..], Moved(ms[0], s))
  }

  /** The version the guest last computed, as someone who only watches the running guest sees it. */
  function LastComputed(ms: seq<Move>, s: Slot, seen: Option<nat>): Option<nat>
    decreases |ms|
  {
    if ms == [] then seen
    else
      var t := Moved(ms[0], s);
      LastComputed(ms[1..], t, if LiveNow(t) then Some(t.guest) else seen)
  }

  ghost predicate Sound(s: Slot) {
    && NoLoss(s) && RestoreMarked(s) && Scheduled(s) && !s.excused
    && (Present(s) && s.server.value.vm != Booting ==> s.claim.Some?)
  }

  /** Nothing fails, and no write forfeits anything or leaves the slot unsound. */
  ghost predicate Careful(ms: seq<Move>, s: Slot)
    decreases |ms|
  {
    ms != [] ==>
      && (ms[0].Outside? ==> !ms[0].a.Fail? && !ms[0].a.Terminate?)
      && (ms[0].Inside? ==> !Forfeits(ms[0].e, s) && Sound(Moved(ms[0], s)))
      && Careful(ms[1..], Moved(ms[0], s))
  }

  lemma OutsideSound(a: VkAction, s: Slot)
    requires Sound(s) && !a.Fail? && !a.Terminate?
    ensures Sound(Act(a, s))
  {
    GuestKept(a, s);
  }

  lemma MovedOutside(m: Move, s: Slot)
    requires m.Outside?
    ensures Moved(m, s) == Act(m.a, s)
  {}

  lemma OneMoveOwed(m: Move, s: Slot)
    requires Sound(s) && Sound(Moved(m, s))
    requires (m.Outside? ==> !m.a.Fail? && !m.a.Terminate?) && (m.Inside? ==> !Forfeits(m.e, s))
    ensures var t := Moved(m, s); t.claim == if LiveNow(t) then Some(t.guest) else s.claim
  {}

  /** What a user is owed is the version their guest last computed: whatever vk-cocoon, the scheduler
      and the operator do, as long as nothing fails and no write forfeits it. */
  lemma {:induction false} OwedIsLastComputed(ms: seq<Move>, s: Slot)
    requires Sound(s) && Careful(ms, s)
    ensures MovedAll(ms, s).claim == LastComputed(ms, s, s.claim)
    decreases |ms|
  {
    hide Sound, Moved, Forfeits, Act;
    if ms != [] {
      if ms[0].Outside? {
        MovedOutside(ms[0], s);
        OutsideSound(ms[0].a, s);
      }
      OneMoveOwed(ms[0], s);
      OwedIsLastComputed(ms[1..], Moved(ms[0], s));
    }
  }

  // ---- the wake that drops a tag ----

  ghost predicate AlwaysSpares(e: SlotWrite, cause: Hazard, s: Slot) {
    forall steps :: Losses({}, MAIN, e, cause, ActAll(steps, s)) == []
  }

  /** The drop of a tag, by a wake or by a migration, loses nothing, whatever happens before it lands,
      exactly when the VM is live and nobody has asked it to hibernate. */
  lemma DropSparesIff(s: Slot)
    requires NoLoss(s) && RestoreMarked(s) && Scheduled(s) && s.claim.Some?
    ensures AlwaysSpares(DropTag, QuiescedWake, s) <==> LiveNow(s) && !s.server.value.hibernate
  {
    if !LiveNow(s) {
      assert ActAll([], s) == s;
      assert Losses({}, MAIN, DropTag, QuiescedWake, ActAll([], s)) == [QuiescedWake];
    } else if s.server.value.hibernate {
      var steps := [Freeze(true)];
      assert ActAll(steps, s) == ActAll(steps[1..], Act(steps[0], s)) == Act(Freeze(true), s);
      assert Losses({}, MAIN, DropTag, QuiescedWake, ActAll(steps, s)) == [QuiescedWake];
    } else {
      forall steps
        ensures Losses({}, MAIN, DropTag, QuiescedWake, ActAll(steps, s)) == []
      {
        ActAllKeeps(steps, s);
      }
    }
  }

  /** Dropping the tag of a VM that is not live destroys what its user is owed. */
  lemma DroppedTagIsLost(cs: CocoonSet, s: Slot)
    requires s.claim.Some? && NoLoss(s)
    ensures NoLoss(Apply(cs, DropTag, s).(claim := s.claim)) <==> LiveNow(s)
  {}

  // ---- the delete of a stale pin ----

  ghost predicate WaitsPinned(s: Slot) {
    Present(s) ==>
      && s.server.value.node == "" && s.server.value.pin != "" && s.server.value.vm == Booting
      && !s.server.value.terminal
  }

  /** Deleting a main that waits under a stale pin is safe against the scheduler exactly when there
      is nothing left to delete: the arm needs a delete bound to the version it has read. */
  lemma StalePinSparesIff(s: Slot)
    requires NoLoss(s) && RestoreMarked(s) && Scheduled(s) && !s.excused && WaitsPinned(s)
    ensures AlwaysSpares(DeleteUnbound, RepinRace, s) <==> Gone(s)
  {
    if Present(s) {
      var steps := [Bind(s.server.value.pin), Boot];
      var bound := Act(steps[0], s);
      assert ActAll(steps, s) == ActAll(steps[1..], bound) == ActAll(steps[1..][1..], Act(Boot, bound)) == Act(Boot, bound);
      assert Losses({}, MAIN, DeleteUnbound, RepinRace, ActAll(steps, s)) == [RepinRace];
    } else {
      forall steps
        ensures Losses({}, MAIN, DeleteUnbound, RepinRace, ActAll(steps, s)) == []
      {
        ActAllKeeps(steps, s);
      }
    }
  }

  // ---- a delete by name ----

  /** The delete loses nothing, whatever happens before it lands. */
  ghost predicate DeleteSpares(cs: CocoonSet, s: Slot) {
    forall steps :: NoLoss(Apply(cs, Delete, ActAll(steps, s)))
  }

  /** Nothing is owed, and nothing the pod may still do changes that. */
  ghost predicate NeverOwed(s: Slot) {
    s.claim.None? && (s.excused || Gone(s) || s.server.value.vm != Booting)
  }

  lemma {:induction false} StaysNeverOwed(steps: seq<VkAction>, s: Slot)
    requires NeverOwed(s)
    ensures NeverOwed(ActAll(steps, s))
    decreases |steps|
  {
    if steps != [] {
      StaysNeverOwed(steps[1..], Act(steps[0], s));
    }
  }

  /** A delete by name, of whatever pod bears it, is safe against every outside run exactly when the pod
      is gone, or nothing is or will be owed of it, or it hibernates and was asked to. */
  lemma DeleteSparesIff(cs: CocoonSet, s: Slot)
    requires NoLoss(s) && RestoreMarked(s) && Scheduled(s)
    ensures DeleteSpares(cs, s) <==>
      Gone(s) || NeverOwed(s) || (s.server.value.vm == Frozen && s.server.value.hibernate)
  {
    if Gone(s) || NeverOwed(s) || (s.server.value.vm == Frozen && s.server.value.hibernate) {
      forall steps
        ensures NoLoss(Apply(cs, Delete, ActAll(steps, s)))
      {
        ActAllKeeps(steps, s);
        if NeverOwed(s) {
          StaysNeverOwed(steps, s);
        }
      }
    } else {
      var steps := CostlySteps(cs, s);
    }
  }

  lemma {:induction false} ActAllOn(a: seq<VkAction>, b: seq<VkAction>, s: Slot)
    ensures ActAll(a + b, s) == ActAll(b, ActAll(a, s))
    decreases |a|
  {
    if a == [] {
      assert a + b == b;
    } else {
      assert (a + b)[1..] == a[1..] + b;
      ActAllOn(a[1..], b, Act(a[0], s));
    }
  }

  lemma CostlySteps(cs: CocoonSet, s: Slot) returns (steps: seq<VkAction>)
    requires NoLoss(s) && RestoreMarked(s) && Scheduled(s) && Present(s) && !NeverOwed(s)
    requires !(s.server.value.vm == Frozen && s.server.value.hibernate)
    ensures !NoLoss(Apply(cs, Delete, ActAll(steps, s)))
  {
    hide NoLoss, RestoreMarked, Scheduled;
    var up := StepsToLive(s);
    ActAllKeeps(up, s);
    var live := ActAll(up, s);
    ActAllOn(up, [], s);
    ActAllOn(up, [Work], s);
    steps := if NoLoss(Apply(cs, Delete, live)) then up + [Work] else up + [];
    LiveIsCostly(cs, live);
  }

  lemma LiveIsCostly(cs: CocoonSet, s: Slot)
    requires LiveNow(s) && s.claim.Some? && NoLoss(s)
    ensures NoLoss(Apply(cs, Delete, s)) ==> !NoLoss(Apply(cs, Delete, ActAll([Work], s)))
    ensures ActAll([], s) == s
  {
    assert ActAll([Work], s) == ActAll([], Act(Work, s)) == Act(Work, s);
  }

  lemma StepsToLive(s: Slot) returns (steps: seq<VkAction>)
    requires RestoreMarked(s) && Scheduled(s) && Present(s) && !NeverOwed(s)
    requires !(s.server.value.vm == Frozen && s.server.value.hibernate)
    ensures LiveNow(ActAll(steps, s)) && ActAll(steps, s).claim.Some?
  {
    var p := s.server.value;
    if p.vm == Live {
      steps := [];
    } else if p.vm == Frozen {
      steps := [Thaw];
      assert ActAll(steps, s) == ActAll([], Act(Thaw, s)) == Act(Thaw, s);
    } else {
      var bind := Bind(if p.pin == "" then "node" else p.pin);
      steps := [bind, Boot];
      var bound := Act(bind, s);
      assert steps[1..] == [Boot];
      assert ActAll(steps, s) == ActAll([Boot], bound) == ActAll([], Act(Boot, bound)) == Act(Boot, bound);
    }
  }

  // ---- the hand-back of a released main ----

  /** An unsuspend that still sees the pod of a released main puts it on no list. */
  lemma HandBackRecords(generation: nat, r: Reclaim, awaiting: seq<string>, owned: set<string>)
    requires RecordOK(r) && (awaiting != [] || r.suspended != []) && MAIN in owned
    ensures
      var done := Stored(Unsuspending(generation, r, awaiting, owned).(suspended := []));
      MAIN in done.restore <==> MAIN in r.restore
  {
    UnsuspendingTwice(generation, r, awaiting, [], owned);
    StoredIsLossless(Unsuspending(generation, r, awaiting, owned).(suspended := []));
  }

  /** The pod the next pass creates, bound and booted. */
  function Reborn(cs: CocoonSet, restore: bool, node: string, s: Slot): Slot
    requires s.server.None?
  {
    Act(Boot, Act(Bind(node), Apply(cs, Create("", restore, false), s)))
  }

  /** Handing back a released main that still shows in the list: its guest survives the next create
      exactly when the reclaim record already owed it a restore. */
  lemma HandBackSparesIff(cs: CocoonSet, r: Reclaim, awaiting: seq<string>, owned: set<string>, node: string, s: Slot)
    requires RecordOK(r) && (awaiting != [] || r.suspended != []) && MAIN in owned && node != ""
    requires NoLoss(s) && s.server.None? && s.claim.Some? && s.claim.value > 0
    ensures
      var done := Stored(Unsuspending(cs.generation, r, awaiting, owned).(suspended := []));
      NoLoss(Reborn(cs, MAIN in done.restore && s.tag.Some?, node, s)) <==> MAIN in r.restore
  {
    hide Unsuspending, Stored, Reborn, NoLoss;
    var done := Stored(Unsuspending(cs.generation, r, awaiting, owned).(suspended := []));
    HandBackRecords(cs.generation, r, awaiting, owned);
    RebornSpares(cs, MAIN in done.restore, node, s);
  }

  lemma RebornSpares(cs: CocoonSet, owed: bool, node: string, s: Slot)
    requires NoLoss(s) && s.server.None? && s.claim.Some? && s.claim.value > 0 && node != ""
    ensures s.tag.Some? && (NoLoss(Reborn(cs, owed && s.tag.Some?, node, s)) <==> owed)
  {
    var created := Apply(cs, Create("", owed && s.tag.Some?, false), s);
    var bound := Act(Bind(node), created);
    assert bound.server.Some? && bound.server.value.node == node;
  }

  // ---- concrete runs ----

  const FRESH := Slot(None, [], None, 0, None, false, 0, 0)

  function Revision(generation: nat, suspend: bool, node: string, phase: Phase, hint: string, record: Reclaim): CocoonSet {
    CocoonSet(generation, suspend, true, node, "image", 0, {"image"}, {0}, 0, phase, hint, {}, None, 0, record)
  }

  function Listing1(generation: nat): Reclaim {
    Reclaim(generation, [MAIN], [], [MAIN])
  }

  /** Generation 1: booted on node a, one unit of guest work. */
  function Worked(): Slot {
    Act(Work, Reborn(Revision(1, false, "", Unset, "", EMPTY_RECLAIM), false, "a", FRESH))
  }

  /** Generation 2: suspended, hibernated, reported. */
  function Hibernating2(): Slot {
    var cs := Revision(2, true, "", Suspending, "", Listing1(0));
    Act(Report, Act(Freeze(true), Apply(cs, Quiesce, Apply(cs, Stamp, Worked()))))
  }

  lemma Hibernated2()
    ensures
      var s := Hibernating2();
      && s.claim == Some(1) && s.tag == Some(Snapshot("image", 1)) && Present(s)
      && s.server.value == Pod("a", "", "image", 0, false, false, true, false, 2, Frozen, Hibernated, 2)
  {
    var w := Worked();
    assert w.server == Some(Pod("a", "", "image", 0, false, false, false, false, 1, Live, Unreported, 0)) && w.guest == 1;
  }

  /** The gate opened after the suspend had timed out: the hint is stashed and the pod deleted, but
      the pass dies before it writes Suspended. */
  function ReleasedInFailed(): Slot {
    Apply(Revision(2, true, "", FailedPhase, "a", Listing1(2)), Delete, Hibernating2())
  }

  /** A released main handed back unconfirmed boots fresh, and its guest is gone. */
  lemma HandBackLosesState()
    ensures
      var unsuspended := Revision(3, false, "", FailedPhase, "a", Listing1(2));
      var stamped := Apply(unsuspended, Stamp, ReleasedInFailed());
      var view := map[MAIN := stamped.server.value];
      var record := Stored(Unsuspending(3, Listing1(2), [MAIN], {MAIN}).(suspended := []));
      var vanished := Act(Vanish, Apply(unsuspended, Wake, stamped));
      && HandsBackDeleted(unsuspended, view)
      && NoLoss(vanished) && vanished.server.None? && vanished.claim == Some(1)
      && !NoLoss(Reborn(unsuspended.(record := record), MAIN in record.restore && vanished.tag.Some?, "a", vanished))
  {
    Hibernated2();
    var unsuspended := Revision(3, false, "", FailedPhase, "a", Listing1(2));
    var vanished := Act(Vanish, Apply(unsuspended, Wake, Apply(unsuspended, Stamp, ReleasedInFailed())));
    assert vanished.server.None? && vanished.claim == Some(1);
    HandBackSparesIff(unsuspended, Listing1(2), [MAIN], {MAIN}, "a", vanished);
  }

  /** Released, woken under the hint, and one more unit of guest work. */
  function Woken3(): Slot {
    var released := Act(Vanish, Apply(Revision(2, true, "", Suspending, "a", Listing1(2)), Delete, Hibernating2()));
    Act(Work, Reborn(Revision(3, false, "", Waking, "a", Listing1(2)), true, "a", released))
  }

  /** A wake overtaken by a suspend that crashed before its status write: the wake of the next
      generation drops the only copy of the guest. */
  lemma QuiescedWakeLosesState()
    ensures
      var suspended := Revision(4, true, "", Waking, "a", Listing1(2));
      var resumed := Revision(5, false, "", Waking, "a", Listing1(2));
      var stamped := Apply(resumed, Stamp, Apply(suspended, Quiesce, Apply(suspended, Stamp, Woken3())));
      var frozen := Act(Freeze(true), stamped);
      && DropsQuiesced(resumed, map[MAIN := stamped.server.value])
      && NoLoss(frozen) && frozen.claim == Some(2)
      && !NoLoss(Apply(resumed, DropTag, frozen).(claim := frozen.claim))
  {
    Hibernated2();
    var w := Woken3();
    assert w.server == Some(Pod("a", "", "image", 0, false, false, false, true, 3, Live, Unreported, 0));
    assert w.guest == 2 && w.claim == Some(2);
    var resumed := Revision(5, false, "", Waking, "a", Listing1(2));
    var suspended := Revision(4, true, "", Waking, "a", Listing1(2));
    var frozen := Act(Freeze(true), Apply(resumed, Stamp, Apply(suspended, Quiesce, Apply(suspended, Stamp, w))));
    assert frozen.claim == Some(2) && !LiveNow(frozen);
    DroppedTagIsLost(resumed, frozen);
  }

  /** A main unpinned while it waits, bound and booted after the list, deleted all the same. */
  lemma StalePinLosesState()
    ensures
      var pinned := Revision(1, false, "b", Unset, "", EMPTY_RECLAIM);
      var unpinned := Revision(2, false, "", Pending, "", EMPTY_RECLAIM);
      var waiting := Apply(unpinned, Stamp, Apply(pinned, Create("b", false, false), FRESH));
      var booted := Act(Work, Act(Boot, Act(Bind("b"), waiting)));
      && ArmOf(unpinned, waiting.server, false, false, false) == RecreateUnbound
      && NoLoss(booted) && booted.claim == Some(1)
      && !NoLoss(Apply(unpinned, DeleteUnbound, booted).(claim := booted.claim))
  {}

  // ---- lists that are not current, while pins are edited ----

  /** Listed by the pass that starts the migration: stamped, live on the old node, not asked to hibernate. */
  function Leaving2(): Slot {
    Apply(Revision(2, false, "b", Unset, "", EMPTY_RECLAIM), Stamp, Worked())
  }

  function Moving(): CocoonSet {
    Revision(2, false, "b", Migrating, "", EMPTY_RECLAIM)
  }

  /** Asked to hibernate by that pass, and hibernated. */
  function Quiesced2(): Slot {
    Act(Report, Act(Freeze(true), Apply(Moving(), Quiesce, Leaving2())))
  }

  lemma Quiesced2Is()
    ensures Leaving2().server == Some(Pod("a", "", "image", 0, false, false, false, false, 2, Live, Unreported, 0))
    ensures Leaving2().tag.None?
    ensures
      var s := Quiesced2();
      && s.server == Some(Pod("a", "", "image", 0, false, false, true, false, 2, Frozen, Hibernated, 2))
      && s.tag == Some(Snapshot("image", 1)) && s.claim == Some(1) && NoLoss(s)
      && |s.past| >= 3 && s.own == |s.past| - 2 && s.past[|s.past| - 3] == Leaving2().server
  {
    var w := Worked();
    assert w.server == Some(Pod("a", "", "image", 0, false, false, false, false, 1, Live, Unreported, 0)) && w.guest == 1;
  }

  /** A migration needs lists that have caught up with the operator's own writes. The next pass lists
      the version the last one has stamped, just before it asked the pod to hibernate, and takes the
      tag the migration has just made for a leftover: it drops the only copy of the guest. */
  lemma StaleListLosesState()
    ensures
      var s, listed := Quiesced2(), Leaving2().server;
      && ArmOf(Moving().(phase := Unset), listed, false, Leaving2().tag.Some?, false) == Start
      && s.own > 0 && s.past[s.own - 1] == listed && listed.value.stamp == Moving().generation
      && ArmOf(Moving(), listed, false, s.tag.Some?, false) == DropStale
      && NoLoss(s) && !NoLoss(Apply(Moving(), DropTag, s).(claim := s.claim))
  {
    hide Quiesced2, Leaving2;
    Quiesced2Is();
    DroppedTagIsLost(Moving(), Quiesced2());
  }

  /** Deleted and gone. */
  function Left2(): Slot {
    Act(Vanish, Apply(Moving(), Delete, Quiesced2()))
  }

  lemma Left2Is()
    ensures Left2() == Quiesced2().(server := None, past := Left2().past, own := Left2().own) && Quiesced2().server in Left2().past
  {
    hide Quiesced2, Leaving2;
    Quiesced2Is();
    var q := Quiesced2();
    var deleted := Apply(Moving(), Delete, q);
    assert Left2().past == (q.past + [q.server]) + [deleted.server];
    assert Left2().past[|q.past|] == q.server;
  }

  /** The main of the target, restored and at work. */
  function Moved2(): Slot {
    if Left2().server.Some? then Left2()
    else Act(Work, Act(Boot, Act(Bind("b"), Apply(Moving(), Create("b", true, false), Left2()))))
  }

  lemma Moved2Is()
    ensures
      var s := Moved2();
      && s.server == Some(Pod("b", "b", "image", 0, false, false, false, true, 2, Live, Unreported, 0))
      && s.guest == 2 && s.claim == Some(2) && s.tag == Some(Snapshot("image", 1)) && Quiesced2().server in s.past
  {
    hide Quiesced2, Leaving2, Left2;
    Quiesced2Is();
    Left2Is();
    var created := Apply(Moving(), Create("b", true, false), Left2());
    var bound := Act(Bind("b"), created);
    assert bound.server == Some(NewPod(Moving(), "b", true).(node := "b"));
    var p := Left2().past;
    assert Moved2().past == p + [None] + [created.server] + [bound.server];
  }

  /** And deletes go by name: a list that went back to the quiesced main, as one may once the operator
      has moved to another API server, deletes the main that replaced it. */
  lemma DeleteByNameLosesState()
    ensures
      var s, listed := Moved2(), Quiesced2().server;
      && listed in s.past && ArmOf(Moving(), listed, false, s.tag.Some?, false) == DeleteOld
      && NoLoss(s) && LiveNow(s) && s.claim == Some(2)
      && !NoLoss(Apply(Moving(), Delete, s)) && Apply(Moving(), Delete, s).claim == Some(2)
  {
    hide Quiesced2, Leaving2, Left2, Moved2;
    Quiesced2Is();
    Moved2Is();
  }
}
