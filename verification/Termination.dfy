/** A migration with a fixed target terminates: every write to the main's pod or tag lowers a rank
    that nothing else raises, and under a fair environment the main ends live on its target. */
module Termination {
  import opened World
  import opened Reclaims
  import opened Invariant
  import opened Migration
  import opened Woken

  datatype Main = Main(cs: CocoonSet, slot: Slot)

  function Listed(s: Slot): Option<Pod> {
    if Present(s) then s.server else None
  }

  // ---- one pass that meets no error, no CocoonHibernation and no crash ----

  function Perform(m: Main, e: Effect): Main {
    match e
    case SetStatus(phase) => m.(cs := m.cs.(phase := phase))
    case SetRecord(r) => m.(cs := m.cs.(record := Stored(r)))
    case OnSlot(_, write) => if Accepts(write, m.slot) then m.(slot := Apply(m.cs, write, m.slot)) else m
    case _ => m
  }

  function PerformAll(m: Main, es: seq<Effect>): Main
    decreases |es|
  {
    if es == [] then m else PerformAll(Perform(m, es[0]), es[1..])
  }

  function Stamped(m: Main): Main {
    if Present(m.slot) && m.slot.server.value.stamp != m.cs.generation
    then m.(slot := Apply(m.cs, Stamp, m.slot)) else m
  }

  /** From the unsuspend on, for the main alone. */
  function Ordinary(m: Main): Main {
    var awake :=
      if Present(m.slot) && m.slot.server.value.hibernate
      then Main(m.cs.(record := Stored(Unsuspending(m.cs.generation, m.cs.record, [MAIN], {MAIN}).(suspended := []))),
                Apply(m.cs, Wake, m.slot))
      else m;
    var reclaimed :=
      if Present(awake.slot) && MAIN in awake.cs.record.vms
         && WokenAt(awake.slot.server.value, awake.cs.record.generation)
      then Main(awake.cs.(record := Stored(Forgotten(awake.cs.record, {MAIN}))), Apply(awake.cs, DropTag, awake.slot))
      else awake;
    if Present(reclaimed.slot) then
      reclaimed.(cs := reclaimed.cs.(phase := if reclaimed.slot.server.value.vm == Live then Running else Pending))
    else if reclaimed.slot.server.None? then
      reclaimed.(slot := Apply(m.cs, Create(m.cs.nodeName, MAIN in m.cs.record.restore && m.slot.tag.Some?, false), m.slot))
    else reclaimed
  }

  function ArmFor(m: Main): Arm {
    ArmOf(m.cs, Listed(m.slot), false, m.slot.tag.Some?, false)
  }

  function Pass(m: Main): Main {
    var m1 := Stamped(m);
    var arm := ArmFor(m1);
    if arm == HandBack then Ordinary(m1)
    else if arm == Recreate && ImageConflict(m1.slot.tag, m1.cs.image) then
      Ordinary(m1.(slot := Apply(m1.cs, DropTagForImage, m1.slot)))
    else if arm == Recreate && m1.slot.server.Some? then m1
    else PerformAll(m1, ArmWrites(m1.cs, Listed(m1.slot), arm))
  }

  // ---- the rank ----

  predicate OnTarget(target: string, p: Pod) {
    p.node == target || (p.node == "" && p.pin == target)
  }

  /** How far the main is from running on its target, the tag gone. */
  function Rank(target: string, s: Slot): nat {
    if !Present(s) then if s.tag.Some? then 5 else 4
    else
      var p := s.server.value;
      if OnTarget(target, p) then
        if p.hibernate then 3 else if p.vm != Live then 2 else if s.tag.Some? then 1 else 0
      else if p.node == "" then 11
      else if p.hibernate then if s.tag.Some? then 6 else 7
      else if s.tag.None? then 8
      else if p.vm == Live then 9 else 10
  }

  /** Nothing has failed, and nothing runs without a node. */
  ghost predicate Healthy(s: Slot) {
    Present(s) ==>
      && !IsFailed(s.server.value)
      && (s.server.value.vm != Booting || s.server.value.hibernate ==> s.server.value.node != "")
      && (s.server.value.pin != "" && s.server.value.node != "" ==> s.server.value.node == s.server.value.pin)
  }

  ghost predicate Pinned(m: Main) {
    m.cs.nodeName != "" && Healthy(m.slot) && MAIN !in m.cs.record.restore && m.cs.record.suspended == []
    && m.cs.record.generation <= m.cs.generation && RecordOK(m.cs.record)
    && (Present(m.slot) ==> !Drifts(m.cs, m.slot.server.value))
  }

  predicate Benign(a: VkAction) {
    !a.Fail? && !a.Terminate?
  }

  /** No step of vk-cocoon, the scheduler or the guest raises the rank. */
  lemma OutsideNeverRaises(target: string, a: VkAction, s: Slot)
    requires Benign(a) && Healthy(s) && target != ""
    ensures Healthy(Act(a, s)) && Rank(target, Act(a, s)) <= Rank(target, s)
  {}

  lemma ForgettingMain(r: Reclaim)
    requires RecordOK(r) && MAIN !in r.restore && r.suspended == []
    ensures var f := Stored(Forgotten(r, {MAIN})); RecordOK(f) && MAIN !in f.restore && f.suspended == [] && MAIN !in f.vms
    ensures Stored(Forgotten(r, {MAIN})).generation in {0, r.generation}
  {
    StoredIsLossless(Forgotten(r, {MAIN}));
    HasElement(Forgotten(r, {MAIN}).suspended);
  }

  lemma RecordingMain(generation: nat, r: Reclaim)
    requires RecordOK(r) && MAIN !in r.restore && r.suspended == []
    ensures
      var u := Stored(Unsuspending(generation, r, [MAIN], {MAIN}).(suspended := []));
      RecordOK(u) && MAIN !in u.restore && u.suspended == [] && MAIN in u.vms && u.generation == generation
  {
    UnsuspendForgetsNoVM(generation, r, [MAIN], {MAIN}, MAIN);
    FirstIn([MAIN], Unsuspending(generation, r, [MAIN], {MAIN}).vms);
    assert Filtered([], {MAIN}) == [];
  }

  /** The write to the pod or the tag at the heart of each arm, but for Start's on a quiesced main. */
  function ArmWrite(cs: CocoonSet, arm: Arm): SlotWrite
    requires arm != HandBack && arm != Await
  {
    match arm
    case RecreateUnbound => DeleteUnbound
    case Start => Quiesce
    case DropStale | DropRestored => DropTag
    case DeleteOld => Delete
    case Recreate => Create(cs.nodeName, true, false)
    case WakeInPlace => Wake
  }

  lemma ArmWriteLowers(m: Main, arm: Arm, cs: CocoonSet)
    requires Pinned(m) && arm == ArmFor(m) && arm != HandBack && arm != Await
    requires arm == Recreate ==> m.slot.server.None?
    requires arm == Start ==> !m.slot.server.value.hibernate
    requires cs == m.cs.(phase := cs.phase)
    ensures Accepts(ArmWrite(cs, arm), m.slot)
    ensures
      var s := Apply(cs, ArmWrite(cs, arm), m.slot);
      Healthy(s) && (Present(s) ==> !Drifts(m.cs, s.server.value)) && Rank(m.cs.nodeName, s) < Rank(m.cs.nodeName, m.slot)
  {}

  lemma KeptSlot(m: Main)
    requires Present(m.slot)
    ensures Perform(m, OnSlot(MAIN, Keep)) == m
  {}

  lemma PerformOne(m: Main, a: Effect)
    ensures PerformAll(m, [a]) == Perform(m, a)
  {
    assert PerformAll(m, [a]) == PerformAll(Perform(m, a), []);
  }

  lemma PerformTwo(m: Main, a: Effect, b: Effect)
    ensures PerformAll(m, [a, b]) == Perform(Perform(m, a), b)
  {
    assert [a, b][1..] == [b];
    PerformOne(Perform(m, a), b);
  }

  lemma PerformThree(m: Main, a: Effect, b: Effect, c: Effect)
    ensures PerformAll(m, [a, b, c]) == Perform(Perform(Perform(m, a), b), c)
  {
    assert [a, b, c][1..] == [b, c];
    PerformTwo(Perform(m, a), b, c);
  }

  // ---- a pass that dies ----

  /** The writes of the unsuspend, of the reclaim and of what follows them, for the main alone. */
  function UnsuspendWrites(m: Main): seq<Effect> {
    if Present(m.slot) && m.slot.server.value.hibernate then
      var r := Unsuspending(m.cs.generation, m.cs.record, [MAIN], {MAIN});
      [SetRecord(r), OnSlot(MAIN, Wake), SetRecord(r.(suspended := []))]
    else []
  }

  function ReclaimWrites(m: Main): seq<Effect> {
    if Present(m.slot) && MAIN in m.cs.record.vms && WokenAt(m.slot.server.value, m.cs.record.generation)
    then [OnSlot(MAIN, DropTag), SetRecord(Forgotten(m.cs.record, {MAIN}))] else []
  }

  function LastWrites(m: Main, restore: bool): seq<Effect> {
    if Present(m.slot) then [SetStatus(if m.slot.server.value.vm == Live then Running else Pending)]
    else if m.slot.server.None? then [OnSlot(MAIN, Create(m.cs.nodeName, restore, false))]
    else []
  }

  function OrdinaryWrites(m: Main): seq<Effect> {
    var awake := PerformAll(m, UnsuspendWrites(m));
    var reclaimed := PerformAll(awake, ReclaimWrites(awake));
    UnsuspendWrites(m) + ReclaimWrites(awake) + LastWrites(reclaimed, MAIN in m.cs.record.restore && m.slot.tag.Some?)
  }

  /** Every write of a pass, in order. */
  function PassWrites(m: Main): seq<Effect> {
    var stamps := if Stamped(m) != m then [OnSlot(MAIN, Stamp)] else [];
    var m1 := Stamped(m);
    var arm := ArmFor(m1);
    stamps +
    if arm == HandBack then OrdinaryWrites(m1)
    else if arm == Recreate && ImageConflict(m1.slot.tag, m1.cs.image) then
      [OnSlot(MAIN, DropTagForImage)] + OrdinaryWrites(m1.(slot := Apply(m1.cs, DropTagForImage, m1.slot)))
    else if arm == Recreate && m1.slot.server.Some? then []
    else ArmWrites(m1.cs, Listed(m1.slot), arm)
  }

  lemma {:induction false} PerformConcat(m: Main, a: seq<Effect>, b: seq<Effect>)
    ensures PerformAll(m, a + b) == PerformAll(PerformAll(m, a), b)
    decreases |a|
  {
    if a == [] {
      assert a + b == b;
    } else {
      assert (a + b)[1..] == a[1..] + b;
      PerformConcat(Perform(m, a[0]), a[1..], b);
    }
  }

  lemma UnsuspendIs(m: Main)
    ensures Present(PerformAll(m, UnsuspendWrites(m)).slot) <==> Present(m.slot)
    ensures !Present(m.slot) ==> PerformAll(m, UnsuspendWrites(m)) == m
    ensures
      PerformAll(m, UnsuspendWrites(m)) ==
      if Present(m.slot) && m.slot.server.value.hibernate
      then Main(m.cs.(record := Stored(Unsuspending(m.cs.generation, m.cs.record, [MAIN], {MAIN}).(suspended := []))),
                Apply(m.cs, Wake, m.slot))
      else m
  {
    hide Stored, Unsuspending;
    if UnsuspendWrites(m) != [] {
      var r := Unsuspending(m.cs.generation, m.cs.record, [MAIN], {MAIN});
      PerformThree(m, SetRecord(r), OnSlot(MAIN, Wake), SetRecord(r.(suspended := [])));
    }
  }

  lemma ReclaimIs(m: Main)
    ensures Present(PerformAll(m, ReclaimWrites(m)).slot) <==> Present(m.slot)
    ensures !Present(m.slot) ==> PerformAll(m, ReclaimWrites(m)) == m
    ensures
      PerformAll(m, ReclaimWrites(m)) ==
      if Present(m.slot) && MAIN in m.cs.record.vms && WokenAt(m.slot.server.value, m.cs.record.generation)
      then Main(m.cs.(record := Stored(Forgotten(m.cs.record, {MAIN}))), Apply(m.cs, DropTag, m.slot))
      else m
  {
    hide Stored, Forgotten, WokenAt;
    if ReclaimWrites(m) != [] {
      PerformTwo(m, OnSlot(MAIN, DropTag), SetRecord(Forgotten(m.cs.record, {MAIN})));
    }
  }

  lemma OrdinaryIsWritten(m: Main)
    ensures PerformAll(m, OrdinaryWrites(m)) == Ordinary(m)
  {
    hide Stored, Forgotten, Unsuspending, WokenAt, UnsuspendWrites, ReclaimWrites, Apply;
    var awake := PerformAll(m, UnsuspendWrites(m));
    UnsuspendIs(m);
    var reclaimed := PerformAll(awake, ReclaimWrites(awake));
    ReclaimIs(awake);
    var last := LastWrites(reclaimed, MAIN in m.cs.record.restore && m.slot.tag.Some?);
    PerformConcat(m, UnsuspendWrites(m) + ReclaimWrites(awake), last);
    PerformConcat(m, UnsuspendWrites(m), ReclaimWrites(awake));
    if last != [] {
      assert last == [last[0]];
      PerformOne(reclaimed, last[0]);
      if !Present(reclaimed.slot) {
        assert reclaimed == m;
        NobodyThere(m);
      }
    }
  }

  lemma NobodyThere(m: Main)
    requires m.slot.server.None?
    ensures
      var create := OnSlot(MAIN, Create(m.cs.nodeName, MAIN in m.cs.record.restore && m.slot.tag.Some?, false));
      Ordinary(m) == Perform(m, create)
  {
    hide Apply, WokenAt, Unsuspending, Stored, Forgotten;
  }

  /** A pass is its writes, carried out whole. */
  lemma PassIsWritten(m: Main)
    ensures PerformAll(m, PassWrites(m)) == Pass(m)
  {
    hide Ordinary, OrdinaryWrites, ArmWrites, ArmOf;
    var m1 := Stamped(m);
    var stamps := if m1 != m then [OnSlot(MAIN, Stamp)] else [];
    if m1 != m {
      PerformOne(m, OnSlot(MAIN, Stamp));
    }
    PerformConcat(m, stamps, PassWrites(m)[|stamps|..]);
    assert PassWrites(m) == stamps + PassWrites(m)[|stamps|..];
    OrdinaryIsWritten(m1);
    var dropped := m1.(slot := Apply(m1.cs, DropTagForImage, m1.slot));
    OrdinaryIsWritten(dropped);
    PerformConcat(m1, [OnSlot(MAIN, DropTagForImage)], OrdinaryWrites(dropped));
    PerformOne(m1, OnSlot(MAIN, DropTagForImage));
  }

  /** Each write in turn leaves the pod and the tag alone or lowers the rank. */
  ghost predicate Lowering(m: Main, writes: seq<Effect>)
    decreases |writes|
  {
    && Pinned(m)
    && (writes != [] ==>
          var next := Perform(m, writes[0]);
          && next.cs.nodeName == m.cs.nodeName
          && (next.slot == m.slot || Rank(m.cs.nodeName, next.slot) < Rank(m.cs.nodeName, m.slot))
          && Lowering(next, writes[1..]))
  }

  lemma {:induction false} LoweringConcat(m: Main, a: seq<Effect>, b: seq<Effect>)
    requires Lowering(m, a) && Lowering(PerformAll(m, a), b)
    ensures Lowering(m, a + b)
    decreases |a|
  {
    if a == [] {
      assert a + b == b;
    } else {
      assert (a + b)[1..] == a[1..] + b;
      LoweringConcat(Perform(m, a[0]), a[1..], b);
    }
  }

  lemma {:induction false} PrefixLowers(m: Main, writes: seq<Effect>, k: nat)
    requires Lowering(m, writes) && k <= |writes|
    ensures
      var next := PerformAll(m, writes[..k]);
      && Pinned(next) && next.cs.nodeName == m.cs.nodeName
      && (next.slot == m.slot || Rank(m.cs.nodeName, next.slot) < Rank(m.cs.nodeName, m.slot))
    decreases k
  {
    hide Pinned, Rank, Perform;
    if k > 0 {
      assert writes[..k][1..] == writes[1..][..k - 1];
      PrefixLowers(Perform(m, writes[0]), writes[1..], k - 1);
    }
  }

  lemma LoweringOne(m: Main, e: Effect)
    requires Pinned(m) && Pinned(Perform(m, e)) && Perform(m, e).cs.nodeName == m.cs.nodeName
    requires Perform(m, e).slot == m.slot || Rank(m.cs.nodeName, Perform(m, e).slot) < Rank(m.cs.nodeName, m.slot)
    ensures Lowering(m, [e])
  {
    assert [e][1..] == [];
    assert Lowering(Perform(m, e), []);
  }

  lemma LoweringTwo(m: Main, e: Effect, f: Effect)
    requires Lowering(m, [e]) && Lowering(Perform(m, e), [f])
    ensures Lowering(m, [e, f])
  {
    PerformOne(m, e);
    LoweringConcat(m, [e], [f]);
    assert [e] + [f] == [e, f];
  }

  lemma ArmIsLowering(m: Main, arm: Arm)
    requires Pinned(m) && arm == ArmFor(m) && arm != HandBack
    requires arm == Recreate ==> m.slot.server.None?
    ensures Lowering(m, ArmWrites(m.cs, Listed(m.slot), arm))
  {
    hide RecordOK, Stored, Rank, Apply, Healthy, Accepts, Lowering;
    var migrating, status := m.cs.(phase := Migrating), SetStatus(Migrating);
    if arm == Await || (arm == Start && m.slot.server.value.hibernate) {
      assert ArmWrites(m.cs, Listed(m.slot), arm) == [status];
      LoweringOne(m, status);
    } else {
      var e := OnSlot(MAIN, ArmWrite(m.cs, arm));
      ArmWriteLowers(m, arm, m.cs);
      if arm == RecreateUnbound {
        LoweringOne(m, e);
      } else if arm == Start {
        assert ArmWrites(m.cs, Listed(m.slot), arm) == [status, e];
        ArmWriteLowers(m, arm, migrating);
        LoweringOne(m, status);
        LoweringOne(Perform(m, status), e);
        LoweringTwo(m, status, e);
      } else {
        LoweringOne(m, e);
        LoweringOne(Perform(m, e), status);
        LoweringTwo(m, e, status);
        if arm == DeleteOld {
          KeptSlot(m);
          LoweringOne(m, OnSlot(MAIN, Keep));
          PerformOne(m, OnSlot(MAIN, Keep));
          LoweringConcat(m, [OnSlot(MAIN, Keep)], [e, status]);
          assert [OnSlot(MAIN, Keep)] + [e, status] == ArmWrites(m.cs, Listed(m.slot), arm);
        }
      }
    }
  }

  lemma WakeLowers(m: Main)
    requires Pinned(m) && Present(m.slot) && m.slot.server.value.hibernate && OnTarget(m.cs.nodeName, m.slot.server.value)
    ensures
      var s := Apply(m.cs, Wake, m.slot);
      Pinned(m.(slot := s)) && Present(s) && Rank(m.cs.nodeName, s) < Rank(m.cs.nodeName, m.slot)
  {}

  lemma UnsuspendIsLowering(m: Main)
    requires Pinned(m)
    requires Present(m.slot) && m.slot.server.value.hibernate ==> OnTarget(m.cs.nodeName, m.slot.server.value)
    ensures Lowering(m, UnsuspendWrites(m)) && Pinned(PerformAll(m, UnsuspendWrites(m)))
    ensures
      var next := PerformAll(m, UnsuspendWrites(m));
      && next.cs.nodeName == m.cs.nodeName && (Present(next.slot) ==> !next.slot.server.value.hibernate)
      && (Present(next.slot) <==> Present(m.slot)) && (!Present(m.slot) ==> next == m)
  {
    hide RecordOK, Stored, Unsuspending, Rank, Healthy;
    if UnsuspendWrites(m) != [] {
      hide Lowering;
      var r := Unsuspending(m.cs.generation, m.cs.record, [MAIN], {MAIN});
      var first, wake, last := SetRecord(r), OnSlot(MAIN, Wake), SetRecord(r.(suspended := []));
      NothingSuspended(m);
      RecordingMain(m.cs.generation, m.cs.record);
      var m1 := Perform(m, first);
      LoweringOne(m, first);
      WakeLowers(m1);
      LoweringOne(m1, wake);
      LoweringOne(Perform(m1, wake), last);
      LoweringTwo(m1, wake, last);
      PerformOne(m, first);
      LoweringConcat(m, [first], [wake, last]);
      assert [first] + [wake, last] == [first, wake, last];
      PerformThree(m, first, wake, last);
    }
  }

  lemma NothingSuspended(m: Main)
    requires Pinned(m)
    ensures var r := Unsuspending(m.cs.generation, m.cs.record, [MAIN], {MAIN}); r.(suspended := []) == r
  {}

  lemma DropLowers(m: Main)
    requires Pinned(m) && Present(m.slot) && WokenAt(m.slot.server.value, m.cs.record.generation)
    ensures
      var s := Apply(m.cs, DropTag, m.slot);
      && Pinned(m.(slot := s)) && (s == m.slot || Rank(m.cs.nodeName, s) < Rank(m.cs.nodeName, m.slot))
  {}

  lemma ReclaimIsLowering(m: Main)
    requires Pinned(m)
    ensures Lowering(m, ReclaimWrites(m)) && Pinned(PerformAll(m, ReclaimWrites(m)))
    ensures
      var next := PerformAll(m, ReclaimWrites(m));
      next.cs.nodeName == m.cs.nodeName && next.slot.server == m.slot.server && (!Present(m.slot) ==> next == m)
  {
    hide RecordOK, Stored, Forgotten, Rank, Healthy, WokenAt;
    if ReclaimWrites(m) != [] {
      hide Lowering;
      var drop, forget := OnSlot(MAIN, DropTag), SetRecord(Forgotten(m.cs.record, {MAIN}));
      ForgettingMain(m.cs.record);
      DropLowers(m);
      LoweringOne(m, drop);
      LoweringOne(Perform(m, drop), forget);
      LoweringTwo(m, drop, forget);
      PerformTwo(m, drop, forget);
    }
  }

  lemma CreateLowers(m: Main)
    requires Pinned(m) && m.slot.server.None? && m.slot.tag.None?
    ensures
      var s := Apply(m.cs, Create(m.cs.nodeName, false, false), m.slot);
      Pinned(m.(slot := s)) && Rank(m.cs.nodeName, s) < Rank(m.cs.nodeName, m.slot)
  {}

  lemma OrdinaryIsLowering(m: Main)
    requires Pinned(m) && (Present(m.slot) || m.slot.tag.None?)
    requires Present(m.slot) && m.slot.server.value.hibernate ==> OnTarget(m.cs.nodeName, m.slot.server.value)
    ensures Lowering(m, OrdinaryWrites(m))
  {
    hide RecordOK, Stored, Lowering, Rank, Healthy, UnsuspendWrites, ReclaimWrites, Unsuspending, Forgotten;
    var awake := PerformAll(m, UnsuspendWrites(m));
    UnsuspendIsLowering(m);
    var reclaimed := PerformAll(awake, ReclaimWrites(awake));
    ReclaimIsLowering(awake);
    var last := LastWrites(reclaimed, MAIN in m.cs.record.restore && m.slot.tag.Some?);
    LoweringConcat(m, UnsuspendWrites(m), ReclaimWrites(awake));
    PerformConcat(m, UnsuspendWrites(m), ReclaimWrites(awake));
    if last == [] {
      EmptyLowers(reclaimed);
    } else {
      if reclaimed.slot.server.None? {
        CreateLowers(reclaimed);
      }
      LoweringOne(reclaimed, last[0]);
    }
    LoweringConcat(m, UnsuspendWrites(m) + ReclaimWrites(awake), last);
  }

  lemma OrdinaryNeverRaises(m: Main)
    requires Pinned(m) && (Present(m.slot) || m.slot.tag.None?)
    requires Present(m.slot) && m.slot.server.value.hibernate ==> OnTarget(m.cs.nodeName, m.slot.server.value)
    ensures
      var next := Ordinary(m);
      && Pinned(next) && next.cs.nodeName == m.cs.nodeName
      && (next.slot == m.slot || Rank(m.cs.nodeName, next.slot) < Rank(m.cs.nodeName, m.slot))
  {
    hide Pinned, Lowering, Rank, OrdinaryWrites, Ordinary;
    var writes := OrdinaryWrites(m);
    OrdinaryIsLowering(m);
    OrdinaryIsWritten(m);
    PrefixLowers(m, writes, |writes|);
    assert writes[..|writes|] == writes;
  }

  lemma EmptyLowers(m: Main)
    requires Pinned(m)
    ensures Lowering(m, [])
  {}

  lemma DiscardLowers(m: Main)
    requires Pinned(m) && !Present(m.slot) && m.slot.tag.Some?
    ensures
      var next := m.(slot := Apply(m.cs, DropTagForImage, m.slot));
      && Pinned(next) && !Present(next.slot) && next.slot.tag.None?
      && (next.slot == m.slot || Rank(m.cs.nodeName, next.slot) < Rank(m.cs.nodeName, m.slot))
  {}

  lemma HandedBackShape(m: Main)
    requires Pinned(m) && ArmFor(m) == HandBack
    ensures Present(m.slot) || m.slot.tag.None?
    ensures Present(m.slot) && m.slot.server.value.hibernate ==> OnTarget(m.cs.nodeName, m.slot.server.value)
  {}

  lemma RecreateShape(m: Main)
    requires ArmFor(m) == Recreate
    ensures !Present(m.slot) && m.slot.tag.Some?
  {}

  lemma NothingBefore(writes: seq<Effect>)
    ensures [] + writes == writes
  {}

  lemma StampedWritesLower(m: Main)
    requires Pinned(m) && Stamped(m) == m
    ensures Lowering(m, PassWrites(m))
  {
    hide Pinned, Lowering, Rank, OrdinaryWrites, ArmOf, ArmWrites;
    var arm := ArmFor(m);
    if arm == HandBack {
      HandedBackShape(m);
      OrdinaryIsLowering(m);
      NothingBefore(OrdinaryWrites(m));
    } else if arm == Recreate {
      RecreateShape(m);
      if ImageConflict(m.slot.tag, m.cs.image) {
        DiscardLowers(m);
        var next := m.(slot := Apply(m.cs, DropTagForImage, m.slot));
        LoweringOne(m, OnSlot(MAIN, DropTagForImage));
        PerformOne(m, OnSlot(MAIN, DropTagForImage));
        OrdinaryIsLowering(next);
        LoweringConcat(m, [OnSlot(MAIN, DropTagForImage)], OrdinaryWrites(next));
        NothingBefore([OnSlot(MAIN, DropTagForImage)] + OrdinaryWrites(next));
      } else if m.slot.server.Some? {
        EmptyLowers(m);
        NothingBefore([]);
      } else {
        ArmIsLowering(m, arm);
        NothingBefore(ArmWrites(m.cs, Listed(m.slot), arm));
      }
    } else {
      ArmIsLowering(m, arm);
      NothingBefore(ArmWrites(m.cs, Listed(m.slot), arm));
    }
  }

  lemma StampingKeeps(m: Main)
    requires Pinned(m)
    ensures Pinned(Stamped(m)) && Stamped(m).cs == m.cs && Stamped(Stamped(m)) == Stamped(m)
    ensures Rank(m.cs.nodeName, Stamped(m).slot) == Rank(m.cs.nodeName, m.slot)
  {}

  /** The pass that dies after its first `k` writes. */
  function Dying(m: Main, k: nat): Main {
    PerformAll(m, if k <= |PassWrites(m)| then PassWrites(m)[..k] else PassWrites(m))
  }

  /** A pass that dies after any of its writes has lowered the rank, or has touched neither the pod nor
      the tag, the generation stamp aside. */
  lemma DyingNeverRaises(m: Main, k: nat)
    requires Pinned(m)
    ensures
      var next := Dying(m, k);
      && Pinned(next) && next.cs.nodeName == m.cs.nodeName
      && (next.slot in {m.slot, Stamped(m).slot} || Rank(m.cs.nodeName, next.slot) < Rank(m.cs.nodeName, m.slot))
      && Rank(m.cs.nodeName, next.slot) <= Rank(m.cs.nodeName, m.slot)
  {
    hide Pinned, Lowering, Rank, PassWrites;
    var m1, writes := Stamped(m), PassWrites(m);
    StampingKeeps(m);
    StampedWritesLower(m1);
    var j := if k <= |writes| then k else |writes|;
    assert writes[..|writes|] == writes;
    StampFirst(m);
    if m1 == m {
      PrefixLowers(m, writes, j);
    } else if j > 0 {
      assert writes[..j] == [OnSlot(MAIN, Stamp)] + PassWrites(m1)[..j - 1];
      PerformConcat(m, [OnSlot(MAIN, Stamp)], PassWrites(m1)[..j - 1]);
      PerformOne(m, OnSlot(MAIN, Stamp));
      assert Perform(m, OnSlot(MAIN, Stamp)) == m1;
      PrefixLowers(m1, PassWrites(m1), j - 1);
    }
  }

  lemma StampFirst(m: Main)
    ensures Stamped(m) != m ==> PassWrites(m) == [OnSlot(MAIN, Stamp)] + PassWrites(Stamped(m))
    ensures Stamped(m) != m ==> Perform(m, OnSlot(MAIN, Stamp)) == Stamped(m)
  {
    hide OrdinaryWrites, ArmWrites, ArmOf;
    var m1 := Stamped(m);
    if m1 != m {
      assert Stamped(m1) == m1;
      assert [] + PassWrites(m1) == PassWrites(m1);
    }
  }

  /** A pass that touches the pod or the tag lowers the rank; one that only waits leaves both alone. */
  lemma PassNeverRaises(m: Main)
    requires Pinned(m)
    ensures
      var next := Pass(m);
      && Pinned(next) && next.cs.nodeName == m.cs.nodeName
      && (next.slot == Stamped(m).slot || Rank(m.cs.nodeName, next.slot) < Rank(m.cs.nodeName, m.slot))
      && Rank(m.cs.nodeName, Stamped(m).slot) == Rank(m.cs.nodeName, m.slot)
  {
    hide Pinned, Lowering, Rank, PassWrites, Pass;
    var m1 := Stamped(m);
    var writes := PassWrites(m1);
    StampingKeeps(m);
    StampedWritesLower(m1);
    PrefixLowers(m1, writes, |writes|);
    assert writes[..|writes|] == writes;
    StampFirst(m);
    PassIsWritten(m);
    if m1 != m {
      PerformConcat(m, [OnSlot(MAIN, Stamp)], writes);
      PerformOne(m, OnSlot(MAIN, Stamp));
    }
  }

  // ---- any run ----

  /** `writes`: how many writes the pass makes before it dies; a pass that gets through makes them all. */
  datatype Step = Outside(a: VkAction) | AnotherPass(writes: nat)

  function Next(m: Main, step: Step): Main {
    match step
    case Outside(a) => m.(slot := Act(a, m.slot))
    case AnotherPass(k) => Dying(m, k)
  }

  function After(m: Main, steps: seq<Step>): Main
    decreases |steps|
  {
    if steps == [] then m else After(Next(m, steps[0]), steps[1..])
  }

  /** The passes of a run that write to the main's pod or tag, the generation stamp aside. */
  function Effectful(m: Main, steps: seq<Step>): nat
    decreases |steps|
  {
    if steps == [] then 0
    else
      (if steps[0].AnotherPass? && Next(m, steps[0]).slot !in {m.slot, Stamped(m).slot} then 1 else 0)
      + Effectful(Next(m, steps[0]), steps[1..])
  }

  /** However the world and the passes interleave, and wherever passes die, a migration to a fixed
      target makes at most as many writes as its rank, and ends no farther from the target than it
      began. */
  lemma {:induction false} EffectsAreBounded(m: Main, steps: seq<Step>)
    requires Pinned(m) && forall i | 0 <= i < |steps| && steps[i].Outside? :: Benign(steps[i].a)
    ensures
      Effectful(m, steps) + Rank(m.cs.nodeName, After(m, steps).slot) <= Rank(m.cs.nodeName, m.slot)
    decreases |steps|
  {
    hide RecordOK, Rank, Dying, Stamped, Healthy;
    if steps != [] {
      var next := Next(m, steps[0]);
      match steps[0] {
        case Outside(a) => StaysPinned(m, a);
        case AnotherPass(k) => DyingNeverRaises(m, k);
      }
      EffectsAreBounded(next, steps[1..]);
    }
  }

  lemma StaysPinned(m: Main, a: VkAction)
    requires Pinned(m) && Benign(a)
    ensures Pinned(m.(slot := Act(a, m.slot)))
    ensures Rank(m.cs.nodeName, Act(a, m.slot)) <= Rank(m.cs.nodeName, m.slot)
  {
    OutsideNeverRaises(m.cs.nodeName, a, m.slot);
  }

  // ---- a fair environment ----

  /** Between two passes a fair environment carries every pending step out: the old pod vanishes, the
      scheduler binds the new one (`node` when it is free to choose), the VM boots, freezes or thaws,
      and vk-cocoon reports. */
  function Settle(cs: CocoonSet, node: string, s: Slot): Slot {
    var bound := Act(Bind(cs.nodeName), Act(Bind(node), Act(Vanish, s)));
    Act(Report, Act(Thaw, Act(Freeze(true), Act(Boot, bound))))
  }

  function Round(m: Main, node: string): Main {
    var next := Pass(m);
    next.(slot := Settle(next.cs, node, next.slot))
  }

  /** What a fair round leaves: nothing pending, and vk-cocoon's report up to date. */
  ghost predicate Quiet(m: Main) {
    && (m.slot.server.Some? ==>
          && var p := m.slot.server.value;
          && !p.terminating && p.node != "" && p.stamp == m.cs.generation && p.observed == p.stamp
          && (if p.hibernate then p.vm == Frozen && p.state == Hibernated && m.slot.tag.Some?
              else p.vm == Live && p.state == Ready))
    && (m.slot.tag.Some? ==> !ImageConflict(m.slot.tag, m.cs.image))
  }

  /** The main came up on its target with a tag that neither the phase nor the reclaim record owes a
      delete: no later pass looks for it. */
  predicate Overlooked(m: Main) {
    && Present(m.slot) && m.slot.server.value.node == m.cs.nodeName && !m.slot.server.value.hibernate
    && m.slot.tag.Some? && m.cs.phase != Migrating && MAIN !in m.cs.record.vms
  }

  predicate Settled(m: Main) {
    && Present(m.slot) && m.slot.server.value.node == m.cs.nodeName
    && m.slot.server.value.vm == Live && !m.slot.server.value.hibernate
  }

  /** A quiet pass, arm by arm. */
  lemma QuietPass(m: Main)
    requires Pinned(m) && Quiet(m) && m.slot.server.Some?
    ensures Stamped(m) == m
    ensures
      var p := m.slot.server.value;
      var tag := m.slot.tag.Some?;
      ArmFor(m) ==
        if p.node != m.cs.nodeName then if p.hibernate then DeleteOld else if tag then DropStale else Start
        else if !tag || m.cs.phase != Migrating then HandBack
        else if p.hibernate then WakeInPlace else DropRestored
  {}

  /** The effect of one round on a quiet main. */
  ghost predicate Advances(m: Main, next: Main) {
    var target := m.cs.nodeName;
    && Pinned(next) && Quiet(next) && next.cs.nodeName == target && (Overlooked(next) <==> Overlooked(m))
    && (if Rank(target, m.slot) == 0 || Overlooked(m) then Rank(target, next.slot) == Rank(target, m.slot)
        else Rank(target, next.slot) < Rank(target, m.slot))
  }

  /** The new pod of a pass comes up on the target. */
  lemma NewPodComesUp(m: Main, restore: bool, node: string)
    requires m.slot.server.None? && m.cs.nodeName != "" && node != ""
    ensures
      var s := Settle(m.cs, node, Apply(m.cs, Create(m.cs.nodeName, restore, false), m.slot));
      && s.server == Some(Pod(m.cs.nodeName, m.cs.nodeName, m.cs.image, m.cs.shape, false, false, false, restore, m.cs.generation, Live, Ready, m.cs.generation))
      && s.tag == m.slot.tag
  {
    var created := Apply(m.cs, Create(m.cs.nodeName, restore, false), m.slot);
    var bound := Act(Bind(m.cs.nodeName), Act(Bind(node), Act(Vanish, created)));
    assert bound.server == Some(NewPod(m.cs, m.cs.nodeName, restore).(node := m.cs.nodeName));
    var booted := Act(Boot, bound);
    assert booted.server == Some(NewPod(m.cs, m.cs.nodeName, restore).(node := m.cs.nodeName, vm := Live));
  }

  lemma AbsentRound(m: Main, node: string)
    requires Pinned(m) && Quiet(m) && m.slot.server.None? && node != ""
    ensures Advances(m, Round(m, node))
  {
    hide RecordOK, Stored, PerformAll, Settle, Apply;
    if m.slot.tag.Some? {
      PerformTwo(m, OnSlot(MAIN, Create(m.cs.nodeName, true, false)), SetStatus(Migrating));
      NewPodComesUp(m, true, node);
      SettleIgnoresPhase(m.cs, m.cs.(phase := Migrating), node, Apply(m.cs, Create(m.cs.nodeName, true, false), m.slot));
    } else {
      NewPodComesUp(m, false, node);
    }
  }

  lemma SettleIgnoresPhase(a: CocoonSet, b: CocoonSet, node: string, s: Slot)
    requires a.nodeName == b.nodeName && a.image == b.image
    ensures Settle(a, node, s) == Settle(b, node, s)
  {}

  /** A bound pod that only the hibernate annotation moves. */
  lemma SettledPod(cs: CocoonSet, node: string, s: Slot)
    requires Present(s) && s.server.value.node != "" && s.server.value.vm != Booting && !s.server.value.terminal
    requires s.server.value.vm == Frozen ==> s.tag.Some?
    ensures
      var p, t := s.server.value, Settle(cs, node, s);
      && t.server == Some(if p.hibernate then p.(vm := Frozen, state := Hibernated, observed := p.stamp)
                          else p.(vm := Live, state := Ready, observed := p.stamp))
      && (if p.hibernate && p.vm == Live then t.tag == Some(Snapshot(p.image, s.guest)) else t.tag == s.tag)
  {}

  lemma DeletedPodVanishes(cs: CocoonSet, node: string, s: Slot)
    requires Present(s)
    ensures Settle(cs, node, Deleted(s)).server.None? && Settle(cs, node, Deleted(s)).tag == s.tag
  {}

  lemma OffTargetRound(m: Main, node: string)
    requires Pinned(m) && Quiet(m) && m.slot.server.Some? && m.slot.server.value.node != m.cs.nodeName && node != ""
    ensures Advances(m, Round(m, node))
  {
    hide RecordOK, Stored, PerformAll, Settle;
    QuietPass(m);
    var migrating := m.cs.(phase := Migrating);
    if m.slot.server.value.hibernate {
      PerformThree(m, OnSlot(MAIN, Keep), OnSlot(MAIN, Delete), SetStatus(Migrating));
      DeletedPodVanishes(migrating, node, m.slot);
    } else if m.slot.tag.Some? {
      PerformTwo(m, OnSlot(MAIN, DropTag), SetStatus(Migrating));
      SettledPod(migrating, node, m.slot.(tag := None));
    } else {
      assert ArmWrites(m.cs, Listed(m.slot), Start) == [SetStatus(Migrating), OnSlot(MAIN, Quiesce)];
      PerformTwo(m, SetStatus(Migrating), OnSlot(MAIN, Quiesce));
      SettledPod(migrating, node, Apply(migrating, Quiesce, m.slot));
    }
  }

  lemma OnTargetRound(m: Main, node: string)
    requires Pinned(m) && Quiet(m) && m.slot.server.Some? && m.slot.server.value.node == m.cs.nodeName && node != ""
    ensures Advances(m, Round(m, node))
  {
    hide RecordOK, Stored, PerformAll, Settle, Ordinary;
    QuietPass(m);
    if ArmFor(m) == WakeInPlace {
      PerformTwo(m, OnSlot(MAIN, Wake), SetStatus(Migrating));
      SettledPod(m.cs.(phase := Migrating), node, Apply(m.cs, Wake, m.slot));
    } else if ArmFor(m) == DropRestored {
      PerformTwo(m, OnSlot(MAIN, DropTag), SetStatus(Migrating));
      SettledPod(m.cs.(phase := Migrating), node, Apply(m.cs, DropTag, m.slot));
    } else {
      OrdinaryNeverRaises(m);
      OrdinaryOnTarget(m);
      SettledPod(Ordinary(m).cs, node, Ordinary(m).slot);
    }
  }

  lemma OrdinaryOnTarget(m: Main)
    requires Pinned(m) && Quiet(m) && m.slot.server.Some? && m.slot.server.value.node == m.cs.nodeName
    ensures
      var next, p := Ordinary(m), m.slot.server.value;
      && next.cs.generation == m.cs.generation && next.cs.nodeName == m.cs.nodeName && next.cs.image == m.cs.image
      && next.slot.server == Some(p.(hibernate := false)) && next.cs.phase != Migrating
      && (p.hibernate ==> next.slot.tag == m.slot.tag && MAIN in next.cs.record.vms)
      && (!p.hibernate && MAIN in m.cs.record.vms ==> next.slot.tag.None?)
      && (!p.hibernate && MAIN !in m.cs.record.vms ==> next.slot.tag == m.slot.tag && next.cs.record == m.cs.record)
  {
    hide RecordOK, Stored, Unsuspending, Forgotten;
    RecordingMain(m.cs.generation, m.cs.record);
  }

  /** One fair round brings a quiet main closer to its target, unless it is already there, and keeps
      an overlooked tag overlooked. */
  lemma RoundAdvances(m: Main, node: string)
    requires Pinned(m) && Quiet(m) && node != ""
    ensures Advances(m, Round(m, node))
  {
    if m.slot.server.None? {
      AbsentRound(m, node);
    } else if m.slot.server.value.node != m.cs.nodeName {
      OffTargetRound(m, node);
    } else {
      OnTargetRound(m, node);
    }
  }

  function Rounds(m: Main, nodes: seq<string>): Main
    decreases |nodes|
  {
    if nodes == [] then m else Rounds(Round(m, nodes[0]), nodes[1..])
  }

  lemma {:induction false} RoundsAdvance(m: Main, nodes: seq<string>)
    requires Pinned(m) && Quiet(m) && forall i | 0 <= i < |nodes| :: nodes[i] != ""
    ensures
      var last, target := Rounds(m, nodes), m.cs.nodeName;
      && Pinned(last) && Quiet(last) && last.cs.nodeName == target && (Overlooked(last) <==> Overlooked(m))
      && (if Overlooked(m) then Rank(target, last.slot) == Rank(target, m.slot)
          else Rank(target, last.slot) == 0 || Rank(target, last.slot) + |nodes| <= Rank(target, m.slot))
    decreases |nodes|
  {
    hide RecordOK, Round, Quiet, Pinned, Overlooked, Rank;
    if nodes != [] {
      RoundAdvances(m, nodes[0]);
      RoundsAdvance(Round(m, nodes[0]), nodes[1..]);
    }
  }

  /** A frozen VM has its memory in a tag of the current image. */
  ghost predicate Backed(m: Main) {
    && (Present(m.slot) && m.slot.server.value.vm == Frozen ==> m.slot.tag.Some?)
    && !ImageConflict(m.slot.tag, m.cs.image)
  }

  /** What a pass leaves for the environment to carry out. */
  ghost predicate Unsettled(m: Main) {
    && Pinned(m) && Backed(m)
    && (Present(m.slot) ==>
          && m.slot.server.value.stamp == m.cs.generation
          && (m.slot.server.value.node == "" ==> m.slot.server.value.pin in {"", m.cs.nodeName}))
  }

  lemma PassLeavesPending(m: Main)
    requires Pinned(m) && Backed(m)
    ensures Unsettled(Pass(m)) && Pass(m).cs.nodeName == m.cs.nodeName
  {
    hide RecordOK, Stored, PerformAll, Ordinary, Unsuspending, Forgotten;
    PassNeverRaises(m);
    var m1 := Stamped(m);
    var arm := ArmFor(m1);
    if arm == HandBack || arm == Recreate {
      OrdinaryLeavesPending(m1);
    }
    if arm != HandBack && !(arm == Recreate && m1.slot.server.Some?) {
      ArmLeavesPending(m1, arm);
    }
  }

  lemma OrdinaryLeavesPending(m: Main)
    requires Pinned(m) && Backed(m)
    requires Present(m.slot) ==>
      m.slot.server.value.stamp == m.cs.generation && !PinnedElsewhere(m.slot.server.value, m.cs.nodeName)
    ensures
      var next := Ordinary(m);
      && Backed(next) && next.cs.generation == m.cs.generation && next.cs.nodeName == m.cs.nodeName
      && (Present(next.slot) ==>
            next.slot.server.value.stamp == m.cs.generation && !PinnedElsewhere(next.slot.server.value, m.cs.nodeName))
  {
    hide RecordOK, Stored, Unsuspending, Forgotten;
  }

  lemma ArmLeavesPending(m: Main, arm: Arm)
    requires Pinned(m) && Backed(m) && arm == ArmFor(m) && arm != HandBack
    requires arm == Recreate ==> m.slot.server.None?
    requires Present(m.slot) ==> m.slot.server.value.stamp == m.cs.generation
    ensures
      var next := PerformAll(m, ArmWrites(m.cs, Listed(m.slot), arm));
      && Backed(next) && next.cs.generation == m.cs.generation && next.cs.nodeName == m.cs.nodeName
      && (Present(next.slot) ==>
            next.slot.server.value.stamp == m.cs.generation && !PinnedElsewhere(next.slot.server.value, m.cs.nodeName))
  {
    hide RecordOK, Stored, PerformAll;
    var migrating := m.cs.(phase := Migrating);
    if arm == Await || (arm == Start && m.slot.server.value.hibernate) {
      assert ArmWrites(m.cs, Listed(m.slot), arm) == [SetStatus(Migrating)];
      PerformOne(m, SetStatus(Migrating));
    } else {
      var e := OnSlot(MAIN, ArmWrite(m.cs, arm));
      if arm == RecreateUnbound {
        PerformOne(m, e);
      } else if arm == Start {
        assert ArmWrites(m.cs, Listed(m.slot), arm) == [SetStatus(Migrating), e];
        PerformTwo(m, SetStatus(Migrating), e);
      } else if arm == DeleteOld {
        PerformThree(m, OnSlot(MAIN, Keep), e, SetStatus(Migrating));
      } else {
        PerformTwo(m, e, SetStatus(Migrating));
      }
    }
  }

  /** Where a pod runs once it is bound. */
  function Landing(p: Pod, node: string): string {
    if p.node != "" then p.node else if p.pin != "" then p.pin else node
  }

  lemma ComesUp(cs: CocoonSet, node: string, s: Slot)
    requires Present(s) && Healthy(s) && cs.nodeName != "" && node != ""
    requires s.server.value.node == "" ==> s.server.value.pin in {"", cs.nodeName}
    ensures
      var p, booted := s.server.value, Act(Boot, Act(Bind(cs.nodeName), Act(Bind(node), Act(Vanish, s))));
      && Present(booted) && booted.tag == s.tag
      && var q := booted.server.value;
      && q.vm != Booting && q.node != "" && q == p.(node := q.node, vm := q.vm) && q.node == Landing(p, node)
      && (q.vm == Frozen ==> p.vm == Frozen)
      && (q.pin != "" ==> q.node == q.pin)
  {
    var bound := Act(Bind(cs.nodeName), Act(Bind(node), Act(Vanish, s)));
    assert bound.server.Some? && bound.server.value.node != "" && bound.tag == s.tag;
  }

  lemma StaysAbsent(cs: CocoonSet, node: string, s: Slot)
    requires !Present(s)
    ensures Settle(cs, node, s).server.None? && Settle(cs, node, s).tag == s.tag
  {
    assert Act(Vanish, s).server.None? && Act(Vanish, s).tag == s.tag;
  }

  lemma SettledIsQuiet(m: Main, node: string)
    requires Unsettled(m) && node != ""
    ensures var next := m.(slot := Settle(m.cs, node, m.slot)); Pinned(next) && Quiet(next)
  {
    hide RecordOK, Act;
    if Present(m.slot) {
      ComesUp(m.cs, node, m.slot);
      SettledOnce(m.cs, Act(Boot, Act(Bind(m.cs.nodeName), Act(Bind(node), Act(Vanish, m.slot)))));
    } else {
      StaysAbsent(m.cs, node, m.slot);
    }
  }

  lemma SettledOnce(cs: CocoonSet, s: Slot)
    requires Present(s) && s.server.value.vm != Booting && !s.server.value.terminal
    requires s.server.value.vm == Frozen ==> s.tag.Some?
    ensures
      var p, t := s.server.value, Act(Report, Act(Thaw, Act(Freeze(true), s)));
      && t.server == Some(if p.hibernate then p.(vm := Frozen, state := Hibernated, observed := p.stamp)
                          else p.(vm := Live, state := Ready, observed := p.stamp))
      && (t.tag == s.tag || (p.hibernate && t.tag == Some(Snapshot(p.image, s.guest))))
      && (p.hibernate ==> t.tag.Some?)
  {}

  /** Whatever the start, one fair round leaves nothing pending. */
  lemma OneRoundIsQuiet(m: Main, node: string)
    requires Pinned(m) && Backed(m) && node != ""
    ensures Pinned(Round(m, node)) && Quiet(Round(m, node)) && Round(m, node).cs.nodeName == m.cs.nodeName
  {
    PassLeavesPending(m);
    SettledIsQuiet(Pass(m), node);
  }

  const RESTORING := Pod("a", "a", "image", 0, false, false, false, true, 1, Booting, Unreported, 0)
  const REPINNED :=
    Main(CocoonSet(2, false, false, "b", "image", 0, {"image"}, {0}, 0, Migrating, "", {}, None, 0, EMPTY_RECLAIM),
         Slot(Some(RESTORING), [], Some(Snapshot("image", 1)), 1, Some(1), false, 0, 0))

  function Repinned(m: Main, generation: nat, node: string): Main {
    m.(cs := m.cs.(generation := generation, nodeName := node))
  }

  /** A main re-pinned from a to b while it restores on a, and back before it has come up: its tag is
      overlooked. The pass in between hands it back to the normal flow, which ends Migrating. */
  lemma RetargetOverlooksTag()
    ensures Pinned(REPINNED) && Backed(REPINNED)
    ensures
      var back := Repinned(Pass(REPINNED), 3, "a");
      Pinned(back) && Backed(back) && Overlooked(Round(back, "a"))
  {
    HandedBackInPending();
    var back := Repinned(Pass(REPINNED), 3, "a");
    LeftAlone(back);
    assert Unsettled(Pass(back));
    ComesUp(back.cs, "a", Pass(back).slot);
    SettledOnce(back.cs, Act(Boot, Act(Bind("a"), Act(Bind("a"), Act(Vanish, Pass(back).slot)))));
  }

  lemma HandedBackInPending()
    ensures var m := Pass(REPINNED); m.cs == REPINNED.cs.(phase := Pending) && m.slot == Apply(REPINNED.cs, Stamp, REPINNED.slot)
  {}

  lemma LeftAlone(m: Main)
    requires m.cs == REPINNED.cs.(generation := 3, nodeName := "a", phase := Pending)
    requires m.slot == Apply(REPINNED.cs, Stamp, REPINNED.slot)
    ensures Pass(m).cs == m.cs && Pass(m).slot == Apply(m.cs, Stamp, m.slot)
  {}

  // ---- from any backed start ----

  /** The main is on its target, or will be once it is bound, with a tag that neither the phase nor the
      reclaim record owes a delete; `node` is the scheduler's choice when it is free to choose. */
  predicate Overlooking(m: Main, node: string) {
    && Present(m.slot) && !m.slot.server.value.hibernate && m.slot.tag.Some?
    && m.cs.phase != Migrating && MAIN !in m.cs.record.vms
    && !PinnedElsewhere(m.slot.server.value, m.cs.nodeName) && Landing(m.slot.server.value, node) == m.cs.nodeName
  }

  lemma StampedLooksAlike(m: Main, node: string)
    ensures Overlooking(Stamped(m), node) <==> Overlooking(m, node)
    ensures Pinned(m) ==> Pinned(Stamped(m))
    ensures Backed(m) ==> Backed(Stamped(m))
  {}

  lemma ArmEndsMigrating(m: Main, arm: Arm)
    requires Pinned(m) && arm == ArmFor(m) && arm != HandBack
    requires arm == Recreate ==> m.slot.server.None?
    ensures
      var next := PerformAll(m, ArmWrites(m.cs, Listed(m.slot), arm));
      next.cs.phase == Migrating || !Present(next.slot)
  {
    hide RecordOK, Stored, PerformAll;
    if arm == Await || (arm == Start && m.slot.server.value.hibernate) {
      assert ArmWrites(m.cs, Listed(m.slot), arm) == [SetStatus(Migrating)];
      PerformOne(m, SetStatus(Migrating));
    } else {
      var e := OnSlot(MAIN, ArmWrite(m.cs, arm));
      if arm == RecreateUnbound {
        PerformOne(m, e);
      } else if arm == Start {
        assert ArmWrites(m.cs, Listed(m.slot), arm) == [SetStatus(Migrating), e];
        PerformTwo(m, SetStatus(Migrating), e);
      } else if arm == DeleteOld {
        PerformThree(m, OnSlot(MAIN, Keep), e, SetStatus(Migrating));
      } else {
        PerformTwo(m, e, SetStatus(Migrating));
      }
    }
  }

  /** A pass that neither hands the main back nor ends without it ends Migrating. */
  lemma PassEnds(m: Main)
    requires Pinned(m) && Backed(m)
    ensures
      var m1, next := Stamped(m), Pass(m);
      if ArmFor(m1) == HandBack then next == Ordinary(m1) else next.cs.phase == Migrating || !Present(next.slot)
  {
    hide RecordOK, Stored, PerformAll, Ordinary;
    var m1 := Stamped(m);
    var arm := ArmFor(m1);
    StampedLooksAlike(m, "");
    if arm != HandBack && !(arm == Recreate && m1.slot.server.Some?) {
      ArmEndsMigrating(m1, arm);
    }
  }

  /** What the normal flow leaves of a main that is there: one it owed has its tag dropped or on
      record, any other is as it was. */
  lemma OrdinaryKeeps(m: Main)
    requires Pinned(m) && Present(m.slot)
    ensures
      var next, p := Ordinary(m), m.slot.server.value;
      && Present(next.slot) && next.slot.server == Some(p.(hibernate := false)) && next.cs.phase != Migrating
      && next.cs.nodeName == m.cs.nodeName
      && (p.hibernate || MAIN in m.cs.record.vms ==> MAIN in next.cs.record.vms || next.slot.tag.None?)
      && (!p.hibernate && MAIN !in m.cs.record.vms ==> next.slot == m.slot && next.cs.record == m.cs.record)
  {
    hide RecordOK, Stored, Unsuspending, Forgotten;
    RecordingMain(m.cs.generation, m.cs.record);
  }

  lemma OrdinaryWithoutMain(m: Main)
    requires !Present(m.slot) && m.slot.tag.None?
    ensures Ordinary(m).slot.tag.None? && (Present(Ordinary(m).slot) ==> !Ordinary(m).slot.server.value.hibernate)
  {}

  /** Where a pod comes up, and with which tag. */
  lemma LandsAt(cs: CocoonSet, node: string, s: Slot)
    requires Present(s) && Healthy(s) && cs.nodeName != "" && node != ""
    requires s.server.value.node == "" ==> s.server.value.pin in {"", cs.nodeName}
    requires s.server.value.vm == Frozen ==> s.tag.Some?
    ensures
      var p, t := s.server.value, Settle(cs, node, s);
      && Present(t) && t.server.value.node == Landing(p, node) && t.server.value.hibernate == p.hibernate
      && (!p.hibernate ==> t.tag == s.tag)
  {
    hide Act;
    ComesUp(cs, node, s);
    SettledOnce(cs, Act(Boot, Act(Bind(cs.nodeName), Act(Bind(node), Act(Vanish, s)))));
  }

  /** A main that is handed back with its tag is overlooked when it is, or comes up, on its target. */
  lemma HandedBackLooks(m: Main, node: string)
    requires Pinned(m) && Present(m.slot) && ArmFor(m) == HandBack && m.slot.tag.Some? && !m.slot.server.value.hibernate
    ensures Landing(m.slot.server.value, node) == m.cs.nodeName ==> m.cs.phase != Migrating
    ensures !PinnedElsewhere(m.slot.server.value, m.cs.nodeName)
  {}

  lemma OverlookingIsHandedBack(m: Main, node: string)
    requires Pinned(m) && Overlooking(m, node) && node != ""
    ensures ArmFor(m) == HandBack
  {}

  /** One fair round overlooks a tag exactly when the start let it. */
  lemma RoundOverlooks(m: Main, node: string)
    requires Pinned(m) && Backed(m) && node != ""
    ensures Overlooked(Round(m, node)) <==> Overlooking(m, node)
  {
    hide RecordOK, Pass, Ordinary, Settle, ArmOf;
    var m1, next := Stamped(m), Pass(m);
    StampedLooksAlike(m, node);
    PassLeavesPending(m);
    PassEnds(m);
    if Overlooking(m1, node) {
      OverlookingIsHandedBack(m1, node);
    }
    if !Present(next.slot) {
      StaysAbsent(next.cs, node, next.slot);
      if ArmFor(m1) == HandBack && Present(m1.slot) {
        OrdinaryKeeps(m1);
      }
    } else {
      LandsAt(next.cs, node, next.slot);
      if ArmFor(m1) == HandBack {
        HandedBackRound(m1, node);
      }
    }
  }

  lemma AbsentTagless(m: Main)
    requires !Present(m.slot) && ArmFor(m) == HandBack && m.cs.nodeName != ""
    ensures m.slot.tag.None?
  {}

  lemma HandedBackRound(m: Main, node: string)
    requires Pinned(m) && ArmFor(m) == HandBack && node != ""
    requires Present(Ordinary(m).slot)
    requires var s := Ordinary(m).slot; var t := Settle(Ordinary(m).cs, node, s);
      && Present(t) && t.server.value.node == Landing(s.server.value, node)
      && t.server.value.hibernate == s.server.value.hibernate && (!s.server.value.hibernate ==> t.tag == s.tag)
    ensures Overlooked(Main(Ordinary(m).cs, Settle(Ordinary(m).cs, node, Ordinary(m).slot))) <==> Overlooking(m, node)
  {
    hide RecordOK, Ordinary, Settle, ArmOf;
    if Present(m.slot) {
      OrdinaryKeeps(m);
      if m.slot.tag.Some? && !m.slot.server.value.hibernate {
        HandedBackLooks(m, node);
      }
    } else {
      AbsentTagless(m);
      OrdinaryWithoutMain(m);
    }
  }

  /** After twelve fair rounds from any backed start a main with a fixed target runs there for good.
      Its tag is gone exactly when the start did not let it be overlooked. */
  lemma MigrationTerminates(m: Main, nodes: seq<string>)
    requires Pinned(m) && Backed(m) && (forall i | 0 <= i < |nodes| :: nodes[i] != "") && |nodes| >= 12
    ensures Settled(Rounds(m, nodes))
    ensures Rounds(m, nodes).slot.tag.None? <==> !Overlooking(m, nodes[0])
  {
    hide RecordOK, Round, Pass, Overlooking;
    var m1 := Round(m, nodes[0]);
    OneRoundIsQuiet(m, nodes[0]);
    RoundOverlooks(m, nodes[0]);
    RoundsAdvance(m1, nodes[1..]);
    assert Rank(m1.cs.nodeName, m1.slot) <= 11;
  }

  /** A main that waits for its target under the spec's own pin, outside Migrating, is overlooked too. */
  lemma WaitingOverlooksTag(node: string)
    requires node != ""
    ensures
      var m := Main(CocoonSet(1, false, false, "a", "image", 0, {"image"}, {0}, 0, Pending, "", {}, None, 0, EMPTY_RECLAIM),
                    Slot(Some(RESTORING.(node := "")), [], Some(Snapshot("image", 1)), 1, Some(1), false, 0, 0));
      Pinned(m) && Backed(m) && !Overlooked(m) && Overlooking(m, node)
  {}
}
