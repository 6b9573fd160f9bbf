/** The creation of missing sub-agents: fork reclaim, restore intent loaded once, parallel creates. */
module SubAgents {
  import opened World
  import opened Reclaims
  import opened Invariant
  import opened Fleet

  // ---- one worker ----

  /** A worker of the parallel create, and the tag and pod of the one VM it works on. */
  datatype Worker = Worker(
    tag: Option<Snapshot>,
    pod: Option<bool>,       // the restore mark of the VM's pod, when it has one
    step: nat,               // steps done of the three: image rule, restore mark, create
    restore: bool,
    discarded: bool,
    failed: bool)

  /** What a worker's pass has read: the image of the pod it builds, whether the reclaim record or a
      CocoonHibernation owes the VM a restore, and whether it could find out. */
  datatype Order = Order(image: string, wanted: bool, known: bool)

  /** How a call ends: answered, refused, or carried out but reported as failed. A call made after
      another worker's failure cancelled the group is one of the last two. */
  datatype Answer = Answered | Refused | Lost

  function Begin(tag: Option<Snapshot>, pod: Option<bool>): Worker {
    Worker(tag, pod, 0, false, false, false)
  }

  predicate Finished(w: Worker) {
    w.failed || w.step >= 3
  }

  function Advance(o: Order, a: Answer, w: Worker): Worker {
    if Finished(w) then w
    else if w.step == 0 then
      if !ImageConflict(w.tag, o.image) then if a == Answered then w.(step := 1) else w.(failed := true)
      else match a {
        case Answered => w.(tag := None, discarded := true, step := 1)
        case Refused => w.(failed := true)
        case Lost => w.(tag := None, failed := true)
      }
    else if w.step == 1 then
      if !o.known then w.(failed := true)
      else if !o.wanted then w.(restore := false, step := 2)
      else if a == Answered then w.(restore := w.tag.Some?, step := 2) else w.(failed := true)
    else
      var created := if w.pod.None? then Some(w.restore) else w.pod;
      match a {
        case Answered => w.(pod := created, step := 3)
        case Refused => w.(failed := true)
        case Lost => w.(pod := created, failed := true)
      }
  }

  function Complete(o: Order, w: Worker): (r: Worker)
    ensures Finished(r)
  {
    Advance(o, Answered, Advance(o, Answered, Advance(o, Answered, w)))
  }

  lemma AdvanceKeepsOutcome(o: Order, w: Worker)
    ensures Complete(o, Advance(o, Answered, w)) == Complete(o, w)
    ensures Finished(w) ==> Complete(o, w) == w
  {}

  /** How far a worker may have got from where it began, whichever of its calls failed. */
  ghost predicate Right(o: Order, tag: Option<Snapshot>, pod: Option<bool>, w: Worker) {
    && (w.tag == tag || (w.tag.None? && ImageConflict(tag, o.image)))
    && (w.discarded ==> w.tag.None? && ImageConflict(tag, o.image))
    && (w.step >= 1 ==> !ImageConflict(w.tag, o.image))
    && (w.step >= 2 ==> o.known && w.restore == (o.wanted && w.tag.Some?))
    && (w.pod == pod || (pod.None? && w.step >= 2 && w.pod == Some(w.restore)))
  }

  lemma AdvanceRight(o: Order, a: Answer, tag: Option<Snapshot>, pod: Option<bool>, w: Worker)
    requires Right(o, tag, pod, w)
    ensures Right(o, tag, pod, Advance(o, a, w))
  {}

  /** The VM would be forked over a snapshot of its own: a tag of the pod's image, owed no restore. */
  predicate ForksOverTag(o: Order, tag: Option<Snapshot>) {
    tag.Some? && !ImageConflict(tag, o.image) && !o.wanted
  }

  lemma RightMarks(o: Order, tag: Option<Snapshot>, w: Worker)
    requires Right(o, tag, None, w) && w.pod.Some?
    ensures (w.pod.value <==> w.tag.Some?) <==> !ForksOverTag(o, tag)
    ensures (w.pod.value ==> w.tag.Some?) && !ImageConflict(w.tag, o.image) && o.known
  {}

  /** A worker whose calls end, one after the other, the way `answers` gives. */
  function Course(o: Order, answers: seq<Answer>, w: Worker): Worker
    decreases |answers|
  {
    if answers == [] then w else Course(o, answers[1..], Advance(o, answers[0], w))
  }

  /** A pod comes with the last step, and without an error. */
  predicate Neat(w: Worker) {
    w.pod.Some? ==> w.step >= 3 && !w.failed
  }

  lemma {:induction false} CourseRight(o: Order, answers: seq<Answer>, tag: Option<Snapshot>, w: Worker)
    requires Right(o, tag, None, w)
    ensures Right(o, tag, None, Course(o, answers, w))
    ensures Neat(w) && Lost !in answers ==> Neat(Course(o, answers, w))
    decreases |answers|
  {
    if answers != [] {
      AdvanceRight(o, answers[0], tag, None, w);
      CourseRight(o, answers[1..], tag, Advance(o, answers[0], w));
    }
  }

  /** Whatever is refused, lost or cancelled, a pod the worker creates is restore-marked exactly when
      its tag exists, except over a tag nobody asked to restore, and never stands over a tag of another
      image; the tag goes only when it was of another image; and a worker that fails, unless an answer
      was lost, has created nothing. */
  lemma MarkedExactlyWithTag(o: Order, answers: seq<Answer>, tag: Option<Snapshot>)
    ensures
      var w := Course(o, answers, Begin(tag, None));
      && (w.pod.Some? ==>
            && ((w.pod.value <==> w.tag.Some?) <==> !ForksOverTag(o, tag))
            && (w.pod.value ==> w.tag.Some?) && !ImageConflict(w.tag, o.image) && o.known)
      && (w.tag != tag ==> ImageConflict(tag, o.image))
      && (w.failed && Lost !in answers ==> w.pod.None?)
  {
    hide Advance;
    var w := Course(o, answers, Begin(tag, None));
    CourseRight(o, answers, tag, Begin(tag, None));
    if w.pod.Some? {
      RightMarks(o, tag, w);
    }
  }

  // ---- the registry, the pods, the record ----

  type Tags = map<string, Snapshot>
  type Pods = map<string, bool>

  function Lookup<T>(m: map<string, T>, n: string): Option<T> {
    if n in m then Some(m[n]) else None
  }

  function Assign<T>(m: map<string, T>, n: string, v: Option<T>): map<string, T> {
    if v.Some? then m[n := v.value] else m - {n}
  }

  /** One step of one worker, and how its call ends. */
  datatype Turn = Turn(name: string, answer: Answer)

  /** The intent set of a pass: listed at most once, an error remembered like a result. */
  datatype Memo = NotLoaded | Loaded(names: set<string>) | LoadFailed

  /** The outcome of the parallel create on one name. */
  function OutcomeOf(o: Order, tags: Tags, pods: Pods, n: string): Worker {
    Complete(o, Begin(Lookup(tags, n), Lookup(pods, n)))
  }

  /** Creating the missing pods one after the other. */
  function Sequentially(orders: map<string, Order>, tags: Tags, pods: Pods, missing: seq<string>): (Tags, Pods)
    requires forall n | n in missing :: n in orders
    decreases |missing|
  {
    if missing == [] then (tags, pods)
    else
      var n := missing[0];
      var w := OutcomeOf(orders[n], tags, pods, n);
      Sequentially(orders, Assign(tags, n, w.tag), Assign(pods, n, w.pod), missing[1..])
  }

  lemma {:induction false} SequentialOutcome(orders: map<string, Order>, tags: Tags, pods: Pods, missing: seq<string>, n: string)
    requires (forall m | m in missing :: m in orders) && NoDup(missing)
    ensures
      var (tags', pods') := Sequentially(orders, tags, pods, missing);
      if n in missing then
        Lookup(tags', n) == OutcomeOf(orders[n], tags, pods, n).tag && Lookup(pods', n) == OutcomeOf(orders[n], tags, pods, n).pod
      else Lookup(tags', n) == Lookup(tags, n) && Lookup(pods', n) == Lookup(pods, n)
    decreases |missing|
  {
    hide Complete;
    if missing != [] {
      var m := missing[0];
      var w := OutcomeOf(orders[m], tags, pods, m);
      SequentialOutcome(orders, Assign(tags, m, w.tag), Assign(pods, m, w.pod), missing[1..], n);
    }
  }

  lemma SameEverywhere<T>(a: map<string, T>, b: map<string, T>)
    requires forall n :: Lookup(a, n) == Lookup(b, n)
    ensures a == b
  {
    forall n
      ensures n in a <==> n in b
      ensures n in a && n in b ==> a[n] == b[n]
    {
      assert Lookup(a, n) == Lookup(b, n);
    }
  }

  class Farm {
    var tags: Tags
    var pods: Pods
    var record: Reclaim
    var intent: Memo
    ghost var lists: nat     // how often the CocoonHibernations were listed in this pass

    ghost predicate Valid()
      reads this
    {
      RecordOK(record) && lists <= 1 && (intent == NotLoaded ==> lists == 0)
    }

    constructor (tags: Tags, pods: Pods, record: Reclaim)
      requires RecordOK(record)
      ensures Valid() && this.tags == tags && this.pods == pods && this.record == record && intent == NotLoaded
    {
      this.tags, this.pods, this.record, intent, lists := tags, pods, record, NotLoaded, 0;
    }

    /** restoreIntent. `restorable`: what the list would return now. */
    method LoadIntent(restorable: set<string>, answers: bool) returns (ok: bool, names: set<string>)
      requires Valid()
      modifies this`intent, this`lists
      ensures Valid() && intent != NotLoaded
      ensures old(intent) != NotLoaded ==> intent == old(intent)
      ensures old(intent) == NotLoaded ==> intent == if answers then Loaded(restorable) else LoadFailed
      ensures ok <==> intent.Loaded?
      ensures if ok then intent == Loaded(names) else names == {}
    {
      if intent == NotLoaded {
        lists := lists + 1;
        intent := if answers then Loaded(restorable) else LoadFailed;
      }
      ok, names := intent.Loaded?, if intent.Loaded? then intent.names else {};
    }

    /** The parallel creates, their steps interleaved, and their calls answered, in any way `turns`
        gives; a worker whose turns run out is finished by the wait. Whatever fails or is cancelled,
        every worker stays right; when nothing fails, the outcome is that of the sequential order. */
    method CreateInParallel(orders: map<string, Order>, missing: seq<string>, turns: seq<Turn>)
      returns (workers: map<string, Worker>)
      requires Valid() && NoDup(missing) && forall n | n in missing :: n in orders
      modifies this`tags, this`pods
      ensures Valid() && workers.Keys == Elements(missing)
      ensures AllRight(orders, missing, workers, tags, pods, old(tags), old(pods))
      ensures forall n | n in missing :: Finished(workers[n])
      ensures (forall i | 0 <= i < |turns| :: turns[i].answer == Answered) ==>
        && (tags, pods) == Sequentially(orders, old(tags), old(pods), missing)
        && forall n | n in missing :: workers[n] == OutcomeOf(orders[n], old(tags), old(pods), n)
    {
      hide Complete, Advance, OnCourse, Sequentially, AllRight, Finished;
      workers := map n | n in missing :: Begin(Lookup(tags, n), Lookup(pods, n));
      ghost var tags0, pods0 := tags, pods;
      CourseBegins(orders, missing, workers, tags, pods);
      for i := 0 to |turns|
        invariant workers.Keys == Elements(missing) && AllRight(orders, missing, workers, tags, pods, tags0, pods0)
        invariant (forall j | 0 <= j < i :: turns[j].answer == Answered) ==>
          OnCourse(orders, missing, workers, tags, pods, tags0, pods0)
      {
        var n := turns[i].name;
        if n in missing {
          AdvanceKeepsOutcome(orders[n], workers[n]);
          var w := Advance(orders[n], turns[i].answer, workers[n]);
          RightTurn(orders, missing, workers, tags, pods, tags0, pods0, n, turns[i].answer);
          if OnCourse(orders, missing, workers, tags, pods, tags0, pods0) && turns[i].answer == Answered {
            Turned(orders, missing, workers, tags, pods, tags0, pods0, n, w);
          }
          workers := workers[n := w];
          tags, pods := Assign(tags, n, w.tag), Assign(pods, n, w.pod);
        }
      }
      for i := 0 to |missing|
        invariant workers.Keys == Elements(missing) && AllRight(orders, missing, workers, tags, pods, tags0, pods0)
        invariant (forall j | 0 <= j < |turns| :: turns[j].answer == Answered) ==>
          OnCourse(orders, missing, workers, tags, pods, tags0, pods0)
        invariant forall j | 0 <= j < i :: Finished(workers[missing[j]])
      {
        var n := missing[i];
        assert n in missing;
        var w := Complete(orders[n], workers[n]);
        AdvanceKeepsOutcome(orders[n], w);
        RightFinish(orders, missing, workers, tags, pods, tags0, pods0, n);
        if OnCourse(orders, missing, workers, tags, pods, tags0, pods0) {
          Turned(orders, missing, workers, tags, pods, tags0, pods0, n, w);
        }
        workers := workers[n := w];
        tags, pods := Assign(tags, n, w.tag), Assign(pods, n, w.pod);
      }
      EachFinished(missing, workers);
      if OnCourse(orders, missing, workers, tags, pods, tags0, pods0) {
        CourseEnds(orders, missing, workers, tags, pods, tags0, pods0);
      }
    }

    /** reclaimSnapshots for the forks: `refused` are the VMs whose tag the registry fails to delete. */
    method DropForks(forks: set<string>, refused: set<string>) returns (ok: bool, gone: set<string>)
      requires Valid()
      modifies this`tags
      ensures Valid() && gone == (forks * Elements(record.vms)) - refused && (ok <==> forks * Elements(record.vms) * refused == {})
      ensures tags == old(tags) - gone
    {
      ok, gone := true, {};
      for i := 0 to |record.vms|
        invariant gone == (forks * Elements(record.vms[..i])) - refused
        invariant ok <==> forks * Elements(record.vms[..i]) * refused == {}
        invariant tags == old(tags) - gone
      {
        var vm := record.vms[i];
        assert Elements(record.vms[..i + 1]) == Elements(record.vms[..i]) + {vm};
        if vm in forks {
          if vm in refused {
            assert vm in forks * Elements(record.vms[..i + 1]) * refused;
            ok := false;
          } else {
            tags, gone := tags - {vm}, gone + {vm};
          }
        }
      }
      assert record.vms[..|record.vms|] == record.vms;
    }

    /** forgetReclaim; the write may be refused, or land unacknowledged. */
    method Forget(gone: set<string>) returns (ok: bool)
      requires Valid()
      modifies this`record
      ensures Valid() && (record == old(record) || record == Stored(Forgotten(old(record), gone)))
      ensures ok ==> Remembers(old(record), record, gone)
      ensures record == old(record) || Remembers(old(record), record, gone)
    {
      StoredIsLossless(Forgotten(record, gone));
      if forall n | n in record.vms :: n !in gone {
        return true;
      }
      if * {
        return false;
      }
      record := Stored(Forgotten(record, gone));
      ok := *;
    }

    /** reclaimUnrestoredForks: a recorded tag of a VM nobody restores goes before the VM is forked. */
    method ReclaimUnrestoredForks(missing: seq<string>, restorable: set<string>, answers: bool, refused: set<string>)
      returns (ok: bool)
      requires Valid() && intent == NotLoaded
      modifies this`tags, this`record, this`intent, this`lists
      ensures Valid() && intent in {NotLoaded, if answers then Loaded(restorable) else LoadFailed}
      ensures ForgetsOnlyGone(old(tags), tags, old(record), record)
      ensures ok ==> forall n | n in missing ::
        && Reclaimed(old(record), restorable, answers, Lookup(old(tags), n), Lookup(tags, n), n)
        && (n in record.restore <==> n in old(record).restore)
    {
      if missing == [] || record.vms == [] {
        return true;
      }
      var names;
      ok, names := LoadIntent(restorable, answers);
      if !ok {
        return;
      }
      var forks := set n | n in missing && n !in names && n !in record.restore;
      var gone;
      ok, gone := DropForks(forks, refused);
      ghost var owed := Elements(record.vms);
      var forgotten := Forget(gone);
      if ok {
        forall n | n in missing && n in owed && !Wanted(old(record), names, n)
          ensures n !in tags
        {
          assert n in forks * owed && n !in forks * owed * refused;
        }
      }
      ok := ok && forgotten;
    }

    /** ensureSubAgents, the missing pods: reclaim the forks, create in parallel, forget what the image
        rule discarded. Whatever fails on the way, every pod created without a tag is unmarked, and
        every one with a tag is marked, unless its tag was one that nobody had on record. */
    method EnsureMissing(missing: seq<string>, image: string, restorable: set<string>, answers: bool,
                         refused: set<string>, turns: seq<Turn>) returns (ok: bool)
      requires Valid() && NoDup(missing) && intent == NotLoaded
      modifies this`tags, this`pods, this`record, this`intent, this`lists
      ensures Valid() && ForgetsOnlyGone(old(tags), tags, old(record), record)
      ensures forall n :: Lookup(pods, n) == Lookup(old(pods), n) || (n in missing && n !in old(pods))
      ensures forall n | n in missing && n !in old(pods) && n in pods ::
        CreatedRight(old(record), restorable, image, Lookup(old(tags), n), Lookup(tags, n), pods[n], n)
    {
      hide Complete, Sequentially, ForgetsOnlyGone, CreatedRight, Remembers, RecordOK, Reclaimed, OrderOf, Right, AllRight, Finished;
      ghost var tags0, record0 := tags, record;
      ok := ReclaimUnrestoredForks(missing, restorable, answers, refused);
      if !ok || missing == [] {
        return;
      }
      ghost var tags1, record1, pods1 := tags, record, pods;
      var listed, names := LoadIntent(restorable, answers);
      var orders := map n | n in missing :: OrderOf(record, names, listed, image, n);
      var workers := CreateInParallel(orders, missing, turns);
      var discarded := set n | n in missing && workers[n].discarded;
      forall n | n in missing && n !in pods1 && n in pods
        ensures CreatedRight(record0, restorable, image, Lookup(tags0, n), Lookup(tags, n), pods[n], n)
      {
        RightWorker(orders, missing, workers, tags, pods, tags1, pods1, n);
        CreatedByWorker(record0, record1, restorable, names, listed, image, Lookup(tags0, n), Lookup(tags1, n), workers[n], n);
      }
      CreatesOnlyMissing(orders, missing, workers, tags, pods, tags1, pods1);
      TagsOnlyShrink(orders, missing, workers, tags, pods, tags1, pods1, discarded);
      var forgotten := Forget(discarded);
      ForgettingDiscarded(tags0, tags1, tags, record0, record1, record, discarded);
      ok := forgotten && forall n | n in missing :: !workers[n].failed;
    }

    /** The registry, the pods and the record of a set whose runs keep the cluster's invariant. */
    ghost predicate Mirrors(w: World)
      reads this
    {
      && record == w.cs.record
      && (forall n | n in w.slots :: Lookup(tags, n) == w.slots[n].tag)
      && (forall n | n in w.slots :: n in pods <==> w.slots[n].server.Some?)
    }

    /** The same in any state of a run, by the debt alone: outside the CocoonHibernations a missing
        sub-agent is created restore-marked exactly when its tag exists. */
    method EnsureMissingOf(ghost w: World, missing: seq<string>, image: string, restorable: set<string>, answers: bool,
                           refused: set<string>, turns: seq<Turn>) returns (ok: bool)
      requires Valid() && NoDup(missing) && intent == NotLoaded
      requires SafeWorld(w) && !w.pinning && Mirrors(w) && forall n | n in missing :: n in w.slots
      modifies this`tags, this`pods, this`record, this`intent, this`lists
      ensures Valid() && ForgetsOnlyGone(old(tags), tags, old(record), record)
      ensures forall n | n in missing && n !in w.crs && n !in old(pods) && n in pods ::
        (pods[n] <==> n in tags) && !ImageConflict(Lookup(tags, n), image)
    {
      hide SafeWorld, ForgetsOnlyGone;
      ghost var tags0, pods0, record0 := tags, pods, record;
      ok := EnsureMissing(missing, image, restorable, answers, refused, turns);
      forall n | n in missing && n !in w.crs && n !in pods0 && n in pods
        ensures (pods[n] <==> n in tags) && !ImageConflict(Lookup(tags, n), image)
      {
        NothingOverlooked(w, restorable, image, n);
      }
    }
  }

  /** While the debt is kept no VM has a tag but a recorded one. */
  lemma TagIsRecorded(w: World, n: string)
    requires SafeWorld(w) && !w.pinning && n in w.slots && n !in w.crs
    ensures w.slots[n].tag.Some? ==> n in w.cs.record.vms
  {
    assert Owed(w.cs, n, w.slots[n]);
  }

  /** So no member outside the CocoonHibernations has a tag that is overlooked. */
  lemma NothingOverlooked(w: World, restorable: set<string>, image: string, n: string)
    requires SafeWorld(w) && !w.pinning && n in w.slots && n !in w.crs
    ensures !OverlookedTag(w.cs.record, restorable, image, w.slots[n].tag, n)
  {
    TagIsRecorded(w, n);
  }

  // ---- such members exist ----

  const SUB := "set-1"

  function SetAt(generation: nat, suspend: bool, record: Reclaim): CocoonSet {
    CocoonSet(generation, suspend, false, "", "image", 0, {"image"}, {0}, 0, Running, "", {}, None, 0, record)
  }

  /** Forked and booted, at work; asked to hibernate by a suspend, and hibernated. */
  function Hibernating(): Slot {
    var first := SetAt(1, false, EMPTY_RECLAIM);
    var suspended := SetAt(2, true, Reclaim(0, [SUB], [], [SUB]));
    var booted := Act(Boot, Act(Bind("a"), Apply(first, Create("", false, true), Slot(None, [], None, 0, None, false, 0, 0))));
    var quiet := if booted.server.Some? then Apply(suspended, Quiesce, Apply(suspended, Stamp, Act(Work, booted))) else booted;
    Act(Freeze(true), quiet)
  }

  /** Then the kubelet gives the pod up; the set runs again, and its pod is woken, deleted to be built
      anew, and gone. */
  function Discarded(): Slot {
    var running := SetAt(3, false, Reclaim(3, [SUB], [], []));
    var failed := Act(Terminate, Hibernating());
    var woken := if failed.server.Some? then Apply(running, Wake, Apply(running, Stamp, failed)) else failed;
    Act(Vanish, Apply(running, Retire, woken))
  }

  lemma HibernatingIs()
    ensures
      var s := Hibernating();
      && s.server == Some(Pod("a", "", "image", 0, false, false, true, false, 2, Frozen, Unreported, 0))
      && s.tag == Some(Snapshot("image", 1)) && s.quiesced == 2 && !s.excused && s.claim == Some(1) && s.guest == 1
  {}

  lemma DiscardedIs()
    ensures var s := Discarded(); s == Slot(None, s.past, Some(Snapshot("image", 1)), 1, None, true, 2, s.own)
  {
    hide Hibernating;
    HibernatingIs();
  }

  /** A run reaches a missing member with a tag, on the record: a list that has caught up shows no pod,
      and the state keeps the invariant, whether the record owes the VM a restore or not. */
  lemma MissingWithTag(owed: bool)
    ensures
      var s := Caught(false, Discarded(), |Discarded().past|);
      var cs := SetAt(3, false, Reclaim(3, [SUB], if owed then [SUB] else [], []));
      var w := World(false, {}, cs, map[MAIN := Slot(None, [], None, 0, None, false, 0, 0), SUB := s]);
      && s.server.None? && s.tag.Some? && Inv(w) && SafeWorld(w)
  {
    hide Hibernating, Discarded;
    DiscardedIs();
    var s := Caught(false, Discarded(), |Discarded().past|);
    assert s == Slot(None, [], Some(Snapshot("image", 1)), 1, None, true, 2, 0);
    var cs := SetAt(3, false, Reclaim(3, [SUB], if owed then [SUB] else [], []));
    var w := World(false, {}, cs, map[MAIN := Slot(None, [], None, 0, None, false, 0, 0), SUB := s]);
    assert TogglingSlot(cs, SUB, s) && TogglingSlot(cs, MAIN, w.slots[MAIN]);
    assert Inv(w);
    InvIsSafe(w);
  }

  /** However far each worker is, the rest of its steps lead to the outcome of the start, and nobody
      else has touched its tag or its pod. */
  ghost predicate OnCourse(orders: map<string, Order>, missing: seq<string>, workers: map<string, Worker>,
                           tags: Tags, pods: Pods, tags0: Tags, pods0: Pods)
    requires forall n | n in missing :: n in orders
  {
    && (forall n | n in missing :: n in workers && Complete(orders[n], workers[n]) == OutcomeOf(orders[n], tags0, pods0, n))
    && (forall n | n in missing :: n in workers && workers[n].tag == Lookup(tags, n) && workers[n].pod == Lookup(pods, n))
    && (forall n | n !in missing :: Lookup(tags, n) == Lookup(tags0, n) && Lookup(pods, n) == Lookup(pods0, n))
  }

  /** Every worker is right, its tag and pod are those of the registry and the cluster, and nobody else
      has touched them. */
  ghost predicate AllRight(orders: map<string, Order>, missing: seq<string>, workers: map<string, Worker>,
                           tags: Tags, pods: Pods, tags0: Tags, pods0: Pods)
    requires forall n | n in missing :: n in orders
  {
    && (forall n | n in missing :: n in workers && Right(orders[n], Lookup(tags0, n), Lookup(pods0, n), workers[n]))
    && (forall n | n in missing :: n in workers && workers[n].tag == Lookup(tags, n) && workers[n].pod == Lookup(pods, n))
    && (forall n | n !in missing :: Lookup(tags, n) == Lookup(tags0, n) && Lookup(pods, n) == Lookup(pods0, n))
  }

  lemma CourseBegins(orders: map<string, Order>, missing: seq<string>, workers: map<string, Worker>, tags: Tags, pods: Pods)
    requires forall n | n in missing :: n in orders && n in workers && workers[n] == Begin(Lookup(tags, n), Lookup(pods, n))
    ensures OnCourse(orders, missing, workers, tags, pods, tags, pods)
    ensures AllRight(orders, missing, workers, tags, pods, tags, pods)
  {}

  lemma RightStep(orders: map<string, Order>, missing: seq<string>, workers: map<string, Worker>,
                  tags: Tags, pods: Pods, tags0: Tags, pods0: Pods, n: string, w: Worker)
    requires forall m | m in missing :: m in orders
    requires AllRight(orders, missing, workers, tags, pods, tags0, pods0) && n in missing
    requires Right(orders[n], Lookup(tags0, n), Lookup(pods0, n), w)
    ensures AllRight(orders, missing, workers[n := w], Assign(tags, n, w.tag), Assign(pods, n, w.pod), tags0, pods0)
  {
    hide Right;
    forall m | m != n
      ensures Lookup(Assign(tags, n, w.tag), m) == Lookup(tags, m) && Lookup(Assign(pods, n, w.pod), m) == Lookup(pods, m)
    {}
  }

  lemma RightTurn(orders: map<string, Order>, missing: seq<string>, workers: map<string, Worker>,
                  tags: Tags, pods: Pods, tags0: Tags, pods0: Pods, n: string, a: Answer)
    requires forall m | m in missing :: m in orders
    requires AllRight(orders, missing, workers, tags, pods, tags0, pods0) && n in missing && n in workers
    ensures
      var w := Advance(orders[n], a, workers[n]);
      AllRight(orders, missing, workers[n := w], Assign(tags, n, w.tag), Assign(pods, n, w.pod), tags0, pods0)
  {
    hide Right, Advance;
    AdvanceRight(orders[n], a, Lookup(tags0, n), Lookup(pods0, n), workers[n]);
    RightStep(orders, missing, workers, tags, pods, tags0, pods0, n, Advance(orders[n], a, workers[n]));
  }

  lemma RightFinish(orders: map<string, Order>, missing: seq<string>, workers: map<string, Worker>,
                    tags: Tags, pods: Pods, tags0: Tags, pods0: Pods, n: string)
    requires forall m | m in missing :: m in orders
    requires AllRight(orders, missing, workers, tags, pods, tags0, pods0) && n in missing && n in workers
    ensures
      var w := Complete(orders[n], workers[n]);
      AllRight(orders, missing, workers[n := w], Assign(tags, n, w.tag), Assign(pods, n, w.pod), tags0, pods0)
  {
    hide Right, Advance;
    var o, tag, pod := orders[n], Lookup(tags0, n), Lookup(pods0, n);
    var one := Advance(o, Answered, workers[n]);
    var two := Advance(o, Answered, one);
    AdvanceRight(o, Answered, tag, pod, workers[n]);
    AdvanceRight(o, Answered, tag, pod, one);
    AdvanceRight(o, Answered, tag, pod, two);
    RightStep(orders, missing, workers, tags, pods, tags0, pods0, n, Complete(o, workers[n]));
  }

  lemma EachFinished(missing: seq<string>, workers: map<string, Worker>)
    requires forall j | 0 <= j < |missing| :: missing[j] in workers && Finished(workers[missing[j]])
    ensures forall n | n in missing :: n in workers && Finished(workers[n])
  {}

  lemma Turned(orders: map<string, Order>, missing: seq<string>, workers: map<string, Worker>,
             tags: Tags, pods: Pods, tags0: Tags, pods0: Pods, n: string, w: Worker)
    requires forall m | m in missing :: m in orders
    requires OnCourse(orders, missing, workers, tags, pods, tags0, pods0)
    requires n in missing && n in workers && Complete(orders[n], w) == Complete(orders[n], workers[n])
    ensures OnCourse(orders, missing, workers[n := w], Assign(tags, n, w.tag), Assign(pods, n, w.pod), tags0, pods0)
  {
    hide Complete, OutcomeOf;
    forall m | m != n
      ensures Lookup(Assign(tags, n, w.tag), m) == Lookup(tags, m) && Lookup(Assign(pods, n, w.pod), m) == Lookup(pods, m)
    {}
  }

  lemma AllFinished(orders: map<string, Order>, missing: seq<string>, workers: map<string, Worker>)
    requires forall n | n in missing :: n in orders && n in workers
    requires forall j | 0 <= j < |missing| :: missing[j] in workers && Finished(workers[missing[j]])
    ensures forall n | n in missing :: Complete(orders[n], workers[n]) == workers[n]
  {
    forall n | n in missing
      ensures Complete(orders[n], workers[n]) == workers[n]
    {
      var j :| 0 <= j < |missing| && missing[j] == n;
      AdvanceKeepsOutcome(orders[n], workers[n]);
    }
  }

  lemma CourseEnds(orders: map<string, Order>, missing: seq<string>, workers: map<string, Worker>,
                   tags: Tags, pods: Pods, tags0: Tags, pods0: Pods)
    requires NoDup(missing) && forall m | m in missing :: m in orders
    requires OnCourse(orders, missing, workers, tags, pods, tags0, pods0)
    requires workers.Keys == Elements(missing)
    requires forall j | 0 <= j < |missing| :: missing[j] in workers && Finished(workers[missing[j]])
    ensures (tags, pods) == Sequentially(orders, tags0, pods0, missing)
    ensures forall n | n in missing :: workers[n] == OutcomeOf(orders[n], tags0, pods0, n)
  {
    hide Complete, Sequentially;
    AllFinished(orders, missing, workers);
    var (tags', pods') := Sequentially(orders, tags0, pods0, missing);
    forall n
      ensures Lookup(tags, n) == Lookup(tags', n) && Lookup(pods, n) == Lookup(pods', n)
    {
      SequentialOutcome(orders, tags0, pods0, missing, n);
    }
    SameEverywhere(tags, tags');
    SameEverywhere(pods, pods');
  }

  predicate Wanted(r: Reclaim, restorable: set<string>, n: string) {
    n in r.restore || n in restorable
  }

  /** What the worker of one name reads; without the intent set a VM not on record cannot be marked. */
  function OrderOf(r: Reclaim, names: set<string>, listed: bool, image: string, n: string): Order {
    Order(image, Wanted(r, names, n), listed || n in r.restore)
  }

  /** A tag of the pod's image that no record owes a delete and nobody asked to restore. */
  predicate OverlookedTag(r: Reclaim, restorable: set<string>, image: string, tag: Option<Snapshot>, n: string) {
    tag.Some? && !ImageConflict(tag, image) && n !in r.vms && !Wanted(r, restorable, n)
  }

  /** The record without the names gone. */
  ghost predicate Remembers(r: Reclaim, r': Reclaim, gone: set<string>) {
    && (forall n :: n in r'.vms <==> n in r.vms && n !in gone)
    && (forall n :: n in r'.restore <==> n in r.restore && n !in gone)
  }

  /** A VM leaves the record only when its tag is gone, and no tag appears. */
  ghost predicate ForgetsOnlyGone(tags: Tags, tags': Tags, r: Reclaim, r': Reclaim) {
    && (forall n | n in tags' :: n in tags && tags'[n] == tags[n])
    && (forall n | n in r.vms && n in tags' :: n in r'.vms)
    && (forall n | n in r'.vms :: n in r.vms)
  }

  lemma RightWorker(orders: map<string, Order>, missing: seq<string>, workers: map<string, Worker>,
                    tags: Tags, pods: Pods, tags0: Tags, pods0: Pods, n: string)
    requires forall m | m in missing :: m in orders
    requires AllRight(orders, missing, workers, tags, pods, tags0, pods0) && n in missing
    ensures n in workers && Right(orders[n], Lookup(tags0, n), Lookup(pods0, n), workers[n])
    ensures workers[n].tag == Lookup(tags, n) && workers[n].pod == Lookup(pods, n)
  {}

  lemma CreatesOnlyMissing(orders: map<string, Order>, missing: seq<string>, workers: map<string, Worker>,
                           tags: Tags, pods: Pods, tags0: Tags, pods0: Pods)
    requires forall m | m in missing :: m in orders
    requires AllRight(orders, missing, workers, tags, pods, tags0, pods0)
    ensures forall n :: Lookup(pods, n) == Lookup(pods0, n) || (n in missing && n !in pods0)
  {
    forall n
      ensures Lookup(pods, n) == Lookup(pods0, n) || (n in missing && n !in pods0)
    {
      if n in missing {
        RightWorker(orders, missing, workers, tags, pods, tags0, pods0, n);
      }
    }
  }

  lemma TagsOnlyShrink(orders: map<string, Order>, missing: seq<string>, workers: map<string, Worker>,
                       tags: Tags, pods: Pods, tags0: Tags, pods0: Pods, discarded: set<string>)
    requires forall m | m in missing :: m in orders
    requires AllRight(orders, missing, workers, tags, pods, tags0, pods0)
    requires forall n | n in discarded :: n in missing && n in workers && workers[n].discarded
    ensures forall n | n in tags :: n in tags0 && tags[n] == tags0[n]
    ensures forall n | n in discarded :: n !in tags
  {
    forall n | n in tags
      ensures n in tags0 && tags[n] == tags0[n]
    {
      assert Lookup(tags, n) == Some(tags[n]);
      if n in missing {
        RightWorker(orders, missing, workers, tags, pods, tags0, pods0, n);
      }
    }
    forall n | n in discarded
      ensures n !in tags
    {
      RightWorker(orders, missing, workers, tags, pods, tags0, pods0, n);
    }
  }

  lemma ForgettingDiscarded(a: Tags, b: Tags, c: Tags, r: Reclaim, r': Reclaim, r'': Reclaim, discarded: set<string>)
    requires ForgetsOnlyGone(a, b, r, r') && (forall n | n in c :: n in b && c[n] == b[n])
    requires forall n | n in discarded :: n !in c
    requires r'' == r' || Remembers(r', r'', discarded)
    ensures ForgetsOnlyGone(a, c, r, r'')
  {}

  /** The pod is marked exactly when its tag exists, but for an overlooked tag; its tag is never of
      another image. */
  ghost predicate CreatedRight(r: Reclaim, restorable: set<string>, image: string,
                               before: Option<Snapshot>, tag: Option<Snapshot>, marked: bool, n: string) {
    && ((marked <==> tag.Some?) <==> !OverlookedTag(r, restorable, image, before, n))
    && (marked ==> tag.Some?)
    && !ImageConflict(tag, image)
  }

  /** What the fork reclaim leaves of one VM's tag. */
  ghost predicate Reclaimed(r: Reclaim, restorable: set<string>, listed: bool, before: Option<Snapshot>, tag: Option<Snapshot>, n: string) {
    && (tag == before || (tag.None? && listed && n in r.vms && !Wanted(r, restorable, n)))
    && (listed && n in r.vms && !Wanted(r, restorable, n) ==> tag.None?)
  }

  lemma CreatedByWorker(r: Reclaim, r': Reclaim, restorable: set<string>, names: set<string>, listed: bool, image: string,
                        before: Option<Snapshot>, tag: Option<Snapshot>, w: Worker, n: string)
    requires Reclaimed(r, restorable, listed, before, tag, n)
    requires (n in r'.restore <==> n in r.restore) && (listed ==> names == restorable) && (!listed ==> names == {})
    requires Right(OrderOf(r', names, listed, image, n), tag, None, w) && w.pod.Some?
    ensures CreatedRight(r, restorable, image, before, w.tag, w.pod.value, n)
  {
    RightMarks(OrderOf(r', names, listed, image, n), tag, w);
  }

  /** Outside the debt a tag may be overlooked: no record owes it a delete, and the CocoonHibernation
      that pushed it, if one did, is not in a phase that restores. It survives, and the pod is forked
      over it. */
  lemma UnrecordedTagIsForkedOver()
    ensures
      var tag := Some(Snapshot("image", 1));
      var w := Complete(OrderOf(EMPTY_RECLAIM, {}, true, "image", "vm"), Begin(tag, None));
      OverlookedTag(EMPTY_RECLAIM, {}, "image", tag, "vm") && w.pod == Some(false) && w.tag == tag
  {}
}
