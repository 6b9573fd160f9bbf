/** The rebuild budget: how often a pod that is terminal or drifted may be deleted for recreate, when
    it is parked instead, and why pruning the history changes no decision. */
module Rebuilds {
  import opened World

  // ---- decisions ----

  const SECOND: int := 1_000_000_000
  const MAX_ATTEMPTS: nat := 4

  datatype Entry = Entry(count: nat, lastDeleted: int, generation: nat, parked: bool)

  type History = map<string, Entry>

  datatype Member = Member(terminal: bool, matches: bool, letter: Option<nat>)

  datatype Decision =
    | Leave                 // healthy, or parked at this generation
    | Wait(remaining: int)
    | Park                  // past the budget: dead-letter the pod
    | Rebuild(attempt: nat)
    | Lift                  // dead-lettered at an older generation: rebuild with a fresh budget

  function BackoffDelay(priorCount: nat): int {
    match priorCount
    case 0 => 0
    case 1 => 1 * SECOND
    case 2 => 5 * SECOND
    case _ => 30 * SECOND
  }

  /** The entry that counts at this generation; an older one is as good as none. */
  function Current(h: History, name: string, generation: nat): Entry {
    if name in h && h[name].generation == generation then h[name] else Entry(0, 0, generation, false)
  }

  function Decide(generation: nat, h: History, name: string, pod: Member, now: int): Decision {
    if !pod.terminal && pod.matches then Leave
    else if pod.letter == Some(generation) then Leave
    else if pod.letter.Some? then Lift
    else
      var entry := Current(h, name, generation);
      if entry.count >= MAX_ATTEMPTS then Park
      else if BackoffDelay(entry.count) > 0 && BackoffDelay(entry.count) - (now - entry.lastDeleted) > 0 then
        Wait(BackoffDelay(entry.count) - (now - entry.lastDeleted))
      else Rebuild(entry.count + 1)
  }

  predicate BudgetExhausted(generation: nat, h: History, name: string) {
    name in h && h[name].generation == generation && h[name].parked
  }

  /** encodeRebuildHistory keeps only the pods the spec still names. */
  function Pruned(h: History, desired: set<string>): History {
    map n | n in h && n in desired :: h[n]
  }

  function Updated(h: History, name: string, entry: Option<Entry>): History {
    if entry.Some? then h[name := entry.value] else h - {name}
  }

  function Encoded(prune: bool, h: History, desired: set<string>): History {
    if prune then Pruned(h, desired) else h
  }

  /** The history once a decision has been recorded; a decision with nothing to record leaves it. */
  function Recorded(prune: bool, generation: nat, desired: set<string>, h: History, name: string, d: Decision, now: int): History {
    var entry := Current(h, name, generation);
    match d
    case Leave => h
    case Wait(_) => h
    case Park => if entry.parked then h else Encoded(prune, Updated(h, name, Some(entry.(parked := true))), desired)
    case Lift => if name in h then Encoded(prune, Updated(h, name, None), desired) else h
    case Rebuild(attempt) =>
      Encoded(prune, Updated(h, name, Some(entry.(count := attempt, lastDeleted := now))), desired)
  }

  // ---- a history that is not current ----

  /** Two entries spend the budget alike. */
  predicate SpendAlike(e: Entry, f: Entry) {
    || (e.count >= MAX_ATTEMPTS && f.count >= MAX_ATTEMPTS)
    || (e.count == f.count && (e.count == 0 || e.lastDeleted == f.lastDeleted))
  }

  /** A pass that reads an older history decides every pod at every time as with the current one exactly
      when the two spend the budget of the name alike. */
  lemma StaleHistoryIff(generation: nat, stale: History, h: History, name: string)
    ensures (forall pod, now :: Decide(generation, stale, name, pod, now) == Decide(generation, h, name, pod, now))
       <==> SpendAlike(Current(stale, name, generation), Current(h, name, generation))
  {
    var e, f, pod := Current(stale, name, generation), Current(h, name, generation), Member(true, true, None);
    if !SpendAlike(e, f) {
      var late := (if e.lastDeleted < f.lastDeleted then f.lastDeleted else e.lastDeleted) + 30 * SECOND;
      if e.count != f.count {
        assert Decide(generation, stale, name, pod, late) != Decide(generation, h, name, pod, late);
      } else {
        var early := if e.lastDeleted < f.lastDeleted then e.lastDeleted else f.lastDeleted;
        assert Decide(generation, stale, name, pod, early) != Decide(generation, h, name, pod, early);
      }
    }
  }

  /** A cached set bypasses the budget: past the last attempt, an empty history rebuilds again. */
  lemma StaleHistoryBypasses()
    ensures
      var h: History := map["vm" := Entry(MAX_ATTEMPTS, 0, 1, false)];
      && Decide(1, h, "vm", Member(true, true, None), 0) == Park
      && Decide(1, map[], "vm", Member(true, true, None), 0) == Rebuild(1)
  {}

  // ---- pruning is invisible ----

  datatype Event =
    | SpecEdit(names: set<string>)
    | Triage(name: string, pod: Member, now: int, landed: bool)   // landed: the history write took effect
    | Missing(name: string)

  datatype Verdict = Decided(d: Decision) | StaysAbsent(absent: bool)

  /** The decisions of a run that prunes on every write, or never. Only desired names are looked at. */
  function Verdicts(prune: bool, generation: nat, desired: set<string>, h: History, events: seq<Event>): seq<Verdict>
    decreases |events|
  {
    if events == [] then []
    else
      match events[0]
      case SpecEdit(names) => Verdicts(prune, generation + 1, names, h, events[1..])
      case Triage(name, pod, now, landed) =>
        if name !in desired then Verdicts(prune, generation, desired, h, events[1..])
        else
          var d := Decide(generation, h, name, pod, now);
          var h' := if landed then Recorded(prune, generation, desired, h, name, d, now) else h;
          [Decided(d)] + Verdicts(prune, generation, desired, h', events[1..])
      case Missing(name) =>
        if name !in desired then Verdicts(prune, generation, desired, h, events[1..])
        else [StaysAbsent(BudgetExhausted(generation, h, name))] + Verdicts(prune, generation, desired, h, events[1..])
  }

  /** Two histories that agree on what counts now, and hold nothing from the future. */
  ghost predicate Agree(generation: nat, desired: set<string>, a: History, b: History) {
    && (forall n | n in desired :: Current(a, n, generation) == Current(b, n, generation))
    && (forall n | n in a :: a[n].generation <= generation)
    && (forall n | n in b :: b[n].generation <= generation)
  }

  lemma RecordedAgree(generation: nat, desired: set<string>, a: History, b: History, name: string, pod: Member, now: int)
    requires Agree(generation, desired, a, b) && name in desired
    ensures Decide(generation, a, name, pod, now) == Decide(generation, b, name, pod, now)
    ensures
      var d := Decide(generation, a, name, pod, now);
      Agree(generation, desired, Recorded(true, generation, desired, a, name, d, now),
                                 Recorded(false, generation, desired, b, name, d, now))
  {}

  lemma {:induction false} AgreeingVerdicts(generation: nat, desired: set<string>, a: History, b: History, events: seq<Event>)
    requires Agree(generation, desired, a, b)
    ensures Verdicts(true, generation, desired, a, events) == Verdicts(false, generation, desired, b, events)
    decreases |events|
  {
    hide Recorded, Decide;
    if events != [] {
      match events[0] {
        case SpecEdit(names) => AgreeingVerdicts(generation + 1, names, a, b, events[1..]);
        case Missing(name) =>
          assert name in desired ==> BudgetExhausted(generation, a, name) == Current(a, name, generation).parked;
          assert name in desired ==> BudgetExhausted(generation, b, name) == Current(b, name, generation).parked;
          AgreeingVerdicts(generation, desired, a, b, events[1..]);
        case Triage(name, pod, now, landed) =>
          if name in desired {
            RecordedAgree(generation, desired, a, b, name, pod, now);
            var d := Decide(generation, a, name, pod, now);
            if landed {
              AgreeingVerdicts(generation, desired, Recorded(true, generation, desired, a, name, d, now),
                               Recorded(false, generation, desired, b, name, d, now), events[1..]);
            } else {
              AgreeingVerdicts(generation, desired, a, b, events[1..]);
            }
          } else {
            AgreeingVerdicts(generation, desired, a, b, events[1..]);
          }
      }
    }
  }

  /** Every delete, wait, park and absent decision of a run is the one a never-pruned history gives. */
  lemma PruningIsInvisible(generation: nat, desired: set<string>, events: seq<Event>)
    ensures Verdicts(true, generation, desired, map[], events) == Verdicts(false, generation, desired, map[], events)
  {
    AgreeingVerdicts(generation, desired, map[], map[], events);
  }

  // ---- what the budget promises, on the record of a run ----

  /** One delete: a lift, or the budgeted delete of an attempt, with the time the history recorded for
      the attempt and the time the delete landed. */
  datatype Deletion = Deletion(name: string, generation: nat, lift: bool, attempt: nat, recorded: int, at: int)

  /** The deletes of the pods `names` at a generation. */
  function Deletes(log: seq<Deletion>, names: set<string>, generation: nat, lift: bool): nat
    decreases |log|
  {
    if log == [] then 0
    else
      var d := log[|log| - 1];
      Deletes(log[..|log| - 1], names, generation, lift)
      + if d.name in names && d.generation == generation && d.lift == lift then 1 else 0
  }

  lemma {:induction false} DeletesSplit(log: seq<Deletion>, names: set<string>, n: string, generation: nat, lift: bool)
    requires n in names
    ensures Deletes(log, names, generation, lift)
         == Deletes(log, names - {n}, generation, lift) + Deletes(log, {n}, generation, lift)
    decreases |log|
  {
    if log != [] {
      DeletesSplit(log[..|log| - 1], names, n, generation, lift);
    }
  }

  lemma {:induction false} NoNamesNoDeletes(log: seq<Deletion>, generation: nat, lift: bool)
    ensures Deletes(log, {}, generation, lift) == 0
    decreases |log|
  {
    if log != [] {
      NoNamesNoDeletes(log[..|log| - 1], generation, lift);
    }
  }

  lemma {:induction false} BoundedEachBoundedAll(log: seq<Deletion>, names: set<string>, generation: nat, lift: bool, k: nat)
    requires forall n | n in names :: Deletes(log, {n}, generation, lift) <= k
    ensures Deletes(log, names, generation, lift) <= k * |names|
    decreases |names|
  {
    if names == {} {
      NoNamesNoDeletes(log, generation, lift);
    } else {
      var n :| n in names;
      DeletesSplit(log, names, n, generation, lift);
      BoundedEachBoundedAll(log, names - {n}, generation, lift, k);
      var rest := |names - {n}|;
      assert |names| == rest + 1;
      assert k * (rest + 1) == k * rest + k;
    }
  }

  type Key = (string, nat)

  /** The times at which the history recorded the attempts on a pod name at a generation. */
  type Attempts = map<Key, seq<int>>

  function At(attempts: Attempts, name: string, generation: nat): seq<int> {
    if (name, generation) in attempts then attempts[(name, generation)] else []
  }

  ghost predicate Spaced(times: seq<int>) {
    && |times| <= MAX_ATTEMPTS
    && forall i | 0 < i < |times| :: times[i] - times[i - 1] >= BackoffDelay(i)
  }

  // ---- the state of a run, and what every step of it keeps ----

  datatype Ledger = Ledger(
    generation: nat,
    desired: set<string>,         // the pod names of the spec
    history: History,
    pods: map<string, Member>,
    leaving: set<string>,         // names whose deleted pod has not vanished yet
    now: int,
    last: int,                    // when the latest delete landed
    log: seq<Deletion>,           // every delete so far
    attempts: Attempts)           // every attempt the history ever recorded

  /** Nothing has been charged to the name at the generation. */
  ghost predicate Fresh(l: Ledger, n: string, g: nat) {
    At(l.attempts, n, g) == [] && Deletes(l.log, {n}, g, false) == 0 && Deletes(l.log, {n}, g, true) == 0
  }

  /** The history's current entry for a name is the record of its attempts at this generation. */
  ghost predicate Charged(l: Ledger, n: string) {
    var entry, times := Current(l.history, n, l.generation), At(l.attempts, n, l.generation);
    && |times| == entry.count
    && (entry.count > 0 ==> entry.lastDeleted == times[entry.count - 1] <= l.now)
    && (entry.parked ==> entry.count == MAX_ATTEMPTS)
    && (n in l.history ==> l.history[n].generation <= l.generation)
    && (n in l.history && l.history[n].generation == l.generation ==> n in l.desired)
  }

  /** A letter of this generation means parked; one of an older generation, not yet touched. */
  ghost predicate Lettered(l: Ledger, n: string) {
    n in l.pods && l.pods[n].letter.Some? ==>
      && l.pods[n].letter.value <= l.generation
      && (l.pods[n].letter.value == l.generation ==> BudgetExhausted(l.generation, l.history, n))
      && (l.pods[n].letter.value < l.generation ==> Fresh(l, n, l.generation))
  }

  /** The budget itself, for one name at one generation. */
  ghost predicate Within(l: Ledger, n: string, g: nat) {
    && Spaced(At(l.attempts, n, g))
    && Deletes(l.log, {n}, g, false) <= |At(l.attempts, n, g)|
    && Deletes(l.log, {n}, g, true) <= 1
    && (g > l.generation || (g == l.generation && n !in l.desired) ==> Fresh(l, n, g))
  }

  predicate SameKey(d: Deletion, e: Deletion) {
    d.name == e.name && d.generation == e.generation
  }

  /** A budgeted delete carries out an attempt of the history, no earlier than it was recorded. */
  ghost predicate Timed(l: Ledger, d: Deletion) {
    !d.lift ==>
      var times := At(l.attempts, d.name, d.generation);
      1 <= d.attempt <= |times| && d.recorded == times[d.attempt - 1] <= d.at <= l.last
  }

  /** Every delete is timed, and the deletes of one name follow its attempts. */
  ghost predicate InOrder(l: Ledger) {
    && (forall i | 0 <= i < |l.log| :: Timed(l, l.log[i]))
    && (forall i, j | 0 <= i < j < |l.log| && !l.log[i].lift && !l.log[j].lift && SameKey(l.log[i], l.log[j]) ::
          l.log[i].attempt < l.log[j].attempt)
  }

  ghost predicate Balanced(l: Ledger) {
    && (forall n :: Charged(l, n))
    && (forall n :: Lettered(l, n))
    && (forall n, g: nat :: Within(l, n, g))
    && InOrder(l)
  }

  lemma WorldBalances(l: Ledger, later: int, next: map<string, Member>, leaving: set<string>)
    requires Balanced(l) && later >= l.now
    requires forall n | n in next && next[n].letter.Some? :: n in l.pods && l.pods[n].letter == next[n].letter
    ensures Balanced(l.(now := later, pods := next, leaving := leaving))
  {
    var l' := l.(now := later, pods := next, leaving := leaving);
    assert forall i | 0 <= i < |l.log| :: Timed(l, l.log[i]) ==> Timed(l', l.log[i]);
    forall n ensures Charged(l', n) { assert Charged(l, n); }
    forall n ensures Lettered(l', n) { assert Lettered(l, n); }
    forall n, g: nat ensures Within(l', n, g) { assert Within(l, n, g); }
  }

  lemma EditBalances(l: Ledger, names: set<string>)
    requires Balanced(l)
    ensures Balanced(l.(generation := l.generation + 1, desired := names))
  {
    var l' := l.(generation := l.generation + 1, desired := names);
    assert forall i | 0 <= i < |l.log| :: Timed(l, l.log[i]) ==> Timed(l', l.log[i]);
    forall n ensures Charged(l', n) { assert Charged(l, n) && Within(l, n, l'.generation); }
    forall n ensures Lettered(l', n) { assert Lettered(l, n) && Within(l, n, l'.generation); }
    forall n, g: nat ensures Within(l', n, g) { assert Within(l, n, g); }
  }

  function Charge(l: Ledger, name: string): Ledger {
    var entry := Current(l.history, name, l.generation).(generation := l.generation);
    l.(history := Pruned(l.history[name := entry.(count := entry.count + 1, lastDeleted := l.now)], l.desired),
       attempts := l.attempts[(name, l.generation) := At(l.attempts, name, l.generation) + [l.now]])
  }

  lemma AppendSpaced(times: seq<int>, now: int)
    requires Spaced(times) && |times| < MAX_ATTEMPTS
    requires |times| > 0 ==> now - times[|times| - 1] >= BackoffDelay(|times|)
    ensures Spaced(times + [now])
  {}

  /** The newest attempt on the name has no delete yet. */
  ghost predicate Unspent(l: Ledger, name: string) {
    var times := At(l.attempts, name, l.generation);
    && |times| > 0 && times[|times| - 1] == l.now
    && Deletes(l.log, {name}, l.generation, false) < |times|
    && forall i | 0 <= i < |l.log| && !l.log[i].lift && l.log[i].name == name && l.log[i].generation == l.generation ::
         l.log[i].attempt < |times|
  }

  lemma ChargeInOrder(l: Ledger, name: string)
    requires InOrder(l)
    ensures InOrder(Charge(l, name))
    ensures
      var times := At(Charge(l, name).attempts, name, l.generation);
      forall i | 0 <= i < |l.log| && !l.log[i].lift && l.log[i].name == name && l.log[i].generation == l.generation ::
        l.log[i].attempt < |times|
  {
    var l' := Charge(l, name);
    forall i | 0 <= i < |l.log|
      ensures Timed(l', l'.log[i])
      ensures !l.log[i].lift && l.log[i].name == name && l.log[i].generation == l.generation ==>
        l.log[i].attempt < |At(l'.attempts, name, l.generation)|
    {
      assert Timed(l, l.log[i]);
    }
  }

  lemma ChargeBalances(l: Ledger, name: string)
    requires Balanced(l) && name in l.desired
    requires Decide(l.generation, l.history, name, Member(true, true, None), l.now).Rebuild?
    requires name in l.pods && l.pods[name].letter.None?
    ensures Balanced(Charge(l, name)) && Unspent(Charge(l, name), name)
  {
    hide InOrder;
    var l' := Charge(l, name);
    ChargeInOrder(l, name);
    var entry := Current(l.history, name, l.generation);
    assert Charged(l, name) && Within(l, name, l.generation);
    AppendSpaced(At(l.attempts, name, l.generation), l.now);
    forall n ensures Charged(l', n) { assert Charged(l, n); }
    forall n ensures Lettered(l', n) { assert Lettered(l, n) && Charged(l, n); }
    forall n, g: nat ensures Within(l', n, g) { assert Within(l, n, g); }
  }

  lemma ParkBalances(l: Ledger, name: string)
    requires Balanced(l) && name in l.desired && Current(l.history, name, l.generation).count >= MAX_ATTEMPTS
    ensures
      var entry := Current(l.history, name, l.generation).(parked := true);
      Balanced(l.(history := Pruned(l.history[name := entry], l.desired)))
  {
    var entry := Current(l.history, name, l.generation).(parked := true);
    var l' := l.(history := Pruned(l.history[name := entry], l.desired));
    assert Charged(l, name) && Within(l, name, l.generation);
    assert forall i | 0 <= i < |l.log| :: Timed(l, l.log[i]) ==> Timed(l', l.log[i]);
    forall n ensures Charged(l', n) { assert Charged(l, n); }
    forall n ensures Lettered(l', n) { assert Lettered(l, n) && Charged(l, n); }
    forall n, g: nat ensures Within(l', n, g) { assert Within(l, n, g); }
  }

  lemma ResetBalances(l: Ledger, name: string)
    requires Balanced(l) && name in l.desired && Fresh(l, name, l.generation)
    requires name in l.pods && l.pods[name].letter.Some? && l.pods[name].letter.value != l.generation
    ensures Balanced(l.(history := Pruned(l.history - {name}, l.desired)))
  {
    var l' := l.(history := Pruned(l.history - {name}, l.desired));
    assert forall i | 0 <= i < |l.log| :: Timed(l, l.log[i]) ==> Timed(l', l.log[i]);
    forall n ensures Charged(l', n) { assert Charged(l, n); }
    forall n ensures Lettered(l', n) { assert Lettered(l, n) && Charged(l, n); }
    forall n, g: nat ensures Within(l', n, g) { assert Within(l, n, g); }
  }

  lemma LetterBalances(l: Ledger, name: string)
    requires Balanced(l) && name in l.pods && BudgetExhausted(l.generation, l.history, name)
    ensures Balanced(l.(pods := l.pods[name := l.pods[name].(letter := Some(l.generation))]))
  {
    var l' := l.(pods := l.pods[name := l.pods[name].(letter := Some(l.generation))]);
    assert forall i | 0 <= i < |l.log| :: Timed(l, l.log[i]) ==> Timed(l', l.log[i]);
    forall n ensures Charged(l', n) { assert Charged(l, n); }
    forall n ensures Lettered(l', n) { assert Lettered(l, n); }
    forall n, g: nat ensures Within(l', n, g) { assert Within(l, n, g); }
  }

  lemma DeletesAppend(log: seq<Deletion>, d: Deletion, names: set<string>, generation: nat, lift: bool)
    ensures Deletes(log + [d], names, generation, lift)
         == Deletes(log, names, generation, lift)
            + if d.name in names && d.generation == generation && d.lift == lift then 1 else 0
  {
    assert (log + [d])[..|log + [d]| - 1] == log;
  }

  /** The ledger once a delete has landed, `late` after it was decided. */
  function Removed(l: Ledger, name: string, lift: bool, late: nat): Ledger {
    l.(pods := l.pods - {name}, leaving := l.leaving + {name}, log := l.log + [Landed(l, name, lift, late)],
       last := if l.last < l.now + late then l.now + late else l.last)
  }

  function Landed(l: Ledger, name: string, lift: bool, late: nat): Deletion {
    Deletion(name, l.generation, lift, if lift then 0 else |At(l.attempts, name, l.generation)|, l.now, l.now + late)
  }

  lemma RemoveInOrder(l: Ledger, name: string, lift: bool, late: nat)
    requires InOrder(l) && (!lift ==> Unspent(l, name))
    ensures InOrder(Removed(l, name, lift, late))
  {
    var l' := Removed(l, name, lift, late);
    forall i | 0 <= i < |l'.log|
      ensures Timed(l', l'.log[i])
    {
      if i < |l.log| {
        assert Timed(l, l.log[i]);
      }
    }
  }

  lemma RemoveBalances(l: Ledger, name: string, lift: bool, late: nat)
    requires Balanced(l) && name in l.desired && name in l.pods
    requires if lift then Fresh(l, name, l.generation) else Unspent(l, name)
    ensures Balanced(Removed(l, name, lift, late))
  {
    hide InOrder;
    var l' := Removed(l, name, lift, late);
    var d := Landed(l, name, lift, late);
    RemoveInOrder(l, name, lift, late);
    forall n ensures Charged(l', n) { assert Charged(l, n); }
    forall n, g: nat
      ensures Within(l', n, g) && (n != name ==> Fresh(l, n, g) ==> Fresh(l', n, g))
    {
      assert Within(l, n, g);
      DeletesAppend(l.log, d, {n}, g, false);
      DeletesAppend(l.log, d, {n}, g, true);
    }
    forall n ensures Lettered(l', n) {
      assert Lettered(l, n);
      assert n != name && Fresh(l, n, l.generation) ==> Fresh(l', n, l.generation);
    }
  }

  /** One delete more, of that name and kind. */
  predicate Logged(before: seq<Deletion>, after: seq<Deletion>, name: string, generation: nat, lift: bool) {
    && |after| == |before| + 1 && after[..|before|] == before
    && after[|before|].name == name && after[|before|].generation == generation && after[|before|].lift == lift
  }

  predicate SamePod(a: map<string, Member>, b: map<string, Member>, n: string) {
    if n in a then n in b && b[n] == a[n] else n !in b
  }

  /** A parked name stays parked, and its pod, or its absence, stays as it is. */
  ghost predicate LeavesParked(before: Ledger, after: Ledger) {
    && after.generation == before.generation
    && forall n | BudgetExhausted(before.generation, before.history, n) ::
         BudgetExhausted(after.generation, after.history, n) && (n in before.pods <==> n in after.pods)
  }

  /** At most four budgeted deletes and one lift per name and generation ... */
  lemma FiveDeletesPerName(l: Ledger, n: string, g: nat)
    requires Balanced(l)
    ensures Deletes(l.log, {n}, g, false) <= 4 && Deletes(l.log, {n}, g, true) <= 1
  {
    assert Within(l, n, g);
  }

  /** ... so at most five per desired pod, and none of any other pod at this generation. */
  lemma FiveDeletesPerDesiredPod(l: Ledger)
    requires Balanced(l)
    ensures Deletes(l.log, l.desired, l.generation, false) + Deletes(l.log, l.desired, l.generation, true) <= 5 * |l.desired|
    ensures forall n | n !in l.desired ::
      Deletes(l.log, {n}, l.generation, false) == 0 && Deletes(l.log, {n}, l.generation, true) == 0
  {
    forall n
      ensures Deletes(l.log, {n}, l.generation, false) <= 4 && Deletes(l.log, {n}, l.generation, true) <= 1
    {
      FiveDeletesPerName(l, n, l.generation);
    }
    BoundedEachBoundedAll(l.log, l.desired, l.generation, false, 4);
    BoundedEachBoundedAll(l.log, l.desired, l.generation, true, 1);
    forall n | n !in l.desired
      ensures Deletes(l.log, {n}, l.generation, false) == 0 && Deletes(l.log, {n}, l.generation, true) == 0
    {
      assert Within(l, n, l.generation) && Fresh(l, n, l.generation);
    }
  }

  lemma {:induction false} AtMostSoMany(names: seq<string>)
    ensures |set n | n in names| <= |names|
    decreases |names|
  {
    var all := set n | n in names;
    if names == [] {
      assert all == {};
    } else {
      var rest := set n | n in names[1..];
      AtMostSoMany(names[1..]);
      assert all == rest + {names[0]};
    }
  }

  /** In all, at most 5 * (replicas + 1 + toolboxes) deletes at a generation. */
  lemma DeletesPerGeneration(l: Ledger, agents: seq<string>, toolboxes: seq<string>, replicas: nat)
    requires Balanced(l) && |agents| == replicas + 1
    requires forall n :: n in l.desired <==> n in agents || n in toolboxes
    ensures Deletes(l.log, l.desired, l.generation, false) + Deletes(l.log, l.desired, l.generation, true)
         <= 5 * (replicas + 1 + |toolboxes|)
  {
    FiveDeletesPerDesiredPod(l);
    AtMostSoMany(agents + toolboxes);
    assert l.desired == set n | n in agents + toolboxes;
  }

  function Backoffs(from: nat, to: nat): int
    decreases to - from
  {
    if from >= to then 0 else BackoffDelay(from) + Backoffs(from + 1, to)
  }

  lemma {:induction false} SpacedApart(times: seq<int>, i: nat, j: nat)
    requires Spaced(times) && i < j < |times|
    ensures times[j] - times[i] >= Backoffs(i + 1, j + 1)
    decreases j - i
  {
    assert times[i + 1] - times[i] >= BackoffDelay(i + 1);
    if i + 1 < j {
      SpacedApart(times, i + 1, j);
    }
  }

  /** Between the records of two budgeted deletes of one name at one generation lie the backoffs of the
      attempts from the first on, and between the deletes as much, less what the first landed late. From
      the first attempt to the fourth that is 36 seconds. */
  lemma DeletesAreSpaced(l: Ledger, i: nat, j: nat)
    requires Balanced(l) && i < j < |l.log| && !l.log[i].lift && !l.log[j].lift && SameKey(l.log[i], l.log[j])
    ensures l.log[i].attempt < l.log[j].attempt && l.log[i].recorded <= l.log[i].at
    ensures
      var backoffs, late := Backoffs(l.log[i].attempt, l.log[j].attempt), l.log[i].at - l.log[i].recorded;
      && l.log[j].recorded - l.log[i].recorded >= backoffs
      && l.log[j].at - l.log[i].at >= backoffs - late
      && (l.log[i].attempt == 1 && l.log[j].attempt == 4 ==> backoffs == 36 * SECOND)
  {
    var d, e := l.log[i], l.log[j];
    assert Timed(l, d) && Timed(l, e) && Within(l, d.name, d.generation);
    SpacedApart(At(l.attempts, d.name, d.generation), d.attempt - 1, e.attempt - 1);
    assert Backoffs(1, 4) == BackoffDelay(1) + Backoffs(2, 4) && Backoffs(2, 4) == BackoffDelay(2) + Backoffs(3, 4)
        && Backoffs(3, 4) == BackoffDelay(3) + Backoffs(4, 4);
  }

  /** Triage deletes the recreated pod again at this time. */
  predicate MayDeleteAgain(d: Deletion, now: int) {
    var h: History := map[d.name := Entry(d.attempt, d.recorded, d.generation, false)];
    now >= d.at && Decide(d.generation, h, d.name, Member(true, true, None), now).Rebuild?
  }

  /** A delete keeps its backoff to every delete that may follow it exactly when it landed the moment
      it was recorded. */
  lemma SpacedIffOnTime(d: Deletion)
    requires 1 <= d.attempt < MAX_ATTEMPTS && d.recorded <= d.at
    ensures (forall now :: MayDeleteAgain(d, now) ==> now - d.at >= BackoffDelay(d.attempt)) <==> d.at == d.recorded
  {
    var soonest := if d.at < d.recorded + BackoffDelay(d.attempt) then d.recorded + BackoffDelay(d.attempt) else d.at;
    assert MayDeleteAgain(d, soonest);
  }

  /** A delete that lands two seconds late is followed at once by the next one. */
  lemma LateDeleteClosesIn()
    ensures
      var first := Deletion("vm", 1, false, 1, 0, 2 * SECOND);
      var h: History := map["vm" := Entry(1, 0, 1, false)];
      && Decide(1, map[], "vm", Member(true, true, None), 0) == Rebuild(1)
      && Decide(1, h, "vm", Member(true, true, None), first.at) == Rebuild(2)
      && MayDeleteAgain(first, first.at) && BackoffDelay(first.attempt) == SECOND
  {}

  /** A dead-letter of the current generation means the name is parked, and so neither deleted nor
      recreated before the next spec edit. */
  lemma LetterMeansParked(l: Ledger, n: string, now: int)
    requires Balanced(l) && n in l.pods && l.pods[n].letter == Some(l.generation)
    ensures BudgetExhausted(l.generation, l.history, n) && n in l.desired
    ensures Decide(l.generation, l.history, n, l.pods[n], now) == Leave
  {
    assert Lettered(l, n) && Charged(l, n);
  }

  lemma NothingParkedMoves(l: Ledger)
    ensures LeavesParked(l, l)
  {}

  lemma CreateBalances(l: Ledger, name: string)
    requires Balanced(l)
    ensures Balanced(l.(pods := l.pods[name := Member(false, true, None)]))
  {
    var l' := l.(pods := l.pods[name := Member(false, true, None)]);
    assert forall i | 0 <= i < |l.log| :: Timed(l, l.log[i]) ==> Timed(l', l.log[i]);
    forall n ensures Charged(l', n) { assert Charged(l, n); }
    forall n ensures Lettered(l', n) { assert Lettered(l, n); }
    forall n, g: nat ensures Within(l', n, g) { assert Within(l, n, g); }
  }

  /** Every parked name is desired, so pruning keeps it, and its budget is spent. */
  lemma ParkedIsDesired(l: Ledger)
    requires Balanced(l)
    ensures forall n | BudgetExhausted(l.generation, l.history, n) ::
      n in l.desired && l.history[n].count == MAX_ATTEMPTS
  {
    forall n | BudgetExhausted(l.generation, l.history, n)
      ensures n in l.desired && l.history[n].count == MAX_ATTEMPTS
    {
      assert Charged(l, n);
    }
  }

  /** What charging an attempt, and then deleting the pod, leaves. */
  lemma RebuildCharges(l: Ledger, name: string)
    requires Balanced(l) && name in l.desired && name in l.pods
    requires Decide(l.generation, l.history, name, l.pods[name], l.now).Rebuild?
    ensures l.pods[name].letter.None?
    ensures Decide(l.generation, l.history, name, Member(true, true, None), l.now).Rebuild?
    ensures
      var charged := Charge(l, name);
      && LeavesParked(l, charged)
      && charged.history == Recorded(true, l.generation, l.desired, l.history, name,
                                     Decide(l.generation, l.history, name, l.pods[name], l.now), l.now)
  {
    assert Charged(l, name) && Within(l, name, l.generation);
    ParkedIsDesired(l);
  }

  lemma RebuildRemoves(l: Ledger, name: string, late: nat)
    requires Balanced(l) && name in l.desired && name in l.pods
    requires Decide(l.generation, l.history, name, l.pods[name], l.now).Rebuild?
    ensures LeavesParked(l, Removed(Charge(l, name), name, false, late))
  {
    assert Charged(l, name);
    ParkedIsDesired(l);
  }

  datatype Creation = Created | StillThere | Parked | NotCreated

  /** The rebuild bookkeeping of one CocoonSet. Every write may be refused, and may land unacknowledged:
      a pass that dies right after any of them leaves a state these methods accept. */
  class Budget {
    var generation: nat
    var desired: set<string>
    var history: History
    var pods: map<string, Member>
    var leaving: set<string>
    var now: int
    var last: int                // when the latest delete landed
    ghost var log: seq<Deletion>
    ghost var attempts: Attempts

    ghost function L(): Ledger
      reads this
    {
      Ledger(generation, desired, history, pods, leaving, now, last, log, attempts)
    }

    ghost predicate Valid()
      reads this
    {
      Balanced(L())
    }

    constructor (desired: set<string>)
      ensures Valid() && log == [] && fresh(this)
    {
      generation, this.desired, history, pods, leaving, now := 1, desired, map[], map[], {}, 0;
      last, log, attempts := 0, [], map[];
    }

    /** Time passes, pods change state or disappear; nobody but the operator writes a letter. */
    method Outside(later: int, next: map<string, Member>, stillLeaving: set<string>)
      requires Valid() && later >= now && later >= last && stillLeaving <= leaving
      requires forall n | n in next :: n in pods && (next[n].letter.Some? ==> pods[n].letter == next[n].letter)
      modifies this`now, this`pods, this`leaving
      ensures Valid() && now == later && pods == next && leaving == stillLeaving
    {
      WorldBalances(L(), later, next, stillLeaving);
      now, pods, leaving := later, next, stillLeaving;
    }

    /** A spec edit: a new generation, and possibly other pod names. */
    method Edit(names: set<string>)
      requires Valid()
      modifies this`generation, this`desired
      ensures Valid() && generation == old(generation) + 1 && desired == names
    {
      EditBalances(L(), names);
      generation, desired := generation + 1, names;
    }

    /** The create of a missing pod: a name parked at this generation stays absent, and a name whose
        old pod has not vanished is left to a later pass. */
    method CreateMissing(name: string) returns (r: Creation)
      requires Valid() && name in desired && name !in pods
      modifies this`pods
      ensures Valid() && LeavesParked(old(L()), L())
      ensures r == Parked <==> BudgetExhausted(generation, history, name)
      ensures r == Created ==> name in pods && pods[name].letter.None?
      ensures r == StillThere ==> name in leaving
      ensures r == Parked || r == StillThere ==> pods == old(pods)
      ensures forall n | n != name :: SamePod(old(pods), pods, n)
    {
      if BudgetExhausted(generation, history, name) {
        return Parked;
      }
      if * {
        return NotCreated;
      }
      if name in leaving {
        return StillThere;
      }
      CreateBalances(L(), name);
      pods := pods[name := Member(false, true, None)];
      var answered: bool := *;
      r := if answered then Created else NotCreated;
    }

    /** The delete of a pod the spec no longer names; one that is gone already is passed over. */
    method DeleteExtra(name: string) returns (ok: bool, deleted: bool)
      requires Valid() && name !in desired
      modifies this`pods, this`leaving
      ensures Valid() && (ok ==> name !in pods) && old(leaving) <= leaving
      ensures deleted <==> ok && name in old(pods)
      ensures ok && !deleted ==> L() == old(L())
      ensures forall n | n != name :: SamePod(old(pods), pods, n)
      ensures pods == old(pods) || pods == old(pods) - {name}
    {
      if * {
        return false, false;
      }
      if name !in pods {
        return true, false;
      }
      WorldBalances(L(), now, pods - {name}, leaving + {name});
      pods, leaving := pods - {name}, leaving + {name};
      ok := *;
      deleted := ok;
    }

    /** triagePod. */
    method TriagePod(name: string) returns (d: Decision, done: bool)
      requires Valid() && name in desired && name in pods
      modifies this`history, this`pods, this`leaving, this`last, this`log, this`attempts
      ensures Valid() && LeavesParked(old(L()), L()) && old(leaving) <= leaving
      ensures d == Decide(generation, old(history), name, old(pods)[name], now)
      ensures forall n | n != name :: SamePod(old(pods), pods, n)
      ensures
        var carried := Recorded(true, generation, desired, old(history), name, d, now);
        (history == old(history) || history == carried) && (done || log != old(log) ==> history == carried)
      ensures d.Leave? || d.Wait? ==> done && L() == old(L())
      ensures d.Park? ==> log == old(log) && attempts == old(attempts)
      ensures d.Park? && done ==> BudgetExhausted(generation, history, name) && name in pods && pods[name].letter == Some(generation)
      ensures d.Lift? && done ==> name !in pods && Logged(old(log), log, name, generation, true)
      ensures d.Rebuild? && done ==> name !in pods && Logged(old(log), log, name, generation, false)
      ensures !done ==> pods == old(pods) || d.Park? || log != old(log)
    {
      hide Balanced, LeavesParked;
      d := Decide(generation, history, name, pods[name], now);
      NothingParkedMoves(L());
      match d {
        case Leave => done := true;
        case Wait(_) => done := true;
        case Park => done := ParkPod(name);
        case Lift => done := LiftPod(name);
        case Rebuild(_) => done := RebuildPod(name);
      }
    }

    /** A delete that lands `late` after it was decided. */
    method Land(name: string, lift: bool, late: nat)
      modifies this`pods, this`leaving, this`last, this`log
      ensures L() == Removed(old(L()), name, lift, late)
    {
      log := log + [Landed(L(), name, lift, late)];
      last := if last < now + late then now + late else last;
      pods, leaving := pods - {name}, leaving + {name};
    }

    /** Past the budget: parked in the history first, then on the pod. */
    method ParkPod(name: string) returns (done: bool)
      requires Valid() && name in desired && name in pods
      requires Decide(generation, history, name, pods[name], now).Park?
      modifies this`history, this`pods
      ensures Valid() && LeavesParked(old(L()), L())
      ensures forall n | n != name :: SamePod(old(pods), pods, n)
      ensures
        var carried := Recorded(true, generation, desired, old(history), name, Park, now);
        (history == old(history) || history == carried) && (done || pods != old(pods) ==> history == carried)
      ensures done ==> BudgetExhausted(generation, history, name) && name in pods && pods[name].letter == Some(generation)
    {
      ghost var l0 := L();
      ParkedIsDesired(l0);
      var entry := Current(history, name, generation);
      if !entry.parked {
        if * {
          return false;
        }
        ParkBalances(L(), name);
        history := Pruned(history[name := entry.(parked := true)], desired);
        if * {
          return false;
        }
      } else {
        assert Charged(L(), name);
      }
      if * {
        return false;
      }
      LetterBalances(L(), name);
      pods := pods[name := pods[name].(letter := Some(generation))];
      done := *;
    }

    /** A letter of an older generation: the history entry goes, then the pod. */
    method LiftPod(name: string) returns (done: bool)
      requires Valid() && name in desired && name in pods
      requires Decide(generation, history, name, pods[name], now).Lift?
      modifies this`history, this`pods, this`leaving, this`last, this`log
      ensures old(leaving) <= leaving
      ensures Valid() && LeavesParked(old(L()), L())
      ensures forall n | n != name :: SamePod(old(pods), pods, n)
      ensures
        var carried := Recorded(true, generation, desired, old(history), name, Lift, now);
        (history == old(history) || history == carried) && (done || log != old(log) ==> history == carried)
      ensures done ==> name !in pods && Logged(old(log), log, name, generation, true)
      ensures !done ==> pods == old(pods) || log != old(log)
    {
      ghost var l0 := L();
      ParkedIsDesired(l0);
      assert Lettered(l0, name) && Charged(l0, name) && Within(l0, name, generation);
      if name in history {
        if * {
          return false;
        }
        ResetBalances(L(), name);
        history := Pruned(history - {name}, desired);
        if * {
          return false;
        }
      }
      if * {
        return false;
      }
      var late: nat := *;
      RemoveBalances(L(), name, true, late);
      Land(name, true, late);
      done := *;
    }

    /** The attempt is on record before the delete. */
    method RebuildPod(name: string) returns (done: bool)
      requires Valid() && name in desired && name in pods
      requires Decide(generation, history, name, pods[name], now).Rebuild?
      modifies this`history, this`pods, this`leaving, this`last, this`log, this`attempts
      ensures old(leaving) <= leaving
      ensures Valid() && LeavesParked(old(L()), L())
      ensures forall n | n != name :: SamePod(old(pods), pods, n)
      ensures done ==> name !in pods && Logged(old(log), log, name, generation, false)
      ensures
        var d := Decide(generation, old(history), name, old(pods)[name], now);
        var carried := Recorded(true, generation, desired, old(history), name, d, now);
        (history == old(history) || history == carried) && (done || log != old(log) ==> history == carried)
      ensures !done ==> pods == old(pods) || log != old(log)
    {
      hide Balanced, LeavesParked, Decide, Deletes, At, Recorded, Unspent;
      ghost var l0 := L();
      RebuildCharges(l0, name);
      NothingParkedMoves(l0);
      if * {
        return false;
      }
      ChargeBalances(l0, name);
      var entry := Current(history, name, generation);
      history := Pruned(history[name := entry.(count := entry.count + 1, lastDeleted := now)], desired);
      attempts := attempts[(name, generation) := At(attempts, name, generation) + [now]];
      assert L() == Charge(l0, name);
      if * {
        return false;
      }
      var late: nat := *;
      RemoveBalances(L(), name, false, late);
      RebuildRemoves(l0, name, late);
      Land(name, false, late);
      done := *;
    }
  }

  /** Any run of passes that may die after any write, of spec edits, and of everything outside. */
  method Run(b: Budget)
    requires b.Valid()
    modifies b
    ensures b.Valid()
    ensures forall n, g: nat :: Deletes(b.log, {n}, g, false) <= 4 && Deletes(b.log, {n}, g, true) <= 1
    ensures Deletes(b.log, b.desired, b.generation, false) + Deletes(b.log, b.desired, b.generation, true) <= 5 * |b.desired|
  {
    hide Balanced, LeavesParked, Recorded, Decide;
    var steps: nat := *;
    while steps > 0
      invariant b.Valid()
    {
      var name: string := *;
      if * {
        var later: int, next: map<string, Member>, stillLeaving: set<string> := *, *, *;
        if later >= b.now && later >= b.last && stillLeaving <= b.leaving && forall n | n in next :: n in b.pods && (next[n].letter.Some? ==> b.pods[n].letter == next[n].letter) {
          b.Outside(later, next, stillLeaving);
        }
      } else if * {
        var names: set<string> := *;
        b.Edit(names);
      } else if name in b.desired && name in b.pods {
        var d, done := b.TriagePod(name);
      } else if name in b.desired {
        var r := b.CreateMissing(name);
      }
      steps := steps - 1;
    }
    forall n, g: nat
      ensures Deletes(b.log, {n}, g, false) <= 4 && Deletes(b.log, {n}, g, true) <= 1
    {
      FiveDeletesPerName(b.L(), n, g);
    }
    FiveDeletesPerDesiredPod(b.L());
  }
}
