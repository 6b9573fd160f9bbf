/** The status of a CocoonSet: what buildStatus counts, and when what it says is true. */
module Statuses {
  import opened World
  import opened Rebuilds

  datatype Cond = Cond(holds: bool, reason: string, message: string, generation: nat, since: int)

  datatype Status = Status(generation: nat, phase: Phase, ready: nat, desired: nat, tbReady: nat, tbDesired: nat,
                           conditions: map<string, Cond>)

  const READY := "Ready"
  const PROGRESSING := "Progressing"
  const DEAD_LETTERED := "DeadLettered"

  /** The agents or the toolboxes of a set by pod name: those the spec wants, and those classified,
      which may include names the spec no longer wants. */
  datatype Group = Group(wanted: set<string>, seen: set<string>)

  function Count(g: Group, ready: set<string>): nat {
    |g.seen * ready|
  }

  /** Every wanted member is there and ready. */
  predicate AllUp(g: Group, ready: set<string>) {
    g.wanted <= g.seen * ready
  }

  predicate ParkedPod(generation: nat, pods: map<string, Member>) {
    exists n :: n in pods && pods[n].letter == Some(generation)
  }

  /** buildStatus; timestamps are left zero. `phase` is the phase the caller insists on, if any;
      `main` tells whether a main is classified. */
  function BuildStatus(generation: nat, phase: Option<Phase>, main: bool, agents: Group, toolboxes: Group,
                       ready: set<string>, parked: bool): Status {
    var count, tbCount := Count(agents, ready), Count(toolboxes, ready);
    var desired, tbDesired := |agents.wanted|, |toolboxes.wanted|;
    var derived :=
      if !main then Pending else if count < desired || tbCount < tbDesired then Scaling else Running;
    var shown := if phase.Some? then phase.value else derived;
    var all := count == desired && desired > 0 && tbCount == tbDesired;
    var moving := shown == Pending || shown == Scaling;
    Status(generation, shown, count, desired, tbCount, tbDesired,
           map[READY := Cond(all, if all then "AllAgentsReady" else "AgentsNotReady", "", generation, 0),
               PROGRESSING := Cond(moving && !parked, if parked then DEAD_LETTERED else if moving then "Reconciling" else "Stable",
                                   "", generation, 0)])
  }

  /** No classified pod is one the spec no longer wants: no sub-agent above the replicas, no undesired
      toolbox. */
  predicate NoExtras(g: Group) {
    g.seen <= g.wanted
  }

  lemma SubsetSize<T>(a: set<T>, b: set<T>)
    requires a <= b
    ensures |a| <= |b| && (|a| == |b| ==> a == b)
  {
    if a != b {
      assert b == a + (b - a);
      assert |b| == |a| + |b - a|;
    }
  }

  lemma CountsTruly(g: Group, ready: set<string>)
    requires NoExtras(g)
    ensures Count(g, ready) <= |g.wanted| && (Count(g, ready) == |g.wanted| <==> AllUp(g, ready))
  {
    SubsetSize(g.seen * ready, g.wanted);
  }

  /** Without extras the status tells the truth: Ready, and Running unless the caller insists on
      another phase, mean that every wanted member is there and ready; and DeadLettered, which never
      reads as progress, means that a pod is parked. */
  lemma StatusIsTrue(generation: nat, phase: Option<Phase>, agents: Group, toolboxes: Group, main: string, ready: set<string>, parked: bool)
    requires NoExtras(agents) && NoExtras(toolboxes) && main in agents.wanted
    ensures
      var s := BuildStatus(generation, phase, main in agents.seen, agents, toolboxes, ready, parked);
      var up := AllUp(agents, ready) && AllUp(toolboxes, ready);
      && (s.conditions[READY].holds <==> up)
      && (phase.None? ==> (s.phase == Running <==> up))
      && (s.conditions[PROGRESSING].reason == DEAD_LETTERED <==> parked)
      && (parked ==> !s.conditions[PROGRESSING].holds)
  {
    CountsTruly(agents, ready);
    CountsTruly(toolboxes, ready);
  }

  // ---- when Ready can be believed ----

  predicate ReadyShown(agents: Group, toolboxes: Group, ready: set<string>) {
    BuildStatus(0, None, true, agents, toolboxes, ready, false).conditions[READY].holds
  }

  predicate ReadyMeant(agents: Group, toolboxes: Group, ready: set<string>) {
    AllUp(agents, ready) && AllUp(toolboxes, ready)
  }

  lemma ShownIsCondition(generation: nat, phase: Option<Phase>, main: bool, agents: Group, toolboxes: Group, ready: set<string>, parked: bool)
    ensures BuildStatus(generation, phase, main, agents, toolboxes, ready, parked).conditions[READY].holds
       <==> ReadyShown(agents, toolboxes, ready)
  {}

  lemma {:induction false} Chosen(from: set<string>, x: string, n: nat) returns (some: set<string>)
    requires x in from && 0 < n <= |from|
    ensures some <= from && |some| == n && x in some
    decreases n
  {
    if n == 1 {
      some := {x};
    } else {
      var rest := from - {x};
      assert |rest| == |from| - 1;
      var y :| y in rest;
      var less := Chosen(rest, y, n - 1);
      some := less + {x};
    }
  }

  lemma ChosenAny(from: set<string>, n: nat) returns (some: set<string>)
    requires n <= |from|
    ensures some <= from && |some| == n
  {
    if n == 0 {
      some := {};
    } else {
      var x :| x in from;
      some := Chosen(from, x, n);
    }
  }

  /** Enough pods to reach the count, one of them an extra: some readiness fools the condition. */
  lemma ExtrasFool(agents: Group, toolboxes: Group) returns (ready: set<string>)
    requires agents.wanted != {} && agents.seen !! toolboxes.seen
    requires |agents.seen| >= |agents.wanted| && |toolboxes.seen| >= |toolboxes.wanted|
    requires !NoExtras(agents) || !NoExtras(toolboxes)
    ensures ReadyShown(agents, toolboxes, ready) != ReadyMeant(agents, toolboxes, ready)
  {
    var a, t;
    if !NoExtras(agents) {
      var x :| x in agents.seen && x !in agents.wanted;
      a := Chosen(agents.seen, x, |agents.wanted|);
      t := ChosenAny(toolboxes.seen, |toolboxes.wanted|);
      ready := a + t;
      ReadyOf(agents, toolboxes, a, t);
      if agents.wanted <= a {
        SubsetSize(agents.wanted, a);
      }
    } else if toolboxes.wanted != {} {
      var x :| x in toolboxes.seen && x !in toolboxes.wanted;
      a := ChosenAny(agents.seen, |agents.wanted|);
      t := Chosen(toolboxes.seen, x, |toolboxes.wanted|);
      ready := a + t;
      ReadyOf(agents, toolboxes, a, t);
      if toolboxes.wanted <= t {
        SubsetSize(toolboxes.wanted, t);
      }
    } else {
      SubsetSize(agents.seen, agents.wanted);
      ready := agents.seen + toolboxes.seen;
      ReadyOf(agents, toolboxes, agents.seen, toolboxes.seen);
    }
  }

  lemma ReadyOf(agents: Group, toolboxes: Group, a: set<string>, t: set<string>)
    requires agents.seen !! toolboxes.seen && a <= agents.seen && t <= toolboxes.seen
    ensures agents.seen * (a + t) == a && toolboxes.seen * (a + t) == t
  {}

  lemma TooFewNeverFool(agents: Group, toolboxes: Group, ready: set<string>)
    requires |agents.seen| < |agents.wanted| || |toolboxes.seen| < |toolboxes.wanted|
    ensures !ReadyShown(agents, toolboxes, ready) && !ReadyMeant(agents, toolboxes, ready)
  {
    SubsetSize(agents.seen * ready, agents.seen);
    SubsetSize(toolboxes.seen * ready, toolboxes.seen);
    if agents.wanted <= agents.seen * ready {
      SubsetSize(agents.wanted, agents.seen * ready);
    }
    if toolboxes.wanted <= toolboxes.seen * ready {
      SubsetSize(toolboxes.wanted, toolboxes.seen * ready);
    }
  }

  /** The Ready condition means that every member is ready, whichever pods are, exactly when there are
      no extras, or too few pods of one kind for the count to be reached at all. */
  lemma ReadyIsTrueIff(generation: nat, phase: Option<Phase>, main: bool, agents: Group, toolboxes: Group, parked: bool)
    requires agents.wanted != {} && agents.seen !! toolboxes.seen
    ensures
      (forall ready :: BuildStatus(generation, phase, main, agents, toolboxes, ready, parked).conditions[READY].holds
                  <==> ReadyMeant(agents, toolboxes, ready)) <==>
      || (NoExtras(agents) && NoExtras(toolboxes))
      || |agents.seen| < |agents.wanted| || |toolboxes.seen| < |toolboxes.wanted|
  {
    if |agents.seen| < |agents.wanted| || |toolboxes.seen| < |toolboxes.wanted| {
      forall ready
        ensures BuildStatus(generation, phase, main, agents, toolboxes, ready, parked).conditions[READY].holds
           <==> ReadyMeant(agents, toolboxes, ready)
      {
        ShownIsCondition(generation, phase, main, agents, toolboxes, ready, parked);
        TooFewNeverFool(agents, toolboxes, ready);
      }
    } else if NoExtras(agents) && NoExtras(toolboxes) {
      forall ready
        ensures BuildStatus(generation, phase, main, agents, toolboxes, ready, parked).conditions[READY].holds
           <==> ReadyMeant(agents, toolboxes, ready)
      {
        ShownIsCondition(generation, phase, main, agents, toolboxes, ready, parked);
        CountsTruly(agents, ready);
        CountsTruly(toolboxes, ready);
      }
    } else {
      var ready := ExtrasFool(agents, toolboxes);
      ShownIsCondition(generation, phase, main, agents, toolboxes, ready, parked);
    }
  }

  /** Replicas edited from 2 to 1 while the main is not ready: the pass stops at Pending before it
      deletes the extra sub-agent, and reports every agent ready with the main down. */
  lemma ReadyWithMainDown()
    ensures
      var agents := Group({"set-0", "set-1"}, {"set-0", "set-1", "set-2"});
      var s := BuildStatus(1, Some(Pending), true, agents, Group({}, {}), {"set-1", "set-2"}, false);
      s.conditions[READY].holds && s.phase == Pending && !AllUp(agents, {"set-1", "set-2"})
  {
    var agents := Group({"set-0", "set-1"}, {"set-0", "set-1", "set-2"});
    assert agents.seen * {"set-1", "set-2"} == {"set-1", "set-2"};
    assert "set-0" in agents.wanted && "set-0" !in agents.seen * {"set-1", "set-2"};
  }

  /** And with every wanted agent ready one ready extra keeps the set from being Ready. */
  lemma NotReadyWithAllUp()
    ensures
      var agents := Group({"set-0"}, {"set-0", "set-1"});
      var s := BuildStatus(1, Some(Suspending), true, agents, Group({}, {}), {"set-0", "set-1"}, false);
      !s.conditions[READY].holds && AllUp(agents, {"set-0", "set-1"})
  {
    var agents := Group({"set-0"}, {"set-0", "set-1"});
    assert agents.seen * {"set-0", "set-1"} == {"set-0", "set-1"};
  }

  /** mergeConditions: a condition whose status did not flip keeps its transition time. */
  function Merged(next: Status, prev: map<string, Cond>, now: int): Status {
    next.(conditions := prev + map k | k in next.conditions ::
      if k in prev && prev[k].holds == next.conditions[k].holds
      then next.conditions[k].(since := prev[k].since) else next.conditions[k].(since := now))
  }

  /** Merging a status into its own result changes nothing, however much later. */
  lemma MergedTwice(next: Status, prev: map<string, Cond>, now: int, later: int)
    ensures Merged(next, Merged(next, prev, now).conditions, later) == Merged(next, prev, now)
  {
    assert Merged(next, Merged(next, prev, now).conditions, later).conditions == Merged(next, prev, now).conditions;
  }

  class StatusBoard {
    var status: Status
    ghost var writes: nat

    /** patchStatus: an update that changes nothing is not sent. */
    method PatchStatus(next: Status, now: int) returns (ok: bool)
      modifies this
      ensures ok ==> status == Merged(next, old(status).conditions, now)
      ensures writes <= old(writes) + 1
      ensures Merged(next, old(status).conditions, now) == old(status) ==> ok && status == old(status) && writes == old(writes)
    {
      var merged := Merged(next, status.conditions, now);
      if merged == status {
        return true;
      }
      if * {
        return false;
      }
      status, writes := merged, writes + 1;
      ok := *;
    }
  }
}
