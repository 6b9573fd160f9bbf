/** The phase machine of one CocoonHibernation: opposite desires wait for each other, and a deadline
    counts from the entry into the phase it bounds. */
module Hibernations {
  import opened World

  const SECOND: int := 1_000_000_000
  const HIBERNATE_TIMEOUT: int := 180 * SECOND
  const WAKE_TIMEOUT: int := 300 * SECOND

  datatype Desire = WantHibernate | WantWake | Unknown

  /** The phases Pending, Hibernating, Hibernated, Waking, Active and Failed; New has no status yet. */
  datatype Stage = New | Waiting | Hibernating | Asleep | WakingUp | Active | Broken

  /** The Ready condition; `since` is its LastTransitionTime, which the API stores in whole seconds. */
  datatype Condition = Condition(ready: bool, message: string, generation: nat, since: int)

  /** The target pod as one read returns it. */
  datatype Target = Target(vmName: string, hibernate: bool, live: bool, hibernated: bool, observed: nat, stamp: nat)

  datatype Probe = Found | Missing | Refused

  function Truncated(t: int): int {
    t - t % SECOND
  }

  /** SetStatusCondition: the transition time moves only when the status flips. */
  function Merged(prev: Option<Condition>, ready: bool, message: string, generation: nat, now: int): Condition {
    Condition(ready, message, generation,
              if prev.Some? && prev.value.ready == ready then prev.value.since else Truncated(now))
  }

  function StageReady(stage: Stage): bool {
    stage == Asleep || stage == Active
  }

  predicate InFlight(stage: Stage) {
    stage == Hibernating || stage == WakingUp
  }

  /** The stages one pass may move to. */
  predicate Follows(a: Stage, b: Stage) {
    match a
    case WakingUp => b in {WakingUp, Active, Broken}
    case Hibernating => b in {Hibernating, Asleep, Broken, Waiting}
    case Asleep => b != Waiting
    case _ => true
  }

  ghost predicate Chain(stages: seq<Stage>) {
    forall i | 0 < i < |stages| :: Follows(stages[i - 1], stages[i])
  }

  /** Between a wake in flight and any later hibernation the wake ended, and the other way round. */
  lemma {:induction false} DesiresSerialize(stages: seq<Stage>, i: nat, j: nat)
    requires Chain(stages) && i < j < |stages|
    ensures stages[i] == WakingUp && stages[j] in {Hibernating, Asleep} ==>
      exists k :: i < k < j && stages[k] in {Active, Broken}
    ensures stages[i] == Hibernating && stages[j] in {WakingUp, Active} ==>
      exists k :: i < k < j && stages[k] in {Asleep, Broken, Waiting}
    decreases j - i
  {
    assert Follows(stages[i], stages[i + 1]);
    if i + 1 < j {
      DesiresSerialize(stages, i + 1, j);
    }
  }

  lemma ChainOn(stages: seq<Stage>, stage: Stage)
    requires Chain(stages) && stages != [] && Follows(stages[|stages| - 1], stage)
    ensures Chain(stages + [stage])
  {}

  class Hibernation {
    var desire: Desire
    var generation: nat
    var stage: Stage
    var vmName: string
    var observedGeneration: nat
    var condition: Option<Condition>
    var announced: Option<int>      // the reconciler's memory of the last transition it announced
    var now: int
    var target: Option<Target>
    var tag: bool                   // the :hibernate tag of the target's VM
    ghost var entered: int          // when the current stage was entered
    ghost var stages: seq<Stage>
    ghost var announcements: seq<int>

    /** In flight, the condition dates from the entry into the phase. */
    ghost predicate Valid()
      reads this
    {
      && entered <= now
      && stages != [] && stages[|stages| - 1] == stage && Chain(stages)
      && (InFlight(stage) ==> condition.Some? && !condition.value.ready && condition.value.since == Truncated(entered))
      && (condition.Some? ==> condition.value.since <= now)
      && (stage == New ==> condition.None?)
      && Increasing(announcements)
      && (announced == if announcements == [] then None else Some(announcements[|announcements| - 1]))
    }

    constructor (desire: Desire)
      ensures Valid() && fresh(this) && stages == [New]
    {
      this.desire, generation, stage, vmName, observedGeneration := desire, 1, New, "", 0;
      condition, announced, now, target, tag := None, None, 0, None, false;
      entered, stages, announcements := 0, [New], [];
    }

    /** The user flips the desire, the pod comes and goes, vk-cocoon works, time passes. */
    method Outside(desire: Desire, later: int, target: Option<Target>, tag: bool)
      requires Valid() && later >= now
      modifies this`desire, this`generation, this`now, this`target, this`tag
      ensures Valid() && this.desire == desire && now == later && this.target == target && this.tag == tag
      ensures generation == old(generation) + if desire == old(this.desire) then 0 else 1
    {
      generation := generation + if desire == this.desire then 0 else 1;
      this.desire, now, this.target, this.tag := desire, later, target, tag;
    }

    predicate DeadlineExceeded(stage: Stage, timeout: int)
      reads this
    {
      this.stage == stage && condition.Some? && now - condition.value.since > timeout
    }

    /** The status write both setPhase and patchNotReady end in. */
    method PatchStatus(stage: Stage, vmName: string, message: string, refresh: bool) returns (ok: bool)
      requires Valid() && stage != New && Follows(this.stage, stage)
      requires InFlight(stage) ==> refresh == (this.stage != stage)
      modifies this`stage, this`vmName, this`observedGeneration, this`condition, this`entered, this`stages
      ensures Valid()
      ensures ok ==> this.stage == stage && this.vmName == vmName && observedGeneration == generation
      ensures this.stage == stage || this.stage == old(this.stage)
      ensures old(this.stage) == this.stage ==> entered == old(entered)
      ensures stages == old(stages) || stages == old(stages) + [this.stage]
    {
      hide Chain, Increasing, Follows;
      if * {
        return false;
      }
      ChainOn(stages, stage);
      var merged := Merged(condition, StageReady(stage), message, generation, now);
      condition := Some(if refresh then merged.(since := Truncated(now)) else merged);
      if this.stage != stage {
        entered := now;
      }
      stages := stages + [stage];
      this.stage, this.vmName, observedGeneration := stage, vmName, generation;
      ok := *;
    }

    /** setPhase: a phase entry refreshes the transition time, so no deadline carries over. */
    method SetPhase(stage: Stage, vmName: string) returns (ok: bool)
      requires Valid() && stage != New && Follows(this.stage, stage)
      modifies this`stage, this`vmName, this`observedGeneration, this`condition, this`entered, this`stages
      ensures Valid()
      ensures ok ==> this.stage == stage && this.vmName == vmName && observedGeneration == generation
      ensures this.stage == stage || this.stage == old(this.stage)
      ensures old(this.stage) == this.stage ==> entered == old(entered)
      ensures stages == old(stages) || stages == old(stages) + [this.stage]
    {
      if this.stage == stage && this.vmName == vmName && observedGeneration == generation {
        return true;
      }
      ok := PatchStatus(stage, vmName, "", this.stage != stage && InFlight(stage));
    }

    method PatchNotReady(stage: Stage, message: string) returns (ok: bool)
      requires Valid() && stage in {Waiting, Broken} && Follows(this.stage, stage)
      modifies this`stage, this`vmName, this`observedGeneration, this`condition, this`entered, this`stages
      ensures Valid()
      ensures ok ==> this.stage == stage
      ensures this.stage == stage || this.stage == old(this.stage)
      ensures old(this.stage) == this.stage ==> entered == old(entered)
      ensures stages == old(stages) || stages == old(stages) + [this.stage]
    {
      ok := PatchStatus(stage, vmName, message, false);
    }

    /** markPending never demotes Hibernated or Waking. */
    method MarkPending(message: string) returns (ok: bool)
      requires Valid()
      modifies this`stage, this`vmName, this`observedGeneration, this`condition, this`entered, this`stages
      ensures Valid()
      ensures old(stage) in {Asleep, WakingUp} ==> ok && stage == old(stage) && condition == old(condition) && stages == old(stages)
      ensures ok ==> stage == Waiting || stage == old(stage)
      ensures stage in {Waiting, old(stage)}
      ensures old(stage) == stage ==> entered == old(entered)
    {
      if stage == Asleep || stage == WakingUp {
        return true;
      }
      if stage == Waiting && observedGeneration == generation && condition.Some? && condition.value.message == message {
        return true;
      }
      ok := PatchNotReady(Waiting, message);
    }

    /** firstTransitionAt: each Ready transition is announced at most once, stale reads included. */
    method Announce() returns (first: bool)
      requires Valid()
      modifies this`announced, this`announcements
      ensures Valid()
      ensures first ==> condition.Some? && announcements == old(announcements) + [condition.value.since]
      ensures !first ==> announcements == old(announcements)
    {
      if condition.None? {
        return false;
      }
      first := announced.None? || condition.value.since > announced.value;
      if first {
        announced := Some(condition.value.since);
        announcements := announcements + [condition.value.since];
      }
    }
  
    function Timeout(): int
      reads this
    {
      if stage == Hibernating then HIBERNATE_TIMEOUT else WAKE_TIMEOUT
    }

    /** The timeout of the phase in flight has run out. */
    predicate Overdue()
      reads this
    {
      InFlight(stage) && DeadlineExceeded(stage, Timeout())
    }

    /** A pass fails the phase in flight only after its whole timeout, to the API's one-second grain. */
    twostate predicate FailsLate()
      reads this
    {
      stage == Broken && InFlight(old(stage)) ==> now - old(entered) > old(Timeout()) - SECOND
    }

    lemma OverdueMeansElapsed()
      requires Valid() && Overdue()
      ensures now - entered > Timeout() - SECOND
    {}

    /** podpatch.HibernateState. The answer `got` is the pod as the server has it, which may be newer
        than the one read in all but the patched annotation. */
    method PatchHibernate(t: Target, state: bool) returns (ok: bool, got: Target)
      modifies this`target
      ensures t.hibernate == state ==> ok && got == t && target == old(target)
      ensures target == old(target) || target == Some(got)
      ensures ok || target != old(target) ==> got.hibernate == state
    {
      if t.hibernate == state {
        return true, t;
      }
      if * {
        return false, t;
      }
      var newer: Target := *;
      got := newer.(hibernate := state);
      target := Some(got);
      ok := *;
    }

    /** reconcileHibernate: Hibernated only behind vk-cocoon's report for the pod's generation and a
        tag the registry confirms. It never wakes the pod and never touches the tag. */
    method ReconcileHibernate(t: Target, probe: Probe) returns (ok: bool, got: Target)
      requires Valid() && stage != WakingUp
      modifies this`target, this`stage, this`vmName, this`observedGeneration, this`condition, this`entered, this`stages
      modifies this`announced, this`announcements
      ensures Valid() && FailsLate()
      ensures target == old(target) || (target == Some(got) && got.hibernate)
      ensures (t.hibernate ==> got == t) && (ok ==> got.hibernate)
      ensures stage in {old(stage), Hibernating, Asleep, Broken}
      ensures stage == Asleep ==> old(stage) == Asleep || (got.hibernated && got.observed >= got.stamp && probe == Found)
      ensures stage == Broken ==> old(stage) == Broken || old(Overdue())
      ensures ok ==> stage in {Hibernating, Asleep, Broken} && (old(Overdue()) ==> stage != Hibernating)
      ensures ok ==> (stage == Asleep <==> got.hibernated && got.observed >= got.stamp && probe == Found)
      ensures old(stage) == stage ==> entered == old(entered)
    {
      hide Chain, Increasing, Truncated;
      ok, got := PatchHibernate(t, true);
      if !ok {
        return;
      }
      if got.hibernated && got.observed >= got.stamp {
        if probe == Refused && !DeadlineExceeded(Hibernating, HIBERNATE_TIMEOUT) {
          var landed := SetPhase(Hibernating, t.vmName);
          return false, got;
        }
        if probe == Found {
          var first := Announce();
          ok := SetPhase(Asleep, t.vmName);
          return;
        }
      }
      if DeadlineExceeded(Hibernating, HIBERNATE_TIMEOUT) {
        OverdueMeansElapsed();
        var first := Announce();
        ok := PatchNotReady(Broken, "hibernate not confirmed");
        return;
      }
      ok := SetPhase(Hibernating, t.vmName);
    }

    /** The live VM owns the state now: Active, then no tag. */
    method Settle(vmName: string, settled: bool) returns (ok: bool)
      requires Valid() && stage != Hibernating
      requires settled == (stage == Active && observedGeneration == generation)
      modifies this`stage, this`vmName, this`observedGeneration, this`condition, this`entered, this`stages
      modifies this`announced, this`announcements, this`tag
      ensures Valid()
      ensures tag == old(tag) || (!tag && stage == Active && observedGeneration == generation)
      ensures stage in {old(stage), Active}
      ensures ok ==> stage == Active && !tag
      ensures old(stage) == stage ==> entered == old(entered)
    {
      hide Chain, Increasing, Truncated;
      if !settled {
        var first := Announce();
        ok := SetPhase(Active, vmName);
        if !ok {
          return;
        }
      }
      if * {
        return false;
      }
      tag := false;
      ok := *;
    }

    /** reconcileWake: the tag goes only once the VM is live and the set has recorded Active. */
    method ReconcileWake(t: Target) returns (ok: bool, got: Target)
      requires Valid() && stage != Hibernating
      modifies this`target, this`stage, this`vmName, this`observedGeneration, this`condition, this`entered, this`stages
      modifies this`announced, this`announcements, this`tag
      ensures Valid() && FailsLate()
      ensures target == old(target) || (target == Some(got) && !got.hibernate)
      ensures !t.hibernate ==> got == t
      ensures tag == old(tag) || (!tag && got.live && stage == Active && observedGeneration == generation)
      ensures stage in {old(stage), Active, WakingUp, Broken}
      ensures stage == Active ==> old(stage) == Active || got.live
      ensures stage == Broken ==> old(stage) == Broken || old(Overdue())
      ensures ok && got.live && !(t.hibernate && old(stage) == Active && old(observedGeneration) == generation) ==>
        stage == Active && !tag
      ensures ok && old(Overdue()) ==> stage != WakingUp
      ensures old(stage) == stage ==> entered == old(entered)
    {
      hide Chain, Increasing, Truncated;
      var settled := stage == Active && observedGeneration == generation;
      if settled && t.hibernate {
        return true, t;
      }
      got := t;
      if !settled && t.hibernate {
        ok, got := PatchHibernate(t, false);
        if !ok {
          return;
        }
      }
      if got.live {
        ok := Settle(t.vmName, settled);
        return;
      }
      if settled {
        return true, got;
      }
      if DeadlineExceeded(WakingUp, WAKE_TIMEOUT) {
        OverdueMeansElapsed();
        var first := Announce();
        ok := PatchNotReady(Broken, "wake timed out");
        return;
      }
      ok := SetPhase(WakingUp, t.vmName);
    }

    /** Reconcile: the desire picks the direction, unless the opposite one is still in flight. */
    method Reconcile(read: Option<Target>, probe: Probe) returns (ok: bool)
      requires Valid()
      modifies this`target, this`stage, this`vmName, this`observedGeneration, this`condition, this`entered, this`stages
      modifies this`announced, this`announcements, this`tag
      ensures Valid()
      ensures desire != Unknown ==> FailsLate()
      ensures read.None? || read.value.vmName == "" ==>
        target == old(target) && tag == old(tag) && (old(stage) in {Asleep, WakingUp} ==> stage == old(stage))
      ensures read.Some? && read.value.vmName != "" && ok && old(Overdue()) ==> stage != old(stage)
      ensures old(stage) == Hibernating && read.Some? ==> target == old(target) || (target.Some? && target.value.hibernate)
      ensures old(stage) == WakingUp && read.Some? ==> target == old(target) || (target.Some? && !target.value.hibernate)
      ensures old(stage) == stage ==> entered == old(entered)
    {
      hide Chain, Increasing, Truncated;
      if read.None? {
        ok := MarkPending("not yet present");
      } else if read.value.vmName == "" {
        ok := MarkPending("no VM name yet");
      } else if desire == Unknown {
        ok := PatchNotReady(Broken, "unknown desire");
      } else if stage == WakingUp || (desire == WantWake && stage != Hibernating) {
        var got;
        ok, got := ReconcileWake(read.value);
      } else {
        var got;
        ok, got := ReconcileHibernate(read.value, probe);
      }
    }
  }

  ghost predicate Increasing(ts: seq<int>) {
    forall i, j | 0 <= i < j < |ts| :: ts[i] < ts[j]
  }

  /** Any run: desires flip, pods come and go, writes fail before or after they land. */
  method Run(h: Hibernation)
    requires h.Valid()
    modifies h
    ensures h.Valid() && Chain(h.stages)
    ensures InFlight(h.stage) ==> h.condition.Some? && h.condition.value.since == Truncated(h.entered)
  {
    hide Chain, Increasing;
    var steps: nat := *;
    while steps > 0
      invariant h.Valid()
    {
      if * {
        var desire: Desire, later: int, target: Option<Target>, tag: bool := *, *, *, *;
        if later >= h.now {
          h.Outside(desire, later, target, tag);
        }
      } else {
        var read: Option<Target>, probe: Probe := *, *;
        var ok := h.Reconcile(read, probe);
      }
      steps := steps - 1;
    }
    ValidChain(h);
  }

  lemma ValidChain(h: Hibernation)
    requires h.Valid()
    ensures Chain(h.stages)
  {}
}

/** Deleting CocoonHibernations that share a VM: the last holder collects the tag. */
module LastHolder {
  import opened World

  /** `vmName` is Status.VMName: the VM this CocoonHibernation is known to own, "" before its first
      reconcile. */
  datatype Holder = Holder(podRef: string, vmName: string, deleting: bool)

  type Holders = map<nat, Holder>

  /** vmHeldByAnotherCR. */
  predicate HeldByAnother(holders: Holders, uid: nat)
    requires uid in holders
  {
    exists o :: o in holders && o != uid && !holders[o].deleting
      && (holders[o].vmName == holders[uid].vmName || holders[o].podRef == holders[uid].podRef)
  }

  class Namespace {
    var holders: Holders      // the CocoonHibernations whose finalizer is still set
    var tags: set<string>     // VMs with a :hibernate tag

    constructor (holders: Holders, tags: set<string>)
      ensures this.holders == holders && this.tags == tags
    {
      this.holders, this.tags := holders, tags;
    }

    method MarkDeleting(uid: nat)
      requires uid in holders
      modifies this`holders
      ensures holders == old(holders)[uid := old(holders)[uid].(deleting := true)]
    {
      holders := holders[uid := holders[uid].(deleting := true)];
    }

    /** reconcileDelete. A failed list keeps the finalizer; a failed tag delete is logged and the
        finalizer goes all the same. `answers`: the registry carries out the delete. */
    method ReconcileDelete(uid: nat, answers: bool) returns (finished: bool)
      requires uid in holders && holders[uid].deleting
      modifies this
      ensures finished ==> holders == old(holders) - {uid}
      ensures !finished ==> holders == old(holders)
      ensures tags == old(tags) || tags == old(tags) - {old(holders)[uid].vmName}
      ensures tags != old(tags) ==> answers && !HeldByAnother(old(holders), uid)
      ensures finished && answers && old(holders)[uid].vmName != "" && !HeldByAnother(old(holders), uid) ==>
        old(holders)[uid].vmName !in tags
    {
      var h := holders[uid];
      if h.vmName != "" {
        if * {
          return false;
        }
        if !HeldByAnother(holders, uid) && answers {
          tags := tags - {h.vmName};
        }
      }
      if * {
        return false;
      }
      holders := holders - {uid};
      finished := true;
    }
  }

  datatype Event = MarkedDeleting(uid: nat) | Reconciled(uid: nat, answers: bool)

  datatype Finisher = Finisher(vmName: string, answered: bool)

  /** The CocoonHibernations of one pod, and only they, own its VM. */
  predicate OneVM(holders: Holders, pod: string, vm: string) {
    forall u | u in holders ::
      if holders[u].podRef == pod then holders[u].vmName in {"", vm} else holders[u].vmName != vm
  }

  predicate StillHeld(holders: Holders, pod: string) {
    exists u :: u in holders && holders[u].podRef == pod && !holders[u].deleting
  }

  predicate AllGone(holders: Holders, pod: string) {
    forall u | u in holders :: holders[u].podRef != pod
  }

  lemma HeldMeansHeldByAnother(holders: Holders, pod: string, uid: nat)
    requires StillHeld(holders, pod) && uid in holders && holders[uid].deleting && holders[uid].podRef == pod
    ensures HeldByAnother(holders, uid)
  {}

  lemma LastIsNotHeld(holders: Holders, pod: string, vm: string, uid: nat)
    requires OneVM(holders, pod, vm) && vm != "" && uid in holders && holders[uid].podRef == pod
    requires holders[uid].vmName == vm && AllGone(holders - {uid}, pod)
    ensures !HeldByAnother(holders, uid)
  {
    forall o | o in holders && o != uid
      ensures holders[o].vmName != vm && holders[o].podRef != pod
    {
      assert o in holders - {uid};
    }
  }

  lemma AllGoneBefore(before: Holders, after: Holders, pod: string, uid: nat)
    requires uid in before && after - {uid} == before - {uid}
    requires before[uid].podRef != pod || (uid in after && after[uid].podRef == pod)
    ensures AllGone(after, pod) ==> AllGone(before, pod)
  {
    forall u | u in before && u != uid
      ensures u in after && after[u] == before[u]
    {
      assert u in before - {uid};
    }
  }

  /** The CocoonHibernations of one pod deleted in any order, with any retries: the tag stays as long
      as one of them is not being deleted; and once they are all gone it is gone too, provided the
      last one to finish knew its VM and the registry answered it. */
  method DeleteInAnyOrder(ns: Namespace, pod: string, vm: string, events: seq<Event>) returns (last: Option<Finisher>)
    requires vm != "" && OneVM(ns.holders, pod, vm)
    modifies ns
    ensures StillHeld(ns.holders, pod) ==> (vm in ns.tags <==> vm in old(ns.tags))
    ensures AllGone(ns.holders, pod) && last == Some(Finisher(vm, true)) ==> vm !in ns.tags
  {
    last := None;
    for i := 0 to |events|
      invariant OneVM(ns.holders, pod, vm)
      invariant StillHeld(ns.holders, pod) ==> (vm in ns.tags <==> vm in old(ns.tags))
      invariant AllGone(ns.holders, pod) && last == Some(Finisher(vm, true)) ==> vm !in ns.tags
    {
      var uid := events[i].uid;
      if uid in ns.holders {
        var h := ns.holders[uid];
        ghost var before := ns.holders;
        if events[i].MarkedDeleting? {
          ns.MarkDeleting(uid);
          AllGoneBefore(before, ns.holders, pod, uid);
        } else if h.deleting {
          var finished := ns.ReconcileDelete(uid, events[i].answers);
          if h.podRef == pod {
            if StillHeld(before, pod) {
              HeldMeansHeldByAnother(before, pod, uid);
            }
            if finished {
              if AllGone(ns.holders, pod) && h.vmName == vm {
                LastIsNotHeld(before, pod, vm, uid);
              }
              last := Some(Finisher(h.vmName, events[i].answers));
            }
          } else {
            AllGoneBefore(before, ns.holders, pod, uid);
          }
        }
      }
    }
  }
}
