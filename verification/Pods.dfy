/** Building the pod of a slot or a toolbox, and deciding whether a pod still matches its spec. */
module Pods {
  import opened World

  // ---- resources ----

  const CPU := "cpu"
  const MEMORY := "memory"
  const STORAGE := "ephemeral-storage"

  type Quantities = map<string, nat>   // milli-units; comparing quantities compares values

  datatype Resources = Resources(limits: Quantities, requests: Quantities)

  /** What the API server stores: a missing request is filled from its limit. */
  function Defaulted(r: Resources): Resources {
    r.(requests := r.limits + r.requests)
  }

  predicate QuantityEqual(a: Quantities, b: Quantities, name: string) {
    && (name in a <==> name in b)
    && (name in a && name in b ==> a[name] == b[name])
  }

  predicate ResourceMatches(got: Resources, want: Resources, name: string) {
    && QuantityEqual(got.limits, want.limits, name)
    && QuantityEqual(got.requests, if name in want.requests then want.requests else want.limits, name)
  }

  /** resourcesMatch. */
  predicate ResourcesMatch(got: Resources, want: Resources) {
    ResourceMatches(got, want, CPU) && ResourceMatches(got, want, MEMORY)
  }

  function Compute(q: Quantities): Quantities {
    map n | n in q && n in {CPU, MEMORY} :: q[n]
  }

  /** resourcesMatch decides exactly whether the pod has the cpu and memory the API server would have
      defaulted the spec to; it looks at nothing else. */
  lemma ResourcesMatchIsExact(got: Resources, want: Resources)
    ensures ResourcesMatch(got, want) <==>
      Compute(got.limits) == Compute(Defaulted(want).limits) && Compute(got.requests) == Compute(Defaulted(want).requests)
  {
    var d := Defaulted(want);
    ComputeEqual(got.limits, d.limits);
    ComputeEqual(got.requests, d.requests);
  }

  lemma ComputeEqual(a: Quantities, b: Quantities)
    ensures Compute(a) == Compute(b) <==> QuantityEqual(a, b, CPU) && QuantityEqual(a, b, MEMORY)
  {
    if Compute(a) == Compute(b) {
      forall n | n in {CPU, MEMORY}
        ensures QuantityEqual(a, b, n)
      {
        assert n in Compute(a) <==> n in a;
        assert n in Compute(b) <==> n in b;
        assert n in a ==> Compute(a)[n] == a[n];
        assert n in b ==> Compute(b)[n] == b[n];
      }
    }
  }

  /** applyStorageRequest: the VM disk is accounted in both lists; none or zero adds nothing. */
  function WithStorage(r: Resources, storage: Option<nat>): Resources {
    if storage.None? || storage.value == 0 then r
    else Resources(r.limits[STORAGE := storage.value], r.requests[STORAGE := storage.value])
  }

  // ---- specs and pods ----

  /** `vm` stands for every field of the agent or toolbox spec that goes into the VM annotations. */
  datatype AgentSpec = AgentSpec(vm: string, resources: Resources, storage: Option<nat>, envFrom: seq<string>, serviceAccount: string)

  datatype Runtime = Runtime(vmid: string, ip: string, vncPort: int)

  datatype ToolboxSpec = ToolboxSpec(vm: string, resources: Resources, storage: Option<nat>, fixed: Option<Runtime>)

  datatype Spec = Spec(agent: AgentSpec, snapshotPolicy: string, nodeName: string, nodePool: string, cpuClass: string)

  const DEFAULT_POOL := "default"

  /** The VM annotations of a pod, as FromAgentSpec and FromToolboxSpec fill them and ParseVMSpec reads
      them back. */
  datatype VMSpec = VMSpec(vm: string, vmName: string, snapshotPolicy: string, forkFrom: string)

  datatype Built = Built(
    spec: VMSpec,
    resources: Resources,
    envFrom: seq<string>,
    serviceAccount: string,
    pool: string,
    cpuClass: string,
    node: string,              // direct bind
    pin: string,               // required hostname affinity
    runtime: Option<Runtime>,
    terminal: bool)

  function Or(a: string, b: string): string {
    if a != "" then a else b
  }

  /** buildAgentPod: a sub-agent forks from the main and may be bound to its node; an unbound main is
      pinned by affinity when the spec names a node. */
  function BuildAgent(cs: Spec, slot: nat, vmName: string, mainVM: string, bindNode: string): Built {
    Built(VMSpec(cs.agent.vm, vmName, cs.snapshotPolicy, if slot > 0 then mainVM else ""),
          WithStorage(cs.agent.resources, cs.agent.storage), cs.agent.envFrom, cs.agent.serviceAccount,
          Or(cs.nodePool, DEFAULT_POOL), cs.cpuClass,
          bindNode, if bindNode == "" && slot == 0 then cs.nodeName else "", None, false)
  }

  function BuildToolbox(cs: Spec, tb: ToolboxSpec, vmName: string): Built {
    Built(VMSpec(tb.vm, vmName, cs.snapshotPolicy, ""), WithStorage(tb.resources, tb.storage), [], "",
          Or(cs.nodePool, DEFAULT_POOL), cs.cpuClass, "", "", tb.fixed, false)
  }

  /** The pod as the API server stores it. */
  function Stored(p: Built): Built {
    p.(resources := Defaulted(p.resources), serviceAccount := Or(p.serviceAccount, "default"))
  }

  predicate SchedulingMatches(p: Built, cs: Spec) {
    p.pool == Or(cs.nodePool, DEFAULT_POOL) && (p.cpuClass == cs.cpuClass || (p.cpuClass == "" && !p.terminal))
  }

  /** podSpecMatchesAgent: a sub-agent keeps whatever it was forked from, a main must not be a fork. */
  predicate MatchesAgent(p: Built, cs: Spec, slot: nat) {
    && p.spec == VMSpec(cs.agent.vm, p.spec.vmName, cs.snapshotPolicy, if slot > 0 then p.spec.forkFrom else "")
    && ResourcesMatch(p.resources, cs.agent.resources)
    && Or(p.serviceAccount, "default") == Or(cs.agent.serviceAccount, "default")
    && p.envFrom == cs.agent.envFrom && SchedulingMatches(p, cs)
  }

  predicate MatchesToolbox(p: Built, cs: Spec, tb: ToolboxSpec) {
    && p.spec == VMSpec(tb.vm, p.spec.vmName, cs.snapshotPolicy, "")
    && ResourcesMatch(p.resources, tb.resources) && SchedulingMatches(p, cs)
    && (tb.fixed.None? || p.runtime == tb.fixed)
  }

  /** pinnedElsewhere: a pod not yet scheduled, under a hostname affinity the spec no longer names. */
  predicate PinnedElsewhere(p: Built, nodeName: string) {
    p.node == "" && p.pin != "" && p.pin != nodeName
  }

  lemma StorageLeavesCompute(r: Resources, storage: Option<nat>)
    ensures
      var s := Defaulted(WithStorage(r, storage));
      Compute(s.limits) == Compute(Defaulted(r).limits) && Compute(s.requests) == Compute(Defaulted(r).requests)
  {}

  /** The two specs ask for the same pod, up to what the API server would default and up to the class
      an older pod may lack. */
  predicate SameAgent(a: Spec, b: Spec) {
    && a.agent.vm == b.agent.vm && a.snapshotPolicy == b.snapshotPolicy && a.agent.envFrom == b.agent.envFrom
    && Or(a.agent.serviceAccount, "default") == Or(b.agent.serviceAccount, "default")
    && Or(a.nodePool, DEFAULT_POOL) == Or(b.nodePool, DEFAULT_POOL) && (a.cpuClass == b.cpuClass || a.cpuClass == "")
    && var ra, rb := Defaulted(a.agent.resources), Defaulted(b.agent.resources);
    && Compute(ra.limits) == Compute(rb.limits) && Compute(ra.requests) == Compute(rb.requests)
  }

  /** A pod built from one spec, defaulted, matches another exactly when the two ask for the same pod;
      so a spec edit rebuilds an agent exactly when it changes what the agent's pod is. */
  lemma MatchesExactlySameAgent(a: Spec, b: Spec, slot: nat, vmName: string, mainVM: string, bindNode: string)
    ensures MatchesAgent(Stored(BuildAgent(a, slot, vmName, mainVM, bindNode)), b, slot) <==> SameAgent(a, b)
  {
    var r := Defaulted(WithStorage(a.agent.resources, a.agent.storage));
    ResourcesMatchIsExact(r, b.agent.resources);
    StorageLeavesCompute(a.agent.resources, a.agent.storage);
  }

  /** Every built pod, once defaulted, matches its own spec and is not pinned elsewhere: creating a pod
      never makes the next pass rebuild it. */
  lemma BuiltAgentIsFixpoint(cs: Spec, slot: nat, vmName: string, mainVM: string, bindNode: string)
    ensures
      var p := Stored(BuildAgent(cs, slot, vmName, mainVM, bindNode));
      MatchesAgent(p, cs, slot) && !PinnedElsewhere(p, cs.nodeName)
  {
    MatchesExactlySameAgent(cs, cs, slot, vmName, mainVM, bindNode);
  }

  lemma BuiltToolboxIsFixpoint(cs: Spec, tb: ToolboxSpec, vmName: string)
    ensures
      var p := Stored(BuildToolbox(cs, tb, vmName));
      MatchesToolbox(p, cs, tb) && !PinnedElsewhere(p, cs.nodeName)
  {
    ResourcesMatchIsExact(Defaulted(WithStorage(tb.resources, tb.storage)), tb.resources);
    StorageLeavesCompute(tb.resources, tb.storage);
  }

  // ---- classifyPods ----

  datatype Role = RoleMain | RoleSub | RoleToolbox | RoleOther

  /** `slot` is the slot label as an integer, None when it does not parse; `text` is the label itself. */
  datatype Owned = Owned(name: string, deleting: bool, role: Role, slot: Option<int>, text: string)

  datatype Classified = Classified(
    main: Option<Owned>, sub: map<int, Owned>, toolbox: map<string, Owned>, allByName: map<string, Owned>)

  /** Everything a classification holds is one of the pods, not being deleted, under its own label. */
  ghost predicate Sound(c: Classified, pods: seq<Owned>) {
    && (forall n | n in c.allByName :: c.allByName[n] in pods && c.allByName[n].name == n && !c.allByName[n].deleting)
    && (c.main.Some? ==> c.main.value in pods && !c.main.value.deleting && c.main.value.role == RoleMain)
    && (forall s | s in c.sub ::
          c.sub[s] in pods && !c.sub[s].deleting && c.sub[s].role == RoleSub && c.sub[s].slot == Some(s))
    && (forall t | t in c.toolbox ::
          c.toolbox[t] in pods && !c.toolbox[t].deleting && c.toolbox[t].role == RoleToolbox && c.toolbox[t].text == t)
  }

  /** A pod not being deleted has its place. */
  ghost predicate Found(c: Classified, p: Owned) {
    p.deleting || (
      && p.name in c.allByName
      && (p.role == RoleMain ==> c.main.Some?)
      && (p.role == RoleSub && p.slot.Some? ==> p.slot.value in c.sub)
      && (p.role == RoleToolbox ==> p.text in c.toolbox))
  }

  ghost predicate Places(c: Classified, pods: seq<Owned>) {
    Sound(c, pods) && forall p | p in pods :: Found(c, p)
  }

  function Placed(c: Classified, p: Owned): Classified {
    var all := c.(allByName := c.allByName[p.name := p]);
    match p.role
    case RoleMain => all.(main := Some(p))
    case RoleSub => if p.slot.Some? then all.(sub := all.sub[p.slot.value := p]) else all
    case RoleToolbox => all.(toolbox := all.toolbox[p.text := p])
    case RoleOther => all
  }

  lemma StillSound(c: Classified, pods: seq<Owned>, p: Owned)
    requires Sound(c, pods)
    ensures Sound(c, pods + [p])
  {
    assert forall q | q in pods :: q in pods + [p];
  }

  lemma SoundWith(c: Classified, pods: seq<Owned>, p: Owned)
    requires Sound(c, pods) && p in pods && !p.deleting
    ensures Sound(Placed(c, p), pods)
  {}

  lemma StillFound(c: Classified, p: Owned, q: Owned)
    requires Found(c, q)
    ensures Found(Placed(c, p), q)
  {}

  lemma PlacingOne(c: Classified, pods: seq<Owned>, p: Owned)
    requires Places(c, pods)
    ensures Places(if p.deleting then c else Placed(c, p), pods + [p])
  {
    hide Sound, Placed;
    StillSound(c, pods, p);
    if !p.deleting {
      SoundWith(c, pods + [p], p);
      FoundWith(c, p);
      forall q | q in pods
        ensures Found(Placed(c, p), q)
      {
        StillFound(c, p, q);
      }
    }
  }

  lemma FoundWith(c: Classified, p: Owned)
    ensures Found(Placed(c, p), p)
  {}

  /** classifyPods: pods being deleted are left out; every other one is found by its name, and by its
      role when its labels parse. */
  method ClassifyPods(pods: seq<Owned>) returns (c: Classified)
    ensures Places(c, pods)
  {
    hide Places, Placed;
    c := Classified(None, map[], map[], map[]);
    NothingPlaced();
    for i := 0 to |pods|
      invariant Places(c, pods[..i])
    {
      PlacingOne(c, pods[..i], pods[i]);
      assert pods[..i + 1] == pods[..i] + [pods[i]];
      if !pods[i].deleting {
        c := Placed(c, pods[i]);
      }
    }
    assert pods[..|pods|] == pods;
  }

  lemma NothingPlaced()
    ensures Places(Classified(None, map[], map[], map[]), [])
  {}

  // ---- re-pin deletes ----

  datatype Event = EditNode(nodeName: string) | Schedule(node: string) | Pass

  /** The main of a run, its spec's node, and how often each happened. */
  datatype Run = Run(cs: Spec, main: Option<Built>, edits: nat, deletes: nat)

  function Next(r: Run, e: Event): Run {
    match e
    case EditNode(nodeName) =>
      if nodeName == r.cs.nodeName then r else r.(cs := r.cs.(nodeName := nodeName), edits := r.edits + 1)
    case Schedule(node) =>
      if r.main.Some? && r.main.value.node == "" && r.main.value.pin in {"", node}
      then r.(main := Some(r.main.value.(node := node))) else r
    case Pass =>
      if r.main.None? then r.(main := Some(Stored(BuildAgent(r.cs, 0, "vm", "", ""))))
      else if PinnedElsewhere(r.main.value, r.cs.nodeName) then r.(main := None, deletes := r.deletes + 1)
      else r
  }

  function After(r: Run, events: seq<Event>): Run
    decreases |events|
  {
    if events == [] then r else After(Next(r, events[0]), events[1..])
  }

  function Due(r: Run): nat {
    if r.main.Some? && PinnedElsewhere(r.main.value, r.cs.nodeName) then 1 else 0
  }

  /** Re-pin deletes never outnumber the edits of spec.nodeName. */
  lemma {:induction false} RepinsFollowEdits(r: Run, events: seq<Event>)
    ensures var last := After(r, events); last.deletes + Due(last) + r.edits <= last.edits + r.deletes + Due(r)
    decreases |events|
  {
    if events != [] {
      RepinsFollowEdits(Next(r, events[0]), events[1..]);
    }
  }

  lemma RepinDeletesAreBounded(cs: Spec, events: seq<Event>)
    ensures var last := After(Run(cs, None, 0, 0), events); last.deletes <= last.edits
  {
    RepinsFollowEdits(Run(cs, None, 0, 0), events);
  }
}
