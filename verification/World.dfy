/** The state shared by the CocoonSet reconciler, the snapshot registry and vk-cocoon.
    A slot is one managed VM: its pod, its `:hibernate` tag and the guest state itself. The pod
    name and the VM name of a slot are derived from each other, so one string names both. */
module World {
  datatype Option<+T> = None | Some(value: T)

  // Live: the container runs with a freshly written VMID. Frozen: hibernated, memory only in the tag.
  datatype VM = Booting | Live | Frozen

  datatype Lifecycle = Unreported | Ready | Hibernated | Failed

  datatype Pod = Pod(
    node: string,        // "" until the scheduler binds the pod
    pin: string,         // required hostname affinity, "" when there is none
    image: string,       // the VM image the pod was built with ...
    shape: nat,          // ... and the rest of the spec it was built from: resources, scheduling, policy
    terminating: bool,   // deletion timestamp set
    terminal: bool,      // kubelet phase Failed or Succeeded
    hibernate: bool,     // hibernate annotation
    restore: bool,       // restore-from-hibernate mark
    stamp: nat,          // CocoonSet generation stamped by the operator
    vm: VM,
    state: Lifecycle,    // last lifecycle report of vk-cocoon ...
    observed: nat)       // ... and the stamp that report echoes

  datatype Snapshot = Snapshot(image: string, version: nat)

  /** `past` holds the older pod versions an informer may still return, oldest first.
      `guest` is the version of the running guest; `claim` is the version the user is owed, None
      before the first boot; `excused` marks a VM that vk-cocoon or the kubelet has failed, or whose pod
      the rebuild budget has deleted, and whose state nobody promises; `quiesced` is the last generation at which a suspend set the annotation;
      `own` counts the older versions that precede the operator's last write to the pod. */
  datatype Slot = Slot(
    server: Option<Pod>,
    past: seq<Option<Pod>>,
    tag: Option<Snapshot>,
    guest: nat,
    claim: Option<nat>,
    excused: bool,
    quiesced: nat,
    own: nat)

  datatype Phase =
    | Unset | Pending | Scaling | Running | Suspending | Suspended | Waking | Migrating | FailedPhase

  datatype Reclaim = Reclaim(generation: nat, vms: seq<string>, restore: seq<string>, suspended: seq<string>)

  const EMPTY_RECLAIM := Reclaim(0, [], [], [])

  /** `images`, `shapes`, `repins` and `asked` are history, not stored: every image and shape the spec
      has asked for, how often its node name was edited, and when the suspend deadline was written. */
  datatype CocoonSet = CocoonSet(
    generation: nat,
    suspend: bool,
    release: bool,       // hibernatePolicy: release
    nodeName: string,
    image: string,
    shape: nat,
    images: set<string>,
    shapes: set<nat>,
    repins: nat,
    phase: Phase,
    hint: string,        // hibernated-on-node annotation, "" when absent
    stash: set<string>,  // delete-vm-names annotation
    since: Option<int>,  // suspending-since annotation, in whole seconds; None also when unreadable
    asked: int,          // when it was written
    record: Reclaim)     // hibernate-reclaim annotation

  /** What vk-cocoon, the scheduler and the guest may do to one slot. */
  datatype VkAction =
    | Bind(node: string) | Boot | Work
    | Freeze(labelled: bool)   // an older vk-cocoon records no image on the snapshots it pushes
    | Thaw | Report | Fail | Terminate | Vanish

  predicate Gone(s: Slot) {
    s.server.None? || s.server.value.terminating
  }

  predicate Present(s: Slot) {
    s.server.Some? && !s.server.value.terminating
  }

  predicate LiveNow(s: Slot) {
    Present(s) && s.server.value.vm == Live
  }

  /** No guest state is lost: what the user is owed runs, or sits in the tag. */
  predicate NoLoss(s: Slot) {
    s.claim.Some? ==>
      if LiveNow(s) then s.guest == s.claim.value
      else s.tag.Some? && s.tag.value.version == s.claim.value
  }

  function Write(s: Slot, p: Option<Pod>): Slot {
    s.(past := s.past + [s.server], server := p)
  }

  function WithVM(s: Slot, vm: VM): Slot
    requires s.server.Some?
  {
    Write(s, Some(s.server.value.(vm := vm)))
  }

  /** One step of the world outside the operator; a step that is not enabled changes nothing. */
  function Act(a: VkAction, s: Slot): Slot {
    if s.server.None? then s
    else
      var p := s.server.value;
      if p.terminating then
        if a.Vanish? then Write(s, None) else s
      else match a {
        case Bind(node) =>
          if p.node == "" && node != "" && (p.pin == "" || node == p.pin)
          then Write(s, Some(p.(node := node))) else s
        case Boot =>
          if p.node == "" || p.vm != Booting || p.terminal then s
          else
            var version := if p.restore && s.tag.Some? then s.tag.value.version else 0;
            WithVM(s, Live).(guest := version, claim := if s.claim.None? && !s.excused then Some(version) else s.claim)
        case Work =>
          if p.vm != Live then s
          else s.(guest := s.guest + 1, claim := if s.claim.Some? then Some(s.guest + 1) else None)
        case Freeze(labelled) =>
          if p.vm == Live && p.hibernate
          then WithVM(s, Frozen).(tag := Some(Snapshot(if labelled then p.image else "", s.guest))) else s
        case Thaw =>
          if p.vm == Frozen && !p.hibernate
          then WithVM(s, Live).(guest := if s.tag.Some? then s.tag.value.version else 0) else s
        case Report =>
          if p.vm == Live then Write(s, Some(p.(state := Ready, observed := p.stamp)))
          else if p.vm == Frozen && p.hibernate then Write(s, Some(p.(state := Hibernated, observed := p.stamp)))
          else s
        case Fail => Write(s, Some(p.(state := Failed, observed := p.stamp))).(claim := None, excused := true)
        case Terminate =>
          Write(s, Some(p.(terminal := true, vm := Booting))).(claim := None, excused := true)
        case Vanish => s
      }
  }

  /** The writes of the operator to one slot, as the API server and the registry apply them. */
  datatype SlotWrite =
    | Stamp                       // generation annotation
    | Quiesce                     // hibernate annotation set
    | Wake                        // hibernate annotation cleared
    | Keep                        // keep-snapshot-on-delete flag
    | Delete
    | DeleteUnbound               // delete of a main that waits for a node it is no longer pinned to
    | Create(pin: string, restore: bool, fork: bool)   // fork: a sub-agent, booted from a copy of the main
    | Retire                      // delete of a pod that failed or drifted, to be created anew
    | DropTag
    | DropTagForImage             // the tag was pushed from another image and is discarded by design
    | GiveUp                      // ghost step: the pass has lost track of a released main

  function NewPod(cs: CocoonSet, pin: string, restore: bool): Pod {
    Pod("", pin, cs.image, cs.shape, false, false, false, restore, cs.generation, Booting, Unreported, 0)
  }

  /** A write of the operator to the pod. */
  function Own(s: Slot, p: Option<Pod>): Slot {
    Write(s, p).(own := |s.past| + 1)
  }

  function Deleted(s: Slot): Slot {
    if Present(s) then Own(s, Some(s.server.value.(terminating := true))) else s
  }

  /** True when the API server accepts the write: a patch needs the pod, a create needs the name. */
  predicate Accepts(e: SlotWrite, s: Slot) {
    match e
    case Stamp | Quiesce | Wake | Keep => s.server.Some?
    case Create(_, _, _) => s.server.None?
    case _ => true
  }

  /** The writes that can destroy guest state the user is owed. */
  predicate Forfeits(e: SlotWrite, s: Slot) {
    match e
    case DropTag => !LiveNow(s)
    case DropTagForImage => !LiveNow(s)
    case DeleteUnbound => LiveNow(s)
    case Retire => Present(s)
    case GiveUp => Gone(s)
    case _ => false
  }

  function Apply(cs: CocoonSet, e: SlotWrite, s: Slot): Slot
    requires Accepts(e, s)
  {
    var t := if Forfeits(e, s) then s.(claim := None) else s;
    match e
    case Stamp => Own(t, Some(t.server.value.(stamp := cs.generation)))
    case Quiesce => Own(t, Some(t.server.value.(hibernate := true))).(quiesced := cs.generation)
    case Wake => Own(t, Some(t.server.value.(hibernate := false)))
    case Keep => t
    case Delete => Deleted(t)
    case DeleteUnbound => Deleted(t)
    case Create(pin, restore, _) => Own(t, Some(NewPod(cs, pin, restore))).(excused := false)
    case Retire => Deleted(t).(excused := t.excused || Present(t))
    case DropTag => t.(tag := None)
    case DropTagForImage => t.(tag := None)
    case GiveUp => t
  }

  predicate IsFailed(p: Pod) {
    p.terminal || p.state == Failed
  }

  /** The pod was not built from the spec as it is now. */
  predicate Drifts(cs: CocoonSet, p: Pod) {
    p.image != cs.image || p.shape != cs.shape
  }

  /** vk-cocoon refuses a pod over a tag recorded from another image. */
  predicate ImageConflict(tag: Option<Snapshot>, image: string) {
    tag.Some? && tag.value.image != "" && tag.value.image != image
  }

  /** A pod not yet scheduled waits under a hostname affinity the spec no longer names. */
  predicate PinnedElsewhere(p: Pod, nodeName: string) {
    p.node == "" && p.pin != "" && p.pin != nodeName
  }

  /** What a pass has written, in order. */
  datatype Effect =
    | SetStatus(phase: Phase) | SetHint(node: string) | SetStash(names: set<string>) | SetRecord(record: Reclaim)
    | SetSince(since: Option<int>)
    | OnSlot(name: string, write: SlotWrite)

  /** Why guest state was given up. */
  datatype Hazard =
    | ImageReplaced(pushed: string)   // the tag was pushed from another image
    | Drifted(name: string)           // the pod no longer matches the spec and was deleted to be built anew
    | RepinRace            // a main booted after the list that showed it waiting for a dropped pin
    | QuiescedWake         // a wake dropped the tag although its main was asked to hibernate
    | UnconfirmedHandBack  // a released main was handed back on a stale view

  /** One write that landed on a slot: the set it was made for, the slot it found, and what it would
      count as if it cost guest state. */
  datatype Deed = Deed(name: string, write: SlotWrite, cs: CocoonSet, slot: Slot, cause: Hazard)

  /** A registry call about a VM that was refused, when the log had `at` entries. */
  datatype Refusal = Refusal(name: string, at: nat)

  datatype World = World(pinning: bool, crs: set<string>, cs: CocoonSet, slots: map<string, Slot>)
}
