/** The decision of the cross-node migration: which arm a pass takes, and what the arm writes. */
module Migration {
  import opened World
  import opened Invariant

  datatype Arm =
    | HandBack          // not handled: the normal flow owns the pass
    | RecreateUnbound   // delete a main that waits for a node it is no longer pinned to
    | Start | DropStale | DeleteOld | Recreate | WakeInPlace | Await | DropRestored

  predicate MainOffTarget(cs: CocoonSet, main: Option<Pod>) {
    main.Some? && cs.nodeName != "" && main.value.node != "" && main.value.node != cs.nodeName
  }

  /** A main that is not quiesced and sits on its target, or is still unscheduled, skips the probe. */
  predicate FastPath(cs: CocoonSet, main: Option<Pod>) {
    && cs.phase != Migrating && main.Some? && !main.value.hibernate
    && (main.value.node == "" || main.value.node == cs.nodeName)
  }

  /** No migration is under way, and the main waits for no pin the spec dropped. */
  predicate Settles(cs: CocoonSet, main: Option<Pod>) {
    && (main.Some? ==> !PinnedElsewhere(main.value, cs.nodeName))
    && ((cs.nodeName == "" && cs.phase != Migrating) || FastPath(cs, main))
  }

  /** `owned`: a CocoonHibernation hibernates the main; `snap`: the tag exists; `tracked`: a
      CocoonHibernation that has not settled Active targets the main. */
  function ArmOf(cs: CocoonSet, main: Option<Pod>, owned: bool, snap: bool, tracked: bool): Arm {
    if main.Some? && PinnedElsewhere(main.value, cs.nodeName) then RecreateUnbound
    else if cs.nodeName == "" && cs.phase != Migrating then HandBack
    else if FastPath(cs, main) then HandBack
    else if main.Some? && main.value.hibernate && owned then HandBack
    else if !snap then (if MainOffTarget(cs, main) then Start else HandBack)
    else if MainOffTarget(cs, main) then
      if main.value.hibernate then DeleteOld
      else if main.value.vm != Live || tracked then HandBack
      else DropStale
    else if main.None? then Recreate
    else if main.value.hibernate && (cs.nodeName == "" || main.value.node == cs.nodeName) then
      if cs.phase == Migrating then WakeInPlace else HandBack
    else if main.value.vm != Live then
      if cs.phase == Migrating then Await else HandBack
    else DropRestored
  }

  /** The writes of an arm that meets no error, no image conflict and no terminating predecessor. */
  function ArmWrites(cs: CocoonSet, main: Option<Pod>, arm: Arm): seq<Effect> {
    match arm
    case HandBack => []
    case RecreateUnbound => [OnSlot(MAIN, DeleteUnbound)]
    case Start =>
      [SetStatus(Migrating)] + if main.Some? && main.value.hibernate then [] else [OnSlot(MAIN, Quiesce)]
    case DropStale => [OnSlot(MAIN, DropTag), SetStatus(Migrating)]
    case DeleteOld => [OnSlot(MAIN, Keep), OnSlot(MAIN, Delete), SetStatus(Migrating)]
    case Recreate => [OnSlot(MAIN, Create(cs.nodeName, true, false)), SetStatus(Migrating)]
    case WakeInPlace => [OnSlot(MAIN, Wake), SetStatus(Migrating)]
    case Await => [SetStatus(Migrating)]
    case DropRestored => [OnSlot(MAIN, DropTag), SetStatus(Migrating)]
  }
}
