/** Deleting a CocoonSet: every VM name it may owe a tag delete is stashed before the first pod goes,
    and the finalizer is removed only when no `:hibernate` tag of the set is left. */
module Teardown {
  import opened World
  import opened Reclaims
  import opened Invariant
  import opened Fleet

  // ---- the delete-vm-names annotation ----

  predicate Space(c: char) {
    c == ' ' || c == '\t' || c == '\n' || c == '\r'
  }

  function Join(names: seq<string>): string
    decreases |names|
  {
    if names == [] then "" else if |names| == 1 then names[0] else names[0] + "," + Join(names[1..])
  }

  function Comma(raw: string): (i: nat)
    ensures i <= |raw| && (i < |raw| ==> raw[i] == ',') && forall j | 0 <= j < i :: raw[j] != ','
  {
    if raw == "" || raw[0] == ',' then 0 else 1 + Comma(raw[1..])
  }

  function Split(raw: string): seq<string>
    decreases |raw|
  {
    var i := Comma(raw);
    if i == |raw| then [raw] else [raw[..i]] + Split(raw[i + 1..])
  }

  function Trim(s: string): string
    decreases |s|
  {
    if s == "" then s
    else if Space(s[0]) then Trim(s[1..])
    else if Space(s[|s| - 1]) then Trim(s[..|s| - 1])
    else s
  }

  function NonEmpty(parts: seq<string>): seq<string>
    decreases |parts|
  {
    if parts == [] then []
    else (if Trim(parts[0]) == "" then [] else [Trim(parts[0])]) + NonEmpty(parts[1..])
  }

  /** parseVMNamesAnnotation. */
  function ParseNames(raw: string): seq<string> {
    NonEmpty(Split(raw))
  }

  /** A VM name: not empty, no comma, no space around it. */
  predicate Clean(n: string) {
    n != "" && ',' !in n && !Space(n[0]) && !Space(n[|n| - 1])
  }

  lemma {:induction false} SplitJoin(names: seq<string>)
    requires names != [] && forall i | 0 <= i < |names| :: Clean(names[i])
    ensures Split(Join(names)) == names
    decreases |names|
  {
    var raw := Join(names);
    if |names| == 1 {
      NoComma(raw);
    } else {
      assert raw == names[0] + "," + Join(names[1..]);
      CommaAfter(names[0], Join(names[1..]));
      assert raw[..|names[0]|] == names[0] && raw[|names[0]| + 1..] == Join(names[1..]);
      SplitJoin(names[1..]);
    }
  }

  lemma NoComma(n: string)
    requires ',' !in n
    ensures Comma(n) == |n|
  {
    assert forall j | 0 <= j < |n| :: n[j] in n;
  }

  lemma CommaAfter(n: string, rest: string)
    requires ',' !in n
    ensures Comma(n + "," + rest) == |n|
  {
    var raw := n + "," + rest;
    assert raw[|n|] == ',';
    assert forall j | 0 <= j < |n| :: raw[j] == n[j] && n[j] in n;
  }

  lemma {:induction false} CleanSurvives(names: seq<string>)
    requires forall i | 0 <= i < |names| :: Clean(names[i])
    ensures NonEmpty(names) == names
    decreases |names|
  {
    if names != [] {
      assert Clean(names[0]);
      CleanSurvives(names[1..]);
    }
  }

  /** Writing the names and reading them back loses none and adds none. */
  lemma NamesRoundTrip(names: seq<string>)
    requires forall i | 0 <= i < |names| :: Clean(names[i])
    ensures ParseNames(Join(names)) == names
  {
    if names == [] {
      assert Split("") == [""] && NonEmpty([""]) == NonEmpty([""][1..]);
    } else {
      SplitJoin(names);
      CleanSurvives(names);
    }
  }

  // ---- the delete pass ----

  datatype SnapshotPolicy = Always | MainOnly | Never

  /** shouldKeepLatestTag; `mains` are the VM names of slot 0. */
  predicate KeepsLatest(policy: SnapshotPolicy, mains: set<string>, vm: string) {
    match policy
    case Never => false
    case MainOnly => vm in mains
    case Always => true
  }

  /** Of an owned pod: nobody deletes it; it was deleted to keep its snapshot; or it was deleted to be
      built anew, and pushes none. */
  datatype Fate = Standing | Leaving | Discarded

  /** Every VM with a tag is known: to the record, the status, the stash, or as a pod nobody deletes;
      and a pod is deleted for its snapshot only when its VM is known without it. */
  ghost predicate Accounted(known: set<string>, pods: map<string, Fate>, tags: set<string>) {
    && (forall n | n in tags :: n in known || (n in pods && pods[n] == Standing))
    && (forall n | n in pods && pods[n] == Leaving :: n in known)
  }

  class Deletion {
    const policy: SnapshotPolicy
    const mains: set<string>
    const recorded: set<string>     // the VMs of the hibernate-reclaim record
    const status: set<string>       // the VM names of the status
    var stash: string               // delete-vm-names annotation
    var pods: map<string, Fate>     // VM name of each owned pod
    var tags: set<string>           // VMs with a `:hibernate` tag
    var latest: set<string>         // VMs with a `:latest` tag
    var finalizer: bool

    ghost function Known(): set<string>
      reads this
    {
      recorded + status + Elements(ParseNames(stash))
    }

    ghost predicate Valid()
      reads this
    {
      && Accounted(Known(), pods, tags)
      && (forall n | n in Known() || n in pods :: Clean(n))
      && (!finalizer ==> pods.Keys == {} && tags == {})
    }

    /** vk-cocoon: a terminating pod may still push its snapshot before it vanishes, and any pod that
        was asked to hibernate may push one. */
    method Outside(n: string, pushes: bool)
      requires Valid() && n in pods
      modifies this`pods, this`tags
      ensures Valid()
    {
      if pushes && pods[n] != Discarded {
        tags := tags + {n};
      } else if pods[n] != Standing {
        pods := pods - {n};
      }
    }

    /** stashDeleteVMNames; the write may be refused, or land unacknowledged. */
    method StashNames() returns (ok: bool)
      requires Valid() && finalizer
      modifies this`stash
      ensures Valid()
      ensures ok ==> Elements(ParseNames(stash)) == old(Known()) + pods.Keys
      ensures old(Known()) <= Known()
    {
      var have := recorded + status + Elements(ParseNames(stash)) + pods.Keys;
      var names := InSomeOrder(have);
      forall i | 0 <= i < |names|
        ensures Clean(names[i])
      {
        assert names[i] in Elements(names);
      }
      NamesRoundTrip(names);
      if have == {} {
        assert Elements(ParseNames(stash)) == {};
        return true;
      }
      if * {
        return false;
      }
      stash := Join(names);
      ok := *;
    }

    method DeletePods() returns (ok: bool)
      requires Valid() && finalizer && pods.Keys <= Known()
      modifies this`pods
      ensures Valid() && pods.Keys == old(pods).Keys
      ensures ok ==> forall n | n in pods :: pods[n] != Standing
    {
      var names := InSomeOrder(pods.Keys);
      ghost var keys := pods.Keys;
      for i := 0 to |names|
        invariant pods.Keys == keys && Accounted(Known(), pods, tags)
        invariant forall j | 0 <= j < i :: names[j] in pods && pods[names[j]] != Standing
      {
        assert names[i] in Elements(names);
        if * {
          return false;
        }
        if pods[names[i]] == Standing {
          pods := pods[names[i] := Leaving];
        }
      }
      forall n | n in pods
        ensures pods[n] != Standing
      {
        assert n in Elements(names);
      }
      ok := true;
    }

    /** The registry half: every stashed name loses its `:hibernate` tag; `:latest` goes best-effort
        where the snapshot policy does not keep it. */
    method DropTags() returns (ok: bool)
      requires Valid() && finalizer && pods.Keys == {}
      modifies this`tags, this`latest
      ensures Valid()
      ensures ok ==> forall n | n in ParseNames(stash) :: n !in tags
      ensures forall n | n in old(latest) && n !in latest :: n in ParseNames(stash) && !KeepsLatest(policy, mains, n)
      ensures latest <= old(latest) && tags <= old(tags)
    {
      var names := ParseNames(stash);
      for i := 0 to |names|
        invariant tags <= old(tags) && latest <= old(latest) && forall j | 0 <= j < i :: names[j] !in tags
        invariant forall n | n in old(latest) && n !in latest :: n in names && !KeepsLatest(policy, mains, n)
      {
        if * {
          return false;
        }
        tags := tags - {names[i]};
        var answers: bool := *;
        if !KeepsLatest(policy, mains, names[i]) && answers {
          latest := latest - {names[i]};
        }
      }
      ok := true;
    }

    /** reconcileDelete: while a pod is left, only stash and delete; then the tags; then the finalizer. */
    method ReconcileDelete() returns (ok: bool)
      requires Valid() && finalizer
      modifies this`stash, this`pods, this`tags, this`latest, this`finalizer
      ensures Valid()
      ensures !finalizer ==> tags == {} && pods.Keys == {} && old(pods).Keys == {}
      ensures old(pods).Keys != {} ==> tags == old(tags) && latest == old(latest) && finalizer
      ensures ok ==> finalizer == (old(pods).Keys != {}) && forall n | n in pods :: pods[n] != Standing
      ensures forall n | n in old(latest) && n !in latest :: !KeepsLatest(policy, mains, n)
    {
      ok := StashNames();
      if !ok {
        return;
      }
      if pods.Keys != {} {
        ok := DeletePods();
        return;
      }
      ok := DropTags();
      if !ok {
        return;
      }
      NothingOwed();
      if * {
        return false;
      }
      finalizer := false;
      ok := *;
    }

    lemma NothingOwed()
      requires Valid() && pods.Keys == {}
      requires forall n | n in ParseNames(stash) :: n !in tags
      requires recorded + status <= Elements(ParseNames(stash))
      ensures tags == {}
    {
      assert tags <= Known() == Elements(ParseNames(stash));
      assert tags * Elements(ParseNames(stash)) == {};
    }
  }

  method InSomeOrder(keys: set<string>) returns (names: seq<string>)
    ensures Elements(names) == keys
  {
    names := [];
    var todo := keys;
    while todo != {}
      invariant todo <= keys && Elements(names) == keys - todo
    {
      var n :| n in todo;
      assert Elements(names + [n]) == Elements(names) + {n};
      names, todo := names + [n], todo - {n};
    }
  }

  /** What a pod of a run is to a deletion that finds it. */
  function FateOf(cs: CocoonSet, n: string, s: Slot): Fate
    requires s.server.Some?
  {
    if !s.server.value.terminating then Standing else if s.excused && n !in cs.stash then Discarded else Leaving
  }

  /** The state a deletion starts from: what a run of passes leaves behind, outside the
      CocoonHibernations, accounts for every tag, and for every pod a release has deleted. A migration
      keeps the tag of its main off the record, so there the status has to name the main. */
  lemma RunsAreAccounted(w: World, known: set<string>, pods: map<string, Fate>)
    requires Inv(w) && Elements(w.cs.record.vms) + w.cs.stash <= known && (w.pinning ==> MAIN in known)
    requires forall n :: n in pods <==> n in w.slots && n !in w.crs && w.slots[n].server.Some?
    requires forall n | n in pods :: pods[n] == FateOf(w.cs, n, w.slots[n])
    ensures Accounted(known, pods, set n | n in w.slots && n !in w.crs && w.slots[n].tag.Some?)
  {
    forall n | n in w.slots && n !in w.crs
      ensures w.slots[n].tag.Some? ==> n in known || (n in pods && pods[n] == Standing)
      ensures n in pods && pods[n] == Leaving ==> n in known
    {
      InvAt(w, n);
    }
  }
}
