/** What one pass of the ordinary flow leaves behind, and why a settled set is left alone. */
module Convergence {
  import opened World
  import opened Reclaims
  import opened Rebuilds
  import opened Statuses

  // ---- the members of a set ----

  /** The decision triage takes on a name, read off the state a pass starts from. */
  function Verdict0(l: Ledger, n: string): Rebuilds.Decision
    requires n in l.pods
  {
    Decide(l.generation, l.history, n, l.pods[n], l.now)
  }

  /** Nothing this pass has done so far bears on the name. */
  ghost predicate Untouched(a: Ledger, b: Ledger, n: string) {
    && a.generation == b.generation && a.now == b.now && a.desired == b.desired
    && SamePod(a.pods, b.pods, n) && Current(a.history, n, a.generation) == Current(b.history, n, a.generation)
  }

  lemma UntouchedDecides(a: Ledger, b: Ledger, n: string)
    requires Untouched(a, b, n) && n in a.pods
    ensures n in b.pods && Verdict0(b, n) == Verdict0(a, n)
  {}

  lemma RecordedElsewhere(l: Ledger, name: string, d: Rebuilds.Decision, n: string)
    requires n in l.desired && n != name
    ensures Current(Recorded(true, l.generation, l.desired, l.history, name, d, l.now), n, l.generation)
         == Current(l.history, n, l.generation)
  {}

  /** The shortest wait among the decisions on `names`, 0 when none waits. */
  ghost predicate ShortestWait(l: Ledger, names: seq<string>, requeue: int) {
    && requeue >= 0
    && (forall i | 0 <= i < |names| && names[i] in l.pods && Verdict0(l, names[i]).Wait? ::
          0 < requeue <= Verdict0(l, names[i]).remaining)
    && (requeue > 0 ==>
          exists i | 0 <= i < |names| && names[i] in l.pods :: Verdict0(l, names[i]) == Rebuilds.Wait(requeue))
  }

  function Shorter(requeue: int, wait: int): int {
    if wait > 0 && (requeue == 0 || wait < requeue) then wait else requeue
  }

  lemma WaitOf(l: Ledger, n: string)
    requires n in l.pods && Verdict0(l, n).Wait?
    ensures Verdict0(l, n).remaining > 0
  {}

  lemma OneMoreWait(l: Ledger, names: seq<string>, requeue: int, n: string)
    requires ShortestWait(l, names, requeue)
    ensures ShortestWait(l, names + [n],
              if n in l.pods && Verdict0(l, n).Wait? then Shorter(requeue, Verdict0(l, n).remaining) else requeue)
  {
    var all := names + [n];
    var next := if n in l.pods && Verdict0(l, n).Wait? then Shorter(requeue, Verdict0(l, n).remaining) else requeue;
    if n in l.pods && Verdict0(l, n).Wait? {
      WaitOf(l, n);
    }
    if next > 0 {
      if next == requeue {
        var i :| 0 <= i < |names| && names[i] in l.pods && Verdict0(l, names[i]) == Rebuilds.Wait(requeue);
        assert all[i] in l.pods && Verdict0(l, all[i]) == Rebuilds.Wait(next);
      } else {
        assert all[|names|] in l.pods && Verdict0(l, all[|names|]) == Rebuilds.Wait(next);
      }
    }
  }

  lemma NoWaits(l: Ledger)
    ensures ShortestWait(l, [], 0)
  {}

  lemma CombinedWait(l: Ledger, a: seq<string>, b: seq<string>, sub: int, tb: int)
    requires ShortestWait(l, a, sub) && ShortestWait(l, b, tb)
    ensures ShortestWait(l, a + b, if sub == 0 || (tb > 0 && tb < sub) then tb else sub)
  {
    var all := a + b;
    if sub > 0 {
      var i :| 0 <= i < |a| && a[i] in l.pods && Verdict0(l, a[i]) == Rebuilds.Wait(sub);
      assert all[i] == a[i];
    }
    if tb > 0 {
      var i :| 0 <= i < |b| && b[i] in l.pods && Verdict0(l, b[i]) == Rebuilds.Wait(tb);
      assert all[|a| + i] == b[i];
    }
    forall i | 0 <= i < |all| && all[i] in l.pods && Verdict0(l, all[i]).Wait?
      ensures 0 < (if sub == 0 || (tb > 0 && tb < sub) then tb else sub) <= Verdict0(l, all[i]).remaining
    {
      assert all[i] == if i < |a| then a[i] else b[i - |a|];
    }
  }

  /** The name has its pod, or a deleted one that has not vanished, was just triaged, or is parked. */
  ghost predicate Accounted(l: Ledger, triaged: set<string>, n: string) {
    n in l.pods || n in l.leaving || n in triaged || BudgetExhausted(l.generation, l.history, n)
  }

  /** Pods outside `names` are as they were, so are the entries that count for them, and what was
      parked still is. */
  ghost predicate Spares(a: Ledger, b: Ledger, names: set<string>) {
    && (forall n | n !in names :: SamePod(a.pods, b.pods, n))
    && (forall n | n !in names && n in a.desired ::
          Current(a.history, n, a.generation) == Current(b.history, n, b.generation))
    && a.generation == b.generation && a.now == b.now && a.desired == b.desired && a.leaving <= b.leaving
    && (forall n | BudgetExhausted(a.generation, a.history, n) :: BudgetExhausted(b.generation, b.history, n))
  }

  lemma SparesOn(a: Ledger, b: Ledger, c: Ledger, names: set<string>)
    requires Spares(a, b, names) && Spares(b, c, names)
    ensures Spares(a, c, names)
  {
    forall n | n !in names
      ensures SamePod(a.pods, c.pods, n)
    {
      assert SamePod(a.pods, b.pods, n) && SamePod(b.pods, c.pods, n);
    }
  }

  lemma WiderSpares(a: Ledger, b: Ledger, names: set<string>, wider: set<string>)
    requires Spares(a, b, names) && names <= wider
    ensures Spares(a, b, wider)
  {}

  lemma SparesNothing(a: Ledger, names: set<string>)
    ensures Spares(a, a, names)
  {}

  lemma SparesWhatItLeaves(a: Ledger, b: Ledger, n: string, names: set<string>)
    requires LeavesParked(a, b) && n in names && forall m | m != n :: SamePod(a.pods, b.pods, m)
    requires a.now == b.now && a.desired == b.desired && a.leaving <= b.leaving
    requires b.history == a.history
          || exists d :: b.history == Recorded(true, a.generation, a.desired, a.history, n, d, a.now)
    ensures Spares(a, b, names)
  {
    if b.history != a.history {
      var d :| b.history == Recorded(true, a.generation, a.desired, a.history, n, d, a.now);
      forall m | m != n && m in a.desired
        ensures Current(a.history, m, a.generation) == Current(b.history, m, a.generation)
      {
        RecordedElsewhere(a, n, d, m);
      }
    }
  }

  /** Triage deleted the pod it found. */
  ghost predicate Rebuilt(l: Ledger, n: string) {
    n in l.pods && (Verdict0(l, n).Rebuild? || Verdict0(l, n).Lift?)
  }

  /** Triage has nothing to do for the name: its pod is left or waits, or it is parked and absent. */
  ghost predicate AtRest(l: Ledger, n: string) {
    if n in l.pods then Verdict0(l, n).Leave? || Verdict0(l, n).Wait? else BudgetExhausted(l.generation, l.history, n)
  }

  ghost predicate AllAtRest(l: Ledger, names: seq<string>) {
    forall i | 0 <= i < |names| :: AtRest(l, names[i])
  }

  /** What a pass has made of the names it has been through; the others are as they were. */
  ghost predicate Worked(l0: Ledger, l: Ledger, wanted: seq<string>, i: nat, missing: seq<string>, triaged: set<string>)
    requires i <= |wanted|
  {
    && (forall j | i <= j < |wanted| :: Untouched(l0, l, wanted[j]))
    && (forall j | 0 <= j < i :: Accounted(l, triaged, wanted[j]) || wanted[j] in missing)
    && (forall n | n in triaged :: n in wanted && Rebuilt(l0, n))
    && (AllAtRest(l0, wanted[..i]) ==> l == l0 && triaged == {})
    && l.generation == l0.generation && l.desired == l0.desired && l.now == l0.now
  }

  lemma WorkBegins(l: Ledger, wanted: seq<string>)
    ensures Worked(l, l, wanted, 0, [], {})
  {}

  /** A triage of one name leaves the others as they were. */
  lemma TriageStep(l0: Ledger, l: Ledger, l': Ledger, wanted: seq<string>, i: nat, missing: seq<string>, triaged: set<string>)
    requires i < |wanted| && NoDup(wanted) && Worked(l0, l, wanted, i, missing, triaged)
    requires forall n | n in wanted :: n in l.desired
    requires wanted[i] in l.pods && l'.generation == l.generation && l'.desired == l.desired && l'.now == l.now
    requires forall n | n != wanted[i] :: SamePod(l.pods, l'.pods, n)
    requires LeavesParked(l, l') && l.leaving <= l'.leaving
    requires
      var d := Verdict0(l, wanted[i]);
      && l'.history in {l.history, Recorded(true, l.generation, l.desired, l.history, wanted[i], d, l.now)}
      && (d.Leave? || d.Wait? ==> l' == l)
      && (d.Park? ==> wanted[i] in l'.pods)
    ensures
      var d := Verdict0(l, wanted[i]);
      Worked(l0, l', wanted, i + 1, missing, if d.Rebuild? || d.Lift? then triaged + {wanted[i]} else triaged)
  {
    var d := Verdict0(l, wanted[i]);
    assert Untouched(l0, l, wanted[i]);
    UntouchedDecides(l, l0, wanted[i]);
    forall j | i + 1 <= j < |wanted|
      ensures Untouched(l0, l', wanted[j])
    {
      assert Untouched(l0, l, wanted[j]) && wanted[j] != wanted[i];
      assert SamePod(l.pods, l'.pods, wanted[j]);
      RecordedElsewhere(l, wanted[i], d, wanted[j]);
    }
    forall j | 0 <= j < i
      ensures Accounted(l', triaged, wanted[j]) || wanted[j] in missing
    {
      assert Accounted(l, triaged, wanted[j]) || wanted[j] in missing;
      assert SamePod(l.pods, l'.pods, wanted[j]);
    }
    if AllAtRest(l0, wanted[..i + 1]) {
      assert AtRest(l0, wanted[..i + 1][i]);
      forall j | 0 <= j < i
        ensures AtRest(l0, wanted[..i][j])
      {
        assert wanted[..i + 1][j] == wanted[..i][j];
      }
    }
  }

  /** A name that has no pod: the others stay as they were, and this one is created, missing or parked. */
  lemma AbsentStep(l0: Ledger, l: Ledger, l': Ledger, wanted: seq<string>, i: nat, missing: seq<string>, missing': seq<string>, triaged: set<string>)
    requires i < |wanted| && NoDup(wanted) && Worked(l0, l, wanted, i, missing, triaged)
    requires wanted[i] !in l.pods && l' == l.(pods := l'.pods)
    requires forall n | n != wanted[i] :: SamePod(l.pods, l'.pods, n)
    requires Accounted(l', triaged, wanted[i]) || wanted[i] in missing'
    requires forall n | n in missing :: n in missing'
    requires BudgetExhausted(l.generation, l.history, wanted[i]) ==> l' == l
    ensures Worked(l0, l', wanted, i + 1, missing', triaged)
  {
    assert Untouched(l0, l, wanted[i]);
    forall j | i + 1 <= j < |wanted|
      ensures Untouched(l0, l', wanted[j])
    {
      assert Untouched(l0, l, wanted[j]) && wanted[j] != wanted[i];
      assert SamePod(l.pods, l'.pods, wanted[j]);
    }
    forall j | 0 <= j < i
      ensures Accounted(l', triaged, wanted[j]) || wanted[j] in missing'
    {
      assert Accounted(l, triaged, wanted[j]) || wanted[j] in missing;
      assert wanted[j] != wanted[i] ==> SamePod(l.pods, l'.pods, wanted[j]);
    }
    if AllAtRest(l0, wanted[..i + 1]) {
      assert AtRest(l0, wanted[..i + 1][i]);
      forall j | 0 <= j < i
        ensures AtRest(l0, wanted[..i][j])
      {
        assert wanted[..i + 1][j] == wanted[..i][j];
      }
      RestingIsParked(l0, l, wanted[i]);
    }
  }

  lemma RestingIsParked(l0: Ledger, l: Ledger, n: string)
    requires Untouched(l0, l, n) && n !in l.pods && AtRest(l0, n)
    ensures BudgetExhausted(l.generation, l.history, n)
  {
    assert Current(l0.history, n, l0.generation).parked;
  }

  /** The triage of one pod, and the wait it may ask for. */
  method TriageOne(b: Budget, ghost l0: Ledger, wanted: seq<string>, i: nat, missing: seq<string>, triaged: set<string>, requeue: int)
    returns (ok: bool, triaged': set<string>, requeue': int)
    requires b.Valid() && NoDup(wanted) && i < |wanted| && wanted[i] in b.pods
    requires forall n | n in wanted :: n in b.desired
    requires Worked(l0, b.L(), wanted, i, missing, triaged) && ShortestWait(l0, wanted[..i], requeue)
    modifies b`history, b`pods, b`leaving, b`last, b`log, b`attempts
    ensures b.Valid()
    ensures ok ==> Worked(l0, b.L(), wanted, i + 1, missing, triaged') && ShortestWait(l0, wanted[..i + 1], requeue')
    ensures triaged <= triaged' && (!ok ==> !AtRest(l0, wanted[i]))
    ensures Spares(old(b.L()), b.L(), Elements(wanted))
  {
    hide Balanced, Worked, ShortestWait, Recorded, Spares, LeavesParked;
    var n := wanted[i];
    ghost var l := b.L();
    WorkedUntouched(l0, l, wanted, i, missing, triaged);
    UntouchedDecides(l, l0, n);
    var d, done := b.TriagePod(n);
    SparesWhatItLeaves(l, b.L(), n, Elements(wanted));
    triaged', requeue' := triaged, requeue;
    ok := done;
    if !done {
      return;
    }
    if d.Rebuild? || d.Lift? {
      triaged' := triaged + {n};
    }
    if d.Wait? {
      requeue' := Shorter(requeue, d.remaining);
    }
    TriageStep(l0, l, b.L(), wanted, i, missing, triaged);
    OneMoreWait(l0, wanted[..i], requeue, n);
    assert wanted[..i + 1] == wanted[..i] + [n];
  }

  lemma WorkedUntouched(l0: Ledger, l: Ledger, wanted: seq<string>, i: nat, missing: seq<string>, triaged: set<string>)
    requires i < |wanted| && Worked(l0, l, wanted, i, missing, triaged)
    ensures Untouched(l0, l, wanted[i]) && Untouched(l, l0, wanted[i])
  {}

  // ---- the two groups of a pass ----

  /** What an error-free pass owes a group of names: each has its pod, was just triaged, or is parked;
      and nothing else of the group is left. */
  ghost predicate GroupDone(l: Ledger, wanted: seq<string>, extras: seq<string>, triaged: set<string>) {
    && (forall n | n in wanted :: Accounted(l, triaged, n))
    && (forall n | n in extras :: n !in l.pods)
  }

  lemma WorkEnds(l0: Ledger, l: Ledger, wanted: seq<string>, missing: seq<string>, triaged: set<string>)
    requires Worked(l0, l, wanted, |wanted|, missing, triaged)
    ensures forall n | n in wanted :: Accounted(l, triaged, n) || n in missing
    ensures AllAtRest(l0, wanted) ==> l == l0 && triaged == {}
    ensures forall n | n in triaged :: n in wanted && Rebuilt(l0, n)
  {
    assert wanted[..|wanted|] == wanted;
  }

  lemma OneExtraLess(a: Ledger, b: Ledger, extra: string, wanted: seq<string>, triaged: set<string>, names: set<string>)
    requires extra in names && extra !in wanted && a.leaving <= b.leaving
    requires b == a.(pods := b.pods, leaving := b.leaving) && forall n | n != extra :: SamePod(a.pods, b.pods, n)
    requires forall n | n in wanted :: Accounted(a, triaged, n)
    ensures Spares(a, b, names) && forall n | n in wanted :: Accounted(b, triaged, n)
  {
    forall n | n in wanted
      ensures Accounted(b, triaged, n)
    {
      assert Accounted(a, triaged, n) && SamePod(a.pods, b.pods, n);
    }
  }

  /** The loop over the pods the spec no longer names; `deleted` tells whether it deleted any. */
  method DeleteExtras(b: Budget, extras: seq<string>, wanted: seq<string>, triaged: set<string>) returns (ok: bool, deleted: bool)
    requires b.Valid() && forall n | n in extras :: n !in b.desired
    requires forall n | n in wanted :: n in b.desired && Accounted(b.L(), triaged, n)
    modifies b`pods, b`leaving
    ensures b.Valid() && (extras == [] ==> ok)
    ensures ok ==> GroupDone(b.L(), wanted, extras, triaged)
    ensures ok ==> (deleted <==> exists n :: n in extras && n in old(b.pods))
    ensures ok && !deleted ==> b.L() == old(b.L())
    ensures Spares(old(b.L()), b.L(), Elements(extras))
  {
    hide Balanced, Spares, BudgetExhausted;
    ghost var l0 := b.L();
    SparesNothing(l0, Elements(extras));
    deleted := false;
    for i := 0 to |extras|
      invariant Spares(old(b.L()), b.L(), Elements(extras))
      invariant b.Valid() && b.pods.Keys <= old(b.pods.Keys) <= b.pods.Keys + Elements(extras[..i])
      invariant deleted || b.L() == old(b.L())
      invariant deleted <==> exists j :: 0 <= j < i && extras[j] in old(b.pods)
      invariant forall n | n in wanted :: n in b.desired && Accounted(b.L(), triaged, n)
      invariant forall j | 0 <= j < i :: extras[j] !in b.pods
    {
      assert extras[i] in extras;
      ghost var l := b.L();
      var gone;
      ok, gone := b.DeleteExtra(extras[i]);
      OneExtraLess(l, b.L(), extras[i], wanted, triaged, Elements(extras));
      SparesOn(l0, l, b.L(), Elements(extras));
      if !ok {
        return;
      }
      deleted := deleted || gone;
    }
    ok := true;
  }

  /** The loops of ensureToolboxes over valid names: triage or create in spec order, then the extras. */
  method EnsureNamedToolboxes(b: Budget, wanted: seq<string>, extras: seq<string>, foreign: set<string>)
    returns (ok: bool, changed: bool, requeue: int, triaged: set<string>)
    requires b.Valid() && NoDup(wanted)
    requires (forall n | n in wanted :: n in b.desired) && (forall n | n in extras :: n !in b.desired)
    modifies b`history, b`pods, b`leaving, b`last, b`log, b`attempts
    ensures b.Valid()
    ensures ok ==> GroupDone(b.L(), wanted, extras, triaged) && ShortestWait(old(b.L()), wanted, requeue)
    ensures ok ==> forall n | n in triaged :: n in wanted && Rebuilt(old(b.L()), n)
    ensures AllAtRest(old(b.L()), wanted) && extras == [] && Unclaimed(old(b.pods), wanted, foreign) ==>
      ok && !changed && b.L() == old(b.L())
    ensures ok ==> Unclaimed(old(b.pods), wanted, foreign)
    ensures Spares(old(b.L()), b.L(), Elements(wanted) + Elements(extras))
  {
    hide Balanced, Worked, ShortestWait, GroupDone, Spares;
    ghost var l0 := b.L();
    SparesNothing(l0, Elements(wanted));
    WiderSpares(l0, l0, Elements(wanted), Elements(wanted) + Elements(extras));
    changed, requeue, triaged := false, 0, {};
    WorkBegins(l0, wanted);
    NoWaits(l0);
    assert wanted[..0] == [];
    for i := 0 to |wanted|
      invariant b.Valid() && b.desired == old(b.desired)
      invariant Worked(l0, b.L(), wanted, i, [], triaged) && ShortestWait(l0, wanted[..i], requeue)
      invariant Spares(l0, b.L(), Elements(wanted))
      invariant changed ==> triaged != {} || !AllAtRest(l0, wanted)
      invariant Unclaimed(old(b.pods), wanted[..i], foreign)
    {
      var n := wanted[i];
      assert n in wanted && (AllAtRest(l0, wanted) ==> AtRest(l0, n));
      ghost var l := b.L();
      WorkedUntouched(l0, l, wanted, i, [], triaged);
      assert wanted[..i + 1] == wanted[..i] + [n];
      if n in foreign && n !in b.pods {
        WiderSpares(l0, b.L(), Elements(wanted), Elements(wanted) + Elements(extras));
        return false, changed, requeue, triaged;
      }
      if n in b.pods {
        ok, triaged, requeue := TriageOne(b, l0, wanted, i, [], triaged, requeue);
        changed := changed || triaged != {};
      } else {
        ok, changed := CreateOne(b, l0, wanted, i, [], triaged, requeue, changed);
      }
      SparesOn(l0, l, b.L(), Elements(wanted));
      if !ok {
        WiderSpares(l0, b.L(), Elements(wanted), Elements(wanted) + Elements(extras));
        return;
      }
    }
    WorkEnds(l0, b.L(), wanted, [], triaged);
    assert wanted[..|wanted|] == wanted;
    ghost var l1 := b.L();
    var deleted;
    ok, deleted := DeleteExtras(b, extras, wanted, triaged);
    WiderSpares(l0, l1, Elements(wanted), Elements(wanted) + Elements(extras));
    WiderSpares(l1, b.L(), Elements(extras), Elements(wanted) + Elements(extras));
    SparesOn(l0, l1, b.L(), Elements(wanted) + Elements(extras));
    changed := changed || deleted;
  }

  /** No toolbox is named twice, and none as an agent slot is numbered. */
  ghost predicate ValidNames(wanted: seq<string>, numeric: set<string>) {
    NoDup(wanted) && forall n | n in wanted :: n !in numeric
  }

  /** No wanted name is borne by a listed pod that is not the set's own toolbox. */
  ghost predicate Unclaimed(pods: map<string, Member>, wanted: seq<string>, foreign: set<string>) {
    forall n | n in wanted && n in foreign :: n in pods
  }

  /** ensureToolboxes: a name given twice, or like an agent's, fails before anything is touched; a name
      borne by another pod fails where it is reached. */
  method EnsureToolboxes(b: Budget, wanted: seq<string>, extras: seq<string>, numeric: set<string>, foreign: set<string>)
    returns (ok: bool, changed: bool, requeue: int, triaged: set<string>)
    requires b.Valid() && (forall n | n in wanted :: n in b.desired) && (forall n | n in extras :: n !in b.desired)
    modifies b`history, b`pods, b`leaving, b`last, b`log, b`attempts
    ensures b.Valid()
    ensures ok ==> GroupDone(b.L(), wanted, extras, triaged) && ShortestWait(old(b.L()), wanted, requeue)
    ensures ok ==> forall n | n in triaged :: n in wanted && Rebuilt(old(b.L()), n)
    ensures ok ==> ValidNames(wanted, numeric) && Unclaimed(old(b.pods), wanted, foreign)
    ensures !ValidNames(wanted, numeric) ==> !ok && b.L() == old(b.L())
    ensures AllAtRest(old(b.L()), wanted) && extras == [] && ValidNames(wanted, numeric) && Unclaimed(old(b.pods), wanted, foreign) ==>
      ok && !changed && b.L() == old(b.L())
    ensures Spares(old(b.L()), b.L(), Elements(wanted) + Elements(extras))
  {
    hide Balanced, ShortestWait, GroupDone, Spares, AllAtRest;
    changed, requeue, triaged := false, 0, {};
    SparesNothing(b.L(), Elements(wanted) + Elements(extras));
    var named: set<string> := {};
    for i := 0 to |wanted|
      invariant ValidNames(wanted[..i], numeric) && forall n :: n in named <==> n in wanted[..i]
      invariant b.L() == old(b.L()) && !changed
    {
      assert wanted[..i + 1] == wanted[..i] + [wanted[i]];
      if wanted[i] in named || wanted[i] in numeric {
        InvalidFrom(wanted, i, numeric);
        return false, changed, requeue, triaged;
      }
      named := named + {wanted[i]};
    }
    assert wanted[..|wanted|] == wanted;
    ok, changed, requeue, triaged := EnsureNamedToolboxes(b, wanted, extras, foreign);
  }

  lemma InvalidFrom(wanted: seq<string>, i: nat, numeric: set<string>)
    requires i < |wanted| && (wanted[i] in wanted[..i] || wanted[i] in numeric)
    ensures !ValidNames(wanted, numeric)
  {
    assert wanted[i] in wanted;
    if wanted[i] in wanted[..i] {
      var j :| 0 <= j < i && wanted[..i][j] == wanted[i];
      assert wanted[j] == wanted[i];
    }
  }

  /** The create of one missing name: parked names are skipped, and a refused create fails the pass. */
  method CreateOne(b: Budget, ghost l0: Ledger, wanted: seq<string>, i: nat, missing: seq<string>, triaged: set<string>, requeue: int, changed: bool)
    returns (ok: bool, changed': bool)
    requires b.Valid() && NoDup(wanted) && i < |wanted| && wanted[i] !in b.pods
    requires forall n | n in wanted :: n in b.desired
    requires Worked(l0, b.L(), wanted, i, missing, triaged) && ShortestWait(l0, wanted[..i], requeue)
    modifies b`pods
    ensures b.Valid()
    ensures ok ==> Worked(l0, b.L(), wanted, i + 1, missing, triaged) && ShortestWait(l0, wanted[..i + 1], requeue)
    ensures AtRest(l0, wanted[i]) ==> ok && changed' == changed
    ensures Spares(old(b.L()), b.L(), Elements(wanted))
  {
    hide Balanced, Worked, ShortestWait, Spares;
    ghost var l := b.L();
    SparesNothing(l, Elements(wanted));
    WorkedUntouched(l0, l, wanted, i, missing, triaged);
    if BudgetExhausted(b.generation, b.history, wanted[i]) {
      ok, changed' := true, changed;
    } else {
      var r := b.CreateMissing(wanted[i]);
      SparesWhatItLeaves(l, b.L(), wanted[i], Elements(wanted));
      ok, changed' := r != NotCreated, changed || r == Created;
    }
    if AtRest(l0, wanted[i]) {
      RestingIsParked(l0, l, wanted[i]);
    }
    if ok {
      AbsentStep(l0, l, b.L(), wanted, i, missing, missing, triaged);
      OneMoreWait(l0, wanted[..i], requeue, wanted[i]);
      assert wanted[..i + 1] == wanted[..i] + [wanted[i]];
    }
  }

  /** ensureSubAgents: triage what is there, then create what is missing and not parked, then delete
      what is above the replicas. */
  method EnsureSubAgents(b: Budget, wanted: seq<string>, extras: seq<string>)
    returns (ok: bool, changed: bool, requeue: int, triaged: set<string>)
    requires b.Valid() && NoDup(wanted)
    requires (forall n | n in wanted :: n in b.desired) && (forall n | n in extras :: n !in b.desired)
    modifies b`history, b`pods, b`leaving, b`last, b`log, b`attempts
    ensures b.Valid()
    ensures ok ==> GroupDone(b.L(), wanted, extras, triaged) && ShortestWait(old(b.L()), wanted, requeue)
    ensures ok ==> forall n | n in triaged :: n in wanted && Rebuilt(old(b.L()), n)
    ensures AllAtRest(old(b.L()), wanted) && extras == [] ==> ok && !changed && b.L() == old(b.L())
    ensures Spares(old(b.L()), b.L(), Elements(wanted) + Elements(extras))
  {
    hide Balanced, Worked, ShortestWait, GroupDone, Spares;
    ghost var l0 := b.L();
    ghost var mine := Elements(wanted) + Elements(extras);
    SparesNothing(l0, mine);
    requeue, triaged := 0, {};
    var missing := [];
    WorkBegins(l0, wanted);
    NoWaits(l0);
    assert wanted[..0] == [];
    for i := 0 to |wanted|
      invariant b.Valid() && Spares(l0, b.L(), mine) && forall n | n in missing :: n in wanted
      invariant Worked(l0, b.L(), wanted, i, missing, triaged) && ShortestWait(l0, wanted[..i], requeue)
    {
      var n := wanted[i];
      assert n in wanted && (AllAtRest(l0, wanted) ==> AtRest(l0, n));
      if n in b.pods {
        ghost var l := b.L();
        ok, triaged, requeue := TriageOne(b, l0, wanted, i, missing, triaged, requeue);
        WiderSpares(l, b.L(), Elements(wanted), mine);
        SparesOn(l0, l, b.L(), mine);
        if !ok {
          changed := triaged != {};
          return;
        }
      } else {
        WorkedUntouched(l0, b.L(), wanted, i, missing, triaged);
        missing := missing + [n];
        AbsentStep(l0, b.L(), b.L(), wanted, i, missing[..|missing| - 1], missing, triaged);
        OneMoreWait(l0, wanted[..i], requeue, n);
        assert wanted[..i + 1] == wanted[..i] + [n];
      }
    }
    WorkEnds(l0, b.L(), wanted, missing, triaged);
    assert wanted[..|wanted|] == wanted;
    if AllAtRest(l0, wanted) {
      MissingAreParked(l0, wanted, missing, b.L());
    }
    var created;
    ghost var l1 := b.L();
    ok, created := CreateMissingPods(b, wanted, missing, triaged);
    WiderSpares(l1, b.L(), Elements(wanted), mine);
    SparesOn(l0, l1, b.L(), mine);
    changed := triaged != {} || created;
    if ok {
      ghost var l2 := b.L();
      var deleted;
      ok, deleted := DeleteExtras(b, extras, wanted, triaged);
      WiderSpares(l2, b.L(), Elements(extras), mine);
      SparesOn(l0, l2, b.L(), mine);
      changed := changed || deleted;
    }
  }

  lemma MissingAreParked(l0: Ledger, wanted: seq<string>, missing: seq<string>, l: Ledger)
    requires AllAtRest(l0, wanted) && l == l0 && forall n | n in missing :: n in wanted
    ensures forall n | n in missing :: n in l.pods || BudgetExhausted(l.generation, l.history, n)
  {
    forall n | n in missing
      ensures n in l.pods || BudgetExhausted(l.generation, l.history, n)
    {
      var j :| 0 <= j < |wanted| && wanted[j] == n;
      assert AtRest(l0, wanted[j]);
    }
  }

  /** The creates of the missing sub-agents; parked names were taken off the list first. */
  method CreateMissingPods(b: Budget, wanted: seq<string>, missing: seq<string>, triaged: set<string>)
    returns (ok: bool, created: bool)
    requires b.Valid() && forall n | n in wanted :: n in b.desired && (Accounted(b.L(), triaged, n) || n in missing)
    requires forall n | n in missing :: n in wanted
    modifies b`pods
    ensures b.Valid()
    ensures ok ==> forall n | n in wanted :: Accounted(b.L(), triaged, n)
    ensures (forall n | n in missing :: n in old(b.pods) || BudgetExhausted(b.generation, b.history, n)) ==>
      ok && !created && b.L() == old(b.L())
    ensures Spares(old(b.L()), b.L(), Elements(wanted))
  {
    hide Balanced, Spares, LeavesParked;
    ghost var l0 := b.L();
    SparesNothing(l0, Elements(wanted));
    created := false;
    for i := 0 to |missing|
      invariant Spares(old(b.L()), b.L(), Elements(wanted))
      invariant b.Valid()
      invariant forall n | n in wanted :: Accounted(b.L(), triaged, n) || n in missing[i..]
      invariant (forall n | n in missing :: n in old(b.pods) || BudgetExhausted(b.generation, b.history, n)) ==>
        !created && b.L() == old(b.L())
    {
      var n := missing[i];
      assert n in missing && missing[i..] == [n] + missing[i + 1..];
      if n !in b.pods && !BudgetExhausted(b.generation, b.history, n) {
        ghost var pods, l := b.pods, b.L();
        var r := b.CreateMissing(n);
        SparesWhatItLeaves(l, b.L(), n, Elements(wanted));
        SparesOn(l0, l, b.L(), Elements(wanted));
        StillParked(l, b.L());
        if r == NotCreated {
          return false, created;
        }
        created := created || r == Created;
        forall m | m in wanted
          ensures Accounted(b.L(), triaged, m) || m in missing[i + 1..]
        {
          assert m != n ==> SamePod(pods, b.pods, m);
        }
      }
    }
    ok := true;
  }

  lemma StillParked(a: Ledger, b: Ledger)
    requires LeavesParked(a, b)
    ensures forall n | BudgetExhausted(a.generation, a.history, n) :: BudgetExhausted(b.generation, b.history, n)
  {}

  // ---- the pass ----

  const AFTER_WRITE: int := SECOND

  /** The status the pass reports: what is there of the wanted names, and the pods above them. */
  function Report(generation: nat, pods: map<string, Member>, agents: seq<string>, toolboxes: seq<string>,
                  subExtras: seq<string>, tbExtras: seq<string>, ready: set<string>): Status
    requires agents != []
  {
    BuildStatus(generation, None, agents[0] in pods,
                Group(Elements(agents), There(agents, pods) + Elements(subExtras)),
                Group(Elements(toolboxes), There(toolboxes, pods) + Elements(tbExtras)),
                ready, ParkedPod(generation, pods))
  }

  function There(names: seq<string>, pods: map<string, Member>): set<string> {
    set n | n in names && n in pods
  }

  /** The tail of Reconcile once the main is ready: the sub-agents, the toolboxes, and, when neither
      changed anything, the status. */
  method Pass(b: Budget, board: StatusBoard, agents: seq<string>, toolboxes: seq<string>,
              subExtras: seq<string>, tbExtras: seq<string>, numeric: set<string>, foreign: set<string>, ready: set<string>)
    returns (ok: bool, changed: bool, requeue: int, triaged: set<string>)
    requires b.Valid() && agents != [] && NoDup(agents[1..])
    requires forall n | n in agents[1..] || n in toolboxes :: n in b.desired
    requires forall n | n in subExtras || n in tbExtras :: n !in b.desired
    requires forall n | n in toolboxes || n in tbExtras :: n !in agents[1..] && n !in subExtras
    modifies b`history, b`pods, b`leaving, b`last, b`log, b`attempts, board
    ensures b.Valid() && board.writes <= old(board.writes) + 1
    ensures ok ==> GroupDone(b.L(), agents[1..], subExtras, triaged) && GroupDone(b.L(), toolboxes, tbExtras, triaged)
    ensures ok ==> forall n | n in triaged :: Rebuilt(old(b.L()), n)
    ensures ok ==> if changed then requeue == AFTER_WRITE else ShortestWait(old(b.L()), agents[1..] + toolboxes, requeue)
    ensures
      var rest := AllAtRest(old(b.L()), agents[1..]) && AllAtRest(old(b.L()), toolboxes) && subExtras == [] && tbExtras == []
                  && ValidNames(toolboxes, numeric) && Unclaimed(old(b.pods), toolboxes, foreign);
      rest ==>
        && b.L() == old(b.L()) && !changed
        && (ok ==>
              board.status == Merged(Report(b.generation, b.pods, agents, toolboxes, subExtras, tbExtras, ready), old(board.status).conditions, b.now))
        && (Merged(Report(b.generation, b.pods, agents, toolboxes, subExtras, tbExtras, ready), old(board.status).conditions, b.now) == old(board.status) ==>
              ok && board.status == old(board.status) && board.writes == old(board.writes))
  {
    hide Balanced, ShortestWait, GroupDone, Report, Merged, Spares, ValidNames, Unclaimed;
    ghost var l0 := b.L();
    var subRequeue, tbRequeue, subChanged, tbChanged, tbTriaged;
    ok, subChanged, subRequeue, triaged := EnsureSubAgents(b, agents[1..], subExtras);
    changed, requeue := subChanged, 0;
    if !ok {
      return;
    }
    ghost var l1, subTriaged := b.L(), triaged;
    ok, tbChanged, tbRequeue, tbTriaged := EnsureToolboxes(b, toolboxes, tbExtras, numeric, foreign);
    changed, triaged := subChanged || tbChanged, triaged + tbTriaged;
    if !ok {
      return;
    }
    LookedAlike(l0, l1, toolboxes, Elements(agents[1..]) + Elements(subExtras), tbTriaged, tbRequeue);
    StaysDone(l1, b.L(), agents[1..], subExtras, subTriaged, triaged, Elements(toolboxes) + Elements(tbExtras));
    StaysDone(b.L(), b.L(), toolboxes, tbExtras, tbTriaged, triaged, {});
    if changed {
      requeue := AFTER_WRITE;
      return;
    }
    ok := board.PatchStatus(Report(b.generation, b.pods, agents, toolboxes, subExtras, tbExtras, ready), b.now);
    requeue := if subRequeue == 0 || (tbRequeue > 0 && tbRequeue < subRequeue) then tbRequeue else subRequeue;
    CombinedWait(l0, agents[1..], toolboxes, subRequeue, tbRequeue);
  }

  /** The sub-agents' half of a pass bears on nothing triage decides about the toolboxes. */
  lemma LookedAlike(l0: Ledger, l1: Ledger, names: seq<string>, touched: set<string>, triaged: set<string>, requeue: int)
    requires Spares(l0, l1, touched) && forall n | n in names :: n !in touched && n in l0.desired
    requires ShortestWait(l1, names, requeue) && forall n | n in triaged :: n in names && Rebuilt(l1, n)
    ensures ShortestWait(l0, names, requeue) && forall n | n in triaged :: Rebuilt(l0, n)
  {
    forall n | n in names
      ensures SamePod(l0.pods, l1.pods, n) && (n in l0.pods ==> Verdict0(l1, n) == Verdict0(l0, n))
    {
      assert Untouched(l0, l1, n);
    }
    assert forall i | 0 <= i < |names| :: names[i] in names;
  }

  lemma StaysDone(l: Ledger, l': Ledger, wanted: seq<string>, extras: seq<string>, triaged: set<string>, more: set<string>, touched: set<string>)
    requires GroupDone(l, wanted, extras, triaged) && triaged <= more && (l == l' || Spares(l, l', touched))
    requires forall n | n in wanted || n in extras :: n !in touched
    ensures GroupDone(l', wanted, extras, more)
  {
    forall n | n in wanted
      ensures Accounted(l', more, n)
    {
      assert Accounted(l, triaged, n);
    }
  }

  /** A settled set is left alone: the first pass writes at most the status, and the next writes
      nothing at all, as long as nothing but time has moved. */
  method SettledPasses(b: Budget, board: StatusBoard, agents: seq<string>, toolboxes: seq<string>, numeric: set<string>, foreign: set<string>, ready: set<string>, later: int)
    returns (ok: bool)
    requires b.Valid() && agents != [] && NoDup(agents[1..]) && ValidNames(toolboxes, numeric)
    requires forall n | n in agents[1..] || n in toolboxes ::
               n in b.desired && n in b.pods && Verdict0(b.L(), n) == Rebuilds.Leave
    requires forall n | n in toolboxes :: n !in agents[1..]
    requires later >= b.now && later >= b.last
    modifies b, board
    ensures ok ==> board.writes <= old(board.writes) + 1 && b.L() == old(b.L()).(now := later)
  {
    hide Balanced, ShortestWait, Report, Merged, ValidNames;
    var changed, requeue, triaged;
    LeftIsAtRest(b.L(), agents[1..]);
    LeftIsAtRest(b.L(), toolboxes);
    ghost var prev, now := board.status.conditions, b.now;
    ghost var next := Report(b.generation, b.pods, agents, toolboxes, [], [], ready);
    ok, changed, requeue, triaged := Pass(b, board, agents, toolboxes, [], [], numeric, foreign, ready);
    if !ok {
      return;
    }
    ghost var writes := board.writes;
    b.Outside(later, b.pods, b.leaving);
    LeftIsAtRest(b.L(), agents[1..]);
    LeftIsAtRest(b.L(), toolboxes);
    MergedTwice(next, prev, now, later);
    ok, changed, requeue, triaged := Pass(b, board, agents, toolboxes, [], [], numeric, foreign, ready);
    assert board.writes == writes;
  }

  lemma LeftIsAtRest(l: Ledger, names: seq<string>)
    requires forall n | n in names :: n in l.pods && Verdict0(l, n) == Rebuilds.Leave
    ensures AllAtRest(l, names)
  {}
}
