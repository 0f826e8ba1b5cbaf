/**
  Replacing the contents of ipsets while rules refer to them: the new contents are
  collected in a staging set, which is then swapped with the live set.
 */
module SetStaging {
  import opened Text
  import opened Netfilter
  import opened Hosts
  import opened Ordering
  import opened SetNames
  import opened RoutingPlan

  // ---- One set --------------------------------------------------------------

  predicate SameSet(k: Kernel, k': Kernel, name: string) {
    (name in k.sets <==> name in k'.sets) && (name in k.sets ==> k.sets[name] == k'.sets[name])
  }

  /** No set of another family bears the name. */
  predicate FamilyFits(k: Kernel, name: string, family: Family) {
    name in k.sets ==> k.sets[name].family == family
  }

  /** `k'` differs from `k` at most in the sets `a` and `b`. */
  ghost predicate OnlySets(k: Kernel, k': Kernel, a: string, b: string) {
    && k'.chains == k.chains && k'.ipRules4 == k.ipRules4 && k'.ipRules6 == k.ipRules6
    && forall n :: n != a && n != b ==> SameSet(k, k', n)
  }

  /** The live set holds what it held in `k0` (nothing, if it is new) or all of `entries`. */
  predicate OldOrNew(k0: Kernel, k: Kernel, name: string, family: Family, entries: set<Prefix>) {
    if name in k0.sets then
      name in k.sets && (k.sets[name] == k0.sets[name] || k.sets[name] == IpSet(family, entries))
    else
      name in k.sets ==> k.sets[name] == IpSet(family, {}) || k.sets[name] == IpSet(family, entries)
  }

  ghost predicate StagingState(k0: Kernel, k: Kernel, name: string, family: Family, entries: set<Prefix>) {
    OnlySets(k0, k, name, StagedName(name)) && OldOrNew(k0, k, name, family, entries)
  }

  ghost predicate StagingSteps(log: seq<Step>, n: nat, k0: Kernel, name: string, family: Family, entries: set<Prefix>) {
    forall i :: n <= i < |log| ==>
      IsSetCmd(log[i].cmd)
      && StagingState(k0, log[i].before, name, family, entries) && StagingState(k0, log[i].after, name, family, entries)
  }

  lemma OnlySetsTransitive(k: Kernel, k': Kernel, k'': Kernel, a: string, b: string)
    requires OnlySets(k, k', a, b) && OnlySets(k', k'', a, b)
    ensures OnlySets(k, k'', a, b)
  {
    forall n | n != a && n != b
      ensures SameSet(k, k'', n)
    {
      assert SameSet(k, k', n) && SameSet(k', k'', n);
    }
  }

  /** A command on the staging set leaves the live set alone. */
  lemma StagedOnly(k0: Kernel, s: Step, name: string, family: Family, entries: set<Prefix>)
    requires StagingState(k0, s.before, name, family, entries) && Ran(s) && StagedName(name) != name
    requires IsSetCmd(s.cmd) && !s.cmd.SwapSets? && s.cmd.name == StagedName(name)
    ensures StagingState(k0, s.after, name, family, entries) && SameSet(s.before, s.after, name)
  {
    hide StagedName;
    assert OnlySets(s.before, s.after, name, StagedName(name));
    OnlySetsTransitive(k0, s.before, s.after, name, StagedName(name));
  }

  function EntrySet(entries: seq<Prefix>): set<Prefix> {
    set e | e in entries
  }

  /** Fills the staging set. */
  method AddEntries(host: Host, staged: string, family: Family, entries: seq<Prefix>, ghost k0: Kernel, ghost name: string)
    returns (ok: bool)
    requires host.Valid() && staged == StagedName(name) && staged != name
    requires staged in host.kernel.sets && host.kernel.sets[staged] == IpSet(family, {})
    requires StagingState(k0, host.kernel, name, family, EntrySet(entries))
    modifies host
    ensures host.Valid() && old(host.log) <= host.log
    ensures StagingSteps(host.log, |old(host.log)|, k0, name, family, EntrySet(entries))
    ensures StagingState(k0, host.kernel, name, family, EntrySet(entries))
    ensures SameSet(old(host.kernel), host.kernel, name)
    ensures ok ==> staged in host.kernel.sets && host.kernel.sets[staged] == IpSet(family, EntrySet(entries))
    ensures host.Flawless() ==> ok
  {
    hide Chained, StagedName;
    ghost var all := EntrySet(entries);
    ok := true;
    for i := 0 to |entries|
      invariant ok && host.Valid() && old(host.log) <= host.log
      invariant StagingSteps(host.log, |old(host.log)|, k0, name, family, all)
      invariant StagingState(k0, host.kernel, name, family, all) && SameSet(old(host.kernel), host.kernel, name)
      invariant staged in host.kernel.sets && host.kernel.sets[staged] == IpSet(family, EntrySet(entries[..i]))
    {
      assert EntrySet(entries[..i + 1]) == EntrySet(entries[..i]) + {entries[i]} by {
        assert entries[..i + 1] == entries[..i] + [entries[i]];
      }
      ok := host.Run(AddEntry(staged, entries[i]));
      StagedOnly(k0, host.log[|host.log| - 1], name, family, all);
      if !ok { return; }
    }
    assert entries[..|entries|] == entries;
  }

  /**
    Replaces one set. After every command, whatever fails, the live set holds its
    previous contents or all of the new ones; success leaves no staging set.
   */
  method ApplySetAtomically(host: Host, name: string, family: Family, entries: seq<Prefix>) returns (ok: bool)
    requires host.Valid() && StagedName(name) != name
    modifies host
    ensures host.Valid() && old(host.log) <= host.log
    ensures StagingSteps(host.log, |old(host.log)|, old(host.kernel), name, family, EntrySet(entries))
    ensures StagingState(old(host.kernel), host.kernel, name, family, EntrySet(entries))
    ensures ok ==> name in host.kernel.sets && host.kernel.sets[name] == IpSet(family, EntrySet(entries))
    ensures ok ==> StagedName(name) !in host.kernel.sets
    ensures host.Flawless() && old(FamilyFits(host.kernel, name, family)) && old(FamilyFits(host.kernel, StagedName(name), family)) ==> ok
  {
    hide Chained, StagedName;
    ghost var k0, all := host.kernel, EntrySet(entries);
    var staged := StagedName(name);
    ok := host.Run(CreateSet(name, family));
    if !ok { return; }
    ok := EmptyStaged(host, staged, family, k0, name, all);
    if !ok { return; }
    ok := AddEntries(host, staged, family, entries, k0, name);
    if !ok { return; }
    ok := SwapIn(host, staged, family, k0, name, all);
  }

  method EmptyStaged(host: Host, staged: string, family: Family, ghost k0: Kernel, ghost name: string, ghost all: set<Prefix>)
    returns (ok: bool)
    requires host.Valid() && staged == StagedName(name) && staged != name
    requires name in host.kernel.sets && host.kernel.sets[name].family == family
    requires StagingState(k0, host.kernel, name, family, all)
    modifies host
    ensures host.Valid() && old(host.log) <= host.log
    ensures StagingSteps(host.log, |old(host.log)|, k0, name, family, all)
    ensures StagingState(k0, host.kernel, name, family, all) && SameSet(old(host.kernel), host.kernel, name)
    ensures ok ==> staged in host.kernel.sets && host.kernel.sets[staged] == IpSet(family, {})
    ensures host.Flawless() && old(FamilyFits(host.kernel, staged, family)) ==> ok
  {
    hide Chained, StagedName;
    ok := host.Run(CreateSet(staged, family));
    StagedOnly(k0, host.log[|host.log| - 1], name, family, all);
    if !ok { return; }
    ok := host.Run(FlushSet(staged));
    StagedOnly(k0, host.log[|host.log| - 1], name, family, all);
  }

  method SwapIn(host: Host, staged: string, family: Family, ghost k0: Kernel, name: string, ghost all: set<Prefix>)
    returns (ok: bool)
    requires host.Valid() && staged == StagedName(name) && staged != name
    requires name in host.kernel.sets && staged in host.kernel.sets && host.kernel.sets[staged] == IpSet(family, all)
    requires StagingState(k0, host.kernel, name, family, all)
    modifies host
    ensures host.Valid() && old(host.log) <= host.log
    ensures StagingSteps(host.log, |old(host.log)|, k0, name, family, all)
    ensures StagingState(k0, host.kernel, name, family, all)
    ensures ok ==> name in host.kernel.sets && host.kernel.sets[name] == IpSet(family, all) && staged !in host.kernel.sets
    ensures host.Flawless() && old(host.kernel).sets[name].family == family ==> ok
  {
    hide Chained, StagedName;
    ok := host.Run(SwapSets(name, staged));
    OnlySetsTransitive(k0, old(host.kernel), host.kernel, name, staged);
    if !ok { return; }
    ok := host.Run(DestroySet(staged));
    StagedOnly(k0, host.log[|host.log| - 1], name, family, all);
  }

  // ---- All desired sets -----------------------------------------------------

  /** Merging of prefixes: some function that may refuse its input. */
  type Collapse = (seq<Prefix>, Family) -> Option<seq<Prefix>>

  /** All that is used of it: the covered addresses stay the same. */
  ghost predicate CoverPreserving(collapse: Collapse) {
    forall es, f, a :: collapse(es, f).Some? ==>
      (Covered(EntrySet(collapse(es, f).value), a) <==> Covered(EntrySet(es), a))
  }

  function Contents(collapse: Collapse, d: DesiredSet): set<Prefix> {
    match collapse(d.entries, d.family)
    case Some(es) => EntrySet(es)
    case None => {}
  }

  /** No staging name is the name of a desired set. */
  predicate StagingApart(desired: Desired) {
    forall n, m :: n in desired && m in desired ==> StagedName(n) != m
  }

  /** No set of another family is in the way. */
  ghost predicate SetsFit(k: Kernel, desired: Desired) {
    forall n :: n in desired ==> FamilyFits(k, n, desired[n].family) && FamilyFits(k, StagedName(n), desired[n].family)
  }

  predicate IsStagedName(desired: Desired, name: string) {
    exists n :: n in desired && name == StagedName(n)
  }

  /** Every desired set is old or new, and no other live set has changed. */
  ghost predicate ReplacingState(k0: Kernel, k: Kernel, desired: Desired, collapse: Collapse) {
    && k.chains == k0.chains && k.ipRules4 == k0.ipRules4 && k.ipRules6 == k0.ipRules6
    && (forall n :: n in desired ==> OldOrNew(k0, k, n, desired[n].family, Contents(collapse, desired[n])))
    && (forall n :: n !in desired && !IsStagedName(desired, n) ==> SameSet(k0, k, n))
  }

  ghost predicate ReplacingSteps(log: seq<Step>, n: nat, k0: Kernel, desired: Desired, collapse: Collapse) {
    forall i :: n <= i < |log| ==>
      IsSetCmd(log[i].cmd)
      && ReplacingState(k0, log[i].before, desired, collapse) && ReplacingState(k0, log[i].after, desired, collapse)
  }

  /** The sets `done` hold their desired contents; the other desired sets are as in `k0`. */
  ghost predicate ReplacedUpTo(k0: Kernel, k: Kernel, desired: Desired, collapse: Collapse, done: seq<string>) {
    && ReplacingState(k0, k, desired, collapse)
    && (forall n :: n in desired && n !in done ==> SameSet(k0, k, n))
    && (forall n :: n in desired && n in done ==>
         n in k.sets && k.sets[n] == IpSet(desired[n].family, Contents(collapse, desired[n]))
         && StagedName(n) !in k.sets)
  }

  lemma StagingIsReplacing(k0: Kernel, k: Kernel, k': Kernel, desired: Desired, collapse: Collapse, done: seq<string>, name: string)
    requires StagingApart(desired) && name in desired && name !in done
    requires ReplacedUpTo(k0, k, desired, collapse, done)
    requires StagingState(k, k', name, desired[name].family, Contents(collapse, desired[name]))
    ensures ReplacingState(k0, k', desired, collapse)
  {
    hide Contents, StagedName;
    forall n | n in desired
      ensures OldOrNew(k0, k', n, desired[n].family, Contents(collapse, desired[n]))
    {
      assert StagedName(name) != n;
      if n == name {
        assert SameSet(k0, k, n);
      } else {
        assert SameSet(k, k', n) && OldOrNew(k0, k, n, desired[n].family, Contents(collapse, desired[n]));
      }
    }
    forall n | n !in desired && !IsStagedName(desired, n)
      ensures SameSet(k0, k', n)
    {
      assert SameSet(k0, k, n) && SameSet(k, k', n);
    }
  }

  lemma ReplacedNext(k0: Kernel, k: Kernel, k': Kernel, desired: Desired, collapse: Collapse, done: seq<string>, name: string)
    requires StagingApart(desired) && name in desired && name !in done
    requires ReplacedUpTo(k0, k, desired, collapse, done)
    requires StagingState(k, k', name, desired[name].family, Contents(collapse, desired[name]))
    requires name in k'.sets && k'.sets[name] == IpSet(desired[name].family, Contents(collapse, desired[name]))
    requires StagedName(name) !in k'.sets
    ensures ReplacedUpTo(k0, k', desired, collapse, done + [name])
  {
    hide Contents, StagedName;
    StagingIsReplacing(k0, k, k', desired, collapse, done, name);
    forall n | n in desired && n !in done + [name]
      ensures SameSet(k0, k', n)
    {
      assert n != name && StagedName(name) != n;
      assert SameSet(k0, k, n) && SameSet(k, k', n);
    }
    forall n | n in desired && n in done + [name]
      ensures n in k'.sets && k'.sets[n] == IpSet(desired[n].family, Contents(collapse, desired[n])) && StagedName(n) !in k'.sets
    {
      assert StagedName(name) != n;
      if n != name {
        assert n in done;
        assert SameSet(k, k', n);
        assert StagedName(n) == StagedName(name) || SameSet(k, k', StagedName(n)) by {
          assert StagedName(n) != name;
        }
      }
    }
  }

  lemma FitsAfter(k: Kernel, k': Kernel, desired: Desired, name: string, entries: set<Prefix>)
    requires SetsFit(k, desired) && StagingApart(desired) && name in desired
    requires StagingState(k, k', name, desired[name].family, entries) && StagedName(name) !in k'.sets
    ensures SetsFit(k', desired)
  {
    hide StagedName;
    forall n | n in desired
      ensures FamilyFits(k', n, desired[n].family) && FamilyFits(k', StagedName(n), desired[n].family)
    {
      assert FamilyFits(k, n, desired[n].family) && FamilyFits(k, StagedName(n), desired[n].family);
      assert n == name || SameSet(k, k', n);
      assert StagedName(n) == StagedName(name) || SameSet(k, k', StagedName(n));
    }
  }

  /** Collapses the entries of one set and puts them in place, after the sets `done`. */
  method ReplaceOne(host: Host, desired: Desired, collapse: Collapse, name: string, ghost n: nat, ghost k0: Kernel, ghost done: seq<string>)
    returns (ok: bool)
    requires host.Valid() && StagingApart(desired) && name in desired && name !in done
    requires n <= |host.log| && ReplacingSteps(host.log, n, k0, desired, collapse) && ReplacedUpTo(k0, host.kernel, desired, collapse, done)
    modifies host
    ensures host.Valid() && old(host.log) <= host.log && ReplacingSteps(host.log, n, k0, desired, collapse)
    ensures ReplacingState(k0, host.kernel, desired, collapse)
    ensures ok ==> Collapses(collapse, desired[name]) && ReplacedUpTo(k0, host.kernel, desired, collapse, done + [name])
    ensures host.Flawless() && old(SetsFit(host.kernel, desired)) && Collapses(collapse, desired[name]) ==> ok && SetsFit(host.kernel, desired)
  {
    hide Chained, StagedName, ReplacingState, StagingState, ReplacedUpTo, EntrySet, ReplacingSteps, StagingSteps, FamilyFits;
    ghost var k, log1 := host.kernel, host.log;
    var def := desired[name];
    UpToIsReplacing(k0, k, desired, collapse, done);
    var entries := collapse(def.entries, def.family);
    if entries.None? { return false; }
    ok := ApplySetAtomically(host, name, def.family, entries.value);
    assert Contents(collapse, def) == EntrySet(entries.value);
    StepsReplace(log1, host.log, n, k0, k, desired, collapse, done, name);
    StagingIsReplacing(k0, k, host.kernel, desired, collapse, done, name);
    if ok { ReplacedNext(k0, k, host.kernel, desired, collapse, done, name); }
    if ok && SetsFit(k, desired) { FitsAfter(k, host.kernel, desired, name, EntrySet(entries.value)); }
  }

  /** Replaces the named sets one after the other, up to the first failure. */
  method ReplaceEach(host: Host, desired: Desired, collapse: Collapse, names: seq<string>) returns (ok: bool)
    requires host.Valid() && StagingApart(desired)
    requires forall i :: 0 <= i < |names| ==> names[i] in desired
    requires forall i, j :: 0 <= i < j < |names| ==> names[i] != names[j]
    modifies host
    ensures host.Valid() && old(host.log) <= host.log
    ensures ReplacingSteps(host.log, |old(host.log)|, old(host.kernel), desired, collapse)
    ensures ReplacingState(old(host.kernel), host.kernel, desired, collapse)
    ensures ok ==> ReplacedUpTo(old(host.kernel), host.kernel, desired, collapse, names)
    ensures ok ==> forall i :: 0 <= i < |names| ==> Collapses(collapse, desired[names[i]])
    ensures host.Flawless() && old(SetsFit(host.kernel, desired)) && AllCollapse(collapse, desired) ==> ok
  {
    hide Chained, StagedName, StagingApart, ReplacingState, ReplacedUpTo, ReplacingSteps, Collapses, Contents, SetsFit;
    ghost var k0, smooth := host.kernel, host.Flawless() && SetsFit(host.kernel, desired) && AllCollapse(collapse, desired);
    NothingReplaced(k0, desired, collapse);
    NoStepsYet(host.log, k0, desired, collapse);
    for i := 0 to |names|
      invariant host.Valid() && old(host.log) <= host.log
      invariant ReplacingSteps(host.log, |old(host.log)|, k0, desired, collapse)
      invariant ReplacedUpTo(k0, host.kernel, desired, collapse, names[..i])
      invariant forall j :: 0 <= j < i ==> Collapses(collapse, desired[names[j]])
      invariant smooth ==> SetsFit(host.kernel, desired)
    {
      ok := ReplaceOne(host, desired, collapse, names[i], |old(host.log)|, k0, names[..i]);
      if !ok { return; }
      assert names[..i + 1] == names[..i] + [names[i]];
    }
    assert names[..|names|] == names;
    UpToIsReplacing(k0, host.kernel, desired, collapse, names);
    ok := true;
  }

  /**
    Replaces all desired sets, in name order. After every command each desired set
    holds its previous contents or all of its new ones and every other live set is
    untouched; success leaves every desired set exact and no staging set behind. It
    succeeds when nothing fails, all entries can be merged and no set of another
    family is in the way.
   */
  method ApplyDesiredSets(host: Host, desired: Desired, collapse: Collapse) returns (ok: bool)
    requires host.Valid() && StagingApart(desired)
    modifies host
    ensures host.Valid() && old(host.log) <= host.log
    ensures ReplacingSteps(host.log, |old(host.log)|, old(host.kernel), desired, collapse)
    ensures ReplacingState(old(host.kernel), host.kernel, desired, collapse)
    ensures ok ==> forall n :: n in desired ==>
      n in host.kernel.sets && host.kernel.sets[n] == IpSet(desired[n].family, Contents(collapse, desired[n]))
      && StagedName(n) !in host.kernel.sets
    ensures ok && CoverPreserving(collapse) ==> SetsCover(host.kernel, desired)
    ensures ok ==> AllCollapse(collapse, desired)
    ensures host.Flawless() && old(SetsFit(host.kernel, desired)) && AllCollapse(collapse, desired) ==> ok
  {
    hide Chained, StagedName, StagingApart, ReplacingState, ReplacedUpTo, CoverPreserving, SetsCover, ReplacingSteps, Collapses, Contents,
         SetsFit, AllCollapse;
    var names := Sorted(desired.Keys);
    assert forall i :: 0 <= i < |names| ==> names[i] in names;
    ghost var k0 := host.kernel;
    ok := ReplaceEach(host, desired, collapse, names);
    if ok {
      EachCollapses(desired, collapse, names);
      AllReplaced(k0, host.kernel, desired, collapse, names);
    }
  }

  lemma NoStepsYet(log: seq<Step>, k0: Kernel, desired: Desired, collapse: Collapse)
    ensures ReplacingSteps(log, |log|, k0, desired, collapse)
  {
  }

  /** The steps of one more set, after those of the sets `done`. */
  lemma StepsReplace(log1: seq<Step>, log: seq<Step>, n: nat, k0: Kernel, k: Kernel, desired: Desired, collapse: Collapse,
                     done: seq<string>, name: string)
    requires n <= |log1| && log1 <= log && StagingApart(desired) && name in desired && name !in done
    requires ReplacingSteps(log1, n, k0, desired, collapse) && ReplacedUpTo(k0, k, desired, collapse, done)
    requires StagingSteps(log, |log1|, k, name, desired[name].family, Contents(collapse, desired[name]))
    ensures ReplacingSteps(log, n, k0, desired, collapse)
  {
    hide StagedName, ReplacingState, StagingState, ReplacedUpTo, StagingApart, Contents;
    forall j | n <= j < |log|
      ensures IsSetCmd(log[j].cmd)
      ensures ReplacingState(k0, log[j].before, desired, collapse) && ReplacingState(k0, log[j].after, desired, collapse)
    {
      if j < |log1| {
        assert log[j] == log1[j];
      } else {
        StagingIsReplacing(k0, k, log[j].before, desired, collapse, done, name);
        StagingIsReplacing(k0, k, log[j].after, desired, collapse, done, name);
      }
    }
  }

  lemma NothingReplaced(k: Kernel, desired: Desired, collapse: Collapse)
    ensures ReplacedUpTo(k, k, desired, collapse, [])
  {
    hide Contents, StagedName;
  }

  lemma UpToIsReplacing(k0: Kernel, k: Kernel, desired: Desired, collapse: Collapse, done: seq<string>)
    requires ReplacedUpTo(k0, k, desired, collapse, done)
    ensures ReplacingState(k0, k, desired, collapse)
  {
  }

  lemma AllReplaced(k0: Kernel, k: Kernel, desired: Desired, collapse: Collapse, names: seq<string>)
    requires ReplacedUpTo(k0, k, desired, collapse, names) && forall n :: n in desired ==> n in names
    requires AllCollapse(collapse, desired)
    ensures forall n :: n in desired ==>
      n in k.sets && k.sets[n] == IpSet(desired[n].family, Contents(collapse, desired[n])) && StagedName(n) !in k.sets
    ensures CoverPreserving(collapse) ==> SetsCover(k, desired)
  {
    hide Contents, StagedName, CoverPreserving, SetsCover, Collapses;
    if CoverPreserving(collapse) {
      ReplacedSetsCover(k, desired, collapse);
    }
  }

  lemma EachCollapses(desired: Desired, collapse: Collapse, names: seq<string>)
    requires forall n :: n in desired <==> n in names
    requires forall j :: 0 <= j < |names| ==> names[j] in desired && Collapses(collapse, desired[names[j]])
    ensures AllCollapse(collapse, desired)
  {
    hide Collapses;
    forall n | n in desired ensures Collapses(collapse, desired[n]) {
      var j :| 0 <= j < |names| && names[j] == n;
    }
  }

  // ---- Addresses ------------------------------------------------------------

  predicate Collapses(collapse: Collapse, d: DesiredSet) {
    collapse(d.entries, d.family).Some?
  }

  /** The entries of every desired set can be merged. */
  ghost predicate AllCollapse(collapse: Collapse, desired: Desired) {
    forall n :: n in desired ==> Collapses(collapse, desired[n])
  }

  /** Every desired set matches exactly the addresses of its desired entries. */
  ghost predicate SetsCover(k: Kernel, desired: Desired) {
    forall n, a :: n in desired ==> (InSet(k.sets, n, a) <==> Covered(EntrySet(desired[n].entries), a))
  }

  lemma ReplacedSetsCover(k: Kernel, desired: Desired, collapse: Collapse)
    requires CoverPreserving(collapse) && forall n :: n in desired ==> Collapses(collapse, desired[n])
    requires forall n :: n in desired ==> n in k.sets && k.sets[n].entries == Contents(collapse, desired[n])
    ensures SetsCover(k, desired)
  {
    hide Covered, EntrySet;
    forall n, a | n in desired
      ensures InSet(k.sets, n, a) <==> Covered(EntrySet(desired[n].entries), a)
    {
      assert Collapses(collapse, desired[n]);
    }
  }
}
