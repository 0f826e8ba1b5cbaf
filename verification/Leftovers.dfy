/**
  What the roots lead to while no ruleset is being switched: nothing, or what is left
  of one generation. The rules behind them name only sets from a given collection.
 */
module Leftovers {
  import opened Netfilter
  import opened MarkCompiler
  import opened Rulesets
  import opened Generations

  /** A rule that neither jumps nor names an ipset. */
  predicate SetFree(r: Rule) {
    !r.target.Jump? && forall i :: 0 <= i < |r.matches| ==> !r.matches[i].SrcSet? && !r.matches[i].DstSet?
  }

  /** Rules that jump nowhere and name only the given sets. */
  ghost predicate PlainChain(k: Kernel, id: ChainId, names: iset<string>) {
    id in k.chains ==> forall r :: r in k.chains[id] ==> !r.target.Jump? && forall n :: NamesSet(r, n) ==> n in names
  }

  /** A rule of a generation that names no set, or that leads to a chain of plain rules. */
  ghost predicate RuleCalm(k: Kernel, v: Variant, f: Family, kind: Kind, names: iset<string>, r: Rule) {
    SetFree(r) || (kind.MarkKind? && exists i: nat :: r == JumpTo(RuleChain(v, i, f)) && PlainChain(k, RuleChainId(v, i, f), names))
  }

  ghost predicate GenCalm(k: Kernel, v: Variant, f: Family, kind: Kind, names: iset<string>) {
    GenId(f, kind, v) in k.chains ==> forall r :: r in k.chains[GenId(f, kind, v)] ==> RuleCalm(k, v, f, kind, names, r)
  }

  /** The root of a hook has no rules, or it jumps to what is left of generation `v`. */
  ghost predicate SiteCalm(k: Kernel, v: Variant, names: iset<string>, f: Family, kind: Kind) {
    RootIdle(k, f, kind) || (ChainIs(k, RootId(f, kind), [JumpTo(Gen(kind, v))]) && GenCalm(k, v, f, kind, names))
  }

  ghost predicate Calm(k: Kernel, v: Variant, names: iset<string>) {
    forall f: Family, kind: Kind :: SiteCalm(k, v, names, f, kind)
  }

  lemma IdleIsCalm(k: Kernel, v: Variant, names: iset<string>)
    requires AllIdle(k)
    ensures Calm(k, v, names)
  {
    forall f: Family, kind: Kind ensures SiteCalm(k, v, names, f, kind) {
      assert RootIdle(k, f, kind);
    }
  }

  // ---- Chains that lose rules -----------------------------------------------

  /** A chain of `k` has at most the rules it had in `k0`. */
  predicate NoMore(k0: Kernel, k: Kernel, id: ChainId) {
    id in k.chains ==> forall r :: r in k.chains[id] ==> id in k0.chains && r in k0.chains[id]
  }

  /** Generation `v` has at most the rules it had, and may use more sets. */
  lemma GenCalmShrinks(k0: Kernel, k: Kernel, v: Variant, f: Family, kind: Kind, names0: iset<string>, names: iset<string>)
    requires GenCalm(k0, v, f, kind, names0) && forall n :: n in names0 ==> n in names
    requires forall id :: OfVariant(v, id) ==> NoMore(k0, k, id)
    ensures GenCalm(k, v, f, kind, names)
  {
    hide NamesSet, SetFree;
    var gen := GenId(f, kind, v);
    assert NoMore(k0, k, gen);
    if gen in k.chains {
      forall r | r in k.chains[gen]
        ensures RuleCalm(k, v, f, kind, names, r)
      {
        assert RuleCalm(k0, v, f, kind, names0, r);
        if !SetFree(r) {
          var i: nat :| r == JumpTo(RuleChain(v, i, f)) && PlainChain(k0, RuleChainId(v, i, f), names0);
          assert NoMore(k0, k, RuleChainId(v, i, f));
          assert PlainChain(k, RuleChainId(v, i, f), names);
        }
      }
    }
  }

  /** A chain of generation `v` proper. */
  predicate OfVariant(v: Variant, id: ChainId) {
    (id.chain.Gen? || id.chain.RuleChain?) && id.chain.variant == v
  }

  /** The roots are the same or have no rules, and generation `v` has grown nowhere. */
  lemma CalmShrinks(k0: Kernel, k: Kernel, v: Variant, names0: iset<string>, names: iset<string>)
    requires Calm(k0, v, names0) && forall n :: n in names0 ==> n in names
    requires forall f: Family, kind: Kind :: SameChain(k0, k, RootId(f, kind)) || RootIdle(k, f, kind)
    requires forall id :: OfVariant(v, id) ==> NoMore(k0, k, id)
    ensures Calm(k, v, names)
  {
    hide GenCalm, NoMore;
    forall f: Family, kind: Kind
      ensures SiteCalm(k, v, names, f, kind)
    {
      assert SiteCalm(k0, v, names0, f, kind);
      if GenCalm(k0, v, f, kind, names0) {
        GenCalmShrinks(k0, k, v, f, kind, names0, names);
      }
      assert SameChain(k0, k, RootId(f, kind)) || RootIdle(k, f, kind);
    }
  }

  // ---- What every command keeps ---------------------------------------------

  lemma ClearRoot(s: Step, f: Family, kind: Kind)
    requires Ran(s) && ClearCmd(s.cmd)
    ensures SameChain(s.before, s.after, RootId(f, kind)) || RootIdle(s.after, f, kind)
  {
  }

  lemma ClearChain(s: Step, id: ChainId)
    requires Ran(s) && ClearCmd(s.cmd) && !id.chain.Parent?
    ensures NoMore(s.before, s.after, id)
  {
  }

  /** Commands that add no rule keep the calm. */
  lemma CalmClear(s: Step, v: Variant, names: iset<string>)
    requires Calm(s.before, v, names) && Ran(s) && ClearCmd(s.cmd)
    ensures Calm(s.after, v, names)
  {
    hide Calm, Ran, ClearCmd, NoMore, RootIdle;
    forall f: Family, kind: Kind
      ensures SameChain(s.before, s.after, RootId(f, kind)) || RootIdle(s.after, f, kind)
    {
      ClearRoot(s, f, kind);
    }
    forall id | OfVariant(v, id)
      ensures NoMore(s.before, s.after, id)
    {
      ClearChain(s, id);
    }
    CalmShrinks(s.before, s.after, v, names, names);
  }

  lemma QuietRoot(s: Step, w: Variant, f: Family, kind: Kind)
    requires Ran(s) && QuietCmd(s.cmd, w)
    ensures SameChain(s.before, s.after, RootId(f, kind)) || RootIdle(s.after, f, kind)
  {
    hide RulePrefix;
  }

  lemma QuietChain(s: Step, w: Variant, id: ChainId)
    requires Ran(s) && QuietCmd(s.cmd, w) && OfVariant(Other(w), id)
    ensures NoMore(s.before, s.after, id)
  {
    hide RulePrefix;
  }

  /** Building the other generation keeps the calm. */
  lemma CalmQuiet(s: Step, v: Variant, names: iset<string>)
    requires Calm(s.before, v, names) && Ran(s) && QuietCmd(s.cmd, Other(v))
    ensures Calm(s.after, v, names)
  {
    hide Calm, Ran, QuietCmd, NoMore, RootIdle;
    forall f: Family, kind: Kind
      ensures SameChain(s.before, s.after, RootId(f, kind)) || RootIdle(s.after, f, kind)
    {
      QuietRoot(s, Other(v), f, kind);
    }
    forall id | OfVariant(v, id)
      ensures NoMore(s.before, s.after, id)
    {
      QuietChain(s, Other(v), id);
    }
    CalmShrinks(s.before, s.after, v, names, names);
  }

  lemma IdleStep(s: Step)
    requires AllIdle(s.before) && Ran(s) && IdleCmd(s.cmd)
    ensures AllIdle(s.after)
  {
    forall f: Family, kind: Kind ensures RootIdle(s.after, f, kind) {
      assert RootIdle(s.before, f, kind);
    }
  }

  // ---- Runs -----------------------------------------------------------------

  ghost predicate CalmSteps(log: seq<Step>, n: nat, v: Variant, names: iset<string>) {
    forall i :: n <= i < |log| ==> Calm(log[i].before, v, names) && Calm(log[i].after, v, names)
  }

  lemma CalmJoin(log1: seq<Step>, log2: seq<Step>, n: nat, v: Variant, names: iset<string>)
    requires n <= |log1| && log1 <= log2 && CalmSteps(log1, n, v, names) && CalmSteps(log2, |log1|, v, names)
    ensures CalmSteps(log2, n, v, names)
  {
    hide Calm;
    forall i | n <= i < |log2|
      ensures Calm(log2[i].before, v, names) && Calm(log2[i].after, v, names)
    {
      if i < |log1| { assert log2[i] == log1[i]; }
    }
  }

  lemma {:induction false} CalmClearRun(start: Kernel, log: seq<Step>, n: nat, m: nat, k: Kernel, v: Variant, names: iset<string>)
    requires n <= m <= |log| && Chained(start, log, k) && ClearFrom(log, n) && Calm(StateAt(start, log, n), v, names)
    ensures Calm(StateAt(start, log, m), v, names)
    decreases m
  {
    hide Calm, ClearCmd, Chained, Ran;
    if m > n {
      CalmClearRun(start, log, n, m - 1, k, v, names);
      ChainedAt(start, log, k, m - 1);
      CalmClear(log[m - 1], v, names);
    }
  }

  lemma {:induction false} CalmQuietRun(start: Kernel, log: seq<Step>, n: nat, m: nat, k: Kernel, v: Variant, names: iset<string>)
    requires n <= m <= |log| && Chained(start, log, k) && QuietRange(log, n, Other(v)) && Calm(StateAt(start, log, n), v, names)
    ensures Calm(StateAt(start, log, m), v, names)
    decreases m
  {
    hide Calm, QuietCmd, Chained, Ran;
    if m > n {
      CalmQuietRun(start, log, n, m - 1, k, v, names);
      ChainedAt(start, log, k, m - 1);
      CalmQuiet(log[m - 1], v, names);
    }
  }

  lemma {:induction false} IdleRun(start: Kernel, log: seq<Step>, n: nat, m: nat, k: Kernel)
    requires n <= m <= |log| && Chained(start, log, k) && IdleFrom(log, n) && AllIdle(StateAt(start, log, n))
    ensures AllIdle(StateAt(start, log, m))
    decreases m
  {
    hide AllIdle, IdleCmd, Chained, Ran;
    if m > n {
      IdleRun(start, log, n, m - 1, k);
      ChainedAt(start, log, k, m - 1);
      IdleStep(log[m - 1]);
    }
  }

  /** Each way of not adding rules behind the roots, as one run from `k0` to `k`. */
  lemma CalmSoFar(start: Kernel, log0: seq<Step>, k0: Kernel, log: seq<Step>, k: Kernel, v: Variant, names: iset<string>)
    requires Chained(start, log0, k0) && Chained(start, log, k) && log0 <= log
    requires || (Calm(k0, v, names) && (ClearFrom(log, |log0|) || QuietRange(log, |log0|, Other(v))))
             || (AllIdle(k0) && IdleFrom(log, |log0|))
    ensures Calm(k, v, names) && CalmSteps(log, |log0|, v, names)
  {
    hide Calm, ClearFrom, QuietRange, IdleFrom, AllIdle, Chained, Ran;
    var n := |log0|;
    LogStates(start, log0, k0, log, k);
    forall m | n <= m <= |log|
      ensures Calm(StateAt(start, log, m), v, names)
    {
      if AllIdle(k0) && IdleFrom(log, n) {
        IdleRun(start, log, n, m, k);
        IdleIsCalm(StateAt(start, log, m), v, names);
      } else if ClearFrom(log, n) {
        CalmClearRun(start, log, n, m, k, v, names);
      } else {
        CalmQuietRun(start, log, n, m, k, v, names);
      }
    }
    forall i | n <= i < |log|
      ensures Calm(log[i].before, v, names) && Calm(log[i].after, v, names)
    {
      ChainedAt(start, log, k, i);
      assert Calm(StateAt(start, log, i), v, names) && Calm(StateAt(start, log, i + 1), v, names);
    }
  }
}
