/**
  The machine the commands run on. Which commands and listings fail is decided by
  oracles that the proofs know nothing about, so every result about a run holds for
  every pattern of failures. The ghost log holds one step for each command.
 */
module Hosts {
  import opened Netfilter

  type Faults = (nat, Cmd) -> bool

  /** The oracle permits the answer of the step at time `t`. */
  predicate Possible(faults: Faults, s: Step, t: nat) {
    s.ok ==> Reliable(s.cmd) || !faults(t, s.cmd)
  }

  ghost predicate Answered(faults: Faults, log: seq<Step>, times: seq<nat>) {
    |times| == |log| && forall i {:trigger Possible(faults, log[i], times[i])} :: 0 <= i < |log| ==> Possible(faults, log[i], times[i])
  }

  lemma AnsweredAppend(faults: Faults, log: seq<Step>, times: seq<nat>)
    requires |times| == |log| > 0 && Answered(faults, log[..|log| - 1], times[..|log| - 1])
    requires Possible(faults, log[|log| - 1], times[|log| - 1])
    ensures Answered(faults, log, times)
  {
    var front, earlier := log[..|log| - 1], times[..|log| - 1];
    forall i | 0 <= i < |log|
      ensures Possible(faults, log[i], times[i])
    {
      if i < |log| - 1 { assert Possible(faults, front[i], earlier[i]); }
    }
  }

  /** A command that the oracle never lets through never took effect. */
  lemma NeverSucceeds(faults: Faults, log: seq<Step>, times: seq<nat>, i: nat)
    requires Answered(faults, log, times) && i < |log| && !Reliable(log[i].cmd) && forall t :: faults(t, log[i].cmd)
    ensures !log[i].ok
  {
    assert Possible(faults, log[i], times[i]);
  }

  class Host {
    var kernel: Kernel
    var turn: nat
    const faults: Faults
    const lost: nat -> bool
    const listable: bool
    ghost const start: Kernel
    ghost var log: seq<Step>
    ghost var times: seq<nat>

    ghost predicate Valid()
      reads this
    {
      Chained(start, log, kernel) && Answered(faults, log, times)
    }

    /** Nothing fails but what the kernel refuses. */
    ghost predicate Flawless() {
      listable && (forall t, cmd :: !faults(t, cmd)) && forall t :: !lost(t)
    }

    constructor (kernel: Kernel, faults: Faults, lost: nat -> bool, listable: bool)
      ensures Valid()
      ensures this.kernel == kernel && this.start == kernel && log == []
      ensures this.faults == faults && this.lost == lost && this.listable == listable
    {
      this.start := kernel;
      this.kernel := kernel;
      this.turn := 0;
      this.faults := faults;
      this.lost := lost;
      this.listable := listable;
      log, times := [], [];
    }

    /** Runs one command. */
    method Run(cmd: Cmd) returns (ok: bool)
      requires Valid()
      modifies this
      ensures Valid()
      ensures log == old(log) + [Step(old(kernel), cmd, ok, kernel)]
      ensures Ran(log[|log| - 1])
      ensures ok <==> Accepts(old(kernel), cmd) && (Reliable(cmd) || !faults(old(turn), cmd))
      ensures Flawless() ==> ok == Accepts(old(kernel), cmd)
    {
      hide Chained;
      ghost var before := kernel;
      ok := Accepts(kernel, cmd) && (Reliable(cmd) || !faults(turn, cmd));
      if ok {
        kernel := Apply(kernel, cmd);
      }
      ChainedAppend(start, log, Step(before, cmd, ok, kernel));
      log, times := log + [Step(before, cmd, ok, kernel)], times + [turn];
      turn := turn + 1;
      AnsweredAppend(faults, log, times);
    }

    /** `-S chain`: the rules of one chain. */
    method ListRules(id: ChainId) returns (ok: bool, rules: seq<Rule>)
      modifies this`turn
      ensures ok ==> id in kernel.chains && rules == kernel.chains[id]
      ensures listable && id in kernel.chains ==> ok
    {
      ok, rules := false, [];
      if id in kernel.chains && (listable || !lost(turn)) {
        ok, rules := true, kernel.chains[id];
      }
      turn := turn + 1;
    }

    /** `-S`: the chains of one table. */
    method ListChains(family: Family, table: Table) returns (ok: bool, ids: seq<ChainId>)
      modifies this`turn
      ensures ok ==> forall id :: id in ids <==> id in kernel.chains && id.family == family && id.table == table
      ensures ok <==> !lost(old(turn))
    {
      ids := [];
      ok := !lost(turn);
      turn := turn + 1;
      if ok {
        var left := set id | id in kernel.chains && id.family == family && id.table == table;
        ghost var all := left;
        while left != {}
          invariant left <= all
          invariant forall id :: id in ids <==> id in all && id !in left
          decreases |left|
        {
          var id :| id in left;
          left := left - {id};
          ids := ids + [id];
        }
      }
    }

    /** `ip rule show`: the rules of one family, without their multiplicity. */
    method ListIpRules(family: Family) returns (ok: bool, rules: set<IpRule>)
      modifies this`turn
      ensures ok ==> forall r :: r in rules <==> r in IpRules(kernel, family)
      ensures listable ==> ok
    {
      ok := listable || !lost(turn);
      turn := turn + 1;
      rules := {};
      if ok {
        var current := IpRules(kernel, family);
        rules := set r | r in current;
      }
    }

    /** `ipset list -name`, restricted to names with a prefix. */
    method ListSets(prefix: string) returns (ok: bool, names: set<string>)
      modifies this`turn
      ensures ok ==> forall n :: n in names <==> n in kernel.sets && prefix <= n
      ensures ok <==> !lost(old(turn))
    {
      ok := !lost(turn);
      turn := turn + 1;
      names := {};
      if ok {
        names := set n | n in kernel.sets && prefix <= n;
      }
    }
  }
}
