# Verified model of split-vpn-webui

split-vpn-webui routes selected traffic of a gateway through VPN tunnels. Users
write groups of rules; the program turns each rule into ipsets, iptables chains
and ip rules, and replaces the whole of them while packets keep flowing. Beside
that it manages VPN profiles, resolves and caches destinations, inspects flows
and updates itself. This project models those parts in Dafny and proves what they
keep.

`dafny verify dfyconfig.toml` verifies everything.

## Parts

- **Packet filter.** `Netfilter` gives packets, rules, chains, ipsets, ip rules
  and a traversal semantics in which MARK continues, RETURN leaves the chain and
  jumps nest. `Hosts` is the command interface: every command may fail, and a
  ghost log records the state before and after each, so that properties of
  "every intermediate state" are statements about the log.
- **Rule compiler.** `Bindings`, `MarkCompiler` and `MarkCorrectness` prove that
  the emitted chain means what the binding says. `FlowMatcher` is the second,
  independent meaning of a rule, in the flow inspector; the two agree.
- **Live update.** `Rulesets`, `Generations`, `RootSwitch`, `HitlessUpdate`,
  `IpRulesSync` and `ChainNames` cover the A/B generations, the jump switch and
  the ip rules. `Leftovers`, `SetStaging`, `SetReferences`, `SafeUpdates`, `Takedown`
  and `RoutingManager` cover the ipsets, the order of a whole apply and any sequence
  of applies; `Stranding` and `StrandedRun` cover what a failing takedown can leave
  behind. `RoutingPlan`, `PlanMeaning`, `Requests` and `SetNames` cover what is
  wanted, what it means, when it can be had and how it is named, `NormalizedPlans` that
  rules as users write them, once normalized, meet what the packet-level results ask for.
- **VPN profiles.** `Allocation` and `VpnManager` prove the accounting of route
  tables and fwmarks over all histories, `VpnOutcomes` what each operation gives its
  caller. `WireGuardParser`, `WireGuardSanitizer` and `WireGuardMeaning` relate the
  config cleaner to the parser that reads its output, `WireGuardFields` reads each field off the lines, `WireGuardLostTable` is an
  example.
- **Rule text.** `PortSelectors`, `SelectorLines` and `RuleNormalization`.
- **Prewarm.** `ResolverGate` and `WorkerPool` are state machines whose steps are
  the atomic operations; `PrewarmTask` is what one task makes of its answers,
  `PrewarmTotals` what the workers accumulate, and `Folds` why order is irrelevant.
- **The rest.** `SelfUpdate`, `FlowSessions`, `FlowConservation` and
  `DiscoveryCache`.

## Assumptions

- The matches of one iptables command are a conjunction, also where a second
  `--dport` is appended to a command that has one already.
- `-D` and `ip rule del` fail only when nothing is left to delete. Every other
  command may fail at any time, and a failed command changes nothing.
- The kernel accepts more than a real one: it lets a set be destroyed or a chain
  be deleted while it is referenced. The properties hold although it does, except
  where `Stranding` says; `Stranding.ProtectedNeverStrands` is about a kernel that
  refuses to destroy a set in use.
- Renaming a file is atomic. The file system may fail or stop at any other point.
- Other software's chains use their own, existing ipsets and do not jump into
  this program's chains (`SetReferences.ForeignRuleOk`).
- The built-in chains exist where success is promised (`Generations.ParentsExist`).
- The hitless guarantee starts from six roots with exactly one jump each, to the
  same generation, and a working listing (`Hosts.Host.listable`).
- The network library prints hardware addresses without white space at the ends and
  without `#` (`NormalizedPlans.MacsTidy`). A packet's hardware address is written in
  lower case (`FlowMatcher.Trackable`); the kernel compares addresses, not texts.
- Text is lower-cased in ASCII. A character is one byte of the FNV hash and of
  length limits.
- Clocks, random identifiers, DNS answers, service restarts and the network
  library's parsing of addresses are arbitrary inputs.

## What turned out not to hold

- A vpn.conf without ROUTE_TABLE breaks the accounting: an update that fails
  between writing the config and vpn.conf leaves a table that the next update
  takes for its own without reserving it. `VpnManager.AccountingIsExact` gives
  the exact condition and `VpnManager.UnrecordedTableIsShared` the consequence.
- The flow inspector disagrees with the kernel when a rule's sets of one kind have
  both expired and it falls back to the configuration
  (`FlowMatcher.ExpiredSetDisagrees`); `FlowMatcher.RuleAgreesExactly` says for which
  packets.
- The flow inspector and the rule normalizer lower-case interface names and the kernel
  does not: a rule for br0 claims the flows of Br0 and never routes them
  (`FlowMatcher.CapitalNameDisagrees`). `FlowMatcher.RuleAgrees` and
  `FlowMatcher.RuleAgreesExactly` have the exact condition.
- A takedown ignores failures and destroys the sets all the same. If every flush and
  deletion of a mark root, of its generation and of a chain that names a set fails, the
  next apply links a root that leads to a rule without its set
  (`StrandedRun.LeftoverRun`). One success on each such path is enough, and necessary:
  `RoutingManager.ApplyNothing` has the exact condition, `RoutingManager.ApplyEach` uses
  it for whole histories. A kernel that refuses to destroy a set in use prevents the
  failure (`Stranding.ProtectedNeverStrands`).
- An empty Table value at the end of the last [Interface] section makes the
  cleaned config lose the table; `WireGuardMeaning.SanitizingKeepsMeaning` has
  the exact condition and `WireGuardLostTable.EmptyTableIsLost` a text.
- A self-update job whose staged file is the binary's own `.new` file installs an
  empty binary, and one whose staged file is the binary removes it
  (`SelfUpdate.StagedInNew`, `SelfUpdate.StagedInPlace`). `SelfUpdate.ApplyJob` has
  the exact condition, and `SelfUpdate.OutsideUpdates` says when neither can be.
- A second normalization changes the stored lines of a rule when a value carries a
  carriage return inside (`RuleNormalization.SecondPassIsIdentity`).

## Model

| member | source | states |
|---|---|---|
| Hosts.Host.Run | internal/routing/iptables_mark.go:50-58 | every command is logged with the kernel state before and after; it may fail and then changes nothing; deletions fail only when nothing is left to delete |
| Netfilter.RunAppend | internal/routing/iptables_mark.go:64-81 | the rules of a chain compose: what a packet meets after a prefix of the chain is what the rest does to the prefix's outcome, unless RETURN or a final verdict ended it |
| Netfilter.MulticastRangeIsMulticast | internal/server/flow_inspector_matcher.go:422-427 | 224.0.0.0/4 and ff00::/8 contain exactly the addresses that the flow inspector classifies as multicast |
| MarkCompiler.ExpandPortSelectors | internal/routing/iptables_mark.go:181-206 | the loop yields the expanded list: tcp and udp for `both`, one open selector for none |
| MarkCompiler.ExpandAllMatches | internal/routing/iptables_mark.go:181-197 | expansion keeps the matched packets: some expanded selector matches iff some given selector does |
| MarkCompiler.AddExclusionRulesByFamily | internal/routing/iptables_mark.go:85-143 | appends exactly the multicast, source, destination and overlapping port exclusions, in that order; on failure only this chain has grown |
| MarkCompiler.AddMarkRulesByFamily | internal/routing/iptables_mark.go:41-83 | on success the rule chain holds exactly the compiled rules and the generation gained one jump to it; on any failure only these two chains changed |
| MarkCorrectness.PortExclusionFires | internal/routing/iptables_mark.go:129-141 | a port exclusion fires exactly on its packets within its block, and one that the overlap test drops could never have fired |
| MarkCorrectness.BlockSelects | internal/routing/iptables_mark.go:64-81 | one interface/MAC/port block marks the packets it matches unless the binding excludes them, and then leaves the chain |
| MarkCorrectness.CompiledChainIsCorrect | internal/routing/iptables_mark.go:41-143 | for every normalized binding, packet and incoming state the chain sets the binding's mark iff some interface/MAC/port combination and the sets match and no exclusion holds, and otherwise changes nothing |
| FlowMatcher.PrefixContains | internal/server/flow_inspector_matcher.go:631-638 | true iff some prefix contains the address |
| FlowMatcher.MatchDestinationPort | internal/server/flow_inspector_matcher.go:640-663 | true iff some port selector covers the flow's protocol and port |
| FlowMatcher.MatchFlowRule | internal/server/flow_inspector_matcher.go:429-481 | returns the first rule that claims the flow; none iff no rule does |
| FlowMatcher.CompileFlowRules | internal/server/flow_inspector_matcher.go:202-267 | compiles, in order, the rules of the groups that leave through the VPN and have selectors |
| FlowMatcher.FlowRulesInOrder | internal/server/flow_inspector_matcher.go:202-267 | the compiled rules come in the order of the groups |
| FlowMatcher.GroupRulesInOrder | internal/server/flow_inspector_matcher.go:202-267 | and within a group in the order of its rules |
| FlowMatcher.RuleAgrees | internal/server/flow_inspector_matcher.go:429-481 | for one rule whose prefixes denote what the ipsets hold, the binding routes a packet iff the inspector claims its flow and does so without folding the case of the interface name |
| FlowMatcher.RuleAgreesExactly | internal/server/flow_inspector_matcher.go:236-262 | with exact listings the two agree about a rule and a packet iff the inspector does not misjudge the packet, a condition on its own snapshot and the rule: neither a configured prefix whose sets are empty nor an interface name listed only in lower case decides |
| FlowMatcher.MatcherAgreesWithBindings | internal/server/flow_inspector_matcher.go:202-267 | for every tcp/udp flow with a positive port, from any interface, the matcher finds a rule of a VPN iff some binding of that VPN routes the packet, if for each rule the prefixes denote what the ipsets hold and no folded interface name decides, or the listings are exact and the packet is not misjudged |
| FlowMatcher.ListedViewIsExact | internal/server/flow_inspector_matcher.go:236-262 | for every kind of set: an exact listing gives the right view of an address iff the set has a member in either family or the configured entries do not cover the address |
| FlowMatcher.ExpiredSetDisagrees | internal/server/flow_inspector_matcher.go:236-262 | for every kind of set: once both sets are empty, kernel and inspector disagree about every packet of a configured prefix |
| FlowMatcher.CapitalNameDisagrees | internal/server/flow_inspector_matcher.go:437-448 | for a rule on br0 and any packet from Br0 the inspector claims the flow and the binding does not route the packet |
| Rulesets.GenerationVerdict | internal/routing/iptables.go:91-140 | a complete generation gives each packet the mark of the last routing binding in order, else the incoming mark; masquerades and clamps exactly as its bindings say |
| Rulesets.ClampsAre | internal/routing/iptables.go:197-252 | SYN packets of a family are clamped by the setting for that family of the last clamping binding of their interface |
| Rulesets.VerdictsCompose | internal/routing/iptables.go:317-329 | the old ruleset after the new one amounts to one of the two, so both jumps may coexist |
| Rulesets.SiteVerdict | internal/routing/iptables.go:317-329 | in every phase of a root's switch each packet gets the old or the new ruleset's verdict |
| Rulesets.LinksVerdict | internal/routing/iptables.go:275-290 | however many links a built-in chain has to its root, a packet that passes them gets the old or the new ruleset's verdict |
| RootSwitch.SortBindingsInOrder | internal/routing/iptables.go:39-45 | the sort orders by (group, rule index) and is a permutation |
| RootSwitch.SortBindingsNormalized | internal/routing/iptables.go:39-45 | sorting keeps bindings normalized, so the verdict results apply to the sorted ruleset |
| RootSwitch.DetectActiveVariant | internal/routing/iptables.go:170-176 | with a working listing exactly the generation of the first such jump of the IPv4 mark root, or else of the IPv6 one |
| Generations.CleanupRuleChains | internal/routing/iptables.go:292-315 | removes only rule chains of the one generation, and all of them when nothing fails |
| Generations.PrepareGenerationChain | internal/routing/iptables.go:275-290 | success leaves an empty generation chain and a linked root; nothing else changes and no command touches what the active generation uses |
| Generations.PrepareAll | internal/routing/iptables.go:49-66 | all six hooks are prepared, by commands that no live root can notice |
| Generations.AddBindings | internal/routing/iptables.go:91-135 | success leaves the chains and rules of all bindings in the generation; bindings are refused iff one has a mark or table below 200, no interface or no name for a set it uses, or two share a mark and not the table, or a command fails |
| Generations.AddMarkRules | internal/routing/iptables_mark.go:10-39 | extends the built mark chains by one binding in both families |
| Generations.AddNatRules | internal/routing/iptables.go:123-133 | one masquerading rule per distinct (mark, interface), in both families |
| RootSwitch.AddMssRules | internal/routing/iptables.go:197-252 | success leaves the clamp rules of all interfaces in name order |
| RootSwitch.SwitchRootJump | internal/routing/iptables.go:317-329 | a root on the old generation holds the old, both or the new jump after every command; failure leaves it as it was, success leaves only the new jump, also in a root that had no rules |
| RootSwitch.SwitchAll | internal/routing/iptables.go:142-159 | a prefix of the six roots is switched at every step, from roots on the old generation or without rules |
| RootSwitch.FlushRoots | internal/routing/iptables.go:67-86 | without an active generation all six roots are emptied, and only they |
| HitlessUpdate.RootReaches | internal/routing/iptables.go:275-329 | in every phase of the switch a root reaches only itself and complete generations it jumps to |
| HitlessUpdate.QuietRun | internal/routing/iptables.go:47-140 | while the other generation is built every command leaves the old ruleset installed, and no chain reachable from a root is emptied or deleted |
| HitlessUpdate.SwitchingIsHitless | internal/routing/iptables.go:142-159 | every command of the switch is hitless |
| HitlessUpdate.SitesHitless | internal/routing/iptables.go:47-168 | before and after every command each packet at each hook gets the old or the new ruleset's verdict |
| HitlessUpdate.BuildGeneration | internal/routing/iptables.go:88-140 | success leaves the whole ruleset in the generation being built; no command is noticeable from a live root |
| HitlessUpdate.PrepareNext | internal/routing/iptables.go:47-86 | chooses the generation that a mark root does not mention, empties it, and empties the roots when none is mentioned; no command adds a rule except links |
| HitlessUpdate.BuildNext | internal/routing/iptables.go:47-140 | detects, prepares and builds: the new ruleset is complete in the inactive generation, the active one stays installed, no rule enters a root, and roots that led at most to what is left of a generation lead nowhere else at any step |
| HitlessUpdate.SwitchAndSync | internal/routing/iptables.go:142-168 | switches the roots to a complete generation and then reconciles the ip rules: hitless over a live ruleset, and installed on success from roots on the old generation or without rules |
| HitlessUpdate.ApplyRules | internal/routing/iptables.go:38-168 | from six roots on one generation every command is hitless, for every packet and every pattern of failures; an error before the switch leaves the old ruleset, a partial switch leaves each hook on one of the two, success installs the new ruleset in the other generation with the ip rules reconciled; without an active generation success installs it in A, and over what is left of one in the other one; when nothing fails, an apply succeeds iff every binding has a mark and a table of at least 200, an interface and its set names, and no two bindings share a mark and differ in the table; the managed ip rules are then exactly those of the bindings |
| HitlessUpdate.AcceptableSorted | internal/routing/iptables.go:39-45 | sorting does not change whether bindings can be installed |
| HitlessUpdate.ReconciledServes | internal/routing/iptables_iprules.go:10-77 | reconciled policy rules are exactly the mark and table pairs of the bindings |
| ChainNames.ChainTextInjective | internal/routing/iptables.go:9-20 | managed chains never share a name |
| ChainNames.RuleChainTextInjective | internal/routing/iptables_mark.go:226-239 | a rule chain's name determines generation, binding index and family |
| ChainNames.PrefixPicksRuleChains | internal/routing/iptables.go:292-315 | the name prefix used for cleanup picks exactly the rule chains of that generation |
| IpRulesSync.DeleteCopies | internal/routing/iptables_iprules.go:56-75 | removes up to 64 copies of one rule and touches no other |
| IpRulesSync.AddMissing | internal/routing/iptables_iprules.go:23-41 | on success every desired pair is present; no undesired rule changes and no desired one is lost at any step |
| IpRulesSync.Reconcile | internal/routing/iptables_iprules.go:10-77 | make-before-break: with a listing, a desired rule present at the start is present at every step and unmanaged rules never change; success with at most 64 stale copies makes the managed pairs equal the desired map |
| IpRulesSync.RefreshAll | internal/routing/iptables_iprules.go:12-21 | without a listing every desired rule is present afterwards and every other rule keeps its number of copies |
| IpRulesSync.FlushManaged | internal/routing/iptables_iprules.go:148-184 | unmanaged rules keep their multiplicity, managed ones lose up to 64 copies |
| SetStaging.ApplySetAtomically | internal/routing/manager_sets.go:128-151 | after every command, whatever fails, the live set holds its previous contents or all new ones; success leaves no staging set |
| SetStaging.ApplyDesiredSets | internal/routing/manager_sets.go:98-126 | after every command each desired set is old or complete and other live sets are untouched; success leaves no staging set, and every desired set matches exactly the addresses of its desired entries; it succeeds when nothing fails, the entries can be merged and no set of another family is in the way |
| SetReferences.SafeRootsNeverDangle | internal/routing/manager.go:293-309 | if the rules behind the roots name only existing sets, no rule that packets can reach names a missing one |
| SetReferences.BuiltIsCalm | internal/routing/iptables.go:91-140 | a complete generation names only the sets of its bindings, and jumps only to their chains |
| SetReferences.SwitchNeverDangles | internal/routing/manager.go:293-309 | while both rulesets have their sets no reachable rule names a missing set, in any phase of the switch |
| SetReferences.CleanupStaleSets | internal/routing/manager.go:390-404 | destroys only own sets outside the keep set; success leaves no other own set; it succeeds when listing and destroying do |
| SetReferences.CleaningIsSafe | internal/routing/manager.go:307-309 | destroying sets that no binding uses never leaves a dangling reference |
| Takedown.FlushRules | internal/routing/iptables.go:343-402 | every step only removes; afterwards no built-in chain leads to a root (with at most 64 links), and managed ip rules have lost up to 64 copies, others none (if listed); when nothing fails, no root, generation or rule chain is left |
| Takedown.ShrinkIsSafe | internal/routing/iptables.go:343-402 | removing rules and chains never creates a dangling reference |
| Takedown.UnlinkedCleaningIsSafe | internal/routing/manager.go:216-222 | once the roots are unlinked all own sets may be destroyed |
| Stranding.StrandedIffAstray | internal/routing/iptables.go:360-402 | read off the run: after a takedown some mark root leads to a rule that names a missing set iff every flush and deletion of the root, of the generation and of the rule chain on that way failed while the set was destroyed |
| Stranding.RelinkedDanglesIff | internal/routing/iptables.go:275-290 | linking the roots again makes a reference dangle iff some mark root leads to a rule that names a missing set |
| Stranding.InstalledLeads | internal/routing/iptables_mark.go:41-143 | behind the roots of a live ruleset a rule chain names a set iff its binding uses it |
| Stranding.StrandedIffResisted | internal/routing/iptables.go:360-402 | once the rule sets are gone: rules are stranded iff in some family the mark root, the live generation and the chain of a binding that uses a set all resisted |
| Stranding.ProtectedNeverStrands | internal/routing/manager.go:390-404 | on a kernel that refuses to destroy a set that a rule names, no takedown strands a rule |
| StrandedRun.LiveIsWarm | internal/routing/iptables.go:38-168 | every ruleset whose sets exist can be live |
| StrandedRun.LeftoverRun | internal/routing/iptables.go:343-402 | from any live ruleset that uses a set: if just the flushes and deletions of the mark root, of its generation and of one chain that names a set fail, the takedown followed by the next link ends with a dangling reference |
| SafeUpdates.SettledNeverDangles | internal/routing/manager.go:210-311 | if the roots lead at most to what is left of one generation and that has its sets, no reference dangles |
| SafeUpdates.WarmIsSettled | internal/routing/manager.go:304-306 | a live ruleset with its sets is such a state |
| SafeUpdates.IdleIsSettled | internal/routing/iptables.go:67-86 | so are roots without rules, on a first start or after a complete takedown |
| SafeUpdates.ReplacingIsSafe | internal/routing/manager.go:293-295 | replacing sets never leaves a dangling reference, behind a live ruleset, behind what is left of one, or without any |
| SafeUpdates.UpdatingIsSafe | internal/routing/iptables.go:38-168 | no step of an update of the rules leaves a dangling reference, from a live ruleset, from what is left of one or from a first start, and an error before the switch leaves the roots settled |
| RoutingManager.TakedownIsExact | internal/routing/manager.go:216-222 | a takedown leaves the roots settled, and linking them again is harmless, iff it stranded no rule |
| RoutingManager.SettledCleaningIsSafe | internal/routing/manager.go:390-404 | if the sets that are left suffice for what the roots lead to, no step of their removal left a dangling reference |
| RoutingManager.ApplyNothing | internal/routing/manager.go:216-231 | the branch without groups: no step dangles if there are few links or no rule is stranded; the next apply finds settled roots iff no rule is stranded, and then only may the roots be linked; with all rule sets gone that is iff on each path from a mark root to a chain that names a set some flush or deletion took effect |
| RoutingManager.ApplyLocked | internal/routing/manager.go:210-311 | from a live ruleset or settled roots no command, on either branch and whatever fails, leaves a reachable rule with a missing set, unless a takedown strands one; every outcome but a failed switch leads to the phase stated; over a live ruleset every packet meets the old or the new ruleset after every command; success leaves the planned sets and policy rules; when nothing fails and nothing is in the way, it succeeds iff the plan is usable and no marks clash |
| RoutingManager.ApplyGroups | internal/routing/manager.go:233-311 | the branch with groups: errors before the switch keep the live ruleset or the settled roots, later outcomes install the new ruleset; from any filter without an active generation success establishes the invariant; every desired set then matches exactly its entries; success is decided by the plan when nothing fails |
| RoutingManager.ApplyPlan | internal/routing/manager.go:293-310 | sets, rules and cleanup in order: what each stage leaves, and success iff the bindings can be installed, when nothing fails |
| Requests.PlanUsableIff | internal/routing/manager.go:264-281 | a plan is made iff every group has a profile with table and mark of at least 200 and an interface |
| Requests.PlanAcceptableIff | internal/routing/iptables.go:91-110 | the bindings of a plan can be installed iff no two groups with rules share a mark and differ in the table |
| Requests.SortGroupsInOrder | internal/routing/manager.go:264-265 | the groups are planned in name order, and none is lost or repeated |
| RoutingManager.RefreshLocked | internal/routing/manager_sets.go:30-83 | the refresh between applies touches no rule, keeps the live ruleset or the settled roots at every step, and on success leaves the destination sets as a full apply would |
| RoutingManager.ApplyEach | internal/routing/manager.go:184-311 | over any sequence of applies and refreshes from program start or from a live ruleset no command leaves a dangling reference, as long as no switch breaks off and no takedown strands a rule; the latter cannot happen on a kernel that refuses to destroy sets in use |
| RoutingPlan.FastRefreshAgrees | internal/routing/manager_sets.go:30-96 | the fast refresh wants exactly the destination and excluded-destination sets of a full apply, with the same entries, for any groups and snapshots |
| RoutingPlan.DesiredDestinations | internal/routing/manager_sets.go:30-83 | the loop of the fast refresh computes the fast desired sets |
| RoutingPlan.RuleSetsDesired | internal/routing/manager.go:313-388 | queueing the sets of a rule keeps what is desired already and makes every set that the rule's binding names desired |
| RoutingPlan.BuildPlan | internal/routing/manager.go:264-292 | refuses iff some group's VPN is missing or unusable; otherwise computes all desired sets and bindings |
| RoutingPlan.BindingSetsDesired | internal/routing/manager.go:313-388 | every set that a binding's rules will name is among the desired sets |
| PlanMeaning.PlannedEntries | internal/routing/manager.go:313-374 | the plan has exactly the sets its rules need, and each holds exactly the prefixes of its family that a rule with that set name lists, resolves to by ASN, domain or wildcard, or was prewarmed with |
| PlanMeaning.CollectedIsListed | internal/routing/manager_sets.go:184-214 | for each kind of set: an entry is collected iff the rule lists it, resolves to it or was prewarmed with it |
| PlanMeaning.BindingsAre | internal/routing/manager.go:282-292 | there is a binding for every rule with selectors, and for nothing else |
| PlanMeaning.BindingCarries | internal/routing/manager.go:375-388 | a binding carries the mark, table, interface and clamps of its VPN |
| PlanMeaning.RuleIsEnforced | internal/routing/manager.go:313-388 | with the planned sets in place the binding of a rule routes exactly the packets that the rule means, if no other group has its set names |
| SetNames.NormalizeSetBase | internal/routing/model.go:384-409 | the loop with the underscore flag computes the set base |
| SetNames.SetNameIsValid | internal/routing/model.go:342-382 | for every group name and rule index below 999,999,999 each of the eight names is valid and at most 31 characters long |
| SetNames.SetNameInjective | internal/routing/model.go:342-382 | equal names mean equal rule index, kind and family, within one group and across groups |
| SetNames.StagedNameIsFresh | internal/routing/manager_sets.go:228-246 | a staged name is at most 31 characters, valid, and never the name of any rule's set |
| Allocation.Allocator.constructor | internal/vpn/allocator.go:215-225 | the pools start from live, persisted and external values of at least 200; persisted ones are not sticky |
| Allocation.Allocator.AllocateTable | internal/vpn/allocator.go:132-146 | takes the smallest free table from 200 to 65535 after a refresh, or takes nothing when none is free |
| Allocation.Allocator.AllocateMark | internal/vpn/allocator.go:148-162 | takes the smallest free mark from 200 on, or nothing |
| Allocation.Allocator.Reserve | internal/vpn/allocator.go:164-197 | reserves both values or neither: a refused mark gives the table back |
| Allocation.Allocator.Release | internal/vpn/allocator.go:199-213 | releases exactly the given values, never sticky ones |
| Allocation.Allocator.Refresh | internal/vpn/allocator.go:227-232 | live values become used and sticky |
| Allocation.CommitAccounts | internal/vpn/manager.go:205-270 | recording a pending value in place of an old one leaves exactly the old one pending |
| Allocation.LeaveAccounts | internal/vpn/manager.go:273-295 | a profile that leaves takes exactly its own value out of use |
| VpnManager.Manager.ResolveRouteTable | internal/vpn/manager_prepare.go:172-196 | keeps, reserves or allocates a table and says what was reserved and what it replaces |
| VpnManager.Manager.ResolveMark | internal/vpn/manager_prepare.go:198-207 | keeps a usable mark or allocates one |
| VpnManager.Manager.PrepareProfile | internal/vpn/manager_prepare.go:9-158 | both choices, or none with the reservations released |
| VpnManager.Manager.Create | internal/vpn/manager.go:134-202 | the state after a create for every failing step |
| VpnManager.Manager.Update | internal/vpn/manager.go:205-270 | the state after an update for every failing step, including the config written without vpn.conf |
| VpnManager.Manager.Delete | internal/vpn/manager.go:273-295 | the state after a delete for every failing step |
| VpnOutcomes.DeleteOutcome | internal/vpn/manager.go:273-295 | deleting succeeds iff the profile is there and no step fails; then exactly it is gone and its table and mark are free unless sticky; otherwise nothing changes |
| VpnOutcomes.CreateOutcome | internal/vpn/manager.go:134-202 | a profile is recorded iff the name is new, no step fails and both values can be had; it has the table asked for, else the smallest free one, and the smallest free mark; otherwise no profile changes |
| VpnOutcomes.UpdateOutcome | internal/vpn/manager.go:205-270 | a profile is rewritten iff it is there, no step up to vpn.conf fails and both values can be had; it keeps its table unless another is asked for, and its mark; a failure at vpn.conf leaves the new config alone |
| VpnOutcomes.UpdateFreesOldTable | internal/vpn/manager.go:250-262 | moving to another table takes it and gives the old one back unless sticky |
| VpnManager.PlannedAccounts | internal/vpn/manager_prepare.go:53-105 | after preparation exactly the plan's own reservations are pending, and none if it gave up |
| VpnManager.CreateKeepsSound | internal/vpn/manager.go:134-202 | a create keeps the books, wherever it fails |
| VpnManager.UpdateKeepsSound | internal/vpn/manager.go:205-270 | an update keeps the books, wherever it fails |
| VpnManager.DeleteKeepsSound | internal/vpn/manager.go:273-295 | a delete keeps the books, wherever it fails |
| VpnManager.HistoryKeepsSound | internal/vpn/manager.go:134-295 | after any history used tables are the sticky ones plus those of at least 200 recorded in vpn.conf files, likewise marks, and no value is recorded twice |
| VpnManager.StartManager | internal/vpn/manager.go:63-94 | at program start the pools hold the live, external and recorded values |
| VpnManager.StartIsAccountedIff | internal/vpn/allocator.go:215-352 | at program start the books are right iff no table or mark of at least 200 is recorded twice |
| VpnManager.HistoryFromStart | internal/vpn/manager.go:134-295 | from program start on every history keeps the books, if every vpn.conf has a table and nothing is recorded twice |
| VpnManager.NoSharing | internal/vpn/manager.go:134-295 | no two profiles ever share a table or a mark of at least 200 |
| VpnManager.FailureLeaksNothing | internal/vpn/manager.go:134-295 | an operation that changes no profile leaves no reservation behind and frees none |
| VpnManager.AccountingIsExact | internal/vpn/manager_storage.go:14-78 | the books stay right over every history iff every vpn.conf has a ROUTE_TABLE entry |
| VpnManager.UnrecordedTableIsShared | internal/vpn/manager_prepare.go:172-181 | from any state with a vpn.conf without ROUTE_TABLE two profiles can come to share a table |
| WireGuardParser.ParseCsvList | internal/vpn/wireguard.go:242-253 | the trimmed items of a list, without empty ones |
| WireGuardParser.ParseWireGuardConfig | internal/vpn/wireguard.go:87-182 | the loop with its early returns computes the meaning of the text, or fails exactly when that has none |
| WireGuardFields.ParsedFields | internal/vpn/wireguard.go:87-222 | a text parses iff its lines are well formed and name what is required; every field of the interface and of each peer then holds the values of the lines with its key in its section: the last one, all, their items, or the further settings by key |
| WireGuardFields.KeyAndValue | internal/vpn/wireguard.go:224-240 | the first = separates key and value |
| WireGuardFields.KeyAndSpace | internal/vpn/wireguard.go:224-240 | without = the first white space does |
| WireGuardFields.CommentCut | internal/vpn/wireguard.go:255-262 | a value ends at the first comment sign after a space |
| WireGuardFields.CsvListIs | internal/vpn/wireguard.go:242-253 | joined lists have the items of both, and a list without comma at most one |
| WireGuardParser.ReadScanned | internal/vpn/wireguard.go:87-105 | the scanner's treatment of line ends does not change what is read |
| WireGuardSanitizer.RawTests | internal/vpn/manager_wireguard.go:33-50 | the cleaner's tests on raw lines see the same headers and watched settings as the parser; comments are none |
| WireGuardSanitizer.SanitizeWireGuardConfig | internal/vpn/manager_wireguard.go:15-78 | the loop computes the cleaned text and the warnings, and refuses iff the cleaned text does not parse |
| WireGuardSanitizer.CleanedLines | internal/vpn/manager_wireguard.go:15-78 | cleaning removes exactly the unsupported DNS lines and the hooks of the legacy script under an [Interface] header, keeps every other line as it is and in order, and adds only Table lines |
| WireGuardSanitizer.WarningsMatchRemovals | internal/vpn/manager_wireguard.go:15-78 | one warning for each removed kind of setting, and no other |
| WireGuardMeaning.SanitizingKeepsMeaning | internal/vpn/manager_wireguard.go:15-78 | every text that parses is accepted; the result parses to the same keys, addresses, peers and extras, DNS kept iff supported, exactly the legacy hooks gone, and the table is the given one iff the last [Interface] section does not end with an empty Table value |
| WireGuardMeaning.NoEmptyTableLine | internal/vpn/manager_wireguard.go:45-50 | without empty Table lines in [Interface] sections the table is never lost |
| WireGuardLostTable.EmptyTableIsLost | internal/vpn/manager_wireguard.go:45-50 | a configuration that parses, and whose cleaned text has no table whatever table it is given |
| WireGuardMeaning.HooksRead | internal/vpn/wireguard.go:184-205 | each hook list is exactly the values of its [Interface] lines, with or without the legacy script |
| WireGuardMeaning.SanitizingTwice | internal/vpn/manager_wireguard.go:15-78 | cleaning a cleaned text again, with any table, changes nothing and warns of nothing |
| WireGuardMeaning.NoSilentRemoval | internal/vpn/manager_wireguard.go:51-66 | without a warning nothing was removed |
| ResolverGate.GateIsCorrect | internal/prewarm/worker_query.go:49-79 | in every interleaving: disabled only after at least `threshold` failures without a success between, at most one callback, with such a count; when all reports are complete both hold exactly if there was such a streak (32-bit wrap-around included) |
| ResolverGate.DisabledIsFinal | internal/prewarm/worker_query.go:67-79 | a disabled gate stays disabled |
| ResolverGate.WrapBelow | internal/prewarm/worker_query.go:73-74 | a wrapped counter never shows more than was counted |
| PrewarmTotals.AddCounts | internal/prewarm/worker.go:268-282 | the loop adds every count to its interface's entry |
| PrewarmTotals.AppendSetIps | internal/prewarm/worker_helpers.go:22-38 | adds the trimmed, non-empty addresses to the set's cache |
| PrewarmTotals.MergeTask | internal/prewarm/worker.go:265-286 | what a worker adds under the lock for one task |
| PrewarmTotals.MergedAllMeans | internal/prewarm/worker.go:265-286 | after any merges: the number of tasks, the sum of inserted addresses, the counts of every interface and, in each cache, exactly the trimmed addresses that were there or that a task of the set found for that family |
| PrewarmTotals.MaterializeCacheSnapshot | internal/prewarm/worker_helpers.go:40-53 | a set is in the snapshot iff one of the caches has it, with the values of both |
| PrewarmTotals.MergedCommute | internal/prewarm/worker.go:265-286 | two tasks may finish in either order |
| PrewarmTask.NotedCommute | internal/prewarm/worker_query.go:164-175 | two locked sections of one task may come in either order |
| PrewarmTask.TaskIsDeterministic | internal/prewarm/worker_query.go:97-266 | however the queries of each phase interleave, the targets of the second phase and the result of a prewarm task are the same |
| PrewarmTask.FindingsConsistent | internal/prewarm/worker_query.go:193-251 | an address counts for a prewarm task iff it counts for some interface |
| PrewarmTask.OutcomeCounts | internal/prewarm/worker_query.go:252-266 | no interface inserts more addresses than its task, and its errors are its failed queries |
| PrewarmTask.OutcomeHolds | internal/prewarm/worker_query.go:97-266 | a task yields exactly the addresses found, each family in its own list, and counts for every interface what was found through it |
| Folds.OrderIrrelevant | internal/prewarm/worker.go:249-289 | a fold whose steps commute depends only on which elements there are |
| PrewarmTotals.MergeOrderIrrelevant | internal/prewarm/worker.go:265-286 | merging the same task results in any order gives the same totals and caches |
| WorkerPool.BoundedQueries | internal/prewarm/worker_query.go:81-91 | in every interleaving at most `parallelism` queries are in flight |
| WorkerPool.NeverStuck | internal/prewarm/worker.go:227-321 | until the run has returned some step other than an outside cancellation is possible in every reachable state |
| WorkerPool.EveryRunEnds | internal/prewarm/worker.go:227-321 | every schedule is finite: no run has more steps than a bound fixed by the list of tasks |
| WorkerPool.SuccessMergesAll | internal/prewarm/worker.go:227-321 | a run without error has merged every task exactly once |
| WorkerPool.SuccessIsSequential | internal/prewarm/worker.go:227-321 | the totals and caches of a run without error are those of folding all task results in any order |
| WorkerPool.SuccessTotals | internal/prewarm/worker.go:227-321 | a run without error leaves exactly the sums over all tasks and, in the caches, what was there and what tasks of each set found |
| WorkerPool.UncancelledSucceeds | internal/prewarm/worker.go:227-321 | a run that nobody cancels returns without error |
| PortSelectors.NormalizePorts | internal/routing/model_normalize.go:102-132 | the loop with the key set yields the canonical selectors without duplicates, or refuses on the first invalid one |
| PortSelectors.NormalizedPortsAre | internal/routing/model_normalize.go:102-132 | ports are accepted iff each has a known protocol and a valid range; the result holds exactly what they become |
| PortSelectors.KeyInjective | internal/routing/model_normalize.go:124-128 | the printed key determines the selector, so dropping seen keys drops only duplicates |
| PortSelectors.NormalizingTwice | internal/routing/model_normalize.go:102-132 | normalizing normalized ports changes nothing |
| PortSelectors.FormatPortSelectorLines | internal/routing/model_raw_selectors.go:178-198 | the loop prints every selector that has a protocol and a positive start |
| PortSelectors.ParsePortSelectorStrings | internal/routing/model_raw_selectors.go:200-250 | the loop parses all lines or refuses |
| PortSelectors.PortRoundTrip | internal/routing/model_raw_selectors.go:178-250 | parsing the printed form of any normalized port list gives it back |
| PortSelectors.PrintedThenNormalized | internal/routing/model_raw_selectors.go:178-250 | also for ports not yet normalized, printing and parsing loses nothing that normalization keeps |
| SelectorLines.NormalizeRawLines | internal/routing/model_raw_selectors.go:159-165 | as many lines as before, each without its carriage returns |
| SelectorLines.SelectorValuesFromRaw | internal/routing/model_raw_selectors.go:133-157 | the values of the lines that are neither blank nor comments |
| SelectorLines.CommentIsIgnored | internal/routing/model_raw_selectors.go:145-157 | a comment after a value changes nothing, and a line without one stands for its trimmed text |
| SelectorLines.StripKeepsValues | internal/routing/model_raw_selectors.go:133-165 | carriage returns never change the values |
| SelectorLines.NormalizeList | internal/routing/model_normalize.go:12-82 | the deduplicating loop shared by the selector normalizers |
| SelectorLines.NormalizedListContents | internal/routing/model_normalize.go:12-187 | exactly the canonical forms of the non-blank entries, without duplicates |
| RuleNormalization.SecondPass | internal/routing/model.go:161-258 | a second pass over a normalized rule succeeds and keeps name, selectors and ports; only carriage returns leave the lines |
| RuleNormalization.SecondPassIsIdentity | internal/routing/model.go:161-258 | the second pass changes nothing at all iff no value that serves as a line has a carriage return inside |
| RuleNormalization.SecondPassChangesLines | internal/routing/model_raw_selectors.go:159-176 | a rule whose lines a second pass does change |
| RuleNormalization.AcceptedIff | internal/routing/model.go:161-258 | a rule is accepted iff every entry of its lines and every port is valid and it says something |
| RuleNormalization.NormalizedRuleSays | internal/routing/model.go:161-258 | the name, the multicast exclusion (on unless turned off), the lines kept, for every field exactly the canonical forms of the entries of its lines, and the ports |
| RuleNormalization.FormIsValue | internal/routing/model_normalize.go:12-187 | what the canonical form of an interface, address, hardware address, ASN, domain or wildcard is, and of which entries |
| NormalizedPlans.NormalizedRuleIsCanonical | internal/routing/model.go:161-258 | every rule the normalizer accepts has plain interface names, tidy MAC addresses and valid ports, as the matcher and the compiler require |
| NormalizedPlans.PlannedIsNormalized | internal/routing/model.go:149-159 | the ruleset planned from normalized groups meets the compiler's premise, so the packet-level results apply to it |
| SelfUpdate.Disk.CopyFile | internal/update/runner.go:188-208 | at every step only the target differs from before; success means the whole source (empty if source and target are one file) |
| SelfUpdate.ApplyJob | internal/update/runner.go:61-107 | a harmless job keeps the old bytes or bytes with its checksum at the live path after every single change, and an activated job does so only if harmless; errors before activation and a successful rollback leave the old bytes; without faults a proper job ends installed, or rolled back |
| SelfUpdate.OutsideUpdates | internal/update/runner.go:156-173 | a binary outside the updates directory is never one of those two cases |
| SelfUpdate.Restore | internal/update/runner.go:92-98 | a successful restore puts the backup's bytes in place, a failed one leaves the live path alone |
| SelfUpdate.Activate | internal/update/runner.go:77-90 | a failure leaves the live bytes alone at every step; success puts the staged bytes in place (an empty file if staged as .new) with the old bytes in the backup |
| SelfUpdate.StagedInNew | internal/update/runner.go:77-90 | a fault-free job staged in the .new file ends with an empty binary |
| SelfUpdate.StagedInPlace | internal/update/runner.go:105-106 | a fault-free job staged in the binary itself ends without a binary |
| FlowSessions.Inspector.UpdateAndSnapshot | internal/server/flow_inspector.go:156-283 | takes the poll into the right session, leaves every other unexpired session alone, and reports missing and foreign sessions |
| FlowSessions.Inspector.StartSession | internal/server/flow_inspector.go:120-139 | an empty session beside the unexpired ones |
| FlowSessions.Inspector.StopSession | internal/server/flow_inspector.go:141-154 | removes the session of the named VPN or reports why not |
| FlowSessions.Inspector.CleanupExpired | internal/server/flow_inspector.go:285-291 | keeps exactly the sessions touched within 30 minutes |
| FlowSessions.TakeSamples | internal/server/flow_inspector.go:172-224 | the loop leaves the session and the seen keys that the conservation results speak of: new flows start at zero, known ones grow by their counter's increase |
| FlowConservation.SampleCounts | internal/server/flow_inspector.go:185-224 | a sample adds the rise of its counter to the row and to the session, nothing if it fell, and becomes the new baseline; a new flow starts from zero |
| FlowSessions.DropIdle | internal/server/flow_inspector.go:226-236 | keeps exactly the rows seen in this poll or within the last 10 minutes |
| FlowConservation.Conservation | internal/server/flow_inspector.go:172-236 | over any polls the session total is the sum of live rows and dropped rows, if 64 bits hold it |
| FlowConservation.TotalsNeverDecrease | internal/server/flow_inspector.go:221-222 | session totals never decrease |
| FlowConservation.RowTotal | internal/server/flow_inspector.go:199-216 | a row's total is the sum of its counter's increases: last minus first sample if the counter never falls |
| FlowConservation.RetainedIsRecent | internal/server/flow_inspector.go:226-236 | after a poll exactly the rows seen within the idle window are left |
| DiscoveryCache.LoadIsLog | internal/routing/store_resolver.go:87-118 | a load returns exactly the rows last put within 24 hours and not cleared since |
| DiscoveryCache.PurgingIsUnobservable | internal/routing/store_resolver.go:78-84 | leaving out all purges changes no load |
| DiscoveryCache.Store.UpsertSnapshot | internal/routing/store_resolver.go:55-69 | puts exactly the snapshot's rows and purges, or changes nothing |
| DiscoveryCache.Store.ReplaceSnapshot | internal/routing/store_resolver.go:35-52 | clears, puts exactly the snapshot's rows and purges, or changes nothing |
| DiscoveryCache.StoredIsLoaded | internal/routing/store_resolver.go:55-118 | within 24 hours of storing a snapshot a load returns exactly it and what was fresh before |
| DiscoveryCache.ReplacedIsLoaded | internal/routing/store_resolver.go:35-118 | after a replacement exactly the snapshot |
| DiscoveryCache.Store.ClearCache | internal/routing/store_prewarm.go:26-29 | a committed clear: no row is left, or nothing changes |
| DiscoveryCache.Store.PurgeExpired | internal/routing/store_prewarm.go:32-38 | a committed purge drops exactly the rows older than 24 hours, or nothing changes |
| DiscoveryCache.Store.LoadSnapshot | internal/routing/store_prewarm.go:41-70 | lists exactly the fresh rows, by key and family, and no key without one |

## Left out

- HTTP handlers, event streaming, authentication, the user interface and all JavaScript.
- DNS, RIPE and crt.sh clients, speed tests, ping, systemd and the execution of commands: their results are inputs.
- dnsmasq configuration, which an apply writes between the sets and the rules.
- The text of iptables, ipset and `ip` listings and commands, and the parsing of addresses and prefixes: addresses, prefixes and sets are values.
- The aggregation of set entries: any function that keeps the covered addresses.
- Sorting and deduplication of set entries, and the 24-hour timeout of single entries.
- Quality of the FNV hash; names of different groups may coincide for the same rule index and kind.
- The stale generation, which may name destroyed sets: only chains that packets can reach are covered.
- An apply after a partly failed switch: the active generation is read from the mark roots alone. It is the one outcome after which RoutingManager.ApplyEach stops.
- More than 64 copies of one ip rule or link, which one pass does not remove.
- SQL text, JSON and the order of rows within a loaded list: stores are maps and sets.
- Gateway extraction from endpoints, warning and error texts, line numbers of parse errors.
- AmneziaWG and OpenVPN configurations, supporting files and unit files: their steps only may fail.
- A failed removal of a new profile's directory, which the program ignores.
- Retries, timeouts and error events of prewarm queries, and the normalization of discovered names: the outcome of a query is arbitrary.
- FlowSessions.Inspector.UpdateAndSnapshot: does not model rates, row order and descriptive fields, which carry no byte counts.
- Backup and restore, update status, release downloads and the statistics collector.
- FlowMatcher.CompileFlowRules: does not model the rewriting of MAC addresses by normalizeMAC, which leaves normalized rules alone, nor the domain hints, which matching does not use.
- RoutingPlan.DesiredDestinations: does not model the purge before the loop, which no load can observe, nor deduplication, which keeps the set of entries.
- SetStaging.ApplyDesiredSets: needs staging names apart from the desired names, which SetReferences.PlannedNamesAreApart proves of every plan.
