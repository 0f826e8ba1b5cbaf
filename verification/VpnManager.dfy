/** Creation, update and deletion of VPN profiles, with a failure at any checked step. */
module VpnManager {
  import opened Text
  import opened Allocation

  /**
    What a profile directory holds: the ROUTE_TABLE and MARK entries of its
    vpn.conf, and the table that its config file names (0 for none).
   */
  datatype Profile = Profile(table: Option<int>, mark: Option<int>, configTable: int)

  /** The config's table counts only while vpn.conf has none. */
  function RouteTable(p: Profile): int {
    if p.table.Some? then p.table.value else p.configTable
  }

  function FwMark(p: Profile): int {
    if p.mark.Some? then p.mark.value else 0
  }

  /** The checked steps that may fail, in the order of the code. */
  datatype Exit =
    | NoExit | NameExit | StatExit | ReadExit | ValidateExit | ConflictExit | SanitizeExit | UploadsExit
    | RequiredFilesExit | MakeDirExit | ChmodExit | SupportFilesExit | ConfigExit | ConfExit | UnitExit
    | RemoveExit | RereadExit

  /** The surroundings of one call: what the system mentions at each refresh, and the step that fails. */
  datatype Env = Env(live1: Live, live2: Live, exit: Exit)

  /** `parsedTable`: the table the new config names; `storedTable`: the one read back from the written file. */
  datatype Request = Request(parsedTable: int, storedTable: int)

  datatype State = State(tables: Pool, marks: Pool, profiles: map<string, Profile>)

  /** A value for the profile, what was newly reserved for it and what it replaces (0 for none). */
  datatype Choice = Choice(value: int, reserved: int, replaced: int)

  // ---- Specification --------------------------------------------------------

  function RefreshedState(s: State, live: Live): State {
    s.(tables := Refreshed(s.tables, live.tables), marks := Refreshed(s.marks, live.marks))
  }

  predicate KeepsTable(parsed: int, existing: Option<Profile>) {
    existing.Some? && (if parsed > 0 then parsed == RouteTable(existing.value) else RouteTable(existing.value) > 0)
  }

  function ReplacedTable(parsed: int, existing: Option<Profile>): int {
    if parsed > 0 && existing.Some? && RouteTable(existing.value) > 0 then RouteTable(existing.value) else 0
  }

  function TableWanted(p: Pool, parsed: int): Option<int> {
    if parsed <= 0 then FirstFree(p.used, MIN_VALUE, MAX_TABLE)
    else if Reservable(p, parsed) then Some(parsed)
    else None
  }

  function TableResolved(s: State, live: Live, parsed: int, existing: Option<Profile>): (State, Option<Choice>) {
    if KeepsTable(parsed, existing) then (s, Some(Choice(RouteTable(existing.value), 0, 0)))
    else
      var r := RefreshedState(s, live);
      var t := TableWanted(r.tables, parsed);
      (r.(tables := Take(r.tables, Got(t))),
       if t.None? then None else Some(Choice(t.value, t.value, ReplacedTable(parsed, existing))))
  }

  function MarkResolved(s: State, live: Live, existing: Option<Profile>): (State, Option<Choice>) {
    if existing.Some? && FwMark(existing.value) >= MIN_VALUE then (s, Some(Choice(FwMark(existing.value), 0, 0)))
    else
      var r := RefreshedState(s, live);
      var m := FirstFree(r.marks.used, MIN_VALUE, MAX_MARK);
      (r.(marks := Take(r.marks, Got(m))), if m.None? then None else Some(Choice(m.value, m.value, 0)))
  }

  function Dropped(s: State, table: int, mark: int): State {
    s.(tables := Drop(s.tables, table), marks := Drop(s.marks, mark))
  }

  datatype Plan = Plan(table: Choice, mark: Choice)

  /** Both choices, or none and nothing newly reserved. */
  function Planned(s: State, req: Request, existing: Option<Profile>, env: Env): (State, Option<Plan>) {
    if env.exit == ValidateExit then (s, None)
    else
      var (s1, t) := TableResolved(s, env.live1, req.parsedTable, existing);
      if t.None? then (s1, None)
      else
        var (s2, m) := MarkResolved(s1, env.live2, existing);
        if m.None? then (Dropped(s2, t.value.reserved, 0), None)
        else if env.exit in {ConflictExit, SanitizeExit} then
          (Dropped(s2, t.value.reserved, m.value.reserved), None)
        else (s2, Some(Plan(t.value, m.value)))
  }

  function Recorded(plan: Plan, req: Request): Profile {
    Profile(Some(plan.table.value), Some(plan.mark.value), req.storedTable)
  }

  function Created(s: State, name: string, req: Request, env: Env): (State, bool) {
    if env.exit in {NameExit, StatExit} || name in s.profiles then (s, false)
    else
      var (s1, plan) := Planned(s, req, None, env);
      if plan.None? then (s1, false)
      else if env.exit in {UploadsExit, RequiredFilesExit, MakeDirExit, ChmodExit, SupportFilesExit, ConfigExit, ConfExit, UnitExit} then
        (Dropped(s1, plan.value.table.reserved, plan.value.mark.reserved), false)
      else (s1.(profiles := s1.profiles[name := Recorded(plan.value, req)]), env.exit != RereadExit)
  }

  /** The rest of an update once its plan is made. */
  function Finished(s: State, name: string, req: Request, plan: Plan, exit: Exit): (State, bool)
    requires name in s.profiles
  {
    var d := Dropped(s, plan.table.reserved, plan.mark.reserved);
    if exit in {UploadsExit, RequiredFilesExit, SupportFilesExit, ConfigExit} then (d, false)
    else if exit == ConfExit then
      (d.(profiles := d.profiles[name := d.profiles[name].(configTable := req.storedTable)]), false)
    else
      var c := s.(profiles := s.profiles[name := Recorded(plan, req)]);
      (Dropped(c, plan.table.replaced, plan.mark.replaced), exit !in {UnitExit, RereadExit})
  }

  function Updated(s: State, name: string, req: Request, env: Env): (State, bool) {
    if env.exit in {NameExit, ReadExit} || name !in s.profiles then (s, false)
    else
      var (s1, plan) := Planned(s, req, Some(s.profiles[name]), env);
      if plan.None? then (s1, false) else Finished(s1, name, req, plan.value, env.exit)
  }

  function Deleted(s: State, name: string, env: Env): (State, bool) {
    if env.exit in {NameExit, ReadExit, UnitExit, RemoveExit} || name !in s.profiles then (s, false)
    else
      var p := s.profiles[name];
      (Dropped(s.(profiles := s.profiles - {name}), RouteTable(p), FwMark(p)), true)
  }

  lemma NothingDropped(s: State, table: int, mark: int)
    ensures table <= 0 && mark <= 0 ==> Dropped(s, table, mark) == s
  {
  }

  // ---- The manager ----------------------------------------------------------

  class Manager {
    const allocator: Allocator
    var profiles: map<string, Profile>

    constructor (allocator: Allocator, profiles: map<string, Profile>)
      ensures this.allocator == allocator && this.profiles == profiles
    {
      this.allocator, this.profiles := allocator, profiles;
    }

    function Current(): State
      reads this, allocator
    {
      State(allocator.Tables(), allocator.Marks(), profiles)
    }

    method ResolveRouteTable(live: Live, parsed: int, existing: Option<Profile>) returns (c: Option<Choice>)
      modifies allocator
      ensures (Current(), c) == TableResolved(old(Current()), live, parsed, existing)
    {
      if parsed > 0 {
        if existing.Some? && parsed == RouteTable(existing.value) {
          return Some(Choice(parsed, 0, 0));
        }
        var ok := allocator.Reserve(live, parsed, 0);
        if !ok {
          return None;
        }
        var release := 0;
        if existing.Some? && RouteTable(existing.value) > 0 {
          release := RouteTable(existing.value);
        }
        return Some(Choice(parsed, parsed, release));
      }
      if existing.Some? && RouteTable(existing.value) > 0 {
        return Some(Choice(RouteTable(existing.value), 0, 0));
      }
      var table := allocator.AllocateTable(live);
      return if table.None? then None else Some(Choice(table.value, table.value, 0));
    }

    method ResolveMark(live: Live, existing: Option<Profile>) returns (c: Option<Choice>)
      modifies allocator
      ensures (Current(), c) == MarkResolved(old(Current()), live, existing)
    {
      if existing.Some? && FwMark(existing.value) >= MIN_VALUE {
        return Some(Choice(FwMark(existing.value), 0, 0));
      }
      var mark := allocator.AllocateMark(live);
      return if mark.None? then None else Some(Choice(mark.value, mark.value, 0));
    }

    method PrepareProfile(req: Request, existing: Option<Profile>, env: Env) returns (plan: Option<Plan>)
      modifies allocator
      ensures (Current(), plan) == Planned(old(Current()), req, existing, env)
    {
      hide TableResolved, MarkResolved;
      if env.exit == ValidateExit {
        return None;
      }
      var table := ResolveRouteTable(env.live1, req.parsedTable, existing);
      if table.None? {
        return None;
      }
      var mark := ResolveMark(env.live2, existing);
      if mark.None? {
        if table.value.reserved > 0 {
          allocator.Release(table.value.reserved, 0);
        }
        return None;
      }
      if env.exit == ConflictExit {
        if table.value.reserved > 0 || mark.value.reserved > 0 {
          allocator.Release(table.value.reserved, mark.value.reserved);
        }
        return None;
      }
      if env.exit == SanitizeExit {
        if table.value.reserved > 0 || mark.value.reserved > 0 {
          allocator.Release(table.value.reserved, mark.value.reserved);
        }
        return None;
      }
      return Some(Plan(table.value, mark.value));
    }

    method Create(name: string, req: Request, env: Env) returns (ok: bool)
      modifies this, allocator
      ensures (Current(), ok) == Created(old(Current()), name, req, env)
    {
      hide Planned, Drop, Recorded;
      if env.exit == NameExit {
        return false;
      }
      if env.exit == StatExit || name in profiles {
        return false;
      }
      var plan := PrepareProfile(req, None, env);
      if plan.None? {
        return false;
      }
      var table, mark := plan.value.table.reserved, plan.value.mark.reserved;
      if env.exit == UploadsExit {
        allocator.Release(table, mark);
        return false;
      }
      if env.exit == RequiredFilesExit {
        allocator.Release(table, mark);
        return false;
      }
      if env.exit == MakeDirExit {
        allocator.Release(table, mark);
        return false;
      }
      if env.exit in {ChmodExit, SupportFilesExit, ConfigExit, ConfExit} {
        allocator.Release(table, mark);
        profiles := profiles - {name};
        assert profiles == old(profiles);
        return false;
      }
      profiles := profiles[name := Recorded(plan.value, req)];
      if env.exit == UnitExit {
        allocator.Release(table, mark);
        profiles := profiles - {name};
        assert profiles == old(profiles);
        return false;
      }
      return env.exit != RereadExit;
    }

    method Update(name: string, req: Request, env: Env) returns (ok: bool)
      modifies this, allocator
      ensures (Current(), ok) == Updated(old(Current()), name, req, env)
    {
      hide Planned, Drop, Recorded;
      if env.exit == NameExit {
        return false;
      }
      if env.exit == ReadExit || name !in profiles {
        return false;
      }
      var existing := profiles[name];
      var plan := PrepareProfile(req, Some(existing), env);
      if plan.None? {
        return false;
      }
      var table, mark := plan.value.table, plan.value.mark;
      if env.exit in {UploadsExit, RequiredFilesExit, SupportFilesExit, ConfigExit} {
        allocator.Release(table.reserved, mark.reserved);
        return false;
      }
      profiles := profiles[name := existing.(configTable := req.storedTable)];
      if env.exit == ConfExit {
        allocator.Release(table.reserved, mark.reserved);
        return false;
      }
      profiles := profiles[name := Recorded(plan.value, req)];
      assert profiles == old(profiles)[name := Recorded(plan.value, req)];
      NothingDropped(Current(), table.replaced, mark.replaced);
      if env.exit == UnitExit {
        if table.replaced > 0 || mark.replaced > 0 {
          allocator.Release(table.replaced, mark.replaced);
        }
        return false;
      }
      if table.replaced > 0 || mark.replaced > 0 {
        allocator.Release(table.replaced, mark.replaced);
      }
      return env.exit != RereadExit;
    }

    method Delete(name: string, env: Env) returns (ok: bool)
      modifies this, allocator
      ensures (Current(), ok) == Deleted(old(Current()), name, env)
    {
      if env.exit in {NameExit, ReadExit} || name !in profiles {
        return false;
      }
      var profile := profiles[name];
      if env.exit == UnitExit {
        return false;
      }
      if env.exit == RemoveExit {
        return false;
      }
      profiles := profiles - {name};
      allocator.Release(RouteTable(profile), FwMark(profile));
      return true;
    }
  }

  // ---- Accounting over all histories ----------------------------------------

  datatype Op = CreateOp(name: string, req: Request, env: Env) | UpdateOp(name: string, req: Request, env: Env) | DeleteOp(name: string, env: Env)

  function Performed(s: State, op: Op): (State, bool) {
    match op
    case CreateOp(name, req, env) => Created(s, name, req, env)
    case UpdateOp(name, req, env) => Updated(s, name, req, env)
    case DeleteOp(name, env) => Deleted(s, name, env)
  }

  function After(s: State, ops: seq<Op>): State {
    if ops == [] then s else Performed(After(s, ops[..|ops| - 1]), ops[|ops| - 1]).0
  }

  predicate Holds(v: Option<int>) {
    v.Some? && v.value >= MIN_VALUE
  }

  function HeldTables(ps: map<string, Profile>): map<string, int> {
    map n | n in ps && Holds(ps[n].table) :: ps[n].table.value
  }

  function HeldMarks(ps: map<string, Profile>): map<string, int> {
    map n | n in ps && Holds(ps[n].mark) :: ps[n].mark.value
  }

  /**
    The tables in use are the sticky ones and those of at least 200 that the
    profiles' vpn.conf files record; likewise the marks; nothing is recorded twice.
   */
  ghost predicate Accounted(s: State) {
    Accounts(s.tables, HeldTables(s.profiles), {}) && Accounts(s.marks, HeldMarks(s.profiles), {})
  }

  predicate TablesRecorded(ps: map<string, Profile>) {
    forall n :: n in ps ==> ps[n].table.Some?
  }

  function Pending(v: int): set<int> {
    if v > 0 then {v} else {}
  }

  lemma DropOutside(p: Pool, held: map<string, int>, v: int)
    requires Accounts(p, held, {}) && v < MIN_VALUE
    ensures Accounts(Drop(p, v), held, {})
  {
  }

  lemma TableResolvedAccounts(s: State, live: Live, parsed: int, existing: Option<Profile>)
    requires Accounted(s)
    ensures
      var (s', c) := TableResolved(s, live, parsed, existing);
      && s'.profiles == s.profiles
      && Accounts(s'.tables, HeldTables(s.profiles), Pending(if c.Some? then c.value.reserved else 0))
      && Accounts(s'.marks, HeldMarks(s.profiles), {})
      && (c.Some? && c.value.reserved > 0 ==> c.value.value == c.value.reserved >= MIN_VALUE)
  {
    hide HeldTables, HeldMarks, Accounts, Usable;
    if !KeepsTable(parsed, existing) {
      RefreshAccounts(s.tables, HeldTables(s.profiles), {}, live.tables);
      RefreshAccounts(s.marks, HeldMarks(s.profiles), {}, live.marks);
      var r := RefreshedState(s, live);
      var v := Got(TableWanted(r.tables, parsed));
      TakeAccounts(r.tables, HeldTables(s.profiles), {}, v);
      assert {} + {v} == {v};
    }
  }

  lemma MarkResolvedAccounts(s: State, live: Live, existing: Option<Profile>, pending: set<int>)
    requires Accounts(s.tables, HeldTables(s.profiles), pending) && Accounts(s.marks, HeldMarks(s.profiles), {})
    ensures
      var (s', c) := MarkResolved(s, live, existing);
      && s'.profiles == s.profiles
      && Accounts(s'.tables, HeldTables(s.profiles), pending)
      && Accounts(s'.marks, HeldMarks(s.profiles), Pending(if c.Some? then c.value.reserved else 0))
      && (c.Some? && c.value.reserved > 0 ==> c.value.value == c.value.reserved >= MIN_VALUE)
  {
    hide HeldTables, HeldMarks, Accounts, Usable;
    if !(existing.Some? && FwMark(existing.value) >= MIN_VALUE) {
      RefreshAccounts(s.tables, HeldTables(s.profiles), pending, live.tables);
      RefreshAccounts(s.marks, HeldMarks(s.profiles), {}, live.marks);
      var r := RefreshedState(s, live);
      var v := Got(FirstFree(r.marks.used, MIN_VALUE, MAX_MARK));
      TakeAccounts(r.marks, HeldMarks(s.profiles), {}, v);
      assert {} + {v} == {v};
    }
  }

  /** A plan leaves exactly its own reservations pending; giving up leaves none. */
  lemma PlannedAccounts(s: State, req: Request, existing: Option<Profile>, env: Env)
    requires Accounted(s)
    ensures
      var (s', plan) := Planned(s, req, existing, env);
      && s'.profiles == s.profiles
      && Accounts(s'.tables, HeldTables(s.profiles), Pending(if plan.Some? then plan.value.table.reserved else 0))
      && Accounts(s'.marks, HeldMarks(s.profiles), Pending(if plan.Some? then plan.value.mark.reserved else 0))
      && (plan.Some? && plan.value.table.reserved > 0 ==> plan.value.table.value == plan.value.table.reserved >= MIN_VALUE)
      && (plan.Some? && plan.value.mark.reserved > 0 ==> plan.value.mark.value == plan.value.mark.reserved >= MIN_VALUE)
  {
    if env.exit != ValidateExit {
      hide Accounts, HeldTables, HeldMarks, TableResolved, MarkResolved;
      TableResolvedAccounts(s, env.live1, req.parsedTable, existing);
      var (s1, t) := TableResolved(s, env.live1, req.parsedTable, existing);
      if t.Some? {
        MarkResolvedAccounts(s1, env.live2, existing, Pending(t.value.reserved));
        var (s2, m) := MarkResolved(s1, env.live2, existing);
        DropPendingAccounts(s2.tables, HeldTables(s.profiles), t.value.reserved);
        if m.Some? {
          DropPendingAccounts(s2.marks, HeldMarks(s.profiles), m.value.reserved);
        }
      }
    }
  }

  lemma HeldAfterRecording(ps: map<string, Profile>, name: string, p: Profile)
    ensures HeldTables(ps[name := p]) == if Holds(p.table) then HeldTables(ps)[name := p.table.value] else HeldTables(ps) - {name}
    ensures HeldMarks(ps[name := p]) == if Holds(p.mark) then HeldMarks(ps)[name := p.mark.value] else HeldMarks(ps) - {name}
  {
  }

  lemma HeldAfterRemoval(ps: map<string, Profile>, name: string)
    ensures HeldTables(ps - {name}) == HeldTables(ps) - {name}
    ensures HeldMarks(ps - {name}) == HeldMarks(ps) - {name}
  {
  }

  /** A choice fits what the profile recorded before: it keeps the value, or it reserved a new one. */
  predicate Fits(c: Choice, entry: Option<int>) {
    if c.reserved > 0 then
      && c.value == c.reserved >= MIN_VALUE
      && (if Holds(entry) then c.replaced == entry.value else c.replaced < MIN_VALUE)
    else entry == Some(c.value) && c.replaced == 0
  }

  function TableEntry(existing: Option<Profile>): Option<int> {
    if existing.Some? then existing.value.table else None
  }

  function MarkEntry(existing: Option<Profile>): Option<int> {
    if existing.Some? then existing.value.mark else None
  }

  lemma PlanFits(s: State, req: Request, existing: Option<Profile>, env: Env)
    requires existing.Some? ==> existing.value.table.Some?
    ensures
      var plan := Planned(s, req, existing, env).1;
      plan.Some? ==>
        && Fits(plan.value.table, TableEntry(existing)) && Fits(plan.value.mark, MarkEntry(existing))
        && (existing.None? ==> plan.value.table.replaced == 0 && plan.value.mark.replaced == 0)
  {
    hide RefreshedState, Take, Drop;
  }

  /** The choice is recorded and what it replaces is released. */
  lemma SettleAccounts(p: Pool, held: map<string, int>, name: string, c: Choice, entry: Option<int>)
    requires Accounts(p, held, Pending(c.reserved)) && Fits(c, entry)
    requires if Holds(entry) then name in held && held[name] == entry.value else name !in held
    ensures Accounts(Drop(p, c.replaced), if c.value >= MIN_VALUE then held[name := c.value] else held - {name}, {})
  {
    if c.reserved > 0 {
      CommitAccounts(p, held, name, c.value);
      if Holds(entry) {
        DropPendingAccounts(p, held[name := c.value], c.replaced);
      } else {
        DropOutside(p, held[name := c.value], c.replaced);
      }
    } else if c.value >= MIN_VALUE {
      assert held[name := c.value] == held;
    } else {
      assert held - {name} == held;
    }
  }

  lemma CommitKeepsAccounts(s: State, name: string, plan: Plan, req: Request, existing: Option<Profile>)
    requires Accounts(s.tables, HeldTables(s.profiles), Pending(plan.table.reserved))
    requires Accounts(s.marks, HeldMarks(s.profiles), Pending(plan.mark.reserved))
    requires existing == if name in s.profiles then Some(s.profiles[name]) else None
    requires Fits(plan.table, TableEntry(existing)) && Fits(plan.mark, MarkEntry(existing))
    ensures Accounted(Dropped(s.(profiles := s.profiles[name := Recorded(plan, req)]), plan.table.replaced, plan.mark.replaced))
  {
    var p := Recorded(plan, req);
    HeldAfterRecording(s.profiles, name, p);
    SettleAccounts(s.tables, HeldTables(s.profiles), name, plan.table, TableEntry(existing));
    SettleAccounts(s.marks, HeldMarks(s.profiles), name, plan.mark, MarkEntry(existing));
    hide Accounts, HeldTables, HeldMarks, Fits, Drop;
  }

  lemma AbortKeepsAccounts(s: State, plan: Plan)
    requires Accounts(s.tables, HeldTables(s.profiles), Pending(plan.table.reserved))
    requires Accounts(s.marks, HeldMarks(s.profiles), Pending(plan.mark.reserved))
    ensures Accounted(Dropped(s, plan.table.reserved, plan.mark.reserved))
  {
    hide Accounts, HeldTables, HeldMarks, Drop;
    DropPendingAccounts(s.tables, HeldTables(s.profiles), plan.table.reserved);
    DropPendingAccounts(s.marks, HeldMarks(s.profiles), plan.mark.reserved);
  }

  /** Accounting together with a ROUTE_TABLE entry in every vpn.conf. */
  ghost predicate Sound(s: State) {
    Accounted(s) && TablesRecorded(s.profiles)
  }

  lemma CreateKeepsSound(s: State, name: string, req: Request, env: Env)
    requires Sound(s)
    ensures Sound(Created(s, name, req, env).0)
  {
    if !(env.exit in {NameExit, StatExit} || name in s.profiles) {
      PlannedAccounts(s, req, None, env);
      PlanFits(s, req, None, env);
      var (s1, plan) := Planned(s, req, None, env);
      hide Planned, Accounts, Fits, Drop, HeldTables, HeldMarks;
      if plan.Some? {
        AbortKeepsAccounts(s1, plan.value);
        CommitKeepsAccounts(s1, name, plan.value, req, None);
        NothingDropped(s1.(profiles := s1.profiles[name := Recorded(plan.value, req)]), plan.value.table.replaced, plan.value.mark.replaced);
      }
    }
  }

  lemma ConfigOnlyHeld(ps: map<string, Profile>, name: string, table: int)
    requires name in ps
    ensures HeldTables(ps[name := ps[name].(configTable := table)]) == HeldTables(ps)
    ensures HeldMarks(ps[name := ps[name].(configTable := table)]) == HeldMarks(ps)
  {
  }

  lemma FinishedKeepsSound(s: State, name: string, req: Request, plan: Plan, exit: Exit)
    requires name in s.profiles && TablesRecorded(s.profiles)
    requires Accounts(s.tables, HeldTables(s.profiles), Pending(plan.table.reserved))
    requires Accounts(s.marks, HeldMarks(s.profiles), Pending(plan.mark.reserved))
    requires Fits(plan.table, TableEntry(Some(s.profiles[name]))) && Fits(plan.mark, MarkEntry(Some(s.profiles[name])))
    ensures Sound(Finished(s, name, req, plan, exit).0)
  {
    hide Accounts, Fits, Drop, HeldTables, HeldMarks;
    AbortKeepsAccounts(s, plan);
    CommitKeepsAccounts(s, name, plan, req, Some(s.profiles[name]));
    ConfigOnlyHeld(s.profiles, name, req.storedTable);
  }

  lemma UpdateKeepsSound(s: State, name: string, req: Request, env: Env)
    requires Sound(s)
    ensures Sound(Updated(s, name, req, env).0)
  {
    if !(env.exit in {NameExit, ReadExit} || name !in s.profiles) {
      var existing := Some(s.profiles[name]);
      PlannedAccounts(s, req, existing, env);
      PlanFits(s, req, existing, env);
      var (s1, plan) := Planned(s, req, existing, env);
      hide Planned, Accounts, Fits, Finished, HeldTables, HeldMarks;
      if plan.Some? {
        FinishedKeepsSound(s1, name, req, plan.value, env.exit);
      }
    }
  }

  lemma DropHeldAccounts(p: Pool, held: map<string, int>, name: string, entry: Option<int>, v: int)
    requires Accounts(p, held, {})
    requires if Holds(entry) then name in held && held[name] == entry.value == v else name !in held && v < MIN_VALUE
    ensures Accounts(Drop(p, v), held - {name}, {})
  {
    if Holds(entry) {
      LeaveAccounts(p, held, name);
    } else {
      DropOutside(p, held, v);
      assert held - {name} == held;
    }
  }

  lemma DeleteKeepsSound(s: State, name: string, env: Env)
    requires Sound(s)
    ensures Sound(Deleted(s, name, env).0)
  {
    if !(env.exit in {NameExit, ReadExit, UnitExit, RemoveExit} || name !in s.profiles) {
      var p := s.profiles[name];
      HeldAfterRemoval(s.profiles, name);
      DropHeldAccounts(s.tables, HeldTables(s.profiles), name, p.table, RouteTable(p));
      DropHeldAccounts(s.marks, HeldMarks(s.profiles), name, p.mark, FwMark(p));
      hide Accounts, Drop;
    }
  }

  /** Every history of operations, each failing wherever it may, keeps the books. */
  lemma {:induction false} HistoryKeepsSound(s: State, ops: seq<Op>)
    requires Sound(s)
    ensures Sound(After(s, ops))
  {
    hide Sound, Created, Updated, Deleted;
    if ops != [] {
      HistoryKeepsSound(s, ops[..|ops| - 1]);
      var s1 := After(s, ops[..|ops| - 1]);
      match ops[|ops| - 1]
      case CreateOp(name, req, env) => CreateKeepsSound(s1, name, req, env);
      case UpdateOp(name, req, env) => UpdateKeepsSound(s1, name, req, env);
      case DeleteOp(name, env) => DeleteKeepsSound(s1, name, env);
    }
  }

  /** No two profiles ever share a table or a mark. */
  lemma NoSharing(s: State, ops: seq<Op>, m: string, n: string)
    requires Sound(s) && m in After(s, ops).profiles && n in After(s, ops).profiles && m != n
    ensures
      var ps := After(s, ops).profiles;
      && (Holds(ps[m].table) ==> ps[m].table != ps[n].table)
      && (Holds(ps[m].mark) ==> ps[m].mark != ps[n].mark)
  {
    HistoryKeepsSound(s, ops);
    var ps := After(s, ops).profiles;
    hide After;
    assert Holds(ps[m].table) && Holds(ps[n].table) ==> HeldTables(ps)[m] != HeldTables(ps)[n];
    assert Holds(ps[m].mark) && Holds(ps[n].mark) ==> HeldMarks(ps)[m] != HeldMarks(ps)[n];
  }

  lemma StickyGrows(s: State, op: Op)
    ensures s.tables.sticky <= Performed(s, op).0.tables.sticky
    ensures s.marks.sticky <= Performed(s, op).0.marks.sticky
  {
    hide FirstFree, Recorded, Usable;
    forall req, existing, env
      ensures s.tables.sticky <= Planned(s, req, existing, env).0.tables.sticky
      ensures s.marks.sticky <= Planned(s, req, existing, env).0.marks.sticky
    {
    }
    hide Planned;
  }

  /** An operation that leaves the profiles as they were frees nothing and keeps nothing. */
  lemma FailureLeaksNothing(s: State, op: Op)
    requires Sound(s) && Performed(s, op).0.profiles == s.profiles
    ensures
      var s' := Performed(s, op).0;
      && s'.tables.used == s.tables.used + s'.tables.sticky
      && s'.marks.used == s.marks.used + s'.marks.sticky
  {
    assert After(s, [op]) == Performed(s, op).0;
    HistoryKeepsSound(s, [op]);
    StickyGrows(s, op);
  }

  // ---- Startup --------------------------------------------------------------

  function RecordedTables(ps: map<string, Profile>): set<int> {
    set n | n in ps && ps[n].table.Some? :: ps[n].table.value
  }

  function RecordedMarks(ps: map<string, Profile>): set<int> {
    set n | n in ps && ps[n].mark.Some? :: ps[n].mark.value
  }

  function StartPool(live: set<int>, recorded: set<int>, external: set<int>): Pool {
    Pool(Usable(live + recorded + external), Usable(live + external))
  }

  function Started(live: Live, external: Live, ps: map<string, Profile>): State {
    State(StartPool(live.tables, RecordedTables(ps), external.tables), StartPool(live.marks, RecordedMarks(ps), external.marks), ps)
  }

  /** The manager at program start, with an allocator seeded from the system and from all recorded profiles. */
  method StartManager(live: Live, external: Live, ps: map<string, Profile>) returns (m: Manager)
    ensures m.Current() == Started(live, external, ps)
  {
    var allocator := new Allocator(live, Live(RecordedTables(ps), RecordedMarks(ps)), external);
    m := new Manager(allocator, ps);
  }

  /** No two profiles record the same table or mark of at least 200. */
  predicate NothingTwice(ps: map<string, Profile>) {
    forall m, n :: m in ps && n in ps && m != n ==>
      && (Holds(ps[m].table) ==> ps[m].table != ps[n].table)
      && (Holds(ps[m].mark) ==> ps[m].mark != ps[n].mark)
  }

  predicate Injective(held: map<string, int>) {
    forall m, n :: m in held && n in held && held[m] == held[n] ==> m == n
  }

  lemma StartPoolAccounts(live: set<int>, recorded: set<int>, external: set<int>, held: map<string, int>)
    requires Usable(recorded) == held.Values
    ensures Accounts(StartPool(live, recorded, external), held, {}) <==> Injective(held)
  {
    var p := StartPool(live, recorded, external);
    assert p.used == p.sticky + held.Values + {};
    forall n | n in held ensures held[n] >= MIN_VALUE {
      assert held[n] in held.Values;
    }
  }

  lemma HeldAreRecorded(ps: map<string, Profile>)
    ensures Usable(RecordedTables(ps)) == HeldTables(ps).Values && Usable(RecordedMarks(ps)) == HeldMarks(ps).Values
  {
    forall v | v in Usable(RecordedTables(ps)) ensures v in HeldTables(ps).Values {
      var n :| n in ps && ps[n].table == Some(v);
      assert HeldTables(ps)[n] == v;
    }
    forall v | v in Usable(RecordedMarks(ps)) ensures v in HeldMarks(ps).Values {
      var n :| n in ps && ps[n].mark == Some(v);
      assert HeldMarks(ps)[n] == v;
    }
  }

  lemma NothingTwiceIsInjective(ps: map<string, Profile>)
    ensures NothingTwice(ps) <==> Injective(HeldTables(ps)) && Injective(HeldMarks(ps))
  {
    var t, k := HeldTables(ps), HeldMarks(ps);
    if Injective(t) && Injective(k) {
      forall m, n | m in ps && n in ps && m != n
        ensures (Holds(ps[m].table) ==> ps[m].table != ps[n].table) && (Holds(ps[m].mark) ==> ps[m].mark != ps[n].mark)
      {
        assert Holds(ps[m].table) && Holds(ps[n].table) ==> t[m] != t[n];
        assert Holds(ps[m].mark) && Holds(ps[n].mark) ==> k[m] != k[n];
      }
    }
  }

  /** At program start the books are right exactly when nothing is recorded twice. */
  lemma StartIsAccountedIff(live: Live, external: Live, ps: map<string, Profile>)
    ensures Accounted(Started(live, external, ps)) <==> NothingTwice(ps)
  {
    hide Accounts, Injective, NothingTwice, StartPool, HeldTables, HeldMarks, Usable, RecordedTables, RecordedMarks;
    HeldAreRecorded(ps);
    NothingTwiceIsInjective(ps);
    StartPoolAccounts(live.tables, RecordedTables(ps), external.tables, HeldTables(ps));
    StartPoolAccounts(live.marks, RecordedMarks(ps), external.marks, HeldMarks(ps));
  }

  /** From program start on, every history keeps the books if the files on disk record every table once. */
  lemma HistoryFromStart(live: Live, external: Live, ps: map<string, Profile>, ops: seq<Op>)
    requires NothingTwice(ps) && TablesRecorded(ps)
    ensures Sound(After(Started(live, external, ps), ops))
  {
    hide Accounted, NothingTwice, After;
    StartIsAccountedIff(live, external, ps);
    HistoryKeepsSound(Started(live, external, ps), ops);
  }

  // ---- A vpn.conf without ROUTE_TABLE ---------------------------------------

  const QUIET := Env(Live({}, {}), Live({}, {}), NoExit)

  /** Tables have no upper bound when they are requested, so some is always free. */
  lemma {:induction false} FreeTable(used: set<int>) returns (t: int)
    ensures t >= MIN_VALUE && t !in used && forall u :: u in used ==> u < t
  {
    t := MIN_VALUE;
    if u :| u in used {
      var t' := FreeTable(used - {u});
      t := if u >= t' then u + 1 else t';
      assert forall v :: v in used ==> v == u || v in used - {u};
    }
  }

  predicate MarkAvailable(s: State, p: Profile) {
    FwMark(p) >= MIN_VALUE || FirstFree(s.marks.used, MIN_VALUE, MAX_MARK).Some?
  }

  /** The config is written, vpn.conf is not; the same update again, undisturbed. */
  function HalfThenWhole(name: string, t: int): seq<Op> {
    [UpdateOp(name, Request(t, t), QUIET.(exit := ConfExit)), UpdateOp(name, Request(t, t), QUIET)]
  }

  lemma QuietRefresh(s: State)
    ensures RefreshedState(s, Live({}, {})) == s
  {
    assert Usable({}) == {};
    assert Refreshed(s.tables, {}) == s.tables;
    assert Refreshed(s.marks, {}) == s.marks;
  }

  lemma HalfUpdate(s: State, name: string, t: int)
    requires name in s.profiles && s.profiles[name].table.None? && s.profiles[name].configTable != t
    requires t >= MIN_VALUE && t !in s.tables.used && s.tables.sticky <= s.tables.used && MarkAvailable(s, s.profiles[name])
    requires s.marks.sticky <= s.marks.used
    ensures
      var s' := Updated(s, name, Request(t, t), QUIET.(exit := ConfExit)).0;
      s' == s.(profiles := s.profiles[name := s.profiles[name].(configTable := t)])
  {
    QuietRefresh(s);
    QuietRefresh(s.(tables := Take(s.tables, t)));
    assert Drop(Take(s.tables, t), t) == s.tables;
    var m := Got(FirstFree(s.marks.used, MIN_VALUE, MAX_MARK));
    assert Drop(Take(s.marks, m), m) == s.marks;
    hide RefreshedState, Take, Drop;
  }

  /** The second update takes the config's table for the profile's own and reserves nothing. */
  lemma WholeUpdate(s: State, name: string, t: int)
    requires name in s.profiles && s.profiles[name].table.None? && s.profiles[name].configTable == t
    requires t >= MIN_VALUE && t !in s.tables.used && MarkAvailable(s, s.profiles[name])
    ensures
      var s' := Updated(s, name, Request(t, t), QUIET).0;
      && s'.tables == s.tables && s'.profiles.Keys == s.profiles.Keys && s'.profiles[name].table == Some(t)
      && (FwMark(s.profiles[name]) >= MIN_VALUE ==> s'.marks == s.marks)
  {
    QuietRefresh(s);
    hide RefreshedState, Take;
  }

  lemma UnreservedIsWrong(s: State, name: string)
    requires name in s.profiles && Holds(s.profiles[name].table) && s.profiles[name].table.value !in s.tables.used
    ensures !Accounted(s)
  {
    assert HeldTables(s.profiles)[name] in HeldTables(s.profiles).Values;
  }

  lemma StickyIsUsed(s: State)
    requires Accounted(s)
    ensures s.tables.sticky <= s.tables.used && s.marks.sticky <= s.marks.used
  {
  }

  /** A table no one reserved, recorded after the config was written once without vpn.conf. */
  lemma UnreservedTable(s: State, name: string) returns (ops: seq<Op>, t: int)
    requires Accounted(s) && name in s.profiles && s.profiles[name].table.None? && MarkAvailable(s, s.profiles[name])
    ensures
      var s' := After(s, ops);
      && t >= MIN_VALUE && t !in s'.tables.used
      && s'.profiles.Keys == s.profiles.Keys && s'.profiles[name].table == Some(t)
      && (FwMark(s.profiles[name]) >= MIN_VALUE ==> s'.marks == s.marks)
  {
    t := FreeTable(s.tables.used + {s.profiles[name].configTable});
    ops := HalfThenWhole(name, t);
    StickyIsUsed(s);
    hide Accounted, FirstFree;
    assert s.profiles[name].configTable in s.tables.used + {s.profiles[name].configTable};
    HalfUpdate(s, name, t);
    WholeUpdate(Updated(s, name, Request(t, t), QUIET.(exit := ConfExit)).0, name, t);
    hide Updated;
    AfterTwo(s, ops[0], ops[1]);
  }

  lemma UnrecordedTableBreaks(s: State, name: string)
    requires Accounted(s) && name in s.profiles && s.profiles[name].table.None? && MarkAvailable(s, s.profiles[name])
    ensures exists ops :: !Accounted(After(s, ops))
  {
    hide Accounted, MarkAvailable, After;
    var ops, t := UnreservedTable(s, name);
    UnreservedIsWrong(After(s, ops), name);
  }

  lemma CreateTakes(s: State, name: string, t: int)
    requires name !in s.profiles && t >= MIN_VALUE && t !in s.tables.used
    requires FirstFree(s.marks.used, MIN_VALUE, MAX_MARK).Some?
    ensures
      var s' := Created(s, name, Request(t, t), QUIET).0;
      s'.profiles == s.profiles[name := Profile(Some(t), FirstFree(s.marks.used, MIN_VALUE, MAX_MARK), t)]
  {
    QuietRefresh(s);
    QuietRefresh(s.(tables := Take(s.tables, t)));
    hide RefreshedState, Take;
  }

  lemma AfterTwo(s: State, a: Op, b: Op)
    ensures After(s, [a, b]) == Performed(Performed(s, a).0, b).0
  {
    assert [a, b][..1] == [a];
    assert [a][..0] == [];
    assert After(s, [a]) == Performed(s, a).0;
  }

  /**
    The books stay right over every history exactly when every profile's vpn.conf
    records a table (a profile with no usable mark must be able to get one).
   */
  lemma AccountingIsExact(s: State)
    requires Accounted(s) && forall n :: n in s.profiles ==> MarkAvailable(s, s.profiles[n])
    ensures (forall ops :: Accounted(After(s, ops))) <==> TablesRecorded(s.profiles)
  {
    hide Accounted, MarkAvailable;
    if TablesRecorded(s.profiles) {
      forall ops ensures Accounted(After(s, ops)) {
        HistoryKeepsSound(s, ops);
      }
    } else {
      var n :| n in s.profiles && s.profiles[n].table.None?;
      UnrecordedTableBreaks(s, n);
    }
  }

  /** From any such state, a second profile can be created on the first one's table. */
  lemma UnrecordedTableIsShared(s: State, a: string, b: string)
    requires Accounted(s) && a in s.profiles && b !in s.profiles
    requires s.profiles[a].table.None? && FwMark(s.profiles[a]) >= MIN_VALUE
    requires FirstFree(s.marks.used, MIN_VALUE, MAX_MARK).Some?
    ensures exists ops ::
      var ps := After(s, ops).profiles;
      a in ps && b in ps && Holds(ps[a].table) && ps[a].table == ps[b].table
  {
    hide Accounted, FirstFree, Created, Updated;
    var ops, t := UnreservedTable(s, a);
    var create := CreateOp(b, Request(t, t), QUIET);
    CreateTakes(After(s, ops), b, t);
    assert (ops + [create])[..|ops|] == ops;
    var ps := After(s, ops + [create]).profiles;
    assert a in ps && b in ps && Holds(ps[a].table) && ps[a].table == ps[b].table;
  }
}
