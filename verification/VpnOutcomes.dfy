/**
  What a caller of the VPN manager gets: when creating, updating and deleting a profile
  succeeds, what is then recorded, and which tables and marks are free afterwards.
 */
module VpnOutcomes {
  import opened Text
  import opened Allocation
  import opened VpnManager

  /** Neither in use nor mentioned by the system. */
  predicate Free(used: set<int>, live: set<int>, v: int) {
    v >= MIN_VALUE && v !in used && v !in live
  }

  /** The smallest free value up to a limit. */
  ghost predicate LeastFree(used: set<int>, live: set<int>, high: int, v: int) {
    Free(used, live, v) && v <= high && forall u :: u < v ==> !Free(used, live, u)
  }

  lemma FirstFreeIsLeast(used: set<int>, live: set<int>, high: int)
    ensures var r := FirstFree(used + Usable(live), MIN_VALUE, high);
      && (r.Some? ==> LeastFree(used, live, high, r.value))
      && (r.None? ==> forall v :: !LeastFree(used, live, high, v))
  {
    var r := FirstFree(used + Usable(live), MIN_VALUE, high);
    assert IsFirstFree(used + Usable(live), MIN_VALUE, high, r);
    assert forall v :: Free(used, live, v) <==> v >= MIN_VALUE && v !in used + Usable(live);
  }

  // ---- Deleting -------------------------------------------------------------

  /** The pool without one value, unless only the system may give it up. */
  ghost predicate Without(before: Pool, after: Pool, v: int) {
    after.sticky == before.sticky
    && forall u :: u in after.used <==> u in before.used && (u == v ==> u <= 0 || u in before.sticky)
  }

  /** Deleting succeeds iff the profile is there and no step fails; then it is gone and its values are free. */
  lemma DeleteOutcome(s: State, name: string, env: Env)
    ensures var (s', ok) := Deleted(s, name, env);
      && (ok <==> name in s.profiles && env.exit !in {NameExit, ReadExit, UnitExit, RemoveExit})
      && (!ok ==> s' == s)
      && (ok ==> s'.profiles == s.profiles - {name})
      && (ok ==> Without(s.tables, s'.tables, RouteTable(s.profiles[name])) && Without(s.marks, s'.marks, FwMark(s.profiles[name])))
  {
  }

  // ---- Choosing a table and a mark ------------------------------------------

  /** The profile stays on its table: it has one, and the request asks for no other. */
  predicate StaysOn(asked: int, existing: Option<Profile>) {
    existing.Some? && RouteTable(existing.value) > 0 && (asked <= 0 || asked == RouteTable(existing.value))
  }

  /** The table a request gets: the one the profile has, else the one asked for, else the smallest free one. */
  ghost predicate TableFor(used: set<int>, live: set<int>, asked: int, existing: Option<Profile>, t: int) {
    if StaysOn(asked, existing) then t == RouteTable(existing.value)
    else if asked > 0 then t == asked && Free(used, live, t)
    else LeastFree(used, live, MAX_TABLE, t)
  }

  /** What is known to be in use when the mark is chosen. */
  function LiveMarks(asked: int, existing: Option<Profile>, env: Env): set<int> {
    (if StaysOn(asked, existing) then {} else env.live1.marks) + env.live2.marks
  }

  /** The mark a request gets: the one the profile has, else the smallest free one. */
  ghost predicate MarkFor(used: set<int>, live: set<int>, existing: Option<Profile>, m: int) {
    if existing.Some? && FwMark(existing.value) >= MIN_VALUE then m == FwMark(existing.value)
    else LeastFree(used, live, MAX_MARK, m)
  }

  lemma TableOutcome(s: State, live: Live, asked: int, existing: Option<Profile>)
    ensures var (s', c) := TableResolved(s, live, asked, existing);
      && s'.profiles == s.profiles && s'.marks == (if StaysOn(asked, existing) then s.marks else Refreshed(s.marks, live.marks))
      && (c.Some? ==> TableFor(s.tables.used, live.tables, asked, existing, c.value.value))
      && (c.None? ==> forall t :: !TableFor(s.tables.used, live.tables, asked, existing, t))
  {
    FirstFreeIsLeast(s.tables.used, live.tables, MAX_TABLE);
    hide FirstFree, LeastFree;
  }

  lemma MarkOutcome(s: State, live: Live, existing: Option<Profile>, used: set<int>, seen: set<int>)
    requires s.marks.used == used + Usable(seen)
    ensures var (s', c) := MarkResolved(s, live, existing);
      && s'.profiles == s.profiles
      && (c.Some? ==> MarkFor(used, seen + live.marks, existing, c.value.value))
      && (c.None? ==> forall m :: !MarkFor(used, seen + live.marks, existing, m))
  {
    FirstFreeIsLeast(used, seen + live.marks, MAX_MARK);
    assert used + Usable(seen) + Usable(live.marks) == used + Usable(seen + live.marks);
    hide FirstFree, LeastFree;
  }

  /** Both values can be had. */
  ghost predicate Available(s: State, req: Request, existing: Option<Profile>, env: Env) {
    && (exists t :: TableFor(s.tables.used, env.live1.tables, req.parsedTable, existing, t))
    && (exists m :: MarkFor(s.marks.used, LiveMarks(req.parsedTable, existing, env), existing, m))
  }

  /** The profile that an accepted request leaves behind. */
  ghost predicate Suits(s: State, req: Request, existing: Option<Profile>, env: Env, p: Profile) {
    && p.table.Some? && TableFor(s.tables.used, env.live1.tables, req.parsedTable, existing, p.table.value)
    && p.mark.Some? && MarkFor(s.marks.used, LiveMarks(req.parsedTable, existing, env), existing, p.mark.value)
    && p.configTable == req.storedTable
  }

  lemma PlanOutcome(s: State, req: Request, existing: Option<Profile>, env: Env)
    ensures var (s', plan) := Planned(s, req, existing, env);
      && s'.profiles == s.profiles
      && (plan.Some? <==> env.exit !in {ValidateExit, ConflictExit, SanitizeExit} && Available(s, req, existing, env))
      && (plan.Some? ==> Suits(s, req, existing, env, Recorded(plan.value, req)))
  {
    hide TableResolved, MarkResolved, TableFor, MarkFor;
    TableOutcome(s, env.live1, req.parsedTable, existing);
    var (s1, t) := TableResolved(s, env.live1, req.parsedTable, existing);
    var seen := if StaysOn(req.parsedTable, existing) then {} else env.live1.marks;
    assert s.marks.used + Usable({}) == s.marks.used;
    MarkOutcome(s1, env.live2, existing, s.marks.used, seen);
    assert LiveMarks(req.parsedTable, existing, env) == seen + env.live2.marks;
    var m := MarkResolved(s1, env.live2, existing).1;
    if t.Some? && m.Some? {
      assert TableFor(s.tables.used, env.live1.tables, req.parsedTable, existing, t.value.value);
      assert MarkFor(s.marks.used, LiveMarks(req.parsedTable, existing, env), existing, m.value.value);
    }
  }

  // ---- Creating -------------------------------------------------------------

  /** A step of creating before the final reading. */
  predicate StopsCreate(e: Exit) {
    || e.NameExit? || e.StatExit? || e.ValidateExit? || e.ConflictExit? || e.SanitizeExit? || e.UploadsExit? || e.RequiredFilesExit?
    || e.MakeDirExit? || e.ChmodExit? || e.SupportFilesExit? || e.ConfigExit? || e.ConfExit? || e.UnitExit?
  }

  /**
    Creating records a profile iff the name is new, no step before the final reading
    fails and both values can be had; it is then the profile asked for, and success
    also takes that reading. Otherwise no profile changes.
   */
  lemma CreateOutcome(s: State, name: string, req: Request, env: Env)
    ensures var (s', ok) := Created(s, name, req, env);
      var done := name !in s.profiles && !StopsCreate(env.exit) && Available(s, req, None, env);
      && (ok <==> done && env.exit != RereadExit)
      && (done ==> name in s'.profiles && s'.profiles == s.profiles[name := s'.profiles[name]] && Suits(s, req, None, env, s'.profiles[name]))
      && (!done ==> s'.profiles == s.profiles)
  {
    hide Planned, Available, Suits, Drop;
    PlanOutcome(s, req, None, env);
    var plan := Planned(s, req, None, env).1;
    assert plan.Some? ==> Available(s, req, None, env);
  }

  // ---- Updating -------------------------------------------------------------

  /** A step of updating up to the writing of vpn.conf. */
  predicate StopsUpdate(e: Exit) {
    || e.NameExit? || e.ReadExit? || e.ValidateExit? || e.ConflictExit? || e.SanitizeExit? || e.UploadsExit? || e.RequiredFilesExit?
    || e.SupportFilesExit? || e.ConfigExit? || e.ConfExit?
  }

  /**
    Updating records the profile asked for iff the profile is there, no step up to the
    writing of vpn.conf fails and both values can be had; success also takes the unit
    and the final reading. If only the writing of vpn.conf fails, the config alone has
    changed; otherwise no profile changes.
   */
  lemma UpdateOutcome(s: State, name: string, req: Request, env: Env)
    ensures var (s', ok) := Updated(s, name, req, env);
      var old_ := if name in s.profiles then Some(s.profiles[name]) else None;
      var done := name in s.profiles && !StopsUpdate(env.exit) && Available(s, req, old_, env);
      && (ok <==> done && env.exit !in {UnitExit, RereadExit})
      && (done ==> name in s'.profiles && s'.profiles == s.profiles[name := s'.profiles[name]] && Suits(s, req, old_, env, s'.profiles[name]))
      && (!done && name in s.profiles && env.exit == ConfExit && Available(s, req, old_, env) ==>
          s'.profiles == s.profiles[name := s.profiles[name].(configTable := req.storedTable)])
      && (!done && !(name in s.profiles && env.exit == ConfExit && Available(s, req, old_, env)) ==> s'.profiles == s.profiles)
  {
    hide Planned, Available, Suits, Drop;
    if name in s.profiles {
      PlanOutcome(s, req, Some(s.profiles[name]), env);
      var plan := Planned(s, req, Some(s.profiles[name]), env).1;
      assert plan.Some? ==> Available(s, req, Some(s.profiles[name]), env);
    }
  }

  /** An update that moves a profile to another table gives the old one back, unless only the system may. */
  lemma UpdateFreesOldTable(s: State, name: string, req: Request, env: Env)
    requires Updated(s, name, req, env).1 && RouteTable(s.profiles[name]) > 0
    ensures var s' := Updated(s, name, req, env).0;
      && name in s'.profiles && s'.profiles[name].table.Some?
      && (s'.profiles[name].table.value != RouteTable(s.profiles[name]) ==>
          && s'.profiles[name].table.value in s'.tables.used
          && (RouteTable(s.profiles[name]) in s'.tables.used ==> RouteTable(s.profiles[name]) in s'.tables.sticky))
  {
    hide FirstFree, Usable;
  }
}
