/**
 The upgrade gate of one object (packages/chord/src/object.ts:1404-1552, 1627-1631; reload.ts:457-521, 547-551, 658-696).

 A reload that changes the meaning of an object's state closes its gate, waits until the roots that already touched the
 object have ended, computes migrated values, and commits them or opens the gate again. Calls, listeners and tasks write
 the object's cells through contexts; a context is never reopened, and an aborted one stays aborted. A root may end while
 a call it did not wait for still runs with its context.
 */
module Gates {
  import opened Streams

  type Root = string

  datatype Context = Context(root: Root, version: nat, task: bool, aborted: bool, closed: bool)
  {
    predicate Usable() {
      !aborted && !closed
    }
  }

  type Cells = map<string, Value>

  type Migration = (string, Value) -> Value

  /** What `migrate` computed, and the cells it read. */
  datatype Prepared = Prepared(migration: Migration, values: Cells)

  datatype Object = Object(
    cells: Cells, gate: Option<set<Root>>, leases: set<Root>, minVersion: nat, retained: set<nat>, current: nat,
    contexts: seq<Context>, taskRuns: nat, delayed: set<nat>, prepared: Option<Prepared>)

  const TASK: string := "task:"

  /** The guard tells task contexts by the start of their root's name. */
  predicate IsTask(root: Root) {
    TASK <= root
  }

  /** `admit`. */
  predicate Admits(o: Object, root: Root, version: nat) {
    version in o.retained && version >= o.minVersion && (o.gate.Some? ==> root in o.gate.value)
  }

  /** `guard`: whether a write with context `i` is accepted. */
  predicate MayWrite(o: Object, i: nat) {
    i < |o.contexts| && o.contexts[i].Usable()
    && (IsTask(o.contexts[i].root) || Admits(o, o.contexts[i].root, o.contexts[i].version))
  }

  function StopTasks(o: Object): (r: Object) {
    o.(taskRuns := o.taskRuns + 1,
       contexts := seq(|o.contexts|, i requires 0 <= i < |o.contexts| =>
         if o.contexts[i].task then o.contexts[i].(aborted := true) else o.contexts[i]))
  }

  /** The tasks start now, or once the stopped ones finished. */
  function StartTasks(o: Object, names: seq<string>, now: bool): (r: Object) {
    var next := o.(taskRuns := o.taskRuns + 1);
    if now then Started(next, names) else next.(delayed := o.delayed + {next.taskRuns})
  }

  function Started(o: Object, names: seq<string>): (r: Object) {
    o.(contexts := o.contexts + seq(|names|, i requires 0 <= i < |names| => Context(TASK + names[i], o.current, true, false, false)))
  }

  function Migrated(migration: Migration, cells: Cells): (r: Cells) {
    map c | c in cells :: migration(c, cells[c])
  }

  datatype Step =
    | Enter(root: Root, version: nat)
    | Settle(context: nat)
    | EndRoot(root: Root)
    | Write(context: nat, cell: string, value: Value)
    | CloseGate
    | Migrate(migration: Migration)
    | Commit(version: nat, names: seq<string>, now: bool)
    | Rollback(names: seq<string>, now: bool)
    | CompatibleCommit(version: nat, names: seq<string>, now: bool)
    | DelayedStart(run: nat, names: seq<string>)
    | Retire

  predicate Enabled(o: Object, step: Step) {
    match step
    case Enter(root, version) => Admits(o, root, version)
    case Settle(i) => i < |o.contexts|
    case EndRoot(_) => true
    case Write(i, c, _) => MayWrite(o, i) && c in o.cells
    case CloseGate => o.gate == None
    case Migrate(_) => o.gate == Some({})
    case Commit(version, _, _) => o.prepared.Some? && version > o.current
    case Rollback(_, _) => o.gate.Some?
    case CompatibleCommit(version, _, _) => o.gate == None && version > o.current
    case DelayedStart(run, _) => run in o.delayed
    case Retire => true
  }

  function Next(o: Object, step: Step): (r: Object)
    requires Enabled(o, step)
  {
    match step
    case Enter(root, version) =>
      o.(leases := o.leases + {root}, contexts := o.contexts + [Context(root, version, false, false, false)])
    case Settle(i) => o.(contexts := o.contexts[i := o.contexts[i].(closed := true)])
    case EndRoot(root) =>
      o.(leases := o.leases - {root}, gate := if o.gate.Some? then Some(o.gate.value - {root}) else None)
    case Write(_, c, value) => o.(cells := o.cells[c := value])
    case CloseGate => StopTasks(o.(gate := Some(o.leases)))
    case Migrate(migration) => o.(prepared := Some(Prepared(migration, Migrated(migration, o.cells))))
    case Commit(version, names, now) =>
      StartTasks(StopTasks(o.(cells := o.prepared.value.values, prepared := None, gate := None, minVersion := version,
                              retained := {o.current, version}, current := version)), names, now)
    case Rollback(names, now) => StartTasks(o.(gate := None, prepared := None), names, now)
    case CompatibleCommit(version, names, now) =>
      StartTasks(StopTasks(o.(retained := {o.current, version}, current := version)), names, now)
    case DelayedStart(run, names) =>
      // A later start or stop cancels it.
      if run == o.taskRuns then Started(o.(delayed := o.delayed - {run}), names) else o.(delayed := o.delayed - {run})
    case Retire => o.(retained := {o.current})
  }

  /** Calls and listeners that reach the object come with a root among `roots`. */
  ghost predicate Comes(step: Step, roots: iset<Root>) {
    step.Enter? ==> step.root in roots
  }

  /** No root is named like a task: no host is called `task:...`. */
  ghost predicate Ordinary(roots: iset<Root>) {
    forall root :: root in roots ==> !IsTask(root)
  }

  /** Contexts the guard takes for tasks are tasks, and a usable one is of no older version than the object's. */
  predicate TasksOk(o: Object) {
    forall i :: 0 <= i < |o.contexts| && o.contexts[i].Usable() ==>
      && (IsTask(o.contexts[i].root) ==> o.contexts[i].task)
      && (o.contexts[i].task ==> o.contexts[i].version >= o.minVersion && o.gate == None)
  }

  ghost predicate Inv(o: Object) {
    && TasksOk(o) && o.minVersion <= o.current
    && (forall run :: run in o.delayed ==> run <= o.taskRuns)
    && (o.gate.Some? ==> o.taskRuns !in o.delayed)
    && (o.prepared.Some? ==>
          o.gate == Some({}) && o.prepared.value.values == Migrated(o.prepared.value.migration, o.cells))
  }

  lemma StartedOk(o: Object, names: seq<string>)
    requires TasksOk(o) && o.minVersion <= o.current && o.gate == None
    ensures TasksOk(Started(o, names))
  {
  }

  /** Stopped tasks never write again, whatever the object becomes. */
  lemma StoppedOk(o: Object, gate: Option<set<Root>>, minVersion: nat)
    requires TasksOk(o)
    ensures TasksOk(StopTasks(o).(gate := gate, minVersion := minVersion))
  {
  }

  lemma RestartedInv(o: Object, names: seq<string>, now: bool)
    requires TasksOk(o) && o.minVersion <= o.current && o.gate == None && o.prepared == None
    requires forall run :: run in o.delayed ==> run <= o.taskRuns
    ensures Inv(StartTasks(o, names, now))
  {
    StartedOk(o.(taskRuns := o.taskRuns + 1), names);
    hide TasksOk;
  }

  lemma NextInv(o: Object, step: Step)
    requires Inv(o) && Enabled(o, step) && (step.Enter? ==> !IsTask(step.root))
    ensures Inv(Next(o, step))
  {
    match step
    case CloseGate => StoppedOk(o, Some(o.leases), o.minVersion);
    case Commit(version, names, now) => CommitInv(o, version, names, now);
    case Rollback(names, now) => RestartedInv(o.(gate := None, prepared := None), names, now);
    case CompatibleCommit(version, names, now) =>
      StoppedOk(o, o.gate, o.minVersion);
      RestartedInv(StopTasks(o.(retained := {o.current, version}, current := version)), names, now);
    case DelayedStart(run, names) =>
      if run == o.taskRuns {
        StartedOk(o.(delayed := o.delayed - {run}), names);
      }
    case Write(i, _, _) =>
      if o.gate == Some({}) {
        Drained(o, i);
      }
    case EndRoot(root) => assert {} - {root} == {};
    case _ =>
  }

  lemma Drained(o: Object, i: nat)
    requires Inv(o) && o.gate == Some({})
    ensures !MayWrite(o, i)
  {
  }

  lemma CommitInv(o: Object, version: nat, names: seq<string>, now: bool)
    requires Inv(o) && Enabled(o, Commit(version, names, now))
    ensures Inv(Next(o, Commit(version, names, now)))
  {
    StoppedOk(o, None, version);
    var base := o.(cells := o.prepared.value.values, prepared := None, gate := None, minVersion := version,
                   retained := {o.current, version}, current := version);
    assert StopTasks(base).contexts == StopTasks(o).contexts;
    RestartedInv(StopTasks(base), names, now);
  }

  ghost predicate Init(o: Object) {
    o == Object(o.cells, None, {}, 0, {o.current}, o.current, [], 0, {}, None)
  }

  ghost predicate Leads(o: Object, next: Object, roots: iset<Root>) {
    exists step :: Enabled(o, step) && Comes(step, roots) && next == Next(o, step)
  }

  ghost predicate Stepped(run: seq<Object>, roots: iset<Root>, i: nat)
    requires i < |run| - 1
  {
    Leads(run[i], run[i + 1], roots)
  }

  ghost predicate IsRun(run: seq<Object>, roots: iset<Root>) {
    run != [] && Init(run[0]) && forall i :: 0 <= i < |run| - 1 ==> Stepped(run, roots, i)
  }

  lemma {:induction false} RunInv(run: seq<Object>, roots: iset<Root>, n: nat)
    requires IsRun(run, roots) && Ordinary(roots) && n < |run|
    ensures Inv(run[n])
  {
    if n > 0 {
      RunInv(run, roots, n - 1);
      assert Stepped(run, roots, n - 1);
      var step :| Enabled(run[n - 1], step) && Comes(step, roots) && run[n] == Next(run[n - 1], step);
      hide Inv, Enabled, Next;
      NextInv(run[n - 1], step);
    }
  }

  /** Once its gate has drained no write to the object is accepted. */
  lemma DrainedAcceptsNothing(run: seq<Object>, roots: iset<Root>, n: nat, i: nat)
    requires IsRun(run, roots) && Ordinary(roots) && n < |run| && run[n].gate == Some({})
    ensures !MayWrite(run[n], i)
  {
    RunInv(run, roots, n);
    Drained(run[n], i);
  }

  /** Only a write and a gated commit touch the cells, only a gated commit the minimum version: a rollback touches neither. */
  lemma OnlyCommits(o: Object, step: Step)
    requires Enabled(o, step)
    ensures var r := Next(o, step);
            && r.cells == (match step
                           case Write(_, c, value) => o.cells[c := value]
                           case Commit(_, _, _) => o.prepared.value.values
                           case _ => o.cells)
            && r.minVersion == (if step.Commit? then step.version else o.minVersion)
            && r.current == (if step.Commit? || step.CompatibleCommit? then step.version else o.current)
            && r.retained == (if step.Commit? || step.CompatibleCommit? then {o.current, step.version}
                              else if step.Retire? then {o.current} else o.retained)
  {
  }

  lemma StandsStill(o: Object, step: Step)
    requires Inv(o) && Enabled(o, step) && o.gate == Some({}) && Next(o, step).gate == Some({})
    ensures var r := Next(o, step); r.cells == o.cells && r.minVersion == o.minVersion && r.current == o.current
  {
    if step.Write? {
      Drained(o, step.context);
    }
    hide TasksOk, Migrated;
  }

  lemma NeverLower(o: Object, step: Step)
    requires Inv(o) && Enabled(o, step)
    ensures Next(o, step).minVersion >= o.minVersion
  {
    hide TasksOk, Migrated;
  }

  /** From the moment the gate drained until the reload commits or rolls back the cells stand still. */
  lemma {:induction false} CellsStandStill(run: seq<Object>, roots: iset<Root>, m: nat, n: nat)
    requires IsRun(run, roots) && Ordinary(roots) && m <= n < |run|
    requires forall k :: m <= k <= n ==> run[k].gate == Some({})
    ensures run[n].cells == run[m].cells && run[n].minVersion == run[m].minVersion && run[n].current == run[m].current
  {
    if m < n {
      CellsStandStill(run, roots, m, n - 1);
      RunInv(run, roots, n - 1);
      assert Stepped(run, roots, n - 1);
      hide Leads, Inv, Init, IsRun;
      LeadsStill(run[n - 1], run[n], roots);
    }
  }

  lemma LeadsStill(o: Object, next: Object, roots: iset<Root>)
    requires Inv(o) && Leads(o, next, roots) && o.gate == Some({}) && next.gate == Some({})
    ensures next.cells == o.cells && next.minVersion == o.minVersion && next.current == o.current
  {
    hide Enabled, Next, Inv;
    var step :| Enabled(o, step) && Comes(step, roots) && next == Next(o, step);
    StandsStill(o, step);
  }

  lemma PreparedFromCells(o: Object)
    requires Inv(o) && o.prepared.Some?
    ensures o.prepared.value.values == Migrated(o.prepared.value.migration, o.cells)
  {
  }

  /** So what was migrated is the migration of the final old values. */
  lemma MigratesFinalState(run: seq<Object>, roots: iset<Root>, m: nat, n: nat)
    requires IsRun(run, roots) && Ordinary(roots) && m <= n < |run|
    requires forall k :: m <= k <= n ==> run[k].gate == Some({})
    ensures run[n].cells == run[m].cells
    ensures run[n].prepared.Some? ==>
              run[n].prepared.value.values == Migrated(run[n].prepared.value.migration, run[m].cells)
  {
    CellsStandStill(run, roots, m, n);
    RunInv(run, roots, n);
    hide Inv, IsRun;
    if run[n].prepared.Some? {
      PreparedFromCells(run[n]);
    }
  }

  /** A gated commit installs exactly what was migrated. */
  lemma CommitInstalls(run: seq<Object>, roots: iset<Root>, m: nat, n: nat, step: Step)
    requires IsRun(run, roots) && Ordinary(roots) && m <= n < |run|
    requires forall k :: m <= k <= n ==> run[k].gate == Some({})
    requires step.Commit? && Enabled(run[n], step)
    ensures var r, migration := Next(run[n], step), run[n].prepared.value.migration;
            && r.cells.Keys == run[m].cells.Keys && (forall c :: c in r.cells ==> r.cells[c] == migration(c, run[m].cells[c]))
            && r.minVersion == r.current == step.version && r.gate == None
  {
    MigratesFinalState(run, roots, m, n);
  }

  /**
   A reload that rolls back leaves no trace in the state, whatever it had prepared: the cells, and the versions that may
   write them, are those from when the gate drained, and the gate is open.
   */
  lemma RollbackRestores(run: seq<Object>, roots: iset<Root>, m: nat, n: nat, step: Step)
    requires IsRun(run, roots) && Ordinary(roots) && m <= n < |run|
    requires forall k :: m <= k <= n ==> run[k].gate == Some({})
    requires step.Rollback? && Enabled(run[n], step)
    ensures var r := Next(run[n], step);
            && r.cells == run[m].cells && r.minVersion == run[m].minVersion && r.current == run[m].current
            && r.retained == run[n].retained && r.gate == None && r.prepared == None
  {
    CellsStandStill(run, roots, m, n);
  }

  // What a gate waits for

  /** These steps can happen one after the other. */
  ghost predicate Happens(o: Object, steps: seq<Step>)
    decreases |steps|
  {
    steps == [] || (Enabled(o, steps[0]) && Happens(Next(o, steps[0]), steps[1..]))
  }

  ghost function Outcome(o: Object, steps: seq<Step>): (r: Object)
    requires Happens(o, steps)
    decreases |steps|
  {
    if steps == [] then o else Outcome(Next(o, steps[0]), steps[1..])
  }

  /** A root has the object while it entered and did not end; the gate closes to all but those, which are let in again. */
  lemma GateCloses(o: Object, step: Step)
    requires Enabled(o, step)
    ensures var r := Next(o, step);
            && r.leases == (if step.Enter? then o.leases + {step.root} else if step.EndRoot? then o.leases - {step.root} else o.leases)
            && (step.CloseGate? ==>
                  && r.gate == Some(o.leases)
                  && forall root, version :: root in o.leases && Admits(o, root, version) ==> Admits(r, root, version))
  {
  }

  /** Until it is committed or rolled back the gate waits for exactly the roots it closed on that have not ended since. */
  lemma {:induction false} GateWaits(o: Object, steps: seq<Step>)
    requires Happens(o, steps) && o.gate.Some? && forall i :: 0 <= i < |steps| ==> !steps[i].Commit? && !steps[i].Rollback?
    ensures var r := Outcome(o, steps);
            r.gate.Some? && forall root :: root in r.gate.value <==> root in o.gate.value && EndRoot(root) !in steps
    decreases |steps|
  {
    if steps != [] {
      var next := Next(o, steps[0]);
      GateWaits(next, steps[1..]);
      hide Outcome, Happens;
      assert forall root :: EndRoot(root) in steps <==> EndRoot(root) == steps[0] || EndRoot(root) in steps[1..];
    }
  }

  /** Whoever is let in may write, with the version it came with; an open gate lets in every retained version. */
  lemma AdmittedWrites(o: Object, root: Root, version: nat)
    requires version in o.retained && version >= o.minVersion
    ensures o.gate.None? ==> Enabled(o, Enter(root, version))
    ensures Enabled(o, Enter(root, version)) ==> MayWrite(Next(o, Enter(root, version)), |o.contexts|)
  {
  }

  // Tasks

  /** The tasks of `names` run, with the object's version. */
  ghost predicate TasksRun(o: Object, names: seq<string>) {
    forall j :: 0 <= j < |names| ==> TaskRuns(o, names[j])
  }

  ghost predicate TaskRuns(o: Object, name: string) {
    exists i :: 0 <= i < |o.contexts| && o.contexts[i] == Context(TASK + name, o.current, true, false, false) && MayWrite(o, i)
  }

  /** No task that runs is from before. */
  ghost predicate TasksStopped(o: Object, r: Object) {
    forall i :: 0 <= i < |o.contexts| && o.contexts[i].task ==> i < |r.contexts| && !r.contexts[i].Usable()
  }

  lemma StartedRun(o: Object, names: seq<string>)
    ensures TasksRun(Started(o, names), names)
  {
    var r := Started(o, names);
    forall j | 0 <= j < |names|
      ensures TaskRuns(r, names[j])
    {
      var i := |o.contexts| + j;
      assert r.contexts[i] == Context(TASK + names[j], o.current, true, false, false);
      assert TASK <= TASK + names[j];
      assert MayWrite(r, i);
    }
  }

  /** A closing gate and a commit stop all tasks; a commit and a rollback start them, or leave it to a delayed start. */
  lemma TasksRestart(o: Object, step: Step)
    requires Enabled(o, step)
    ensures var r := Next(o, step);
            && (step.CloseGate? || step.Commit? || step.CompatibleCommit? ==> TasksStopped(o, r))
            && (step.Commit? || step.Rollback? || step.CompatibleCommit? ==>
                  if step.now then TasksRun(r, step.names)
                  else r.taskRuns in r.delayed && TasksRun(Next(r, DelayedStart(r.taskRuns, step.names)), step.names))
  {
    hide Migrated;
    var r := Next(o, step);
    match step
    case Commit(version, names, now) =>
      var base := StopTasks(o.(cells := o.prepared.value.values, prepared := None, gate := None, minVersion := version,
                               retained := {o.current, version}, current := version));
      Restarted(base, names, now);
    case Rollback(names, now) => Restarted(o.(gate := None, prepared := None), names, now);
    case CompatibleCommit(version, names, now) =>
      Restarted(StopTasks(o.(retained := {o.current, version}, current := version)), names, now);
    case _ =>
  }

  lemma Restarted(o: Object, names: seq<string>, now: bool)
    ensures var r := StartTasks(o, names, now);
            && |r.contexts| >= |o.contexts| && r.contexts[..|o.contexts|] == o.contexts
            && if now then TasksRun(r, names)
               else r.taskRuns in r.delayed && TasksRun(Next(r, DelayedStart(r.taskRuns, names)), names)
  {
    var next := o.(taskRuns := o.taskRuns + 1);
    StartedRun(next, names);
    var r := StartTasks(o, names, now);
    StartedRun(r.(delayed := r.delayed - {r.taskRuns}), names);
    hide TasksRun;
  }

  /** A delayed start that a later start or stop overtook starts nothing. */
  lemma OvertakenStart(o: Object, run: nat, names: seq<string>)
    requires Enabled(o, DelayedStart(run, names)) && run != o.taskRuns
    ensures Next(o, DelayedStart(run, names)).contexts == o.contexts
  {
  }

  lemma {:induction false} MinVersionGrows(run: seq<Object>, roots: iset<Root>, m: nat, n: nat)
    requires IsRun(run, roots) && Ordinary(roots) && m <= n < |run|
    ensures run[m].minVersion <= run[n].minVersion
  {
    if m < n {
      MinVersionGrows(run, roots, m, n - 1);
      RunInv(run, roots, n - 1);
      assert Stepped(run, roots, n - 1);
      hide Leads, Inv, Init, IsRun;
      LeadsNeverLower(run[n - 1], run[n], roots);
    }
  }

  lemma LeadsNeverLower(o: Object, next: Object, roots: iset<Root>)
    requires Inv(o) && Leads(o, next, roots)
    ensures next.minVersion >= o.minVersion
  {
    hide Enabled, Next, Inv;
    var step :| Enabled(o, step) && Comes(step, roots) && next == Next(o, step);
    NeverLower(o, step);
  }

  /** After a gated commit of `version` no call, listener or task of older code can write. */
  lemma OldCodeCannotWrite(run: seq<Object>, roots: iset<Root>, m: nat, n: nat, i: nat)
    requires IsRun(run, roots) && Ordinary(roots) && m <= n < |run| && MayWrite(run[n], i)
    ensures run[n].contexts[i].version >= run[m].minVersion
  {
    RunInv(run, roots, n);
    MinVersionGrows(run, roots, m, n);
  }

  lemma StaysClosed(o: Object, step: Step, i: nat)
    requires Enabled(o, step) && i < |o.contexts| && (o.contexts[i].closed || step == Settle(i))
    ensures i < |Next(o, step).contexts| && Next(o, step).contexts[i].closed
  {
  }

  /** A context whose call or task has settled never writes again. */
  lemma {:induction false} SettledIsOver(o: Object, steps: seq<Step>, i: nat)
    requires i < |o.contexts| && Enabled(o, Settle(i)) && Happens(Next(o, Settle(i)), steps)
    ensures !MayWrite(Outcome(Next(o, Settle(i)), steps), i)
  {
    StaysClosed(o, Settle(i), i);
    ClosedStays(Next(o, Settle(i)), steps, i);
  }

  lemma {:induction false} ClosedStays(o: Object, steps: seq<Step>, i: nat)
    requires Happens(o, steps) && i < |o.contexts| && o.contexts[i].closed
    ensures i < |Outcome(o, steps).contexts| && Outcome(o, steps).contexts[i].closed
    decreases |steps|
  {
    hide Next, Enabled;
    if steps != [] {
      StaysClosed(o, steps[0], i);
      ClosedStays(Next(o, steps[0]), steps[1..], i);
    }
  }

  // Roots named like tasks

  /** An object before anything reached it. */
  function Untouched(cells: Cells): (o: Object) {
    Object(cells, None, {}, 0, {1}, 1, [], 0, {}, None)
  }

  /** A root that ended while a call it did not wait for still runs, then the gate, which drains at once. */
  function LeftBehind(cells: Cells, root: Root): (o: Object) {
    Next(Next(Next(Untouched(cells), Enter(root, 1)), EndRoot(root)), CloseGate)
  }

  lemma LeftBehindIs(cells: Cells, root: Root)
    ensures var o := LeftBehind(cells, root);
            o == Untouched(cells).(gate := Some({}), contexts := [Context(root, 1, false, false, false)], taskRuns := 1)
  {
    var entered := Next(Untouched(cells), Enter(root, 1));
    assert entered.leases - {root} == {};
  }

  /** Behind the drained gate that call may write exactly when the guard takes its root for a task. */
  lemma NamedIsNeeded(root: Root, value: Value, other: Value)
    ensures var drained := LeftBehind(map["n" := value], root);
            drained.gate == Some({}) && (Enabled(drained, Write(0, "n", other)) <==> IsTask(root))
  {
    LeftBehindIs(map["n" := value], root);
  }

  /** The drained gate keeps its promise in every run whose calls come with these roots. */
  ghost predicate GateHolds(roots: iset<Root>) {
    forall run: seq<Object>, n: nat, i: nat ::
      IsRun(run, roots) && n < |run| && run[n].gate == Some({}) ==> !MayWrite(run[n], i)
  }

  /** And old code never writes after a gated commit. */
  ghost predicate OldCodeStops(roots: iset<Root>) {
    forall run: seq<Object>, m: nat, n: nat, i: nat ::
      IsRun(run, roots) && m <= n < |run| && MayWrite(run[n], i) ==> run[n].contexts[i].version >= run[m].minVersion
  }

  lemma LeftBehindRun(root: Root, roots: iset<Root>) returns (run: seq<Object>)
    requires root in roots
    ensures IsRun(run, roots) && |run| == 4 && run[3] == LeftBehind(map[], root)
  {
    var o := Untouched(map[]);
    var a := Next(o, Enter(root, 1));
    var b := Next(a, EndRoot(root));
    run := [o, a, b, Next(b, CloseGate)];
    assert Comes(Enter(root, 1), roots) && Comes(EndRoot(root), roots) && Comes(CloseGate, roots);
    assert Leads(o, a, roots) && Leads(a, b, roots) && Leads(b, Next(b, CloseGate), roots);
    assert Stepped(run, roots, 0) && Stepped(run, roots, 1) && Stepped(run, roots, 2);
  }

  /** Both promises hold in all runs with roots of a set exactly when none of them is named like a task. */
  lemma KeptExactly(roots: iset<Root>)
    ensures GateHolds(roots) <==> Ordinary(roots)
    ensures OldCodeStops(roots) <==> Ordinary(roots)
  {
    if Ordinary(roots) {
      forall run: seq<Object>, n: nat, i: nat | IsRun(run, roots) && n < |run| && run[n].gate == Some({})
        ensures !MayWrite(run[n], i)
      {
        DrainedAcceptsNothing(run, roots, n, i);
      }
      forall run: seq<Object>, m: nat, n: nat, i: nat | IsRun(run, roots) && m <= n < |run| && MayWrite(run[n], i)
        ensures run[n].contexts[i].version >= run[m].minVersion
      {
        OldCodeCannotWrite(run, roots, m, n, i);
      }
    } else {
      var root :| root in roots && IsTask(root);
      GateBroken(root, roots);
      OldCodeWrites(root, roots);
    }
  }

  lemma GateBroken(root: Root, roots: iset<Root>)
    requires root in roots && IsTask(root)
    ensures !GateHolds(roots)
  {
    var run := LeftBehindRun(root, roots);
    LeftBehindIs(map[], root);
    assert run[3].gate == Some({}) && MayWrite(run[3], 0);
  }

  /** The reload goes on and commits: the call of the old version still writes. */
  lemma OldCodeWrites(root: Root, roots: iset<Root>)
    requires root in roots && IsTask(root)
    ensures !OldCodeStops(roots)
  {
    var run := LeftBehindRun(root, roots);
    LeftBehindIs(map[], root);
    var migrated := Next(run[3], Migrate((_, v) => v));
    var committed := Next(migrated, Commit(2, [], true));
    var more := run + [migrated, committed];
    assert Comes(Migrate((_, v) => v), roots) && Comes(Commit(2, [], true), roots);
    assert Leads(run[3], migrated, roots);
    assert Leads(migrated, committed, roots);
    forall i | 0 <= i < |more| - 1
      ensures Stepped(more, roots, i)
    {
      if i < 3 {
        assert Stepped(run, roots, i);
      }
    }
    assert IsRun(more, roots) && more[5] == committed;
    assert committed.contexts[0] == Context(root, 1, false, false, false);
    assert MayWrite(more[5], 0);
  }
}
