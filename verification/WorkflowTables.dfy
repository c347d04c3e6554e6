/**
 The workflow store as two relations, workflows and action aliases, with the constraints the
 schema declares: every operation, and what no run of operations under a clock that never goes
 back can break.  Module SqliteWorkflowStore runs the same operations in place.
 */
module WorkflowTables {
  import opened Wrappers

  type Id = string

  datatype State = Open(name: string) | Resolved | Unresolvable | Cancelled

  const SUBMITTING_TO_COORDINATION := Open("submittingToCoordination")

  /** `columns` are the saved JSON texts; times are in milliseconds. */
  datatype Row = Row(
    current: Id,
    state: State,
    resolution: Option<string>,
    resolvedAt: Option<int>,
    expiresAt: int,
    claimedBy: Option<Id>,
    claimExpires: Option<int>,
    columns: map<string, string>,
    attempts: seq<string>)

  datatype Tables = Tables(workflows: map<Id, Row>, aliases: map<Id, Id>)

  datatype Error = SameIds | AlreadyExists | NotInState | DatabaseFault

  datatype Result = Ok | Err(error: Error)

  predicate Terminal(state: State) { !state.Open? }

  // ---- single statements ----------------------------------------------------------------

  /** The unique index on the current Action ID. */
  predicate CurrentTaken(db: Tables, action: Id, except: Option<Id>) {
    exists t :: t in db.workflows && Some(t) != except && db.workflows[t].current == action
  }

  function InsertWorkflow(db: Tables, task: Id, row: Row): Option<Tables> {
    if task in db.workflows || CurrentTaken(db, row.current, None) then None
    else Some(db.(workflows := db.workflows[task := row]))
  }

  /** An alias is inserted once, and only for a task that exists. */
  function InsertAlias(db: Tables, action: Id, task: Id): Option<Tables> {
    if action in db.aliases || task !in db.workflows then None
    else Some(db.(aliases := db.aliases[action := task]))
  }

  // ---- operations -----------------------------------------------------------------------

  function NewRow(action: Id, expiresAt: int, columns: map<string, string>): Row {
    Row(action, Open("created"), None, None, expiresAt, None, None, columns, [])
  }

  function Create(db: Tables, task: Id, action: Id, expiresAt: int, columns: map<string, string>): (Tables, Result) {
    if task == action then (db, Err(SameIds))
    else match InsertWorkflow(db, task, NewRow(action, expiresAt, columns))
      case None => (db, Err(AlreadyExists))
      case Some(inserted) =>
        match InsertAlias(inserted, action, task)
        case None => (db, Err(AlreadyExists))
        case Some(done) => (done, Ok)
  }

  /** The new Action ID and columns of a row whose action is replaced. */
  function Replacement(row: Row, action: Id, expiresAt: int, columns: map<string, string>): Row {
    row.(current := action, expiresAt := expiresAt, state := SUBMITTING_TO_COORDINATION, columns := columns)
  }

  function Replace(db: Tables, task: Id, action: Id, from: State, expiresAt: int,
                   columns: map<string, string>): (Tables, Result) {
    if task == action then (db, Err(SameIds))
    else match InsertAlias(db, action, task)
      case None => (db, Err(AlreadyExists))
      case Some(aliased) =>
        if aliased.workflows[task].state != from then (db, Err(NotInState))
        else if CurrentTaken(aliased, action, Some(task)) then (db, Err(AlreadyExists))
        else (aliased.(workflows := db.workflows[task := Replacement(db.workflows[task], action, expiresAt, columns)]),
            Ok)
  }

  function Update(db: Tables, task: Id, row: Row): Tables {
    db.(workflows := db.workflows[task := row])
  }

  function CompareAndSet(db: Tables, task: Id, from: State, to: State): (Tables, bool) {
    if Terminal(from) || Terminal(to) || task !in db.workflows || db.workflows[task].state != from then (db, false)
    else (Update(db, task, db.workflows[task].(state := to)), true)
  }

  /** An absent expiry compares as neither passed nor ahead. */
  predicate Claimable(row: Row, worker: Id, now: int) {
    && !Terminal(row.state)
    && (row.claimedBy.None? || row.claimedBy.value == worker ||
         (row.claimExpires.Some? && row.claimExpires.value <= now))
  }

  function Claim(db: Tables, task: Id, worker: Id, lease: int, now: int): (Tables, bool) {
    if task !in db.workflows || !Claimable(db.workflows[task], worker, now) then (db, false)
    else (Update(db, task, db.workflows[task].(claimedBy := Some(worker), claimExpires := Some(now + lease))), true)
  }

  function SaveColumn(db: Tables, task: Id, column: string, json: string): Tables {
    if task !in db.workflows then db
    else Update(db, task, db.workflows[task].(columns := db.workflows[task].columns[column := json]))
  }

  function SaveAttempt(db: Tables, task: Id, attempt: string): Tables {
    if task !in db.workflows then db
    else Update(db, task, db.workflows[task].(attempts := db.workflows[task].attempts + [attempt]))
  }

  /** Resolving and cancelling write a terminal state once. */
  function Settle(db: Tables, task: Id, state: State, resolution: string, now: int): (Tables, bool) {
    if task !in db.workflows || Terminal(db.workflows[task].state) then (db, false)
    else (Update(db, task,
        db.workflows[task].(state := state, resolution := Some(resolution), resolvedAt := Some(now))), true)
  }

  function Later(a: int, b: int): int { if a >= b then a else b }

  /** A terminal row past its expiry and its retention; a resolution time is always set by then. */
  predicate Due(row: Row, retention: int, now: int) {
    && Terminal(row.state) && row.resolvedAt.Some?
    && now > Later(row.expiresAt, row.resolvedAt.value + retention)
  }

  function DueTasks(db: Tables, retention: int, now: int): set<Id> {
    set t | t in db.workflows && Due(db.workflows[t], retention, now)
  }

  function DropAliases(db: Tables, tasks: set<Id>): Tables {
    db.(aliases := map a | a in db.aliases && db.aliases[a] !in tasks :: db.aliases[a])
  }

  function DropTasks(db: Tables, tasks: set<Id>): Tables {
    DropAliases(db, tasks).(workflows := map t | t in db.workflows && t !in tasks :: db.workflows[t])
  }

  function Purge(db: Tables, retention: int, now: int): Tables {
    DropTasks(db, DueTasks(db, retention, now))
  }

  function GetByActionId(db: Tables, action: Id): Option<Id> {
    if action in db.aliases && db.aliases[action] in db.workflows then Some(db.aliases[action]) else None
  }

  // ---- runs -----------------------------------------------------------------------------

  /**
   The tables and the clock; then, as history, when the last lease each worker was granted on a
   workflow that still exists ends, and those a purge left without aliases when it was cut off.
   */
  datatype World = World(db: Tables, now: int, leases: map<(Id, Id), int>, torn: set<Id>)

  datatype Op =
    | DoCreate(task: Id, action: Id, expiresAt: int, columns: map<string, string>)
    | DoReplace(task: Id, action: Id, from: State, expiresAt: int, columns: map<string, string>)
    | DoCompareAndSet(task: Id, from: State, to: State)
    | DoClaim(task: Id, worker: Id, lease: int)
    | DoSaveColumn(task: Id, column: string, json: string)
    | DoSaveAttempt(task: Id, attempt: string)
    | DoSettle(task: Id, state: State, resolution: string)
    | DoPurge(retention: int)
      /** A purge cut off after removing these tasks, maybe between one more task's two deletes. */
    | DoPurgePart(retention: int, gone: set<Id>, half: Option<Id>)
    | Tick(time: int)

  predicate Enabled(w: World, op: Op) {
    match op
    case DoSettle(_, state, _) => Terminal(state)
    case DoPurgePart(retention, gone, half) =>
      && gone <= DueTasks(w.db, retention, w.now)
      && (half.Some? ==> half.value in DueTasks(w.db, retention, w.now) - gone)
    case Tick(time) => time >= w.now
    case _ => true
  }

  function Forget(leases: map<(Id, Id), int>, tasks: set<Id>): map<(Id, Id), int> {
    map k | k in leases && k.0 !in tasks :: leases[k]
  }

  function PurgeWorld(w: World, gone: set<Id>, half: Option<Id>): World {
    var dropped := DropTasks(w.db, gone);
    World(if half.Some? then DropAliases(dropped, {half.value}) else dropped,
          w.now, Forget(w.leases, gone),
          (w.torn - gone) + if half.Some? then {half.value} else {})
  }

  function Do(w: World, op: Op): World {
    match op
    case DoCreate(task, action, expiresAt, columns) => w.(db := Create(w.db, task, action, expiresAt, columns).0)
    case DoReplace(task, action, from, expiresAt, columns) =>
      w.(db := Replace(w.db, task, action, from, expiresAt, columns).0)
    case DoCompareAndSet(task, from, to) => w.(db := CompareAndSet(w.db, task, from, to).0)
    case DoClaim(task, worker, lease) =>
      var (db, granted) := Claim(w.db, task, worker, lease, w.now);
      w.(db := db, leases := if granted then w.leases[(task, worker) := w.now + lease] else w.leases)
    case DoSaveColumn(task, column, json) => w.(db := SaveColumn(w.db, task, column, json))
    case DoSaveAttempt(task, attempt) => w.(db := SaveAttempt(w.db, task, attempt))
    case DoSettle(task, state, resolution) => w.(db := Settle(w.db, task, state, resolution, w.now).0)
    case DoPurge(retention) => PurgeWorld(w, DueTasks(w.db, retention, w.now), None)
    case DoPurgePart(retention, gone, half) => PurgeWorld(w, gone, half)
    case Tick(time) => w.(now := time)
  }

  const START := World(Tables(map[], map[]), 0, map[], {})

  function Run(ops: seq<Op>): World {
    if ops == [] then START
    else
      var w := Run(ops[..|ops| - 1]);
      if Enabled(w, ops[|ops| - 1]) then Do(w, ops[|ops| - 1]) else w
  }

  // ---- aliases --------------------------------------------------------------------------

  ghost predicate AliasesPoint(db: Tables) {
    forall a :: a in db.aliases ==> db.aliases[a] in db.workflows && a != db.aliases[a]
  }

  ghost predicate OwnAlias(db: Tables, task: Id)
    requires task in db.workflows
  {
    db.workflows[task].current in db.aliases && db.aliases[db.workflows[task].current] == task
  }

  /** Each workflow's current Action ID is its own alias, unless a purge of it was cut off. */
  ghost predicate CurrentsOwn(w: World) {
    forall t :: t in w.db.workflows ==> if t in w.torn then Terminal(w.db.workflows[t].state) else OwnAlias(w.db, t)
  }

  ghost predicate CurrentsDiffer(db: Tables) {
    forall t, u :: t in db.workflows && u in db.workflows && db.workflows[t].current == db.workflows[u].current ==>
        t == u
  }

  ghost predicate TornExist(w: World) {
    forall t :: t in w.torn ==> t in w.db.workflows
  }

  /** No alias is left of a workflow whose purge was cut off. */
  ghost predicate TornUnfound(w: World) {
    forall a :: a in w.db.aliases ==> w.db.aliases[a] !in w.torn
  }

  ghost predicate AliasInv(w: World) {
    AliasesPoint(w.db) && CurrentsOwn(w) && CurrentsDiffer(w.db) && TornExist(w) && TornUnfound(w)
  }

  /** Terminal rows are left to the purge: the caller's promise about replacements. */
  ghost predicate Promised(op: Op) {
    op.DoReplace? ==> !Terminal(op.from)
  }

  lemma CreateAliases(w: World, task: Id, action: Id, expiresAt: int, columns: map<string, string>)
    requires AliasInv(w)
    ensures AliasInv(w.(db := Create(w.db, task, action, expiresAt, columns).0))
  {
    var x := w.(db := Create(w.db, task, action, expiresAt, columns).0);
    assert x != w ==> task !in w.db.workflows && !CurrentTaken(w.db, action, None) && task !in w.torn;
  }

  lemma ReplaceAliases(w: World, task: Id, action: Id, from: State, expiresAt: int, columns: map<string, string>)
    requires AliasInv(w) && !Terminal(from)
    ensures AliasInv(w.(db := Replace(w.db, task, action, from, expiresAt, columns).0))
  {
  }

  /** A row whose Action ID is kept, and that stays terminal if it was, keeps the aliases. */
  lemma UpdateAliases(w: World, task: Id, row: Row)
    requires AliasInv(w) && task in w.db.workflows && row.current == w.db.workflows[task].current
    requires Terminal(w.db.workflows[task].state) ==> Terminal(row.state)
    ensures AliasInv(w.(db := Update(w.db, task, row)))
  {
  }

  lemma PurgeAliases(w: World, gone: set<Id>, half: Option<Id>)
    requires AliasInv(w)
    requires half.Some? ==>
               half.value in w.db.workflows && half.value !in gone && Terminal(w.db.workflows[half.value].state)
    ensures AliasInv(PurgeWorld(w, gone, half))
  {
  }

  lemma LeasesAside(w: World, leases: map<(Id, Id), int>)
    requires AliasInv(w)
    ensures AliasInv(w.(leases := leases))
  {
  }

  lemma DoAliases(w: World, op: Op)
    requires AliasInv(w) && Enabled(w, op) && Promised(op)
    ensures AliasInv(Do(w, op))
  {
    hide AliasesPoint, CurrentsOwn, CurrentsDiffer, Claimable, DropTasks, DropAliases, Forget, Create, Replace;
    match op
    case DoCreate(task, action, expiresAt, columns) => CreateAliases(w, task, action, expiresAt, columns);
    case DoReplace(task, action, from, expiresAt, columns) => ReplaceAliases(w, task, action, from, expiresAt, columns);
    case DoPurge(retention) => PurgeAliases(w, DueTasks(w.db, retention, w.now), None);
    case DoPurgePart(retention, gone, half) => PurgeAliases(w, gone, half);
    case DoClaim(task, worker, lease) => ClaimAliases(w, task, worker, lease);
    case Tick(time) => ClockAside(w, time);
    case _ => UpdateOps(w, op);
  }

  lemma ClockAside(w: World, time: int)
    requires AliasInv(w)
    ensures AliasInv(w.(now := time))
  {
  }

  lemma ClaimAliases(w: World, task: Id, worker: Id, lease: int)
    requires AliasInv(w)
    ensures AliasInv(Do(w, DoClaim(task, worker, lease)))
  {
    hide AliasInv, Claimable;
    if Claim(w.db, task, worker, lease, w.now).1 {
      UpdateAliases(w, task, w.db.workflows[task].(claimedBy := Some(worker), claimExpires := Some(w.now + lease)));
    }
    LeasesAside(w.(db := Claim(w.db, task, worker, lease, w.now).0), Do(w, DoClaim(task, worker, lease)).leases);
  }

  /** The operations that update one row's state, columns or attempts. */
  lemma UpdateOps(w: World, op: Op)
    requires AliasInv(w) && Enabled(w, op)
    requires op.DoCompareAndSet? || op.DoSaveColumn? || op.DoSaveAttempt? || op.DoSettle?
    ensures AliasInv(Do(w, op))
  {
    hide AliasInv;
    if op.task in w.db.workflows {
      var row := w.db.workflows[op.task];
      match op
      case DoCompareAndSet(task, from, to) =>
        if row.state == from && !Terminal(from) { UpdateAliases(w, task, row.(state := to)); }
      case DoSaveColumn(task, column, json) => UpdateAliases(w, task, row.(columns := row.columns[column := json]));
      case DoSaveAttempt(task, attempt) => UpdateAliases(w, task, row.(attempts := row.attempts + [attempt]));
      case DoSettle(task, state, resolution) =>
        UpdateAliases(w, task, row.(state := state, resolution := Some(resolution), resolvedAt := Some(w.now)));
    }
  }

  /** Over any run in which replacements start from open states. */
  lemma {:induction false} RunAliases(ops: seq<Op>)
    requires forall op :: op in ops ==> Promised(op)
    ensures AliasInv(Run(ops))
  {
    if ops != [] {
      hide Do, AliasInv, Enabled;
      RunAliases(ops[..|ops| - 1]);
      StartAliases();
      var w := Run(ops[..|ops| - 1]);
      if Enabled(w, ops[|ops| - 1]) {
        DoAliases(w, ops[|ops| - 1]);
      }
    }
  }

  lemma StartAliases()
    ensures AliasInv(START)
  {
  }

  /**
   Every alias finds its workflow, no two workflows have one current Action ID, and a workflow's
   current Action ID finds it exactly when no purge of it was cut off between its two deletes;
   one that was is found by no Action ID at all.
   */
  lemma {:induction false} AliasesHold(ops: seq<Op>)
    requires forall op :: op in ops ==> Promised(op)
    ensures var w := Run(ops);
            && (forall a :: a in w.db.aliases ==> GetByActionId(w.db, a) == Some(w.db.aliases[a]))
            && (forall t :: t in w.db.workflows ==>
                 (GetByActionId(w.db, w.db.workflows[t].current) == Some(t) <==> t !in w.torn))
            && (forall t, a :: t in w.torn ==> GetByActionId(w.db, a) != Some(t))
            && (forall t, u :: t in w.db.workflows && u in w.db.workflows && t != u ==>
                  w.db.workflows[t].current != w.db.workflows[u].current)
            && ((forall op :: op in ops ==> !op.DoPurgePart?) ==> w.torn == {})
  {
    RunAliases(ops);
    if forall op :: op in ops ==> !op.DoPurgePart? {
      NothingTorn(ops);
    }
  }

  lemma {:induction false} NothingTorn(ops: seq<Op>)
    requires forall op :: op in ops ==> !op.DoPurgePart?
    ensures Run(ops).torn == {}
  {
    if ops != [] {
      hide Create, Replace, CompareAndSet, Claim, Settle, DropTasks, DropAliases, SaveColumn, SaveAttempt;
      NothingTorn(ops[..|ops| - 1]);
    }
  }

  /** Cut off between its two deletes, a purge leaves the workflow's row and none of its aliases. */
  lemma CutOffTears(w: World, retention: int, task: Id)
    requires task in DueTasks(w.db, retention, w.now)
    ensures var op := DoPurgePart(retention, {}, Some(task));
              Enabled(w, op) && task in Do(w, op).torn && task in Do(w, op).db.workflows
  {
  }

  /** This operation deletes the workflow's row. */
  predicate Deletes(w: World, op: Op, task: Id) {
    match op
    case DoPurge(retention) => task in DueTasks(w.db, retention, w.now)
    case DoPurgePart(retention, gone, _) => task in gone
    case _ => false
  }

  lemma DoKeepsTorn(w: World, op: Op, task: Id)
    requires task in w.torn && !Deletes(w, op, task)
    ensures task in Do(w, op).torn
  {
    hide Due, Create, Replace, CompareAndSet, Claim, Settle, SaveColumn, SaveAttempt, DropTasks, DropAliases;
  }

  /** From operation `n` on, no Action ID finds such a workflow in any run, until its row is deleted. */
  lemma {:induction false} CutOffPurgeLosesAliases(ops: seq<Op>, n: nat, task: Id)
    requires n <= |ops| && task in Run(ops[..n]).torn && forall op :: op in ops ==> Promised(op)
    requires forall i :: n <= i < |ops| ==> !Deletes(Run(ops[..i]), ops[i], task)
    ensures var w := Run(ops); task in w.db.workflows && forall a :: GetByActionId(w.db, a) != Some(task)
  {
    hide Do;
    TornStays(ops, n, task);
    RunAliases(ops);
  }

  lemma {:induction false} TornStays(ops: seq<Op>, n: nat, task: Id)
    requires n <= |ops| && task in Run(ops[..n]).torn
    requires forall i :: n <= i < |ops| ==> !Deletes(Run(ops[..i]), ops[i], task)
    ensures task in Run(ops).torn
  {
    if n == |ops| {
      assert ops[..n] == ops;
    } else {
      hide Do, Deletes, Enabled;
      var front := ops[..|ops| - 1];
      assert front[..n] == ops[..n];
      assert forall i :: n <= i < |front| ==> front[..i] == ops[..i];
      TornStays(front, n, task);
      DoKeepsTorn(Run(front), ops[|ops| - 1], task);
    }
  }

  // ---- every Action ID ever assigned ----------------------------------------------------

  /** This operation removes the workflow, or its aliases. */
  predicate Purges(w: World, op: Op, task: Id) {
    match op
    case DoPurge(retention) => task in DueTasks(w.db, retention, w.now)
    case DoPurgePart(retention, gone, half) => task in gone || half == Some(task)
    case _ => false
  }

  lemma DoKeepsAlias(w: World, op: Op, action: Id, task: Id)
    requires GetByActionId(w.db, action) == Some(task) && !Purges(w, op, task)
    ensures GetByActionId(Do(w, op).db, action) == Some(task)
  {
    hide Claimable, Due;
  }

  /** From operation `n` on, every Action ID assigned to a workflow finds it until that workflow is purged. */
  lemma {:induction false} AssignedActionIdsFind(ops: seq<Op>, n: nat, action: Id, task: Id)
    requires n <= |ops| && GetByActionId(Run(ops[..n]).db, action) == Some(task)
    requires forall i :: n <= i < |ops| ==> !Purges(Run(ops[..i]), ops[i], task)
    ensures GetByActionId(Run(ops).db, action) == Some(task)
  {
    if n == |ops| {
      assert ops[..n] == ops;
    } else {
      hide Do, Purges, GetByActionId, Enabled;
      var front := ops[..|ops| - 1];
      assert front[..n] == ops[..n];
      assert forall i :: n <= i < |front| ==> front[..i] == ops[..i];
      AssignedActionIdsFind(front, n, action, task);
      DoKeepsAlias(Run(front), ops[|ops| - 1], action, task);
    }
  }

  // ---- terminal rows --------------------------------------------------------------------

  ghost predicate SettledAs(w: World, task: Id, state: State, resolution: Option<string>, resolvedAt: Option<int>) {
    && task in w.db.workflows && Terminal(state)
    && w.db.workflows[task].state == state && w.db.workflows[task].resolution == resolution
    && w.db.workflows[task].resolvedAt == resolvedAt
  }

  lemma DoKeepsSettled(w: World, op: Op, task: Id, state: State, resolution: Option<string>, resolvedAt: Option<int>)
    requires SettledAs(w, task, state, resolution, resolvedAt) && !Deletes(w, op, task) && Promised(op)
    ensures SettledAs(Do(w, op), task, state, resolution, resolvedAt)
  {
    hide Due;
  }

  /** From operation `n` on, a terminal state and its resolution never change until the row is deleted. */
  lemma {:induction false} TerminalIsFinal(ops: seq<Op>, n: nat, task: Id, state: State, resolution: Option<string>,
                                           resolvedAt: Option<int>)
    requires n <= |ops| && SettledAs(Run(ops[..n]), task, state, resolution, resolvedAt)
    requires forall i :: n <= i < |ops| ==> Promised(ops[i]) && !Deletes(Run(ops[..i]), ops[i], task)
    ensures SettledAs(Run(ops), task, state, resolution, resolvedAt)
  {
    if n == |ops| {
      assert ops[..n] == ops;
    } else {
      hide Do, Deletes, SettledAs, Enabled;
      var front := ops[..|ops| - 1];
      assert front[..n] == ops[..n];
      assert forall i :: n <= i < |front| ==> front[..i] == ops[..i];
      TerminalIsFinal(front, n, task, state, resolution, resolvedAt);
      DoKeepsSettled(Run(front), ops[|ops| - 1], task, state, resolution, resolvedAt);
    }
  }

  /** The statement itself reopens a settled row, exactly when asked for from its terminal state,
      which no typed caller does. */
  lemma ReplacementReopens(db: Tables, task: Id, action: Id, from: State, expiresAt: int, columns: map<string, string>)
    requires task in db.workflows && Terminal(db.workflows[task].state)
    requires Replace(db, task, action, from, expiresAt, columns).1.Ok?
    ensures from == db.workflows[task].state
    ensures !Terminal(Replace(db, task, action, from, expiresAt, columns).0.workflows[task].state)
  {
  }

  // ---- leases ---------------------------------------------------------------------------

  /** The row names the worker whose lease ends last; every other worker's lease has ended. */
  ghost predicate LeaseOk(row: Row, task: Id, leases: map<(Id, Id), int>, now: int) {
    forall k :: k in leases && k.0 == task ==>
      if row.claimedBy == Some(k.1) then row.claimExpires == Some(leases[k]) else leases[k] <= now
  }

  ghost predicate LeasesOk(w: World) {
    && (forall k :: k in w.leases ==> k.0 in w.db.workflows)
    && (forall t :: t in w.db.workflows ==> LeaseOk(w.db.workflows[t], t, w.leases, w.now))
  }

  /** This worker was granted a lease on the workflow that has not ended at this time. */
  ghost predicate HoldsLease(w: World, task: Id, worker: Id, time: int) {
    (task, worker) in w.leases && w.leases[(task, worker)] > time
  }

  lemma ClaimLeases(w: World, task: Id, worker: Id, lease: int)
    requires LeasesOk(w)
    ensures LeasesOk(Do(w, DoClaim(task, worker, lease)))
  {
  }

  lemma PurgeLeases(w: World, gone: set<Id>, half: Option<Id>)
    requires LeasesOk(w)
    ensures LeasesOk(PurgeWorld(w, gone, half))
  {
  }

  lemma OtherLeases(w: World, op: Op)
    requires LeasesOk(w) && Enabled(w, op) && !op.DoClaim? && !op.DoPurge? && !op.DoPurgePart?
    ensures LeasesOk(Do(w, op))
  {
    hide Due, CurrentTaken;
  }

  lemma {:induction false} RunLeases(ops: seq<Op>)
    ensures LeasesOk(Run(ops))
  {
    if ops != [] {
      hide Do, LeasesOk, Enabled;
      RunLeases(ops[..|ops| - 1]);
      DoLeases(Run(ops[..|ops| - 1]), ops[|ops| - 1]);
    }
  }

  lemma DoLeases(w: World, op: Op)
    requires LeasesOk(w)
    ensures Enabled(w, op) ==> LeasesOk(Do(w, op))
  {
    hide LeasesOk, PurgeWorld, Claim, DueTasks;
    if Enabled(w, op) {
      match op
      case DoClaim(task, worker, lease) => ClaimLeases(w, task, worker, lease);
      case DoPurge(retention) => PurgeLeases(w, DueTasks(w.db, retention, w.now), None);
      case DoPurgePart(retention, gone, half) => PurgeLeases(w, gone, half);
      case _ => OtherLeases(w, op);
    }
  }

  /** At no instant from now on do two workers hold a lease granted so far on one workflow. */
  lemma {:induction false} OneLease(ops: seq<Op>, task: Id, a: Id, b: Id, time: int)
    requires var w := Run(ops); time >= w.now && HoldsLease(w, task, a, time) && HoldsLease(w, task, b, time)
    ensures a == b && task in Run(ops).db.workflows && Run(ops).db.workflows[task].claimedBy == Some(a)
  {
    RunLeases(ops);
    var w := Run(ops);
    assert LeaseOk(w.db.workflows[task], task, w.leases, w.now);
    assert (task, a) in w.leases && (task, b) in w.leases;
  }

  /** A claimed row always has an expiry, and its claimant was granted that lease. */
  ghost predicate ClaimsGranted(w: World) {
    forall t :: t in w.db.workflows && w.db.workflows[t].claimedBy.Some? ==>
      && (t, w.db.workflows[t].claimedBy.value) in w.leases
      && w.db.workflows[t].claimExpires == Some(w.leases[(t, w.db.workflows[t].claimedBy.value)])
  }

  lemma DoClaims(w: World, op: Op)
    requires ClaimsGranted(w)
    ensures ClaimsGranted(Do(w, op))
  {
    hide Due, CurrentTaken;
  }

  lemma {:induction false} RunClaims(ops: seq<Op>)
    ensures ClaimsGranted(Run(ops))
  {
    if ops != [] {
      hide Do, ClaimsGranted, Enabled;
      RunClaims(ops[..|ops| - 1]);
      StartClaims();
      DoClaims(Run(ops[..|ops| - 1]), ops[|ops| - 1]);
    } else {
      StartClaims();
    }
  }

  lemma StartClaims()
    ensures ClaimsGranted(START)
  {
  }

  /** A claim is granted exactly on an open workflow on which no other worker holds a lease, to its worker. */
  lemma {:induction false} ClaimIsExact(ops: seq<Op>, task: Id, worker: Id, lease: int)
    requires task in Run(ops).db.workflows
    ensures var w := Run(ops); var x := Do(w, DoClaim(task, worker, lease));
            var open := w.db.workflows[task].state.Open?;
            && (Claim(w.db, task, worker, lease, w.now).1 <==>
                  open && forall other :: other != worker ==> !HoldsLease(w, task, other, w.now))
            && (Claim(w.db, task, worker, lease, w.now).1 ==>
                  forall time :: HoldsLease(x, task, worker, time) <==> time < w.now + lease)
            && (!Claim(w.db, task, worker, lease, w.now).1 ==> x == w)
  {
    RunLeases(ops);
    RunClaims(ops);
    var w := Run(ops);
    var row := w.db.workflows[task];
    assert LeaseOk(row, task, w.leases, w.now);
    if row.claimedBy.Some? && row.claimedBy.value != worker {
      assert HoldsLease(w, task, row.claimedBy.value, w.now) <==> row.claimExpires.value > w.now;
    }
  }

  // ---- what a purge removes -------------------------------------------------------------

  /** A terminal row has the time it became so. */
  ghost predicate SettledDated(db: Tables) {
    forall t :: t in db.workflows && Terminal(db.workflows[t].state) ==> db.workflows[t].resolvedAt.Some?
  }

  lemma DoDated(w: World, op: Op)
    requires SettledDated(w.db)
    ensures SettledDated(Do(w, op).db)
  {
    hide Due, CurrentTaken;
  }

  lemma {:induction false} RunDated(ops: seq<Op>)
    ensures SettledDated(Run(ops).db)
  {
    if ops != [] {
      hide Do, Enabled, SettledDated;
      RunDated(ops[..|ops| - 1]);
      StartDated();
      DoDated(Run(ops[..|ops| - 1]), ops[|ops| - 1]);
    } else {
      StartDated();
    }
  }

  lemma StartDated()
    ensures SettledDated(START.db)
  {
  }

  /**
   Over every run: a purge keeps a workflow, row and aliases, exactly if it is open, has not
   expired, or was settled no longer ago than it is to be kept; of any other it leaves nothing.
   */
  lemma {:induction false} PurgeIsExact(ops: seq<Op>, retention: int, task: Id)
    requires task in Run(ops).db.workflows
    ensures var w := Run(ops); var row := w.db.workflows[task]; var x := Do(w, DoPurge(retention));
            && (row.state.Open? || row.resolvedAt.Some?)
            && var kept := row.state.Open? || w.now <= row.expiresAt || w.now - row.resolvedAt.value <= retention;
            && (task in x.db.workflows <==> kept)
            && (kept ==> x.db.workflows[task] == row)
            && (forall a :: GetByActionId(x.db, a) == Some(task) <==> kept && GetByActionId(w.db, a) == Some(task))
  {
    RunDated(ops);
    hide Run;
  }

  // ---- what each statement does ---------------------------------------------------------

  /** A workflow is created exactly when its task is new and its Action ID is nobody's, and is then found by it. */
  lemma CreateIsExact(db: Tables, task: Id, action: Id, expiresAt: int, columns: map<string, string>)
    ensures var (x, result) := Create(db, task, action, expiresAt, columns);
            && (result.Ok? <==>
                  && task != action && task !in db.workflows && action !in db.aliases
                  && forall t :: t in db.workflows ==> db.workflows[t].current != action)
            && (!result.Ok? ==> x == db)
            && (result.Ok? ==>
                  && GetByActionId(x, action) == Some(task) && x.workflows[task].state.Open?
                  && x.workflows[task].columns == columns && x.workflows[task].expiresAt == expiresAt
                  && x.workflows[task].claimedBy.None?
                  && (forall t :: t in db.workflows ==> t in x.workflows && x.workflows[t] == db.workflows[t])
                  && x.aliases == db.aliases[action := task])
  {
  }

  /**
   An action is replaced exactly when its workflow is in the state asked for and the new Action ID is
   nobody's; both Action IDs then find the workflow, which goes to coordination again.
   */
  lemma ReplaceIsExact(db: Tables, task: Id, action: Id, from: State, expiresAt: int, columns: map<string, string>)
    ensures var (x, result) := Replace(db, task, action, from, expiresAt, columns);
            && (result.Ok? <==>
                  && task != action && action !in db.aliases && task in db.workflows
                  && db.workflows[task].state == from
                  && forall t :: t in db.workflows && t != task ==> db.workflows[t].current != action)
            && (!result.Ok? ==> x == db)
            && (result.Ok? ==>
                  && GetByActionId(x, action) == Some(task) && x.aliases == db.aliases[action := task]
                  && x.workflows[task].state == Open("submittingToCoordination") && x.workflows[task].current == action
                  && x.workflows[task].columns == columns && x.workflows[task].expiresAt == expiresAt
                  && x.workflows[task].claimedBy == db.workflows[task].claimedBy
                  && x.workflows[task].attempts == db.workflows[task].attempts
                  && (forall t :: t in db.workflows && t != task ==>
                        t in x.workflows && x.workflows[t] == db.workflows[t]))
  {
  }

  /** A workflow moves between open states exactly from the one asked for, and only its state changes. */
  lemma MoveIsExact(db: Tables, task: Id, from: State, to: State)
    ensures var (x, moved) := CompareAndSet(db, task, from, to);
            && (moved <==> from.Open? && to.Open? && task in db.workflows && db.workflows[task].state == from)
            && (!moved ==> x == db)
            && (moved ==>
                  && x.aliases == db.aliases && x.workflows.Keys == db.workflows.Keys
                  && x.workflows[task].state == to && x.workflows[task].(state := from) == db.workflows[task]
                  && forall t :: t in db.workflows && t != task ==> x.workflows[t] == db.workflows[t])
  {
  }

  /** A workflow is settled exactly when it is open, once, with its time; nothing else of it moves. */
  lemma SettleIsExact(db: Tables, task: Id, state: State, resolution: string, now: int)
    ensures var (x, settled) := Settle(db, task, state, resolution, now);
            && (settled <==> task in db.workflows && db.workflows[task].state.Open?)
            && (!settled ==> x == db)
            && (settled ==>
                  && x.workflows[task].state == state && x.workflows[task].resolution == Some(resolution)
                  && x.workflows[task].resolvedAt == Some(now)
                  && x.workflows[task].current == db.workflows[task].current
                  && x.workflows[task].attempts == db.workflows[task].attempts
                  && x.aliases == db.aliases && x.workflows.Keys == db.workflows.Keys
                  && forall t :: t in db.workflows && t != task ==> x.workflows[t] == db.workflows[t])
  {
  }
}
