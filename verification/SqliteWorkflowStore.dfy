/**
 The workflow store over one SQLite database: statements that may fail, transactions that are
 rolled back, and the purge as a loop.  Every method is proved to do what module WorkflowTables
 says, or to leave both tables as they were.
 */
module SqliteWorkflowStore {
  import opened Wrappers
  import opened WorkflowTables

  /** What one statement did; a fault is any other error of the database. */
  datatype Statement = Done | UniqueViolation | ForeignKeyViolation | Fault

  /** The database failed at one of these statements. */
  ghost predicate Faulted(faults: nat -> bool, from: nat, to: nat) {
    exists n :: from <= n < to && faults(n)
  }

  class Database {
    var tables: Tables
    var saved: Option<Tables>
    const faults: nat -> bool
    var statements: nat

    constructor (faults: nat -> bool)
      ensures tables == Tables(map[], map[]) && saved.None? && this.faults == faults && statements == 0
    {
      tables := Tables(map[], map[]);
      saved := None;
      this.faults := faults;
      statements := 0;
    }

    method Fails() returns (fails: bool)
      modifies this`statements
      ensures fails == faults(old(statements)) && statements == old(statements) + 1
    {
      fails := faults(statements);
      statements := statements + 1;
    }

    method Begin() returns (s: Statement)
      requires saved.None?
      modifies this`saved, this`statements
      ensures statements == old(statements) + 1 && (s.Fault? <==> faults(old(statements)))
      ensures s == Done || s == Fault
      ensures saved == if s.Done? then Some(tables) else None
    {
      var fails := Fails();
      if fails {
        return Fault;
      }
      saved := Some(tables);
      s := Done;
    }

    method InsertWorkflowRow(task: Id, row: Row) returns (s: Statement)
      modifies this`tables, this`statements
      ensures statements == old(statements) + 1 && (s.Fault? <==> faults(old(statements)))
      ensures s.Done? ==> InsertWorkflow(old(tables), task, row) == Some(tables)
      ensures !s.Done? ==> tables == old(tables)
      ensures s.UniqueViolation? ==> InsertWorkflow(tables, task, row).None?
      ensures !s.ForeignKeyViolation?
    {
      var fails := Fails();
      var inserted := InsertWorkflow(tables, task, row);
      if fails {
        return Fault;
      }
      if inserted.None? {
        return UniqueViolation;
      }
      tables := inserted.value;
      s := Done;
    }

    method InsertAliasRow(action: Id, task: Id) returns (s: Statement)
      modifies this`tables, this`statements
      ensures statements == old(statements) + 1 && (s.Fault? <==> faults(old(statements)))
      ensures s.Done? ==> InsertAlias(old(tables), action, task) == Some(tables)
      ensures !s.Done? ==> tables == old(tables)
      ensures s.UniqueViolation? ==> action in tables.aliases
      ensures s.ForeignKeyViolation? ==> task !in tables.workflows
    {
      var fails := Fails();
      if fails {
        return Fault;
      }
      if action in tables.aliases {
        return UniqueViolation;
      }
      if task !in tables.workflows {
        return ForeignKeyViolation;
      }
      tables := tables.(aliases := tables.aliases[action := task]);
      s := Done;
    }

    /** Updates the row if it is in this state; `changes` counts the rows. */
    method ReplaceRow(task: Id, from: State, row: Row) returns (s: Statement, changes: nat)
      requires task in tables.workflows
      modifies this`tables, this`statements
      ensures statements == old(statements) + 1 && (s.Fault? <==> faults(old(statements)))
      ensures s.Done? && changes == 1 ==>
                && old(tables).workflows[task].state == from && !CurrentTaken(old(tables), row.current, Some(task))
                && tables == Update(old(tables), task, row)
      ensures !(s.Done? && changes == 1) ==> tables == old(tables)
      ensures s.Done? && changes != 1 ==> tables.workflows[task].state != from
      ensures s.UniqueViolation? ==>
                tables.workflows[task].state == from && CurrentTaken(tables, row.current, Some(task))
      ensures !s.ForeignKeyViolation?
    {
      var fails := Fails();
      if fails {
        return Fault, 0;
      }
      if tables.workflows[task].state != from {
        return Done, 0;
      }
      if CurrentTaken(tables, row.current, Some(task)) {
        return UniqueViolation, 0;
      }
      tables := Update(tables, task, row);
      return Done, 1;
    }

    method Commit() returns (s: Statement)
      modifies this`saved, this`statements
      ensures statements == old(statements) + 1 && (s.Fault? <==> faults(old(statements)))
      ensures s == Done || s == Fault
      ensures saved == if s.Done? then None else old(saved)
    {
      var fails := Fails();
      if fails {
        return Fault;
      }
      saved := None;
      s := Done;
    }

    /** Rolling back without a transaction does nothing. */
    method Rollback()
      modifies this`tables, this`saved
      ensures saved.None? && tables == if old(saved).Some? then old(saved).value else old(tables)
    {
      if saved.Some? {
        tables := saved.value;
        saved := None;
      }
    }

    method DeleteAliasesOf(task: Id) returns (ok: bool)
      modifies this`tables, this`statements
      ensures statements == old(statements) + 1 && (ok <==> !faults(old(statements)))
      ensures tables == if ok then DropAliases(old(tables), {task}) else old(tables)
    {
      var fails := Fails();
      if fails {
        return false;
      }
      tables := DropAliases(tables, {task});
      ok := true;
    }

    /** Deletes one row; the foreign key holds because its aliases are gone. */
    method DeleteWorkflow(task: Id) returns (ok: bool)
      requires forall a :: a in tables.aliases ==> tables.aliases[a] != task
      modifies this`tables, this`statements
      ensures statements == old(statements) + 1 && (ok <==> !faults(old(statements)))
      ensures tables == if ok then DropTasks(old(tables), {task}) else old(tables)
    {
      var fails := Fails();
      if fails {
        return false;
      }
      tables := DropTasks(tables, {task});
      ok := true;
    }
  }

  class SqliteWorkflowStore {
    const db: Database

    constructor (db: Database)
      ensures this.db == db
    {
      this.db := db;
    }

    /** Both rows are inserted, or neither. */
    method CreateWorkflow(task: Id, action: Id, expiresAt: int, columns: map<string, string>) returns (r: Result)
      requires db.saved.None?
      modifies db
      ensures db.saved.None?
      ensures r == Err(DatabaseFault) <==> Faulted(db.faults, old(db.statements), db.statements)
      ensures r != Err(DatabaseFault) ==> (db.tables, r) == Create(old(db.tables), task, action, expiresAt, columns)
      ensures r.Err? ==> db.tables == old(db.tables)
    {
      hide InsertWorkflow;
      if task == action {
        return Err(SameIds);
      }
      var s := db.Begin();
      if s.Done? {
        s := db.InsertWorkflowRow(task, NewRow(action, expiresAt, columns));
        if s.Done? {
          InsertedIsThere(old(db.tables), task, NewRow(action, expiresAt, columns));
          s := db.InsertAliasRow(action, task);
          if s.Done? {
            s := db.Commit();
          }
        }
      }
      if s.Done? {
        return Ok;
      }
      db.Rollback();
      r := Err(if s.UniqueViolation? then AlreadyExists else DatabaseFault);
    }

    /** The alias is inserted and the row updated, or neither. */
    method ReplaceAction(task: Id, action: Id, from: State, expiresAt: int, columns: map<string, string>)
        returns (r: Result)
      requires db.saved.None?
      modifies db
      ensures db.saved.None?
      ensures r == Err(DatabaseFault) <==> Faulted(db.faults, old(db.statements), db.statements)
      ensures r != Err(DatabaseFault) ==>
                (db.tables, r) == Replace(old(db.tables), task, action, from, expiresAt, columns)
      ensures r.Err? ==> db.tables == old(db.tables)
    {
      if task == action {
        return Err(SameIds);
      }
      var s := db.Begin();
      var changes := 1;
      if s.Done? {
        s := db.InsertAliasRow(action, task);
        if s.Done? {
          s, changes := db.ReplaceRow(task, from, Replacement(db.tables.workflows[task], action, expiresAt, columns));
          if s.Done? && changes == 1 {
            s := db.Commit();
          }
        }
      }
      if s.Done? && changes == 1 {
        return Ok;
      }
      db.Rollback();
      r := Err(if s.Done? then NotInState else if s.Fault? then DatabaseFault else AlreadyExists);
    }

    /** Terminal states are entered and left by no compare-and-set. */
    method CompareAndSetState(task: Id, from: State, to: State) returns (changed: bool)
      modifies db`tables
      ensures (db.tables, changed) == CompareAndSet(old(db.tables), task, from, to)
    {
      if Terminal(from) || Terminal(to) {
        return false;
      }
      changed := task in db.tables.workflows && db.tables.workflows[task].state == from;
      if changed {
        db.tables := Update(db.tables, task, db.tables.workflows[task].(state := to));
      }
    }

    /** Takes or renews the lease unless another worker's has not ended. */
    method ClaimWorkflow(task: Id, worker: Id, lease: int, now: int) returns (granted: bool)
      modifies db`tables
      ensures (db.tables, granted) == Claim(old(db.tables), task, worker, lease, now)
    {
      if task !in db.tables.workflows {
        return false;
      }
      var row := db.tables.workflows[task];
      if Terminal(row.state) {
        return false;
      }
      if row.claimedBy.Some? && row.claimedBy.value != worker &&
          !(row.claimExpires.Some? && row.claimExpires.value <= now) {
        return false;
      }
      db.tables := Update(db.tables, task, row.(claimedBy := Some(worker), claimExpires := Some(now + lease)));
      granted := true;
    }

    /** Resolving or cancelling an open workflow; a terminal one is left alone. */
    method SettleWorkflow(task: Id, state: State, resolution: string, now: int) returns (changed: bool)
      requires Terminal(state)
      modifies db`tables
      ensures (db.tables, changed) == Settle(old(db.tables), task, state, resolution, now)
    {
      changed := task in db.tables.workflows && !Terminal(db.tables.workflows[task].state);
      if changed {
        var row := db.tables.workflows[task];
        db.tables :=
            Update(db.tables, task, row.(state := state, resolution := Some(resolution), resolvedAt := Some(now)));
      }
    }

    /** Removes one task's aliases, then its row. */
    method PurgeOne(task: Id) returns (ok: bool, ghost half: bool)
      modifies db
      ensures db.saved == old(db.saved) && old(db.statements) < db.statements
      ensures ok <==> !Faulted(db.faults, old(db.statements), db.statements)
      ensures ok ==> db.tables == DropTasks(old(db.tables), {task})
      ensures !ok ==> db.tables == if half then DropAliases(old(db.tables), {task}) else old(db.tables)
    {
      half := false;
      AliasesGone(db.tables, task);
      ok := db.DeleteAliasesOf(task);
      if ok {
        ok := db.DeleteWorkflow(task);
        half := !ok;
      }
    }

    /**
     Removes every terminal row past its retention, one after the other; a fault stops it after
     the workflows in `gone`, maybe between the two deletes of one more.
     */
    method PurgeExpiredResults(retention: int, now: int)
        returns (ok: bool, purged: nat, ghost gone: set<Id>, ghost half: Option<Id>)
      modifies db
      ensures ok <==> !Faulted(db.faults, old(db.statements), db.statements)
      ensures db.saved == old(db.saved) && purged == |gone|
      ensures gone <= DueTasks(old(db.tables), retention, now)
      ensures ok ==>
                db.tables == Purge(old(db.tables), retention, now) && gone == DueTasks(old(db.tables), retention, now)
      ensures half.Some? ==> !ok && half.value in DueTasks(old(db.tables), retention, now) - gone
      ensures db.tables == if half.Some? then DropAliases(DropTasks(old(db.tables), gone), {half.value})
                           else DropTasks(old(db.tables), gone)
    {
      ghost var start := db.tables;
      ghost var due := DueTasks(start, retention, now);
      var rows := TerminalTasks(db.tables);
      var dates := db.tables.workflows;
      gone, half, purged := {}, None, 0;
      DropNothing(start);
      DueAreTerminal(start, retention, now);
      hide DropTasks, DropAliases, DueTasks, Due, TerminalTasks;
      while rows != {}
        invariant !Faulted(db.faults, old(db.statements), db.statements) && old(db.statements) <= db.statements
        invariant rows <= TerminalTasks(start) && gone == due - rows
        invariant db.tables == DropTasks(start, gone) && db.saved == old(db.saved) && purged == |gone|
        decreases rows
      {
        var task :| task in rows;
        rows := rows - {task};
        DueIs(start, retention, now, task);
        if Due(dates[task], retention, now) {
          DroppedOne(start, gone, task);
          ghost var cut;
          ok, cut := PurgeOne(task);
          if !ok {
            half := if cut then Some(task) else None;
            return false, purged, gone, half;
          }
          purged := purged + 1;
          gone := gone + {task};
        }
      }
      ok := true;
    }
  }

  lemma InsertedIsThere(db: Tables, task: Id, row: Row)
    ensures InsertWorkflow(db, task, row).Some? ==>
              task in InsertWorkflow(db, task, row).value.workflows &&
                  InsertWorkflow(db, task, row).value.aliases == db.aliases
  {
  }

  function TerminalTasks(db: Tables): set<Id> {
    set t | t in db.workflows && Terminal(db.workflows[t].state)
  }

  lemma DropNothing(db: Tables)
    ensures DropTasks(db, {}) == db
  {
    assert DropTasks(db, {}).workflows == db.workflows && DropTasks(db, {}).aliases == db.aliases;
  }

  lemma DueAreTerminal(db: Tables, retention: int, now: int)
    ensures DueTasks(db, retention, now) <= TerminalTasks(db)
  {
  }

  lemma DueIs(db: Tables, retention: int, now: int, task: Id)
    requires task in TerminalTasks(db)
    ensures task in db.workflows && (task in DueTasks(db, retention, now) <==> Due(db.workflows[task], retention, now))
  {
  }

  lemma AliasesGone(db: Tables, task: Id)
    ensures forall a :: a in DropAliases(db, {task}).aliases ==> DropAliases(db, {task}).aliases[a] != task
    ensures DropTasks(DropAliases(db, {task}), {task}) == DropTasks(db, {task})
    ensures DropAliases(db, {task}).workflows == db.workflows
  {
    assert DropAliases(DropAliases(db, {task}), {task}).aliases == DropAliases(db, {task}).aliases;
  }

  /** Removing one more task. */
  lemma DroppedOne(db: Tables, gone: set<Id>, task: Id)
    requires task in db.workflows && task !in gone
    ensures DropTasks(DropTasks(db, gone), {task}) == DropTasks(db, gone + {task})
    ensures task in DropTasks(db, gone).workflows
  {
    assert DropTasks(DropTasks(db, gone), {task}).workflows == DropTasks(db, gone + {task}).workflows;
    assert DropTasks(DropTasks(db, gone), {task}).aliases == DropTasks(db, gone + {task}).aliases;
  }
}
