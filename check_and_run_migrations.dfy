/** The deployment entry point: run the migrations only when the sentinel `users` table is
    missing. Exit statuses are returned instead of ending the process. */
module CheckAndRunMigrations {
  import opened Results
  import opened Database
  import opened Migrations

  /** The gate. `usersTable` is what the catalog query answered: whether the `users` table
      exists, or the error it raised. Any failure reads as "not needed"; on its success path
      the gate ends the pool, which stays cached. */
  method CheckIfMigrationNeeded(cm: ConnectionManager, boot: Boot, usersTable: Result<bool, string>)
    returns (needed: bool)
    modifies cm, cm.pool
    ensures needed <==> InitSucceeds(old(cm.pool) != null, boot) && usersTable == Success(false)
    ensures old(cm.pool) != null ==> cm.pool == old(cm.pool)
    ensures old(cm.pool) == null && cm.pool != null ==> fresh(cm.pool)
    ensures InitSucceeds(old(cm.pool) != null, boot) ==> cm.pool != null
    ensures InitSucceeds(old(cm.pool) != null, boot) && usersTable.Success? ==>
      cm.pool.ended && cm.EndCount() == old(cm.EndCount()) + 1
    ensures !(InitSucceeds(old(cm.pool) != null, boot) && usersTable.Success?) ==> cm.EndCount() == old(cm.EndCount())
    ensures !(InitSucceeds(old(cm.pool) != null, boot) && usersTable.Success?) && cm.pool != null ==>
      cm.pool.ended == (old(cm.pool) != null && old(cm.pool.ended))
    ensures cm.Log() == old(cm.Log())
    ensures cm.pool != null && old(cm.pool) != null ==> cm.pool.queriedAfterEnd == old(cm.pool.queriedAfterEnd)
  {
    var init := cm.InitializeDatabase(boot);
    if init.Failure? {
      return false;
    }
    var got := cm.GetPool();
    var pool := got.value;
    if usersTable.Failure? {
      return false;
    }
    var usersTableExists := usersTable.value;
    pool.End();
    return !usersTableExists;
  }

  /** Whether `runMigrations` calls `pool.end()`: when there is nothing to run, and after
      the loop stops for any reason but an unreadable file. */
  predicate EndsPool(r: RunResult) {
    r == NoMigrationFiles || (r.Ran? && r.steps != [] && !r.steps[|r.steps| - 1].Unreadable?)
  }

  /** The body of `runMigrations` once the pool is obtained: scan, run the files, and end the
      pool when there is nothing to run, after a fatal SQL error and after a complete run, but
      not when a file cannot be read. */
  method RunOnPool(pool: Pool, names: seq<string>, contents: map<string, string>, engine: Engine)
    returns (r: RunResult)
    modifies pool
    ensures r == RunOn(Scan(names), contents, engine, old(pool.executed))
    ensures pool.executed == if r.Ran? then Execute(Scan(names), contents, engine, old(pool.executed)).log else old(pool.executed)
    ensures pool.endCalls == old(pool.endCalls) + if EndsPool(r) then 1 else 0
    ensures pool.ended == (old(pool.ended) || EndsPool(r))
    ensures pool.queriedAfterEnd == (old(pool.queriedAfterEnd) || (old(pool.ended) && |pool.executed| > |old(pool.executed)|))
  {
    var files := Scan(names);
    if |files| == 0 {
      pool.End();
      r := NoMigrationFiles;
    } else {
      ghost var log := pool.executed;
      var steps := ExecuteFiles(pool, files, contents, engine);
      ExecuteShape(files, contents, engine, log);
      r := Ran(steps);
      if !steps[|steps| - 1].Unreadable? {
        // `pool.end()` before rethrowing a fatal SQL error, or after the last file
        pool.End();
      }
    }
  }

  /** `runMigrations` of this script: obtain the pool, then run on it; any failure is thrown
      to the caller. */
  method RunMigrations(cm: ConnectionManager, boot: Boot, names: seq<string>, contents: map<string, string>, engine: Engine)
    returns (r: RunResult)
    modifies cm, cm.pool
    ensures r == RunOf(old(cm.pool) != null, boot, names, contents, engine, old(cm.Log()))
    ensures old(cm.pool) != null ==> cm.pool == old(cm.pool)
    ensures r.InitFailed? ==> cm.pool == null || (fresh(cm.pool) && cm.pool.executed == [] && !cm.pool.ended && cm.pool.endCalls == 0)
    ensures !r.InitFailed? ==> cm.pool != null
    ensures !r.InitFailed? ==>
      cm.pool.executed == if r.Ran? then Execute(Scan(names), contents, engine, old(cm.Log())).log else old(cm.Log())
    ensures !r.InitFailed? ==> cm.pool.endCalls == old(cm.EndCount()) + if EndsPool(r) then 1 else 0
    ensures !r.InitFailed? ==> cm.pool.ended == ((old(cm.pool) != null && old(cm.pool.ended)) || EndsPool(r))
    ensures old(cm.pool) != null && old(cm.pool.ended) ==>
      cm.pool.queriedAfterEnd == (old(cm.pool.queriedAfterEnd) || |cm.pool.executed| > |old(cm.Log())|)
  {
    var init := cm.InitializeDatabase(boot);
    if init.Failure? {
      r := InitFailed(init.error);
    } else {
      var got := cm.GetPool();
      r := RunOnPool(got.value, names, contents, engine);
    }
  }

  /** What `main` runs: nothing when the gate says no migration is needed, otherwise the
      runner on the pool the gate left cached. */
  function Main(cached: bool, boot: Boot, usersTable: Result<bool, string>,
                names: seq<string>, contents: map<string, string>, engine: Engine, log: seq<string>): (run: Option<RunResult>)
    ensures run.None? <==> !(InitSucceeds(cached, boot) && usersTable == Success(false))
    ensures run.Some? ==> !run.value.InitFailed?
  {
    if InitSucceeds(cached, boot) && usersTable == Success(false) then
      Some(RunOn(Scan(names), contents, engine, log))
    else
      None
  }

  /** The process exit status `main` ends with. */
  function ExitStatus(run: Option<RunResult>): (status: int)
    ensures status == 1 <==> run.Some? && run.value.Aborted()
    ensures status == 0 || status == 1
  {
    if run.Some? && run.value.Aborted() then 1 else 0
  }

  /** `main`: exit 0 when the gate says no migration is needed (the directory is then never
      listed) and after a run that completes; exit 1 only when `runMigrations` throws. */
  method CheckAndRun(cm: ConnectionManager, boot: Boot, usersTable: Result<bool, string>,
                     names: seq<string>, contents: map<string, string>, engine: Engine)
    returns (status: int, run: Option<RunResult>)
    modifies cm, cm.pool
    ensures run == Main(old(cm.pool) != null, boot, usersTable, names, contents, engine, old(cm.Log()))
    ensures status == ExitStatus(run)
    ensures run.Some? && old(cm.pool) == null ==> |cm.Log()| > 0 ==> cm.pool != null && cm.pool.queriedAfterEnd
    ensures run.Some? && !run.value.Aborted() ==> cm.EndCount() == old(cm.EndCount()) + 2
  {
    var needed := CheckIfMigrationNeeded(cm, boot, usersTable);
    if !needed {
      return 0, None;
    }
    ghost var gated := cm.pool;
    assert gated.ended && cm.Log() == old(cm.Log());
    var r := RunMigrations(cm, boot, names, contents, engine);
    assert cm.pool == gated;
    assert r.Ran? ==> r.steps != [];
    assert !r.Aborted() ==> EndsPool(r);
    run := Some(r);
    status := ExitStatus(run);
  }
}
