/** The stand-alone migration script: the same scan and executor as the deployment entry
    point, but it ends the pool only after a complete run, and it decides the exit status
    itself (none at all when there is nothing to run). */
module RunMigrationsScript {
  import opened Results
  import opened Database
  import opened Migrations
  import CheckAndRunMigrations

  /** The run got through every file. */
  predicate Completed(r: RunResult) {
    r.Ran? && !r.Aborted()
  }

  /** The exit status: none when there are no files (the function just returns), 0 after a
      complete run, 1 when anything was thrown. */
  function ExitCode(r: RunResult): (code: Option<int>)
    ensures code.None? <==> r == NoMigrationFiles
    ensures code == Some(0) <==> Completed(r)
    ensures code == Some(1) <==> r.Aborted()
  {
    if r == NoMigrationFiles then None
    else if r.Aborted() then Some(1)
    else Some(0)
  }

  /** After the pool is obtained: scan, run the files, and end the pool only after the last
      one. */
  method RunOnPool(pool: Pool, names: seq<string>, contents: map<string, string>, engine: Engine)
    returns (r: RunResult)
    modifies pool
    ensures r == RunOn(Scan(names), contents, engine, old(pool.executed))
    ensures pool.executed == if r.Ran? then Execute(Scan(names), contents, engine, old(pool.executed)).log else old(pool.executed)
    ensures pool.endCalls == old(pool.endCalls) + if Completed(r) then 1 else 0
    ensures pool.ended == (old(pool.ended) || Completed(r))
    ensures pool.queriedAfterEnd == (old(pool.queriedAfterEnd) || (old(pool.ended) && |pool.executed| > |old(pool.executed)|))
  {
    var files := Scan(names);
    if |files| == 0 {
      r := NoMigrationFiles;
    } else {
      ghost var log := pool.executed;
      var steps := ExecuteFiles(pool, files, contents, engine);
      ExecuteShape(files, contents, engine, log);
      r := Ran(steps);
      if steps[|steps| - 1].Continues() {
        pool.End();
      }
    }
  }

  /** `runMigrations` of this script, with the exit status it passes to `process.exit`. */
  method RunMigrations(cm: ConnectionManager, boot: Boot, names: seq<string>, contents: map<string, string>, engine: Engine)
    returns (exitCode: Option<int>, r: RunResult)
    modifies cm, cm.pool
    ensures r == RunOf(old(cm.pool) != null, boot, names, contents, engine, old(cm.Log()))
    ensures exitCode == ExitCode(r)
    ensures old(cm.pool) != null ==> cm.pool == old(cm.pool)
    ensures r.InitFailed? ==> cm.pool == null || (fresh(cm.pool) && cm.pool.executed == [] && !cm.pool.ended && cm.pool.endCalls == 0)
    ensures !r.InitFailed? ==> cm.pool != null
    ensures !r.InitFailed? ==>
      cm.pool.executed == if r.Ran? then Execute(Scan(names), contents, engine, old(cm.Log())).log else old(cm.Log())
    ensures !r.InitFailed? ==> cm.pool.endCalls == old(cm.EndCount()) + if Completed(r) then 1 else 0
    ensures !r.InitFailed? ==> cm.pool.ended == ((old(cm.pool) != null && old(cm.pool.ended)) || Completed(r))
    ensures old(cm.pool) != null && old(cm.pool.ended) ==>
      cm.pool.queriedAfterEnd == (old(cm.pool.queriedAfterEnd) || |cm.pool.executed| > |old(cm.Log())|)
  {
    var init := cm.InitializeDatabase(boot);
    if init.Failure? {
      r := InitFailed(init.error);
    } else {
      var got := cm.GetPool();
      r := RunOnPool(got.value, names, contents, engine);
    }
    exitCode := ExitCode(r);
  }

  /** The two scripts run the same files with the same outcomes; they differ only in when the
      pool is ended. This one ends it on a strict subset of the other's paths: never when there
      is nothing to run or after a fatal SQL error. */
  lemma EndsLessOften(r: RunResult)
    requires !r.InitFailed? && (r.Ran? ==> r.steps != [])
    ensures Completed(r) ==> CheckAndRunMigrations.EndsPool(r)
    ensures CheckAndRunMigrations.EndsPool(r) && !Completed(r) <==>
      r == NoMigrationFiles || (r.Ran? && r.steps[|r.steps| - 1].Failed?)
  {
  }
}
