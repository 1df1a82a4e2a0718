/** The algorithm both migration scripts share: list the `.sql` files of the migrations
    directory in string order, then run each file's SQL in that order, absorbing errors that
    say the object is already there and stopping at the first other error. */
module Migrations {
  import opened JsStrings
  import opened StringOrder
  import opened Database

  const Extension: string := ".sql"
  const AlreadyExists: string := "already exists"
  const Duplicate: string := "duplicate"

  /** `.filter(file => file.endsWith('.sql'))`: the listing without the other entries,
      order and repetitions kept. */
  function SqlFiles(names: seq<string>): (r: seq<string>)
    ensures forall x :: multiset(r)[x] == if EndsWith(x, Extension) then multiset(names)[x] else 0
  {
    if names == [] then []
    else
      assert names == [names[0]] + names[1..];
      (if EndsWith(names[0], Extension) then [names[0]] else []) + SqlFiles(names[1..])
  }

  /** The migration scanner: the directory entries ending in `.sql`, in ascending string order
      (so `10_x.sql` runs before `2_y.sql`). */
  function Scan(names: seq<string>): (r: seq<string>)
    ensures Sorted(r)
    ensures multiset(r) == multiset(SqlFiles(names))
    ensures forall x :: x in r <==> x in names && EndsWith(x, Extension)
  {
    var r := Sort(SqlFiles(names));
    assert forall x :: x in r <==> multiset(r)[x] > 0;
    assert forall x :: x in names <==> multiset(names)[x] > 0;
    r
  }

  /** The order in which the directory lists its entries does not matter. */
  lemma ScanIgnoresListingOrder(d1: seq<string>, d2: seq<string>)
    requires multiset(d1) == multiset(d2)
    ensures Scan(d1) == Scan(d2)
  {
    var f1, f2 := SqlFiles(d1), SqlFiles(d2);
    assert forall x :: multiset(f1)[x] == multiset(f2)[x];
    assert multiset(f1) == multiset(f2);
    SortIgnoresOrder(f1, f2);
  }

  /** Names are compared as text, not as numbers, and other entries are dropped: whenever a
      `.sql` name starts with a smaller character than another, it runs first, as `10_x.sql`
      does before `2_y.sql`. */
  lemma ScanComparesAsText(a: string, b: string, other: string)
    requires EndsWith(a, Extension) && EndsWith(b, Extension) && !EndsWith(other, Extension)
    requires a != [] && b != [] && a[0] < b[0]
    ensures Scan([b, other, a]) == [a, b]
  {
    SqlFilesOfThree(b, other, a);
    assert Below(a, b);
    assert multiset([a, b]) == multiset([b, a]);
    SortedUnique(Scan([b, other, a]), [a, b]);
  }

  lemma SqlFilesOfThree(b: string, other: string, a: string)
    requires EndsWith(a, Extension) && EndsWith(b, Extension) && !EndsWith(other, Extension)
    ensures SqlFiles([b, other, a]) == [b, a]
  {
    assert SqlFiles([a]) == [a] by {
      assert [a][1..] == [];
    }
    assert SqlFiles([other, a]) == [a] by {
      assert [other, a][1..] == [a];
    }
    assert [b, other, a][1..] == [other, a];
  }

  /** The two file names of the example above. */
  lemma TenBeforeTwo()
    ensures Scan(["2_y.sql", "README.md", "10_x.sql"]) == ["10_x.sql", "2_y.sql"]
  {
    ScanComparesAsText("10_x.sql", "2_y.sql", "README.md");
  }

  /** A failed statement counts as already applied when its message says so. Case matters. */
  predicate IsSkippable(message: string) {
    Includes(message, AlreadyExists) || Includes(message, Duplicate)
  }

  /** Any message mentioning either phrase is skipped, wherever the phrase appears, such as
      PostgreSQL's `relation "users" already exists` and `duplicate key value violates unique
      constraint`. */
  lemma PhraseAnywhereSkipped(before: string, after: string)
    ensures IsSkippable(before + "already exists" + after)
    ensures IsSkippable(before + "duplicate" + after)
  {
    var m := before + "already exists" + after;
    assert m[|before|..|before| + 14] == "already exists";
    assert OccursAt(m, "already exists", |before|);
    var k := before + "duplicate" + after;
    assert k[|before|..|before| + 9] == "duplicate";
    assert OccursAt(k, "duplicate", |before|);
  }

  /** The match is case-sensitive: a capitalised message is fatal. */
  lemma CapitalisedMessageFatal()
    ensures !IsSkippable("Duplicate")
  {
    IncludesSameLength("Duplicate", "duplicate");
    assert "Duplicate"[0] != "duplicate"[0];
  }

  /** What happened to one migration file. */
  datatype Step =
    | Applied(file: string)
    | Skipped(file: string, message: string)
    | Failed(file: string, message: string)
    | Unreadable(file: string)
  {
    /** The run goes on after this file. */
    predicate Continues() {
      Applied? || Skipped?
    }
  }

  /** How the runner classifies the database's answer to one file's SQL. */
  function Classify(file: string, answer: QueryResult): (s: Step)
    ensures s.file == file && !s.Unreadable?
    ensures s.Applied? <==> answer == QueryOk
    ensures s.Skipped? ==> IsSkippable(s.message)
    ensures s.Failed? ==> !IsSkippable(s.message)
    ensures !s.Applied? ==> answer == QueryError(s.message)
  {
    match answer
    case QueryOk => Applied(file)
    case QueryError(m) => if IsSkippable(m) then Skipped(file, m) else Failed(file, m)
  }

  /** Reading one file (absent from `contents` when it cannot be read) and running its SQL
      on a pool that has already run `log`. */
  function Attempt(file: string, contents: map<string, string>, engine: Engine, log: seq<string>): (s: Step)
    ensures s.file == file
    ensures s.Unreadable? <==> file !in contents
    ensures s.Applied? <==> file in contents && engine(log, contents[file]) == QueryOk
    ensures s.Skipped? ==> IsSkippable(s.message)
    ensures s.Failed? ==> !IsSkippable(s.message)
    ensures !s.Unreadable? && !s.Applied? ==> engine(log, contents[file]) == QueryError(s.message)
  {
    if file !in contents then Unreadable(file)
    else Classify(file, engine(log, contents[file]))
  }

  /** The SQL texts of `files`, in order. */
  function SqlOf(files: seq<string>, contents: map<string, string>): (r: seq<string>)
    requires forall f :: f in files ==> f in contents
    ensures |r| == |files|
    ensures forall i :: 0 <= i < |files| ==> r[i] == contents[files[i]]
  {
    seq(|files|, i requires 0 <= i < |files| => contents[files[i]])
  }

  lemma SqlOfConcat(a: seq<string>, b: seq<string>, contents: map<string, string>)
    requires forall f :: f in a + b ==> f in contents
    ensures SqlOf(a + b, contents) == SqlOf(a, contents) + SqlOf(b, contents)
  {
    var l, r := SqlOf(a + b, contents), SqlOf(a, contents) + SqlOf(b, contents);
    forall k | 0 <= k < |l| ensures l[k] == r[k] {
      if k < |a| { assert (a + b)[k] == a[k]; } else { assert (a + b)[k] == b[k - |a|]; }
    }
  }

  /** The outcomes of a run, one per attempted file, and the statements the pool has run
      afterwards. */
  datatype Trace = Trace(steps: seq<Step>, log: seq<string>)

  /** The executor: files strictly in sequence, each after all earlier ones, stopping at the
      first file that cannot be read or whose error is not skippable. */
  function Execute(files: seq<string>, contents: map<string, string>, engine: Engine, log: seq<string>): (t: Trace)
    ensures |t.steps| <= |files|
    decreases |files|
  {
    if files == [] then Trace([], log)
    else
      var s := Attempt(files[0], contents, engine, log);
      if s.Unreadable? then Trace([s], log)
      else if s.Failed? then Trace([s], log + [contents[files[0]]])
      else
        var rest := Execute(files[1..], contents, engine, log + [contents[files[0]]]);
        Trace([s] + rest.steps, rest.log)
  }

  /** One outcome per attempted file, in order; every outcome but the last lets the run go on,
      and the run ends early only on an outcome that stops it. */
  lemma {:induction false} ExecuteShape(files: seq<string>, contents: map<string, string>, engine: Engine, log: seq<string>)
    ensures var t := Execute(files, contents, engine, log);
      (forall i :: 0 <= i < |t.steps| ==> t.steps[i].file == files[i]) &&
      (forall i :: 0 <= i < |t.steps| - 1 ==> t.steps[i].Continues()) &&
      (|t.steps| < |files| ==> t.steps != [] && !t.steps[|t.steps| - 1].Continues())
    decreases |files|
  {
    if files != [] {
      var s := Attempt(files[0], contents, engine, log);
      if s.Continues() {
        var log' := log + [contents[files[0]]];
        ExecuteShape(files[1..], contents, engine, log');
        var rest := Execute(files[1..], contents, engine, log');
        assert Execute(files, contents, engine, log).steps == [s] + rest.steps;
      }
    }
  }

  /** File `i` is attempted only after every earlier file was applied or skipped, on a pool
      whose history is exactly the earlier files' SQL, in order. */
  lemma {:induction false} ExecuteStepAt(files: seq<string>, contents: map<string, string>, engine: Engine, log: seq<string>, i: nat)
    requires i < |Execute(files, contents, engine, log).steps|
    ensures forall f :: f in files[..i] ==> f in contents
    ensures Execute(files, contents, engine, log).steps[i] ==
            Attempt(files[i], contents, engine, log + SqlOf(files[..i], contents))
    decreases i
  {
    if i == 0 {
      assert log + SqlOf(files[..0], contents) == log;
    } else {
      var t := Execute(files, contents, engine, log);
      var s := Attempt(files[0], contents, engine, log);
      assert s.Continues() by { assert t.steps[0] == s; }
      var log' := log + [contents[files[0]]];
      var rest := Execute(files[1..], contents, engine, log');
      assert t.steps[i] == rest.steps[i - 1] by {
        assert t.steps == [s] + rest.steps;
      }
      ExecuteStepAt(files[1..], contents, engine, log', i - 1);
      assert files[..i] == [files[0]] + files[1..][..i - 1];
      assert files[0] in contents;
      forall f | f in files[..i] ensures f in contents {
        if f != files[0] { assert f in files[1..][..i - 1]; }
      }
      SqlOfConcat([files[0]], files[1..][..i - 1], contents);
      assert SqlOf([files[0]], contents) == [contents[files[0]]];
      assert log' + SqlOf(files[1..][..i - 1], contents) == log + SqlOf(files[..i], contents);
      assert files[1..][i - 1] == files[i];
    }
  }

  /** How many of the attempted files reached the database (all but an unreadable last one). */
  function Issued(steps: seq<Step>): nat {
    if steps != [] && steps[|steps| - 1].Unreadable? then |steps| - 1 else |steps|
  }

  /** Afterwards the pool has run exactly the SQL of the files that reached it, in order. */
  lemma {:induction false} ExecuteLog(files: seq<string>, contents: map<string, string>, engine: Engine, log: seq<string>)
    ensures var t := Execute(files, contents, engine, log);
      Issued(t.steps) <= |files| && (forall f :: f in files[..Issued(t.steps)] ==> f in contents) &&
      t.log == log + SqlOf(files[..Issued(t.steps)], contents)
    decreases |files|
  {
    if files == [] {
      assert SqlOf(files[..0], contents) == [];
    } else {
      var s := Attempt(files[0], contents, engine, log);
      ExecuteFirst(files, contents, engine, log);
      if s.Unreadable? {
        assert SqlOf(files[..0], contents) == [];
      } else if s.Failed? {
        assert files[..1] == [files[0]];
      } else {
        var log' := log + [contents[files[0]]];
        ExecuteLog(files[1..], contents, engine, log');
        var rest := Execute(files[1..], contents, engine, log');
        LogCons(files, contents, log, s, rest.steps, rest.log);
      }
    }
  }

  /** The inductive step of `ExecuteLog`: a first file that lets the run go on adds its SQL in
      front of the SQL of the rest of the run. */
  lemma LogCons(files: seq<string>, contents: map<string, string>, log: seq<string>, s: Step, rest: seq<Step>, restLog: seq<string>)
    requires files != [] && files[0] in contents && s.Continues()
    requires Issued(rest) <= |files| - 1 && forall f :: f in files[1..][..Issued(rest)] ==> f in contents
    requires restLog == log + [contents[files[0]]] + SqlOf(files[1..][..Issued(rest)], contents)
    ensures Issued([s] + rest) <= |files| && forall f :: f in files[..Issued([s] + rest)] ==> f in contents
    ensures restLog == log + SqlOf(files[..Issued([s] + rest)], contents)
  {
    var k := Issued(rest);
    IssuedCons(s, rest);
    SqlOfCons(files, k, contents);
  }

  lemma IssuedCons(s: Step, steps: seq<Step>)
    requires s.Continues()
    ensures Issued([s] + steps) == Issued(steps) + 1
  {
    if steps != [] {
      assert ([s] + steps)[|steps|] == steps[|steps| - 1];
    }
  }

  /** The SQL of a prefix is its first file's SQL followed by the rest of the prefix's. */
  lemma SqlOfCons(files: seq<string>, k: nat, contents: map<string, string>)
    requires k < |files| && files[0] in contents && forall f :: f in files[1..][..k] ==> f in contents
    ensures forall f :: f in files[..k + 1] ==> f in contents
    ensures SqlOf(files[..k + 1], contents) == [contents[files[0]]] + SqlOf(files[1..][..k], contents)
  {
    assert files[..k + 1] == [files[0]] + files[1..][..k];
    SqlOfConcat([files[0]], files[1..][..k], contents);
  }

  /** Re-running against a database that already holds every object: when each file's SQL
      fails with a skippable message, every file is skipped and the run completes. */
  lemma {:induction false} ReRunSkipsEverything(files: seq<string>, contents: map<string, string>, engine: Engine, log: seq<string>)
    requires forall f :: f in files ==> f in contents
    requires forall h, f :: f in files ==>
      engine(h, contents[f]).QueryError? && IsSkippable(engine(h, contents[f]).message)
    ensures var t := Execute(files, contents, engine, log);
      |t.steps| == |files| && forall i :: 0 <= i < |files| ==> t.steps[i] == Skipped(files[i], engine(log + SqlOf(files[..i], contents), contents[files[i]]).message)
    decreases |files|
  {
    var t := Execute(files, contents, engine, log);
    if files != [] {
      var log' := log + [contents[files[0]]];
      ReRunSkipsEverything(files[1..], contents, engine, log');
      var rest := Execute(files[1..], contents, engine, log');
      assert t.steps == [t.steps[0]] + rest.steps;
      forall i | 0 <= i < |files|
        ensures t.steps[i] == Skipped(files[i], engine(log + SqlOf(files[..i], contents), contents[files[i]]).message)
      {
        ExecuteStepAt(files, contents, engine, log, i);
      }
    }
  }

  /** `runMigrations` as seen by its caller. */
  datatype RunResult =
    | InitFailed(error: DbError)
    | NoMigrationFiles
    | Ran(steps: seq<Step>)
  {
    /** The run threw: the pool could not be obtained, or a file stopped the run. */
    predicate Aborted() {
      InitFailed? || (Ran? && steps != [] && !steps[|steps| - 1].Continues())
    }
  }

  /** What `runMigrations` does once it holds a pool that has run `log`: nothing to do
      without files, otherwise the executor over them. */
  function RunOn(files: seq<string>, contents: map<string, string>, engine: Engine, log: seq<string>): (r: RunResult)
    ensures !r.InitFailed?
    ensures r == NoMigrationFiles <==> files == []
    ensures r.Ran? ==> r.steps != [] && |r.steps| <= |files|
    ensures r.Ran? && !r.Aborted() ==> |r.steps| == |files|
  {
    if files == [] then NoMigrationFiles
    else
      ExecuteShape(files, contents, engine, log);
      Ran(Execute(files, contents, engine, log).steps)
  }

  /** What `runMigrations` does, given whether a pool was cached beforehand and the statements
      that pool had run: obtain the pool, scan the directory, and execute the files. */
  function RunOf(cached: bool, boot: Boot, names: seq<string>, contents: map<string, string>, engine: Engine, log: seq<string>): (r: RunResult)
    ensures r.InitFailed? <==> !InitSucceeds(cached, boot)
    ensures r == NoMigrationFiles <==> InitSucceeds(cached, boot) && Scan(names) == []
    ensures r.Ran? ==> Scan(names) != [] && r.steps != [] && |r.steps| <= |Scan(names)|
    ensures r.Ran? && !r.Aborted() ==> |r.steps| == |Scan(names)|
  {
    if !InitSucceeds(cached, boot) then InitFailed(InitError(boot))
    else RunOn(Scan(names), contents, engine, log)
  }

  /** One step of the executor: the first file's outcome, then either the end of the run or
      the remaining files on a pool that has also run the first file's SQL. */
  lemma ExecuteFirst(files: seq<string>, contents: map<string, string>, engine: Engine, log: seq<string>)
    requires files != []
    ensures var s := Attempt(files[0], contents, engine, log);
      var t := Execute(files, contents, engine, log);
      (s.Unreadable? ==> t == Trace([s], log)) &&
      (s.Failed? ==> t == Trace([s], log + [contents[files[0]]])) &&
      (s.Continues() ==> t.steps == [s] + Execute(files[1..], contents, engine, log + [contents[files[0]]]).steps &&
                         t.log == Execute(files[1..], contents, engine, log + [contents[files[0]]]).log)
  {
  }

  /** One iteration of the `for` loop: read the file, run its SQL on `pool`, classify the
      answer. */
  method RunFile(pool: Pool, file: string, contents: map<string, string>, engine: Engine)
    returns (step: Step)
    modifies pool
    ensures step == Attempt(file, contents, engine, old(pool.executed))
    ensures pool.executed == old(pool.executed) + if step.Unreadable? then [] else [contents[file]]
    ensures pool.ended == old(pool.ended) && pool.endCalls == old(pool.endCalls)
    ensures pool.queriedAfterEnd == (old(pool.queriedAfterEnd) || (pool.ended && !step.Unreadable?))
  {
    if file !in contents {
      return Unreadable(file);
    }
    var answer := pool.Query(contents[file], engine);
    step := Classify(file, answer);
  }

  /** The `for` loop over the scanned files, run on `pool`. */
  method ExecuteFiles(pool: Pool, files: seq<string>, contents: map<string, string>, engine: Engine)
    returns (steps: seq<Step>)
    modifies pool
    ensures steps == Execute(files, contents, engine, old(pool.executed)).steps
    ensures pool.executed == Execute(files, contents, engine, old(pool.executed)).log
    ensures pool.ended == old(pool.ended) && pool.endCalls == old(pool.endCalls)
    ensures pool.queriedAfterEnd == (old(pool.queriedAfterEnd) || (pool.ended && |pool.executed| > |old(pool.executed)|))
  {
    ghost var whole := Execute(files, contents, engine, pool.executed);
    steps := [];
    var i := 0;
    while i < |files|
      invariant 0 <= i <= |files|
      invariant steps + Execute(files[i..], contents, engine, pool.executed).steps == whole.steps
      invariant Execute(files[i..], contents, engine, pool.executed).log == whole.log
      invariant old(pool.executed) <= pool.executed
      invariant pool.ended == old(pool.ended) && pool.endCalls == old(pool.endCalls)
      invariant pool.queriedAfterEnd == (old(pool.queriedAfterEnd) || (pool.ended && |pool.executed| > |old(pool.executed)|))
    {
      ExecuteFirst(files[i..], contents, engine, pool.executed);
      assert files[i..][0] == files[i] && files[i..][1..] == files[i + 1..];
      var step := RunFile(pool, files[i], contents, engine);
      steps := steps + [step];
      if !step.Continues() {
        break;
      }
      i := i + 1;
    }
  }
}
