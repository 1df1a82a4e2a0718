# Counter app: migration runner, database bootstrap, counter routes and page state, in Dafny

This project models the core of a small counter web application. It has a Node.js back end
on PostgreSQL with credentials held in AWS Secrets Manager, and a browser front end. Five
pieces are modelled:

- **The migration runner** (`migrations.dfy`, `check_and_run_migrations.dfy`, `run_migrations.dfy`).
  - The scanner keeps the directory entries ending in `.sql` and sorts them as text, so
    `10_x.sql` runs before `2_y.sql`.
  - The executor runs the files strictly in order. An error whose message contains
    `already exists` or `duplicate` counts as already applied. Any other error stops the run.
  - The deployment entry point first asks a gate whether the `users` table is missing. It
    then runs the files and turns the outcome into an exit status.
  - The stand-alone script runs the same files but differs in when it ends the pool and how
    it exits.
  - The SQL engine is an oracle. It answers a statement given every statement the pool ran
    before it. The directory is a listing plus a map from file name to text; a name missing
    from the map is a file that cannot be read.
- **The database bootstrap** (`database.dfy`).
  - Credential resolution is modelled from a secret-store reply: error-code mapping,
    required fields, the default port 5432, and the `dbname`/`database` alternative.
  - The process-wide pool is created once and then handed out. It is cached as soon as the
    credentials resolve, before the liveness probe, so a failed probe leaves it cached.
  - `Pool` records the statements it ran, how often `end()` was called, and whether a
    statement was issued after `end()`.
- **The `/counter` routes** (`counter_api.dfy`). They are a class holding the `counter`
  table as a map from user id to value.
  - GET reads the value, creating the row at 0 first if it is absent.
  - PUT refuses a non-number with 400, or upserts the value and echoes it.
  - Any database failure gives a 500 with a fixed message.
- **The page state** (`app.dfy`).
  - The state is `count`, `authToken`, `currentUser` and the two `localStorage` keys.
  - The transitions are sign-out, the logged-out branch of `updateUI`, loading and saving
    the count with the token guard and the "401 ⇒ sign out" rule, increment, decrement,
    reset, restore on load, and the sign-in/sign-up form check.
  - Each handler method of `Page` is proved equal to a pure transition on `AppState`. The
    properties are proved about those transitions.
- **JavaScript semantics** used by the above (`js_strings.dfy`, `string_order.dfy`): truthiness
  of an optional string, `||` defaulting, `endsWith`, `includes`, `trim`, and the order of
  `Array.prototype.sort()` without a comparator.

The gate ends the pool on its success path, but the pool stays cached. The runner called
next obtains that same, already-ended pool and issues its statements on it. The model keeps
this as the code has it: `CheckAndRun` states that the runner's statements were issued after
`end()` (`queriedAfterEnd`) and that `end()` is called twice on a completed run.

The model keeps these behaviours of the code:
- the stand-alone script does not call `process.exit` when there are no files;
- the stand-alone script does not end the pool after a fatal SQL error;
- a failed connection probe leaves the pool cached;
- files are read one at a time inside the loop, so an unreadable file stops the run
  part-way.

## Model

| member | source | states |
|---|---|---|
| JsStrings.Trim | frontend/app.js:241 | the trimmed text is a slice of the input with only white space before and after it, neither starts nor ends with white space, and is empty exactly when the input is all white space |
| StringOrder.Sort | backend/scripts/check-and-run-migrations.js:40 | the result of `.sort()` is sorted in string order and is a permutation of its input |
| StringOrder.SortedUnique | backend/scripts/check-and-run-migrations.js:40 | two sorted sequences holding the same strings are equal, so the sort result does not depend on how the sort finds it |
| StringOrder.SortIgnoresOrder | backend/scripts/check-and-run-migrations.js:40 | inputs that are permutations of each other sort to the same result |
| Database.DefaultsWhenUnset | backend/config/database.js:7-11 | an unset or empty `DB_SECRET_NAME`/`AWS_REGION` gives `rds-db-credentials` and `us-east-1` |
| Database.Message | backend/config/database.js:44-49 | the not-found and access-denied messages name the secret in double quotes |
| Database.CredentialsFrom | backend/config/database.js:23-37 | success exactly when host, username and password are truthy and `dbname` or `database` is; the failure is the missing-fields error before the missing-database error; `username` becomes `user`, host and password are copied; the port is the secret's when truthy, else 5432; `dbname` wins over `database` |
| Database.GetDatabaseCredentials | backend/config/database.js:6-52 | `ResourceNotFoundException` and `AccessDeniedException` map to errors naming the secret; any other store error propagates unchanged; an empty secret string fails before parsing; a parse error or a validation error propagates; success needs a truthy secret string |
| Database.EmptySecretNeverParsed | backend/config/database.js:17-19 | with an empty or missing secret string the outcome is the empty-secret error, whatever the parser does |
| Database.MissingPasswordRefused | backend/config/database.js:23-25 | a secret without a truthy password is refused with the missing-fields error |
| Database.Pool.constructor | backend/config/database.js:62-72 | a new pool has run nothing and has not been ended |
| Database.Pool.Query | backend/scripts/check-and-run-migrations.js:57 | the answer is the engine's for this statement after the pool's earlier ones; the statement is appended to the pool's history; a statement on an ended pool is recorded as such |
| Database.Pool.End | backend/scripts/check-and-run-migrations.js:22 | the pool is ended and the `end()` count goes up by one; nothing else changes |
| Database.InitError | backend/config/database.js:59-88 | without a cached pool, the failure is the credentials error, or else the probe's error |
| Database.ConnectionManager.constructor | backend/config/database.js:4 | the pool starts out unset |
| Database.ConnectionManager.InitializeDatabase | backend/config/database.js:54-89 | a cached pool is returned unchanged without fetching credentials; otherwise a credentials failure leaves the pool unset, and resolved credentials create and cache a fresh pool even when the probe then fails; success exactly when a pool was cached or the credentials resolve and the probe passes |
| Database.ConnectionManager.GetPool | backend/config/database.js:91-96 | fails, with the not-initialised error, exactly when no pool is cached; otherwise returns the cached pool |
| Migrations.SqlFiles | backend/scripts/check-and-run-migrations.js:39 | keeps exactly the names ending in `.sql`, each as often as listed |
| Migrations.Scan | backend/scripts/check-and-run-migrations.js:38-40 | the scanned files are sorted in string order, are a permutation of the `.sql` entries, and a name is scanned exactly when it is listed and ends in `.sql` |
| Migrations.ScanIgnoresListingOrder | backend/scripts/check-and-run-migrations.js:38-40 | listings that are permutations of each other scan to the same files |
| Migrations.ScanComparesAsText | backend/scripts/check-and-run-migrations.js:40 | names are compared as text: a `.sql` name with a smaller first character runs first, and other entries are dropped |
| Migrations.TenBeforeTwo | backend/scripts/run-migrations.js:15-17 | `2_y.sql`, `README.md`, `10_x.sql` scan to `10_x.sql` then `2_y.sql` |
| Migrations.PhraseAnywhereSkipped | backend/scripts/check-and-run-migrations.js:60 | a message containing `already exists` or `duplicate` anywhere is skippable |
| Migrations.CapitalisedMessageFatal | backend/scripts/run-migrations.js:36 | the phrase match is case-sensitive: `Duplicate` is not skippable |
| Migrations.Classify | backend/scripts/check-and-run-migrations.js:56-66 | success is applied; an error is skipped when its message is skippable and fatal otherwise, keeping the message |
| Migrations.Attempt | backend/scripts/check-and-run-migrations.js:51-66 | a file that cannot be read is not run; otherwise the outcome is the engine's answer to its text, classified |
| Migrations.Execute | backend/scripts/check-and-run-migrations.js:50-68 | at most one outcome per file |
| Migrations.ExecuteShape | backend/scripts/check-and-run-migrations.js:50-68 | outcome i is for file i; every outcome but the last lets the run go on; the run ends early only on an unreadable or fatal file |
| Migrations.ExecuteStepAt | backend/scripts/check-and-run-migrations.js:50-68 | file i is attempted only after every earlier file was read, on a pool whose history is exactly the earlier files' SQL in order |
| Migrations.ExecuteLog | backend/scripts/check-and-run-migrations.js:50-68 | afterwards the pool has run exactly the SQL of the files that reached it, in order |
| Migrations.ReRunSkipsEverything | backend/scripts/check-and-run-migrations.js:60-61 | when every file's SQL fails with a skippable message, every file is skipped and the run completes |
| Migrations.RunOn | backend/scripts/check-and-run-migrations.js:42-71 | no files gives the nothing-to-run outcome; otherwise at least one outcome, and one per file when the run was not aborted |
| Migrations.RunOf | backend/scripts/check-and-run-migrations.js:31-76 | the run fails at start-up exactly when the pool cannot be obtained; it has nothing to run exactly when the scan is empty; otherwise it attempts the scanned files |
| Migrations.RunFile | backend/scripts/check-and-run-migrations.js:51-66 | one iteration: its outcome is `Attempt` on the pool's history, and the pool runs the file's SQL unless the file cannot be read |
| Migrations.ExecuteFiles | backend/scripts/check-and-run-migrations.js:50-68 | the loop's outcomes and the pool's new history are those of `Execute`; the loop does not end the pool |
| CheckAndRunMigrations.CheckIfMigrationNeeded | backend/scripts/check-and-run-migrations.js:8-29 | needed exactly when the pool is obtained and the `users` table is reported missing; any error reads as not needed; on its success path the pool is ended once and stays cached; on every other path the pool's `ended` flag and `end()` count are as before, and a pool cached by a failed probe is open |
| CheckAndRunMigrations.RunOnPool | backend/scripts/check-and-run-migrations.js:38-71 | the outcome is `RunOn` over the scan; the pool is ended once when there is nothing to run, after a fatal error and after a complete run, but not after an unreadable file |
| CheckAndRunMigrations.RunMigrations | backend/scripts/check-and-run-migrations.js:31-76 | the outcome is `RunOf`; a cached pool is reused; after a start-up failure there is no pool or a fresh, open one that ran nothing; otherwise the pool's history, `ended` flag and `end()` count change as `RunOnPool` says |
| CheckAndRunMigrations.Main | backend/scripts/check-and-run-migrations.js:78-94 | the runner is invoked exactly when the gate says needed, and it then never fails to obtain the pool |
| CheckAndRunMigrations.ExitStatus | backend/scripts/check-and-run-migrations.js:82-93 | exit 1 exactly when the runner ran and threw, otherwise 0 |
| CheckAndRunMigrations.CheckAndRun | backend/scripts/check-and-run-migrations.js:78-94 | the run is `Main`'s and the status `ExitStatus`'s, so the directory is scanned only when needed; statements run after the gate are issued on the ended pool; a completed run calls `end()` twice in all |
| RunMigrationsScript.ExitCode | backend/scripts/run-migrations.js:19-51 | no exit call exactly when there are no files; 0 exactly after a complete run; 1 exactly when anything threw |
| RunMigrationsScript.RunOnPool | backend/scripts/run-migrations.js:15-47 | the outcome is `RunOn` over the scan; the pool is ended once after a complete run and on no other path |
| RunMigrationsScript.RunMigrations | backend/scripts/run-migrations.js:8-52 | the outcome is `RunOf` and the exit code `ExitCode`'s; a cached pool is reused; after a start-up failure there is no pool or a fresh, open one that ran nothing; otherwise the pool's history, `ended` flag and `end()` count change as `RunOnPool` says |
| RunMigrationsScript.EndsLessOften | backend/scripts/run-migrations.js:45-46 | this script ends the pool only where the deployment entry point also does; it does not end it when there is nothing to run or after a fatal error |
| CounterApi.Get | backend/routes/api.js:9-32 | a known user gets the stored value with the table unchanged; an unknown user gets 0 and a new row at 0; any failure gives 500 with the fixed message and no change; success exactly when no step fails |
| CounterApi.Put | backend/routes/api.js:34-58 | a non-number gives 400 with no change; a number replaces or creates the user's row and is echoed back; a failure gives 500 with the fixed message and no change; other users' rows never change |
| CounterApi.GetIdempotent | backend/routes/api.js:14-27 | a second read returns the same reply and changes nothing |
| CounterApi.PutThenGet | backend/routes/api.js:45-53 | the value a PUT stored is what the next GET returns |
| CounterApi.UsersIsolated | backend/routes/api.js:45-51 | a user's GET and PUT leave every other user's row as it was |
| CounterApi.CounterStore.GetCounter | backend/routes/api.js:9-32 | the reply and the new table are `Get`'s |
| CounterApi.CounterStore.PutCounter | backend/routes/api.js:34-58 | the reply and the new table are `Put`'s |
| App.AuthHeaders | frontend/app.js:7-12 | JSON content type; `Bearer <token>` when the token is truthy, else an empty authorization |
| App.AuthHeadersRoundTrip | frontend/app.js:10 | reading the bearer token back from the headers gives the token when it is truthy, and none otherwise |
| App.LoggedOut | frontend/app.js:52-60 | no token, no user, both storage keys removed; the count and every other key are unchanged |
| App.LoggedOutIdempotent | frontend/app.js:127-134 | signing out twice is signing out once |
| App.Load | frontend/app.js:136-158 | a request is sent exactly when the token is truthy, with the auth headers; 401 signs out; a readable OK reply sets the count; anything else changes nothing |
| App.Save | frontend/app.js:160-180 | a PUT carrying the count is sent exactly when the token is truthy; only a 401 changes the state, by signing out |
| App.AfterUpdateUI | frontend/app.js:38-61 | the page is left consistent; a signed-in page loads the count, any other is cleared |
| App.AfterUpdateCount | frontend/app.js:193-197 | the new count is kept whatever the server answers, and is the value sent when the token is truthy |
| App.HandlersKeepConsistent | frontend/app.js:136-197 | loading, saving and updating the count keep a consistent page consistent |
| App.UnauthorizedSignsOut | frontend/app.js:145-147 | a 401 on load or on save signs the page out |
| App.IncrementDecrementCancel | frontend/app.js:281-287 | increment then decrement gives back the original count, whatever the server answers |
| App.Restore | frontend/app.js:199-208 | the handler stops before `updateUI` exactly when both stored values are truthy and the user does not parse, and then only the stored token has been set and nothing is sent; when the user parses, the stored token and the parsed user are set and `updateUI` follows; without both stored values it is plain `updateUI`; a completed handler leaves the page consistent |
| App.Lookup | frontend/app.js:200-201 | `getItem` gives the stored value when the key is present, and null otherwise |
| App.SignedIn | frontend/app.js:111-114 | the token and user are set in memory and stored under their keys; the count is kept |
| App.ReloadRestoresSession | frontend/app.js:199-208 | after signing in, a reload with a non-empty token and a user that parses back restores the same token and user and loads the count with that token, unless the server answers 401 |
| App.CheckForm | frontend/app.js:241-247 | the form is sent exactly when the trimmed email and the password are non-empty, with the trimmed email |
| App.Page.constructor | frontend/app.js:1-3 | count 0, no token, no user, storage as found |
| App.Page.ClearSession | frontend/app.js:52-59 | the new state is `LoggedOut` of the old |
| App.Page.SignOut | frontend/app.js:127-134 | the new state is `LoggedOut` of the old |
| App.Page.LoadCount | frontend/app.js:136-158 | the request and the new state are `Load`'s |
| App.Page.SaveCount | frontend/app.js:160-180 | the request and the new state are `Save`'s |
| App.Page.UpdateUI | frontend/app.js:38-61 | the request and the new state are `AfterUpdateUI`'s |
| App.Page.UpdateCount | frontend/app.js:193-197 | the request and the new state are `AfterUpdateCount`'s |
| App.Page.Increment | frontend/app.js:281-283 | `AfterUpdateCount` with the count plus one |
| App.Page.Decrement | frontend/app.js:285-287 | `AfterUpdateCount` with the count minus one |
| App.Page.Reset | frontend/app.js:289-291 | `AfterUpdateCount` with 0 |
| App.Page.RestoreOnLoad | frontend/app.js:199-208 | the outcome, the request and the new state are `Restore`'s |
| App.Page.SignIn | frontend/app.js:79-82 | the new state is `SignedIn`'s |

## Left out

- The AWS Secrets Manager call and `JSON.parse` of the secret are inputs. The call is a `StoreReply`; the parse is a function from text to a parsed secret or an error message. A secret property whose JSON type is not a string (or, for the port, a number) is not modelled.
- The region is computed but only configures the AWS client, which is not modelled.
- `pg` internals are left out: sizing, timeouts, SSL, the idle-client `error` listener that exits with -1, and real SQL semantics. The engine is an oracle that sees only the pool's statement history, not whether the pool was ended, so it cannot tell a statement issued after `end()` from one issued before.
- `pg` refusing statements, and a second `end()`, on an ended pool is not built into the model. The model records that statements were issued after `end()` and counts `end()` calls instead. With that refusal, every `pool.end()` in the runner after the gate's (backend/scripts/check-and-run-migrations.js:44, 64, 71) would reject, so every run the gate lets through would throw and `main` would exit 1.
- CheckAndRunMigrations.ExitStatus: gives 0 for a run with no files and for a completed run, as the code reads without that library behaviour; a real `pg` pool would make those runs exit 1.
- CheckAndRunMigrations.CheckAndRun: its status is `ExitStatus`'s, so it carries the same gap.
- The liveness probe (`connect`, `SELECT NOW()`, `release`) is one input: an error message or none.
- The gate's catalog query is an input (whether `users` exists, or the error raised). It is not recorded in the pool's history.
- `fs.readdirSync` is the listing input; its own failure is not modelled.
- `path.join`, all console output, and `process.exit` are not modelled as calls. The exit status is a returned value.
- Sort order compares characters as Unicode code points; JavaScript compares UTF-16 code units. The two differ only for characters outside the Basic Multilingual Plane.
- CounterApi.Put: a value is an integer here; JavaScript accepts any number (fractions, `NaN`, infinities) as passing the `typeof` check.
- Express routing and token verification (`routes/auth` is not part of this model) are left out; the user id is given.
- Concurrency between requests, between pool clients, and between runner processes is left out.
- The DOM, messages, tab switching, the one-second timer before `updateUI` after signing in, and the `fetch` calls of sign-up and sign-in are left out. Only their effect on the state (`SignedIn`) is modelled.
- App.IncrementDecrementCancel: `count` is an unbounded integer here. In JavaScript it is a double, so from 2^53 on `count + 1` rounds and the decrement does not give the original back; a fractional value returned by the server is not modelled either.
- App.Load: an OK reply whose body lacks `value` would set `count` to `undefined`. The model only has a readable integer value or an unreadable body.
- App.SignedIn: the token and user are those of a successful reply; a reply without them (which would store the text `undefined`) is not modelled.
- A user is reduced to the email the page shows.
