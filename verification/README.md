# Casper per-test database lifecycle, in Dafny

Casper gives every persistent test its own Postgres database. The database is cloned from a
template, and a template is built at most once per JVM run. There are three levels:

- **The root template.** Its name is a configured name, or else the URL's database name plus
  `_t`. It is created empty and migrated with Flyway.
- **One template per fixture set.** It is named `<root>_<id>`, cloned from the root, and filled
  by the test's fixture generator.
- **One database per test.** It is named `<template>_<8 hex>` and cloned from its template.

The code keeps a thread-local "current database state". A routing data source resolves each
connection request through that state.

Components and modules:

| component | module | file |
|---|---|---|
| `TemplateId` and `DatabaseConfigurationState` | `ConfigurationState` | `configuration_state.dfy` |
| `memoOf` | `Memoizing` | `memoizing_supplier.dfy` |
| `CasperTestContext` | `TestContext` | `test_context.dfy` |
| `TestIsolatedTemplatizingDatabaseManager` | `DatabaseManager` | `database_manager.dfy` |
| `determineCurrentLookupKey` | `RoutingDataSource` | `routing_data_source.dfy` |
| `CasperTestBase.setUp` / `after` | `TestBase` | `test_base.dfy` |
| the shared template / test-database namespace (see Findings) | `NameCollision` | `name_collision.dfy` |

`DatabaseManager` covers the registries, the root id, template and test-database creation,
`ensureDatasource`, `cleanUp` and the data-source URL handling. Supporting modules:

- `JdbcUrl` is the URL pattern, hand-coded as a deterministic matcher.
- `Text` has the Kotlin string functions the manager uses.
- `Exceptions` (`exceptions.dfy`) has the exceptions the code throws and the SQL statements
  it issues. `Wrappers` has `Option` and `Result`.
- `DatabaseServer` is the Postgres server as the manager sees it: the databases that exist,
  what was applied to each, how often each template's initializer ran, and the statements
  issued.

`ManagerProperties` holds the invariant the manager keeps across a run, and the consequences
of that invariant for naming, uniqueness and reuse.

Two of the source's types become plain values:

- The state hierarchy is a Dafny datatype, so every match over it is exhaustive, and two
  `IsolatedTestTemplate` states are equal exactly when their names are.
- `TemplateId` is a subset type of strings, so registry keys compare as strings.

The model is functional. Each manager operation takes the manager state and returns its
outcome together with the new state, as `Step(result, manager)`. The outcome is a value or
the exception the Kotlin code throws. The new state includes changes made before the
exception, such as a template created and registered whose pool could not then be built. The
lifecycle operations also carry the per-thread context, inside `World(manager, context)`.

The suffix supplier draws random values until it gets one it has not handed out before. Its
randomness is a parameter: a sequence of draws of 8 characters from `0123456789abcdef`. Each
caller requires that some draw is fresh.

The root-id supplier reads only configuration. So the manager records, when it starts, what
every call of that supplier yields (`rootSupply`). The memoising wrapper then decides whether
the supplier runs.

Behaviour the model follows from the code, which a reader might not expect:

- **Template id rule.** The `TemplateId` doc comment and its error message say "10
  hexadecimal characters or less". The check actually enforced is `[0-9a-zA-Z_]{1,30}` on the
  whole string. The model enforces the regex and keeps the message text.
- **Template requests in `ensureDatasource`.** A template request resolves only while the
  template's name has a pool. `createTemplateDb` adds one for the time the initializer runs.
  Routing the state `IsolatedTestTemplate(<template name>)` also builds one. A registered
  template without a pool makes `ensureDatasource` throw `NoSuchElementException`.
- **Cleaning up `default`.** `cleanUp(IsolatedTestTemplate("default"))` removes the shared
  default pool. With dropping enabled it then rebuilds the pool to issue `drop database
  default`. The state `IsolatedTestTemplate("default")` is what a lookup from an
  uninitialised thread leaves behind. `CleanUp`'s contract states this case as it is.
- **Order in `initializeTestDb`.** The template id is computed for a debug message before the
  context is set. A failing root id therefore throws while the context is still unchanged.
- **`after` when clean-up fails.** If `cleanUp` throws, `after` does not reset the thread to
  `Uninitialized`.
- **Pattern search.** The URL pattern is applied with `Matcher.find()`, not a whole-string
  match. The `options` group (`.*`) stops at the first line terminator.

## Model

| member | source | states |
|---|---|---|
| `ConfigurationState.MakeTemplateId` | src/casper/kotlin/com/navio/apollo/casper/DatabaseConfigurationState.kt:58-65 | an id is accepted exactly when the whole string is 1 to 30 characters of `[0-9a-zA-Z_]`, and is kept unchanged; anything else raises `IllegalArgumentException` with the constructor's message |
| `Memoizing.Invoke` | src/casper/kotlin/com/navio/apollo/MemoizingSupplier.kt:5-19 | a stored value is returned without running the supplier; otherwise the supplier runs once and its outcome is returned; a value (never null or an exception) is what gets stored |
| `Memoizing.StoredValueIsFinal` | src/casper/kotlin/com/navio/apollo/MemoizingSupplier.kt:8-18 | once a value is stored, any number of further calls return it and leave the wrapper unchanged |
| `Memoizing.SuppliedAtMostOnce` | src/casper/kotlin/com/navio/apollo/MemoizingSupplier.kt:5-19 | over any sequence of calls, a supplier that always returns a value runs at most once, and every call returns the same value |
| `Memoizing.NullIsNotMemoised` | src/casper/kotlin/com/navio/apollo/MemoizingSupplier.kt:9-14 | a null result is not stored, so the next call runs the supplier again |
| `TestContext.GetState` | src/casper/kotlin/com/navio/apollo/casper/CasperTestContext.kt:10-14 | a thread that has set nothing reads `Uninitialized` |
| `TestContext.SetState` | src/casper/kotlin/com/navio/apollo/casper/CasperTestContext.kt:15 | the setting thread reads back the state it set, and every other thread reads what it read before |
| `TestContext.ReadBeforeSetIsUninitialized` | src/casper/kotlin/com/navio/apollo/casper/CasperTestContext.kt:10-12 | before any thread sets a state, every thread reads `Uninitialized` |
| `TestContext.SetCurrentStateIsNoOp` | src/casper/kotlin/com/navio/apollo/casper/CasperTestContext.kt:14-15 | writing back the state just read changes no thread's state, so a read leaves nothing to undo |
| `Text.Take` | src/casper/kotlin/com/navio/apollo/casper/TestIsolatedTemplatizingDatabaseManager.kt:331 | Kotlin's `take(n)`: the first `n` characters, or the whole string when it is shorter |
| `Text.Trim` | src/casper/kotlin/com/navio/apollo/casper/TestIsolatedTemplatizingDatabaseManager.kt:79 | the result is the input without its leading and trailing whitespace (Kotlin's whitespace set); it is empty exactly for a blank input |
| `JdbcUrl.MatchAt` | src/casper/kotlin/com/navio/apollo/casper/TestIsolatedTemplatizingDatabaseManager.kt:38 | the pattern tried at one start position; a match it reports begins at that position (what the match is, is stated by the two lemmas below) |
| `JdbcUrl.MatchAtSound` | src/casper/kotlin/com/navio/apollo/casper/TestIsolatedTemplatizingDatabaseManager.kt:38 | a match reported at a position satisfies the pattern there: `jdbc:` then no `:` up to `://`, no `/` up to the next `/`, a maximal non-empty `[0-9a-zA-Z_]` run, and the rest of the line |
| `JdbcUrl.MatchAtPositions` | src/casper/kotlin/com/navio/apollo/casper/TestIsolatedTemplatizingDatabaseManager.kt:38 | conversely, any placement of the groups that satisfies the pattern is the match reported at its start, so the matcher is deterministic |
| `JdbcUrl.FindFrom` | src/casper/kotlin/com/navio/apollo/casper/TestIsolatedTemplatizingDatabaseManager.kt:316-317 | `find()` reports a match at the first start position at which the pattern matches, and none exactly when no start position matches |
| `JdbcUrl.GroupsRender` | src/casper/kotlin/com/navio/apollo/casper/TestIsolatedTemplatizingDatabaseManager.kt:318-320 | joining a match's groups as `driver://host/dbname options` gives back exactly the text the match covers |
| `JdbcUrl.Parse` | src/casper/kotlin/com/navio/apollo/casper/TestIsolatedTemplatizingDatabaseManager.kt:329-331 | the groups found in a URL always have the pattern's shape (a `jdbc:` driver, a host without `/`, a non-empty word name, options without line terminators) |
| `JdbcUrl.ParseRender` | src/casper/kotlin/com/navio/apollo/casper/TestIsolatedTemplatizingDatabaseManager.kt:38 | any groups of that shape, joined into a URL, are found again unchanged by the pattern |
| `JdbcUrl.ReplaceDbName` | src/casper/kotlin/com/navio/apollo/casper/TestIsolatedTemplatizingDatabaseManager.kt:312-326 | `default` gives the configured URL unchanged; any other name gives the URL's driver, host and options around the new name; a URL the pattern does not match raises `IllegalArgumentException` ("could not replace DB name") |
| `JdbcUrl.ReplaceDbNameRoundTrip` | src/casper/kotlin/com/navio/apollo/casper/TestIsolatedTemplatizingDatabaseManager.kt:312-326 | for a non-empty `[0-9a-zA-Z_]` name, parsing the rebuilt URL finds that name, with the configured driver, host and options |
| `JdbcUrl.BaseDbName` | src/casper/kotlin/com/navio/apollo/casper/TestIsolatedTemplatizingDatabaseManager.kt:328-335 | succeeds exactly when the URL matches, and then gives the first 18 characters of its database name (1 to 18 word characters); otherwise raises `IllegalArgumentException` ("could not extract DB name") |
| `DatabaseServer.DropIfExists` | src/casper/kotlin/com/navio/apollo/casper/TestIsolatedTemplatizingDatabaseManager.kt:133 | afterwards the database is gone, every other database is untouched, and the statement is recorded; it never fails (see Left out) |
| `DatabaseServer.Create` | src/casper/kotlin/com/navio/apollo/casper/TestIsolatedTemplatizingDatabaseManager.kt:195-200 | creation fails exactly when the name exists or the template does not; a clone starts with the template's contents, a plain database empty; a rejected statement is still recorded, by the caller |
| `DatabaseServer.Drop` | src/casper/kotlin/com/navio/apollo/casper/TestIsolatedTemplatizingDatabaseManager.kt:276-277 | `drop database` fails exactly when the database does not exist, and otherwise removes only that database |
| `DatabaseServer.Initialize` | src/casper/kotlin/com/navio/apollo/casper/TestIsolatedTemplatizingDatabaseManager.kt:210 | the initializer's effect is appended to the template database, and its run count goes up by one while every other count stays |
| `DatabaseManager.Start` | src/casper/kotlin/com/navio/apollo/casper/TestIsolatedTemplatizingDatabaseManager.kt:45-60 | a run starts with both registries empty, no suffix handed out, and the root id not yet computed |
| `DatabaseManager.UniqueId` | src/casper/kotlin/com/navio/apollo/casper/TestIsolatedTemplatizingDatabaseManager.kt:45-54 | the suffix is 8 characters of `0123456789abcdef`, was never handed out before, and is the first draw not handed out before |
| `DatabaseManager.ConfiguredTemplateName` | src/casper/kotlin/com/navio/apollo/casper/TestIsolatedTemplatizingDatabaseManager.kt:75-81 | an unset or blank configured name counts as absent; otherwise it is the trimmed name cut to 20 characters, and never empty |
| `DatabaseManager.DerivedTemplateId` | src/casper/kotlin/com/navio/apollo/casper/TestIsolatedTemplatizingDatabaseManager.kt:92 | the id derived from the URL, `<database name>_t`, is at most 20 characters |
| `DatabaseManager.DeriveRootTemplateId` | src/casper/kotlin/com/navio/apollo/casper/TestIsolatedTemplatizingDatabaseManager.kt:90-94 | the root template id, when there is one, is at most 20 characters long |
| `DatabaseManager.DerivedTemplateIdFromUrl` | src/casper/kotlin/com/navio/apollo/casper/TestIsolatedTemplatizingDatabaseManager.kt:92 | without a configured name the root id is the URL's database name cut to 18 characters plus `_t`, always a valid id; the only failure is a URL the pattern does not match |
| `DatabaseManager.RootTemplateIdChoice` | src/casper/kotlin/com/navio/apollo/casper/TestIsolatedTemplatizingDatabaseManager.kt:75-94 | a configured non-blank name wins (and fails the id rule if it is not a valid id); otherwise the id comes from the URL |
| `DatabaseManager.RootTemplateId` | src/casper/kotlin/com/navio/apollo/casper/TestIsolatedTemplatizingDatabaseManager.kt:90-94 | a stored root id is returned with nothing changed; otherwise the supplier's outcome is returned, and stored only when it is a value |
| `DatabaseManager.TemplateIdOf` | src/casper/kotlin/com/navio/apollo/casper/TestIsolatedTemplatizingDatabaseManager.kt:248-257 | a generator yields its own `getTemplateId()` outcome (an id, or the exception it throws), with nothing changed; `NoAddedFixtures` and the root template resolve to the memoised root id; only the memo can change |
| `DatabaseManager.MakeSource` | src/casper/kotlin/com/navio/apollo/casper/TestIsolatedTemplatizingDatabaseManager.kt:302-310 | a pool can be built exactly when the name can be substituted into the URL, and it connects to that URL |
| `DatabaseManager.EnsurePool` | src/casper/kotlin/com/navio/apollo/casper/TestIsolatedTemplatizingDatabaseManager.kt:242 | afterwards the name has a pool, no existing pool is replaced, and nothing else changes; it fails only when a missing pool cannot be built |
| `DatabaseManager.EnsureDefaultPool` | src/casper/kotlin/com/navio/apollo/casper/TestIsolatedTemplatizingDatabaseManager.kt:190 | the default pool exists afterwards, and every existing pool is kept |
| `DatabaseManager.RemoveAndStop` | src/casper/kotlin/com/navio/apollo/casper/TestIsolatedTemplatizingDatabaseManager.kt:295-300 | removes exactly the named pool; a name without a pool raises `NullPointerException` |
| `DatabaseManager.TemplateDbName` | src/casper/kotlin/com/navio/apollo/casper/TestIsolatedTemplatizingDatabaseManager.kt:192-194 | a template's name is its base, an underscore and its id, or just its id when there is no base |
| `DatabaseManager.CreateTemplateDb` | src/casper/kotlin/com/navio/apollo/casper/TestIsolatedTemplatizingDatabaseManager.kt:184-218 | on success the template is named `<base>_<id>` (or `<id>` with no base), exists holding the base's contents followed by its initializer's, is registered under the id, and has no pool left; its initializer ran exactly once more, and no other template's initializer ran; the drop and the create are issued, in that order, whether or not they succeed |
| `DatabaseManager.RegisterAndInitialize` | src/casper/kotlin/com/navio/apollo/casper/TestIsolatedTemplatizingDatabaseManager.kt:203-214 | once the database exists, the id is registered under its name before the pool is built; the initializer runs exactly when the pool can be built, and the pool is gone afterwards; a pool that cannot be built leaves the template registered, not initialized, and the engine untouched |
| `DatabaseManager.InitializeThroughPool` | src/casper/kotlin/com/navio/apollo/casper/TestIsolatedTemplatizingDatabaseManager.kt:206-214 | the pool shared while the initializer runs is removed afterwards: the net effect is the initializer applied and no pool under the template's name |
| `DatabaseManager.GetNameAndMaybeCreateTemplateDb` | src/casper/kotlin/com/navio/apollo/casper/TestIsolatedTemplatizingDatabaseManager.kt:153-182 | a registered id answers from the registry with nothing created; otherwise the id ends up registered under the returned name, and for a generator a successful call has built the template (it exists with the base's contents and the initializer's, the initializer ran once, no pool is left); the registry only grows, and only by this id; a new entry is `<base>_<id>`, or the base itself for `NoAddedFixtures`; an initializer runs only for an id that was not registered before |
| `DatabaseManager.LookupOrCreate` | src/casper/kotlin/com/navio/apollo/casper/TestIsolatedTemplatizingDatabaseManager.kt:165-181 | the get-or-create step for a known id, with the same registry and run-count guarantees: an unregistered generator's template is built on success, and `NoAddedFixtures` only registers the base, touching neither the engine nor the pools |
| `DatabaseManager.CreateAndRegister` | src/casper/kotlin/com/navio/apollo/casper/TestIsolatedTemplatizingDatabaseManager.kt:169-177 | on success an unregistered generator's template is built (it exists with the base's contents and the initializer's, the initializer ran once more, no pool is left) and registered as `<base>_<id>`; the second `put` changes nothing |
| `DatabaseManager.CreateUniqueTemporaryDb` | src/casper/kotlin/com/navio/apollo/casper/TestIsolatedTemplatizingDatabaseManager.kt:123-138 | the suffix is marked as used; the clone `<template>_<suffix>` succeeds exactly when the template exists, and then has the template's contents; no initializer runs; the drop and the clone are issued, in that order, whether or not they succeed |
| `DatabaseManager.EnsureDatasource` | src/casper/kotlin/com/navio/apollo/casper/TestIsolatedTemplatizingDatabaseManager.kt:225-246 | `Uninitialized` routes to `default` and a per-test state to its own name; a template request routes to its registered name exactly when that name has a pool, and otherwise raises `NoSuchElementException`; the name routed to has a pool, and no existing pool is replaced |
| `DatabaseManager.CleanUp` | src/casper/kotlin/com/navio/apollo/casper/TestIsolatedTemplatizingDatabaseManager.kt:259-280 | `Uninitialized` and template requests raise `IllegalStateException` with nothing changed; a per-test database loses its pool and every other pool is kept; `drop database` is issued exactly when dropping is configured, and fails exactly when the database is missing |
| `DatabaseManager.InitializeTestDb` | src/casper/kotlin/com/navio/apollo/casper/TestIsolatedTemplatizingDatabaseManager.kt:101-121 | on success the thread's context is the returned per-test state; its database exists and is named `<registered template of the requested id>_<fresh suffix>`; the root id is memoised; other threads are untouched; on failure the thread keeps its state or holds the request |
| `ManagerProperties.StartIsValid` | src/casper/kotlin/com/navio/apollo/casper/TestIsolatedTemplatizingDatabaseManager.kt:56-60 | empty registries on a server where no initializer has run satisfy the invariant |
| `ManagerProperties.InitializerRunsAtMostOnce` | src/casper/kotlin/com/navio/apollo/casper/TestIsolatedTemplatizingDatabaseManager.kt:159-178 | under the invariant, each template's initializer (migration or fixtures) has run at most once, and only for a registered template |
| `ManagerProperties.RootTemplateIdKeepsValid` | src/casper/kotlin/com/navio/apollo/casper/TestIsolatedTemplatizingDatabaseManager.kt:90-94 | computing the root id preserves the invariant |
| `ManagerProperties.BaseTemplateKeepsValid` | src/casper/kotlin/com/navio/apollo/casper/TestIsolatedTemplatizingDatabaseManager.kt:108 | resolving the root template preserves the invariant and yields the root id, registered under its own name |
| `ManagerProperties.RequestedTemplateKeepsValid` | src/casper/kotlin/com/navio/apollo/casper/TestIsolatedTemplatizingDatabaseManager.kt:111 | resolving a requested template on top of the root preserves the invariant and registers the requested id |
| `ManagerProperties.RepeatedLookupReturnsSameName` | src/casper/kotlin/com/navio/apollo/casper/TestIsolatedTemplatizingDatabaseManager.kt:157-158 | asking again for a template just resolved returns the same name and changes nothing |
| `ManagerProperties.FailingTemplateIdChangesNothing` | src/casper/kotlin/com/navio/apollo/casper/TestIsolatedTemplatizingDatabaseManager.kt:101-105 | a generator whose `getTemplateId()` throws makes `initializeTestDb` and `ensureDatasource` throw that exception with nothing changed, the thread's context included |
| `ManagerProperties.CreateUniqueTemporaryDbKeepsValid` | src/casper/kotlin/com/navio/apollo/casper/TestIsolatedTemplatizingDatabaseManager.kt:123-138 | cloning a per-test database preserves the invariant |
| `ManagerProperties.InitializeTestDbKeepsValid` | src/casper/kotlin/com/navio/apollo/casper/TestIsolatedTemplatizingDatabaseManager.kt:101-121 | `initializeTestDb` preserves the invariant, whether it returns or throws |
| `ManagerProperties.EnsureDatasourceKeepsValid` | src/casper/kotlin/com/navio/apollo/casper/TestIsolatedTemplatizingDatabaseManager.kt:225-246 | routing preserves the invariant |
| `ManagerProperties.CleanUpKeepsValid` | src/casper/kotlin/com/navio/apollo/casper/TestIsolatedTemplatizingDatabaseManager.kt:259-280 | clean-up preserves the invariant |
| `ManagerProperties.TestDbNaming` | src/casper/kotlin/com/navio/apollo/casper/TestIsolatedTemplatizingDatabaseManager.kt:127-129 | a per-test database is `<root>_<suffix>` for `NoAddedFixtures` and for a generator whose id is the root id, and `<root>_<id>_<suffix>` for any other generator id; the root is the id the configuration yields, and the name is at most 60 characters |
| `ManagerProperties.DistinctSuffixesGiveDistinctNames` | src/casper/kotlin/com/navio/apollo/casper/TestIsolatedTemplatizingDatabaseManager.kt:129 | names ending in different 8-character suffixes differ, whatever template precedes them |
| `ManagerProperties.NewTestDbIsDistinct` | src/casper/kotlin/com/navio/apollo/casper/TestIsolatedTemplatizingDatabaseManager.kt:45-54 | a new per-test database never has the name of one built with an earlier suffix |
| `ManagerProperties.SuccessiveTestDbsDiffer` | src/casper/kotlin/com/navio/apollo/casper/TestIsolatedTemplatizingDatabaseManager.kt:114 | two tests set up one after the other, on any threads and templates, get different databases |
| `ManagerProperties.RegisteredRequestCreatesNothing` | src/casper/kotlin/com/navio/apollo/casper/TestIsolatedTemplatizingDatabaseManager.kt:157-165 | with the requested template already registered, `initializeTestDb` creates no template and runs no initializer, and clones from the registered template |
| `ManagerProperties.RepeatedRequestReusesTemplate` | src/casper/kotlin/com/navio/apollo/casper/TestIsolatedTemplatizingDatabaseManager.kt:153-182 | a second test asking for the same template after a successful first creates no template and runs no initializer |
| `RoutingDataSource.TargetDataSourceMap` | src/casper/kotlin/com/navio/apollo/casper/TestIsolatedTemplatizingDatabaseManager.kt:337-340 | the routing targets are exactly the manager's pools: the same names, each with the manager's pool |
| `RoutingDataSource.DetermineCurrentLookupKey` | src/casper/kotlin/com/navio/apollo/casper/TestIsolatedRoutingDataSource.kt:17-40 | the key is what `ensureDatasource` makes of the thread's state; on success the thread's context becomes that key's per-test state, and the targets become the manager's pools, which include the key; other threads are untouched |
| `RoutingDataSource.LookupIsIdempotent` | src/casper/kotlin/com/navio/apollo/casper/TestIsolatedRoutingDataSource.kt:25-37 | a second lookup on the same thread returns the same key and changes nothing |
| `RoutingDataSource.UninitializedRoutesToDefault` | src/casper/kotlin/com/navio/apollo/casper/TestIsolatedRoutingDataSource.kt:18-37 | a thread with no state routes to `default`, which is then a target, and its context becomes `IsolatedTestTemplate("default")` |
| `RoutingDataSource.TemplateRequestRoutesToTemplate` | src/casper/kotlin/com/navio/apollo/casper/TestIsolatedRoutingDataSource.kt:25 | while a requested template is being initialised, a lookup on the requesting thread routes to the template database |
| `TestBase.StartTest` | src/casper/kotlin/com/navio/apollo/casper/CasperTestBase.kt:113-120 | `localSetUp` receives exactly the per-test state that was returned; any other state raises `IllegalStateException` and `localSetUp` is not called |
| `TestBase.SetUp` | src/casper/kotlin/com/navio/apollo/casper/CasperTestBase.kt:107-121 | `beforeDbSetup` runs first, then `initializeTestDb` with the test's template; `localSetUp` runs exactly when that succeeds, and receives the database it returned |
| `TestBase.After` | src/casper/kotlin/com/navio/apollo/casper/CasperTestBase.kt:126-136 | `localTearDown` runs before the thread's current state is cleaned up; after a successful clean-up the thread is `Uninitialized`, and after a failed one the context is unchanged |
| `NameCollision.TemplateCreationOverwritesTestDb` | src/casper/kotlin/com/navio/apollo/casper/TestIsolatedTemplatizingDatabaseManager.kt:192-203 | a generator whose id is a drawn suffix gets a template of the same name as an existing per-test database; creating the template drops that database and puts the template in its place (an idle database: see Left out) |
| `NameCollision.GeneratorTemplateNamedLikeTestDb` | src/casper/kotlin/com/navio/apollo/casper/TestIsolatedTemplatizingDatabaseManager.kt:129 | a generator whose id is a drawn suffix has the same template name as the `NoAddedFixtures` test database with that suffix |
| `NameCollision.TestDbDestroysTemplate` | src/casper/kotlin/com/navio/apollo/casper/TestIsolatedTemplatizingDatabaseManager.kt:127-135 | a `NoAddedFixtures` test whose drawn suffix is a generator's id drops that generator's template and clones a plain root copy under its name; after its clean-up the id still answers from the registry with that name, and the name holds a copy without the fixtures or, with dropping on, nothing, so cloning from it fails |
| `NameCollision.MakeIsolatedTemplateId` | src/casper/kotlin/com/navio/apollo/casper/DatabaseConfigurationState.kt:58-65 | corrected id rule: the source's rule, and also rejects ids that are an 8-character hex suffix or end with `_` and one |
| `NameCollision.IsolatedIdsKeepNamesApart` | src/casper/kotlin/com/navio/apollo/casper/TestIsolatedTemplatizingDatabaseManager.kt:127-129 | under the corrected rule, no template name is the name of a per-test database, whichever template that database was cloned from |
| `TestBase.TestDbIsNotDefault` | src/casper/kotlin/com/navio/apollo/casper/TestIsolatedTemplatizingDatabaseManager.kt:129 | a per-test database name is never `default`, the key of the shared pool |
| `TestBase.TestLifecycle` | src/casper/kotlin/com/navio/apollo/casper/CasperTestBase.kt:107-136 | after a successful set-up, tear-down succeeds; the test database has no pool left; it still exists exactly when dropping is disabled; the thread is back to `Uninitialized` and other threads keep their state |
| `TestBase.TestLifecycleOrder` | src/casper/kotlin/com/navio/apollo/casper/CasperTestBase.kt:109-134 | a successful test makes its calls in this order: `beforeDbSetup`, `initializeTestDb`, `localSetUp` with its database, `localTearDown`, and `cleanUp` of that database |
| `TestBase.TearDownTestDb` | src/casper/kotlin/com/navio/apollo/casper/CasperTestBase.kt:126-136 | tearing down a thread that holds an existing per-test database drops it exactly when dropping is configured, removes its pool and resets the thread |
| `TestBase.RoutedTestReleasesPool` | src/casper/kotlin/com/navio/apollo/casper/TestIsolatedRoutingDataSource.kt:25-37 | a test that reaches its database through the routing data source is routed to it, and tear-down removes the pool the lookup built |

## Left out

- Pools are identified by their URL only. The driver class, the credentials and
  `DataSourceBuilder` are not modelled, and neither is closing a pool (`Closeable.close`).
- Concurrency is not modelled. `synchronized`, `ConcurrentHashMap`, `ThreadLocal` and
  `AtomicReference` are modelled sequentially: the double-checked lookup becomes get-or-create,
  and the thread-local becomes a map from thread ids to states. At-most-once under real races
  is not stated.
- `DatabaseManager.UniqueId`: only runs of the retry loop that end are modelled, because
  some draw is required to be fresh. The random distribution of `RandomStringUtils` is not
  modelled.
- Initializers are the caller's code: the Flyway migration and the fixture generators.
  The model records that an initializer ran and what it applied. It does not model an
  initializer that throws, or one that re-enters the manager.
- `ManagerProperties.StartIsValid`: it requires a server on which no template initializer has
  run yet. That is the situation at the start of a JVM run, when the registries are empty.
- `DatabaseServer.DropIfExists`: it never fails. Postgres refuses to drop a database that has
  open connections, and the model does not track connections, so that refusal is not modelled.
- `NameCollision.TemplateCreationOverwritesTestDb`: it holds only for a per-test database
  without open connections, one whose test has finished, since it needs `drop database if
  exists` to succeed. While the test still holds its pool, the drop fails and
  `createTemplateDb` throws instead.
- Postgres is reduced to create, drop and clone, with their existence checks. Identifier case
  folding, the 63-byte identifier limit, and the failure to clone a template that has open
  connections are not modelled.
- `TestBase.SetUp`: `localSetUp` and `localTearDown` are assumed to return normally, and the
  transaction `localSetUp` runs in (`entityManagerTransactionContext.inTransaction`) is not
  modelled.
- `FixtureGenerator` is a Kotlin class compared by identity. Here it is a value: what its
  `getTemplateId()` yields, and its initializer. The manager compares only template ids. The
  model asks a generator for its id once per call, as if `getTemplateId()` gave the same
  outcome every time it is called.
- Logging is not modelled.
- The HTTP and GraphQL plumbing is not part of this model: the routing filter and header
  handling, the filter registration and URL configuration, and the GraphQL test base. The JPA
  transaction helper, the JUnit description rule, the example application, the example tests
  and the build scripts are not part of it either.

## Findings

| source | as written | input that shows it | evidently intended | confidence | as-written member | corrected member |
|---|---|---|---|---|---|---|
| src/casper/kotlin/com/navio/apollo/casper/TestIsolatedTemplatizingDatabaseManager.kt:127-135 | template databases (`<root>_<id>`) and per-test databases (`<template>_<8 hex>`) share one namespace, and `createUniqueTemporaryDb` runs `drop database if exists` on the per-test name first | a generator with id `0123abcd` builds template `db_t_0123abcd`; a later `NoAddedFixtures` test draws suffix `0123abcd`, drops that template and clones a plain `db_t` copy under its name, which its clean-up drops; every later test for `0123abcd` fails at `create database … template db_t_0123abcd` | per-test databases never share a name with a template | high, not executed | `NameCollision.TestDbDestroysTemplate` | `NameCollision.IsolatedIdsKeepNamesApart` |
| src/casper/kotlin/com/navio/apollo/casper/TestIsolatedTemplatizingDatabaseManager.kt:192-203 | the same shared namespace, in the other order: `createTemplateDb` runs `drop database if exists` on the template's name first | a finished `NoAddedFixtures` test left `db_t_0123abcd` in place (dropping off, or its drop failed); a later generator with id `0123abcd` drops it and builds its template under that name | per-test databases never share a name with a template | medium, not executed | `NameCollision.TemplateCreationOverwritesTestDb` | `NameCollision.IsolatedIdsKeepNamesApart` |

The corrected member proves the intended separation for a stricter id rule,
`NameCollision.MakeIsolatedTemplateId`. The operations of the model keep the source's own rule
and naming, because they model the code as written. The corrected rule is the constructor a
generator would use instead of `TemplateId(...)`.
