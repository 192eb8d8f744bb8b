/**
  `CasperTestBase`: the `@Before` and `@After` methods every persistent test runs. The test
  class's callbacks (`beforeDbSetup`, `localSetUp`, `localTearDown`) are the caller's code;
  the model records when they are called, in a trace together with the manager calls.
*/
module TestBase {

  import opened Wrappers
  import opened Exceptions
  import opened ConfigurationState
  import opened TestContext
  import opened DatabaseManager
  import opened RoutingDataSource

  const NOT_INITIALIZED_MESSAGE := "Expected to have test database initialized into context?"

  /** A call made during a test's setup or tear-down. */
  datatype Event =
    | BeforeDbSetupCalled
    | InitializeTestDbCalled(template: TemplateConfiguration)
    | LocalSetUpCalled(testTemplate: DatabaseConfigurationState)
    | LocalTearDownCalled
    | CleanUpCalled(state: DatabaseConfigurationState)

  /** The outcome of `setUp` or `after`, the world it leaves, and the calls it made in order. */
  datatype Run = Run(result: Result<(), Error>, world: World, trace: seq<Event>)

  /**
    The second half of `setUp`: given what `initializeTestDb` returned, hand an isolated test
    database to `localSetUp`, and reject any other state.
  */
  function StartTest(i: WorldStep<DatabaseConfigurationState>): (r: Run)
    ensures r.world == i.world
    ensures i.result.Failure? ==> r.result == Failure(i.result.error) && r.trace == []
    ensures i.result.Success? && i.result.value.IsolatedTestTemplate? ==>
              r.result == Success(()) && r.trace == [LocalSetUpCalled(i.result.value)]
    ensures i.result.Success? && !i.result.value.IsolatedTestTemplate? ==>
              r.result == Failure(IllegalState(NOT_INITIALIZED_MESSAGE)) && r.trace == []
  {
    match i.result
    case Failure(e) => Run(Failure(e), i.world, [])
    case Success(st) =>
      if st.IsolatedTestTemplate? then Run(Success(()), i.world, [LocalSetUpCalled(st)])
      else Run(Failure(IllegalState(NOT_INITIALIZED_MESSAGE)), i.world, [])
  }

  /** `setUp()` on thread `t` for a test whose `getTestTemplate()` is `template`. */
  function SetUp(w: World, t: ThreadId, template: TemplateConfiguration, draws: seq<HexSuffix>): (r: Run)
    requires HasFreshDraw(w.manager.supplied, draws)
    ensures |r.trace| >= 2 && r.trace[0] == BeforeDbSetupCalled && r.trace[1] == InitializeTestDbCalled(template)
    ensures r.world == InitializeTestDb(w, t, template, draws).world
    ensures r.result.Success? <==> InitializeTestDb(w, t, template, draws).result.Success?
    // localSetUp runs exactly when a database was initialised, and receives that database
    ensures r.result.Success? ==>
              r.trace == [BeforeDbSetupCalled, InitializeTestDbCalled(template),
                          LocalSetUpCalled(InitializeTestDb(w, t, template, draws).result.value)]
    ensures r.result.Failure? ==> |r.trace| == 2
  {
    var start := StartTest(InitializeTestDb(w, t, template, draws));
    Run(start.result, start.world, [BeforeDbSetupCalled, InitializeTestDbCalled(template)] + start.trace)
  }

  /**
    `after()` on thread `t`: `localTearDown`, then clean up the thread's current state, then
    reset the thread to `Uninitialized`. A failing clean-up skips the reset.
  */
  function After(w: World, t: ThreadId): (r: Run)
    ensures r.trace == [LocalTearDownCalled, CleanUpCalled(GetState(w.context, t))]
    ensures r.world.manager == CleanUp(w.manager, GetState(w.context, t)).manager
    ensures r.result == CleanUp(w.manager, GetState(w.context, t)).result
    ensures r.result.Success? ==> GetState(r.world.context, t) == Uninitialized
    ensures r.result.Failure? ==> r.world.context == w.context
    ensures forall u :: u != t ==> GetState(r.world.context, u) == GetState(w.context, u)
  {
    var st := GetState(w.context, t);
    var c := CleanUp(w.manager, st);
    var trace := [LocalTearDownCalled, CleanUpCalled(st)];
    match c.result
    case Failure(e) => Run(Failure(e), World(c.manager, w.context), trace)
    case Success(_) => Run(Success(()), World(c.manager, SetState(w.context, t, Uninitialized)), trace)
  }

  /** A per-test database name is never the key of the shared default pool. */
  lemma TestDbIsNotDefault(template: string, suffix: HexSuffix)
    ensures template + "_" + suffix != DEFAULT
  {
    assert |template + "_" + suffix| >= 9;
  }

  /**
    One test from set-up to tear-down on thread `t`: tear-down succeeds, the test database
    has no pool left, it is dropped exactly when dropping is configured, and the thread is
    back to `Uninitialized` while other threads keep their state.
  */
  lemma TestLifecycle(w: World, t: ThreadId, template: TemplateConfiguration, draws: seq<HexSuffix>)
    requires HasFreshDraw(w.manager.supplied, draws)
    ensures SetUp(w, t, template, draws).result.Success? ==>
            var db := InitializeTestDb(w, t, template, draws).result.value;
            var a := After(SetUp(w, t, template, draws).world, t);
            && a.result.Success?
            && db.dbName !in a.world.manager.constructedSources
            && (db.dbName in a.world.manager.server.databases <==> !w.manager.settings.dropTestDatabases)
            && GetState(a.world.context, t) == Uninitialized
            && (forall u :: u != t ==> GetState(a.world.context, u) == GetState(w.context, u))
  {
    var i := InitializeTestDb(w, t, template, draws);
    if i.result.Success? {
      var id := RequestedId(i.world.manager, template).value;
      TestDbIsNotDefault(i.world.manager.activeTemplates[id], UniqueId(w.manager.supplied, draws));
      TearDownTestDb(i.world, t);
    }
  }

  /**
    The calls one successful test makes, in order: `beforeDbSetup`, `initializeTestDb`,
    `localSetUp` with the database it returned, `localTearDown`, and `cleanUp` of that
    database.
  */
  lemma TestLifecycleOrder(w: World, t: ThreadId, template: TemplateConfiguration, draws: seq<HexSuffix>)
    requires HasFreshDraw(w.manager.supplied, draws)
    ensures var s := SetUp(w, t, template, draws);
            s.result.Success? ==>
            var db := InitializeTestDb(w, t, template, draws).result.value;
            s.trace + After(s.world, t).trace
              == [BeforeDbSetupCalled, InitializeTestDbCalled(template), LocalSetUpCalled(db),
                  LocalTearDownCalled, CleanUpCalled(db)]
  {
  }

  /**
    Tearing down a thread whose context holds an existing per-test database: clean-up
    succeeds, the pool is gone, the database is dropped exactly when dropping is configured,
    and the thread is back to `Uninitialized`.
  */
  lemma TearDownTestDb(w: World, t: ThreadId)
    requires GetState(w.context, t).IsolatedTestTemplate?
    requires GetState(w.context, t).dbName != DEFAULT
    requires GetState(w.context, t).dbName in w.manager.server.databases
    ensures var n := GetState(w.context, t).dbName;
            var a := After(w, t);
            && a.result.Success?
            && n !in a.world.manager.constructedSources
            && (n in a.world.manager.server.databases <==> !w.manager.settings.dropTestDatabases)
            && GetState(a.world.context, t) == Uninitialized
  {
  }

  /**
    A test that reaches the database through the routing data source: the lookup on the
    test's thread routes to the test database, and tear-down closes that pool again.
  */
  lemma RoutedTestReleasesPool(w: World, t: ThreadId, template: TemplateConfiguration, draws: seq<HexSuffix>,
                               targets: Targets)
    requires HasFreshDraw(w.manager.supplied, draws)
    ensures var s := SetUp(w, t, template, draws);
            s.result.Success? ==>
            var db := InitializeTestDb(w, t, template, draws).result.value;
            var l := DetermineCurrentLookupKey(s.world, targets, t);
            var a := After(l.world, t);
            && (l.key.Success? <==> db.dbName in s.world.manager.constructedSources
                                    || MakeSource(w.manager.settings, db.dbName).Success?)
            && (l.key.Success? ==> l.key.value == db.dbName && db.dbName in l.targets)
            && (l.key.Success? ==> a.result.Success? && db.dbName !in a.world.manager.constructedSources)
  {
    var i := InitializeTestDb(w, t, template, draws);
    if i.result.Success? {
      var id := RequestedId(i.world.manager, template).value;
      TestDbIsNotDefault(i.world.manager.activeTemplates[id], UniqueId(w.manager.supplied, draws));
    }
  }
}
