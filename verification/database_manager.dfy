/**
  `TestIsolatedTemplatizingDatabaseManager`: the two registries (template id -> template
  database name, database name -> connection pool), the used-suffix set, the memoised root
  template id, and the operations that create templates and per-test databases, resolve a
  state to a database name, and clean up.

  Every operation returns the manager as it stands when the operation returns or throws, so
  that the effects a Kotlin exception leaves behind are part of the model.
*/
module DatabaseManager {

  import opened Wrappers
  import opened Text
  import opened Exceptions
  import opened ConfigurationState
  import opened Memoizing
  import opened JdbcUrl
  import opened DatabaseServer
  import opened TestContext

  /** The key of the pool for the configured data-source URL itself. */
  const DEFAULT := "default"

  const CANNOT_CLEAN_DEFAULT := "Cannot clean up the default DataSource"
  const CANNOT_CLEAN_TEMPLATE := "Clean up of templates is not currently supported"

  /**
    The injected configuration: `spring.datasource.url`, the optional
    `spring.datasource.test.template-dbname`, and `casper.drop-test-dbs`.
  */
  datatype Settings = Settings(dsUrl: string, templateDbName: Option<string>, dropTestDatabases: bool)

  /** A connection pool, identified by the URL it connects to. */
  datatype Pool = Pool(url: string)

  datatype Manager = Manager(
    settings: Settings,
    activeTemplates: map<TemplateId, string>,
    constructedSources: map<string, Pool>,
    supplied: set<string>,
    rootSupply: Result<TemplateId, Error>,
    rootTemplateId: Memo<TemplateId>,
    server: Server)

  /**
    The manager when the test JVM starts: empty registries against an existing server, and
    the root-id supplier not yet invoked. The supplier reads only the configuration, so what
    every invocation of it yields is fixed here (`rootSupply`).
  */
  function Start(settings: Settings, server: Server): (r: Manager)
    ensures r.settings == settings && r.server == server
    ensures r.activeTemplates == map[] && r.constructedSources == map[] && r.supplied == {}
    ensures r.rootTemplateId.stored.None? && r.rootTemplateId.invocations == 0
    ensures r.rootSupply == DeriveRootTemplateId(settings)
  {
    Manager(settings, map[], map[], {}, DeriveRootTemplateId(settings), Fresh(), server)
  }

  /** The outcome of a manager operation and the manager it leaves behind. */
  datatype Step<T> = Step(result: Result<T, Error>, manager: Manager)

  /** The manager together with the per-thread context the lifecycle publishes into. */
  datatype World = World(manager: Manager, context: Context)

  datatype WorldStep<T> = WorldStep(result: Result<T, Error>, world: World)

  // ---------------------------------------------------------------------------------------
  // Unique suffixes

  /** 8 characters from `0123456789abcdef`: the only promise made of a random draw. */
  predicate IsHexSuffix(s: string) {
    |s| == 8 && forall i :: 0 <= i < |s| ==> IsLowerHexDigit(s[i])
  }

  type HexSuffix = s: string | IsHexSuffix(s) witness "00000000"

  /** The draws eventually produce a value not supplied before, so the retry loop ends. */
  predicate HasFreshDraw(supplied: set<string>, draws: seq<HexSuffix>) {
    exists i :: 0 <= i < |draws| && draws[i] !in supplied
  }

  /**
    `uniqueIdSupplier`: draw until `putIfAbsent` accepts the draw. The result is the first
    draw that was never supplied before.
  */
  function UniqueId(supplied: set<string>, draws: seq<HexSuffix>): (r: HexSuffix)
    requires HasFreshDraw(supplied, draws)
    ensures r !in supplied
    ensures exists i :: 0 <= i < |draws| && draws[i] == r && forall j :: 0 <= j < i ==> draws[j] in supplied
    decreases |draws|
  {
    if draws[0] !in supplied then draws[0]
    else
      assert HasFreshDraw(supplied, draws[1..]) by {
        var i :| 0 <= i < |draws| && draws[i] !in supplied;
        assert draws[1..][i - 1] == draws[i];
      }
      var r := UniqueId(supplied, draws[1..]);
      assert exists i :: 0 <= i < |draws| && draws[i] == r && forall j :: 0 <= j < i ==> draws[j] in supplied by {
        var i :| 0 <= i < |draws[1..]| && draws[1..][i] == r && forall j :: 0 <= j < i ==> draws[1..][j] in supplied;
        assert draws[i + 1] == r;
        assert forall j :: 0 <= j < i + 1 ==> draws[j] in supplied by {
          forall j | 0 <= j < i + 1 ensures draws[j] in supplied {
            if j > 0 { assert draws[j] == draws[1..][j - 1]; }
          }
        }
      }
      r
  }

  // ---------------------------------------------------------------------------------------
  // Root template id

  /** The `templateDbName` getter: a non-blank configured name, trimmed and cut to 20 characters. */
  function ConfiguredTemplateName(raw: Option<string>): (r: Option<string>)
    ensures r.None? <==> raw.None? || IsBlank(raw.value)
    ensures r.Some? ==> 1 <= |r.value| <= 20 && r.value == Take(Trim(raw.value), 20)
  {
    match raw
    case None => None
    case Some(v) => if !IsBlank(v) then Some(Take(Trim(v), 20)) else None
  }

  /** `"${getBaseDbName()}_t"` as a template id. */
  function DerivedTemplateId(dsUrl: string): (r: Result<TemplateId, Error>)
    ensures r.Success? ==> |r.value| <= 20
  {
    match BaseDbName(dsUrl)
    case Failure(e) => Failure(e)
    case Success(base) =>
      WordsJoin(base, "_t");
      MakeTemplateId(base + "_t")
  }

  /**
    The supplier memoised as `rootDatabaseTemplateId`: the configured template name, or else
    the data-source database name (cut to 18 characters) followed by `_t`.
  */
  function DeriveRootTemplateId(s: Settings): (r: Result<TemplateId, Error>)
    ensures r.Success? ==> |r.value| <= 20
  {
    match ConfiguredTemplateName(s.templateDbName)
    case Some(name) => MakeTemplateId(name)
    case None => DerivedTemplateId(s.dsUrl)
  }

  /**
    Without a configured name the root id is the URL's database name cut to 18 characters
    plus `_t`, which is always a valid id; the only failure is a URL the pattern does not match.
  */
  lemma DerivedTemplateIdFromUrl(dsUrl: string)
    ensures Parse(dsUrl).Some? ==> DerivedTemplateId(dsUrl) == Success(Take(Parse(dsUrl).value.dbname, 18) + "_t")
    ensures Parse(dsUrl).None? ==> DerivedTemplateId(dsUrl) == Failure(IllegalArgument(EXTRACT_MESSAGE))
  {
    var b := BaseDbName(dsUrl);
    if b.Success? {
      WordsJoin(b.value, "_t");
      assert ValidTemplateName(b.value + "_t");
    }
  }

  /**
    Which root template id a configuration yields: the configured name when one is set (and
    only if it is a valid id), otherwise the id derived from the URL.
  */
  lemma RootTemplateIdChoice(s: Settings)
    ensures ConfiguredTemplateName(s.templateDbName).Some? ==>
              DeriveRootTemplateId(s) == MakeTemplateId(ConfiguredTemplateName(s.templateDbName).value)
    ensures ConfiguredTemplateName(s.templateDbName).None? && Parse(s.dsUrl).Some? ==>
              DeriveRootTemplateId(s) == Success(Take(Parse(s.dsUrl).value.dbname, 18) + "_t")
    ensures ConfiguredTemplateName(s.templateDbName).None? && Parse(s.dsUrl).None? ==>
              DeriveRootTemplateId(s) == Failure(IllegalArgument(EXTRACT_MESSAGE))
  {
    DerivedTemplateIdFromUrl(s.dsUrl);
  }

  /** The supplier as `memoOf` sees it: returns the id, or throws. */
  function RootSupplier(supply: Result<TemplateId, Error>): nat -> Returned<TemplateId, Error> {
    _ => match supply
         case Success(id) => Value(id)
         case Failure(e) => Threw(e)
  }

  /** `rootDatabaseTemplateId()`. */
  function RootTemplateId(m: Manager): (r: Step<TemplateId>)
    ensures r.manager == m.(rootTemplateId := r.manager.rootTemplateId)
    ensures m.rootTemplateId.stored.Some? ==> r == Step(Success(m.rootTemplateId.stored.value), m)
    ensures m.rootTemplateId.stored.None? ==> r.result == m.rootSupply
    ensures m.rootTemplateId.stored.None? ==>
              r.manager.rootTemplateId.invocations == m.rootTemplateId.invocations + 1
    ensures r.result.Success? ==> r.manager.rootTemplateId.stored == Some(r.result.value)
    ensures r.result.Failure? ==> r.manager.rootTemplateId.stored.None?
  {
    var c := Invoke(m.rootTemplateId, RootSupplier(m.rootSupply));
    var m1 := m.(rootTemplateId := c.memo);
    match c.result
    case Value(id) => Step(Success(id), m1)
    case Threw(e) => Step(Failure(e), m1)
    case Null => Step(Failure(NullPointer), m1)
  }

  // ---------------------------------------------------------------------------------------
  // Template requests

  /** A template to resolve: the internal root template (`createBaseTemplate`) or a caller's request. */
  datatype TemplateSource = BaseTemplate | Requested(config: TemplateConfiguration)

  /** `getTemplateId`. */
  function TemplateIdOf(m: Manager, src: TemplateSource): (r: Step<TemplateId>)
    ensures r.manager == m.(rootTemplateId := r.manager.rootTemplateId)
    ensures r.manager.activeTemplates == m.activeTemplates && r.manager.server == m.server
    ensures r.manager.settings == m.settings && r.manager.rootSupply == m.rootSupply && r.manager.supplied == m.supplied
    ensures src.Requested? && src.config.FixtureGenerator? ==>
              r == Step(src.config.templateId, m)
    ensures !(src.Requested? && src.config.FixtureGenerator?) ==> r == RootTemplateId(m)
  {
    match src
    case BaseTemplate => RootTemplateId(m)
    case Requested(FixtureGenerator(id, _)) => Step(id, m)
    case Requested(NoAddedFixtures) => RootTemplateId(m)
  }

  /** The initializer a template runs when it is created; `NoAddedFixtures` has none. */
  function InitializerOf(src: TemplateSource): Option<Initializer> {
    match src
    case BaseTemplate => Some(FlywayMigrate)
    case Requested(FixtureGenerator(_, init)) => Some(init)
    case Requested(NoAddedFixtures) => None
  }

  // ---------------------------------------------------------------------------------------
  // Pools

  /** `makeSource`: a pool for the data-source URL with `name` substituted. */
  function MakeSource(s: Settings, name: string): (r: Result<Pool, Error>)
    ensures r.Success? <==> ReplaceDbName(s.dsUrl, name).Success?
    ensures r.Success? ==> r.value == Pool(ReplaceDbName(s.dsUrl, name).value)
    ensures r.Failure? ==> r.error == IllegalArgument(REPLACE_MESSAGE)
  {
    match ReplaceDbName(s.dsUrl, name)
    case Success(url) => Success(Pool(url))
    case Failure(e) => Failure(e)
  }

  /** `constructedSources.computeIfAbsent(name, makeSource)`. */
  function EnsurePool(m: Manager, name: string): (r: Result<Manager, Error>)
    ensures r.Success? <==> name in m.constructedSources || MakeSource(m.settings, name).Success?
    ensures r.Success? ==> r.value == m.(constructedSources := r.value.constructedSources)
    ensures r.Success? ==> name in r.value.constructedSources
    ensures r.Success? ==> r.value.constructedSources.Keys == m.constructedSources.Keys + {name}
    ensures r.Success? ==> forall k :: k in m.constructedSources ==>
                             r.value.constructedSources[k] == m.constructedSources[k]
  {
    if name in m.constructedSources then Success(m)
    else
      match MakeSource(m.settings, name)
      case Success(pool) => Success(m.(constructedSources := m.constructedSources[name := pool]))
      case Failure(e) => Failure(e)
  }

  /** The pool for the data-source URL itself, which can always be built. */
  function EnsureDefaultPool(m: Manager): (r: Manager)
    ensures r == m.(constructedSources := r.constructedSources)
    ensures r.constructedSources.Keys == m.constructedSources.Keys + {DEFAULT}
    ensures forall k :: k in m.constructedSources ==> r.constructedSources[k] == m.constructedSources[k]
  {
    var e := EnsurePool(m, DEFAULT);
    assert e.Success?;
    e.value
  }

  /**
    `removeAndStop`: drop the pool from the registry (closing it is not modelled); a name
    without a pool trips the `!!` on the removed value.
  */
  function RemoveAndStop(m: Manager, name: string): (r: Result<Manager, Error>)
    ensures r.Success? <==> name in m.constructedSources
    ensures r.Success? ==> r.value == m.(constructedSources := m.constructedSources - {name})
    ensures r.Failure? ==> r.error == NullPointer
  {
    if name in m.constructedSources then Success(m.(constructedSources := m.constructedSources - {name}))
    else Failure(NullPointer)
  }

  // ---------------------------------------------------------------------------------------
  // Database creation

  /** The naming scheme of templates: `<base>_<id>`, or just `<id>` for the root template. */
  function TemplateDbName(base: Option<string>, id: TemplateId): (r: string)
    ensures |r| == (if base.Some? then |base.value| + 1 else 0) + |id|
    ensures r[|r| - |id|..] == id
    ensures base.Some? ==> r[..|base.value|] == base.value && r[|base.value|] == '_'
  {
    match base
    case Some(b) => b + "_" + id
    case None => id
  }

  /**
    `createTemplateDb`: drop-if-exists and create the template database (cloned from `base`
    when there is one), register it, open a temporary pool, run the initializer, and remove
    the pool again so the database can serve as a template.
  */
  /**
    Template `id` was built as `name` between `before` and `after`: the database exists, holds
    the base's contents (none without a base) followed by the initializer's, the initializer
    ran once more, and the temporary pool is gone.
  */
  predicate TemplateBuilt(before: Manager, after: Manager, id: TemplateId, name: string, base: Option<string>, init: Initializer) {
    && Runs(after.server, id) == Runs(before.server, id) + 1
    && (base.Some? ==> base.value in before.server.databases)
    && name in after.server.databases
    && after.server.databases[name] == (if base.Some? then before.server.databases[base.value] else []) + [init]
    && name !in after.constructedSources
  }

  function CreateTemplateDb(m: Manager, id: TemplateId, base: Option<string>, init: Initializer): (r: Step<string>)
    ensures r.manager.settings == m.settings && r.manager.rootSupply == m.rootSupply && r.manager.supplied == m.supplied
    ensures r.manager.rootTemplateId == m.rootTemplateId
    ensures r.manager.activeTemplates == m.activeTemplates
         || r.manager.activeTemplates == m.activeTemplates[id := TemplateDbName(base, id)]
    ensures Runs(r.manager.server, id) == Runs(m.server, id)
         || (r.result.Success? && Runs(r.manager.server, id) == Runs(m.server, id) + 1)
    ensures forall k :: k != id ==> Runs(r.manager.server, k) == Runs(m.server, k)
    ensures r.result.Success? ==>
              && r.result.value == TemplateDbName(base, id)
              && r.manager.activeTemplates == m.activeTemplates[id := TemplateDbName(base, id)]
              && TemplateBuilt(m, r.manager, id, TemplateDbName(base, id), base, init)
    // the drop and the create are issued whether or not they succeed
    ensures r.manager.server.executed
              == m.server.executed + [DropDatabaseIfExists(TemplateDbName(base, id)), CreateDatabase(TemplateDbName(base, id), base)]
    ensures forall k :: k in r.manager.constructedSources ==>
              k in m.constructedSources || k == DEFAULT
  {
    CreateNamedTemplate(m, id, TemplateDbName(base, id), base, init)
  }

  /** `createTemplateDb` once the template's name is known; the base is never that name. */
  function CreateNamedTemplate(m: Manager, id: TemplateId, name: string, base: Option<string>, init: Initializer): (r: Step<string>)
    requires base.Some? ==> base.value != name
    ensures r.manager.settings == m.settings && r.manager.rootSupply == m.rootSupply && r.manager.supplied == m.supplied
    ensures r.manager.rootTemplateId == m.rootTemplateId
    ensures r.manager.activeTemplates == m.activeTemplates || r.manager.activeTemplates == m.activeTemplates[id := name]
    ensures Runs(r.manager.server, id) == Runs(m.server, id)
         || (r.result.Success? && Runs(r.manager.server, id) == Runs(m.server, id) + 1)
    ensures forall k :: k != id ==> Runs(r.manager.server, k) == Runs(m.server, k)
    ensures r.result.Success? ==>
              && r.result.value == name
              && r.manager.activeTemplates == m.activeTemplates[id := name]
              && TemplateBuilt(m, r.manager, id, name, base, init)
    ensures r.manager.server.executed == m.server.executed + [DropDatabaseIfExists(name), CreateDatabase(name, base)]
    ensures forall k :: k in r.manager.constructedSources ==> k in m.constructedSources || k == DEFAULT
  {
    var m1 := EnsureDefaultPool(m);
    var sv1 := DropIfExists(m1.server, name);
    match Create(sv1, name, base)
    case Failure(e) => Step(Failure(e), m1.(server := Rejected(sv1, CreateDatabase(name, base))))
    case Success(sv2) => RegisterAndInitialize(m1.(server := sv2), id, name, init)
  }

  /**
    The rest of `createTemplateDb` once the database exists: register it, build its pool, run
    the initializer through that pool and remove the pool. A pool that cannot be built leaves
    the template registered but not initialized.
  */
  function RegisterAndInitialize(m: Manager, id: TemplateId, name: string, init: Initializer): (r: Step<string>)
    requires name in m.server.databases
    ensures r.manager.settings == m.settings && r.manager.rootSupply == m.rootSupply && r.manager.supplied == m.supplied
    ensures r.manager.rootTemplateId == m.rootTemplateId
    ensures r.manager.activeTemplates == m.activeTemplates[id := name]
    ensures r.result.Success? <==> MakeSource(m.settings, name).Success?
    ensures r.result.Success? ==>
              && r.result.value == name
              && r.manager.server == Initialize(m.server, id, name, init)
              && r.manager.constructedSources == m.constructedSources - {name}
    ensures r.result.Failure? ==>
              && r.result.error == MakeSource(m.settings, name).error
              && r.manager.server == m.server && r.manager.constructedSources == m.constructedSources
  {
    var m2 := m.(activeTemplates := m.activeTemplates[id := name]);
    match MakeSource(m2.settings, name)
    case Failure(e) => Step(Failure(e), m2)
    case Success(pool) => Step(Success(name), InitializeThroughPool(m2, id, name, init, pool))
  }

  /**
    The template's pool is shared for as long as its initializer runs and removed after: the
    net effect is the initializer applied, and no pool left under the template's name.
  */
  function InitializeThroughPool(m: Manager, id: TemplateId, name: string, init: Initializer, pool: Pool): (r: Manager)
    requires name in m.server.databases
    ensures r == m.(server := Initialize(m.server, id, name, init), constructedSources := m.constructedSources - {name})
  {
    var m3 := m.(constructedSources := m.constructedSources[name := pool]);
    var m4 := m3.(server := Initialize(m3.server, id, name, init));
    var m5 := RemoveAndStop(m4, name);
    assert m5.Success?;
    m5.value
  }

  /**
    `getNameAndMaybeCreateTemplateDb`: the registered name of the template, creating and
    registering the template first when its id is not registered yet.
  */
  function GetNameAndMaybeCreateTemplateDb(m: Manager, src: TemplateSource, base: Option<string>): (r: Step<string>)
    ensures r.manager.settings == m.settings && r.manager.rootSupply == m.rootSupply && r.manager.supplied == m.supplied
    ensures r.manager.rootTemplateId == TemplateIdOf(m, src).manager.rootTemplateId
    ensures TemplateIdOf(m, src).result.Failure? ==>
              r == Step(Failure(TemplateIdOf(m, src).result.error), TemplateIdOf(m, src).manager)
    ensures TemplateIdOf(m, src).result.Success? ==>
              var id := TemplateIdOf(m, src).result.value;
              // a registered id is answered from the registry, with no creation
              && (id in m.activeTemplates ==> r == Step(Success(m.activeTemplates[id]), TemplateIdOf(m, src).manager))
              // on success the id is registered under the returned name
              && (r.result.Success? ==> id in r.manager.activeTemplates && r.manager.activeTemplates[id] == r.result.value)
              // the registry only grows, and only by the requested id
              && (forall k :: k in m.activeTemplates ==>
                    k in r.manager.activeTemplates && r.manager.activeTemplates[k] == m.activeTemplates[k])
              && r.manager.activeTemplates.Keys <= m.activeTemplates.Keys + {id}
              // a new registration names the template after its base and id
              && (InitializerOf(src).Some? ==> forall k :: k in r.manager.activeTemplates && k !in m.activeTemplates ==>
                    r.manager.activeTemplates[k] == TemplateDbName(base, k))
              && (InitializerOf(src).None? ==> forall k :: k in r.manager.activeTemplates && k !in m.activeTemplates ==>
                    base.Some? && r.manager.activeTemplates[k] == base.value)
              // the initializer runs once, for an id that was not registered and now is
              && (forall k :: k != id ==> Runs(r.manager.server, k) == Runs(m.server, k))
              && (Runs(r.manager.server, id) == Runs(m.server, id)
                  || (&& id !in m.activeTemplates && id in r.manager.activeTemplates
                      && Runs(r.manager.server, id) == Runs(m.server, id) + 1))
              // an unregistered generator's template is built
              && (id !in m.activeTemplates && InitializerOf(src).Some? && r.result.Success? ==>
                    TemplateBuilt(TemplateIdOf(m, src).manager, r.manager, id, TemplateDbName(base, id), base, InitializerOf(src).value))
  {
    var s0 := TemplateIdOf(m, src);
    match s0.result
    case Failure(e) => Step(Failure(e), s0.manager)
    case Success(id) => LookupOrCreate(s0.manager, id, InitializerOf(src), base)
  }

  /**
    The registry step of `getNameAndMaybeCreateTemplateDb` once the id is known: a registered
    id answers from the registry; otherwise a generator creates the template and
    `NoAddedFixtures` registers the base template under the id.
  */
  function LookupOrCreate(m: Manager, id: TemplateId, init: Option<Initializer>, base: Option<string>): (r: Step<string>)
    ensures r.manager.settings == m.settings && r.manager.rootSupply == m.rootSupply && r.manager.supplied == m.supplied
    ensures r.manager.rootTemplateId == m.rootTemplateId
    ensures id in m.activeTemplates ==> r == Step(Success(m.activeTemplates[id]), m)
    ensures r.result.Success? ==> id in r.manager.activeTemplates && r.manager.activeTemplates[id] == r.result.value
    ensures forall k :: k in m.activeTemplates ==>
              k in r.manager.activeTemplates && r.manager.activeTemplates[k] == m.activeTemplates[k]
    ensures r.manager.activeTemplates.Keys <= m.activeTemplates.Keys + {id}
    ensures init.Some? ==> forall k :: k in r.manager.activeTemplates && k !in m.activeTemplates ==>
              r.manager.activeTemplates[k] == TemplateDbName(base, k)
    ensures init.None? ==> forall k :: k in r.manager.activeTemplates && k !in m.activeTemplates ==>
              base.Some? && r.manager.activeTemplates[k] == base.value
    ensures forall k :: k != id ==> Runs(r.manager.server, k) == Runs(m.server, k)
    ensures Runs(r.manager.server, id) == Runs(m.server, id)
         || (&& id !in m.activeTemplates && id in r.manager.activeTemplates
             && Runs(r.manager.server, id) == Runs(m.server, id) + 1)
    // an unregistered generator's template is built; `NoAddedFixtures` only registers
    ensures id !in m.activeTemplates && init.Some? && r.result.Success? ==> TemplateBuilt(m, r.manager, id, TemplateDbName(base, id), base, init.value)
    ensures init.None? ==> r.manager.server == m.server && r.manager.constructedSources == m.constructedSources
  {
    if id in m.activeTemplates then Step(Success(m.activeTemplates[id]), m)
    else
      match init
      case Some(i) => CreateAndRegister(m, id, base, i)
      case None =>
        (match base
         case Some(b) => Step(Success(b), m.(activeTemplates := m.activeTemplates[id := b]))
         case None => Step(Failure(NullPointer), m))
  }

  /** A generator's template that is not registered yet: create it, then register its name. */
  function CreateAndRegister(m: Manager, id: TemplateId, base: Option<string>, init: Initializer): (r: Step<string>)
    requires id !in m.activeTemplates
    ensures r.manager.settings == m.settings && r.manager.rootSupply == m.rootSupply
    ensures r.manager.supplied == m.supplied && r.manager.rootTemplateId == m.rootTemplateId
    ensures r.manager.activeTemplates == m.activeTemplates
         || r.manager.activeTemplates == m.activeTemplates[id := TemplateDbName(base, id)]
    ensures r.result.Success? ==>
              && r.result.value == TemplateDbName(base, id)
              && r.manager.activeTemplates == m.activeTemplates[id := TemplateDbName(base, id)]
              && TemplateBuilt(m, r.manager, id, TemplateDbName(base, id), base, init)
    ensures forall k :: k != id ==> Runs(r.manager.server, k) == Runs(m.server, k)
    ensures Runs(r.manager.server, id) == Runs(m.server, id)
         || (id in r.manager.activeTemplates && Runs(r.manager.server, id) == Runs(m.server, id) + 1)
  {
    var c := CreateTemplateDb(m, id, base, init);
    match c.result
    case Success(name) =>
      // the second `put` stores the entry `createTemplateDb` already stored
      if id in c.manager.activeTemplates && c.manager.activeTemplates[id] == name then c
      else Step(Success(name), c.manager.(activeTemplates := c.manager.activeTemplates[id := name]))
    case Failure(e) => c
  }

  /**
    `createUniqueTemporaryDb`: a fresh suffix, then drop-if-exists and clone
    `<template>_<suffix>` from the template.
  */
  function CreateUniqueTemporaryDb(m: Manager, template: string, draws: seq<HexSuffix>): (r: Step<string>)
    requires HasFreshDraw(m.supplied, draws)
    ensures r.manager.settings == m.settings && r.manager.rootSupply == m.rootSupply && r.manager.activeTemplates == m.activeTemplates
    ensures r.manager.rootTemplateId == m.rootTemplateId
    ensures r.manager.server.initRuns == m.server.initRuns
    ensures r.manager.supplied == m.supplied + {UniqueId(m.supplied, draws)}
    ensures r.result.Success? <==> template in m.server.databases
    ensures r.result.Success? ==>
              && r.result.value == template + "_" + UniqueId(m.supplied, draws)
              && r.result.value in r.manager.server.databases
              && r.manager.server.databases[r.result.value] == m.server.databases[template]
    ensures r.result.Failure? ==> r.result.error == EngineFailure(CreateDatabase(
              template + "_" + UniqueId(m.supplied, draws), Some(template)))
    // the drop and the clone are issued whether or not they succeed
    ensures var name := template + "_" + UniqueId(m.supplied, draws);
            r.manager.server.executed == m.server.executed + [DropDatabaseIfExists(name), CreateDatabase(name, Some(template))]
  {
    var m1 := EnsureDefaultPool(m);
    var suffix := UniqueId(m1.supplied, draws);
    var m2 := m1.(supplied := m1.supplied + {suffix});
    var name := template + "_" + suffix;
    assert name != template;
    var sv1 := DropIfExists(m2.server, name);
    match Create(sv1, name, Some(template))
    case Failure(e) => Step(Failure(e), m2.(server := Rejected(sv1, CreateDatabase(name, Some(template)))))
    case Success(sv2) => Step(Success(name), m2.(server := sv2))
  }

  // ---------------------------------------------------------------------------------------
  // Resolving and cleaning up states

  /**
    `ensureDatasource`: the name of the pool a state routes to, building the pool when it is
    missing. A template request routes to its template only while the template's temporary
    pool exists, that is while the template is being initialised.
  */
  function EnsureDatasource(m: Manager, st: DatabaseConfigurationState): (r: Step<string>)
    ensures r.manager.activeTemplates == m.activeTemplates && r.manager.server == m.server
    ensures r.manager.settings == m.settings && r.manager.rootSupply == m.rootSupply && r.manager.supplied == m.supplied
    ensures !st.TemplateRequest? ==> r.manager.rootTemplateId == m.rootTemplateId
    ensures st.Uninitialized? ==> r.result == Success(DEFAULT)
    ensures st.IsolatedTestTemplate? ==>
              (r.result.Success? <==> st.dbName in m.constructedSources || MakeSource(m.settings, st.dbName).Success?)
    ensures st.IsolatedTestTemplate? && r.result.Success? ==> r.result.value == st.dbName
    ensures st.IsolatedTestTemplate? && r.result.Failure? ==> r.result.error == IllegalArgument(REPLACE_MESSAGE)
    ensures st.TemplateRequest? ==>
              var tid := TemplateIdOf(m, Requested(st.config));
              && r.manager.rootTemplateId == tid.manager.rootTemplateId
              && (r.result.Success? <==>
                    && tid.result.Success?
                    && tid.result.value in m.activeTemplates
                    && m.activeTemplates[tid.result.value] in m.constructedSources)
              && (r.result.Success? ==> r.result.value == m.activeTemplates[tid.result.value])
              && (tid.result.Success? && r.result.Failure? ==> r.result.error == NoSuchElement)
    // the resolved name has a pool, and no existing pool is replaced
    ensures r.result.Success? ==> r.result.value in r.manager.constructedSources
    ensures forall k :: k in m.constructedSources ==>
              k in r.manager.constructedSources && r.manager.constructedSources[k] == m.constructedSources[k]
    ensures r.result.Failure? ==> r.manager.constructedSources == m.constructedSources
  {
    var found: Step<string> :=
      match st
      case Uninitialized => Step(Success(DEFAULT), m)
      case IsolatedTestTemplate(n) => Step(Success(n), m)
      case TemplateRequest(config) =>
        var tid := TemplateIdOf(m, Requested(config));
        (match tid.result
         case Failure(e) => Step(Failure(e), tid.manager)
         case Success(id) =>
           if id in m.activeTemplates && m.activeTemplates[id] in m.constructedSources
           then Step(Success(m.activeTemplates[id]), tid.manager)
           else Step(Failure(NoSuchElement), tid.manager));
    match found.result
    case Failure(e) => found
    case Success(name) =>
      match EnsurePool(found.manager, name)
      case Success(m1) => Step(Success(name), m1)
      case Failure(e) => Step(Failure(e), found.manager)
  }

  /**
    `cleanUp`: only a per-test database can be cleaned up. Its pool is removed when there is
    one, and the database is dropped unless `casper.drop-test-dbs` is false.
  */
  function CleanUp(m: Manager, st: DatabaseConfigurationState): (r: Step<()>)
    ensures st.Uninitialized? ==> r == Step(Failure(IllegalState(CANNOT_CLEAN_DEFAULT)), m)
    ensures st.TemplateRequest? ==> r == Step(Failure(IllegalState(CANNOT_CLEAN_TEMPLATE)), m)
    ensures r.manager.activeTemplates == m.activeTemplates && r.manager.rootTemplateId == m.rootTemplateId
    ensures r.manager.settings == m.settings && r.manager.rootSupply == m.rootSupply && r.manager.supplied == m.supplied
    ensures r.manager.server.initRuns == m.server.initRuns
    ensures st.IsolatedTestTemplate? ==>
              // the pool is gone (the shared default pool comes back to issue the drop)
              && (st.dbName != DEFAULT || !m.settings.dropTestDatabases ==>
                    st.dbName !in r.manager.constructedSources)
              // every other pool is kept
              && (forall k :: k in m.constructedSources && k != st.dbName ==>
                    k in r.manager.constructedSources && r.manager.constructedSources[k] == m.constructedSources[k])
              && (forall k :: k in r.manager.constructedSources ==> k in m.constructedSources || k == DEFAULT)
              // a drop is issued exactly when dropping is configured, and it fails only for a missing database
              && (m.settings.dropTestDatabases ==>
                    && r.manager.server.executed == m.server.executed + [DropDatabase(st.dbName)]
                    && (r.result.Success? <==> st.dbName in m.server.databases)
                    && (r.result.Success? ==> r.manager.server.databases == m.server.databases - {st.dbName})
                    && (r.result.Failure? ==> r.result.error == EngineFailure(DropDatabase(st.dbName))))
              && (!m.settings.dropTestDatabases ==> r.result.Success? && r.manager.server == m.server)
  {
    match st
    case Uninitialized => Step(Failure(IllegalState(CANNOT_CLEAN_DEFAULT)), m)
    case TemplateRequest(_) => Step(Failure(IllegalState(CANNOT_CLEAN_TEMPLATE)), m)
    case IsolatedTestTemplate(n) =>
      var m1 := if n in m.constructedSources then RemoveAndStop(m, n).value else m;
      if !m.settings.dropTestDatabases then Step(Success(()), m1)
      else
        var m2 := EnsureDefaultPool(m1);
        match Drop(m2.server, n)
        case Success(sv) => Step(Success(()), m2.(server := sv))
        case Failure(e) => Step(Failure(e), m2.(server := Rejected(m2.server, DropDatabase(n))))
  }

  // ---------------------------------------------------------------------------------------
  // Per-test databases

  /**
    The id a template request resolves to once the root id is known: the generator's own id
    (when it yields one), or the root id for `NoAddedFixtures`.
  */
  function RequestedId(m: Manager, config: TemplateConfiguration): Option<TemplateId> {
    match config
    case FixtureGenerator(id, _) => if id.Success? then Some(id.value) else None
    case NoAddedFixtures => m.rootTemplateId.stored
  }

  /**
    `initializeTestDb`: publish the request in the thread's context, make sure the root
    template and the requested template exist, clone a uniquely named database from the
    template, and publish that database in the context. The id in the debug message is
    computed before the context is set, so a failing root id leaves the context untouched.
  */
  function InitializeTestDb(w: World, t: ThreadId, config: TemplateConfiguration, draws: seq<HexSuffix>)
    : (r: WorldStep<DatabaseConfigurationState>)
    requires HasFreshDraw(w.manager.supplied, draws)
    ensures r.world.manager.settings == w.manager.settings && r.world.manager.rootSupply == w.manager.rootSupply
    ensures forall u :: u != t ==> GetState(r.world.context, u) == GetState(w.context, u)
    ensures r.result.Failure? ==>
              (GetState(r.world.context, t) == GetState(w.context, t)
               || GetState(r.world.context, t) == TemplateRequest(config))
    ensures r.world.manager.supplied == w.manager.supplied
         || r.world.manager.supplied == w.manager.supplied + {UniqueId(w.manager.supplied, draws)}
    ensures r.result.Success? ==>
              && GetState(r.world.context, t) == r.result.value
              && r.world.manager.supplied == w.manager.supplied + {UniqueId(w.manager.supplied, draws)}
              && r.world.manager.rootTemplateId.stored.Some?
              && RequestedId(r.world.manager, config).Some?
              && RequestedId(r.world.manager, config).value in r.world.manager.activeTemplates
              && r.result.value == IsolatedTestTemplate(
                   r.world.manager.activeTemplates[RequestedId(r.world.manager, config).value]
                   + "_" + UniqueId(w.manager.supplied, draws))
              && r.result.value.dbName in r.world.manager.server.databases
  {
    var s0 := TemplateIdOf(w.manager, Requested(config));
    match s0.result
    case Failure(e) => WorldStep(Failure(e), World(s0.manager, w.context))
    case Success(_) =>
      var c1 := SetState(w.context, t, TemplateRequest(config));
      var b := GetNameAndMaybeCreateTemplateDb(s0.manager, BaseTemplate, None);
      match b.result
      case Failure(e) => WorldStep(Failure(e), World(b.manager, c1))
      case Success(base) =>
        var n := GetNameAndMaybeCreateTemplateDb(b.manager, Requested(config), Some(base));
        match n.result
        case Failure(e) => WorldStep(Failure(e), World(n.manager, c1))
        case Success(template) =>
          var u := CreateUniqueTemporaryDb(n.manager, template, draws);
          match u.result
          case Failure(e) => WorldStep(Failure(e), World(u.manager, c1))
          case Success(name) =>
            var st := IsolatedTestTemplate(name);
            WorldStep(Success(st), World(u.manager, SetState(c1, t, st)))
  }
}
