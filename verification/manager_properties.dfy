/**
  What the manager keeps true across a test run: every registered template is named after
  the root template, the root id is the one the configuration yields, and each template's
  initializer has run at most once (a template whose pool could not be built stays registered
  without having run it). From it follow the naming scheme and the length bound of
  per-test databases, and their distinctness.
*/
module ManagerProperties {

  import opened Wrappers
  import opened ConfigurationState
  import opened DatabaseServer
  import opened TestContext
  import opened DatabaseManager

  /** The root-id supplier yields what the configuration determines. */
  predicate Configured(m: Manager) {
    m.rootSupply == DeriveRootTemplateId(m.settings)
  }

  /** A stored root id is the one the supplier yields. */
  predicate RootConsistent(m: Manager) {
    m.rootTemplateId.stored.Some? ==> m.rootSupply == Success(m.rootTemplateId.stored.value)
  }

  /**
    The naming scheme: once anything is registered, the root id is registered under its own
    name, and every other id under `<root>_<id>`.
  */
  predicate NamedAfterRoot(m: Manager) {
    m.activeTemplates != map[] ==>
      && m.rootTemplateId.stored.Some?
      && var root := m.rootTemplateId.stored.value;
         && root in m.activeTemplates && m.activeTemplates[root] == root
         && forall id :: id in m.activeTemplates && id != root ==> m.activeTemplates[id] == root + "_" + id
  }

  /** Initializers have run only for registered ids, once each. */
  ghost predicate InitializedOnce(m: Manager) {
    forall id :: Runs(m.server, id) <= 1 && (Runs(m.server, id) == 1 ==> id in m.activeTemplates)
  }

  ghost predicate Valid(m: Manager) {
    RootConsistent(m) && NamedAfterRoot(m) && InitializedOnce(m)
  }

  /** A manager starting against a server on which no initializer has run is valid. */
  lemma StartIsValid(settings: Settings, server: Server)
    requires server.initRuns == map[]
    ensures Valid(Start(settings, server)) && Configured(Start(settings, server))
  {
  }

  /** Under the invariant no template initializer (migration or fixture load) has run twice. */
  lemma InitializerRunsAtMostOnce(m: Manager, id: TemplateId)
    requires Valid(m)
    ensures Runs(m.server, id) <= 1
    ensures Runs(m.server, id) == 1 ==> id in m.activeTemplates
  {
  }

  lemma RootTemplateIdKeepsValid(m: Manager)
    requires Valid(m)
    ensures Valid(RootTemplateId(m).manager)
  {
  }

  /**
    Resolving the root template keeps the invariant, and a successful resolution returns the
    root id, registered under its own name.
  */
  lemma BaseTemplateKeepsValid(m: Manager)
    requires Valid(m)
    ensures var r := GetNameAndMaybeCreateTemplateDb(m, BaseTemplate, None);
            && Valid(r.manager)
            && (r.result.Success? ==>
                  && r.manager.rootTemplateId.stored.Some?
                  && r.result.value == r.manager.rootTemplateId.stored.value
                  && r.result.value in r.manager.activeTemplates)
  {
    var s0 := TemplateIdOf(m, BaseTemplate);
    RootTemplateIdKeepsValid(m);
    var r := GetNameAndMaybeCreateTemplateDb(m, BaseTemplate, None);
    if s0.result.Success? {
      var root := s0.result.value;
      assert s0.manager.rootTemplateId.stored == Some(root);
      if root in m.activeTemplates {
        assert r.manager == s0.manager;
      } else {
        assert m.activeTemplates == map[];
        assert r.manager.activeTemplates.Keys <= {root};
        assert NamedAfterRoot(r.manager);
        assert InitializedOnce(r.manager);
      }
    }
  }

  /**
    Resolving a requested template against the registered root keeps the invariant: a new
    template is named `<root>_<id>`.
  */
  lemma RequestedTemplateKeepsValid(m: Manager, config: TemplateConfiguration)
    requires Valid(m)
    requires m.rootTemplateId.stored.Some? && m.rootTemplateId.stored.value in m.activeTemplates
    ensures var r := GetNameAndMaybeCreateTemplateDb(m, Requested(config), Some(m.rootTemplateId.stored.value));
            && Valid(r.manager)
            && (r.result.Success? ==>
                  && r.manager.rootTemplateId == m.rootTemplateId
                  && RequestedId(m, config).Some?
                  && RequestedId(m, config).value in r.manager.activeTemplates)
  {
    var root := m.rootTemplateId.stored.value;
    var r := GetNameAndMaybeCreateTemplateDb(m, Requested(config), Some(root));
    var s0 := TemplateIdOf(m, Requested(config));
    assert s0.manager == m;
    if s0.result.Success? {
      var id := s0.result.value;
      assert forall k :: k in r.manager.activeTemplates && k != root ==> r.manager.activeTemplates[k] == root + "_" + k by {
        forall k | k in r.manager.activeTemplates && k != root
          ensures r.manager.activeTemplates[k] == root + "_" + k
        {
          if k !in m.activeTemplates {
            assert config.FixtureGenerator?;
          }
        }
      }
      assert InitializedOnce(r.manager) by {
        assert Runs(m.server, id) == 1 ==> id in m.activeTemplates;
      }
    }
  }

  /**
    Asking again for a template that was just resolved answers from the registry with the
    same name and changes nothing, whatever base is passed the second time.
  */
  lemma RepeatedLookupReturnsSameName(m: Manager, src: TemplateSource, base: Option<string>, base2: Option<string>)
    requires GetNameAndMaybeCreateTemplateDb(m, src, base).result.Success?
    ensures var r1 := GetNameAndMaybeCreateTemplateDb(m, src, base);
            GetNameAndMaybeCreateTemplateDb(r1.manager, src, base2) == r1
  {
    var r1 := GetNameAndMaybeCreateTemplateDb(m, src, base);
    var id := TemplateIdOf(m, src).result.value;
    assert TemplateIdOf(r1.manager, src) == Step(Success(id), r1.manager);
  }

  /**
    A generator whose `getTemplateId()` throws makes `initializeTestDb` and
    `ensureDatasource` throw the same exception before anything changes.
  */
  lemma FailingTemplateIdChangesNothing(w: World, t: ThreadId, config: TemplateConfiguration, draws: seq<HexSuffix>)
    requires config.FixtureGenerator? && config.templateId.Failure?
    requires HasFreshDraw(w.manager.supplied, draws)
    ensures InitializeTestDb(w, t, config, draws) == WorldStep(Failure(config.templateId.error), w)
    ensures EnsureDatasource(w.manager, TemplateRequest(config)) == Step(Failure(config.templateId.error), w.manager)
  {
  }

  /** Cloning a per-test database keeps the invariant. */
  lemma CreateUniqueTemporaryDbKeepsValid(m: Manager, template: string, draws: seq<HexSuffix>)
    requires Valid(m)
    requires HasFreshDraw(m.supplied, draws)
    ensures Valid(CreateUniqueTemporaryDb(m, template, draws).manager)
  {
    var r := CreateUniqueTemporaryDb(m, template, draws);
    assert forall id :: Runs(r.manager.server, id) == Runs(m.server, id);
  }

  /** `initializeTestDb` keeps the invariant, whether it returns or throws. */
  lemma InitializeTestDbKeepsValid(w: World, t: ThreadId, config: TemplateConfiguration, draws: seq<HexSuffix>)
    requires Valid(w.manager)
    requires HasFreshDraw(w.manager.supplied, draws)
    ensures Valid(InitializeTestDb(w, t, config, draws).world.manager)
  {
    var s0 := TemplateIdOf(w.manager, Requested(config));
    RootTemplateIdKeepsValid(w.manager);
    if s0.result.Success? {
      var b := GetNameAndMaybeCreateTemplateDb(s0.manager, BaseTemplate, None);
      BaseTemplateKeepsValid(s0.manager);
      if b.result.Success? {
        var n := GetNameAndMaybeCreateTemplateDb(b.manager, Requested(config), Some(b.result.value));
        RequestedTemplateKeepsValid(b.manager, config);
        if n.result.Success? {
          CreateUniqueTemporaryDbKeepsValid(n.manager, n.result.value, draws);
        }
      }
    }
  }

  /** Routing a state to its pool keeps the invariant. */
  lemma EnsureDatasourceKeepsValid(m: Manager, st: DatabaseConfigurationState)
    requires Valid(m)
    ensures Valid(EnsureDatasource(m, st).manager)
  {
    if st.TemplateRequest? {
      RootTemplateIdKeepsValid(m);
    }
  }

  /** Cleaning up keeps the invariant. */
  lemma CleanUpKeepsValid(m: Manager, st: DatabaseConfigurationState)
    requires Valid(m)
    ensures Valid(CleanUp(m, st).manager)
  {
    var r := CleanUp(m, st);
    assert forall id :: Runs(r.manager.server, id) == Runs(m.server, id);
  }

  // ---------------------------------------------------------------------------------------
  // Per-test database names

  /**
    The template a configuration clones from, by name: `<root>`, or `<root>_<id>` for a
    generator whose id is not the root id itself.
  */
  function TemplateNameFor(root: TemplateId, config: TemplateConfiguration): string
    requires config.FixtureGenerator? ==> config.templateId.Success?
  {
    match config
    case FixtureGenerator(id, _) => if id.value == root then root else root + "_" + id.value
    case NoAddedFixtures => root
  }

  /**
    The naming scheme of per-test databases: `<root>_<8hex>` for `NoAddedFixtures` and for a
    generator whose id is the root id (it shares the root template), `<root>_<id>_<8hex>` for
    any other generator id `id`, where the root id is the one the
    configuration yields and the suffix is the first fresh draw; the name is at most 60
    characters long.
  */
  lemma TestDbNaming(w: World, t: ThreadId, config: TemplateConfiguration, draws: seq<HexSuffix>)
    requires Valid(w.manager) && Configured(w.manager)
    requires HasFreshDraw(w.manager.supplied, draws)
    ensures var r := InitializeTestDb(w, t, config, draws);
            r.result.Success? ==>
              && r.world.manager.rootTemplateId.stored.Some?
              && var root := r.world.manager.rootTemplateId.stored.value;
                 && DeriveRootTemplateId(w.manager.settings) == Success(root)
                 && r.result.value.dbName == TemplateNameFor(root, config) + "_" + UniqueId(w.manager.supplied, draws)
                 && |r.result.value.dbName| <= 60
  {
    InitializeTestDbKeepsValid(w, t, config, draws);
  }

  /** Names built from distinct 8-character suffixes differ, whatever precedes the suffix. */
  lemma DistinctSuffixesGiveDistinctNames(a: string, s: string, b: string, u: string)
    requires |s| == 8 && |u| == 8 && s != u
    ensures a + "_" + s != b + "_" + u
  {
    var x := a + "_" + s;
    var y := b + "_" + u;
    assert x[|x| - 8..] == s;
    assert y[|y| - 8..] == u;
  }

  /**
    A new per-test database never takes the name of an earlier one: its suffix is not among
    those supplied before, and every earlier name ends in a supplied suffix.
  */
  lemma NewTestDbIsDistinct(w: World, t: ThreadId, config: TemplateConfiguration, draws: seq<HexSuffix>,
                            earlierTemplate: string, earlierSuffix: string)
    requires HasFreshDraw(w.manager.supplied, draws)
    requires earlierSuffix in w.manager.supplied && |earlierSuffix| == 8
    ensures var r := InitializeTestDb(w, t, config, draws);
            r.result.Success? ==> r.result.value.dbName != earlierTemplate + "_" + earlierSuffix
  {
    var r := InitializeTestDb(w, t, config, draws);
    if r.result.Success? {
      var id := RequestedId(r.world.manager, config).value;
      DistinctSuffixesGiveDistinctNames(r.world.manager.activeTemplates[id], UniqueId(w.manager.supplied, draws),
                                        earlierTemplate, earlierSuffix);
    }
  }

  /**
    Two tests set up one after the other, on any threads, get different databases. The
    second run's draws need only be fresh against the suffixes used before and the first
    run's suffix.
  */
  lemma SuccessiveTestDbsDiffer(w: World, t1: ThreadId, c1: TemplateConfiguration, d1: seq<HexSuffix>,
                                t2: ThreadId, c2: TemplateConfiguration, d2: seq<HexSuffix>)
    requires HasFreshDraw(w.manager.supplied, d1)
    requires HasFreshDraw(w.manager.supplied + {UniqueId(w.manager.supplied, d1)}, d2)
    ensures var r1 := InitializeTestDb(w, t1, c1, d1);
            r1.result.Success? ==>
              var r2 := InitializeTestDb(r1.world, t2, c2, d2);
              r2.result.Success? ==> r2.result.value.dbName != r1.result.value.dbName
  {
    var r1 := InitializeTestDb(w, t1, c1, d1);
    if r1.result.Success? {
      var id := RequestedId(r1.world.manager, c1).value;
      NewTestDbIsDistinct(r1.world, t2, c2, d2, r1.world.manager.activeTemplates[id], UniqueId(w.manager.supplied, d1));
    }
  }

  /**
    Requesting a template that is already registered creates no template and runs no
    initializer: the registry, the root id and the initializer counts stay as they are, and
    the new database is cloned from the registered template.
  */
  lemma RegisteredRequestCreatesNothing(w: World, t: ThreadId, config: TemplateConfiguration, draws: seq<HexSuffix>)
    requires Valid(w.manager)
    requires HasFreshDraw(w.manager.supplied, draws)
    requires w.manager.rootTemplateId.stored.Some?
    requires RequestedId(w.manager, config).Some? && RequestedId(w.manager, config).value in w.manager.activeTemplates
    ensures var m := w.manager;
            var r := InitializeTestDb(w, t, config, draws);
            && r.world.manager.activeTemplates == m.activeTemplates
            && r.world.manager.rootTemplateId == m.rootTemplateId
            && r.world.manager.server.initRuns == m.server.initRuns
            && (r.result.Success? ==>
                  r.result.value.dbName == m.activeTemplates[RequestedId(m, config).value]
                                           + "_" + UniqueId(m.supplied, draws))
  {
    var m := w.manager;
    var root := m.rootTemplateId.stored.value;
    assert root in m.activeTemplates;
    assert TemplateIdOf(m, BaseTemplate) == Step(Success(root), m);
    var b := GetNameAndMaybeCreateTemplateDb(m, BaseTemplate, None);
    assert b == Step(Success(m.activeTemplates[root]), m);
    var id := RequestedId(m, config).value;
    assert TemplateIdOf(m, Requested(config)) == Step(Success(id), m);
    var n := GetNameAndMaybeCreateTemplateDb(m, Requested(config), Some(m.activeTemplates[root]));
    assert n == Step(Success(m.activeTemplates[id]), m);
  }

  /** A second test with the same template reuses it: nothing is created and no initializer runs. */
  lemma RepeatedRequestReusesTemplate(w: World, t: ThreadId, config: TemplateConfiguration,
                                      d1: seq<HexSuffix>, t2: ThreadId, d2: seq<HexSuffix>)
    requires Valid(w.manager)
    requires HasFreshDraw(w.manager.supplied, d1)
    requires HasFreshDraw(w.manager.supplied + {UniqueId(w.manager.supplied, d1)}, d2)
    ensures var r1 := InitializeTestDb(w, t, config, d1);
            r1.result.Success? ==>
              var r2 := InitializeTestDb(r1.world, t2, config, d2);
              && r2.world.manager.activeTemplates == r1.world.manager.activeTemplates
              && r2.world.manager.server.initRuns == r1.world.manager.server.initRuns
  {
    var r1 := InitializeTestDb(w, t, config, d1);
    if r1.result.Success? {
      InitializeTestDbKeepsValid(w, t, config, d1);
      RegisteredRequestCreatesNothing(r1.world, t2, config, d2);
    }
  }
}
