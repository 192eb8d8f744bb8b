/**
  `TestIsolatedRoutingDataSource.determineCurrentLookupKey`: resolve the thread's state to a
  pool name through the manager, republish the manager's pools as the routing targets, and
  record the resolved name in the thread's context.
*/
module RoutingDataSource {

  import opened Wrappers
  import opened Exceptions
  import opened ConfigurationState
  import opened TestContext
  import opened DatabaseManager

  /** The routing targets: the pools last published by `setTargetDataSources`. */
  type Targets = map<string, Pool>

  /** The key a lookup returns (or the exception it throws), with everything it leaves behind. */
  datatype Lookup = Lookup(key: Result<string, Error>, world: World, targets: Targets)

  /** `getTargetDataSourceMap`: the manager's pool registry, viewed as routing targets. */
  function TargetDataSourceMap(m: Manager): (r: Targets)
    ensures forall k :: k in r <==> k in m.constructedSources
    ensures forall k :: k in r ==> r[k] == m.constructedSources[k]
  {
    m.constructedSources
  }

  /** `determineCurrentLookupKey()` on thread `t`. */
  function DetermineCurrentLookupKey(w: World, targets: Targets, t: ThreadId): (r: Lookup)
    ensures r.key == EnsureDatasource(w.manager, GetState(w.context, t)).result
    ensures r.world.manager == EnsureDatasource(w.manager, GetState(w.context, t)).manager
    ensures forall u :: u != t ==> GetState(r.world.context, u) == GetState(w.context, u)
    ensures r.key.Success? ==>
              && GetState(r.world.context, t) == IsolatedTestTemplate(r.key.value)
              && r.targets == TargetDataSourceMap(r.world.manager)
              && r.key.value in r.targets
    ensures r.key.Failure? ==> r.world.context == w.context && r.targets == targets
  {
    var e := EnsureDatasource(w.manager, GetState(w.context, t));
    match e.result
    case Failure(err) => Lookup(Failure(err), World(e.manager, w.context), targets)
    case Success(name) =>
      Lookup(Success(name), World(e.manager, SetState(w.context, t, IsolatedTestTemplate(name))),
             TargetDataSourceMap(e.manager))
  }

  /**
    A lookup is idempotent: a second lookup on the same thread returns the same key and
    leaves the manager, the context and the targets as the first left them.
  */
  lemma LookupIsIdempotent(w: World, targets: Targets, t: ThreadId)
    requires DetermineCurrentLookupKey(w, targets, t).key.Success?
    ensures var r1 := DetermineCurrentLookupKey(w, targets, t);
            DetermineCurrentLookupKey(r1.world, r1.targets, t) == r1
  {
    var r1 := DetermineCurrentLookupKey(w, targets, t);
    var name := r1.key.value;
    var m1 := r1.world.manager;
    assert GetState(r1.world.context, t) == IsolatedTestTemplate(name);
    assert EnsureDatasource(m1, IsolatedTestTemplate(name)) == Step(Success(name), m1);
    assert SetState(r1.world.context, t, IsolatedTestTemplate(name)) == r1.world.context;
  }

  /**
    A thread with no state routes to the configured URL's own pool, and its context becomes
    `IsolatedTestTemplate("default")`.
  */
  lemma UninitializedRoutesToDefault(w: World, targets: Targets, t: ThreadId)
    requires GetState(w.context, t) == Uninitialized
    ensures var r := DetermineCurrentLookupKey(w, targets, t);
            && r.key == Success(DEFAULT)
            && GetState(r.world.context, t) == IsolatedTestTemplate(DEFAULT)
            && DEFAULT in r.targets
  {
  }

  /**
    While a template is being initialised (its temporary pool exists), a lookup on the
    thread that requested it routes to the template database.
  */
  lemma TemplateRequestRoutesToTemplate(w: World, targets: Targets, t: ThreadId, config: TemplateConfiguration)
    requires GetState(w.context, t) == TemplateRequest(config)
    requires TemplateIdOf(w.manager, Requested(config)).result.Success?
    requires var id := TemplateIdOf(w.manager, Requested(config)).result.value;
             id in w.manager.activeTemplates && w.manager.activeTemplates[id] in w.manager.constructedSources
    ensures var r := DetermineCurrentLookupKey(w, targets, t);
            var id := TemplateIdOf(w.manager, Requested(config)).result.value;
            && r.key == Success(w.manager.activeTemplates[id])
            && GetState(r.world.context, t) == IsolatedTestTemplate(w.manager.activeTemplates[id])
  {
  }
}
