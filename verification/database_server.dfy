/**
  The database engine the manager talks to, reduced to what the lifecycle depends on: which
  databases exist and what was applied to each, how often each template's initializer ran,
  and the statements it executed. Cloning (`create database X template T`) copies the
  template's contents.
*/
module DatabaseServer {

  import opened Wrappers
  import opened Exceptions
  import opened ConfigurationState

  /** What was applied to a database, in order: the migration and fixture loads. */
  type Contents = seq<Initializer>

  /** `executed` lists every statement issued, in order, whether or not the engine accepted it. */
  datatype Server = Server(
    databases: map<string, Contents>,
    initRuns: map<TemplateId, nat>,
    executed: seq<Sql>)

  /** How often the initializer registered under `id` has run. */
  function Runs(sv: Server, id: TemplateId): nat {
    if id in sv.initRuns then sv.initRuns[id] else 0
  }

  /**
    `drop database if exists name`: never fails, since connections are not modelled (Postgres
    refuses to drop a database that has open connections).
  */
  function DropIfExists(sv: Server, name: string): (r: Server)
    ensures name !in r.databases
    ensures forall d :: d != name ==> (d in r.databases <==> d in sv.databases)
    ensures forall d :: d in r.databases ==> r.databases[d] == sv.databases[d]
    ensures r.initRuns == sv.initRuns
    ensures r.executed == sv.executed + [DropDatabaseIfExists(name)]
  {
    sv.(databases := sv.databases - {name}, executed := sv.executed + [DropDatabaseIfExists(name)])
  }

  /**
    `create database name [template t]`: fails when `name` exists or the template does not;
    a clone starts with the template's contents, a plain database with none. A failure is
    logged by the caller with `Rejected`, as for `Drop`.
  */
  function Create(sv: Server, name: string, template: Option<string>): (r: Result<Server, Error>)
    ensures r.Success? <==> name !in sv.databases && (template.Some? ==> template.value in sv.databases)
    ensures r.Failure? ==> r.error == EngineFailure(CreateDatabase(name, template))
    ensures r.Success? ==> r.value.databases
                             == sv.databases[name := if template.Some? then sv.databases[template.value] else []]
    ensures r.Success? ==> r.value.initRuns == sv.initRuns
    ensures r.Success? ==> r.value.executed == sv.executed + [CreateDatabase(name, template)]
  {
    var q := CreateDatabase(name, template);
    if name in sv.databases then Failure(EngineFailure(q))
    else match template
      case None => Success(sv.(databases := sv.databases[name := []], executed := sv.executed + [q]))
      case Some(t) =>
        if t !in sv.databases then Failure(EngineFailure(q))
        else Success(sv.(databases := sv.databases[name := sv.databases[t]], executed := sv.executed + [q]))
  }

  /** A statement the engine rejected: it is logged, and nothing else changes. */
  function Rejected(sv: Server, q: Sql): (r: Server)
    ensures r.databases == sv.databases && r.initRuns == sv.initRuns
    ensures r.executed == sv.executed + [q]
  {
    sv.(executed := sv.executed + [q])
  }

  /** `drop database name`: fails when there is no such database. */
  function Drop(sv: Server, name: string): (r: Result<Server, Error>)
    ensures r.Success? <==> name in sv.databases
    ensures r.Failure? ==> r.error == EngineFailure(DropDatabase(name))
    ensures r.Success? ==> r.value.databases == sv.databases - {name}
    ensures r.Success? ==> r.value.initRuns == sv.initRuns
    ensures r.Success? ==> r.value.executed == sv.executed + [DropDatabase(name)]
  {
    if name !in sv.databases then Failure(EngineFailure(DropDatabase(name)))
    else Success(sv.(databases := sv.databases - {name}, executed := sv.executed + [DropDatabase(name)]))
  }

  /** The effect of running template `id`'s initializer against the existing database `name`. */
  function Initialize(sv: Server, id: TemplateId, name: string, init: Initializer): (r: Server)
    requires name in sv.databases
    ensures r.databases == sv.databases[name := sv.databases[name] + [init]]
    ensures Runs(r, id) == Runs(sv, id) + 1
    ensures forall other :: other != id ==> Runs(r, other) == Runs(sv, other)
    ensures r.initRuns == sv.initRuns[id := Runs(sv, id) + 1]
    ensures r.executed == sv.executed
  {
    sv.(databases := sv.databases[name := sv.databases[name] + [init]],
        initRuns := sv.initRuns[id := Runs(sv, id) + 1])
  }
}
