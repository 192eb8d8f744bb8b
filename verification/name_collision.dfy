/**
  Template databases (`<root>` and `<root>_<id>`) and per-test databases
  (`<template>_<8 hex>`) share one namespace, and both creations begin with `drop database if
  exists`. When a generator's id is a suffix the supplier also draws, either database can
  destroy the other. A per-test database drawn after the template drops the template, whose
  pool is already closed. A template built after a finished per-test database drops that
  database.

  The corrected id rule below also rejects ids that end like a per-test suffix. Under it,
  no template name is ever a per-test database name.
*/
module NameCollision {

  import opened Wrappers
  import opened Exceptions
  import opened ConfigurationState
  import opened JdbcUrl
  import opened DatabaseManager
  import opened ManagerProperties

  // ---------------------------------------------------------------------------------------
  // As written

  /**
    With a per-test database `<root>_<h>` cloned from the root template and no longer in use,
    a generator whose id is `h` gets a template of that very name. Creating it drops the
    per-test database and puts the migrated-and-filled template in its place.
  */
  lemma TemplateCreationOverwritesTestDb(m: Manager, root: string, id: TemplateId, init: Initializer)
    requires IsHexSuffix(id)
    requires root in m.server.databases
    requires root + "_" + id in m.server.databases
    requires Parse(m.settings.dsUrl).Some?
    ensures TemplateDbName(Some(root), id) == root + "_" + id
    ensures var r := CreateTemplateDb(m, id, Some(root), init);
            && r.result == Success(root + "_" + id)
            && r.manager.server.databases[root + "_" + id] == m.server.databases[root] + [init]
            && DropDatabaseIfExists(root + "_" + id) in r.manager.server.executed
  {
    var name := root + "_" + id;
    assert |name| > |DEFAULT|;
    var m1 := EnsureDefaultPool(m);
    assert MakeSource(m1.settings, name).Success?;
  }

  /**
    The name clash itself: for a generator id that is also a drawn suffix, the generator's
    template has the name of the `NoAddedFixtures` test database with that suffix.
  */
  lemma GeneratorTemplateNamedLikeTestDb(root: TemplateId, id: TemplateId, init: Initializer)
    requires IsHexSuffix(id) && id != root
    ensures TemplateNameFor(root, FixtureGenerator(Success(id), init)) == TemplateNameFor(root, NoAddedFixtures) + "_" + id
  {
  }

  /**
    The other order, which needs no idle database: generator `h`'s template `<root>_<h>` is
    registered, built and without a pool. A `NoAddedFixtures` test that draws `h` drops the
    template, clones a plain root copy under its name, and its clean-up drops that copy or
    leaves it in place. The id stays registered under the name, so every later test for `h`
    is answered from the registry. It then clones a copy without the fixtures, or fails
    because the template is gone.
  */
  lemma TestDbDestroysTemplate(m: Manager, root: string, h: TemplateId, init: Initializer,
                               draws: seq<HexSuffix>, draws2: seq<HexSuffix>)
    requires HasFreshDraw(m.supplied, draws) && UniqueId(m.supplied, draws) == h
    requires root in m.server.databases
    requires h in m.activeTemplates && m.activeTemplates[h] == root + "_" + h
    requires root + "_" + h in m.server.databases
    requires m.server.databases[root + "_" + h] == m.server.databases[root] + [init]
    ensures var name := root + "_" + h;
            var r1 := CreateUniqueTemporaryDb(m, root, draws);
            && r1.result == Success(name)
            && name in r1.manager.server.databases
            && r1.manager.server.databases[name] == m.server.databases[root]
            && r1.manager.server.databases[name] != m.server.databases[name]
            && var r2 := CleanUp(r1.manager, IsolatedTestTemplate(name));
               && r2.result.Success?
               && LookupOrCreate(r2.manager, h, Some(init), Some(root)) == Step(Success(name), r2.manager)
               && (!m.settings.dropTestDatabases ==>
                     name in r2.manager.server.databases && r2.manager.server.databases[name] == m.server.databases[root])
               && (m.settings.dropTestDatabases ==>
                     && name !in r2.manager.server.databases
                     && (HasFreshDraw(r2.manager.supplied, draws2) ==>
                           CreateUniqueTemporaryDb(r2.manager, name, draws2).result
                             == Failure(EngineFailure(CreateDatabase(name + "_" + UniqueId(r2.manager.supplied, draws2), Some(name))))))
  {
  }

  // ---------------------------------------------------------------------------------------
  // Corrected

  const SUFFIX_SHAPED_ID_MESSAGE := "Must not end with an 8 character hexadecimal suffix"

  /** `s` is an 8-character hex suffix, or ends with `_` followed by one. */
  predicate EndsLikeTestSuffix(s: string) {
    |s| >= 8 && IsHexSuffix(s[|s| - 8..]) && (|s| == 8 || s[|s| - 9] == '_')
  }

  /** The `TemplateId` rule with suffix-shaped ids rejected. */
  function MakeIsolatedTemplateId(id: string): (r: Result<TemplateId, Error>)
    ensures r.Success? <==> ValidTemplateName(id) && !EndsLikeTestSuffix(id)
    ensures r.Success? ==> r.value == id
    ensures r.Failure? ==> r.error == IllegalArgument(TEMPLATE_ID_MESSAGE) || r.error == IllegalArgument(SUFFIX_SHAPED_ID_MESSAGE)
  {
    match MakeTemplateId(id)
    case Failure(e) => Failure(e)
    case Success(v) => if EndsLikeTestSuffix(v) then Failure(IllegalArgument(SUFFIX_SHAPED_ID_MESSAGE)) else Success(v)
  }

  /** A generator whose id passes the corrected rule. */
  predicate IsolatedConfig(c: TemplateConfiguration) {
    c.FixtureGenerator? ==> c.templateId.Success? && MakeIsolatedTemplateId(c.templateId.value).Success?
  }

  /**
    Under the corrected rule no template name is a per-test database name: the template of
    `c1` never has the name of a database cloned, with any suffix, from the template of `c2`.
  */
  lemma IsolatedIdsKeepNamesApart(root: TemplateId, c1: TemplateConfiguration, c2: TemplateConfiguration, h: HexSuffix)
    requires IsolatedConfig(c1)
    requires c2.FixtureGenerator? ==> c2.templateId.Success?
    ensures TemplateNameFor(root, c1) != TemplateNameFor(root, c2) + "_" + h
  {
    var t := TemplateNameFor(root, c1);
    var u := TemplateNameFor(root, c2);
    var v := u + "_" + h;
    var p := |root| + 1;
    // what follows `<root>_` in the per-test name ends like a per-test suffix
    var w := if c2.FixtureGenerator? && c2.templateId.value != root then c2.templateId.value + "_" + h else h;
    assert v == root + "_" + w;
    assert v[p..] == w;
    assert w[|w| - 8..] == h;
    assert EndsLikeTestSuffix(w);
    if c1.FixtureGenerator? && c1.templateId.value != root {
      // the template is `<root>_<b>` with `b` not shaped like that
      assert t == root + "_" + c1.templateId.value;
      assert t[p..] == c1.templateId.value;
    } else {
      assert |t| < |v|;
    }
  }
}
