/**
  The identity and state types: `TemplateId`, the validated name of a fixture set, and
  `DatabaseConfigurationState`, the closed union of "which database is this test using".
*/
module ConfigurationState {

  import opened Wrappers
  import opened Text
  import opened Exceptions

  /** The rule `TemplateId` enforces: the whole id matches `[0-9a-zA-Z_]{1,30}`. */
  predicate ValidTemplateName(s: string) {
    1 <= |s| <= 30 && IsWord(s)
  }

  /**
    A template id is its string; equality of ids is therefore string equality, which is what
    makes it usable as a registry key.
  */
  type TemplateId = s: string | ValidTemplateName(s) witness "t"

  /** The message of the IllegalArgumentException a malformed id raises. */
  const TEMPLATE_ID_MESSAGE := "Must be 10 hexadecimal characters or less"

  /**
    The `TemplateId(id)` constructor: `id.matches(templateNameRules)`, a whole-string match,
    followed by `require`.
  */
  function MakeTemplateId(id: string): (r: Result<TemplateId, Error>)
    ensures r.Success? <==> ValidTemplateName(id)
    ensures r.Success? ==> r.value == id
    ensures r.Failure? ==> r.error == IllegalArgument(TEMPLATE_ID_MESSAGE)
  {
    WordScan(id);
    if 1 <= |id| <= 30 && ScanWhile(id, 0, Word) == |id| then Success(id)
    else Failure(IllegalArgument(TEMPLATE_ID_MESSAGE))
  }

  /**
    What a fixture initializer does to a freshly created template database. The callback is
    the caller's code; the model keeps only its identity.
  */
  datatype Initializer = FlywayMigrate | LoadFixtures(fixtures: string)

  /**
    A request for a kind of template. A generator's `getTemplateId()` is the caller's code,
    so the model keeps what it yields: an id, or the exception it throws. A generator that
    builds its id with `TemplateId(...)` from an ill-formed string yields `MakeTemplateId`'s
    failure.
  */
  datatype TemplateConfiguration =
    | FixtureGenerator(templateId: Result<TemplateId, Error>, initializer: Initializer)
    | NoAddedFixtures

  /**
    The per-thread database state. `TemplateRequest(config)` is the source's
    `TemplateConfiguration` branch of the sealed hierarchy.
  */
  datatype DatabaseConfigurationState =
    | Uninitialized
    | IsolatedTestTemplate(dbName: string)
    | TemplateRequest(config: TemplateConfiguration)
}
