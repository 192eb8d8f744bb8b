/** The exceptions the core raises or lets propagate, one constructor per kind. */
module Exceptions {

  import opened Wrappers

  /** The statement an engine-level failure came from. */
  datatype Sql =
    | DropDatabaseIfExists(name: string)
    | CreateDatabase(name: string, template: Option<string>)
    | DropDatabase(name: string)

  datatype Error =
    | IllegalArgument(message: string)     // `require` failures and URL mismatches
    | IllegalState(message: string)        // invalid clean-up targets, failed test set-up
    | NoSuchElement                        // `Optional.orElseThrow()` on an absent template
    | NullPointer                          // a `!!` on a null value
    | EngineFailure(statement: Sql)        // the database engine refused a statement
}
