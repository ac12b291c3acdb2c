/**
 * The module-level state of the migration environment: the dialect registry and the
 * context most recently configured against a connection, which the next run uses.
 */
module Environment {
  import opened Wrappers
  import opened Database
  import opened Registry
  import opened ContextSpec
  import opened MigrationContext

  class MigrationEnvironment {
    const registry: ContextRegistry
    var context: Option<DefaultContext>

    constructor (registry: ContextRegistry)
      ensures this.registry == registry && context == None
    {
      this.registry := registry;
      context := None;
    }

    /** configure_connection: the variant registered for the connection's dialect, or
        DefaultContext, bound to the connection; it replaces any earlier context. The
        options come in as parameters. */
    method ConfigureConnection(connection: Connection, migrationsFn: Option<string> -> seq<Step>,
                               asSql: bool, stdout: Console)
      modifies this
      ensures context.Some? && fresh(context.value)
      ensures context.value.impl == Resolve(registry.impls, connection.dialect.name)
      ensures context.value.connection == connection && context.value.stdout == stdout
      ensures context.value.migrationsFn == migrationsFn && context.value.asSql == asSql
    {
      var impl := registry.Lookup(connection.dialect.name);
      var ctx := new DefaultContext(impl, connection, migrationsFn, asSql, stdout);
      context := Some(ctx);
    }

    /** run_migrations: runs the current context; there is none before configure_connection. */
    method RunMigrations() returns (err: Option<Error>)
      modifies if context.Some? then {context.value.stdout, context.value.connection} else {}
      ensures context.None? ==> err == Some(NotConfigured)
      ensures context.Some? ==>
                Close(context.value.Snapshot(), err)
                == RunSpec(context.value.Cfg(), old(context.value.Snapshot()), context.value.migrationsFn)
    {
      if context.None? {
        return Some(NotConfigured);
      }
      err := context.value.RunMigrations();
    }

    /** get_context */
    method GetContext() returns (r: Result<DefaultContext, Error>)
      ensures context.None? ==> r == Failure(NotConfigured)
      ensures context.Some? ==> r == Success(context.value)
    {
      if context.None? {
        return Failure(NotConfigured);
      }
      return Success(context.value);
    }
  }
}
