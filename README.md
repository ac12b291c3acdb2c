# Alembic migration context, modelled in Dafny

This project models the migration run engine of an early Alembic: `DefaultContext` in
`alembic/context.py`, the dialect registry that picks a context variant for a
connection, and the module-level `configure_connection` / `run_migrations` /
`get_context` functions.

A context is bound to one connection. It applies a sequence of (change step, target
revision) pairs and keeps the `alembic_version` table in step with them. It works in
one of two modes:

- **live mode**: statements run on the connection;
- **SQL-emission mode** (`as_sql`): statements are compiled for the dialect and
  printed as a script.

Every statement the context's own operations and the bookkeeping send passes through
`_exec`; `_current_rev` selects on the connection directly. Bookkeeping is written after
every step for non-transactional DDL, and once, after the loop, for transactional DDL.

## Layout

| file | module | what it holds |
|---|---|---|
| `wrappers.dfy` | `Wrappers` | `Option`, `Result` |
| `ddl.dfy` | `Ddl` | statement constructs, the dialect's compiler as a function value, tab expansion and the printed line |
| `database.dfy` | `Database` | the connection and standard output as classes; `alembic_version` as a list of rows |
| `registry.dfy` | `Registry` | `_context_impls` and `ContextMeta` registration, `.get(name, DefaultContext)` |
| `context_spec.dfy` | `ContextSpec` | every context operation and the run loop as functions over the observable world |
| `context_properties.dfy` | `ContextProperties` | what those functions guarantee |
| `migration_context.dfy` | `MigrationContext` | class `DefaultContext`, proved to do exactly what `ContextSpec` says |
| `environment.dfy` | `Environment` | the module globals `_context`, `configure_connection`, `run_migrations`, `get_context` |

The observable world is a `World` value. It holds:

- `out`: the printed lines;
- `versionRows`: the rows of `alembic_version`;
- `executed`: the statements executed on the connection, with their bind arguments.

Each method of `DefaultContext` ensures that its new `Snapshot()` (or the pair of snapshot
and raised error) equals the `ContextSpec` function applied to the old snapshot. The
lemmas in `ContextProperties` then state the source's promises about those functions.

A change step is modelled as the context operations it calls (`execute`,
`alter_column`, `add_column`, `drop_column`, `add_constraint`, `create_table`,
`drop_table`, `bulk_insert`), followed by whether it raises; a use of `bind` is represented as an `execute` (see
"## Left out"). The migrations function is
a function value from the starting revision to the list of steps.

`alembic_version` is modelled as a list of rows, not a single optional value. This lets
"at most one row" be proved rather than assumed:

- a `SELECT` reads the first row;
- `DELETE` empties the table;
- `INSERT` appends a row;
- `UPDATE` rewrites every row.

Edge cases of the code that the model keeps:

- `_current_rev` raises in SQL-emission mode.
- The gateway refuses bind arguments in SQL-emission mode, before printing anything.
- `alter_column` ignores its `name` parameter. It treats `server_default=None` as
  "clear the default" and only `False` as "not given".
- `bulk_insert` in SQL-emission mode raises `KeyError` (here `NoSuchColumn`) at the
  first row naming a column the table lacks. The rows before it are already printed.
- `bulk_insert` in live mode executes once even when the list of rows is empty.
- A variant class is registered only under a `__dialect__` declared in its own body.
- An empty run in transactional mode still calls the bookkeeping write, from the start
  to the start, and that write does nothing.

The code prints `BEGIN;` before `_current_rev` would run. The read happens only in live
mode and the marker only in SQL-emission mode, so the order cannot be observed. A variant
is registered when its class is created; `Declare` stands for that moment.

## Model

| member | source | states |
|---|---|---|
| `Ddl.Wrap` | alembic/context.py:91-92 | a string handed to the gateway becomes a text construct; a construct passes unchanged |
| `Ddl.ExpandTabs` | alembic/context.py:97-99 | no tab remains in the result, and the result is three characters longer per tab of the input |
| `Ddl.ExpandTabsKeepsTabFree` | alembic/context.py:97-99 | text without tabs is printed unchanged |
| `Ddl.ExpandTabsDistributes` | alembic/context.py:97-99 | tab expansion of a concatenation is the concatenation of the expansions |
| `Ddl.SqlLineShape` | alembic/context.py:97-99 | a printed line is the compiled text with each tab replaced by four spaces, then `;`; it holds no tab |
| `Database.Connection.ScalarVersion` | alembic/context.py:46 | reading the version table yields its first row, or None when the table is empty |
| `Registry.Resolve` | alembic/context.py:212-214 | the variant chosen for a dialect is DefaultContext or one that was registered |
| `Registry.DeclareThenResolve` | alembic/context.py:12-17 | declaring a variant makes its own `__dialect__` resolve to it and changes no other dialect |
| `Registry.UndeclaredDialectFallsBack` | alembic/context.py:212-214 | a dialect that no declared variant names falls back to DefaultContext |
| `Registry.ContextRegistry.constructor` | alembic/context.py:19-28 | declaring DefaultContext registers it under `default` |
| `Registry.ContextRegistry.Declare` | alembic/context.py:12-17 | the metaclass registers a variant under its own `__dialect__`, if it declares one; other dialects resolve as before |
| `ContextSpec.VersionWrite` | alembic/context.py:48-61 | the bookkeeping write sends no statement exactly when old equals new; otherwise it sends one version-table statement |
| `ContextSpec.AlterColumnClauses` | alembic/context.py:141-152 | alter_column sends at most three primitives, all for the given table, column and schema, in the order nullable, default, type |
| `ContextProperties.BookkeepMovesRecord` | alembic/context.py:48-61 | the chosen statement takes a table recording `old` to one recording `new`, keeps at most one row, and executes nothing when old equals new |
| `ContextProperties.BookkeepPrints` | alembic/context.py:48-61 | in SQL-emission mode the bookkeeping write prints one line, or none when old equals new |
| `ContextProperties.GatewayContract` | alembic/context.py:90-101 | bind arguments in SQL-emission mode raise and print nothing; otherwise exactly one line is printed, or exactly one execution with the arguments forwarded |
| `ContextProperties.SqlEmitAll` | alembic/context.py:90-99 | in SQL-emission mode each statement prints exactly one line, in order, and the database is not touched |
| `ContextProperties.LiveEmitAll` | alembic/context.py:100-101 | in live mode each statement is executed exactly once, in order, and nothing is printed |
| `ContextProperties.EmitAllAppend` | alembic/context.py:90-101 | statements sent one after another compose: the second batch starts where the first ended |
| `ContextProperties.AlterColumnCount` | alembic/context.py:141-152 | alter_column sends exactly one primitive per parameter given: none, one, two or three |
| `ContextProperties.AlterColumnSelection` | alembic/context.py:141-152 | each primitive is sent exactly when its parameter is given; `server_default=None` still sends a default change, only the unset default does not |
| `ContextProperties.CreateTableOrder` | alembic/context.py:163-166 | create_table sends the table first, then one CREATE INDEX per index, in order |
| `ContextProperties.BulkInsertSqlLines` | alembic/context.py:171-177 | in SQL-emission mode bulk_insert prints one literal INSERT per row, in row order, up to the first row with an unknown column, where it raises |
| `ContextProperties.BulkInsertLiveOnce` | alembic/context.py:178-179 | in live mode bulk_insert executes once, carrying every row, and prints nothing |
| `ContextProperties.OpCallsNoVersion` | alembic/context.py:107-169 | an operation other than `bulk_insert` sends a version statement exactly when it is an `execute` of one; no other operation can |
| `ContextProperties.ChangeFrame` | alembic/context.py:79 | a change step, whether it completes or raises, stays in its mode's channel, and one that does not `execute` a version statement itself leaves the version table and its write history alone |
| `ContextProperties.ChangeRaisesIff` | alembic/context.py:79 | a change step raises exactly when it raises itself or, in SQL-emission mode, one of its bulk inserts names an unknown column |
| `ContextProperties.LoopFrame` | alembic/context.py:77-82 | the loop never crosses modes; with transactional DDL, and no change step executing a version statement itself, it never writes the version table |
| `ContextProperties.LoopReaches` | alembic/context.py:77-82 | the loop stops at the first step that raises, and `prev_rev` is then the target of the last step that completed |
| `ContextProperties.LoopKeepsRecord` | alembic/context.py:77-82 | with non-transactional DDL, and no change step executing a version statement itself, the version table records `prev_rev` and holds at most one row after every iteration, including the one that raises |
| `ContextProperties.RunFrame` | alembic/context.py:63-88 | a run in SQL-emission mode never writes the database and only appends output; a live run prints nothing |
| `ContextProperties.SqlRunIgnoresDatabase` | alembic/context.py:63-76 | in SQL-emission mode the run starts from `None` and asks the migrations function for the steps from `None`; two databases with the same output so far give the same printed lines and the same way of ending, so nothing is read from the version table |
| `ContextProperties.ExecuteCanWriteVersionTable` | alembic/context.py:107-108 | `execute` forwards a construct unchanged, so a change step that executes a version INSERT does add the row: the run lemmas' premise that change steps send no version statement is needed |
| `ContextProperties.CompletedRunRecordsFinalTarget` | alembic/context.py:63-88 | a completed live run leaves the table recording the last target (the start when there are no steps), with at most one row, in both DDL modes |
| `ContextProperties.NonTransactionalCrashKeepsLastCompleted` | alembic/context.py:74-82 | with non-transactional DDL, when step k raises, the run raises and the table records the target of step k-1 (the start if k is 0) |
| `ContextProperties.TransactionalCrashKeepsRecord` | alembic/context.py:77-85 | with transactional DDL, when a step raises, the run raises and the version table has not been written at all |
| `ContextProperties.TransactionalWritesOnceAfterLoop` | alembic/context.py:84-85 | with transactional DDL, a completed run writes the table once, from the start to the last target, as its last execution; an empty run changes nothing |
| `ContextProperties.SqlTransactionalBracketing` | alembic/context.py:69-88 | with SQL emission and transactional DDL, the output of a completed run opens with `BEGIN;` and closes with `COMMIT;`, for any number of steps; with none they are the only lines |
| `MigrationContext.DefaultContext.constructor` | alembic/context.py:33-36 | the context keeps its connection, migrations function and `as_sql` flag |
| `MigrationContext.DefaultContext.Bind` | alembic/context.py:118-131 | bind is the connection in live mode and the printing mock engine in SQL-emission mode |
| `MigrationContext.DefaultContext.Dump` | alembic/context.py:112-113 | the mock engine's executor sends the construct through the gateway and drops its parameters |
| `MigrationContext.DefaultContext.CurrentRev` | alembic/context.py:38-46 | in SQL-emission mode it raises; otherwise it yields the revision the table records |
| `MigrationContext.DefaultContext.Exec` | alembic/context.py:90-101 | the gateway's effect is exactly `ContextSpec.Gateway`: refuse bind arguments when emitting SQL, otherwise print or execute |
| `MigrationContext.DefaultContext.UpdateCurrentRev` | alembic/context.py:48-61 | its effect is exactly the bookkeeping write chosen by `VersionWrite` |
| `MigrationContext.DefaultContext.Execute` | alembic/context.py:107-108 | its effect is one gateway call with no arguments: a string becomes a text construct, any other construct is sent unchanged |
| `MigrationContext.DefaultContext.AlterColumn` | alembic/context.py:133-152 | its effect is sending `AlterColumnClauses`, in order |
| `MigrationContext.DefaultContext.AddColumn` | alembic/context.py:154-155 | sends one ADD COLUMN through the gateway |
| `MigrationContext.DefaultContext.DropColumn` | alembic/context.py:157-158 | sends one DROP COLUMN through the gateway |
| `MigrationContext.DefaultContext.AddConstraint` | alembic/context.py:160-161 | sends one ADD CONSTRAINT through the gateway |
| `MigrationContext.DefaultContext.CreateTable` | alembic/context.py:163-166 | sends the CREATE TABLE, then each index's CREATE INDEX in order |
| `MigrationContext.DefaultContext.DropTable` | alembic/context.py:168-169 | sends one DROP TABLE through the gateway |
| `MigrationContext.DefaultContext.BulkInsert` | alembic/context.py:171-179 | its effect and error are exactly `BulkInsertSpec`: per-row literal inserts, or one multi-row execution |
| `MigrationContext.DefaultContext.Perform` | alembic/context.py:107-179 | a call a change step makes has exactly the effect `OpSpec` gives it |
| `MigrationContext.DefaultContext.ApplyChange` | alembic/context.py:79 | a change step's calls run in order until one raises, then the step's own exception, if any |
| `MigrationContext.DefaultContext.RunMigrations` | alembic/context.py:63-88 | the run's output, version table, executions and error are exactly `RunSpec`, of which the `ContextProperties` lemmas hold |
| `Environment.MigrationEnvironment.ConfigureConnection` | alembic/context.py:199-214 | the new context is a fresh instance of the variant resolved for the connection's dialect, bound to that connection; it replaces the earlier one |
| `Environment.MigrationEnvironment.RunMigrations` | alembic/context.py:216-221 | the current context runs; before any configure_connection there is none and the call fails |
| `Environment.MigrationEnvironment.GetContext` | alembic/context.py:223-224 | returns the context configured most recently; before any configure_connection the call fails |

## Left out

- The run lemmas (`CompletedRunRecordsFinalTarget`, `NonTransactionalCrashKeepsLastCompleted`,
  `TransactionalCrashKeepsRecord`, `TransactionalWritesOnceAfterLoop`) assume no change step
  itself executes a DELETE, INSERT or UPDATE of `alembic_version`; the source does not
  prevent one, and `ExecuteCanWriteVersionTable` shows its effect.
- A change step that passes `bind` to `create()`/`create_all()` is represented as an
  `execute` of each construct. In live mode SQLAlchemy runs those constructs on the
  connection directly, not through `_exec`, with the same effect. In SQL-emission mode
  they reach `_exec` through `Dump`, with their parameters dropped.
- SQLAlchemy's statement compiler is a function value `compile` carried by the dialect.
  The model assumes nothing about the text it produces.
- Executing a statement on the connection is a record in `executed`, plus the
  version-table effect of the three bookkeeping statements. Raw SQL text is not
  interpreted, so the model treats it as leaving the version table alone.
- Failures of the database itself are not modelled; only a change step's own exception
  and `bulk_insert`'s unknown column raise. These include a failing execution, a
  failing compilation, or running a version statement before the table exists.
- `_version.create(checkfirst=True)` in `_current_rev` is not modelled. The version
  table is taken to exist.
- Revision ids are opaque strings. Quoting them into `literal_column("'%s'")` and the
  `String(32)` length bound are not modelled.
- `_literal_bindparam` and its compiler hook only affect how literal values render.
  They are covered by the abstract compiler.
- The mock engine's creation through `create_engine(..., strategy="mock")` is not
  modelled. Only its executor (`Dump`) and the `bind` choice are.
- `opts` and the `config` global: the options are passed to `ConfigureConnection`
  as parameters.
- Logging is not modelled. `print` is an append to `Console.lines`: one entry per
  print call, without the newline that print adds.
- The keyword arguments that `run_migrations(**kw)` forwards to each change step are
  not modelled. A change step is a fixed list of context calls.
- `table.indexes` is a set in SQLAlchemy; it is a sequence here, so the order of the
  CREATE INDEX statements is the one the sequence gives.
- The metaclass mechanics: declaring a variant is an explicit `Declare` call.
