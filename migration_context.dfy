/**
 * DefaultContext: the migration context bound to one connection. Every statement its
 * own operations and the bookkeeping send goes through the gateway Exec, which prints it
 * in SQL-emission mode and executes it otherwise (CurrentRev reads the connection
 * directly); RunMigrations drives the change steps and the version bookkeeping. Each
 * method is proved to have exactly the effect its ContextSpec function describes.
 */
module MigrationContext {
  import opened Wrappers
  import Ddl
  import opened Database
  import opened Registry
  import opened ContextSpec
  import opened ContextProperties

  /** What the bind property hands to MetaData.create(): the connection, or in SQL-emission
      mode a mock engine whose executor prints through the gateway. */
  datatype BindTarget = StdoutMock | Live(connection: Connection)

  class DefaultContext {
    const impl: Impl
    const connection: Connection
    const migrationsFn: Option<string> -> seq<Step>
    const asSql: bool
    const stdout: Console

    constructor (impl: Impl, connection: Connection, migrationsFn: Option<string> -> seq<Step>,
                 asSql: bool, stdout: Console)
      ensures this.impl == impl && this.connection == connection && this.migrationsFn == migrationsFn
      ensures this.asSql == asSql && this.stdout == stdout
    {
      this.impl := impl;
      this.connection := connection;
      this.migrationsFn := migrationsFn;
      this.asSql := asSql;
      this.stdout := stdout;
    }

    function Cfg(): Cfg
    {
      ContextSpec.Cfg(asSql, impl.transactionalDdl, connection.dialect)
    }

    function Snapshot(): World
      reads stdout, connection
    {
      World(stdout.lines, connection.versionRows, connection.executed)
    }

    /** bind */
    function Bind(): (b: BindTarget)
      ensures b.StdoutMock? <==> asSql
      ensures b.Live? ==> b.connection == connection
    {
      if asSql then StdoutMock else Live(connection)
    }

    /** _current_rev: the version table cannot be consulted in SQL-emission mode. */
    method CurrentRev() returns (r: Result<Option<string>, Error>)
      ensures asSql ==> r == Failure(RevisionsMustBeSpecified)
      ensures !asSql ==> r == Success(Recorded(connection.versionRows))
    {
      if asSql {
        return Failure(RevisionsMustBeSpecified);
      }
      var v := connection.ScalarVersion();
      return Success(v);
    }

    /** _exec */
    method Exec(e: Ddl.Executable, args: seq<Ddl.Row>, kw: Ddl.Row) returns (err: Option<Error>)
      modifies stdout, connection
      ensures Close(Snapshot(), err) == Gateway(Cfg(), old(Snapshot()), Call(e, args, kw))
    {
      var construct := Ddl.Wrap(e);
      if asSql {
        if args != [] || kw != map[] {
          return Some(ExecArgsNotAllowed);
        }
        stdout.Print(Ddl.SqlLine(connection.dialect, construct));
      } else {
        connection.Execute(construct, args, kw);
      }
      return None;
    }

    /** Sends a construct without bind arguments, which the gateway always accepts. */
    method Send(c: Ddl.Construct)
      modifies stdout, connection
      ensures Snapshot() == Effect(Cfg(), old(Snapshot()), Bare(c))
    {
      var err := Exec(Ddl.Clause(c), [], map[]);
      assert err.None?;
    }

    /** The executor of the mock engine: the bind parameters are dropped. */
    method Dump(c: Ddl.Construct, multiparams: seq<Ddl.Row>, params: Ddl.Row)
      modifies stdout, connection
      ensures Snapshot() == Effect(Cfg(), old(Snapshot()), Bare(c))
    {
      Send(c);
    }

    /** _update_current_rev */
    method UpdateCurrentRev(from: Option<string>, to: Option<string>)
      modifies stdout, connection
      ensures Snapshot() == Bookkeep(Cfg(), old(Snapshot()), from, to)
    {
      if from == to {
        return;
      }
      if to.None? {
        Send(Ddl.VersionDelete);
      } else if from.None? {
        Send(Ddl.VersionInsert(to.value));
      } else {
        Send(Ddl.VersionUpdate(to.value));
      }
    }

    /** execute(sql): a string is wrapped as text by the gateway, a construct is sent as is. */
    method Execute(sql: Ddl.Executable)
      modifies stdout, connection
      ensures Snapshot() == EmitAll(Cfg(), old(Snapshot()), OpCalls(Op.Execute(sql)))
    {
      var err := Exec(sql, [], map[]);
      assert err.None?;
    }

    method AlterColumn(table: string, column: string, nullable: Option<bool>, serverDefault: ServerDefault,
                       name: Option<string>, typeName: Option<string>, schema: Option<string>)
      modifies stdout, connection
      ensures Snapshot() == EmitAll(Cfg(), old(Snapshot()),
                                    OpCalls(Op.AlterColumn(table, column, nullable, serverDefault, name, typeName, schema)))
    {
      ghost var w0 := Snapshot();
      ghost var nc := Bares(NullableClause(table, column, nullable, schema));
      ghost var dc := Bares(DefaultClause(table, column, serverDefault, schema));
      ghost var tc := Bares(TypeClause(table, column, typeName, schema));
      BaresAppend(NullableClause(table, column, nullable, schema), DefaultClause(table, column, serverDefault, schema));
      BaresAppend(NullableClause(table, column, nullable, schema) + DefaultClause(table, column, serverDefault, schema),
                  TypeClause(table, column, typeName, schema));
      if nullable.Some? {
        Send(Ddl.ColumnNullable(table, column, nullable.value, schema));
      }
      assert Snapshot() == EmitAll(Cfg(), w0, nc);
      ghost var w1 := Snapshot();
      if !serverDefault.Unset? {
        Send(Ddl.ColumnDefault(table, column, if serverDefault.SetTo? then Some(serverDefault.expr) else None, schema));
      }
      assert Snapshot() == EmitAll(Cfg(), w1, dc);
      ghost var w2 := Snapshot();
      if typeName.Some? {
        Send(Ddl.ColumnType(table, column, typeName.value, schema));
      }
      assert Snapshot() == EmitAll(Cfg(), w2, tc);
      EmitAllAppend(Cfg(), w0, nc, dc);
      EmitAllAppend(Cfg(), w0, nc + dc, tc);
    }

    method AddColumn(table: string, column: string)
      modifies stdout, connection
      ensures Snapshot() == EmitAll(Cfg(), old(Snapshot()), OpCalls(Op.AddColumn(table, column)))
    {
      Send(Ddl.AddColumn(table, column));
    }

    method DropColumn(table: string, column: string)
      modifies stdout, connection
      ensures Snapshot() == EmitAll(Cfg(), old(Snapshot()), OpCalls(Op.DropColumn(table, column)))
    {
      Send(Ddl.DropColumn(table, column));
    }

    method AddConstraint(constraint: string)
      modifies stdout, connection
      ensures Snapshot() == EmitAll(Cfg(), old(Snapshot()), OpCalls(Op.AddConstraint(constraint)))
    {
      Send(Ddl.AddConstraint(constraint));
    }

    /** create_table: the table, then each of its indexes. */
    method CreateTable(t: Ddl.Table)
      modifies stdout, connection
      ensures Snapshot() == EmitAll(Cfg(), old(Snapshot()), OpCalls(Op.CreateTable(t)))
    {
      ghost var calls := OpCalls(Op.CreateTable(t));
      Send(Ddl.CreateTable(t));
      for i := 0 to |t.indexes|
        invariant EmitAll(Cfg(), old(Snapshot()), calls) == EmitAll(Cfg(), Snapshot(), calls[i + 1..])
      {
        assert calls[i + 1] == Bare(Ddl.CreateIndex(t.indexes[i]));
        Send(Ddl.CreateIndex(t.indexes[i]));
      }
    }

    method DropTable(t: Ddl.Table)
      modifies stdout, connection
      ensures Snapshot() == EmitAll(Cfg(), old(Snapshot()), OpCalls(Op.DropTable(t)))
    {
      Send(Ddl.DropTable(t));
    }

    /** bulk_insert: one literal INSERT per row in SQL-emission mode, one execution carrying
        every row otherwise. */
    method BulkInsert(t: Ddl.Table, rows: seq<Ddl.Row>) returns (err: Option<Error>)
      modifies stdout, connection
      ensures Close(Snapshot(), err) == BulkInsertSpec(Cfg(), old(Snapshot()), t, rows)
    {
      if asSql {
        for i := 0 to |rows|
          invariant BulkInsertSpec(Cfg(), old(Snapshot()), t, rows) == BulkInsertSql(Cfg(), Snapshot(), t, rows[i..])
        {
          if !(rows[i].Keys <= t.columns) {
            return Some(NoSuchColumn(t.name));
          }
          assert rows[i..][1..] == rows[i + 1..];
          Send(Ddl.InsertValues(t.name, rows[i]));
        }
        return None;
      } else {
        err := Exec(Ddl.Clause(Ddl.Insert(t.name)), rows, map[]);
      }
    }

    /** One call a change step makes on the context. */
    method Perform(op: Op) returns (err: Option<Error>)
      modifies stdout, connection
      ensures Close(Snapshot(), err) == OpSpec(Cfg(), old(Snapshot()), op)
    {
      err := None;
      match op
      case Execute(sql) => Execute(sql);
      case AlterColumn(t, c, n, d, nm, ty, s) => AlterColumn(t, c, n, d, nm, ty, s);
      case AddColumn(t, c) => AddColumn(t, c);
      case DropColumn(t, c) => DropColumn(t, c);
      case AddConstraint(k) => AddConstraint(k);
      case CreateTable(t) => CreateTable(t);
      case DropTable(t) => DropTable(t);
      case BulkInsert(t, rows) => err := BulkInsert(t, rows);
    }

    /** change(**kw): its operations in order, then its own exception, if it raises one. */
    method ApplyChange(ch: Change) returns (err: Option<Error>)
      modifies stdout, connection
      ensures Close(Snapshot(), err) == ChangeSpec(Cfg(), old(Snapshot()), ch)
    {
      for i := 0 to |ch.ops|
        invariant OpsSpec(Cfg(), old(Snapshot()), ch.ops) == OpsSpec(Cfg(), Snapshot(), ch.ops[i..])
      {
        assert ch.ops[i..][1..] == ch.ops[i + 1..];
        err := Perform(ch.ops[i]);
        if err.Some? {
          return;
        }
      }
      assert ch.ops[|ch.ops|..] == [];
      if ch.raises {
        return Some(ChangeRaised(ch.name));
      }
      return None;
    }

    /** run_migrations */
    method RunMigrations() returns (err: Option<Error>)
      modifies stdout, connection
      ensures Close(Snapshot(), err) == RunSpec(Cfg(), old(Snapshot()), migrationsFn)
    {
      ghost var w0 := Snapshot();
      if asSql && impl.transactionalDdl {
        stdout.Print(BeginMarker);
      }
      var currentRev: Option<string>;
      if asSql {
        currentRev := None;
      } else {
        var r := CurrentRev();
        currentRev := r.value;
      }
      var steps := migrationsFn(currentRev);
      var prevRev := currentRev;
      var rev := currentRev;
      ghost var p0 := Progress(Snapshot(), currentRev, None);
      for i := 0 to |steps|
        invariant rev == prevRev
        invariant LoopSpec(Cfg(), p0, steps) == LoopSpec(Cfg(), Progress(Snapshot(), prevRev, None), steps[i..])
      {
        assert steps[i..][1..] == steps[i + 1..];
        rev := steps[i].rev;
        err := ApplyChange(steps[i].change);
        if err.Some? {
          return;
        }
        if !impl.transactionalDdl {
          UpdateCurrentRev(prevRev, rev);
        }
        prevRev := rev;
      }
      assert steps[|steps|..] == [];
      if impl.transactionalDdl {
        UpdateCurrentRev(currentRev, rev);
      }
      if asSql && impl.transactionalDdl {
        stdout.Print(CommitMarker);
      }
      return None;
    }
  }
}
