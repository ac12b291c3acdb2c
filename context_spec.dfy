/**
 * What each operation of DefaultContext does, as functions of the observable world:
 * the lines printed to standard output, the rows of alembic_version and the statements
 * executed on the live connection. The class in MigrationContext is proved to do exactly
 * this; ContextProperties proves what these functions guarantee.
 */
module ContextSpec {
  import opened Wrappers
  import Ddl
  import opened Database

  const BeginMarker: string := "BEGIN;\n"
  const CommitMarker: string := "COMMIT;\n"

  /** The flags a run depends on: as_sql, the variant's transactional_ddl, the bound dialect. */
  datatype Cfg = Cfg(asSql: bool, transactionalDdl: bool, dialect: Ddl.Dialect)

  datatype World = World(out: seq<string>, versionRows: seq<string>, executed: seq<Execution>)

  datatype Error =
    | RevisionsMustBeSpecified      // _current_rev in SQL-emission mode
    | ExecArgsNotAllowed            // bind arguments in SQL-emission mode
    | NoSuchColumn(table: string)   // a bulk_insert row names a column the table lacks (as_sql)
    | ChangeRaised(change: string)  // a change step raised
    | NotConfigured                 // run_migrations before configure_connection

  /** The world after an operation, and the error it raised, if any. */
  datatype Outcome = Done(world: World) | Raised(world: World, error: Error)

  function Close(w: World, err: Option<Error>): Outcome
  {
    if err.None? then Done(w) else Raised(w, err.value)
  }

  /** One call of the execution gateway _exec(construct, *args, **kw). */
  datatype Call = Call(target: Ddl.Executable, args: seq<Ddl.Row>, kw: Ddl.Row)

  function Bare(c: Ddl.Construct): Call
  {
    Call(Ddl.Clause(c), [], map[])
  }

  function Bares(cs: seq<Ddl.Construct>): (r: seq<Call>)
    ensures |r| == |cs|
    ensures forall i :: 0 <= i < |cs| ==> r[i] == Bare(cs[i])
  {
    seq(|cs|, i requires 0 <= i < |cs| => Bare(cs[i]))
  }

  /** alter_column's server_default: False (not given), None (clear it), or a value. */
  datatype ServerDefault = Unset | Clear | SetTo(expr: string)

  /** What a change step can do: the public operations of the migration context. */
  datatype Op =
    | Execute(sql: Ddl.Executable)
    | AlterColumn(table: string, column: string, nullable: Option<bool>, serverDefault: ServerDefault,
                  name: Option<string>, typeName: Option<string>, schema: Option<string>)
    | AddColumn(table: string, column: string)
    | DropColumn(table: string, column: string)
    | AddConstraint(constraint: string)
    | CreateTable(definition: Ddl.Table)
    | DropTable(definition: Ddl.Table)
    | BulkInsert(into: Ddl.Table, rows: seq<Ddl.Row>)

  /** A change step: the operations it performs, then whether it raises. */
  datatype Change = Change(name: string, ops: seq<Op>, raises: bool)

  /** One (change, revision) pair supplied by the migrations function. */
  datatype Step = Step(change: Change, rev: Option<string>)

  // ---------------------------------------------------------------- the gateway

  /** In SQL-emission mode the gateway refuses bind arguments. */
  predicate Refused(cfg: Cfg, call: Call)
  {
    cfg.asSql && (call.args != [] || call.kw != map[])
  }

  /** What an accepted gateway call does: print the compiled line, or execute live. */
  function Effect(cfg: Cfg, w: World, call: Call): World
  {
    var c := Ddl.Wrap(call.target);
    if cfg.asSql then
      w.(out := w.out + [Ddl.SqlLine(cfg.dialect, c)])
    else
      w.(versionRows := ApplyToVersionTable(w.versionRows, c),
         executed := w.executed + [Execution(c, call.args, call.kw)])
  }

  /** _exec */
  function Gateway(cfg: Cfg, w: World, call: Call): Outcome
  {
    if Refused(cfg, call) then Raised(w, ExecArgsNotAllowed) else Done(Effect(cfg, w, call))
  }

  /** A sequence of accepted gateway calls, in order. */
  function EmitAll(cfg: Cfg, w: World, calls: seq<Call>): World
    decreases |calls|
  {
    if calls == [] then w else EmitAll(cfg, Effect(cfg, w, calls[0]), calls[1..])
  }

  // ---------------------------------------------------------------- bookkeeping

  /** The statement _update_current_rev sends for the transition from -> to, if any. */
  function VersionWrite(from: Option<string>, to: Option<string>): (r: Option<Ddl.Construct>)
    ensures r.None? <==> from == to
    ensures r.Some? ==> IsVersionStatement(r.value)
  {
    if from == to then None
    else if to.None? then Some(Ddl.VersionDelete)
    else if from.None? then Some(Ddl.VersionInsert(to.value))
    else Some(Ddl.VersionUpdate(to.value))
  }

  /** _update_current_rev(from, to) */
  function Bookkeep(cfg: Cfg, w: World, from: Option<string>, to: Option<string>): World
  {
    match VersionWrite(from, to)
    case None => w
    case Some(c) => Effect(cfg, w, Bare(c))
  }

  // ---------------------------------------------------------------- statement expanders

  /** The primitives alter_column sends: nullability, then default, then type, each only
      when its parameter was given. The name parameter is accepted and not used. */
  function AlterColumnClauses(table: string, column: string, nullable: Option<bool>,
                              serverDefault: ServerDefault, typeName: Option<string>,
                              schema: Option<string>): (r: seq<Ddl.Construct>)
    ensures |r| <= 3
    ensures forall i :: 0 <= i < |r| ==>
              (r[i].ColumnNullable? || r[i].ColumnDefault? || r[i].ColumnType?) &&
              r[i].table == table && r[i].column == column && r[i].schema == schema
    ensures forall i, j :: 0 <= i < j < |r| ==> AlterRank(r[i]) < AlterRank(r[j])
  {
    NullableClause(table, column, nullable, schema)
    + DefaultClause(table, column, serverDefault, schema)
    + TypeClause(table, column, typeName, schema)
  }

  function NullableClause(table: string, column: string, nullable: Option<bool>, schema: Option<string>)
    : seq<Ddl.Construct>
  {
    if nullable.Some? then [Ddl.ColumnNullable(table, column, nullable.value, schema)] else []
  }

  function DefaultClause(table: string, column: string, serverDefault: ServerDefault, schema: Option<string>)
    : seq<Ddl.Construct>
  {
    match serverDefault
    case Unset => []
    case Clear => [Ddl.ColumnDefault(table, column, None, schema)]
    case SetTo(e) => [Ddl.ColumnDefault(table, column, Some(e), schema)]
  }

  function TypeClause(table: string, column: string, typeName: Option<string>, schema: Option<string>)
    : seq<Ddl.Construct>
  {
    if typeName.Some? then [Ddl.ColumnType(table, column, typeName.value, schema)] else []
  }

  /** The position of an alter_column primitive in the order the source sends them. */
  function AlterRank(c: Ddl.Construct): nat
  {
    if c.ColumnNullable? then 0 else if c.ColumnDefault? then 1 else 2
  }

  /** create_table: the table, then one CREATE INDEX per index, in order. */
  function CreateTableClauses(t: Ddl.Table): seq<Ddl.Construct>
  {
    [Ddl.CreateTable(t)] + seq(|t.indexes|, i requires 0 <= i < |t.indexes| => Ddl.CreateIndex(t.indexes[i]))
  }

  /** The gateway calls of every operation but bulk_insert. */
  function OpCalls(op: Op): seq<Call>
    requires !op.BulkInsert?
  {
    match op
    case Execute(sql) => [Call(sql, [], map[])]
    case AlterColumn(t, c, n, d, _, ty, s) => Bares(AlterColumnClauses(t, c, n, d, ty, s))
    case AddColumn(t, c) => [Bare(Ddl.AddColumn(t, c))]
    case DropColumn(t, c) => [Bare(Ddl.DropColumn(t, c))]
    case AddConstraint(k) => [Bare(Ddl.AddConstraint(k))]
    case CreateTable(t) => Bares(CreateTableClauses(t))
    case DropTable(t) => [Bare(Ddl.DropTable(t))]
  }

  predicate RowFits(t: Ddl.Table, row: Ddl.Row)
  {
    row.Keys <= t.columns
  }

  /** The single execution that carries every row as bind parameters (live mode). */
  function BulkInsertLiveCall(t: Ddl.Table, rows: seq<Ddl.Row>): Call
  {
    Call(Ddl.Clause(Ddl.Insert(t.name)), rows, map[])
  }

  /** One literal INSERT per row (SQL-emission mode); a row naming an unknown column
      raises before anything is printed for it. */
  function BulkInsertSql(cfg: Cfg, w: World, t: Ddl.Table, rows: seq<Ddl.Row>): Outcome
    decreases |rows|
  {
    if rows == [] then Done(w)
    else if !RowFits(t, rows[0]) then Raised(w, NoSuchColumn(t.name))
    else BulkInsertSql(cfg, Effect(cfg, w, Bare(Ddl.InsertValues(t.name, rows[0]))), t, rows[1..])
  }

  /** bulk_insert */
  function BulkInsertSpec(cfg: Cfg, w: World, t: Ddl.Table, rows: seq<Ddl.Row>): Outcome
  {
    if cfg.asSql then BulkInsertSql(cfg, w, t, rows) else Done(Effect(cfg, w, BulkInsertLiveCall(t, rows)))
  }

  function OpSpec(cfg: Cfg, w: World, op: Op): Outcome
  {
    if op.BulkInsert? then BulkInsertSpec(cfg, w, op.into, op.rows) else Done(EmitAll(cfg, w, OpCalls(op)))
  }

  /** A sequence of operations; the first one that raises ends it. */
  function OpsSpec(cfg: Cfg, w: World, ops: seq<Op>): Outcome
    decreases |ops|
  {
    if ops == [] then Done(w)
    else match OpSpec(cfg, w, ops[0])
      case Done(w') => OpsSpec(cfg, w', ops[1..])
      case Raised(w', e) => Raised(w', e)
  }

  /** change(**kw) */
  function ChangeSpec(cfg: Cfg, w: World, ch: Change): Outcome
  {
    match OpsSpec(cfg, w, ch.ops)
    case Done(w') => if ch.raises then Raised(w', ChangeRaised(ch.name)) else Done(w')
    case Raised(w', e) => Raised(w', e)
  }

  // ---------------------------------------------------------------- the run loop

  /** The loop's state: the world, prev_rev, and the error that ended the loop, if any. */
  datatype Progress = Progress(world: World, prev: Option<string>, failure: Option<Error>)

  /** One iteration: run the change, then (non-transactional DDL only) record the step. */
  function StepSpec(cfg: Cfg, p: Progress, step: Step): Progress
    requires p.failure.None?
  {
    match ChangeSpec(cfg, p.world, step.change)
    case Raised(w, e) => Progress(w, p.prev, Some(e))
    case Done(w) =>
      Progress(if cfg.transactionalDdl then w else Bookkeep(cfg, w, p.prev, step.rev), step.rev, None)
  }

  /** The remaining iterations; a raised error stops the loop. */
  function LoopSpec(cfg: Cfg, p: Progress, steps: seq<Step>): Progress
    decreases |steps|
  {
    if steps == [] || p.failure.Some? then p else LoopSpec(cfg, StepSpec(cfg, p, steps[0]), steps[1..])
  }

  /** run_migrations from a given starting revision over a given sequence of steps. */
  function RunSteps(cfg: Cfg, w: World, start: Option<string>, steps: seq<Step>): Outcome
  {
    var bracketed := cfg.asSql && cfg.transactionalDdl;
    var w1 := if bracketed then w.(out := w.out + [BeginMarker]) else w;
    var p := LoopSpec(cfg, Progress(w1, start, None), steps);
    if p.failure.Some? then Raised(p.world, p.failure.value)
    else
      var w2 := if cfg.transactionalDdl then Bookkeep(cfg, p.world, start, p.prev) else p.world;
      Done(if bracketed then w2.(out := w2.out + [CommitMarker]) else w2)
  }

  /** The revision the starting point of run_migrations: unknown in SQL-emission mode,
      otherwise the one the version table records. */
  function StartingRevision(cfg: Cfg, w: World): Option<string>
  {
    if cfg.asSql then None else Recorded(w.versionRows)
  }

  /** run_migrations, with the migrations function that supplies the steps. */
  function RunSpec(cfg: Cfg, w: World, migrations: Option<string> -> seq<Step>): Outcome
  {
    var start := StartingRevision(cfg, w);
    RunSteps(cfg, w, start, migrations(start))
  }
}
