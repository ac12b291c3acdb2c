/**
 * What the migration context guarantees: the bookkeeping write moves the recorded
 * revision, every statement is one line or one execution, the run loop keeps the
 * version table consistent with the last completed step, transactional DDL writes
 * once after the loop, and SQL-emission mode never touches the database.
 */
module ContextProperties {
  import opened Wrappers
  import Ddl
  import opened Database
  import opened ContextSpec

  // ---------------------------------------------------------------- frames

  /** SQL-emission mode only appends to the output; live mode never prints. */
  predicate ModeFrame(cfg: Cfg, w: World, w': World)
  {
    if cfg.asSql then w'.versionRows == w.versionRows && w'.executed == w.executed && w.out <= w'.out
    else w'.out == w.out
  }

  /** The version table and the statements that wrote it are left as they were. */
  predicate KeepsVersion(w: World, w': World)
  {
    w'.versionRows == w.versionRows && VersionStatements(w'.executed) == VersionStatements(w.executed)
  }

  predicate NoVersionCalls(calls: seq<Call>)
  {
    forall i :: 0 <= i < |calls| ==> !IsVersionStatement(Ddl.Wrap(calls[i].target))
  }

  /** An operation that sends no version statement: anything but an execute() whose
      argument is a DELETE, INSERT or UPDATE of alembic_version. */
  predicate NoVersionOp(op: Op)
  {
    op.Execute? ==> !IsVersionStatement(Ddl.Wrap(op.sql))
  }

  predicate NoVersionOps(ops: seq<Op>)
  {
    forall i :: 0 <= i < |ops| ==> NoVersionOp(ops[i])
  }

  /** No change step of the run sends a version statement of its own. */
  predicate NoVersionSteps(steps: seq<Step>)
  {
    forall j :: 0 <= j < |steps| ==> NoVersionOps(steps[j].change.ops)
  }

  lemma VersionStatementsAppend(execs: seq<Execution>, e: Execution)
    ensures VersionStatements(execs + [e])
            == VersionStatements(execs) + (if IsVersionStatement(e.construct) then [e.construct] else [])
  {
    assert (execs + [e])[..|execs|] == execs;
  }

  lemma EffectFrame(cfg: Cfg, w: World, call: Call)
    ensures ModeFrame(cfg, w, Effect(cfg, w, call))
    ensures !IsVersionStatement(Ddl.Wrap(call.target)) ==> KeepsVersion(w, Effect(cfg, w, call))
  {
    if !cfg.asSql {
      VersionStatementsAppend(w.executed, Execution(Ddl.Wrap(call.target), call.args, call.kw));
    }
  }

  lemma {:induction false} EmitAllFrame(cfg: Cfg, w: World, calls: seq<Call>)
    ensures ModeFrame(cfg, w, EmitAll(cfg, w, calls))
    ensures NoVersionCalls(calls) ==> KeepsVersion(w, EmitAll(cfg, w, calls))
    decreases |calls|
  {
    if calls != [] {
      EffectFrame(cfg, w, calls[0]);
      EmitAllFrame(cfg, Effect(cfg, w, calls[0]), calls[1..]);
      assert NoVersionCalls(calls) ==> NoVersionCalls(calls[1..]) by {
        if NoVersionCalls(calls) {
          forall i | 0 <= i < |calls[1..]| ensures !IsVersionStatement(Ddl.Wrap(calls[1..][i].target)) {
            assert calls[1..][i] == calls[i + 1];
          }
        }
      }
    }
  }

  /** Gateway calls sent one after another compose: the second batch starts where the first ended. */
  lemma {:induction false} EmitAllAppend(cfg: Cfg, w: World, a: seq<Call>, b: seq<Call>)
    ensures EmitAll(cfg, w, a + b) == EmitAll(cfg, EmitAll(cfg, w, a), b)
    decreases |a|
  {
    if a == [] {
      assert a + b == b;
    } else {
      assert (a + b)[0] == a[0];
      assert (a + b)[1..] == a[1..] + b;
      EmitAllAppend(cfg, Effect(cfg, w, a[0]), a[1..], b);
    }
  }

  lemma BaresAppend(a: seq<Ddl.Construct>, b: seq<Ddl.Construct>)
    ensures Bares(a + b) == Bares(a) + Bares(b)
  {
    assert |Bares(a + b)| == |Bares(a) + Bares(b)|;
    forall i | 0 <= i < |a + b| ensures Bares(a + b)[i] == (Bares(a) + Bares(b))[i] {
      if i >= |a| {
        assert (a + b)[i] == b[i - |a|];
      }
    }
  }

  /** The only operation that can send a version statement is execute(), and it does so
      exactly when its argument is one. */
  lemma OpCallsNoVersion(op: Op)
    requires !op.BulkInsert?
    ensures NoVersionCalls(OpCalls(op)) <==> NoVersionOp(op)
  {
    if op.Execute? {
      assert OpCalls(op)[0].target == op.sql;
    }
  }

  lemma {:induction false} BulkInsertSqlFrame(cfg: Cfg, w: World, t: Ddl.Table, rows: seq<Ddl.Row>)
    requires cfg.asSql
    ensures ModeFrame(cfg, w, BulkInsertSql(cfg, w, t, rows).world)
    ensures KeepsVersion(w, BulkInsertSql(cfg, w, t, rows).world)
    decreases |rows|
  {
    if rows != [] && RowFits(t, rows[0]) {
      var call := Bare(Ddl.InsertValues(t.name, rows[0]));
      EffectFrame(cfg, w, call);
      BulkInsertSqlFrame(cfg, Effect(cfg, w, call), t, rows[1..]);
    }
  }

  lemma OpFrame(cfg: Cfg, w: World, op: Op)
    ensures ModeFrame(cfg, w, OpSpec(cfg, w, op).world)
    ensures NoVersionOp(op) ==> KeepsVersion(w, OpSpec(cfg, w, op).world)
  {
    if op.BulkInsert? {
      if cfg.asSql {
        BulkInsertSqlFrame(cfg, w, op.into, op.rows);
      } else {
        EffectFrame(cfg, w, BulkInsertLiveCall(op.into, op.rows));
      }
    } else {
      OpCallsNoVersion(op);
      EmitAllFrame(cfg, w, OpCalls(op));
    }
  }

  lemma {:induction false} OpsFrame(cfg: Cfg, w: World, ops: seq<Op>)
    ensures ModeFrame(cfg, w, OpsSpec(cfg, w, ops).world)
    ensures NoVersionOps(ops) ==> KeepsVersion(w, OpsSpec(cfg, w, ops).world)
    decreases |ops|
  {
    if ops != [] {
      OpFrame(cfg, w, ops[0]);
      var o := OpSpec(cfg, w, ops[0]);
      if o.Done? {
        OpsFrame(cfg, o.world, ops[1..]);
        assert NoVersionOps(ops) ==> NoVersionOps(ops[1..]) by {
          if NoVersionOps(ops) {
            forall i | 0 <= i < |ops[1..]| ensures NoVersionOp(ops[1..][i]) {
              assert ops[1..][i] == ops[i + 1];
            }
          }
        }
      }
    }
  }

  /** A change step, whether it completes or raises, stays in its mode's channel, and one
      that sends no version statement of its own leaves the version table as it was. */
  lemma ChangeFrame(cfg: Cfg, w: World, ch: Change)
    ensures ModeFrame(cfg, w, ChangeSpec(cfg, w, ch).world)
    ensures NoVersionOps(ch.ops) ==> KeepsVersion(w, ChangeSpec(cfg, w, ch).world)
  {
    OpsFrame(cfg, w, ch.ops);
  }

  lemma BookkeepFrame(cfg: Cfg, w: World, from: Option<string>, to: Option<string>)
    ensures ModeFrame(cfg, w, Bookkeep(cfg, w, from, to))
  {
    var v := VersionWrite(from, to);
    if v.Some? {
      EffectFrame(cfg, w, Bare(v.value));
    }
  }

  // ---------------------------------------------------------------- bookkeeping

  /** The statement _update_current_rev chooses takes a version table that records `from`
      to one that records `to`, and never leaves more than one row behind. */
  lemma BookkeepMovesRecord(cfg: Cfg, w: World, from: Option<string>, to: Option<string>)
    requires !cfg.asSql
    requires Recorded(w.versionRows) == from
    ensures Recorded(Bookkeep(cfg, w, from, to).versionRows) == to
    ensures |w.versionRows| <= 1 ==> |Bookkeep(cfg, w, from, to).versionRows| <= 1
    ensures Bookkeep(cfg, w, from, to).executed
            == w.executed + (if from == to then [] else [Execution(VersionWrite(from, to).value, [], map[])])
  {
  }

  /** In SQL-emission mode the bookkeeping write prints one line, or none when from == to. */
  lemma BookkeepPrints(cfg: Cfg, w: World, from: Option<string>, to: Option<string>)
    requires cfg.asSql
    ensures Bookkeep(cfg, w, from, to).out
            == w.out + (if from == to then [] else [Ddl.SqlLine(cfg.dialect, VersionWrite(from, to).value)])
  {
  }

  // ---------------------------------------------------------------- the gateway

  /** _exec: refused bind arguments print nothing; otherwise one line or one execution. */
  lemma GatewayContract(cfg: Cfg, w: World, call: Call)
    ensures Refused(cfg, call) ==> Gateway(cfg, w, call) == Raised(w, ExecArgsNotAllowed)
    ensures cfg.asSql && !Refused(cfg, call) ==>
              Gateway(cfg, w, call).Done? &&
              Gateway(cfg, w, call).world.out == w.out + [Ddl.SqlLine(cfg.dialect, Ddl.Wrap(call.target))] &&
              Gateway(cfg, w, call).world.executed == w.executed
    ensures !cfg.asSql ==>
              Gateway(cfg, w, call).Done? &&
              Gateway(cfg, w, call).world.out == w.out &&
              Gateway(cfg, w, call).world.executed
              == w.executed + [Execution(Ddl.Wrap(call.target), call.args, call.kw)]
  {
  }

  function SqlLines(d: Ddl.Dialect, calls: seq<Call>): (r: seq<string>)
    ensures |r| == |calls|
  {
    seq(|calls|, i requires 0 <= i < |calls| => Ddl.SqlLine(d, Ddl.Wrap(calls[i].target)))
  }

  function Executions(calls: seq<Call>): (r: seq<Execution>)
    ensures |r| == |calls|
  {
    seq(|calls|, i requires 0 <= i < |calls| => Execution(Ddl.Wrap(calls[i].target), calls[i].args, calls[i].kw))
  }

  /** In SQL-emission mode each call prints exactly one line, in call order, and the
      database is not touched. */
  lemma {:induction false} SqlEmitAll(cfg: Cfg, w: World, calls: seq<Call>)
    requires cfg.asSql
    ensures EmitAll(cfg, w, calls).out == w.out + SqlLines(cfg.dialect, calls)
    ensures EmitAll(cfg, w, calls).versionRows == w.versionRows
    ensures EmitAll(cfg, w, calls).executed == w.executed
    decreases |calls|
  {
    if calls == [] {
      assert w.out + [] == w.out;
    } else {
      var line := Ddl.SqlLine(cfg.dialect, Ddl.Wrap(calls[0].target));
      var w' := Effect(cfg, w, calls[0]);
      SqlEmitAll(cfg, w', calls[1..]);
      assert w'.out == w.out + [line];
      assert SqlLines(cfg.dialect, calls) == [line] + SqlLines(cfg.dialect, calls[1..]) by {
        forall i | 0 <= i < |calls| ensures SqlLines(cfg.dialect, calls)[i] == ([line] + SqlLines(cfg.dialect, calls[1..]))[i] {
          if i > 0 {
            assert calls[1..][i - 1] == calls[i];
          }
        }
      }
      assert w'.out + SqlLines(cfg.dialect, calls[1..]) == w.out + ([line] + SqlLines(cfg.dialect, calls[1..]));
    }
  }

  /** In live mode each call is executed exactly once, in call order, and nothing is printed. */
  lemma {:induction false} LiveEmitAll(cfg: Cfg, w: World, calls: seq<Call>)
    requires !cfg.asSql
    ensures EmitAll(cfg, w, calls).out == w.out
    ensures EmitAll(cfg, w, calls).executed == w.executed + Executions(calls)
    decreases |calls|
  {
    if calls == [] {
      assert w.executed + [] == w.executed;
    } else {
      LiveEmitAll(cfg, Effect(cfg, w, calls[0]), calls[1..]);
      assert [Execution(Ddl.Wrap(calls[0].target), calls[0].args, calls[0].kw)] + Executions(calls[1..])
             == Executions(calls);
    }
  }

  // ---------------------------------------------------------------- expanders

  /** alter_column sends one primitive per parameter given, and no other. */
  lemma AlterColumnCount(table: string, column: string, nullable: Option<bool>,
                         serverDefault: ServerDefault, typeName: Option<string>, schema: Option<string>)
    ensures |AlterColumnClauses(table, column, nullable, serverDefault, typeName, schema)|
            == (if nullable.Some? then 1 else 0) + (if serverDefault.Unset? then 0 else 1)
               + (if typeName.Some? then 1 else 0)
  {
  }

  /** alter_column sends each primitive exactly when its parameter is given; a cleared
      server default (None) still sends a default change, only the unset one does not. */
  lemma AlterColumnSelection(table: string, column: string, nullable: Option<bool>,
                             serverDefault: ServerDefault, typeName: Option<string>, schema: Option<string>)
    ensures var r := AlterColumnClauses(table, column, nullable, serverDefault, typeName, schema);
      (forall b :: Ddl.ColumnNullable(table, column, b, schema) in r <==> nullable == Some(b)) &&
      (forall ty :: Ddl.ColumnType(table, column, ty, schema) in r <==> typeName == Some(ty)) &&
      (Ddl.ColumnDefault(table, column, None, schema) in r <==> serverDefault == Clear) &&
      (forall e :: Ddl.ColumnDefault(table, column, Some(e), schema) in r <==> serverDefault == SetTo(e))
  {
    var n := NullableClause(table, column, nullable, schema);
    var d := DefaultClause(table, column, serverDefault, schema);
    var t := TypeClause(table, column, typeName, schema);
    assert AlterColumnClauses(table, column, nullable, serverDefault, typeName, schema) == n + d + t;
  }

  /** create_table sends the table first, then one CREATE INDEX per index, in order. */
  lemma CreateTableOrder(t: Ddl.Table)
    ensures var r := CreateTableClauses(t);
      |r| == 1 + |t.indexes| && r[0] == Ddl.CreateTable(t) &&
      forall i :: 0 <= i < |t.indexes| ==> r[i + 1] == Ddl.CreateIndex(t.indexes[i])
  {
  }

  function InsertLines(d: Ddl.Dialect, t: Ddl.Table, rows: seq<Ddl.Row>): (r: seq<string>)
    ensures |r| == |rows|
  {
    seq(|rows|, i requires 0 <= i < |rows| => Ddl.SqlLine(d, Ddl.InsertValues(t.name, rows[i])))
  }

  /** bulk_insert in SQL-emission mode prints one literal INSERT per row, in row order,
      up to the first row that names a column the table lacks, where it raises. */
  lemma {:induction false} BulkInsertSqlLines(cfg: Cfg, w: World, t: Ddl.Table, rows: seq<Ddl.Row>, k: nat)
    requires cfg.asSql
    requires k <= |rows|
    requires forall i :: 0 <= i < k ==> RowFits(t, rows[i])
    requires k < |rows| ==> !RowFits(t, rows[k])
    ensures BulkInsertSpec(cfg, w, t, rows).world.out == w.out + InsertLines(cfg.dialect, t, rows[..k])
    ensures BulkInsertSpec(cfg, w, t, rows).Done? <==> k == |rows|
    ensures BulkInsertSpec(cfg, w, t, rows).Raised? ==> BulkInsertSpec(cfg, w, t, rows).error == NoSuchColumn(t.name)
    decreases |rows|
  {
    if rows == [] || k == 0 {
      assert w.out + [] == w.out;
    } else {
      var line := Ddl.SqlLine(cfg.dialect, Ddl.InsertValues(t.name, rows[0]));
      var w' := Effect(cfg, w, Bare(Ddl.InsertValues(t.name, rows[0])));
      forall i | 0 <= i < k - 1 ensures RowFits(t, rows[1..][i]) {
        assert rows[1..][i] == rows[i + 1];
      }
      BulkInsertSqlLines(cfg, w', t, rows[1..], k - 1);
      assert w'.out == w.out + [line];
      assert rows[1..][..k - 1] == rows[1..k];
      assert InsertLines(cfg.dialect, t, rows[..k]) == [line] + InsertLines(cfg.dialect, t, rows[1..k]) by {
        forall i | 0 <= i < k
          ensures InsertLines(cfg.dialect, t, rows[..k])[i] == ([line] + InsertLines(cfg.dialect, t, rows[1..k]))[i]
        {
          if i > 0 {
            assert rows[1..k][i - 1] == rows[..k][i];
          }
        }
      }
      assert w'.out + InsertLines(cfg.dialect, t, rows[1..k])
             == w.out + ([line] + InsertLines(cfg.dialect, t, rows[1..k]));
    }
  }

  /** bulk_insert in live mode executes exactly once, carrying every row, and prints nothing. */
  lemma BulkInsertLiveOnce(cfg: Cfg, w: World, t: Ddl.Table, rows: seq<Ddl.Row>)
    requires !cfg.asSql
    ensures BulkInsertSpec(cfg, w, t, rows).Done?
    ensures BulkInsertSpec(cfg, w, t, rows).world.out == w.out
    ensures BulkInsertSpec(cfg, w, t, rows).world.executed == w.executed + [Execution(Ddl.Insert(t.name), rows, map[])]
  {
  }

  // ---------------------------------------------------------------- when a change raises

  predicate OpRaises(asSql: bool, op: Op)
  {
    asSql && op.BulkInsert? && exists i :: 0 <= i < |op.rows| && !RowFits(op.into, op.rows[i])
  }

  predicate ChangeRaises(asSql: bool, ch: Change)
  {
    ch.raises || exists i :: 0 <= i < |ch.ops| && OpRaises(asSql, ch.ops[i])
  }

  lemma {:induction false} BulkInsertSqlRaisesIff(cfg: Cfg, w: World, t: Ddl.Table, rows: seq<Ddl.Row>)
    ensures BulkInsertSql(cfg, w, t, rows).Raised? <==> exists i :: 0 <= i < |rows| && !RowFits(t, rows[i])
    decreases |rows|
  {
    if rows != [] && RowFits(t, rows[0]) {
      BulkInsertSqlRaisesIff(cfg, Effect(cfg, w, Bare(Ddl.InsertValues(t.name, rows[0]))), t, rows[1..]);
      if exists i :: 0 <= i < |rows| && !RowFits(t, rows[i]) {
        var i :| 0 <= i < |rows| && !RowFits(t, rows[i]);
        assert rows[1..][i - 1] == rows[i];
      }
      if exists i :: 0 <= i < |rows[1..]| && !RowFits(t, rows[1..][i]) {
        var i :| 0 <= i < |rows[1..]| && !RowFits(t, rows[1..][i]);
        assert rows[i + 1] == rows[1..][i];
      }
    }
  }

  lemma {:induction false} OpsRaisesIff(cfg: Cfg, w: World, ops: seq<Op>)
    ensures OpsSpec(cfg, w, ops).Raised? <==> exists i :: 0 <= i < |ops| && OpRaises(cfg.asSql, ops[i])
    decreases |ops|
  {
    if ops != [] {
      var op := ops[0];
      if op.BulkInsert? && cfg.asSql {
        BulkInsertSqlRaisesIff(cfg, w, op.into, op.rows);
      }
      assert OpSpec(cfg, w, op).Raised? <==> OpRaises(cfg.asSql, op);
      var o := OpSpec(cfg, w, op);
      if o.Done? {
        OpsRaisesIff(cfg, o.world, ops[1..]);
        if exists i :: 0 <= i < |ops| && OpRaises(cfg.asSql, ops[i]) {
          var i :| 0 <= i < |ops| && OpRaises(cfg.asSql, ops[i]);
          assert ops[1..][i - 1] == ops[i];
        }
        if exists i :: 0 <= i < |ops[1..]| && OpRaises(cfg.asSql, ops[1..][i]) {
          var i :| 0 <= i < |ops[1..]| && OpRaises(cfg.asSql, ops[1..][i]);
          assert ops[i + 1] == ops[1..][i];
        }
      }
    }
  }

  /** A change step raises exactly when the step itself raises or one of its bulk inserts
      names an unknown column in SQL-emission mode; the database state does not matter. */
  lemma ChangeRaisesIff(cfg: Cfg, w: World, ch: Change)
    ensures ChangeSpec(cfg, w, ch).Raised? <==> ChangeRaises(cfg.asSql, ch)
  {
    OpsRaisesIff(cfg, w, ch.ops);
  }

  // ---------------------------------------------------------------- the run loop

  /** prev_rev after the first k steps: the start, or the target of step k - 1. */
  function Reached(start: Option<string>, steps: seq<Step>, k: nat): Option<string>
    requires k <= |steps|
  {
    if k == 0 then start else steps[k - 1].rev
  }

  lemma {:induction false} LoopFrame(cfg: Cfg, p: Progress, steps: seq<Step>)
    ensures ModeFrame(cfg, p.world, LoopSpec(cfg, p, steps).world)
    ensures cfg.transactionalDdl && NoVersionSteps(steps) ==> KeepsVersion(p.world, LoopSpec(cfg, p, steps).world)
    decreases |steps|
  {
    if steps != [] && p.failure.None? {
      var o := ChangeSpec(cfg, p.world, steps[0].change);
      ChangeFrame(cfg, p.world, steps[0].change);
      if o.Done? {
        BookkeepFrame(cfg, o.world, p.prev, steps[0].rev);
      }
      LoopFrame(cfg, StepSpec(cfg, p, steps[0]), steps[1..]);
      NoVersionStepsTail(steps);
    }
  }

  lemma NoVersionStepsTail(steps: seq<Step>)
    requires steps != []
    ensures NoVersionSteps(steps) ==> NoVersionOps(steps[0].change.ops) && NoVersionSteps(steps[1..])
  {
    if NoVersionSteps(steps) {
      forall j | 0 <= j < |steps[1..]| ensures NoVersionOps(steps[1..][j].change.ops) {
        assert steps[1..][j] == steps[j + 1];
      }
    }
  }

  /** The loop stops at the first step that raises, and prev_rev is then the target of
      the last step that completed. */
  lemma {:induction false} LoopReaches(cfg: Cfg, p: Progress, steps: seq<Step>, k: nat)
    requires p.failure.None?
    requires k <= |steps|
    requires forall j :: 0 <= j < k ==> !ChangeRaises(cfg.asSql, steps[j].change)
    requires k < |steps| ==> ChangeRaises(cfg.asSql, steps[k].change)
    ensures LoopSpec(cfg, p, steps).prev == Reached(p.prev, steps, k)
    ensures LoopSpec(cfg, p, steps).failure.Some? <==> k < |steps|
    decreases |steps|
  {
    if steps != [] {
      ChangeRaisesIff(cfg, p.world, steps[0].change);
      if k > 0 {
        forall j | 0 <= j < k - 1 ensures !ChangeRaises(cfg.asSql, steps[1..][j].change) {
          assert steps[1..][j] == steps[j + 1];
        }
        LoopReaches(cfg, StepSpec(cfg, p, steps[0]), steps[1..], k - 1);
      }
    }
  }

  /** Non-transactional DDL: after every iteration, whether the loop goes on or stops at a
      raising step, the version table records prev_rev and holds at most one row. */
  lemma {:induction false} LoopKeepsRecord(cfg: Cfg, p: Progress, steps: seq<Step>)
    requires !cfg.asSql && !cfg.transactionalDdl
    requires NoVersionSteps(steps)
    requires Recorded(p.world.versionRows) == p.prev && |p.world.versionRows| <= 1
    ensures Recorded(LoopSpec(cfg, p, steps).world.versionRows) == LoopSpec(cfg, p, steps).prev
    ensures |LoopSpec(cfg, p, steps).world.versionRows| <= 1
    decreases |steps|
  {
    if steps != [] && p.failure.None? {
      var o := ChangeSpec(cfg, p.world, steps[0].change);
      ChangeFrame(cfg, p.world, steps[0].change);
      if o.Done? {
        BookkeepMovesRecord(cfg, o.world, p.prev, steps[0].rev);
      }
      NoVersionStepsTail(steps);
      LoopKeepsRecord(cfg, StepSpec(cfg, p, steps[0]), steps[1..]);
    }
  }

  // ---------------------------------------------------------------- the run

  /** Neither mode crosses into the other's channel: SQL-emission mode never writes the
      database and only appends output; live mode never prints. That it never reads the
      database either is SqlRunIgnoresDatabase. */
  lemma RunFrame(cfg: Cfg, w: World, start: Option<string>, steps: seq<Step>)
    ensures ModeFrame(cfg, w, RunSteps(cfg, w, start, steps).world)
  {
    var w1 := if cfg.asSql && cfg.transactionalDdl then w.(out := w.out + [BeginMarker]) else w;
    var p := LoopSpec(cfg, Progress(w1, start, None), steps);
    LoopFrame(cfg, Progress(w1, start, None), steps);
    BookkeepFrame(cfg, p.world, start, p.prev);
  }

  /** A run that completes leaves the version table recording the last step's target
      (the start, when there are no steps), in both transactional modes. */
  lemma CompletedRunRecordsFinalTarget(cfg: Cfg, w: World, start: Option<string>, steps: seq<Step>)
    requires !cfg.asSql
    requires NoVersionSteps(steps)
    requires Recorded(w.versionRows) == start && |w.versionRows| <= 1
    requires forall j :: 0 <= j < |steps| ==> !ChangeRaises(false, steps[j].change)
    ensures RunSteps(cfg, w, start, steps).Done?
    ensures Recorded(RunSteps(cfg, w, start, steps).world.versionRows) == Reached(start, steps, |steps|)
    ensures |RunSteps(cfg, w, start, steps).world.versionRows| <= 1
  {
    var p0 := Progress(w, start, None);
    LoopReaches(cfg, p0, steps, |steps|);
    var p := LoopSpec(cfg, p0, steps);
    if cfg.transactionalDdl {
      LoopFrame(cfg, p0, steps);
      BookkeepMovesRecord(cfg, p.world, start, p.prev);
    } else {
      LoopKeepsRecord(cfg, p0, steps);
    }
  }

  /** Non-transactional DDL: when step k raises after steps 0..k-1 completed, the run
      raises and the version table records the target of step k - 1 (the start if k = 0). */
  lemma NonTransactionalCrashKeepsLastCompleted(cfg: Cfg, w: World, start: Option<string>,
                                                steps: seq<Step>, k: nat)
    requires !cfg.asSql && !cfg.transactionalDdl
    requires NoVersionSteps(steps)
    requires Recorded(w.versionRows) == start && |w.versionRows| <= 1
    requires k < |steps|
    requires forall j :: 0 <= j < k ==> !ChangeRaises(false, steps[j].change)
    requires ChangeRaises(false, steps[k].change)
    ensures RunSteps(cfg, w, start, steps).Raised?
    ensures Recorded(RunSteps(cfg, w, start, steps).world.versionRows) == Reached(start, steps, k)
  {
    var p0 := Progress(w, start, None);
    LoopReaches(cfg, p0, steps, k);
    LoopKeepsRecord(cfg, p0, steps);
  }

  /** Transactional DDL: when a step raises, the run raises and the version table has not
      been written at all. */
  lemma TransactionalCrashKeepsRecord(cfg: Cfg, w: World, start: Option<string>, steps: seq<Step>, k: nat)
    requires !cfg.asSql && cfg.transactionalDdl
    requires NoVersionSteps(steps)
    requires k < |steps|
    requires forall j :: 0 <= j < k ==> !ChangeRaises(false, steps[j].change)
    requires ChangeRaises(false, steps[k].change)
    ensures RunSteps(cfg, w, start, steps).Raised?
    ensures RunSteps(cfg, w, start, steps).world.versionRows == w.versionRows
    ensures VersionStatements(RunSteps(cfg, w, start, steps).world.executed) == VersionStatements(w.executed)
  {
    var p0 := Progress(w, start, None);
    LoopReaches(cfg, p0, steps, k);
    LoopFrame(cfg, p0, steps);
  }

  /** Transactional DDL: a completed run writes the version table once, from the start to
      the last target, as the last statement it executes; an empty run writes nothing. */
  lemma TransactionalWritesOnceAfterLoop(cfg: Cfg, w: World, start: Option<string>, steps: seq<Step>)
    requires !cfg.asSql && cfg.transactionalDdl
    requires NoVersionSteps(steps)
    requires forall j :: 0 <= j < |steps| ==> !ChangeRaises(false, steps[j].change)
    ensures RunSteps(cfg, w, start, steps).Done?
    ensures var last := Reached(start, steps, |steps|);
      var ex := RunSteps(cfg, w, start, steps).world.executed;
      VersionStatements(ex) == VersionStatements(w.executed) + OptionToSeq(VersionWrite(start, last)) &&
      (start != last ==> |ex| > 0 && ex[|ex| - 1] == Execution(VersionWrite(start, last).value, [], map[]))
    ensures steps == [] ==> RunSteps(cfg, w, start, steps) == Done(w)
  {
    var p0 := Progress(w, start, None);
    LoopReaches(cfg, p0, steps, |steps|);
    LoopFrame(cfg, p0, steps);
    var p := LoopSpec(cfg, p0, steps);
    var v := VersionWrite(start, p.prev);
    if v.Some? {
      VersionStatementsAppend(p.world.executed, Execution(v.value, [], map[]));
    }
  }

  /** SQL emission with transactional DDL: a completed run's output opens with BEGIN and
      closes with COMMIT, for any number of steps; with none, those are its only lines. */
  lemma SqlTransactionalBracketing(cfg: Cfg, w: World, start: Option<string>, steps: seq<Step>)
    requires cfg.asSql && cfg.transactionalDdl
    requires forall j :: 0 <= j < |steps| ==> !ChangeRaises(true, steps[j].change)
    ensures RunSteps(cfg, w, start, steps).Done?
    ensures var out := RunSteps(cfg, w, start, steps).world.out;
      |out| >= |w.out| + 2 && out[..|w.out| + 1] == w.out + [BeginMarker] && out[|out| - 1] == CommitMarker
    ensures steps == [] ==> RunSteps(cfg, w, start, steps).world.out == w.out + [BeginMarker, CommitMarker]
  {
    var w1 := w.(out := w.out + [BeginMarker]);
    var p0 := Progress(w1, start, None);
    LoopReaches(cfg, p0, steps, |steps|);
    LoopFrame(cfg, p0, steps);
    var p := LoopSpec(cfg, p0, steps);
    BookkeepFrame(cfg, p.world, start, p.prev);
    var w2 := Bookkeep(cfg, p.world, start, p.prev);
    assert w1.out <= w2.out;
    assert (w2.out + [CommitMarker])[..|w.out| + 1] == w2.out[..|w.out| + 1] == w1.out;
  }

  /** execute() forwards a construct unchanged, so a change step that executes a version
      statement itself does write the table: the lemmas above need NoVersionSteps. */
  lemma ExecuteCanWriteVersionTable(cfg: Cfg, w: World, rev: string)
    requires !cfg.asSql
    ensures var ch := Change("change", [Op.Execute(Ddl.Clause(Ddl.VersionInsert(rev)))], false);
      ChangeSpec(cfg, w, ch) == Done(w.(versionRows := w.versionRows + [rev],
                                        executed := w.executed + [Execution(Ddl.VersionInsert(rev), [], map[])]))
  {
    var c := Ddl.VersionInsert(rev);
    var ops := [Op.Execute(Ddl.Clause(c))];
    var w' := Effect(cfg, w, Bare(c));
    assert ApplyToVersionTable(w.versionRows, c) == w.versionRows + [rev];
    assert EmitAll(cfg, w, OpCalls(ops[0])) == EmitAll(cfg, w', []) == w';
    assert ops[1..] == [];
    assert OpsSpec(cfg, w, ops) == OpsSpec(cfg, w', []);
  }

  // ---------------------------------------------------------------- SQL emission ignores the database

  /** Two outcomes that print the same lines and end the same way. */
  predicate SameOutput(o1: Outcome, o2: Outcome)
  {
    o1.world.out == o2.world.out && o1.Raised? == o2.Raised? && (o1.Raised? ==> o1.error == o2.error)
  }

  lemma {:induction false} EmitAllOutput(cfg: Cfg, w1: World, w2: World, calls: seq<Call>)
    requires cfg.asSql && w1.out == w2.out
    ensures EmitAll(cfg, w1, calls).out == EmitAll(cfg, w2, calls).out
    decreases |calls|
  {
    if calls != [] {
      EmitAllOutput(cfg, Effect(cfg, w1, calls[0]), Effect(cfg, w2, calls[0]), calls[1..]);
    }
  }

  lemma {:induction false} BulkInsertSqlOutput(cfg: Cfg, w1: World, w2: World, t: Ddl.Table, rows: seq<Ddl.Row>)
    requires cfg.asSql && w1.out == w2.out
    ensures SameOutput(BulkInsertSql(cfg, w1, t, rows), BulkInsertSql(cfg, w2, t, rows))
    decreases |rows|
  {
    if rows != [] && RowFits(t, rows[0]) {
      var call := Bare(Ddl.InsertValues(t.name, rows[0]));
      BulkInsertSqlOutput(cfg, Effect(cfg, w1, call), Effect(cfg, w2, call), t, rows[1..]);
    }
  }

  lemma {:induction false} OpsOutput(cfg: Cfg, w1: World, w2: World, ops: seq<Op>)
    requires cfg.asSql && w1.out == w2.out
    ensures SameOutput(OpsSpec(cfg, w1, ops), OpsSpec(cfg, w2, ops))
    decreases |ops|
  {
    if ops != [] {
      var op := ops[0];
      if op.BulkInsert? {
        BulkInsertSqlOutput(cfg, w1, w2, op.into, op.rows);
      } else {
        EmitAllOutput(cfg, w1, w2, OpCalls(op));
      }
      var o1, o2 := OpSpec(cfg, w1, op), OpSpec(cfg, w2, op);
      if o1.Done? {
        OpsOutput(cfg, o1.world, o2.world, ops[1..]);
      }
    }
  }

  lemma {:induction false} LoopOutput(cfg: Cfg, p1: Progress, p2: Progress, steps: seq<Step>)
    requires cfg.asSql
    requires p1.world.out == p2.world.out && p1.prev == p2.prev && p1.failure == p2.failure
    ensures var q1, q2 := LoopSpec(cfg, p1, steps), LoopSpec(cfg, p2, steps);
      q1.world.out == q2.world.out && q1.prev == q2.prev && q1.failure == q2.failure
    decreases |steps|
  {
    if steps != [] && p1.failure.None? {
      var ch := steps[0].change;
      OpsOutput(cfg, p1.world, p2.world, ch.ops);
      var o1, o2 := ChangeSpec(cfg, p1.world, ch), ChangeSpec(cfg, p2.world, ch);
      assert SameOutput(o1, o2);
      LoopOutput(cfg, StepSpec(cfg, p1, steps[0]), StepSpec(cfg, p2, steps[0]), steps[1..]);
    }
  }

  /** SQL emission: the run starts from None, so prev_rev and the revisions the
      migrations function is asked for never come from the version table, and the lines
      printed and the way the run ends do not depend on the database at all. */
  lemma SqlRunIgnoresDatabase(cfg: Cfg, w1: World, w2: World, m: Option<string> -> seq<Step>)
    requires cfg.asSql && w1.out == w2.out
    ensures RunSpec(cfg, w1, m) == RunSteps(cfg, w1, None, m(None))
    ensures SameOutput(RunSpec(cfg, w1, m), RunSpec(cfg, w2, m))
  {
    var steps := m(None);
    var b1 := if cfg.transactionalDdl then w1.(out := w1.out + [BeginMarker]) else w1;
    var b2 := if cfg.transactionalDdl then w2.(out := w2.out + [BeginMarker]) else w2;
    LoopOutput(cfg, Progress(b1, None, None), Progress(b2, None, None), steps);
  }
}
