/**
 * Stand-ins for what the migration context talks to: a live connection, whose
 * alembic_version table is a list of version_num rows, and the standard output
 * that SQL-emission mode prints to.
 */
module Database {
  import opened Wrappers
  import opened Ddl

  /** One statement executed on the live connection, with its bind arguments. */
  datatype Execution = Execution(construct: Construct, args: seq<Row>, kw: Row)

  predicate IsVersionStatement(c: Construct)
  {
    c.VersionDelete? || c.VersionInsert? || c.VersionUpdate?
  }

  /** The revision a SELECT on alembic_version yields: its first row, or None when empty. */
  function Recorded(rows: seq<string>): Option<string>
  {
    if rows == [] then None else Some(rows[0])
  }

  /** The rows of alembic_version after executing a construct. Only the three version
      statements touch the table; raw text is not interpreted. */
  function ApplyToVersionTable(rows: seq<string>, c: Construct): (r: seq<string>)
    ensures !IsVersionStatement(c) ==> r == rows
    ensures c.VersionDelete? ==> r == []
    ensures c.VersionInsert? ==> r == rows + [c.rev]
    ensures c.VersionUpdate? ==> |r| == |rows| && forall i :: 0 <= i < |r| ==> r[i] == c.rev
  {
    match c
    case VersionDelete => []
    case VersionInsert(v) => rows + [v]
    case VersionUpdate(v) => seq(|rows|, _ => v)
    case _ => rows
  }

  /** The statements among executions that wrote the version table, in order. */
  function VersionStatements(execs: seq<Execution>): (r: seq<Construct>)
    ensures |r| <= |execs|
    ensures forall i :: 0 <= i < |r| ==> IsVersionStatement(r[i])
  {
    if execs == [] then []
    else
      VersionStatements(execs[..|execs| - 1])
      + (if IsVersionStatement(execs[|execs| - 1].construct) then [execs[|execs| - 1].construct] else [])
  }

  class Connection {
    const dialect: Dialect
    var versionRows: seq<string>
    var executed: seq<Execution>

    constructor (dialect: Dialect, versionRows: seq<string>)
      ensures this.dialect == dialect && this.versionRows == versionRows && executed == []
    {
      this.dialect := dialect;
      this.versionRows := versionRows;
      executed := [];
    }

    /** connection.scalar(_version.select()) */
    method ScalarVersion() returns (r: Option<string>)
      ensures r == Recorded(versionRows)
      ensures r.Some? ==> r.value in versionRows
    {
      if versionRows == [] {
        r := None;
      } else {
        r := Some(versionRows[0]);
      }
    }

    /** connection.execute(construct, *args, **kw) */
    method Execute(c: Construct, args: seq<Row>, kw: Row)
      modifies this
      ensures versionRows == ApplyToVersionTable(old(versionRows), c)
      ensures executed == old(executed) + [Execution(c, args, kw)]
    {
      versionRows := ApplyToVersionTable(versionRows, c);
      executed := executed + [Execution(c, args, kw)];
    }
  }

  /** Standard output: every print call is one entry. */
  class Console {
    var lines: seq<string>

    constructor ()
      ensures lines == []
    {
      lines := [];
    }

    method Print(s: string)
      modifies this
      ensures lines == old(lines) + [s]
    {
      lines := lines + [s];
    }
  }
}
