/**
 * The statement units the migration context sends through its execution gateway:
 * the version-table statements, the DDL constructs of alter_column, add_column,
 * create_table and friends, and the inserts of bulk_insert. A dialect compiles each
 * of them to SQL text; the compiler itself is SQLAlchemy's and stays abstract here.
 */
module Ddl {
  import opened Wrappers

  /** A literal value in a bulk-insert row. */
  datatype Value = IntValue(i: int) | StrValue(s: string) | NullValue

  /** A row of a bulk insert: column name to value. */
  type Row = map<string, Value>

  datatype Index = Index(name: string, columns: seq<string>)

  /** A table definition: its name, its column names and its indexes, in declaration order. */
  datatype Table = Table(name: string, columns: set<string>, indexes: seq<Index>)

  datatype Construct =
    | Text(sql: string)
      // the alembic_version table: DELETE, INSERT (version_num = rev), UPDATE SET version_num = rev
    | VersionDelete
    | VersionInsert(rev: string)
    | VersionUpdate(rev: string)
      // alter_column's three primitives
    | ColumnNullable(table: string, column: string, nullable: bool, schema: Option<string>)
    | ColumnDefault(table: string, column: string, defaultExpr: Option<string>, schema: Option<string>)
    | ColumnType(table: string, column: string, typeName: string, schema: Option<string>)
    | AddColumn(table: string, column: string)
    | DropColumn(table: string, column: string)
    | AddConstraint(constraint: string)
    | CreateTable(definition: Table)
    | CreateIndex(index: Index)
    | DropTable(definition: Table)
      // table.insert() with no values: the rows travel as bind parameters
    | Insert(target: string)
      // table.insert().values(...) with every value rendered as a literal
    | InsertValues(target: string, row: Row)

  /** What a caller hands to the gateway: raw SQL text, or a construct. */
  datatype Executable = SqlString(sql: string) | Clause(construct: Construct)

  /** A string is first wrapped as a text construct; a construct passes unchanged. */
  function Wrap(e: Executable): (c: Construct)
    ensures e.SqlString? ==> c == Text(e.sql)
    ensures e.Clause? ==> c == e.construct
  {
    match e
    case SqlString(s) => Text(s)
    case Clause(c) => c
  }

  /** A database dialect: its name and how it compiles a construct to SQL text. */
  datatype Dialect = Dialect(name: string, compile: Construct -> string)

  function TabCount(s: string): nat
  {
    if s == [] then 0 else (if s[0] == '\t' then 1 else 0) + TabCount(s[1..])
  }

  /** Every tab character replaced by four spaces. */
  function ExpandTabs(s: string): (r: string)
    ensures forall i :: 0 <= i < |r| ==> r[i] != '\t'
    ensures |r| == |s| + 3 * TabCount(s)
  {
    if s == [] then []
    else (if s[0] == '\t' then "    " else [s[0]]) + ExpandTabs(s[1..])
  }

  lemma {:induction false} ExpandTabsKeepsTabFree(s: string)
    requires forall i :: 0 <= i < |s| ==> s[i] != '\t'
    ensures ExpandTabs(s) == s
  {
    if s != [] {
      ExpandTabsKeepsTabFree(s[1..]);
    }
  }

  lemma {:induction false} ExpandTabsDistributes(a: string, b: string)
    ensures ExpandTabs(a + b) == ExpandTabs(a) + ExpandTabs(b)
  {
    if a == [] {
      assert a + b == b;
    } else {
      assert (a + b)[0] == a[0];
      assert (a + b)[1..] == a[1..] + b;
      ExpandTabsDistributes(a[1..], b);
    }
  }

  /** The line the gateway prints for a construct in SQL-emission mode. */
  function SqlLine(d: Dialect, c: Construct): string
  {
    ExpandTabs(d.compile(c)) + ";"
  }

  /** The printed line is the compiled text with its tabs expanded, then a terminating ';'. */
  lemma SqlLineShape(d: Dialect, c: Construct)
    ensures var line := SqlLine(d, c);
      |line| >= 1 && line[|line| - 1] == ';' &&
      (forall i :: 0 <= i < |line| ==> line[i] != '\t') &&
      line[..|line| - 1] == ExpandTabs(d.compile(c)) &&
      |line| == |d.compile(c)| + 3 * TabCount(d.compile(c)) + 1
  {
  }
}
