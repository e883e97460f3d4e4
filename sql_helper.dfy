/** The helpers the MySQL generator takes from its SQL helper module:
    column width metrics, padding, name lists and key-column selection. */
module SqlHelper {
  import opened Schema
  import opened Util

  /** Column Width Metrics: the longest column name and the longest data type of a table. */
  datatype MaxLength = MaxLength(name: nat, dataType: nat)

  /** formatSize: the widest name and widest data type; both 0 for a table without columns. */
  function FormatSize(columns: seq<Column>): (r: MaxLength)
    ensures forall c :: c in columns ==> |c.name| <= r.name && |c.dataType| <= r.dataType
    ensures columns == [] ==> r == MaxLength(0, 0)
    ensures columns != [] ==> (exists c :: c in columns && |c.name| == r.name)
    ensures columns != [] ==> (exists c :: c in columns && |c.dataType| == r.dataType)
  {
    if columns == [] then MaxLength(0, 0)
    else
      var rest := FormatSize(columns[1..]);
      var c := columns[0];
      assert forall d :: d in columns ==> d == c || d in columns[1..];
      assert forall d :: d in columns[1..] ==> d in columns;
      MaxLength(if |c.name| > rest.name then |c.name| else rest.name,
                if |c.dataType| > rest.dataType then |c.dataType| else rest.dataType)
  }

  /** formatSpace: `n` spaces. */
  function FormatSpace(n: nat): (r: string)
    ensures |r| == n
    ensures forall i :: 0 <= i < n ==> r[i] == ' '
  {
    if n == 0 then "" else FormatSpace(n - 1) + " "
  }

  /** The separator formatNames puts between column names. */
  const NameSeparator: string := ", "

  function ColumnNames(columns: seq<Column>): (r: seq<string>)
    ensures |r| == |columns|
    ensures forall i :: 0 <= i < |columns| ==> r[i] == columns[i].name
  {
    seq(|columns|, i requires 0 <= i < |columns| => columns[i].name)
  }

  /** formatNames: the column names, in order, separated by commas. */
  function FormatNames(columns: seq<Column>): string
  {
    Join(ColumnNames(columns), NameSeparator)
  }

  /** The columns whose option satisfies `flag`, in column order. */
  function ColumnsWith(columns: seq<Column>, flag: ColumnOption -> bool): (r: seq<Column>)
    ensures forall c :: c in r ==> c in columns && flag(c.option)
    ensures forall c :: c in columns && flag(c.option) ==> c in r
    ensures |r| <= |columns|
  {
    if columns == [] then []
    else
      var rest := ColumnsWith(columns[..|columns| - 1], flag);
      var last := columns[|columns| - 1];
      assert columns == columns[..|columns| - 1] + [last];
      if flag(last.option) then rest + [last] else rest
  }

  /** Filtering distributes over concatenation: the kept columns stay in
      column order, each flagged column once. */
  lemma {:induction false} ColumnsWithConcat(a: seq<Column>, b: seq<Column>, flag: ColumnOption -> bool)
    ensures ColumnsWith(a + b, flag) == ColumnsWith(a, flag) + ColumnsWith(b, flag)
    decreases |b|
  {
    if b == [] {
      assert a + b == a;
    } else {
      var init := b[..|b| - 1];
      assert (a + b)[..|a + b| - 1] == a + init;
      assert (a + b)[|a + b| - 1] == b[|b| - 1];
      ColumnsWithConcat(a, init, flag);
    }
  }

  /** A single column is kept exactly when it has the flag. */
  lemma ColumnsWithOne(c: Column, flag: ColumnOption -> bool)
    ensures ColumnsWith([c], flag) == if flag(c.option) then [c] else []
  {
    assert [c][..0] == [];
  }

  function IsPrimaryKey(o: ColumnOption): bool { o.primaryKey }

  function IsUnique(o: ColumnOption): bool { o.unique }

  /** primaryKey: some column is flagged primary key. */
  predicate PrimaryKey(columns: seq<Column>)
  {
    exists c :: c in columns && c.option.primaryKey
  }

  /** unique: some column is flagged unique. */
  predicate Unique(columns: seq<Column>)
  {
    exists c :: c in columns && c.option.unique
  }

  /** primaryKeyColumns: the primary-key columns, in column order;
      there is one exactly when the table has a primary key. */
  function PrimaryKeyColumns(columns: seq<Column>): (r: seq<Column>)
    ensures forall c :: c in r <==> c in columns && c.option.primaryKey
    ensures r != [] <==> PrimaryKey(columns)
  {
    var r := ColumnsWith(columns, IsPrimaryKey);
    assert r != [] ==> r[0] in r;
    r
  }

  /** The primary-key columns of a concatenation are those of each part, in
      order; a single column contributes itself exactly when it is a primary key. */
  lemma PrimaryKeyColumnsInOrder(a: seq<Column>, b: seq<Column>, c: Column)
    ensures PrimaryKeyColumns(a + b) == PrimaryKeyColumns(a) + PrimaryKeyColumns(b)
    ensures PrimaryKeyColumns([c]) == if c.option.primaryKey then [c] else []
  {
    ColumnsWithConcat(a, b, IsPrimaryKey);
    ColumnsWithOne(c, IsPrimaryKey);
  }

  /** uniqueColumns: the unique columns, in column order;
      there is one exactly when some column is unique. */
  function UniqueColumns(columns: seq<Column>): (r: seq<Column>)
    ensures forall c :: c in r <==> c in columns && c.option.unique
    ensures r != [] <==> Unique(columns)
  {
    var r := ColumnsWith(columns, IsUnique);
    assert r != [] ==> r[0] in r;
    r
  }

  /** The unique columns of a concatenation are those of each part, in order;
      a single column contributes itself exactly when it is unique. */
  lemma UniqueColumnsInOrder(a: seq<Column>, b: seq<Column>, c: Column)
    ensures UniqueColumns(a + b) == UniqueColumns(a) + UniqueColumns(b)
    ensures UniqueColumns([c]) == if c.option.unique then [c] else []
  {
    ColumnsWithConcat(a, b, IsUnique);
    ColumnsWithOne(c, IsUnique);
  }

  /** A table has a primary key exactly when one of its parts does; a single
      column has one exactly when its flag is set. */
  lemma PrimaryKeyConcat(a: seq<Column>, b: seq<Column>, c: Column)
    ensures PrimaryKey(a + b) <==> PrimaryKey(a) || PrimaryKey(b)
    ensures PrimaryKey([c]) <==> c.option.primaryKey
  {
    assert forall d :: d in a + b <==> d in a || d in b;
    assert c in [c];
  }

  /** A table has a unique column exactly when one of its parts does; a single
      column is one exactly when its flag is set. */
  lemma UniqueConcat(a: seq<Column>, b: seq<Column>, c: Column)
    ensures Unique(a + b) <==> Unique(a) || Unique(b)
    ensures Unique([c]) <==> c.option.unique
  {
    assert forall d :: d in a + b <==> d in a || d in b;
    assert c in [c];
  }

  /** formatNames of no columns is empty and of one column is its name. */
  lemma FormatNamesOne(c: Column)
    ensures FormatNames([]) == ""
    ensures FormatNames([c]) == c.name
  {
  }

  /** Each further column adds the separator and its name at the end. */
  lemma FormatNamesAppend(a: seq<Column>, c: Column)
    requires a != []
    ensures FormatNames(a + [c]) == FormatNames(a) + NameSeparator + c.name
  {
    assert ColumnNames(a + [c]) == ColumnNames(a) + [c.name];
    JoinAppend(ColumnNames(a), c.name, NameSeparator);
  }

  /** The characters String.prototype.trim removes (the ASCII ones). */
  predicate IsSpace(ch: char)
  {
    ch == ' ' || ch == '\t' || ch == '\n' || ch == '\r' || ch == '\U{C}' || ch == '\U{B}'
  }

  /** `s.trim() === ""`: the text is empty or only white space. */
  predicate IsBlank(s: string)
  {
    forall i :: 0 <= i < |s| ==> IsSpace(s[i])
  }

  /** `s` without its leading white space. */
  function TrimStart(s: string): (r: string)
    ensures |r| <= |s| && r == s[|s| - |r|..]
    ensures r != [] ==> !IsSpace(r[0])
    ensures forall i :: 0 <= i < |s| - |r| ==> IsSpace(s[i])
  {
    if s != [] && IsSpace(s[0]) then
      var r := TrimStart(s[1..]);
      assert forall i :: 1 <= i < |s| - |r| ==> s[i] == s[1..][i - 1];
      r
    else s
  }

  /** `s` without its trailing white space. */
  function TrimEnd(s: string): (r: string)
    ensures |r| <= |s| && r == s[..|r|]
    ensures r != [] ==> !IsSpace(r[|r| - 1])
    ensures forall i :: |r| <= i < |s| ==> IsSpace(s[i])
  {
    if s != [] && IsSpace(s[|s| - 1]) then
      var r := TrimEnd(s[..|s| - 1]);
      assert forall i :: |r| <= i < |s| - 1 ==> s[i] == s[..|s| - 1][i];
      r
    else s
  }

  /** String.prototype.trim, for the ASCII white-space characters. */
  function Trim(s: string): string
  {
    TrimEnd(TrimStart(s))
  }

  /** The blank test used throughout is exactly `trim() === ""`. */
  lemma BlankIffTrimmedEmpty(s: string)
    ensures IsBlank(s) <==> Trim(s) == ""
  {
  }
}
