/** The MySQL DDL generator: the text it produces, as functions of the schema
    snapshot, and the class MySQL whose methods build that text line by line
    into a buffer while keeping the run's list of foreign-key names. */
module MySql {
  import opened Schema
  import opened Util
  import opened SqlHelper

  // ---------------------------------------------------------------------------
  // The output, as functions of the snapshot
  // ---------------------------------------------------------------------------

  /** The five lines that open every script. */
  function Preamble(databaseName: string): seq<string>
  {
    ["DROP SCHEMA IF EXISTS " + databaseName + ";",
     "",
     "CREATE SCHEMA " + databaseName + " DEFAULT CHARACTER SET utf8;",
     "USE " + databaseName + ";",
     ""]
  }

  /** The widths cover the column: its name and data type need no negative padding. */
  predicate Fits(column: Column, size: MaxLength)
  {
    |column.name| <= size.name && |column.dataType| <= size.dataType
  }

  /** The nullability token; both spellings are eight characters wide. */
  function NullToken(column: Column): string
  {
    if column.option.notNull then "NOT NULL" else "NULL    "
  }

  /** The aligned part of a column line: name, data type and nullability,
      each padded to the table's width. */
  function ColumnHead(column: Column, size: MaxLength): string
    requires Fits(column, size)
  {
    NamePart(column, size) + " " + DataTypePart(column, size) + " " + NullToken(column)
  }

  function NamePart(column: Column, size: MaxLength): string
    requires Fits(column, size)
  {
    "  " + column.name + FormatSpace(size.name - |column.name|)
  }

  function DataTypePart(column: Column, size: MaxLength): string
    requires Fits(column, size)
  {
    column.dataType + FormatSpace(size.dataType - |column.dataType|)
  }

  /** AUTO_INCREMENT when set; otherwise DEFAULT with the default value when it is not blank. */
  function ValueWords(column: Column): seq<string>
  {
    if column.option.autoIncrement then ["AUTO_INCREMENT"]
    else if !IsBlank(column.default) then ["DEFAULT " + column.default]
    else []
  }

  function CommentWords(column: Column): seq<string>
  {
    if IsBlank(column.comment) then [] else ["COMMENT '" + column.comment + "'"]
  }

  /** The space-separated words of one column's definition. */
  function ColumnWords(column: Column, size: MaxLength): seq<string>
    requires Fits(column, size)
  {
    [NamePart(column, size), DataTypePart(column, size), NullToken(column)]
    + ValueWords(column) + CommentWords(column)
  }

  /** One column's definition, without the list comma. */
  function ColumnDefinition(column: Column, size: MaxLength): string
    requires Fits(column, size)
  {
    Join(ColumnWords(column, size), " ")
  }

  function ColumnLine(column: Column, isComma: bool, size: MaxLength): string
    requires Fits(column, size)
  {
    ColumnDefinition(column, size) + (if isComma then "," else "")
  }

  /** Column `i` carries a comma unless it is the last one and no PRIMARY KEY line follows. */
  predicate HasComma(columns: seq<Column>, pk: bool, i: nat)
  {
    pk || |columns| != i + 1
  }

  function ColumnLines(columns: seq<Column>, pk: bool, size: MaxLength): (r: seq<string>)
    requires forall c :: c in columns ==> Fits(c, size)
    ensures |r| == |columns|
  {
    seq(|columns|, i requires 0 <= i < |columns| => ColumnLine(columns[i], HasComma(columns, pk, i), size))
  }

  function PrimaryKeyLine(columns: seq<Column>): string
  {
    "  PRIMARY KEY (" + FormatNames(PrimaryKeyColumns(columns)) + ")"
  }

  function ClosingLine(comment: string): string
  {
    if IsBlank(comment) then ");" else ") COMMENT '" + comment + "';"
  }

  /** The first line of a table's block. */
  function CreateTableLine(table: Table): string
  {
    "CREATE TABLE " + table.name
  }

  /** The CREATE TABLE block of one table. */
  function TableBlock(table: Table): seq<string>
  {
    var pk := PrimaryKey(table.columns);
    [CreateTableLine(table), "("]
    + ColumnLines(table.columns, pk, FormatSize(table.columns))
    + (if pk then [PrimaryKeyLine(table.columns)] else [])
    + [ClosingLine(table.comment)]
  }

  function UniqueStatement(tableName: string, column: Column): seq<string>
  {
    ["ALTER TABLE " + tableName,
     "  ADD CONSTRAINT UQ_" + column.name + " UNIQUE (" + column.name + ");",
     ""]
  }

  /** One three-line unique statement per column, in order. */
  function UniqueStatements(tableName: string, columns: seq<Column>): seq<string>
  {
    FlatMap(columns, (column: Column) => UniqueStatement(tableName, column))
  }

  function UniqueLines(table: Table): seq<string>
  {
    if Unique(table.columns) then UniqueStatements(table.name, UniqueColumns(table.columns)) else []
  }

  /** What one table contributes: its block, a blank line, its unique statements. */
  function TableSection(table: Table): seq<string>
  {
    TableBlock(table) + [""] + UniqueLines(table)
  }

  function TableSections(tables: seq<Table>): seq<string>
  {
    FlatMap(tables, TableSection)
  }

  /** The columns of `columns` named by `ids`, in the order of `ids`;
      an id that names no column is dropped. */
  function ResolveColumns(columns: seq<Column>, ids: seq<string>): seq<Column>
  {
    if ids == [] then []
    else
      var rest := ResolveColumns(columns, ids[..|ids| - 1]);
      match GetData(columns, ColumnId, ids[|ids| - 1])
      case Some(c) => rest + [c]
      case None => rest
  }

  /** The lines a relationship contributes and the foreign-key names afterwards. */
  datatype RelationOutput = RelationOutput(lines: seq<string>, fkNames: seq<string>)

  function ForeignKeyBase(startTable: Table, endTable: Table): string
  {
    "FK_" + startTable.name + "_TO_" + endTable.name
  }

  /** The foreign-key block of one relationship, given the names already used in the run. */
  function RelationBlock(tables: seq<Table>, relationship: Relationship, fkNames: seq<string>): RelationOutput
  {
    match (GetData(tables, TableId, relationship.start.tableId), GetData(tables, TableId, relationship.end.tableId))
    case (Some(startTable), Some(endTable)) =>
      var fkName := AutoName(fkNames, ForeignKeyBase(startTable, endTable));
      RelationOutput(
        ["ALTER TABLE " + endTable.name,
         "  ADD CONSTRAINT " + fkName,
         "    FOREIGN KEY (" + FormatNames(ResolveColumns(endTable.columns, relationship.end.columnIds)) + ")",
         "    REFERENCES " + startTable.name
           + " (" + FormatNames(ResolveColumns(startTable.columns, relationship.start.columnIds)) + ");"],
        fkNames + [fkName])
    case _ => RelationOutput([], fkNames)
  }

  /** The relationships in order, each block followed by a blank line. */
  function RelationsRun(tables: seq<Table>, relationships: seq<Relationship>, fkNames: seq<string>): RelationOutput
  {
    if relationships == [] then RelationOutput([], fkNames)
    else
      var before := RelationsRun(tables, relationships[..|relationships| - 1], fkNames);
      var block := RelationBlock(tables, relationships[|relationships| - 1], before.fkNames);
      RelationOutput(before.lines + block.lines + [""], block.fkNames)
  }

  /** Every line of the script, for a run that starts with no foreign-key names. */
  function DdlLines(databaseName: string, tables: seq<Table>, relationships: seq<Relationship>): seq<string>
  {
    Preamble(databaseName) + TableSections(tables) + RelationsRun(tables, relationships, []).lines
  }

  function Ddl(databaseName: string, tables: seq<Table>, relationships: seq<Relationship>): string
  {
    Join(DdlLines(databaseName, tables, relationships), "\n")
  }

  // ---------------------------------------------------------------------------
  // The generator
  // ---------------------------------------------------------------------------

  /** The CREATE TABLE block laid out from its parts, appended to `buffer`. */
  lemma TableBlockParts(table: Table, buffer: seq<string>, lines: seq<string>, pkLines: seq<string>, out: seq<string>)
    requires lines == ColumnLines(table.columns, PrimaryKey(table.columns), FormatSize(table.columns))
    requires pkLines == if PrimaryKey(table.columns) then [PrimaryKeyLine(table.columns)] else []
    requires out == buffer + [CreateTableLine(table)] + ["("] + lines + pkLines + [ClosingLine(table.comment)]
    ensures out == buffer + TableBlock(table)
  {
  }

  lemma ColumnFits(columns: seq<Column>, i: nat)
    requires i < |columns|
    ensures Fits(columns[i], FormatSize(columns))
  {
    assert columns[i] in columns;
  }

  lemma ColumnLinesStep(columns: seq<Column>, pk: bool, size: MaxLength, i: nat,
                        head: seq<string>, prev: seq<string>, next: seq<string>)
    requires i < |columns|
    requires forall c :: c in columns ==> Fits(c, size)
    requires prev == head + ColumnLines(columns, pk, size)[..i]
    requires next == prev + [ColumnLine(columns[i], HasComma(columns, pk, i), size)]
    ensures next == head + ColumnLines(columns, pk, size)[..i + 1]
  {
    var lines := ColumnLines(columns, pk, size);
    assert lines[..i + 1] == lines[..i] + [lines[i]];
  }

  lemma UniqueStatementsStep(tableName: string, columns: seq<Column>, j: nat, start: seq<string>,
                             prev: seq<string>, next: seq<string>)
    requires j < |columns|
    requires prev == start + UniqueStatements(tableName, columns[..j])
    requires next == prev + ["ALTER TABLE " + tableName]
                          + ["  ADD CONSTRAINT UQ_" + columns[j].name + " UNIQUE (" + columns[j].name + ");"]
                          + [""]
    ensures next == start + UniqueStatements(tableName, columns[..j + 1])
  {
    FlatMapSnoc(columns, j, (column: Column) => UniqueStatement(tableName, column));
    assert next == prev + UniqueStatement(tableName, columns[j]);
  }

  lemma TableSectionsStep(tables: seq<Table>, i: nat, start: seq<string>, before: seq<string>,
                          afterBlock: seq<string>, next: seq<string>)
    requires i < |tables|
    requires before == start + TableSections(tables[..i])
    requires afterBlock == before + TableBlock(tables[i]) + [""]
    requires next == afterBlock + UniqueLines(tables[i])
    ensures next == start + TableSections(tables[..i + 1])
  {
    FlatMapSnoc(tables, i, TableSection);
    AppendAssociates(start, TableSections(tables[..i]), TableBlock(tables[i]) + [""], UniqueLines(tables[i]));
  }

  lemma AppendAssociates<T>(a: seq<T>, b: seq<T>, c: seq<T>, d: seq<T>)
    ensures a + b + c + d == a + (b + (c + d))
  {
  }

  lemma RelationsRunStep(tables: seq<Table>, relationships: seq<Relationship>, k: nat, start: seq<string>,
                         before: seq<string>, namesBefore: seq<string>, next: seq<string>, namesNext: seq<string>)
    requires k < |relationships|
    requires before == start + RelationsRun(tables, relationships[..k], []).lines
    requires namesBefore == RelationsRun(tables, relationships[..k], []).fkNames
    requires next == before + RelationBlock(tables, relationships[k], namesBefore).lines + [""]
    requires namesNext == RelationBlock(tables, relationships[k], namesBefore).fkNames
    ensures next == start + RelationsRun(tables, relationships[..k + 1], []).lines
    ensures namesNext == RelationsRun(tables, relationships[..k + 1], []).fkNames
  {
    var prefix := relationships[..k + 1];
    assert prefix[..k] == relationships[..k];
    assert prefix[k] == relationships[k];
    var run := RelationsRun(tables, relationships[..k], []);
    var block := RelationBlock(tables, relationships[k], namesBefore);
    assert RelationsRun(tables, prefix, []) == RelationOutput(run.lines + block.lines + [""], block.fkNames);
  }

  lemma RelationBlockResolved(tables: seq<Table>, relationship: Relationship, fkNames: seq<string>,
                              buffer: seq<string>, out: seq<string>, namesAfter: seq<string>)
    requires GetData(tables, TableId, relationship.start.tableId).Some?
    requires GetData(tables, TableId, relationship.end.tableId).Some?
    requires var startTable := GetData(tables, TableId, relationship.start.tableId).value;
      var endTable := GetData(tables, TableId, relationship.end.tableId).value;
      var fkName := AutoName(fkNames, ForeignKeyBase(startTable, endTable));
      namesAfter == fkNames + [fkName]
      && out == buffer + ["ALTER TABLE " + endTable.name]
                       + ["  ADD CONSTRAINT " + fkName]
                       + ["    FOREIGN KEY (" + FormatNames(ResolveColumns(endTable.columns, relationship.end.columnIds)) + ")"]
                       + ["    REFERENCES " + startTable.name
                            + " (" + FormatNames(ResolveColumns(startTable.columns, relationship.start.columnIds)) + ");"]
    ensures out == buffer + RelationBlock(tables, relationship, fkNames).lines
    ensures namesAfter == RelationBlock(tables, relationship, fkNames).fkNames
  {
  }

  class MySQL {
    /** The foreign-key names issued so far in the current run. */
    var fkNames: seq<string>

    constructor ()
      ensures fkNames == []
    {
      fkNames := [];
    }

    /** toDDL: the script for the snapshot. The name list is reset first, so
        neither the script nor the names left afterwards depend on earlier runs. */
    method ToDDL(databaseName: string, tables: seq<Table>, relationships: seq<Relationship>) returns (ddl: string)
      modifies this
      ensures ddl == Ddl(databaseName, tables, relationships)
      ensures fkNames == RelationsRun(tables, relationships, []).fkNames
    {
      fkNames := [];
      var buffer: seq<string> := [];
      buffer := buffer + ["DROP SCHEMA IF EXISTS " + databaseName + ";"];
      buffer := buffer + [""];
      buffer := buffer + ["CREATE SCHEMA " + databaseName + " DEFAULT CHARACTER SET utf8;"];
      buffer := buffer + ["USE " + databaseName + ";"];
      buffer := buffer + [""];
      ghost var preamble := buffer;
      assert preamble == Preamble(databaseName);

      var i := 0;
      while i < |tables|
        invariant 0 <= i <= |tables|
        invariant buffer == preamble + TableSections(tables[..i])
        invariant fkNames == []
      {
        var table := tables[i];
        ghost var before := buffer;
        buffer := FormatTable(table, buffer);
        buffer := buffer + [""];
        ghost var afterBlock := buffer;
        buffer := FormatUniques(table, buffer);
        TableSectionsStep(tables, i, preamble, before, afterBlock, buffer);
        i := i + 1;
      }
      assert tables[..i] == tables;

      ghost var tablesDone := buffer;
      var k := 0;
      assert relationships[..k] == [];
      while k < |relationships|
        invariant 0 <= k <= |relationships|
        invariant buffer == tablesDone + RelationsRun(tables, relationships[..k], []).lines
        invariant fkNames == RelationsRun(tables, relationships[..k], []).fkNames
      {
        ghost var before := buffer;
        ghost var namesBefore := fkNames;
        buffer := FormatRelation(tables, relationships[k], buffer);
        buffer := buffer + [""];
        RelationsRunStep(tables, relationships, k, tablesDone, before, namesBefore, buffer, fkNames);
        k := k + 1;
      }
      assert relationships[..k] == relationships;

      ddl := Join(buffer, "\n");
    }

    /** The unique constraints toDDL appends after a table's block: three lines
        per unique column, in column order. */
    method FormatUniques(table: Table, buffer: seq<string>) returns (out: seq<string>)
      ensures out == buffer + UniqueLines(table)
    {
      out := buffer;
      if Unique(table.columns) {
        var uqColumns := UniqueColumns(table.columns);
        var j := 0;
        while j < |uqColumns|
          invariant 0 <= j <= |uqColumns|
          invariant out == buffer + UniqueStatements(table.name, uqColumns[..j])
        {
          var column := uqColumns[j];
          ghost var prev := out;
          out := out + ["ALTER TABLE " + table.name];
          out := out + ["  ADD CONSTRAINT UQ_" + column.name + " UNIQUE (" + column.name + ");"];
          out := out + [""];
          UniqueStatementsStep(table.name, uqColumns, j, buffer, prev, out);
          j := j + 1;
        }
        assert uqColumns[..j] == uqColumns;
      }
    }

    /** formatTable: appends the table's CREATE TABLE block to `buffer`. */
    method FormatTable(table: Table, buffer: seq<string>) returns (out: seq<string>)
      ensures out == buffer + TableBlock(table)
    {
      out := buffer + ["CREATE TABLE " + table.name];
      out := out + ["("];
      var pk := PrimaryKey(table.columns);
      var spaceSize := FormatSize(table.columns);
      ghost var head := out;
      ghost var lines := ColumnLines(table.columns, pk, spaceSize);

      var i := 0;
      while i < |table.columns|
        invariant 0 <= i <= |table.columns|
        invariant out == head + lines[..i]
      {
        var column := table.columns[i];
        ColumnFits(table.columns, i);
        ghost var prev := out;
        if pk {
          // every column line takes a comma: the PRIMARY KEY line follows (pk is true here)
          out := FormatColumn(column, pk, spaceSize, out);
        } else {
          out := FormatColumn(column, |table.columns| != i + 1, spaceSize, out);
        }
        ColumnLinesStep(table.columns, pk, spaceSize, i, head, prev, out);
        i := i + 1;
      }
      assert lines[..i] == lines;

      ghost var body := out;
      ghost var pkLines := if pk then [PrimaryKeyLine(table.columns)] else [];
      if pk {
        var pkColumns := PrimaryKeyColumns(table.columns);
        out := out + ["  PRIMARY KEY (" + FormatNames(pkColumns) + ")"];
      }
      assert out == body + pkLines;
      ghost var closed := out;
      if IsBlank(table.comment) {
        out := out + [");"];
      } else {
        out := out + [") COMMENT '" + table.comment + "';"];
      }
      assert out == closed + [ClosingLine(table.comment)];
      TableBlockParts(table, buffer, lines, pkLines, out);
    }

    /** formatColumn: appends one column line, built from space-separated parts. */
    method FormatColumn(column: Column, isComma: bool, spaceSize: MaxLength, buffer: seq<string>)
      returns (out: seq<string>)
      requires Fits(column, spaceSize)
      ensures out == buffer + [ColumnLine(column, isComma, spaceSize)]
    {
      var parts: seq<string> := [];
      parts := parts + ["  " + column.name + FormatSpace(spaceSize.name - |column.name|)];
      parts := parts + [column.dataType + FormatSpace(spaceSize.dataType - |column.dataType|)];
      parts := parts + [if column.option.notNull then "NOT NULL" else "NULL    "];
      if column.option.autoIncrement {
        parts := parts + ["AUTO_INCREMENT"];
      } else {
        if !IsBlank(column.default) {
          parts := parts + ["DEFAULT " + column.default];
        }
      }
      if !IsBlank(column.comment) {
        parts := parts + ["COMMENT '" + column.comment + "'"];
      }
      assert parts == ColumnWords(column, spaceSize);
      out := buffer + [Join(parts, " ") + (if isComma then "," else "")];
    }

    /** formatRelation: appends the foreign-key block when both tables resolve,
        recording the constraint name it issues; otherwise appends nothing. */
    method FormatRelation(tables: seq<Table>, relationship: Relationship, buffer: seq<string>)
      returns (out: seq<string>)
      modifies this
      ensures out == buffer + RelationBlock(tables, relationship, old(fkNames)).lines
      ensures fkNames == RelationBlock(tables, relationship, old(fkNames)).fkNames
    {
      var startTable := GetData(tables, TableId, relationship.start.tableId);
      var endTable := GetData(tables, TableId, relationship.end.tableId);
      ghost var names := fkNames;
      out := buffer;

      if startTable.Some? && endTable.Some? {
        out := out + ["ALTER TABLE " + endTable.value.name];

        var fkName := "FK_" + startTable.value.name + "_TO_" + endTable.value.name;
        assert fkName == ForeignKeyBase(startTable.value, endTable.value);
        fkName := AutoName(fkNames, fkName);
        fkNames := fkNames + [fkName];
        out := out + ["  ADD CONSTRAINT " + fkName];

        var endColumns := CollectColumns(endTable.value.columns, relationship.end.columnIds);
        var startColumns := CollectColumns(startTable.value.columns, relationship.start.columnIds);

        out := out + ["    FOREIGN KEY (" + FormatNames(endColumns) + ")"];
        out := out + ["    REFERENCES " + startTable.value.name + " (" + FormatNames(startColumns) + ");"];
        RelationBlockResolved(tables, relationship, names, buffer, out, fkNames);
      } else {
        assert RelationBlock(tables, relationship, names) == RelationOutput([], names);
      }
    }

    /** The key-column loops of formatRelation: the columns the ids name, in id
        order, skipping ids that name no column. */
    method CollectColumns(columns: seq<Column>, ids: seq<string>) returns (found: seq<Column>)
      ensures found == ResolveColumns(columns, ids)
    {
      found := [];
      var i := 0;
      while i < |ids|
        invariant 0 <= i <= |ids|
        invariant found == ResolveColumns(columns, ids[..i])
      {
        var column := GetData(columns, ColumnId, ids[i]);
        if column.Some? {
          found := found + [column.value];
        }
        assert ids[..i + 1][..i] == ids[..i];
        i := i + 1;
      }
      assert ids[..i] == ids;
    }
  }
}
