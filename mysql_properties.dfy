/** What the generated script promises: the preamble, table order, the comma
    rule, the PRIMARY KEY and closing lines, column alignment, the value and
    comment clauses, unique statements, and the foreign-key blocks with their
    run-scoped constraint names. */
module MySqlProperties {
  import opened Schema
  import opened Util
  import opened SqlHelper
  import opened MySql

  // ---------------------------------------------------------------------------
  // Preamble and order
  // ---------------------------------------------------------------------------

  /** The text every script begins with: DROP SCHEMA, an empty line, CREATE
      SCHEMA with the utf8 character set, USE, and the newline that ends the
      empty fifth line. */
  function PreambleText(databaseName: string): string
  {
    var drop := "DROP SCHEMA IF EXISTS " + databaseName + ";";
    var create := "CREATE SCHEMA " + databaseName + " DEFAULT CHARACTER SET utf8;";
    var use := "USE " + databaseName + ";";
    drop + "\n" + "\n" + create + "\n" + use + "\n"
  }

  /** The script starts with the five preamble lines, whatever the tables and relationships. */
  lemma {:induction false} DdlBeginsWithPreamble(databaseName: string, tables: seq<Table>, relationships: seq<Relationship>)
    ensures DdlLines(databaseName, tables, relationships)[..5] == Preamble(databaseName)
    ensures PreambleText(databaseName) <= Ddl(databaseName, tables, relationships)
  {
    var p := Preamble(databaseName);
    var rest := TableSections(tables) + RelationsRun(tables, relationships, []).lines;
    assert DdlLines(databaseName, tables, relationships) == p + rest;
    PreambleJoined(databaseName);
    if rest != [] {
      JoinConcat(p, rest, "\n");
    } else {
      assert p + rest == p;
    }
  }

  lemma PreambleJoined(databaseName: string)
    ensures Join(Preamble(databaseName), "\n") == PreambleText(databaseName)
  {
    var p := Preamble(databaseName);
    JoinFive(p[0], p[1], p[2], p[3], p[4], "\n");
    assert p == [p[0], p[1], p[2], p[3], p[4]];
    assert p[0] + "\n" + p[1] == p[0] + "\n";
    assert p[0] + "\n" + p[1] + "\n" + p[2] + "\n" + p[3] + "\n" + p[4]
        == p[0] + "\n" + p[1] + "\n" + p[2] + "\n" + p[3] + "\n";
  }

  lemma JoinFive(a: string, b: string, c: string, d: string, e: string, sep: string)
    ensures Join([a, b, c, d, e], sep) == a + sep + b + sep + c + sep + d + sep + e
  {
    assert [a, b, c, d, e][1..] == [b, c, d, e];
    assert [b, c, d, e][1..] == [c, d, e];
    assert [c, d, e][1..] == [d, e];
    assert [d, e][1..] == [e];
    var de := d + sep + e;
    assert Join([d, e], sep) == de;
    var cde := c + sep + de;
    assert Join([c, d, e], sep) == cde;
    var bcde := b + sep + cde;
    assert Join([b, c, d, e], sep) == bcde;
    assert Join([a, b, c, d, e], sep) == a + sep + bcde;
  }

  /** Tables are emitted in input order: the script of a concatenation is the
      concatenation of the scripts. */
  lemma TableSectionsInOrder(first: seq<Table>, second: seq<Table>)
    ensures TableSections(first + second) == TableSections(first) + TableSections(second)
  {
    FlatMapConcat(first, second, TableSection);
  }

  // ---------------------------------------------------------------------------
  // The CREATE TABLE block
  // ---------------------------------------------------------------------------

  /** The block is CREATE TABLE, "(", one line per column, the PRIMARY KEY line
      exactly when some column is a primary key, and the closing line. */
  lemma TableBlockLayout(table: Table)
    ensures var n := |table.columns|;
      var block := TableBlock(table);
      |block| == n + (if PrimaryKey(table.columns) then 4 else 3)
      && block[0] == CreateTableLine(table)
      && block[1] == "("
      && (PrimaryKey(table.columns) ==> block[n + 2] == PrimaryKeyLine(table.columns))
      && block[|block| - 1] == ClosingLine(table.comment)
  {
  }

  /** Comma rule: with a primary key every column line ends in a comma;
      without one every column line but the last does, and the last has none. */
  lemma CommaRule(table: Table, i: nat)
    requires i < |table.columns|
    ensures var size := FormatSize(table.columns);
      var column := table.columns[i];
      var line := TableBlock(table)[2 + i];
      Fits(column, size)
      && (PrimaryKey(table.columns) ==> line == ColumnDefinition(column, size) + ",")
      && (!PrimaryKey(table.columns) && i + 1 < |table.columns| ==> line == ColumnDefinition(column, size) + ",")
      && (!PrimaryKey(table.columns) && i + 1 == |table.columns| ==> line == ColumnDefinition(column, size))
  {
    BlockColumnLine(table, i);
  }

  /** Line 2 + i of the block is the line of column i. */
  lemma BlockColumnLine(table: Table, i: nat)
    requires i < |table.columns|
    ensures Fits(table.columns[i], FormatSize(table.columns))
    ensures TableBlock(table)[2 + i]
         == ColumnLine(table.columns[i], HasComma(table.columns, PrimaryKey(table.columns), i), FormatSize(table.columns))
  {
    BlockLineIsColumnLine(table, i);
    ColumnLinesAt(table.columns, PrimaryKey(table.columns), FormatSize(table.columns), i);
  }

  lemma BlockLineIsColumnLine(table: Table, i: nat)
    requires i < |table.columns|
    ensures TableBlock(table)[2 + i] == ColumnLines(table.columns, PrimaryKey(table.columns), FormatSize(table.columns))[i]
  {
    var lines := ColumnLines(table.columns, PrimaryKey(table.columns), FormatSize(table.columns));
    var head := [CreateTableLine(table), "("];
    var pkLines := if PrimaryKey(table.columns) then [PrimaryKeyLine(table.columns)] else [];
    var close := [ClosingLine(table.comment)];
    assert TableBlock(table) == head + lines + pkLines + close;
    IndexPastHead(head, lines, pkLines, close, i);
  }

  lemma ColumnLinesAt(columns: seq<Column>, pk: bool, size: MaxLength, i: nat)
    requires i < |columns|
    requires forall c :: c in columns ==> Fits(c, size)
    ensures Fits(columns[i], size)
    ensures ColumnLines(columns, pk, size)[i] == ColumnLine(columns[i], HasComma(columns, pk, i), size)
  {
    assert columns[i] in columns;
  }

  lemma IndexPastHead<T>(head: seq<T>, mid: seq<T>, t1: seq<T>, t2: seq<T>, i: nat)
    requires i < |mid|
    ensures (head + mid + t1 + t2)[|head| + i] == mid[i]
  {
  }

  /** The closing line is ");" exactly when the table comment is blank,
      and otherwise carries the comment. */
  lemma ClosingLineRule(comment: string)
    ensures ClosingLine(comment) == ");" <==> IsBlank(comment)
    ensures !IsBlank(comment) ==> ClosingLine(comment) == ") COMMENT '" + comment + "';"
  {
    if !IsBlank(comment) {
      assert |ClosingLine(comment)| > 2;
    }
  }

  // ---------------------------------------------------------------------------
  // Column lines
  // ---------------------------------------------------------------------------

  /** Each word preceded by `sep`, run together. */
  function Spaced(words: seq<string>, sep: string): string
  {
    if words == [] then "" else sep + words[0] + Spaced(words[1..], sep)
  }

  lemma {:induction false} JoinIsSpaced(first: string, rest: seq<string>, sep: string)
    ensures Join([first] + rest, sep) == first + Spaced(rest, sep)
    decreases |rest|
  {
    if rest != [] {
      assert ([first] + rest)[1..] == [rest[0]] + rest[1..];
      JoinIsSpaced(rest[0], rest[1..], sep);
      StringAssociates(first, sep + rest[0], Spaced(rest[1..], sep));
    } else {
      assert [first] + rest == [first];
    }
  }

  lemma {:induction false} SpacedConcat(a: seq<string>, b: seq<string>, sep: string)
    ensures Spaced(a + b, sep) == Spaced(a, sep) + Spaced(b, sep)
    decreases |a|
  {
    if a != [] {
      assert (a + b)[1..] == a[1..] + b;
      SpacedConcat(a[1..], b, sep);
      StringAssociates(sep + a[0], Spaced(a[1..], sep), Spaced(b, sep));
    } else {
      assert a + b == b;
    }
  }

  lemma StringAssociates(x: string, y: string, z: string)
    ensures x + (y + z) == x + y + z
  {
  }

  /** The value clause as it appears in the line: AUTO_INCREMENT wins over DEFAULT. */
  function ValueClause(column: Column): string
  {
    Spaced(ValueWords(column), " ")
  }

  function CommentClause(column: Column): string
  {
    Spaced(CommentWords(column), " ")
  }

  lemma ClauseTexts(column: Column)
    ensures column.option.autoIncrement ==> ValueClause(column) == " AUTO_INCREMENT"
    ensures !column.option.autoIncrement && !IsBlank(column.default) ==> ValueClause(column) == " DEFAULT " + column.default
    ensures !column.option.autoIncrement && IsBlank(column.default) ==> ValueClause(column) == ""
    ensures IsBlank(column.comment) ==> CommentClause(column) == ""
    ensures !IsBlank(column.comment) ==> CommentClause(column) == " COMMENT '" + column.comment + "'"
  {
    if column.option.autoIncrement {
      SpacedOne("AUTO_INCREMENT");
    } else if !IsBlank(column.default) {
      SpacedOne("DEFAULT " + column.default);
      StringAssociates(" ", "DEFAULT ", column.default);
    }
    if !IsBlank(column.comment) {
      SpacedOne("COMMENT '" + column.comment + "'");
      StringAssociates(" ", "COMMENT '" + column.comment, "'");
      StringAssociates(" ", "COMMENT '", column.comment);
    }
  }

  lemma SpacedOne(word: string)
    ensures Spaced([word], " ") == " " + word
  {
    assert [word][1..] == [];
  }

  lemma HeadIsSpaced(column: Column, size: MaxLength)
    requires Fits(column, size)
    ensures ColumnHead(column, size) == NamePart(column, size) + Spaced([DataTypePart(column, size), NullToken(column)], " ")
  {
    var b := DataTypePart(column, size);
    var c := NullToken(column);
    assert [b, c][1..] == [c];
    assert Spaced([c], " ") == " " + c;
    assert Spaced([b, c], " ") == " " + b + (" " + c);
  }

  /** A column definition is its aligned head, then AUTO_INCREMENT if set, else
      DEFAULT with the value if the default is not blank, then COMMENT if the
      comment is not blank: an auto-increment column never shows DEFAULT. */
  lemma {:induction false} ColumnDefinitionText(column: Column, size: MaxLength)
    requires Fits(column, size)
    ensures ColumnDefinition(column, size) == ColumnHead(column, size) + ValueClause(column) + CommentClause(column)
    ensures column.option.autoIncrement ==>
              ColumnDefinition(column, size) == ColumnHead(column, size) + " AUTO_INCREMENT" + CommentClause(column)
    ensures !column.option.autoIncrement && !IsBlank(column.default) ==>
              ColumnDefinition(column, size) == ColumnHead(column, size) + " DEFAULT " + column.default + CommentClause(column)
    ensures !column.option.autoIncrement && IsBlank(column.default) ==>
              ColumnDefinition(column, size) == ColumnHead(column, size) + CommentClause(column)
    ensures IsBlank(column.comment) <==> CommentClause(column) == ""
    ensures !IsBlank(column.comment) ==> CommentClause(column) == " COMMENT '" + column.comment + "'"
  {
    ColumnDefinitionClauses(column, size);
    ClauseTexts(column);
    var head := ColumnHead(column, size);
    if column.option.autoIncrement {
      assert ValueClause(column) == " AUTO_INCREMENT";
    } else if !IsBlank(column.default) {
      StringAssociates(head, " DEFAULT ", column.default);
    } else {
      assert head + ValueClause(column) == head;
    }
    if !IsBlank(column.comment) {
      assert |CommentClause(column)| > 0;
    }
  }

  lemma {:induction false} ColumnDefinitionClauses(column: Column, size: MaxLength)
    requires Fits(column, size)
    ensures ColumnDefinition(column, size) == ColumnHead(column, size) + ValueClause(column) + CommentClause(column)
  {
    var name := NamePart(column, size);
    var fixed := [DataTypePart(column, size), NullToken(column)];
    var value := ValueWords(column);
    var comment := CommentWords(column);
    assert ColumnWords(column, size) == [name] + (fixed + (value + comment));
    JoinIsSpaced(name, fixed + (value + comment), " ");
    SpacedConcat(fixed, value + comment, " ");
    SpacedConcat(value, comment, " ");
    HeadIsSpaced(column, size);
    StringAssociates(name + Spaced(fixed, " "), Spaced(value, " "), Spaced(comment, " "));
    StringAssociates(name, Spaced(fixed, " "), Spaced(value, " ") + Spaced(comment, " "));
  }

  /** Alignment: in a column line the name starts at offset 2, the data type at
      2 + size.name + 1, and the eight-character nullability token at
      2 + size.name + 1 + size.dataType + 1, with spaces as padding between. */
  lemma ColumnAlignment(column: Column, isComma: bool, size: MaxLength)
    requires Fits(column, size)
    ensures var line := ColumnLine(column, isComma, size);
      var typeAt := 2 + size.name + 1;
      var nullAt := typeAt + size.dataType + 1;
      |line| >= nullAt + 8
      && line[..2] == "  "
      && line[2..2 + |column.name|] == column.name
      && (forall k :: 2 + |column.name| <= k <= 2 + size.name ==> line[k] == ' ')
      && line[typeAt..typeAt + |column.dataType|] == column.dataType
      && (forall k :: typeAt + |column.dataType| <= k < nullAt ==> line[k] == ' ')
      && line[nullAt..nullAt + 8] == NullToken(column)
  {
    ColumnDefinitionText(column, size);
    var head := ColumnHead(column, size);
    var line := ColumnLine(column, isComma, size);
    StringAssociates(head, ValueClause(column) + CommentClause(column), if isComma then "," else "");
    StringAssociates(head, ValueClause(column), CommentClause(column));
    HeadLayout(column, size);
    PrefixSlices(head, ValueClause(column) + CommentClause(column) + (if isComma then "," else ""));
  }

  /** The slices of a prefix are the slices of the whole. */
  lemma PrefixSlices(head: string, tail: string)
    ensures forall i, j :: 0 <= i <= j <= |head| ==> (head + tail)[i..j] == head[i..j]
    ensures forall k :: 0 <= k < |head| ==> (head + tail)[k] == head[k]
  {
  }

  /** `lead`, then `word` padded with spaces to `width`. */
  lemma PaddedWord(lead: string, word: string, width: nat)
    requires |word| <= width
    ensures var p := lead + word + FormatSpace(width - |word|);
      |p| == |lead| + width
      && p[..|lead|] == lead
      && p[|lead|..|lead| + |word|] == word
      && forall k :: |lead| + |word| <= k < |lead| + width ==> p[k] == ' '
  {
  }

  /** Three words joined by single spaces. */
  lemma SpaceSeparated(a: string, b: string, c: string)
    ensures var h := a + " " + b + " " + c;
      |h| == |a| + |b| + |c| + 2
      && h[..|a|] == a && h[|a|] == ' '
      && h[|a| + 1..|a| + 1 + |b|] == b && h[|a| + 1 + |b|] == ' '
      && h[|a| + 2 + |b|..] == c
  {
  }

  lemma HeadLayout(column: Column, size: MaxLength)
    requires Fits(column, size)
    ensures var head := ColumnHead(column, size);
      var typeAt := 2 + size.name + 1;
      var nullAt := typeAt + size.dataType + 1;
      |head| == nullAt + 8
      && head[..2] == "  "
      && head[2..2 + |column.name|] == column.name
      && (forall k :: 2 + |column.name| <= k <= 2 + size.name ==> head[k] == ' ')
      && head[typeAt..typeAt + |column.dataType|] == column.dataType
      && (forall k :: typeAt + |column.dataType| <= k < nullAt ==> head[k] == ' ')
      && head[nullAt..] == NullToken(column)
  {
    NameLayout(NamePart(column, size), DataTypePart(column, size), NullToken(column), column.name, size.name);
    TypeLayout(NamePart(column, size), DataTypePart(column, size), NullToken(column), column.dataType, size.dataType);
  }

  /** The padded name at the start of a head `a b c`. */
  lemma NameLayout(a: string, b: string, c: string, name: string, width: nat)
    requires |name| <= width && a == "  " + name + FormatSpace(width - |name|)
    ensures var head := a + " " + b + " " + c;
      |a| == 2 + width
      && head[..2] == "  "
      && head[2..2 + |name|] == name
      && forall k :: 2 + |name| <= k <= 2 + width ==> head[k] == ' '
  {
    PaddedWord("  ", name, width);
    SpaceSeparated(a, b, c);
    PrefixSlices(a, " " + b + " " + c);
    var head := a + " " + b + " " + c;
    assert head == a + (" " + b + " " + c);
    forall k | 2 + |name| <= k <= 2 + width
      ensures head[k] == ' '
    {
      if k < 2 + width {
        assert head[k] == a[k];
      }
    }
  }

  /** The padded data type and the token after it in a head `a b c`. */
  lemma TypeLayout(a: string, b: string, c: string, dataType: string, width: nat)
    requires |dataType| <= width && b == dataType + FormatSpace(width - |dataType|)
    ensures var head := a + " " + b + " " + c;
      var typeAt := |a| + 1;
      |head| == typeAt + width + 1 + |c|
      && head[typeAt..typeAt + |dataType|] == dataType
      && (forall k :: typeAt + |dataType| <= k <= typeAt + width ==> head[k] == ' ')
      && head[typeAt + width + 1..] == c
  {
    PaddedWord("", dataType, width);
    assert "" + dataType == dataType;
    SpaceSeparated(a, b, c);
    var head := a + " " + b + " " + c;
    var typeAt := |a| + 1;
    assert head[typeAt..typeAt + |b|] == b;
    assert head[typeAt..typeAt + |dataType|] == head[typeAt..typeAt + |b|][..|dataType|];
    forall k | typeAt + |dataType| <= k <= typeAt + width
      ensures head[k] == ' '
    {
      if k < typeAt + width {
        assert head[k] == head[typeAt..typeAt + |b|][k - typeAt];
      }
    }
  }

  /** The data type of `column` starts at offset 2 + size.name + 1 of `line`,
      and its nullability token size.dataType + 1 characters later. */
  predicate TypeAndNullAt(line: string, column: Column, size: MaxLength)
  {
    var typeAt := 2 + size.name + 1;
    var nullAt := typeAt + size.dataType + 1;
    |column.dataType| <= size.dataType
    && |line| >= nullAt + 8
    && line[typeAt..typeAt + |column.dataType|] == column.dataType
    && line[nullAt..nullAt + 8] == NullToken(column)
  }

  /** Within one table every column's data type starts at the same offset
      2 + maxName + 1, and every nullability token at the same offset after it. */
  lemma TableColumnsAligned(table: Table, i: nat)
    requires i < |table.columns|
    ensures TypeAndNullAt(TableBlock(table)[2 + i], table.columns[i], FormatSize(table.columns))
  {
    var size := FormatSize(table.columns);
    var column := table.columns[i];
    var isComma := HasComma(table.columns, PrimaryKey(table.columns), i);
    BlockColumnLine(table, i);
    TypeAndNullOffsets(column, isComma, size);
  }

  lemma TypeAndNullOffsets(column: Column, isComma: bool, size: MaxLength)
    requires Fits(column, size)
    ensures TypeAndNullAt(ColumnLine(column, isComma, size), column, size)
  {
    ColumnAlignment(column, isComma, size);
  }

  // ---------------------------------------------------------------------------
  // Unique constraints
  // ---------------------------------------------------------------------------

  /** Three lines per unique column, in order: ALTER TABLE, ADD CONSTRAINT UQ_, blank. */
  lemma {:induction false} UniqueStatementsLayout(tableName: string, columns: seq<Column>)
    ensures |UniqueStatements(tableName, columns)| == 3 * |columns|
    ensures forall k :: 0 <= k < |columns| ==>
              UniqueStatements(tableName, columns)[3 * k] == "ALTER TABLE " + tableName
              && UniqueStatements(tableName, columns)[3 * k + 1]
                 == "  ADD CONSTRAINT UQ_" + columns[k].name + " UNIQUE (" + columns[k].name + ");"
              && UniqueStatements(tableName, columns)[3 * k + 2] == ""
    decreases |columns|
  {
    if columns != [] {
      var init := columns[..|columns| - 1];
      UniqueStatementsLayout(tableName, init);
      forall k | 0 <= k < |init|
        ensures init[k] == columns[k]
      {
      }
    }
  }

  /** A table's section is its block, a blank line, then one three-line
      statement per unique column in column order, and nothing else. */
  lemma TableSectionLayout(table: Table)
    ensures var uniques := UniqueColumns(table.columns);
      var section := TableSection(table);
      var b := |TableBlock(table)|;
      |section| == b + 1 + 3 * |uniques|
      && section[..b] == TableBlock(table)
      && section[b] == ""
      && forall k :: 0 <= k < |uniques| ==>
           section[b + 1 + 3 * k] == "ALTER TABLE " + table.name
           && section[b + 1 + 3 * k + 1] == "  ADD CONSTRAINT UQ_" + uniques[k].name + " UNIQUE (" + uniques[k].name + ");"
           && section[b + 1 + 3 * k + 2] == ""
  {
    var uniques := UniqueColumns(table.columns);
    var u := UniqueStatements(table.name, uniques);
    UniqueStatementsLayout(table.name, uniques);
    assert UniqueLines(table) == u;
    AfterBlankLine(TableBlock(table), u);
  }

  /** Where the lines after a block and its blank line sit. */
  lemma AfterBlankLine(block: seq<string>, rest: seq<string>)
    ensures var s := block + [""] + rest;
      |s| == |block| + 1 + |rest| && s[..|block|] == block && s[|block|] == ""
      && forall j :: 0 <= j < |rest| ==> s[|block| + 1 + j] == rest[j]
  {
    var s := block + [""] + rest;
    assert s[..|block|] == block;
  }

  // ---------------------------------------------------------------------------
  // Foreign keys
  // ---------------------------------------------------------------------------

  predicate Resolves(tables: seq<Table>, relationship: Relationship)
  {
    GetData(tables, TableId, relationship.start.tableId).Some?
    && GetData(tables, TableId, relationship.end.tableId).Some?
  }

  /** A relationship with an unresolvable endpoint emits nothing and leaves the
      names alone; in the script it contributes a single blank line. */
  lemma UnresolvedRelationship(tables: seq<Table>, before: seq<Relationship>, relationship: Relationship, fkNames: seq<string>)
    requires !Resolves(tables, relationship)
    ensures RelationBlock(tables, relationship, fkNames) == RelationOutput([], fkNames)
    ensures var run := RelationsRun(tables, before, fkNames);
      RelationsRun(tables, before + [relationship], fkNames) == RelationOutput(run.lines + [""], run.fkNames)
  {
    assert (before + [relationship])[..|before|] == before;
  }

  /** A resolved relationship emits the four-line foreign-key block and records
      exactly one new name, which no earlier foreign key of the run has, and
      which is the plain FK_<start>_TO_<end> when that is still free. */
  lemma ResolvedRelationship(tables: seq<Table>, relationship: Relationship, fkNames: seq<string>)
    requires Resolves(tables, relationship)
    ensures var startTable := GetData(tables, TableId, relationship.start.tableId).value;
      var endTable := GetData(tables, TableId, relationship.end.tableId).value;
      var out := RelationBlock(tables, relationship, fkNames);
      var fkName := out.fkNames[|out.fkNames| - 1];
      |out.fkNames| == |fkNames| + 1
      && out.fkNames[..|fkNames|] == fkNames
      && fkName !in fkNames
      && (ForeignKeyBase(startTable, endTable) !in fkNames ==> fkName == ForeignKeyBase(startTable, endTable))
      && out.lines == ["ALTER TABLE " + endTable.name,
                       "  ADD CONSTRAINT " + fkName,
                       "    FOREIGN KEY (" + FormatNames(ResolveColumns(endTable.columns, relationship.end.columnIds)) + ")",
                       "    REFERENCES " + startTable.name
                         + " (" + FormatNames(ResolveColumns(startTable.columns, relationship.start.columnIds)) + ");"]
  {
  }

  function ColumnIds(columns: seq<Column>): (r: seq<string>)
    ensures |r| == |columns|
  {
    seq(|columns|, i requires 0 <= i < |columns| => columns[i].id)
  }

  /** `sub` is `s` with some elements dropped and the rest kept in order. */
  predicate IsSubsequence(sub: seq<string>, s: seq<string>)
  {
    if sub == [] then true
    else if s == [] then false
    else if sub[|sub| - 1] == s[|s| - 1] then IsSubsequence(sub[..|sub| - 1], s[..|s| - 1])
    else IsSubsequence(sub, s[..|s| - 1])
  }

  lemma {:induction false} SubsequenceExtend(sub: seq<string>, s: seq<string>, x: string)
    requires IsSubsequence(sub, s)
    ensures IsSubsequence(sub, s + [x])
    decreases |s|, 1
  {
    assert (s + [x])[..|s|] == s;
    if sub != [] && sub[|sub| - 1] == x {
      SubsequenceDrop(sub, s);
    }
  }

  /** Dropping the last element of `sub` keeps it a subsequence. */
  lemma {:induction false} SubsequenceDrop(sub: seq<string>, s: seq<string>)
    requires sub != [] && IsSubsequence(sub, s)
    ensures IsSubsequence(sub[..|sub| - 1], s)
    decreases |s|, 0
  {
    var init := sub[..|sub| - 1];
    if init != [] {
      var front := s[..|s| - 1];
      assert front + [s[|s| - 1]] == s;
      if sub[|sub| - 1] == s[|s| - 1] {
        SubsequenceExtend(init, front, s[|s| - 1]);
      } else {
        SubsequenceDrop(sub, front);
        SubsequenceExtend(init, front, s[|s| - 1]);
      }
    }
  }

  /** Keeping the same new last element on both sides keeps a subsequence. */
  lemma SubsequenceBoth(sub: seq<string>, s: seq<string>, x: string)
    requires IsSubsequence(sub, s)
    ensures IsSubsequence(sub + [x], s + [x])
  {
    assert (sub + [x])[..|sub|] == sub;
    assert (s + [x])[..|s|] == s;
  }

  lemma ColumnIdsSnoc(columns: seq<Column>, c: Column)
    ensures ColumnIds(columns + [c]) == ColumnIds(columns) + [c.id]
  {
  }

  /** The FOREIGN KEY and REFERENCES column lists keep the order of the ids
      and drop the ids that name no column. */
  lemma {:induction false} ResolveColumnsKeepsOrder(columns: seq<Column>, ids: seq<string>)
    ensures IsSubsequence(ColumnIds(ResolveColumns(columns, ids)), ids)
    decreases |ids|
  {
    if ids != [] {
      var init := ids[..|ids| - 1];
      var last := ids[|ids| - 1];
      var rest := ResolveColumns(columns, init);
      ResolveColumnsKeepsOrder(columns, init);
      assert ids == init + [last];
      match GetData(columns, ColumnId, last)
      case Some(c) =>
        assert c.id == last;
        ColumnIdsSnoc(rest, c);
        SubsequenceBoth(ColumnIds(rest), init, last);
      case None =>
        SubsequenceExtend(ColumnIds(rest), init, last);
    }
  }

  /** Each listed column belongs to the table, and is the first of its columns with that id. */
  lemma {:induction false} ResolveColumnsAreLookups(columns: seq<Column>, ids: seq<string>)
    ensures forall c :: c in ResolveColumns(columns, ids) ==> c in columns && GetData(columns, ColumnId, c.id) == Some(c)
    decreases |ids|
  {
    if ids != [] {
      var init := ids[..|ids| - 1];
      ResolveColumnsAreLookups(columns, init);
      var rest := ResolveColumns(columns, init);
      match GetData(columns, ColumnId, ids[|ids| - 1])
      case Some(c) =>
        assert ResolveColumns(columns, ids) == rest + [c];
        assert forall d :: d in rest + [c] ==> d in rest || d == c;
      case None =>
    }
  }

  /** The elements of `ids` that satisfy `keep`, in their listed order. */
  function KeepIf(ids: seq<string>, keep: string -> bool): seq<string>
  {
    if ids == [] then [] else (if keep(ids[0]) then [ids[0]] else []) + KeepIf(ids[1..], keep)
  }

  lemma {:induction false} KeepIfSnoc(ids: seq<string>, keep: string -> bool, x: string)
    ensures KeepIf(ids + [x], keep) == KeepIf(ids, keep) + (if keep(x) then [x] else [])
    decreases |ids|
  {
    if ids == [] {
      assert [x][1..] == [];
    } else {
      assert (ids + [x])[1..] == ids[1..] + [x];
      KeepIfSnoc(ids[1..], keep, x);
    }
  }

  /** The ids that name a column of `columns`, in their listed order. */
  function ResolvingIds(columns: seq<Column>, ids: seq<string>): seq<string>
  {
    KeepIf(ids, id => GetData(columns, ColumnId, id).Some?)
  }

  /** The key-column list is exactly one column per id that resolves, in
      listed order: every resolving id is kept, every other id is dropped. */
  lemma {:induction false} ResolveColumnsExactly(columns: seq<Column>, ids: seq<string>)
    ensures ColumnIds(ResolveColumns(columns, ids)) == ResolvingIds(columns, ids)
    decreases |ids|
  {
    if ids != [] {
      var init := ids[..|ids| - 1];
      var last := ids[|ids| - 1];
      assert ids == init + [last];
      ResolveColumnsExactly(columns, init);
      KeepIfSnoc(init, id => GetData(columns, ColumnId, id).Some?, last);
      var rest := ResolveColumns(columns, init);
      match GetData(columns, ColumnId, last)
      case Some(c) =>
        assert c.id == last;
        assert ResolveColumns(columns, ids) == rest + [c];
        ColumnIdsSnoc(rest, c);
      case None =>
        assert ResolveColumns(columns, ids) == rest;
    }
  }

  /** When every id names a column, the list has exactly one column per id, in the same order. */
  lemma {:induction false} ResolveColumnsComplete(columns: seq<Column>, ids: seq<string>)
    requires forall id :: id in ids ==> GetData(columns, ColumnId, id).Some?
    ensures ColumnIds(ResolveColumns(columns, ids)) == ids
    decreases |ids|
  {
    if ids != [] {
      var init := ids[..|ids| - 1];
      var last := ids[|ids| - 1];
      assert ids == init + [last];
      assert forall id :: id in init ==> id in ids;
      ResolveColumnsComplete(columns, init);
      var c := GetData(columns, ColumnId, last).value;
      assert c.id == last;
      var rest := ResolveColumns(columns, init);
      assert ResolveColumns(columns, ids) == rest + [c];
      ColumnIdsSnoc(rest, c);
    }
  }

  // ---------------------------------------------------------------------------
  // The run-scoped name registry
  // ---------------------------------------------------------------------------

  predicate Distinct(names: seq<string>)
  {
    forall i, j :: 0 <= i < j < |names| ==> names[i] != names[j]
  }

  function ResolvedCount(tables: seq<Table>, relationships: seq<Relationship>): nat
  {
    if relationships == [] then 0
    else ResolvedCount(tables, relationships[..|relationships| - 1])
         + (if Resolves(tables, relationships[|relationships| - 1]) then 1 else 0)
  }

  /** Over a run the registry only grows, by one name per resolved relationship,
      and never issues a name twice. */
  lemma {:induction false} FkNamesDistinct(tables: seq<Table>, relationships: seq<Relationship>, fkNames: seq<string>)
    requires Distinct(fkNames)
    ensures var names := RelationsRun(tables, relationships, fkNames).fkNames;
      Distinct(names)
      && |names| == |fkNames| + ResolvedCount(tables, relationships)
      && names[..|fkNames|] == fkNames
    decreases |relationships|
  {
    if relationships != [] {
      var init := relationships[..|relationships| - 1];
      var last := relationships[|relationships| - 1];
      FkNamesDistinct(tables, init, fkNames);
      var before := RelationsRun(tables, init, fkNames).fkNames;
      if Resolves(tables, last) {
        ResolvedRelationship(tables, last, before);
        var after := RelationBlock(tables, last, before).fkNames;
        assert after == before + [after[|after| - 1]];
        assert after[..|fkNames|] == before[..|fkNames|];
      } else {
        UnresolvedRelationship(tables, init, last, fkNames);
      }
    }
  }

  /** Two relationships between the same pair of tables get FK_<start>_TO_<end>
      and then FK_<start>_TO_<end>_1; the `_1` comes from the assumed suffix
      format of `Util.AutoName`. */
  lemma SameTablesTwice(tables: seq<Table>, first: Relationship, second: Relationship)
    requires Resolves(tables, first)
    requires first.start.tableId == second.start.tableId && first.end.tableId == second.end.tableId
    ensures var startTable := GetData(tables, TableId, first.start.tableId).value;
      var endTable := GetData(tables, TableId, first.end.tableId).value;
      var base := ForeignKeyBase(startTable, endTable);
      RelationsRun(tables, [first, second], []).fkNames == [base, base + "_1"]
  {
    var startTable := GetData(tables, TableId, first.start.tableId).value;
    var endTable := GetData(tables, TableId, first.end.tableId).value;
    var base := ForeignKeyBase(startTable, endTable);
    assert [first, second][..1] == [first];
    assert [first][..0] == [];
    assert RelationsRun(tables, [first], []).fkNames == [base];
    assert NatToString(1) == "1";
    assert |base + "_1"| != |base|;
    assert AutoName([base], base) == base + "_1";
  }

  // ---------------------------------------------------------------------------
  // Determinism
  // ---------------------------------------------------------------------------

  /** toDDL resets the registry first, so running it twice on one snapshot
      gives the same script, whatever names the generator held before. */
  method RunTwice(generator: MySQL, databaseName: string, tables: seq<Table>, relationships: seq<Relationship>)
    returns (first: string, second: string)
    modifies generator
    ensures first == second
    ensures first == Ddl(databaseName, tables, relationships)
  {
    first := generator.ToDDL(databaseName, tables, relationships);
    second := generator.ToDDL(databaseName, tables, relationships);
  }
}
