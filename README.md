# MySQL DDL generator, modelled in Dafny

This project models the MySQL schema-to-DDL generator of the vuerd ER-diagram
editor (`src/ts/SQL/MySQL.ts`). The generator reads a schema snapshot: a database
name, tables with their ordered columns, and relationships between tables. It
writes one newline-joined SQL script:

- the five-line preamble (`DROP SCHEMA IF EXISTS`, a blank line, `CREATE SCHEMA …
  DEFAULT CHARACTER SET utf8`, `USE`, a blank line);
- for each table, in order: its `CREATE TABLE` block, a blank line, and a three-line
  `ALTER TABLE … ADD CONSTRAINT UQ_<col> UNIQUE (<col>);` statement per unique column;
- for each relationship, in order: the four-line foreign-key block and a blank line.
  A relationship whose start or end table cannot be found emits only the blank line.

The generator is a class, `MySQL`. Its one field, `fkNames`, is the run-scoped
registry of foreign-key constraint names. `toDDL` resets it, and `formatRelation`
appends one fresh name per emitted foreign key.

Files:

- `schema.dfy` (`Schema`): the snapshot's entities as datatypes: `Table`, `Column`,
  `ColumnOption`, `Relationship`, `RelationshipPoint`.
- `util.dfy` (`Util`): the imported utilities:
  - `getData`, the first element with a given id;
  - `autoName`, a name not yet in the registry;
  - `Array.prototype.join`.
- `sql_helper.dfy` (`SqlHelper`): the imported SQL helpers, stated by their contracts:
  - `formatSize`, `formatSpace` and `formatNames`;
  - `primaryKey`, `unique`, `primaryKeyColumns` and `uniqueColumns`;
  - the `trim() === ""` test.
- `mysql.dfy` (`MySql`), in two parts:
  - Specification functions give the exact lines of each part of the script. `Ddl` is
    the whole script, and `RelationsRun` folds the registry through the relationships.
  - The class `MySQL` holds `ToDDL`, `FormatTable`, `FormatColumn` and
    `FormatRelation`. Each is an imperative method that pushes lines onto the buffer.
    Each is proved to append exactly the lines its specification function gives, and
    `FormatRelation` is also proved to leave exactly the registry that function gives.
- `mysql_properties.dfy` (`MySqlProperties`): the properties of the script, proved
  about the specification functions. They cover:
  - the preamble and table order;
  - the comma rule and the PRIMARY KEY line;
  - the closing line;
  - column alignment;
  - AUTO_INCREMENT versus DEFAULT, and the COMMENT clause;
  - the unique statements;
  - resolved and unresolved relationships;
  - order-preserving key-column lists;
  - distinct constraint names;
  - the registry reset.

The output buffer (`string[]` in the source) is a `seq<string>` that each method
takes and returns extended. The class field `fkNames` is a `seq<string>` that the
methods reassign.

## Model

| member | source | states |
|---|---|---|
| MySql.MySQL.constructor | src/ts/SQL/MySQL.ts:18-19 | A fresh generator has issued no foreign-key names. |
| MySql.MySQL.ToDDL | src/ts/SQL/MySQL.ts:21-57 | The result is `Ddl(db, tables, relationships)`: the preamble, every table section in order, every relationship block each followed by a blank line, all joined with "\n". Afterwards the registry holds exactly the names that run issued. The contract never mentions the registry's previous contents, because the method resets it first. |
| MySql.MySQL.FormatUniques | src/ts/SQL/MySQL.ts:39-49 | It appends nothing when no column is unique. Otherwise it appends ALTER TABLE, ADD CONSTRAINT UQ_ and a blank line for each unique column, in column order. |
| MySql.MySQL.FormatTable | src/ts/SQL/MySQL.ts:59-87 | It appends exactly the table's block: CREATE TABLE, "(", one line per column with the comma rule, the PRIMARY KEY line iff some column is a primary key, and the closing line. |
| MySql.MySQL.FormatColumn | src/ts/SQL/MySQL.ts:89-115 | It appends exactly one line. That line is the column's words joined by single spaces (padded name, padded data type, nullability, the value clause and the comment clause), plus "," iff `isComma`. |
| MySql.MySQL.FormatRelation | src/ts/SQL/MySQL.ts:117-161 | When both tables resolve, it appends the four-line foreign-key block and adds one name to the registry. Otherwise it appends nothing and leaves the registry unchanged. Both cases are stated exactly, by `RelationBlock`. |
| MySql.MySQL.CollectColumns | src/ts/SQL/MySQL.ts:143-154 | The key-column loop returns the columns that the ids name, in id order; unresolved ids are skipped. |
| MySqlProperties.DdlBeginsWithPreamble | src/ts/SQL/MySQL.ts:22-34 | For any tables and relationships, the first five lines are the preamble, and the script text starts with the preamble text. |
| MySqlProperties.PreambleJoined | src/ts/SQL/MySQL.ts:28-34 | The five preamble lines joined with newlines are DROP SCHEMA, an empty line, CREATE SCHEMA … utf8, USE, and a final newline. |
| MySqlProperties.TableSectionsInOrder | src/ts/SQL/MySQL.ts:36-50 | Tables are emitted in input order: the sections of `first + second` are the sections of `first` followed by those of `second`. |
| MySqlProperties.TableSectionLayout | src/ts/SQL/MySQL.ts:36-50 | A table's section is its block, one blank line, then exactly three lines per unique column (ALTER TABLE, ADD CONSTRAINT UQ_<col> UNIQUE (<col>);, blank), in column order. |
| MySqlProperties.UniqueStatementsLayout | src/ts/SQL/MySQL.ts:42-48 | The unique statements of k columns are 3·k lines, and line 3·j, 3·j+1 and 3·j+2 belong to column j. |
| MySqlProperties.TableBlockLayout | src/ts/SQL/MySQL.ts:59-87 | The block has n+4 lines with a primary key and n+3 without. Its first lines are CREATE TABLE and "(". The PRIMARY KEY line follows the columns iff some column is a primary key. The last line is the closing line. |
| MySqlProperties.BlockColumnLine | src/ts/SQL/MySQL.ts:62-76 | Line 2+i of the block is column i's line, with the comma decided by `HasComma`, and the table's widths cover that column. |
| MySqlProperties.CommaRule | src/ts/SQL/MySQL.ts:65-76 | With a primary key, every column line ends in ",". Without one, every column line but the last ends in ",", and the last has none. |
| MySqlProperties.ClosingLineRule | src/ts/SQL/MySQL.ts:82-86 | The closing line is ");" iff the table comment is blank; otherwise it is ") COMMENT '<comment>';". |
| MySqlProperties.ClauseTexts | src/ts/SQL/MySQL.ts:104-113 | The value clause is " AUTO_INCREMENT" when auto-increment is set, " DEFAULT <d>" when it is not and the default is not blank, and empty otherwise. The comment clause is empty iff the comment is blank. |
| MySqlProperties.ColumnDefinitionText | src/ts/SQL/MySQL.ts:95-114 | A column definition is its aligned head, then the value clause, then the comment clause. An auto-increment column never shows DEFAULT, and COMMENT appears iff the comment is not blank. |
| MySqlProperties.ColumnAlignment | src/ts/SQL/MySQL.ts:95-103 | In a column line the name sits at offset 2, padded with spaces to the widest name. The data type sits at offset 2+maxName+1, padded to the widest type. The 8-character nullability token follows one space later. |
| MySqlProperties.TypeAndNullOffsets | src/ts/SQL/MySQL.ts:95-103 | The data type and the nullability token of a column line sit at the offsets fixed by the widths alone. |
| MySqlProperties.TableColumnsAligned | src/ts/SQL/MySQL.ts:62-76 | Within one table, every column's data type starts at 2+maxName+1, and every nullability token starts at the same offset after it. |
| MySqlProperties.UnresolvedRelationship | src/ts/SQL/MySQL.ts:51-54 | When either table does not resolve, the relationship emits no lines and leaves the registry unchanged. In the run it contributes exactly one blank line. |
| MySqlProperties.ResolvedRelationship | src/ts/SQL/MySQL.ts:122-159 | When both tables resolve, the relationship emits ALTER TABLE <end>, ADD CONSTRAINT <name>, FOREIGN KEY (<end columns>) and REFERENCES <start> (<start columns>);. The registry grows by exactly that name. The name was not issued before, and it is FK_<start>_TO_<end> whenever that is still free. |
| MySqlProperties.ResolveColumnsExactly | src/ts/SQL/MySQL.ts:143-154 | The key columns' ids are exactly the listed ids that name a column, in listed order. This is stated against `ResolvingIds`, an independent filter of the ids. Every resolving id is kept, also when others do not resolve, and every other id is dropped. |
| MySqlProperties.ResolveColumnsKeepsOrder | src/ts/SQL/MySQL.ts:143-154 | The ids of the key columns form a subsequence of the listed ids: order is kept, and unresolved ids are dropped. |
| MySqlProperties.ResolveColumnsAreLookups | src/ts/SQL/MySQL.ts:143-154 | Every key column belongs to the table, and it is the first column carrying its id. |
| MySqlProperties.ResolveColumnsComplete | src/ts/SQL/MySQL.ts:143-154 | When every id resolves, the key columns' ids are exactly the listed ids, one for one. |
| MySqlProperties.FkNamesDistinct | src/ts/SQL/MySQL.ts:128-135 | Over a run the registry only grows, by one name per resolved relationship, and never holds the same name twice. |
| MySqlProperties.SameTablesTwice | src/ts/SQL/MySQL.ts:128-130 | Under the model's `AutoName`, two relationships between the same pair of tables are named FK_<a>_TO_<b> and FK_<a>_TO_<b>_1. The program's lines only require the second name to be fresh; the `_1` comes from the assumed suffix format (see Left out). |
| MySqlProperties.RunTwice | src/ts/SQL/MySQL.ts:21-22 | Calling toDDL twice on the same generator and snapshot gives the same script. |
| Util.GetData | src/ts/SQL/MySQL.ts:122-123 | None iff no element has the id. Otherwise the result has the id, and no earlier element has it. |
| Util.AutoName | src/ts/SQL/MySQL.ts:129-130 | The name returned is not in the registry, and it is the base name itself when that is free. |
| Util.Suffixed | src/ts/SQL/MySQL.ts:129-130 | When the base name is taken, the model's `AutoName` returns `base_k` for some k ≥ 1, not in the registry. The `_k` shape is an assumed format (see Left out). |
| SqlHelper.FormatSize | src/ts/SQL/MySQL.ts:63 | The widths are at least every column's name and data-type length. Each is attained by some column, and both are 0 for a table without columns. |
| SqlHelper.FormatSpace | src/ts/SQL/MySQL.ts:96-101 | The result is exactly n characters, all spaces. |
| SqlHelper.ColumnNames | src/ts/SQL/MySQL.ts:80 | The result holds one name per column, in column order. |
| SqlHelper.ColumnsWith | src/ts/SQL/MySQL.ts:41 | It returns exactly the columns whose option has the flag, never more than the input. |
| SqlHelper.ColumnsWithConcat | src/ts/SQL/MySQL.ts:41 | Filtering a concatenation gives the filtered parts, in order. Together with `ColumnsWithOne`, this keeps the flagged columns in column order, each once. |
| SqlHelper.ColumnsWithOne | src/ts/SQL/MySQL.ts:41 | A single column is kept exactly when its option has the flag. |
| SqlHelper.PrimaryKeyColumns | src/ts/SQL/MySQL.ts:79 | It returns exactly the primary-key columns, and is non-empty iff the table has a primary key. |
| SqlHelper.PrimaryKeyColumnsInOrder | src/ts/SQL/MySQL.ts:79 | The primary-key columns of `a + b` are those of `a`, then those of `b`. A single column contributes itself iff it is a primary key. So the PRIMARY KEY list follows column order. |
| SqlHelper.UniqueColumns | src/ts/SQL/MySQL.ts:41 | It returns exactly the unique columns, and is non-empty iff some column is unique. |
| SqlHelper.UniqueColumnsInOrder | src/ts/SQL/MySQL.ts:41-42 | The unique columns of `a + b` are those of `a`, then those of `b`. A single column contributes itself iff it is unique. So the unique statements follow column order. |
| SqlHelper.PrimaryKeyConcat | src/ts/SQL/MySQL.ts:62 | `primaryKey` of `a + b` holds iff it holds for `a` or for `b`, and for one column iff that column is a primary key. |
| SqlHelper.UniqueConcat | src/ts/SQL/MySQL.ts:40 | `unique` of `a + b` holds iff it holds for `a` or for `b`, and for one column iff that column is unique. |
| SqlHelper.FormatNamesOne | src/ts/SQL/MySQL.ts:156-159 | `formatNames` of no columns is "", and of one column is that column's name. |
| SqlHelper.FormatNamesAppend | src/ts/SQL/MySQL.ts:156-159 | Appending a column to a non-empty list appends ", " and that column's name. |
| SqlHelper.TrimStart | src/ts/SQL/MySQL.ts:82 | The result is a suffix of the input. It does not start with white space, and everything removed is white space. |
| SqlHelper.TrimEnd | src/ts/SQL/MySQL.ts:82 | The result is a prefix of the input. It does not end with white space, and everything removed is white space. |
| SqlHelper.BlankIffTrimmedEmpty | src/ts/SQL/MySQL.ts:107 | The blank test `IsBlank` used for comments and defaults holds exactly when `trim()` of the text is "". |
| Util.JoinAppend | src/ts/SQL/MySQL.ts:114 | Joining a non-empty list with one more part appends the separator and that part. |
| Util.JoinConcat | src/ts/SQL/MySQL.ts:56 | Joining two non-empty line lists puts exactly one separator between their joins. |

## Left out

- Store sourcing (`store.tableStore`, `relationshipStore`, `canvasStore`, lines 24-26): the snapshot is passed to `ToDDL` as parameters.
- The `id: uuid()` of each registry record (lines 131-134): the registry holds the names only, since the ids are random and never reach the script.
- Util.AutoName: its contract promises a fresh name that equals the base name when the base name is free. The least-free-suffix rule is in its body, not its contract, because the `autoName` source is not part of this model; `Suffixed` states the `base_k` shape. The call's second argument ("") is dropped: the registry holds names only (see the uuid line), and what `autoName` does with that argument is not part of this model.
- Util.Suffixed: the `_k` suffix is an assumed format. `src/ts/util.ts`, which holds `autoName`, is not part of this model, and lines 129-130 only require a fresh name that equals the base name when that is free. So `base_k` is a fact about this model's `AutoName`, not a stated behaviour of the program.
- MySqlProperties.SameTablesTwice: the name `FK_<a>_TO_<b>_1` for the second relationship follows from the assumed `_k` suffix format of `Util.Suffixed`. For the program itself, the model only promises that the second name differs from `FK_<a>_TO_<b>`.
- `src/ts/util.ts` and `src/ts/SQLHelper.ts` are not part of this model. `getData`, `autoName`, `formatSize`, `formatSpace`, `formatNames`, `primaryKey`, `unique`, `primaryKeyColumns` and `uniqueColumns` are modelled from how the generator uses them. `formatNames` is taken to join the names with ", ".
- `String.prototype.trim`: only the ASCII white-space characters are treated as blank. Unicode spaces and the UTF-16 length of JavaScript strings are not modelled.
- FormatColumn requires the table widths to cover the column: the one caller passes `formatSize` of the same table. `formatSpace` on a negative count is therefore never reached and is not modelled.
- The shared `string[]` buffer is passed as a value and returned extended. Aliasing of that one array is the only in-place effect, and it is not modelled.
- `FormatUniques` (the unique loop of toDDL) and `CollectColumns` (the two key-column loops of formatRelation) are separate methods running the same loops.
- The module's default export of a single shared instance (line 164), and `src/ts/components/InputEdit.ts` (editor UI), are not part of this model.
- Partial key-column resolution stays as the code has it: unresolved column ids are dropped silently, and the FOREIGN KEY and REFERENCES lists may differ in length (`ResolveColumnsExactly` states what is kept).
