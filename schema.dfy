/** The schema snapshot the DDL generator reads: tables with their columns,
    and relationships between tables. All of it is read-only to the generator. */
module Schema {

  /** The per-column flags of the editor's column option panel. */
  datatype ColumnOption = ColumnOption(
    autoIncrement: bool,
    primaryKey: bool,
    unique: bool,
    notNull: bool)

  datatype Column = Column(
    id: string,
    name: string,
    comment: string,
    dataType: string,
    default: string,
    option: ColumnOption)

  datatype Table = Table(
    id: string,
    name: string,
    comment: string,
    columns: seq<Column>)

  /** One side of a relationship: a table and an ordered list of its column ids. */
  datatype RelationshipPoint = RelationshipPoint(tableId: string, columnIds: seq<string>)

  datatype Relationship = Relationship(
    id: string,
    start: RelationshipPoint,
    end: RelationshipPoint)

  function TableId(t: Table): string { t.id }

  function ColumnId(c: Column): string { c.id }
}
