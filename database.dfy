/**
 * The table and column descriptors of `Model/Database`, with their derived
 * properties `ColumnEntry.PropertyName`, `ColumnEntry.HasDifferentAlias` and
 * `TableEntry.ClassName`.
 */
module Database {
  import opened Strings

  datatype ColumnEntry = ColumnEntry(
    tableId: int,
    name: string,
    alias: string,
    order: int,
    dataType: string,
    maxLength: int,
    isNullable: bool,
    isPrimaryKey: bool)
  {
    /** The alias when one is set, so that a derived property differing from the name is flagged. */
    predicate HasDifferentAlias()
      ensures HasDifferentAlias() <==> PropertyName() != name
    {
      !IsNullOrWhiteSpace(alias) && name != alias
    }

    /** The name the property is generated from: the alias unless it is blank. */
    function PropertyName(): (r: string)
      ensures r == name || (r == alias && !IsNullOrWhiteSpace(alias))
      ensures IsNullOrWhiteSpace(r) ==> r == name
    {
      if IsNullOrWhiteSpace(alias) then name else alias
    }
  }

  /** A column as the metadata reader creates it before filling it in. */
  function NewColumnEntry(): (c: ColumnEntry)
    ensures c.PropertyName() == "" && !c.HasDifferentAlias()
    ensures !c.isPrimaryKey && !c.isNullable
  {
    ColumnEntry(0, "", "", 0, "", 0, false, false)
  }

  /** A blank alias never counts as different and leaves the name in charge. */
  lemma {:induction false} BlankAliasFallsBack(c: ColumnEntry)
    requires IsNullOrWhiteSpace(c.alias)
    ensures !c.HasDifferentAlias()
    ensures c.PropertyName() == c.name
  {
  }

  /** A differing alias is what the property is named after, and it is not the column name. */
  lemma {:induction false} DifferentAliasNamesProperty(c: ColumnEntry)
    requires c.HasDifferentAlias()
    ensures c.PropertyName() == c.alias && c.PropertyName() != c.name
  {
  }

  /** The comparison is case-sensitive: alias `id` on column `Id` is a different alias. */
  lemma CaseOnlyAliasDiffers()
    ensures ColumnEntry(1, "Id", "id", 1, "int", 4, false, true).HasDifferentAlias()
  {
    var c := ColumnEntry(1, "Id", "id", 1, "int", 4, false, true);
    assert c.alias[0] == 'i' && !IsWhiteSpace(c.alias[0]);
  }

  datatype TableEntry = TableEntry(
    id: int,
    name: string,
    alias: string,
    schema: string,
    columns: seq<ColumnEntry>)
  {
    /** The name the class is generated from: the alias unless it is blank. */
    function ClassName(): (r: string)
      ensures r == name || (r == alias && !IsNullOrWhiteSpace(alias))
      ensures IsNullOrWhiteSpace(r) ==> r == name
    {
      if IsNullOrWhiteSpace(alias) then name else alias
    }
  }

  /** A default table: empty name, alias, schema and columns. */
  function NewTableEntry(): (t: TableEntry)
    ensures t.ClassName() == "" && t.schema == "" && t.columns == []
  {
    TableEntry(0, "", "", "", [])
  }

  /** The class name is the alias exactly when the alias is not blank, and the name otherwise. */
  lemma {:induction false} ClassNameChoice(t: TableEntry)
    ensures !IsNullOrWhiteSpace(t.alias) ==> t.ClassName() == t.alias
    ensures IsNullOrWhiteSpace(t.alias) ==> t.ClassName() == t.name
  {
  }

  /** The class name depends on neither the schema nor the columns. */
  lemma {:induction false} ClassNameIgnoresSchemaAndColumns(t: TableEntry, schema: string, columns: seq<ColumnEntry>, id: int)
    ensures t.(schema := schema, columns := columns, id := id).ClassName() == t.ClassName()
  {
  }

  /** An alias made of whitespace only is set but still blank: the class keeps the table name. */
  lemma {:induction false} WhitespaceAliasFallsBack(t: TableEntry)
    requires t.alias != "" && IsNullOrWhiteSpace(t.alias)
    ensures t.ClassName() == t.name
  {
  }
}
