/**
 * `GenerateEfKeyCode` of `ClassManager.cs`: an `OnModelCreating` override
 * declaring the composite key of every table with more than one
 * primary-key column.
 */
module EfKeyCode {
  import opened Strings
  import opened Database
  import ClassManagerHelper

  const InheritDocLine: string := "/// <inheritdoc />"
  const SignatureLine: string := "protected override void OnModelCreating(ModelBuilder modelBuilder)"
  const OpeningBrace: string := "{"

  /** The three lines that open the override. */
  const Header: seq<string> := [InheritDocLine, SignatureLine, OpeningBrace]

  /** The line that closes the override. */
  const Footer: string := "}"

  /** The primary-key columns of a table, in list order. */
  function KeyColumns(columns: seq<ColumnEntry>): seq<ColumnEntry>
    decreases |columns|
  {
    if columns == [] then []
    else if columns[0].isPrimaryKey then [columns[0]] + KeyColumns(columns[1..])
    else KeyColumns(columns[1..])
  }

  /** A table whose key spans more than one column. */
  predicate HasCompositeKey(table: TableEntry) {
    |KeyColumns(table.columns)| > 1
  }

  /** The tables with a composite key, in input order. */
  function KeyTables(tables: seq<TableEntry>): seq<TableEntry>
    decreases |tables|
  {
    if tables == [] then []
    else if HasCompositeKey(tables[0]) then [tables[0]] + KeyTables(tables[1..])
    else KeyTables(tables[1..])
  }

  /** One key member `k.Name`, with a comma unless it is the last one. */
  function KeyLine(column: ColumnEntry, last: bool): string {
    ClassManagerHelper.Tab + ClassManagerHelper.Tab + "k." + column.PropertyName() + (if last then "" else ",")
  }

  /** The first `c` key members of a block. */
  function KeyLinesUpTo(keys: seq<ColumnEntry>, c: nat): seq<string>
    requires c <= |keys|
  {
    if c == 0 then [] else KeyLinesUpTo(keys, c - 1) + [KeyLine(keys[c - 1], c == |keys|)]
  }

  /** The key members of a block. */
  function KeyLines(keys: seq<ColumnEntry>): seq<string> {
    KeyLinesUpTo(keys, |keys|)
  }

  /** The `HasKey` line of a table, on its raw class name. */
  function EntityLine(table: TableEntry): string {
    ClassManagerHelper.Tab + "modelBuilder.Entity<" + table.ClassName() + ">().HasKey(k => new"
  }

  const BlockOpen: string := ClassManagerHelper.Tab + "{"
  const BlockClose: string := ClassManagerHelper.Tab + "});"

  /** The block of one table: the entity line, the braces and the key members between them. */
  function Block(table: TableEntry): seq<string> {
    [EntityLine(table), BlockOpen] + KeyLines(KeyColumns(table.columns)) + [BlockClose]
  }

  /** Block `i` of the list, followed by the empty spacer line unless it is the last one. */
  function Section(tables: seq<TableEntry>, i: nat): seq<string>
    requires i < |tables|
  {
    Block(tables[i]) + (if i + 1 == |tables| then [] else [""])
  }

  /** The sections of the first `n` tables. */
  function Sections(tables: seq<TableEntry>, n: nat): seq<string>
    requires n <= |tables|
  {
    if n == 0 then [] else Sections(tables, n - 1) + Section(tables, n - 1)
  }

  /** The generated text: empty without a composite key, the whole override otherwise. */
  function KeyCode(tables: seq<TableEntry>): string {
    var keyTables := KeyTables(tables);
    if keyTables == [] then ""
    else Terminated(Header + Sections(keyTables, |keyTables|) + [Footer])
  }

  /** `GenerateEfKeyCode`: the loop over the qualifying tables and, inside it, over their key columns. */
  method GenerateEfKeyCode(tables: seq<TableEntry>) returns (code: string)
    ensures code == KeyCode(tables)
  {
    var tmpTables := KeyTables(tables);
    if |tmpTables| == 0 {
      return "";
    }
    var sb := PrepareStringBuilder();
    ghost var header := sb;
    for i := 0 to |tmpTables|
      invariant sb == header + Terminated(Sections(tmpTables, i))
    {
      var tableEntry := tmpTables[i];
      sb := sb + EntityLine(tableEntry) + NewLine;
      sb := sb + BlockOpen + NewLine;
      OpenStep(header, tmpTables, i);
      var columns := KeyColumns(tableEntry.columns);
      for c := 0 to |columns|
        invariant sb == header + Terminated(WithKeys(tmpTables, i, c))
      {
        var comma := if c + 1 != |columns| then "," else "";
        var line := ClassManagerHelper.Tab + ClassManagerHelper.Tab + "k." + columns[c].PropertyName() + comma;
        KeyStep(header, tmpTables, i, c);
        sb := sb + line + NewLine;
      }
      sb := sb + BlockClose + NewLine;
      if i + 1 != |tmpTables| {
        sb := sb + NewLine;
      }
      CloseStep(header, tmpTables, i);
    }
    sb := sb + Footer + NewLine;
    KeyCodeParts(tables);
    code := sb;
  }

  /** The local `PrepareStringBuilder`: the three header lines. */
  method PrepareStringBuilder() returns (sb: string)
    ensures sb == Terminated(Header)
  {
    sb := "";
    sb := sb + InheritDocLine + NewLine;
    sb := sb + SignatureLine + NewLine;
    sb := sb + OpeningBrace + NewLine;
    AppendLine([], InheritDocLine);
    assert [] + [InheritDocLine] == [InheritDocLine];
    AppendLine([InheritDocLine], SignatureLine);
    assert [InheritDocLine] + [SignatureLine] == [InheritDocLine, SignatureLine];
    AppendLine([InheritDocLine, SignatureLine], OpeningBrace);
    assert [InheritDocLine, SignatureLine] + [OpeningBrace] == Header;
  }

  /** The generated text is the header, the sections and the closing brace, each line terminated. */
  lemma {:induction false} KeyCodeParts(tables: seq<TableEntry>)
    requires KeyTables(tables) != []
    ensures var keyTables := KeyTables(tables);
            KeyCode(tables) == Terminated(Header) + Terminated(Sections(keyTables, |keyTables|)) + Footer + NewLine
  {
    var keyTables := KeyTables(tables);
    var sections := Sections(keyTables, |keyTables|);
    TerminatedConcat(Header, sections);
    AppendLine(Header + sections, Footer);
  }

  /** The sections before table `i`, then its opened block with its first `c` key members. */
  ghost function WithKeys(tables: seq<TableEntry>, i: nat, c: nat): seq<string>
    requires i < |tables| && c <= |KeyColumns(tables[i].columns)|
  {
    var keys := KeyColumns(tables[i].columns);
    Sections(tables, i) + [EntityLine(tables[i]), BlockOpen] + KeyLinesUpTo(keys, c)
  }

  /** Opening the block of table `i`: its entity line and the opening brace. */
  lemma {:induction false} OpenStep(header: string, tables: seq<TableEntry>, i: nat)
    requires i < |tables|
    ensures header + Terminated(WithKeys(tables, i, 0))
            == header + Terminated(Sections(tables, i)) + EntityLine(tables[i]) + NewLine + BlockOpen + NewLine
  {
    var prefix := Sections(tables, i);
    assert WithKeys(tables, i, 0) == prefix + [EntityLine(tables[i])] + [BlockOpen];
    AppendLine(prefix + [EntityLine(tables[i])], BlockOpen);
    AppendLine(prefix, EntityLine(tables[i]));
    Reassociate(header, Terminated(prefix), EntityLine(tables[i]), NewLine);
    Reassociate(header, Terminated(prefix) + EntityLine(tables[i]) + NewLine, BlockOpen, NewLine);
  }

  /** Adding key member `c`: the column's line, with its comma unless it is the last key. */
  lemma {:induction false} KeyStep(header: string, tables: seq<TableEntry>, i: nat, c: nat)
    requires i < |tables| && c < |KeyColumns(tables[i].columns)|
    ensures var keys := KeyColumns(tables[i].columns);
            header + Terminated(WithKeys(tables, i, c + 1))
            == header + Terminated(WithKeys(tables, i, c))
               + (ClassManagerHelper.Tab + ClassManagerHelper.Tab + "k." + keys[c].PropertyName()
                  + (if c + 1 != |keys| then "," else ""))
               + NewLine
  {
    var keys := KeyColumns(tables[i].columns);
    var line := KeyLine(keys[c], c + 1 == |keys|);
    assert WithKeys(tables, i, c + 1) == WithKeys(tables, i, c) + [line];
    AppendLine(WithKeys(tables, i, c), line);
    Reassociate(header, Terminated(WithKeys(tables, i, c)), line, NewLine);
  }

  /** Closing the block of table `i`, and the spacer line after it unless it is the last. */
  lemma {:induction false} CloseStep(header: string, tables: seq<TableEntry>, i: nat)
    requires i < |tables|
    ensures var keys := KeyColumns(tables[i].columns);
            var closed := header + Terminated(WithKeys(tables, i, |keys|)) + BlockClose + NewLine;
            header + Terminated(Sections(tables, i + 1))
            == if i + 1 != |tables| then closed + NewLine else closed
  {
    var keys := KeyColumns(tables[i].columns);
    var before := Sections(tables, i);
    var opening := [EntityLine(tables[i]), BlockOpen];
    var members := KeyLinesUpTo(keys, |keys|);
    var spacer: seq<string> := if i + 1 != |tables| then [""] else [];
    assert Section(tables, i) == opening + members + [BlockClose] + spacer;
    Regroup(before, opening, members, [BlockClose], spacer);
    var closed := WithKeys(tables, i, |keys|) + [BlockClose];
    assert Sections(tables, i + 1) == closed + spacer;
    AppendLine(WithKeys(tables, i, |keys|), BlockClose);
    Reassociate(header, Terminated(WithKeys(tables, i, |keys|)), BlockClose, NewLine);
    if i + 1 != |tables| {
      AppendLine(closed, "");
      assert Terminated(closed) + "" == Terminated(closed);
      Reassociate(header, Terminated(closed), "", NewLine);
    } else {
      assert closed + spacer == closed;
    }
  }

  /** Two pieces appended after a prefix, regrouped. */
  lemma Reassociate<T>(header: seq<T>, text: seq<T>, a: seq<T>, b: seq<T>)
    ensures header + (text + a + b) == header + text + a + b
  {
  }

  /** Concatenation regrouped: a block with its spacer after the lines before it. */
  lemma Regroup<T>(before: seq<T>, opening: seq<T>, members: seq<T>, closing: seq<T>, spacer: seq<T>)
    ensures before + (opening + members + closing + spacer) == before + opening + members + closing + spacer
  {
  }

  /** `AppendLine` on the builder: the text of the lines so far, then the new line and a line break. */
  lemma {:induction false} AppendLine(lines: seq<string>, line: string)
    ensures Terminated(lines + [line]) == Terminated(lines) + line + NewLine
  {
    assert (lines + [line])[..|lines|] == lines;
  }
  // ---------------------------------------------------------------- properties

  /** The key columns are exactly the primary-key columns, in list order. */
  lemma {:induction false} KeyColumnsFilter(columns: seq<ColumnEntry>)
    ensures forall k | 0 <= k < |KeyColumns(columns)| :: KeyColumns(columns)[k].isPrimaryKey && KeyColumns(columns)[k] in columns
    ensures forall c | c in columns :: c.isPrimaryKey <==> c in KeyColumns(columns)
    decreases |columns|
  {
    if columns != [] {
      KeyColumnsFilter(columns[1..]);
      assert forall c | c in columns :: c == columns[0] || c in columns[1..];
    }
  }

  /** The qualifying tables are exactly those with a composite key, in input order. */
  lemma {:induction false} KeyTablesFilter(tables: seq<TableEntry>)
    ensures forall k | 0 <= k < |KeyTables(tables)| :: HasCompositeKey(KeyTables(tables)[k]) && KeyTables(tables)[k] in tables
    ensures forall t | t in tables :: HasCompositeKey(t) <==> t in KeyTables(tables)
    decreases |tables|
  {
    if tables != [] {
      KeyTablesFilter(tables[1..]);
      assert forall t | t in tables :: t == tables[0] || t in tables[1..];
    }
  }

  /** The text is empty exactly when no table has more than one primary-key column. */
  lemma {:induction false} KeyCodeEmptyIff(tables: seq<TableEntry>)
    ensures KeyCode(tables) == "" <==> forall t | t in tables :: !HasCompositeKey(t)
  {
    KeyTablesFilter(tables);
    var keyTables := KeyTables(tables);
    if keyTables != [] {
      assert keyTables[0] in tables;
      KeyCodeParts(tables);
    }
  }

  /**
   * A block with `k` key columns lists `k` members `k.Name` in key order:
   * the first `k - 1` end in a comma, the last does not.
   */
  lemma {:induction false} KeyLinesShape(keys: seq<ColumnEntry>, c: nat)
    requires c <= |keys|
    ensures |KeyLinesUpTo(keys, c)| == c
    ensures forall j | 0 <= j < c ::
              KeyLinesUpTo(keys, c)[j]
              == ClassManagerHelper.Tab + ClassManagerHelper.Tab + "k." + keys[j].PropertyName()
                 + (if j + 1 < |keys| then "," else "")
    decreases c
  {
    if c > 0 {
      KeyLinesShape(keys, c - 1);
    }
  }

  /** The blocks one after the other, each followed by an empty line. */
  function SpacedBlocks(tables: seq<TableEntry>, n: nat): seq<string>
    requires n <= |tables|
  {
    if n == 0 then [] else SpacedBlocks(tables, n - 1) + Block(tables[n - 1]) + [""]
  }

  /** Before the last block every block is followed by its spacer. */
  lemma {:induction false} SectionsBeforeLast(tables: seq<TableEntry>, n: nat)
    requires n < |tables|
    ensures Sections(tables, n) == SpacedBlocks(tables, n)
    decreases n
  {
    if n > 0 {
      SectionsBeforeLast(tables, n - 1);
    }
  }

  /** One empty line between blocks and none after the last: the sections are the spaced blocks without the final spacer. */
  lemma {:induction false} SectionsSpaced(tables: seq<TableEntry>)
    requires tables != []
    ensures Sections(tables, |tables|) + [""] == SpacedBlocks(tables, |tables|)
  {
    var n := |tables|;
    SectionsBeforeLast(tables, n - 1);
    assert Sections(tables, n) == SpacedBlocks(tables, n - 1) + Block(tables[n - 1]);
  }
}
