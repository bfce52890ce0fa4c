/**
 * The documentation and attribute lines of `CreateClassAddition` and
 * `CreatePropertyAddition` in `ClassManager.cs`. The source fills a
 * `SortedList` under keys that only ever increase, so each block is the
 * sequence of its lines in the order they are added.
 */
module Annotations {
  import opened Strings
  import opened Wrappers
  import opened Database
  import opened InternalRecords
  import opened Model
  import ClassManagerHelper

  const TodoLine: string := "/// TODO"
  const ParagraphLine: string := "/// <para />"
  const KeyAttribute: string := "[Key]"
  const DateAttribute: string := "[DataType(DataType.Date)]"
  const UnboundedMaxLength: string := "[MaxLength(int.MaxValue)]"

  /** The length `-1` the metadata reader reports for `NVARCHAR(MAX)`. */
  const MaxLengthUnbounded: int := -1

  /** A documentation comment line holding `text`. */
  function DocLine(text: string): string {
    "/// " + text
  }

  /** Text that is neither null, nor empty, nor whitespace only. */
  predicate HasText(s: string) {
    !IsNullOrWhiteSpace(s)
  }

  /** The summary text of an entry, or the `TODO` marker when it has none. */
  function SummaryLine(info: Option<InfoEntry>): string {
    if info.Some? && HasText(info.value.summary) then DocLine(info.value.summary) else TodoLine
  }

  /** Whether the entry brings a remarks text. */
  predicate HasRemarksText(info: Option<InfoEntry>) {
    info.Some? && HasText(info.value.remarks)
  }

  /** The remarks line of an entry that has one (the empty comment otherwise; it is never emitted then). */
  function RemarksLine(info: Option<InfoEntry>): string {
    if info.Some? then DocLine(info.value.remarks) else DocLine("")
  }

  /** The remarks line naming the table as `[schema].[name]`. */
  function TableNameLine(table: TableEntry): string {
    "/// Table <c>[" + table.schema + "].[" + table.name + "]</c>"
  }

  /**
   * The `[Table(...)]` attribute. Without a schema the source writes
   * `[Table("name"]`, whose argument list is never closed; that text is kept.
   */
  function TableAttribute(table: TableEntry): string {
    if IsNullOrWhiteSpace(table.schema) then "[Table(\"" + table.name + "\"]"
    else "[Table(\"" + table.name + "\", Schema = \"" + table.schema + "\")]"
  }

  /** The `[Column(...)]` attribute on the raw column name, unclosed argument list as in the source. */
  function ColumnAttribute(column: ColumnEntry): string {
    "[Column(\"" + column.name + "\"]"
  }

  /** The `[MaxLength(...)]` attribute: `int.MaxValue` for the unbounded length, the number otherwise. */
  function MaxLengthAttribute(maxLength: int): string {
    if maxLength == MaxLengthUnbounded then UnboundedMaxLength
    else "[MaxLength(" + IntToString(maxLength) + ")]"
  }

  // ---------------------------------------------------------------- class block

  /** `CreateClassAddition`, line by line in the order the source adds them. */
  function ClassAdditionLines(table: TableEntry, tableInfo: Option<InfoEntry>, options: ClassGeneratorOptions): seq<string> {
    ClassDocumentation(table, tableInfo, options) + (if options.dbModel then [TableAttribute(table)] else [])
  }

  /** The remarks block of a class: the remarks text, then the table name after a paragraph break when both are there. */
  function ClassRemarks(table: TableEntry, tableInfo: Option<InfoEntry>, addTableName: bool): seq<string> {
    [ClassManagerHelper.RemarksStart]
    + (if HasRemarksText(tableInfo) then [RemarksLine(tableInfo)] else [])
    + (if addTableName then (if HasRemarksText(tableInfo) then [ParagraphLine] else []) + [TableNameLine(table)] else [])
    + [ClassManagerHelper.RemarksEnd]
  }

  /** The summary and remarks lines of a class, when a summary or the table name is wanted. */
  function ClassDocumentation(table: TableEntry, tableInfo: Option<InfoEntry>, options: ClassGeneratorOptions): seq<string> {
    var hasRemarks := HasRemarksText(tableInfo) || options.addTableNameToClassSummary;
    if options.addSummary || options.addTableNameToClassSummary then
      [ClassManagerHelper.SummaryStart, SummaryLine(tableInfo), ClassManagerHelper.SummaryEnd]
      + (if hasRemarks then
           ClassRemarks(table, tableInfo, options.addTableNameToClassSummary)
         else [])
    else []
  }

  /** The class additions as one text, lines joined by line breaks. */
  function ClassAddition(table: TableEntry, tableInfo: Option<InfoEntry>, options: ClassGeneratorOptions): string {
    Join(ClassAdditionLines(table, tableInfo, options), NewLine)
  }

  /** A line that is present when its condition holds, as a list of zero or one lines. */
  function Present<T>(condition: bool, line: T): seq<T> {
    if condition then [line] else []
  }

  /**
   * The class block as each of its possible lines in their one fixed order,
   * each present exactly when its condition holds: the summary when a summary
   * or the table name is wanted; the remarks, inside it, when the entry has
   * remarks or the table name is wanted; the paragraph only when both are
   * there; the attribute for database models.
   */
  function ClassAdditionReference(table: TableEntry, tableInfo: Option<InfoEntry>, options: ClassGeneratorOptions): seq<string> {
    var summary := options.addSummary || options.addTableNameToClassSummary;
    var remarks := summary && (HasRemarksText(tableInfo) || options.addTableNameToClassSummary);
    Present(summary, ClassManagerHelper.SummaryStart)
    + Present(summary, SummaryLine(tableInfo))
    + Present(summary, ClassManagerHelper.SummaryEnd)
    + Present(remarks, ClassManagerHelper.RemarksStart)
    + Present(summary && HasRemarksText(tableInfo), RemarksLine(tableInfo))
    + Present(summary && HasRemarksText(tableInfo) && options.addTableNameToClassSummary, ParagraphLine)
    + Present(options.addTableNameToClassSummary, TableNameLine(table))
    + Present(remarks, ClassManagerHelper.RemarksEnd)
    + Present(options.dbModel, TableAttribute(table))
  }

  /** The class block holds exactly the lines of the reference whose condition holds, in the same order. */
  lemma {:induction false} ClassAdditionMatchesReference(table: TableEntry, tableInfo: Option<InfoEntry>, options: ClassGeneratorOptions)
    ensures ClassAdditionLines(table, tableInfo, options) == ClassAdditionReference(table, tableInfo, options)
  {
    var summary := options.addSummary || options.addTableNameToClassSummary;
    var infoRemarks := HasRemarksText(tableInfo);
    var tableName := options.addTableNameToClassSummary;
    ClassDocumentationOrder(summary, infoRemarks, tableName,
                            ClassManagerHelper.SummaryStart, SummaryLine(tableInfo), ClassManagerHelper.SummaryEnd,
                            ClassManagerHelper.RemarksStart, RemarksLine(tableInfo), ParagraphLine, TableNameLine(table),
                            ClassManagerHelper.RemarksEnd);
  }

  /**
   * The nesting of the class documentation, on any lines: the summary
   * block, then the remarks block holding the entry's remarks, the paragraph
   * break and the table name line, flattens to the lines each present under
   * its own condition.
   */
  lemma ClassDocumentationOrder<T>(summary: bool, infoRemarks: bool, tableName: bool,
                                   s0: T, s1: T, s2: T, r0: T, r1: T, r2: T, r3: T, r4: T)
    requires tableName ==> summary
    ensures (if summary then
               [s0, s1, s2]
               + (if infoRemarks || tableName then
                    [r0] + (if infoRemarks then [r1] else [])
                    + (if tableName then (if infoRemarks then [r2] else []) + [r3] else [])
                    + [r4]
                  else [])
             else [])
            == Present(summary, s0) + Present(summary, s1) + Present(summary, s2)
               + Present(summary && (infoRemarks || tableName), r0) + Present(summary && infoRemarks, r1)
               + Present(summary && infoRemarks && tableName, r2) + Present(tableName, r3)
               + Present(summary && (infoRemarks || tableName), r4)
  {
    var remarks := summary && (infoRemarks || tableName);
    var reference :=
      Present(summary, s0) + Present(summary, s1) + Present(summary, s2)
      + Present(remarks, r0) + Present(summary && infoRemarks, r1)
      + Present(summary && infoRemarks && tableName, r2) + Present(tableName, r3) + Present(remarks, r4);
    if !summary {
      assert [] == reference;
    } else if !infoRemarks && !tableName {
      assert [s0, s1, s2] + [] == reference;
    } else if infoRemarks && !tableName {
      assert [s0, s1, s2] + ([r0] + [r1] + [] + [r4]) == [s0, s1, s2, r0, r1, r4] == reference;
    } else if !infoRemarks && tableName {
      assert [s0, s1, s2] + ([r0] + [] + ([] + [r3]) + [r4]) == [s0, s1, s2, r0, r3, r4] == reference;
    } else {
      assert [s0, s1, s2] + ([r0] + [r1] + ([r2] + [r3]) + [r4]) == [s0, s1, s2, r0, r1, r2, r3, r4] == reference;
    }
  }

  /** Every line of either block is a documentation comment or an attribute: never empty. */
  lemma {:induction false} JoinEmptyIff(lines: seq<string>)
    requires forall k | 0 <= k < |lines| :: lines[k] != []
    ensures Join(lines, NewLine) == "" <==> lines == []
  {
    if |lines| > 1 {
      assert |Join(lines, NewLine)| >= |lines[0]|;
    }
  }

  /** The class additions are the empty text exactly when neither documentation nor a database model is wanted. */
  lemma {:induction false} ClassAdditionEmptyIff(table: TableEntry, tableInfo: Option<InfoEntry>, options: ClassGeneratorOptions)
    ensures ClassAddition(table, tableInfo, options) == ""
            <==> !options.addSummary && !options.addTableNameToClassSummary && !options.dbModel
  {
    var lines := ClassAdditionLines(table, tableInfo, options);
    JoinEmptyIff(lines);
    if options.dbModel {
      assert TableAttribute(table) in lines;
    }
    if options.addSummary || options.addTableNameToClassSummary {
      assert lines[0] == ClassManagerHelper.SummaryStart;
    }
  }

  /** The `[Table]` attribute names the schema exactly when the schema is not blank. */
  lemma {:induction false} TableAttributeSchema(table: TableEntry)
    ensures !IsNullOrWhiteSpace(table.schema)
            <==> TableAttribute(table) == "[Table(\"" + table.name + "\", Schema = \"" + table.schema + "\")]"
  {
    if IsNullOrWhiteSpace(table.schema) {
      var a := "[Table(\"" + table.name + "\"]";
      var b := "[Table(\"" + table.name + "\", Schema = \"" + table.schema + "\")]";
      assert |a| < |b|;
    }
  }

  // ---------------------------------------------------------------- property block

  /** The entry describes the column: its column is set and equals the name, ignoring case. */
  predicate DescribesColumn(info: InfoEntry, columnName: string) {
    info.column != "" && EqualsIgnoreCase(info.column, columnName)
  }

  /** The information entry of a column: the first entry that describes it. */
  function ColumnInfo(infos: seq<InfoEntry>, columnName: string): Option<InfoEntry>
    decreases |infos|
  {
    if infos == [] then None
    else if DescribesColumn(infos[0], columnName) then Some(infos[0])
    else ColumnInfo(infos[1..], columnName)
  }

  /**
   * The look-up finds an entry exactly when one describes the column, and
   * then it is the first such entry.
   */
  lemma {:induction false} ColumnInfoFirstMatch(infos: seq<InfoEntry>, columnName: string)
    ensures var r := ColumnInfo(infos, columnName);
            r.None? <==> forall i | 0 <= i < |infos| :: !DescribesColumn(infos[i], columnName)
    ensures var r := ColumnInfo(infos, columnName);
            forall i | 0 <= i < |infos| && DescribesColumn(infos[i], columnName)
                                        && (forall j | 0 <= j < i :: !DescribesColumn(infos[j], columnName))
              :: r == Some(infos[i])
    decreases |infos|
  {
    if infos != [] && !DescribesColumn(infos[0], columnName) {
      ColumnInfoFirstMatch(infos[1..], columnName);
      assert forall i | 1 <= i < |infos| :: infos[i] == infos[1..][i - 1];
    }
  }

  /** Entries are matched on the column name without regard to case. */
  lemma {:induction false} ColumnInfoIgnoresCase(infos: seq<InfoEntry>, a: string, b: string)
    requires EqualsIgnoreCase(a, b)
    ensures ColumnInfo(infos, a) == ColumnInfo(infos, b)
    decreases |infos|
  {
    if infos != [] {
      ColumnInfoIgnoresCase(infos[1..], a, b);
    }
  }

  /** The summary and remarks lines of a property, when summaries are asked for. */
  function PropertyDocumentation(info: Option<InfoEntry>, addSummary: bool): seq<string> {
    if addSummary then
      [ClassManagerHelper.SummaryStart, SummaryLine(info), ClassManagerHelper.SummaryEnd]
      + (if HasRemarksText(info) then
           [ClassManagerHelper.RemarksStart, RemarksLine(info), ClassManagerHelper.RemarksEnd]
         else [])
    else []
  }

  /** The attribute lines of a property, in the order the source adds them. */
  function PropertyAttributes(column: ColumnEntry, dataType: string, options: ClassGeneratorOptions): seq<string> {
    (if options.dbModel && column.isPrimaryKey then [KeyAttribute] else [])
    + (if options.addColumnAttribute || column.HasDifferentAlias() then [ColumnAttribute(column)] else [])
    + (if EqualsIgnoreCase(column.dataType, "date") then [DateAttribute] else [])
    + (if dataType == "string" then [MaxLengthAttribute(column.maxLength)] else [])
  }

  /** `CreatePropertyAddition`, line by line in the order the source adds them. */
  function PropertyAdditionLines(column: ColumnEntry, dataType: string, infos: seq<InfoEntry>, options: ClassGeneratorOptions): seq<string> {
    PropertyDocumentation(ColumnInfo(infos, column.name), options.addSummary)
    + PropertyAttributes(column, dataType, options)
  }

  /** The property additions as one text, lines joined by line breaks. */
  function PropertyAddition(column: ColumnEntry, dataType: string, infos: seq<InfoEntry>, options: ClassGeneratorOptions): string {
    Join(PropertyAdditionLines(column, dataType, infos, options), NewLine)
  }

  /**
   * The property block as each of its possible lines in their one fixed
   * order, each present exactly when its condition holds: the summary when
   * asked for; the remarks only then and only with a remarks text; `[Key]`
   * for a key column of a database model; `[Column]` when asked for or when
   * the alias differs; the date attribute for the SQL type `date` in any
   * case; the length for the C# type `string`, compared with case.
   */
  function PropertyAdditionReference(column: ColumnEntry, dataType: string, infos: seq<InfoEntry>, options: ClassGeneratorOptions): seq<string> {
    var info := ColumnInfo(infos, column.name);
    var remarks := options.addSummary && HasRemarksText(info);
    var documentation :=
      Present(options.addSummary, ClassManagerHelper.SummaryStart)
      + Present(options.addSummary, SummaryLine(info))
      + Present(options.addSummary, ClassManagerHelper.SummaryEnd)
      + Present(remarks, ClassManagerHelper.RemarksStart)
      + Present(remarks, RemarksLine(info))
      + Present(remarks, ClassManagerHelper.RemarksEnd);
    var attributes :=
      Present(options.dbModel && column.isPrimaryKey, KeyAttribute)
      + Present(options.addColumnAttribute || column.HasDifferentAlias(), ColumnAttribute(column))
      + Present(EqualsIgnoreCase(column.dataType, "date"), DateAttribute)
      + Present(dataType == "string", MaxLengthAttribute(column.maxLength));
    documentation + attributes
  }

  /** The property block holds exactly the lines of the reference whose condition holds, in the same order. */
  lemma {:induction false} PropertyAdditionMatchesReference(column: ColumnEntry, dataType: string, infos: seq<InfoEntry>, options: ClassGeneratorOptions)
    ensures PropertyAdditionLines(column, dataType, infos, options) == PropertyAdditionReference(column, dataType, infos, options)
  {
    var info := ColumnInfo(infos, column.name);
    var summary := options.addSummary;
    var remarks := summary && HasRemarksText(info);
    var s0, s1, s2 := ClassManagerHelper.SummaryStart, SummaryLine(info), ClassManagerHelper.SummaryEnd;
    var r0, r1, r2 := ClassManagerHelper.RemarksStart, RemarksLine(info), ClassManagerHelper.RemarksEnd;
    var documentation := PropertyDocumentation(info, summary);
    var reference :=
      Present(summary, s0) + Present(summary, s1) + Present(summary, s2)
      + Present(remarks, r0) + Present(remarks, r1) + Present(remarks, r2);
    if !summary {
      assert documentation == [] == reference;
    } else if !HasRemarksText(info) {
      assert documentation == [s0, s1, s2] == reference;
    } else {
      assert documentation == [s0, s1, s2, r0, r1, r2] == reference;
    }
    var attributes :=
      Present(options.dbModel && column.isPrimaryKey, KeyAttribute)
      + Present(options.addColumnAttribute || column.HasDifferentAlias(), ColumnAttribute(column))
      + Present(EqualsIgnoreCase(column.dataType, "date"), DateAttribute)
      + Present(dataType == "string", MaxLengthAttribute(column.maxLength));
    assert PropertyAttributes(column, dataType, options) == attributes;
    assert PropertyAdditionReference(column, dataType, infos, options) == reference + attributes;
  }

  /**
   * The attributes of a property, each present exactly when its condition
   * holds (documentation lines start with `///` and so never look like one).
   */
  lemma {:induction false} PropertyAttributesIff(column: ColumnEntry, dataType: string, infos: seq<InfoEntry>, options: ClassGeneratorOptions)
    ensures var lines := PropertyAdditionLines(column, dataType, infos, options);
            && (KeyAttribute in lines <==> options.dbModel && column.isPrimaryKey)
            && (ColumnAttribute(column) in lines <==> options.addColumnAttribute || column.HasDifferentAlias())
            && (DateAttribute in lines <==> EqualsIgnoreCase(column.dataType, "date"))
            && (MaxLengthAttribute(column.maxLength) in lines <==> dataType == "string")
  {
    var documentation := PropertyDocumentation(ColumnInfo(infos, column.name), options.addSummary);
    var attributes := PropertyAttributes(column, dataType, options);
    DocumentationLines(ColumnInfo(infos, column.name), options.addSummary);
    MaxLengthAttributeShape(column.maxLength);
    ColumnAttributeShape(column);
    AttributeLiterals();
    assert attributes ==
      Present(options.dbModel && column.isPrimaryKey, KeyAttribute)
      + Present(options.addColumnAttribute || column.HasDifferentAlias(), ColumnAttribute(column))
      + Present(EqualsIgnoreCase(column.dataType, "date"), DateAttribute)
      + Present(dataType == "string", MaxLengthAttribute(column.maxLength));
    AttributeMembership(documentation, attributes,
      options.dbModel && column.isPrimaryKey, KeyAttribute,
      options.addColumnAttribute || column.HasDifferentAlias(), ColumnAttribute(column),
      EqualsIgnoreCase(column.dataType, "date"), DateAttribute,
      dataType == "string", MaxLengthAttribute(column.maxLength));
  }

  /** The documentation part of a property block consists of `///` lines only. */
  lemma {:induction false} DocumentationLines(info: Option<InfoEntry>, addSummary: bool)
    ensures forall x | x in PropertyDocumentation(info, addSummary) :: |x| > 1 && x[0] == '/'
  {
  }

  /**
   * Four attributes with distinct second characters after a block of `///`
   * lines: each is found in the whole exactly when it was added.
   */
  lemma {:induction false} AttributeMembership(documentation: seq<string>, attributes: seq<string>,
                                                k: bool, kx: string, c: bool, cx: string,
                                                d: bool, dx: string, m: bool, mx: string)
    requires forall x | x in documentation :: |x| > 1 && x[0] == '/'
    requires |kx| > 1 && |cx| > 1 && |dx| > 1 && |mx| > 1
    requires kx[0] == cx[0] == dx[0] == mx[0] == '['
    requires kx[1] == 'K' && cx[1] == 'C' && dx[1] == 'D' && mx[1] == 'M'
    requires attributes == Present(k, kx) + Present(c, cx) + Present(d, dx) + Present(m, mx)
    ensures var lines := documentation + attributes;
            (kx in lines <==> k) && (cx in lines <==> c) && (dx in lines <==> d) && (mx in lines <==> m)
  {
  }

  /** The two fixed attributes start with `[K` and `[D`. */
  lemma AttributeLiterals()
    ensures |KeyAttribute| > 1 && KeyAttribute[0] == '[' && KeyAttribute[1] == 'K'
    ensures |DateAttribute| > 1 && DateAttribute[0] == '[' && DateAttribute[1] == 'D'
  {
  }

  /** The column attribute starts with `[C`, whatever the column's name. */
  lemma {:induction false} ColumnAttributeShape(column: ColumnEntry)
    ensures var c := ColumnAttribute(column); |c| > 1 && c[0] == '[' && c[1] == 'C'
  {
    var c := ColumnAttribute(column);
    assert c == "[Column(\"" + (column.name + "\"]");
    assert c[..2] == "[C";
  }

  /** Both forms of the length attribute start with `[MaxLength(`. */
  lemma {:induction false} MaxLengthAttributeShape(maxLength: int)
    ensures "[MaxLength(" <= MaxLengthAttribute(maxLength)
    ensures var m := MaxLengthAttribute(maxLength); |m| > 1 && m[0] == '[' && m[1] == 'M'
  {
    if maxLength != MaxLengthUnbounded {
      var text := "[MaxLength(" + IntToString(maxLength) + ")]";
      assert text == "[MaxLength(" + (IntToString(maxLength) + ")]");
    }
  }

  /** The maximal length is written as `int.MaxValue` exactly for the unbounded marker `-1`. */
  lemma {:induction false} MaxLengthUnboundedIff(maxLength: int)
    ensures MaxLengthAttribute(maxLength) == UnboundedMaxLength <==> maxLength == MaxLengthUnbounded
  {
    if maxLength != MaxLengthUnbounded {
      var digits := IntToString(maxLength);
      assert MaxLengthAttribute(maxLength)[11] == digits[0];
      assert UnboundedMaxLength[11] == 'i';
      assert digits[0] == '-' || IsDigit(digits[0]);
    }
  }
}
