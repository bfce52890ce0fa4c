/**
 * The internal records of `Model/Internal`: the additional-information entry
 * (with `IsEmpty`), the placeholder binding and the SQL-to-C# type pair.
 */
module InternalRecords {
  import opened Strings

  /**
   * One entry of the additional-information file. A `null` column (the
   * default) is represented by the empty string: every use of it goes
   * through a null-or-empty / null-or-whitespace test.
   */
  datatype InfoEntry = InfoEntry(table: string, column: string, summary: string, remarks: string)
  {
    /** Neither a summary nor a remarks text: both null or empty (whitespace counts as text). */
    predicate IsEmpty()
      ensures IsEmpty() ==> IsNullOrWhiteSpace(summary) && IsNullOrWhiteSpace(remarks)
      ensures IsEmpty() <==> |summary| + |remarks| == 0
    {
      summary == "" && remarks == ""
    }

    /** An entry without a (non-blank) column describes the table itself. */
    predicate IsTableLevel() {
      IsNullOrWhiteSpace(column)
    }
  }

  function NewInfoEntry(): (e: InfoEntry)
    ensures e.IsEmpty() && e.IsTableLevel()
  {
    InfoEntry("", "", "", "")
  }

  /** `IsEmpty` looks at the summary and the remarks only. */
  lemma {:induction false} IsEmptyIgnoresTableAndColumn(e: InfoEntry, table: string, column: string)
    ensures e.(table := table, column := column).IsEmpty() == e.IsEmpty()
  {
  }

  /**
   * A whitespace-only summary makes the entry non-empty, although the
   * annotation composers treat the same text as missing.
   */
  lemma {:induction false} WhitespaceSummaryIsNotEmpty(e: InfoEntry)
    requires e.summary != "" && IsNullOrWhiteSpace(e.summary)
    ensures !e.IsEmpty()
  {
  }

  /** `ReplacementDto`: a placeholder key, its value, and whether the value is indented. */
  datatype Replacement = Replacement(key: string, value: string, indent: bool)

  /** `TypeConversionDto`: one row of the SQL-to-C# type table. */
  datatype TypeConversion = TypeConversion(sqlType: string, csharpType: string)
}
