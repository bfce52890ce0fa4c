/**
 * `SetStringDefault` of `ClassManager.cs`: for a `string` property the copy
 * of the property template gets the initialiser ` = string.Empty;`, on the
 * backing-field line when the template has one and on the property line
 * otherwise.
 */
module StringDefault {
  import opened Strings
  import ClassManagerHelper

  const VariablePlaceholder: string := "$NAME2$"
  const PropertyPlaceholder: string := "$NAME$"
  const DefaultValue: string := " = string.Empty;"

  /** Whether the template gets a default: the C# type is `string`, in any case. */
  predicate IsStringType(dataType: string) {
    EqualsIgnoreCase(dataType, "string")
  }

  /** The template after `SetStringDefault`, as a value. */
  function WithStringDefault(template: seq<string>, dataType: string): seq<string> {
    if !IsStringType(dataType) then template
    else
      var field := ClassManagerHelper.LineIndex(template, VariablePlaceholder);
      if field != -1 then template[field := Replace(template[field], ";", DefaultValue)]
      else
        var property := ClassManagerHelper.LineIndex(template, PropertyPlaceholder);
        if property != -1 then template[property := template[property] + DefaultValue]
        else template
  }

  /**
   * `SetStringDefault`: the in-place edit of the template copy. The `Any`
   * test comes first; the index search after it always succeeds.
   */
  method SetStringDefault(template: array<string>, dataType: string)
    modifies template
    ensures template[..] == WithStringDefault(old(template[..]), dataType)
  {
    if !IsStringType(dataType) {
      return;
    }
    if exists i | 0 <= i < template.Length :: Contains(template[i], VariablePlaceholder) {
      var index := ClassManagerHelper.GetLineIndex(template, VariablePlaceholder);
      if index != -1 {
        template[index] := Replace(template[index], ";", DefaultValue);
      }
    } else if exists i | 0 <= i < template.Length :: Contains(template[i], PropertyPlaceholder) {
      var index := ClassManagerHelper.GetLineIndex(template, PropertyPlaceholder);
      if index != -1 {
        template[index] := template[index] + DefaultValue;
      }
    }
  }

  /** Any other C# type leaves the template as it is. */
  lemma {:induction false} OtherTypesUnchanged(template: seq<string>, dataType: string)
    requires !IsStringType(dataType)
    ensures WithStringDefault(template, dataType) == template
  {
  }

  /**
   * With a backing field: the first line that mentions `$NAME2$` has each
   * `;` turned into ` = string.Empty;`, and no other line changes.
   */
  lemma {:induction false} FieldLineGetsDefault(template: seq<string>, dataType: string, i: nat)
    requires IsStringType(dataType)
    requires i < |template| && Contains(template[i], VariablePlaceholder)
    requires forall j | 0 <= j < i :: !Contains(template[j], VariablePlaceholder)
    ensures WithStringDefault(template, dataType) == template[i := Replace(template[i], ";", DefaultValue)]
  {
    assert ClassManagerHelper.LineIndex(template, VariablePlaceholder) == i;
  }

  /**
   * Without a backing field: the first line that mentions `$NAME$` gets the
   * initialiser appended, and no other line changes.
   */
  lemma {:induction false} PropertyLineGetsDefault(template: seq<string>, dataType: string, i: nat)
    requires IsStringType(dataType)
    requires forall j | 0 <= j < |template| :: !Contains(template[j], VariablePlaceholder)
    requires i < |template| && Contains(template[i], PropertyPlaceholder)
    requires forall j | 0 <= j < i :: !Contains(template[j], PropertyPlaceholder)
    ensures WithStringDefault(template, dataType) == template[i := template[i] + DefaultValue]
    ensures EndsWith(WithStringDefault(template, dataType)[i], DefaultValue)
  {
    assert ClassManagerHelper.LineIndex(template, PropertyPlaceholder) == i;
    var line := template[i] + DefaultValue;
    assert line[|line| - |DefaultValue|..] == DefaultValue;
  }

  /** A template without either placeholder is left as it is. */
  lemma {:induction false} NoPlaceholderUnchanged(template: seq<string>, dataType: string)
    requires forall j | 0 <= j < |template| :: !Contains(template[j], VariablePlaceholder)
    requires forall j | 0 <= j < |template| :: !Contains(template[j], PropertyPlaceholder)
    ensures WithStringDefault(template, dataType) == template
  {
  }

  /** The line count is kept and at most one line differs. */
  lemma {:induction false} AtMostOneLineChanges(template: seq<string>, dataType: string)
    ensures |WithStringDefault(template, dataType)| == |template|
    ensures forall i, j | 0 <= i < j < |template| ::
              WithStringDefault(template, dataType)[i] == template[i]
              || WithStringDefault(template, dataType)[j] == template[j]
  {
  }
}
