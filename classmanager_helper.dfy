/**
 * The stateless half of `ClassManager.Helper.cs`: constants, template-file
 * selection, the SQL-to-C# type lookup, the line search and the three
 * identifier normalisers (property, class, namespace).
 */
module ClassManagerHelper {
  import opened Strings
  import opened Extensions
  import opened InternalRecords
  import opened Model

  /** Four spaces: one indentation unit. */
  const Tab: string := "    "

  const SummaryStart: string := "/// <summary>"
  const SummaryEnd: string := "/// </summary>"
  const RemarksStart: string := "/// <remarks>"
  const RemarksEnd: string := "/// </remarks>"

  const ClassTemplateWithNamespace: string := "ClassDefaultWithNs.cgt"
  const ClassTemplateWithoutNamespace: string := "ClassDefault.cgt"
  const PropertyBackingField: string := "PropertyBackingField.cgt"
  const PropertyBackingFieldSetProperty: string := "PropertyBackingFieldSetProperty.cgt"
  const PropertyDefault: string := "PropertyDefault.cgt"

  /** The C# type used when the conversion table has no entry. */
  const FallbackType: string := "object"

  // ---------------------------------------------------------------- templates

  /** The class template file: the namespace variant exactly when one is wanted. */
  function ClassTemplateFile(withNamespace: bool): string {
    if withNamespace then ClassTemplateWithNamespace else ClassTemplateWithoutNamespace
  }

  /** Each class template file is chosen in exactly one case. */
  lemma ClassTemplateFileChoice(withNamespace: bool)
    ensures ClassTemplateFile(withNamespace) == ClassTemplateWithNamespace <==> withNamespace
    ensures ClassTemplateFile(withNamespace) == ClassTemplateWithoutNamespace <==> !withNamespace
  {
  }

  /**
   * The property template file. `AddSetProperty` wins over `WithBackingField`;
   * neither flag gives the plain property.
   */
  function PropertyTemplateFile(options: ClassGeneratorOptions): string {
    var withBackingField := options.addSetProperty || options.withBackingField;
    if withBackingField && !options.addSetProperty then PropertyBackingField
    else if withBackingField && options.addSetProperty then PropertyBackingFieldSetProperty
    else PropertyDefault
  }

  /** Each property template file is chosen in exactly one case. */
  lemma PropertyTemplateFileChoice(options: ClassGeneratorOptions)
    ensures PropertyTemplateFile(options) == PropertyBackingFieldSetProperty <==> options.addSetProperty
    ensures PropertyTemplateFile(options) == PropertyBackingField <==> options.withBackingField && !options.addSetProperty
    ensures PropertyTemplateFile(options) == PropertyDefault <==> !options.withBackingField && !options.addSetProperty
  {
  }

  // ---------------------------------------------------------------- types

  /**
   * `GetCSharpType`: the C# type of the first row whose SQL type equals
   * `sqlType` ignoring case, and `"object"` when no row does.
   */
  function CSharpType(conversions: seq<TypeConversion>, sqlType: string): (r: string)
    ensures forall i | 0 <= i < |conversions| ::
              EqualsIgnoreCase(conversions[i].sqlType, sqlType)
              && (forall j | 0 <= j < i :: !EqualsIgnoreCase(conversions[j].sqlType, sqlType))
              ==> r == conversions[i].csharpType
    ensures (forall i | 0 <= i < |conversions| :: !EqualsIgnoreCase(conversions[i].sqlType, sqlType))
            ==> r == FallbackType
    decreases |conversions|
  {
    if conversions == [] then FallbackType
    else if EqualsIgnoreCase(conversions[0].sqlType, sqlType) then conversions[0].csharpType
    else CSharpType(conversions[1..], sqlType)
  }

  /** The lookup ignores case only: differently-cased SQL types resolve alike. */
  lemma {:induction false} CSharpTypeIgnoresCase(conversions: seq<TypeConversion>, a: string, b: string)
    requires EqualsIgnoreCase(a, b)
    ensures CSharpType(conversions, a) == CSharpType(conversions, b)
    decreases |conversions|
  {
    if conversions != [] {
      CSharpTypeIgnoresCase(conversions[1..], a, b);
    }
  }

  // ---------------------------------------------------------------- line search

  /** The least index of a line containing `value`, or -1 when none does. */
  function LineIndex(lines: seq<string>, value: string): (index: int)
    ensures -1 <= index < |lines|
    ensures index >= 0 ==> Contains(lines[index], value)
    ensures index >= 0 ==> forall j | 0 <= j < index :: !Contains(lines[j], value)
    ensures index == -1 <==> forall j | 0 <= j < |lines| :: !Contains(lines[j], value)
    decreases |lines|
  {
    if lines == [] then -1
    else if Contains(lines[0], value) then 0
    else
      var k := LineIndex(lines[1..], value);
      if k == -1 then -1 else k + 1
  }

  /** `GetLineIndex`: the for-loop search over the template lines. */
  method GetLineIndex(lines: array<string>, value: string) returns (index: int)
    ensures index == LineIndex(lines[..], value)
  {
    for i := 0 to lines.Length
      invariant forall j | 0 <= j < i :: !Contains(lines[j], value)
    {
      if Contains(lines[i], value) {
        return i;
      }
    }
    return -1;
  }

  // ---------------------------------------------------------------- replacement table

  /** The characters removed or transliterated in every identifier, in table order. */
  const DiacriticKeys: string := " äöüßÄÖÜ"

  /**
   * `GetInvalidCharReplaceList`: space, the umlauts and sharp s in a fixed
   * order, and the underscore last when asked for.
   */
  function InvalidCharReplaceList(includeUnderscore: bool): (r: seq<Replacement>)
    ensures |r| == if includeUnderscore then 9 else 8
    ensures forall i | 0 <= i < |r| :: |r[i].key| == 1 && !r[i].indent
    ensures forall i | 0 <= i < 8 :: r[i].key == [DiacriticKeys[i]]
    ensures includeUnderscore ==> r[8] == Replacement("_", "", false)
    ensures r[1].value == "ae" && r[2].value == "oe" && r[3].value == "ue" && r[4].value == "ss"
    ensures r[5].value == "Ae" && r[6].value == "Oe" && r[7].value == "Ue" && r[0].value == ""
  {
    var fixed := [
      Replacement(" ", "", false),
      Replacement("ä", "ae", false),
      Replacement("ö", "oe", false),
      Replacement("ü", "ue", false),
      Replacement("ß", "ss", false),
      Replacement("Ä", "Ae", false),
      Replacement("Ö", "Oe", false),
      Replacement("Ü", "Ue", false)
    ];
    if includeUnderscore then fixed + [Replacement("_", "", false)] else fixed
  }

  /** `GetInvalidCharReplaceList`: the fixed pairs, then the underscore pair appended when asked for. */
  method GetInvalidCharReplaceList(includeUnderscore: bool) returns (list: seq<Replacement>)
    ensures list == InvalidCharReplaceList(includeUnderscore)
  {
    list := InvalidCharReplaceList(false);
    if includeUnderscore {
      list := list + [Replacement("_", "", false)];
    }
  }

  /** The table normalises: applying it leaves none of its keys behind. */
  lemma {:induction false} ReplaceListNormalising(includeUnderscore: bool)
    ensures Normalising(InvalidCharReplaceList(includeUnderscore))
  {
    var t := InvalidCharReplaceList(includeUnderscore);
    forall j | 0 <= j < |t| ensures forall k | 0 <= k < |t[j].value| :: IsAsciiLetter(t[j].value[k]) {
      assert t[j].value in ["", "ae", "oe", "ue", "ss", "Ae", "Oe", "Ue"];
    }
    forall i | 0 <= i < |t| ensures !IsAsciiLetter(t[i].key[0]) {
      if i < 8 {
        assert t[i].key[0] == DiacriticKeys[i];
      }
    }
  }

  /** Single-character keys, and no replacement text brings back any key. */
  ghost predicate Normalising(list: seq<Replacement>) {
    && (forall i | 0 <= i < |list| :: |list[i].key| == 1)
    && (forall i, j | 0 <= i < |list| && 0 <= j < |list| :: list[i].key[0] !in list[j].value)
  }

  /** The `Aggregate` fold: apply each replacement of the list in order. */
  function ReplaceFold(s: string, list: seq<Replacement>): string
    requires forall i | 0 <= i < |list| :: list[i].key != []
    decreases |list|
  {
    if list == [] then s
    else ReplaceFold(Replace(s, list[0].key, list[0].value), list[1..])
  }

  lemma {:induction false} FoldKeepsAbsent(s: string, list: seq<Replacement>, c: char)
    requires forall i | 0 <= i < |list| :: list[i].key != [] && c !in list[i].value
    requires c !in s
    ensures c !in ReplaceFold(s, list)
    decreases |list|
  {
    if list != [] {
      ReplaceKeepsAbsent(s, list[0].key, list[0].value, c);
      FoldKeepsAbsent(Replace(s, list[0].key, list[0].value), list[1..], c);
    }
  }

  /** The fold removes no character other than its single-character keys. */
  lemma {:induction false} FoldKeepsPresent(s: string, list: seq<Replacement>, c: char)
    requires forall i | 0 <= i < |list| :: |list[i].key| == 1 && list[i].key[0] != c
    requires c in s
    ensures c in ReplaceFold(s, list)
    decreases |list|
  {
    if list != [] {
      assert list[0].key == [list[0].key[0]];
      ReplaceCharKeepsOther(s, list[0].key[0], list[0].value, c);
      FoldKeepsPresent(Replace(s, list[0].key, list[0].value), list[1..], c);
    }
  }

  /** After the fold no key character of a normalising table is left. */
  lemma {:induction false} FoldRemovesKeys(s: string, list: seq<Replacement>)
    requires Normalising(list)
    ensures forall i | 0 <= i < |list| :: list[i].key[0] !in ReplaceFold(s, list)
    decreases |list|
  {
    if list != [] {
      var key := list[0].key;
      var s' := Replace(s, key, list[0].value);
      assert key == [key[0]];
      ReplaceCharRemoves(s, key[0], list[0].value);
      FoldKeepsAbsent(s', list[1..], key[0]);
      FoldRemovesKeys(s', list[1..]);
      forall i | 1 <= i < |list| ensures list[i].key[0] !in ReplaceFold(s, list) {
        assert list[1..][i - 1] == list[i];
      }
    }
  }

  /** A text without any key character goes through the fold unchanged. */
  lemma {:induction false} FoldIdentity(s: string, list: seq<Replacement>)
    requires forall i | 0 <= i < |list| :: |list[i].key| == 1 && list[i].key[0] !in s
    ensures ReplaceFold(s, list) == s
    decreases |list|
  {
    if list != [] {
      ContainsChar(s, list[0].key[0]);
      assert list[0].key == [list[0].key[0]];
      ReplaceAbsent(s, list[0].key, list[0].value);
      FoldIdentity(s, list[1..]);
    }
  }

  /** Neither a space, nor an umlaut, nor sharp s. */
  predicate NoDiacritics(s: string) {
    ' ' !in s && 'ä' !in s && 'ö' !in s && 'ü' !in s && 'ß' !in s && 'Ä' !in s && 'Ö' !in s && 'Ü' !in s
  }

  /** `NoDiacritics` is the absence of every key of `DiacriticKeys`. */
  lemma {:induction false} NoDiacriticsKeys(s: string)
    ensures NoDiacritics(s) <==> forall k | 0 <= k < |DiacriticKeys| :: DiacriticKeys[k] !in s
  {
    assert DiacriticKeys[0] == ' ' && DiacriticKeys[1] == 'ä' && DiacriticKeys[2] == 'ö' && DiacriticKeys[3] == 'ü';
    assert DiacriticKeys[4] == 'ß' && DiacriticKeys[5] == 'Ä' && DiacriticKeys[6] == 'Ö' && DiacriticKeys[7] == 'Ü';
  }

  /** The cleaned text: no space, umlaut or sharp s is left, nor an underscore when the table has it. */
  function Clean(s: string, includeUnderscore: bool): (r: string)
    ensures NoDiacritics(r)
    ensures includeUnderscore ==> '_' !in r
    ensures '_' !in s ==> '_' !in r
  {
    FoldNoDiacritics(s, includeUnderscore);
    ReplaceFold(s, InvalidCharReplaceList(includeUnderscore))
  }

  /** Cleaning without the underscore pair neither removes nor adds any character but letters and the table's keys. */
  lemma {:induction false} CleanKeepsMarks(s: string, c: char)
    requires c !in DiacriticKeys && !IsAsciiLetter(c)
    ensures c in Clean(s, false) <==> c in s
  {
    var list := InvalidCharReplaceList(false);
    forall i | 0 <= i < |list| ensures |list[i].key| == 1 && list[i].key[0] != c && c !in list[i].value {
      assert list[i].key[0] == DiacriticKeys[i];
      assert list[i].value in ["", "ae", "oe", "ue", "ss", "Ae", "Oe", "Ue"];
    }
    if c in s {
      FoldKeepsPresent(s, list, c);
    } else {
      FoldKeepsAbsent(s, list, c);
    }
  }

  /** A text holding none of the table's keys is already clean. */
  lemma {:induction false} CleanIdentity(s: string, includeUnderscore: bool)
    requires NoDiacritics(s) && (includeUnderscore ==> '_' !in s)
    ensures Clean(s, includeUnderscore) == s
  {
    var list := InvalidCharReplaceList(includeUnderscore);
    NoDiacriticsKeys(s);
    forall i | 0 <= i < |list| ensures |list[i].key| == 1 && list[i].key[0] !in s {
      if i < 8 {
        assert list[i].key[0] == DiacriticKeys[i];
      }
    }
    FoldIdentity(s, list);
  }

  lemma {:induction false} FoldNoDiacritics(s: string, includeUnderscore: bool)
    ensures NoDiacritics(ReplaceFold(s, InvalidCharReplaceList(includeUnderscore)))
    ensures includeUnderscore ==> '_' !in ReplaceFold(s, InvalidCharReplaceList(includeUnderscore))
    ensures '_' !in s ==> '_' !in ReplaceFold(s, InvalidCharReplaceList(includeUnderscore))
  {
    ReplaceListNormalising(includeUnderscore);
    FoldCleans(s, InvalidCharReplaceList(includeUnderscore));
  }

  /** Any normalising table that starts with the diacritic keys cleans every text. */
  lemma {:induction false} FoldCleans(s: string, list: seq<Replacement>)
    requires Normalising(list) && |list| >= 8
    requires forall i | 0 <= i < 8 :: list[i].key == [DiacriticKeys[i]]
    requires forall i | 0 <= i < |list| :: '_' !in list[i].value
    ensures NoDiacritics(ReplaceFold(s, list))
    ensures |list| > 8 && list[8].key == "_" ==> '_' !in ReplaceFold(s, list)
    ensures '_' !in s ==> '_' !in ReplaceFold(s, list)
  {
    FoldRemovesKeys(s, list);
    forall k | 0 <= k < |DiacriticKeys| ensures DiacriticKeys[k] !in ReplaceFold(s, list) {
      assert list[k].key[0] == DiacriticKeys[k];
    }
    NoDiacriticsKeys(ReplaceFold(s, list));
    if '_' !in s {
      FoldKeepsAbsent(s, list, '_');
    }
  }

  // ---------------------------------------------------------------- property names

  /**
   * `GeneratePropertyName`: transliterate the umlauts, drop spaces and
   * underscores, upper-case the first character, and put `Column` in front of
   * a name that would start with a digit.
   */
  function GeneratePropertyName(name: string): (r: string)
    ensures NoDiacritics(r) && '_' !in r
    ensures r != [] ==> !('a' <= r[0] <= 'z')
    ensures !StartsWithNumber(r)
  {
    var cleaned := Clean(name, true);
    UpperKeepsClean(cleaned);
    PrefixWords();
    DigitGuard(ColumnPrefix, FirstCharToUpper(cleaned))
  }

  /** Upper-casing the first character brings back neither a space, nor an umlaut, nor an underscore. */
  lemma {:induction false} UpperKeepsClean(s: string)
    requires NoDiacritics(s) && '_' !in s
    ensures NoDiacritics(FirstCharToUpper(s)) && '_' !in FirstCharToUpper(s)
  {
    FirstCharToUpperKeeps(s, ' ');
    FirstCharToUpperKeeps(s, 'ä');
    FirstCharToUpperKeeps(s, 'ö');
    FirstCharToUpperKeeps(s, 'ü');
    FirstCharToUpperKeeps(s, 'ß');
    FirstCharToUpperKeeps(s, 'Ä');
    FirstCharToUpperKeeps(s, 'Ö');
    FirstCharToUpperKeeps(s, 'Ü');
    FirstCharToUpperKeeps(s, '_');
  }

  /** Normalising a property name twice changes nothing more: the generator is idempotent. */
  lemma {:induction false} GeneratePropertyNameIdempotent(name: string)
    ensures GeneratePropertyName(GeneratePropertyName(name)) == GeneratePropertyName(name)
  {
    var r := GeneratePropertyName(name);
    CleanIdentity(r, true);
  }

  // ---------------------------------------------------------------- class names

  /** The `Aggregate(string.Empty, (current, entry) => current + entry.FirstChatToUpper())` fold. */
  function UpperFirstConcat(parts: seq<string>): (r: string)
    ensures forall c | !IsAsciiLetter(c) :: c in r <==> exists k | 0 <= k < |parts| :: c in parts[k]
    decreases |parts|
  {
    if parts == [] then ""
    else
      var init := parts[..|parts| - 1];
      var last := parts[|parts| - 1];
      var r := UpperFirstConcat(init) + FirstCharToUpper(last);
      assert forall c | !IsAsciiLetter(c) :: c in r <==> exists k | 0 <= k < |parts| :: c in parts[k] by {
        forall c | !IsAsciiLetter(c) ensures c in r <==> exists k | 0 <= k < |parts| :: c in parts[k] {
          FirstCharToUpperKeeps(last, c);
          if exists k | 0 <= k < |parts| :: c in parts[k] {
            var k :| 0 <= k < |parts| && c in parts[k];
            if k < |parts| - 1 {
              assert init[k] == parts[k];
            }
          }
        }
      }
      r
  }

  /**
   * `GenerateClassName`: with an underscore, split on it (pieces trimmed, empty
   * ones dropped), upper-case each piece's first character and concatenate,
   * then transliterate without the underscore rule; otherwise upper-case the
   * first character and apply the full table. A leading digit gets `Class`.
   */
  function GenerateClassName(name: string): (r: string)
    ensures NoDiacritics(r) && '_' !in r
    ensures !StartsWithNumber(r)
  {
    PrefixWords();
    if '_' in name then
      UnderscoreFreeConcat(name);
      DigitGuard(ClassPrefix, Clean(JoinedParts(name), false))
    else
      DigitGuard(ClassPrefix, Clean(FirstCharToUpper(name), true))
  }

  /** The trimmed, non-empty underscore pieces, each upper-cased at its first character, concatenated. */
  function JoinedParts(name: string): string {
    UpperFirstConcat(SplitTrimmed(name, '_'))
  }

  /** Splitting on the underscore and re-concatenating leaves no underscore. */
  lemma {:induction false} UnderscoreFreeConcat(name: string)
    ensures '_' !in JoinedParts(name)
  {
    var parts := SplitTrimmed(name, '_');
    assert !IsAsciiLetter('_');
    assert forall k | 0 <= k < |parts| :: '_' !in parts[k];
  }

  /** The marker words put in front of a name that would start with a digit. */
  const ColumnPrefix: string := "Column"
  const ClassPrefix: string := "Class"
  const NsPrefix: string := "Ns"

  /** A non-empty run of ASCII letters starting in upper case. */
  predicate IsPrefixWord(prefix: string) {
    prefix != [] && 'A' <= prefix[0] <= 'Z' && forall k | 0 <= k < |prefix| :: IsAsciiLetter(prefix[k])
  }

  lemma {:induction false} PrefixWords()
    ensures IsPrefixWord(ColumnPrefix) && IsPrefixWord(ClassPrefix) && IsPrefixWord(NsPrefix)
  {
  }

  /**
   * The digit guard shared by the class-name and namespace generators: a
   * text starting with a digit gets the letter prefix in front.
   */
  function DigitGuard(prefix: string, s: string): (r: string)
    requires IsPrefixWord(prefix)
    ensures !StartsWithNumber(r)
    ensures StartsWithNumber(s) ==> r == prefix + s
    ensures !StartsWithNumber(s) ==> r == s
    ensures NoDiacritics(s) ==> NoDiacritics(r)
    ensures '_' !in s ==> '_' !in r
  {
    assert IsIdentifierText(prefix) && '_' !in prefix;
    IdentifierTextIsClean(prefix);
    if StartsWithNumber(s) then prefix + s else s
  }
  /** An identifier character in the generator's sense: ASCII letter, digit or underscore. */
  predicate IsIdentifierText(s: string) {
    forall k | 0 <= k < |s| :: IsAsciiLetter(s[k]) || IsDigit(s[k]) || s[k] == '_'
  }

  /** A name that is already clean (letters and digits, upper-case or non-letter start, no leading digit) is a fixed point. */
  lemma {:induction false} ClassNameFixedPoint(s: string)
    requires IsIdentifierText(s) && '_' !in s
    requires s != [] ==> !('a' <= s[0] <= 'z') && !IsDigit(s[0])
    ensures GenerateClassName(s) == s
  {
    assert FirstCharToUpper(s) == s;
    IdentifierTextIsClean(s);
    CleanIdentity(s, true);
  }

  /** Re-normalising a class name built from letters, digits and underscores gives the same name. */
  lemma {:induction false} GenerateClassNameIdempotent(name: string)
    requires IsIdentifierText(name)
    ensures GenerateClassName(GenerateClassName(name)) == GenerateClassName(name)
  {
    var r := GenerateClassName(name);
    ClassNameOfIdentifierText(name);
    ClassNameFixedPoint(r);
  }

  /** On identifier text the class name is letters and digits and does not start in lower case. */
  lemma {:induction false} ClassNameOfIdentifierText(name: string)
    requires IsIdentifierText(name)
    ensures IsIdentifierText(GenerateClassName(name))
    ensures var r := GenerateClassName(name); r != [] ==> !('a' <= r[0] <= 'z')
  {
    PrefixWords();
    CleanedIdentifierText(name);
    if '_' in name {
      var j := JoinedParts(name);
      assert GenerateClassName(name) == DigitGuard(ClassPrefix, Clean(j, false));
      DigitGuardIdentifier(ClassPrefix, j);
    } else {
      var u := FirstCharToUpper(name);
      assert GenerateClassName(name) == DigitGuard(ClassPrefix, Clean(u, true));
      DigitGuardIdentifier(ClassPrefix, u);
    }
  }

  /** The guard keeps identifier text identifier text, and an upper-case prefix keeps the start upper-case. */
  lemma {:induction false} DigitGuardIdentifier(prefix: string, s: string)
    requires IsPrefixWord(prefix)
    requires IsIdentifierText(s) && (s != [] ==> !('a' <= s[0] <= 'z'))
    ensures var r := DigitGuard(prefix, s); IsIdentifierText(r) && (r != [] ==> !('a' <= r[0] <= 'z'))
  {
    var r := DigitGuard(prefix, s);
    if StartsWithNumber(s) {
      assert r == prefix + s;
      assert forall k | |prefix| <= k < |r| :: r[k] == s[k - |prefix|];
    }
  }

  /** On identifier text the cleaning step changes nothing: it sees letters and digits only. */
  lemma {:induction false} CleanedIdentifierText(name: string)
    requires IsIdentifierText(name)
    ensures '_' in name ==> Clean(JoinedParts(name), false) == JoinedParts(name)
    ensures '_' !in name ==> Clean(FirstCharToUpper(name), true) == FirstCharToUpper(name)
    ensures var cleaned := if '_' in name then JoinedParts(name) else FirstCharToUpper(name);
            IsIdentifierText(cleaned) && (cleaned != [] ==> !('a' <= cleaned[0] <= 'z'))
  {
    if '_' in name {
      SplitTrimmedIdentifiers(name);
      UpperFirstConcatIdentifiers(SplitTrimmed(name, '_'));
      IdentifierTextIsClean(JoinedParts(name));
      CleanIdentity(JoinedParts(name), false);
    } else {
      var upper := FirstCharToUpper(name);
      assert IsIdentifierText(upper);
      IdentifierTextIsClean(upper);
      CleanIdentity(upper, true);
    }
  }

  /** Identifier text holds no space and no umlaut. */
  lemma {:induction false} IdentifierTextIsClean(s: string)
    requires IsIdentifierText(s)
    ensures NoDiacritics(s)
  {
  }

  lemma {:induction false} UpperFirstConcatIdentifiers(parts: seq<string>)
    requires forall k | 0 <= k < |parts| :: parts[k] != [] && IsIdentifierText(parts[k])
    ensures IsIdentifierText(UpperFirstConcat(parts))
    ensures var r := UpperFirstConcat(parts); r != [] ==> !('a' <= r[0] <= 'z')
    decreases |parts|
  {
    if parts != [] {
      var init := parts[..|parts| - 1];
      UpperFirstConcatIdentifiers(init);
      var last := FirstCharToUpper(parts[|parts| - 1]);
      assert IsIdentifierText(last);
      var r := UpperFirstConcat(init) + last;
      assert UpperFirstConcat(parts) == r;
      if init == [] {
        assert r == last;
      }
    }
  }

  /** Splitting identifier text on underscores yields non-empty letter-and-digit pieces. */
  lemma {:induction false} SplitTrimmedIdentifiers(name: string)
    requires IsIdentifierText(name)
    ensures forall k | 0 <= k < |SplitTrimmed(name, '_')| ::
              SplitTrimmed(name, '_')[k] != [] && IsIdentifierText(SplitTrimmed(name, '_')[k])
  {
    var raw := Split(name, '_');
    forall k | 0 <= k < |raw| ensures IsIdentifierText(raw[k]) && Trim(raw[k]) == raw[k] {
      SplitCharsFrom(name, '_', k);
      NoWhiteSpaceTrim(raw[k]);
    }
  }

  lemma {:induction false} SplitCharsFrom(s: string, sep: char, k: nat)
    requires k < |Split(s, sep)|
    ensures forall c | c in Split(s, sep)[k] :: c in s
    ensures IsIdentifierText(s) ==> IsIdentifierText(Split(s, sep)[k])
    decreases |s|
  {
    if s != [] {
      var rest := Split(s[1..], sep);
      assert forall c | c in s[1..] :: c in s;
      if s[0] == sep {
        if k > 0 {
          SplitCharsFrom(s[1..], sep, k - 1);
        }
      } else if k == 0 {
        SplitCharsFrom(s[1..], sep, 0);
      } else {
        SplitCharsFrom(s[1..], sep, k);
      }
    }
  }

  lemma {:induction false} NoWhiteSpaceTrim(s: string)
    requires IsIdentifierText(s)
    ensures Trim(s) == s
  {
    if s != [] {
      assert !IsWhiteSpace(s[0]) && !IsWhiteSpace(s[|s| - 1]);
    }
  }

  // ---------------------------------------------------------------- namespaces

  /**
   * `GenerateNamespace`: without a dot only the first character is upper-cased
   * and spaces removed; with dots the segments are trimmed, empty ones dropped,
   * each upper-cased at its first character and re-joined with `.`, then
   * spaces and umlauts are replaced (underscores kept) and `Ns` put in front
   * of a leading digit.
   */
  function GenerateNamespace(namespace: string): (r: string)
    ensures ' ' !in r
    ensures '.' in namespace ==> NoDiacritics(r) && !StartsWithNumber(r)
  {
    if '.' !in namespace then
      ReplaceCharRemoves(FirstCharToUpper(namespace), ' ', "");
      Replace(FirstCharToUpper(namespace), " ", "")
    else
      var spaceless := Replace(FirstCharToUpper(JoinedSegments(namespace)), " ", "");
      PrefixWords();
      DigitGuard(NsPrefix, Clean(spaceless, false))
  }

  /** The trimmed, non-empty dot segments, each upper-cased at its first character, re-joined with dots. */
  function JoinedSegments(namespace: string): string {
    var parts := SplitTrimmed(namespace, '.');
    var upper := seq(|parts|, i requires 0 <= i < |parts| => FirstCharToUpper(parts[i]));
    Join(upper, ".")
  }

  /**
   * Without a dot nothing but the first character and the spaces change: no
   * umlaut is transliterated and no `Ns` is put in front of a digit.
   */
  lemma {:induction false} NamespaceWithoutDot(namespace: string, c: char)
    requires '.' !in namespace
    ensures ' ' !in namespace ==> GenerateNamespace(namespace) == FirstCharToUpper(namespace)
    ensures c != ' ' && !IsAsciiLetter(c) ==> (c in GenerateNamespace(namespace) <==> c in namespace)
    ensures StartsWithNumber(namespace) ==> StartsWithNumber(GenerateNamespace(namespace))
  {
    var upper := FirstCharToUpper(namespace);
    if ' ' !in namespace {
      FirstCharToUpperKeeps(namespace, ' ');
      ContainsChar(upper, ' ');
      ReplaceAbsent(upper, " ", "");
    }
    if c != ' ' && !IsAsciiLetter(c) {
      FirstCharToUpperKeeps(namespace, c);
      if c in upper {
        ReplaceCharKeepsOther(upper, ' ', "", c);
      } else {
        ReplaceKeepsAbsent(upper, " ", "", c);
      }
    }
    if StartsWithNumber(namespace) {
      assert Replace(upper, " ", "") == [upper[0]] + Replace(upper[1..], " ", "");
    }
  }

  /** The segment join keeps every character that is neither a dot, whitespace nor a letter. */
  lemma {:induction false} JoinedSegmentsMembers(namespace: string, c: char)
    requires c != '.' && !IsWhiteSpace(c) && !IsAsciiLetter(c)
    ensures c in JoinedSegments(namespace) <==> c in namespace
  {
    var parts := SplitTrimmed(namespace, '.');
    var upper := seq(|parts|, i requires 0 <= i < |parts| => FirstCharToUpper(parts[i]));
    assert JoinedSegments(namespace) == Join(upper, ['.']);
    JoinMembers(upper, '.', c);
    SplitTrimmedMembers(namespace, '.', c);
    if InAny(parts, c) {
      var i :| 0 <= i < |parts| && c in parts[i];
      FirstCharToUpperKeeps(parts[i], c);
      assert c in upper[i];
    }
    if InAny(upper, c) {
      var i :| 0 <= i < |upper| && c in upper[i];
      FirstCharToUpperKeeps(parts[i], c);
      assert c in parts[i];
    }
  }

  /**
   * With dots, the normalisation after the join removes only spaces,
   * umlauts and sharp s and adds only letters: every other mark (digits,
   * underscores, hyphens, ...) is kept exactly as in the segments.
   */
  lemma {:induction false} NamespaceKeepsMarks(namespace: string, c: char)
    requires '.' in namespace
    requires c !in DiacriticKeys && !IsAsciiLetter(c)
    ensures c in GenerateNamespace(namespace) <==> c in JoinedSegments(namespace)
  {
    var joined := JoinedSegments(namespace);
    var upper := FirstCharToUpper(joined);
    var spaceless := Replace(upper, " ", "");
    var cleaned := Clean(spaceless, false);
    assert c != ' ' by { assert DiacriticKeys[0] == ' '; }
    FirstCharToUpperKeeps(joined, c);
    if c in upper {
      ReplaceCharKeepsOther(upper, ' ', "", c);
    } else {
      ReplaceKeepsAbsent(upper, " ", "", c);
    }
    CleanKeepsMarks(spaceless, c);
    PrefixWords();
    if StartsWithNumber(cleaned) {
      assert GenerateNamespace(namespace) == NsPrefix + cleaned;
      assert c !in NsPrefix;
    }
  }

  /** Underscores are never removed from a namespace, nor added. */
  lemma {:induction false} NamespaceKeepsUnderscore(namespace: string)
    ensures '_' in GenerateNamespace(namespace) <==> '_' in namespace
  {
    if '.' !in namespace {
      NamespaceWithoutDot(namespace, '_');
    } else {
      UnderscoreIsMark();
      NamespaceKeepsMarks(namespace, '_');
      JoinedSegmentsMembers(namespace, '_');
    }
  }

  lemma UnderscoreIsMark()
    ensures '_' != '.' && !IsWhiteSpace('_') && !IsAsciiLetter('_') && '_' !in DiacriticKeys
  {
  }

  /**
   * The dotted segments of the join are the trimmed, non-empty segments of
   * the input, each upper-cased at its first character.
   */
  lemma {:induction false} NamespaceSegments(namespace: string)
    ensures var parts := SplitTrimmed(namespace, '.');
      parts == [] ==> JoinedSegments(namespace) == ""
    ensures var parts := SplitTrimmed(namespace, '.'); var segments := Split(JoinedSegments(namespace), '.');
      parts != [] ==>
        && |segments| == |parts|
        && forall k | 0 <= k < |parts| :: segments[k] == FirstCharToUpper(parts[k])
  {
    var parts := SplitTrimmed(namespace, '.');
    var upper := seq(|parts|, i requires 0 <= i < |parts| => FirstCharToUpper(parts[i]));
    assert JoinedSegments(namespace) == Join(upper, ['.']);
    if parts != [] {
      forall k | 0 <= k < |upper| ensures '.' !in upper[k] {
        FirstCharToUpperKeeps(parts[k], '.');
      }
      SplitJoin(upper, '.');
    }
  }

  /** Every dotted segment of the join is non-empty and starts with neither whitespace nor a lower-case letter. */
  lemma {:induction false} NamespaceSegmentShape(namespace: string)
    requires SplitTrimmed(namespace, '.') != []
    ensures var segments := Split(JoinedSegments(namespace), '.');
      forall k | 0 <= k < |segments| :: segments[k] != [] && !IsWhiteSpace(segments[k][0]) && !('a' <= segments[k][0] <= 'z')
  {
    var parts := SplitTrimmed(namespace, '.');
    var segments := Split(JoinedSegments(namespace), '.');
    NamespaceSegments(namespace);
    forall k | 0 <= k < |segments|
      ensures segments[k] != [] && !IsWhiteSpace(segments[k][0]) && !('a' <= segments[k][0] <= 'z')
    {
      assert segments[k] == FirstCharToUpper(parts[k]);
    }
  }
}
