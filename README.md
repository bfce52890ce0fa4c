# MsSql.ClassGenerator.Core — generation engine

This project models the engine that turns the tables of an MS SQL database into C# classes. The
`ClassManager` receives the tables, together with their columns and the options the user chose. It
loads the SQL-to-C# type conversion table and the optional "additional information" file of summaries
and remarks. For each table it renders a class from text templates whose `$KEY$` placeholders are
filled in by bindings. When a database model is wanted, it also writes an Entity Framework
`OnModelCreating` override that declares the composite primary keys.

The model follows the source file by file:

| Dafny file | models |
|---|---|
| `generator.dfy` (`Generator`) | `ClassManager.cs`: the `ClassManager` class with its three fields, the class loop, the property loop, the two addition builders, and the whole run as a function `Generate` |
| `template_renderer.dfy` (`TemplateRenderer`) | `FinalizeTemplate`: the template engine, a loop over lines and bindings |
| `string_default.dfy` (`StringDefault`) | `SetStringDefault`: the in-place edit of the template array |
| `ef_key_code.dfy` (`EfKeyCode`) | `GenerateEfKeyCode`: the string-builder loop |
| `annotations.dfy` (`Annotations`) | the lines that `CreateClassAddition` and `CreatePropertyAddition` build |
| `classmanager_helper.dfy` (`ClassManagerHelper`) | `ClassManager.Helper.cs`: file names, type lookup, line search, name normalisation |
| `extensions.dfy` (`Extensions`) | `Common/Extensions.cs` |
| `database.dfy`, `internal.dfy`, `model.dfy` | the entries `ColumnEntry`, `TableEntry`, `InfoEntry`, `ClassGeneratorOptions`, `ClassEntry`, `GeneratorResult` |
| `strings.dfy`, `wrappers.dfy` | the .NET string operations the code relies on, and `Option`/`Result` |

Each loop of the source is a method with loop invariants. Each method is proved equal to a function,
and the source's promises are proved about that function as lemmas.

The model makes these choices:
- `Environment.NewLine` is `"\n"`.
- Case mapping is ASCII only.
- A `null` text is the empty text wherever the code only ever tests it with
  `IsNullOrEmpty`/`IsNullOrWhiteSpace` (for example `InfoEntry.Column`).
- Files are inputs of the run:
  - a JSON file is a `Resource` that is `Missing`, `Unreadable` or `Loaded`;
  - the templates are a map from file name to lines.

The model follows what the code does; in particular:
- The properties of a class come in the order of the column list. `ColumnEntry.Order` is not used for sorting.
- The key block of the Entity Framework override uses the raw `TableEntry.ClassName` and `ColumnEntry.PropertyName`. It does not use the normalised class and property names.
- A namespace without a dot is only upper-cased at its first character and has its spaces removed. It gets neither the umlaut replacement nor the `Ns` prefix (`ClassManager.Helper.cs:268-269`).
- A malformed `TypeConversion.json` makes the whole run fail. Only the additional-information file is read under a `try`.
- The `[Table(` and `[Column(` attributes are emitted exactly as the code writes them, with the argument list left open.

## Model

| member | source | states |
|---|---|---|
| Generator.ClassManager.GenerateClasses | MsSql.ClassGenerator.Core/ClassManager.cs:33-71 | The result and the manager's fields after the call are those that `Generate` assigns to the old fields and the files |
| Generator.ClassManager.GenerateResult | MsSql.ClassGenerator.Core/ClassManager.cs:52-70 | Once the options are set and there are tables: loading the class template, then the loop of per-table classes in table order, then the key code only when `DbModel` is set |
| Generator.ClassManager.constructor | MsSql.ClassGenerator.Core/ClassManager.Helper.cs:85-93 | A new manager has no options and two empty lists |
| Generator.ClassManager.LoadTypeConversionData | MsSql.ClassGenerator.Core/ClassManager.Helper.cs:99-111 | A list that already holds rows is kept. A missing file leaves the list empty, a malformed file is an error, and otherwise the file's rows replace the list. The other fields do not change |
| Generator.ClassManager.LoadAdditionalInformation | MsSql.ClassGenerator.Core/ClassManager.Helper.cs:118-133 | The list is reset, then loaded. A missing or unreadable file leaves it empty. The other fields do not change |
| Generator.ClassManager.GenerateClass | MsSql.ClassGenerator.Core/ClassManager.cs:79-147 | A missing property template is an error. Otherwise the class equals `ClassCode` of the table: properties in column order, the `using` line, the bindings, and the name |
| Generator.ClassManager.GenerateProperties | MsSql.ClassGenerator.Core/ClassManager.cs:99-104 | One property code per column, in list order, each followed by an empty line except the last |
| Generator.ClassManager.GeneratePropertyCode | MsSql.ClassGenerator.Core/ClassManager.cs:157-190 | The property equals the template copy with its string default, rendered with the five property bindings |
| Generator.ClassManager.CreatePropertyAddition | MsSql.ClassGenerator.Core/ClassManager.cs:285-325 | The text equals the documentation lines, then the attribute lines, joined by line breaks |
| Generator.ClassManager.AddPropertyAttributes | MsSql.ClassGenerator.Core/ClassManager.cs:308-322 | Appends `[Key]`, `[Column]`, `[DataType(Date)]` and `[MaxLength]`, each under its own condition, after the lines already present |
| Generator.ClassManager.CreateClassAddition | MsSql.ClassGenerator.Core/ClassManager.cs:230-276 | The text equals the summary and remarks lines, then `[Table]` when it is a database model, joined by line breaks |
| Generator.ClassManager.AddClassRemarks | MsSql.ClassGenerator.Core/ClassManager.cs:245-265 | Appends the remarks block, then the paragraph break and the table name only when the remarks have text and the table name is wanted |
| Generator.OneClassPerTable | MsSql.ClassGenerator.Core/ClassManager.cs:57-63 | A successful run yields exactly one class per table, in table order, carrying its table's name and the class name built from it |
| Generator.GeneratedClassPerTable | MsSql.ClassGenerator.Core/ClassManager.cs:52-64 | The same property, stated for the generation step once the options are in place |
| Generator.ClassCodesNamed | MsSql.ClassGenerator.Core/ClassManager.cs:57-63 | The class list has the length of the table list, and entry j is the class of table j |
| Generator.ClassCodeNames | MsSql.ClassGenerator.Core/ClassManager.cs:141-146 | A class entry carries the table name and the normalised class name |
| Generator.KeyCodeOnlyForCompositeKeys | MsSql.ClassGenerator.Core/ClassManager.cs:65-67 | A successful run carries key code exactly when `DbModel` is set and some table has a composite key. With `DbModel` it is the override built from the tables, and otherwise the empty text |
| Generator.Generate | MsSql.ClassGenerator.Core/ClassManager.cs:33-71 | Null options leave the fields as they were. Otherwise the stored options are the given ones with at most `AddSummary` switched on, never off. No tables give the empty result and store the given options |
| Generator.GenerateNonEmpty | MsSql.ClassGenerator.Core/ClassManager.cs:38-71 | With tables, options are always stored, equal to the given ones except that `AddSummary` may be switched on |
| Generator.EffectiveOptions | MsSql.ClassGenerator.Core/ClassManager.cs:49-50 | `AddSummary` is on exactly when it was on or information entries were loaded; every other option is unchanged |
| Generator.GenerateErrors | MsSql.ClassGenerator.Core/ClassManager.cs:36-54 | The run fails for null options exactly when the options are absent. It fails for the conversion file exactly when there are options and tables, no conversions were loaded before, and the file does not deserialise. A template error names one of the two chosen template files, and that file is not there |
| Generator.GenerateSucceeds | MsSql.ClassGenerator.Core/ClassManager.cs:44-71 | With options and tables, a conversion list that loads, and both chosen template files present, the run succeeds |
| Generator.StateAfterRun | MsSql.ClassGenerator.Core/ClassManager.cs:44-50 | After a run over tables whose conversions load, the fields hold the effective options, the loaded conversions and the loaded information |
| Generator.SummaryForcedByInformation | MsSql.ClassGenerator.Core/ClassManager.cs:49-50 | Information entries switch `AddSummary` on and change no other option. Without entries the options stay as they were |
| Generator.LoadedConversionsIdempotent | MsSql.ClassGenerator.Core/ClassManager.Helper.cs:101-102 | Loading the conversions a second time keeps the list from the first load |
| Generator.ColumnInformationFilter | MsSql.ClassGenerator.Core/ClassManager.cs:91-93 | The column entries are exactly the entries about a column of the table, matched ignoring case |
| Generator.TableInformationFirstMatch | MsSql.ClassGenerator.Core/ClassManager.cs:94-96 | The table entry is the first table-level entry of the table. There is none exactly when no entry is about the table itself |
| Generator.TableOrColumnLevel | MsSql.ClassGenerator.Core/ClassManager.cs:91-96 | An entry of the table describes the table exactly when its column is blank, and otherwise describes a column, never both |
| Generator.PropertiesSeparated | MsSql.ClassGenerator.Core/ClassManager.cs:99-104 | Property j is the property code with an empty line for every column except the last |
| Generator.EmptyLineAppended | MsSql.ClassGenerator.Core/ClassManager.cs:381-382 | Asking for the empty line appends one line break to the property and changes nothing else |
| Generator.PropertyBindingValues | MsSql.ClassGenerator.Core/ClassManager.cs:170-186 | The bindings are, in order: the type; `?` exactly for nullable columns; the normalised name; `_` plus the name with a lower-cased first character; the additions. None is indented |
| Generator.ClassBindingValues | MsSql.ClassGenerator.Core/ClassManager.cs:107-136 | The seven class bindings in order. Only the properties binding is indented. ` sealed` appears exactly for sealed classes, and the base class exactly when `SetProperty` is used |
| Generator.ClassTemplateUsing | MsSql.ClassGenerator.Core/ClassManager.cs:131-135 | The `using` line comes first exactly when `SetProperty` is used, followed by the unchanged template. Otherwise the template is unchanged |
| Generator.ModifierKeywordInjective | MsSql.ClassGenerator.Core/ClassManager.cs:113-120 | Each class modifier is written with its own keyword |
| TemplateRenderer.FinalizeTemplate | MsSql.ClassGenerator.Core/ClassManager.cs:334-385 | The loop over lines and bindings computes `Finalize`: each line rendered, blank results dropped, no break after the last line, and an optional empty line |
| TemplateRenderer.Token | MsSql.ClassGenerator.Core/ClassManager.cs:357 | The placeholder of a key is the upper-cased key between two `$`, two characters longer than the key |
| TemplateRenderer.Indented | MsSql.ClassGenerator.Core/ClassManager.cs:366-368 | Every line of an indented value gets one `Tab` in front |
| TemplateRenderer.SubstituteOneMore | MsSql.ClassGenerator.Core/ClassManager.cs:355-370 | Each binding in turn replaces its token in the line the earlier bindings produced |
| TemplateRenderer.KeptLine | MsSql.ClassGenerator.Core/ClassManager.cs:343-373 | A line survives rendering as at most one line |
| TemplateRenderer.KeptLines | MsSql.ClassGenerator.Core/ClassManager.cs:338-379 | No more lines survive than the template has |
| TemplateRenderer.KeptLinesNotBlank | MsSql.ClassGenerator.Core/ClassManager.cs:372-373 | A surviving blank line is one that was blank in the template already |
| TemplateRenderer.KeptLinesSnoc | MsSql.ClassGenerator.Core/ClassManager.cs:338-379 | One more template line adds its own surviving rendering at the end |
| TemplateRenderer.PieceBeforeLast | MsSql.ClassGenerator.Core/ClassManager.cs:375-378 | Every line before the template's last ends with a line break |
| TemplateRenderer.RenderedPrefix | MsSql.ClassGenerator.Core/ClassManager.cs:338-379 | The text of the first n lines is their surviving lines, each terminated |
| TemplateRenderer.FinalizeShape | MsSql.ClassGenerator.Core/ClassManager.cs:334-385 | The output is the surviving lines joined by breaks. It has a trailing break only when the last line was dropped, plus one more for the empty line |
| TemplateRenderer.FinalizeEmptyLine | MsSql.ClassGenerator.Core/ClassManager.cs:381-382 | The empty line is one line break appended to the otherwise identical output |
| TemplateRenderer.VerbatimLine | MsSql.ClassGenerator.Core/ClassManager.cs:343-350 | A line without `$` is copied unchanged, with a break unless it is the last |
| TemplateRenderer.BlankLineDropped | MsSql.ClassGenerator.Core/ClassManager.cs:372-373 | A placeholder line that becomes blank contributes nothing |
| TemplateRenderer.BindingReplacesEveryToken | MsSql.ClassGenerator.Core/ClassManager.cs:361 | A plain binding replaces every occurrence of its token |
| TemplateRenderer.IndentedBindingLines | MsSql.ClassGenerator.Core/ClassManager.cs:366-369 | A multi-line indented value becomes its lines, each indented, joined by breaks |
| TemplateRenderer.EmptyPlaceholderLineDropped | MsSql.ClassGenerator.Core/ClassManager.cs:372-373 | A line holding only a placeholder bound to the empty text disappears |
| TemplateRenderer.TwoSegmentsTwoLines | MsSql.ClassGenerator.Core/ClassManager.cs:366-369 | An indented two-line value renders as two indented lines |
| StringDefault.SetStringDefault | MsSql.ClassGenerator.Core/ClassManager.cs:197-222 | The array afterwards holds `WithStringDefault` of its old contents |
| StringDefault.OtherTypesUnchanged | MsSql.ClassGenerator.Core/ClassManager.cs:199-200 | Any type other than `string` leaves the template unchanged |
| StringDefault.FieldLineGetsDefault | MsSql.ClassGenerator.Core/ClassManager.cs:204-210 | With a backing field, only the first `$NAME2$` line changes: its `;` becomes ` = string.Empty;` |
| StringDefault.PropertyLineGetsDefault | MsSql.ClassGenerator.Core/ClassManager.cs:212-221 | Without a backing field, the first `$NAME$` line gets ` = string.Empty;` appended, and no other line changes |
| StringDefault.NoPlaceholderUnchanged | MsSql.ClassGenerator.Core/ClassManager.cs:212-221 | A template without either placeholder is unchanged |
| StringDefault.AtMostOneLineChanges | MsSql.ClassGenerator.Core/ClassManager.cs:197-222 | The line count is kept and at most one line differs |
| EfKeyCode.GenerateEfKeyCode | MsSql.ClassGenerator.Core/ClassManager.cs:392-443 | The builder loop computes `KeyCode`: empty without composite keys, otherwise header, blocks and closing brace |
| EfKeyCode.PrepareStringBuilder | MsSql.ClassGenerator.Core/ClassManager.cs:426-434 | The three header lines, each terminated |
| EfKeyCode.KeyCodeParts | MsSql.ClassGenerator.Core/ClassManager.cs:399-442 | The code is the header, then the sections, then `}` and a break |
| EfKeyCode.OpenStep | MsSql.ClassGenerator.Core/ClassManager.cs:403-405 | Opening a block appends the entity line and `{` |
| EfKeyCode.KeyStep | MsSql.ClassGenerator.Core/ClassManager.cs:410-415 | Key member c is `k.Name` with a comma unless it is the last key |
| EfKeyCode.CloseStep | MsSql.ClassGenerator.Core/ClassManager.cs:417-421 | Closing a block appends `});`, and the spacer line unless it is the last block |
| EfKeyCode.AppendLine | MsSql.ClassGenerator.Core/ClassManager.cs:401-442 | `AppendLine` adds the line and one break to the builder's text |
| EfKeyCode.KeyColumnsFilter | MsSql.ClassGenerator.Core/ClassManager.cs:408 | The key columns are exactly the primary-key columns, in list order |
| EfKeyCode.KeyTablesFilter | MsSql.ClassGenerator.Core/ClassManager.cs:395 | The qualifying tables are exactly those with more than one key column, in input order |
| EfKeyCode.KeyCodeEmptyIff | MsSql.ClassGenerator.Core/ClassManager.cs:395-399 | The code is empty exactly when no table has a composite key |
| EfKeyCode.KeyLinesShape | MsSql.ClassGenerator.Core/ClassManager.cs:408-415 | Key line j is two `Tab`s, `k.` and the raw property name, with a comma on every line but the last |
| EfKeyCode.SectionsBeforeLast | MsSql.ClassGenerator.Core/ClassManager.cs:420-421 | Every block before the last is followed by its spacer |
| EfKeyCode.SectionsSpaced | MsSql.ClassGenerator.Core/ClassManager.cs:401-422 | Blocks are separated by one empty line, with none after the last |
| Annotations.ClassAdditionMatchesReference | MsSql.ClassGenerator.Core/ClassManager.cs:230-276 | The class block holds exactly the reference lines whose conditions hold, in reference order |
| Annotations.ClassAdditionEmptyIff | MsSql.ClassGenerator.Core/ClassManager.cs:235-275 | The class addition is empty exactly when neither a summary, nor the table name in the summary, nor a database model is wanted |
| Annotations.JoinEmptyIff | MsSql.ClassGenerator.Core/ClassManager.cs:275 | Non-empty lines join to the empty text only when there are none |
| Annotations.TableAttributeSchema | MsSql.ClassGenerator.Core/ClassManager.cs:268-273 | `[Table]` names the schema exactly when the schema is not blank |
| Annotations.ColumnInfoFirstMatch | MsSql.ClassGenerator.Core/ClassManager.cs:290-292 | The column's entry is the first entry naming the column. There is none exactly when no entry names it |
| Annotations.ColumnInfoIgnoresCase | MsSql.ClassGenerator.Core/ClassManager.cs:290-292 | Column names are matched ignoring case |
| Annotations.PropertyAdditionMatchesReference | MsSql.ClassGenerator.Core/ClassManager.cs:285-325 | The property block holds exactly the reference lines whose conditions hold, in reference order |
| Annotations.PropertyAttributesIff | MsSql.ClassGenerator.Core/ClassManager.cs:308-322 | Each attribute is present exactly under its condition. `[Key]` needs a database model and a key column. `[Column]` needs the option or a different alias. `[DataType(DataType.Date)]` needs the SQL type `date`, ignoring case. `[MaxLength]` needs the C# type `string`, compared with case |
| Annotations.DocumentationLines | MsSql.ClassGenerator.Core/ClassManager.cs:294-306 | The documentation part holds `///` lines only |
| Annotations.AttributeMembership | MsSql.ClassGenerator.Core/ClassManager.cs:294-322 | An attribute appears in the property block exactly when its condition holds |
| Annotations.AttributeLiterals | MsSql.ClassGenerator.Core/ClassManager.cs:309-315 | `[Key]` and `[DataType(DataType.Date)]` start with `[K` and `[D` |
| Annotations.ColumnAttributeShape | MsSql.ClassGenerator.Core/ClassManager.cs:313-314 | The column attribute starts with `[C` whatever the name |
| Annotations.MaxLengthAttributeShape | MsSql.ClassGenerator.Core/ClassManager.cs:319-321 | Both forms of the length attribute start with `[MaxLength(` |
| Annotations.MaxLengthUnboundedIff | MsSql.ClassGenerator.Core/ClassManager.cs:319-321 | The length is written as `int.MaxValue` exactly for `-1` (`NVARCHAR(MAX)`) |
| ClassManagerHelper.ClassTemplateFileChoice | MsSql.ClassGenerator.Core/ClassManager.Helper.cs:140-146 | The namespace template is used exactly when a namespace is wanted |
| ClassManagerHelper.PropertyTemplateFileChoice | MsSql.ClassGenerator.Core/ClassManager.Helper.cs:152-164 | `SetProperty` wins, then the backing field, then the default. Each file is chosen in exactly one case |
| ClassManagerHelper.CSharpType | MsSql.ClassGenerator.Core/ClassManager.Helper.cs:192-198 | The type is that of the first conversion whose SQL type matches ignoring case. Without a match it is `object` |
| ClassManagerHelper.CSharpTypeIgnoresCase | MsSql.ClassGenerator.Core/ClassManager.Helper.cs:192-198 | SQL types that differ only in case resolve alike |
| ClassManagerHelper.LineIndex | MsSql.ClassGenerator.Core/ClassManager.Helper.cs:206-215 | The least index of a line containing the value, or -1 exactly when no line contains it |
| ClassManagerHelper.GetLineIndex | MsSql.ClassGenerator.Core/ClassManager.Helper.cs:206-215 | The for-loop search over the array returns `LineIndex` of its contents |
| ClassManagerHelper.InvalidCharReplaceList | MsSql.ClassGenerator.Core/ClassManager.Helper.cs:239-257 | The eight fixed pairs (space removed, umlauts transliterated, ß to ss), then `_` removed when asked for |
| ClassManagerHelper.GetInvalidCharReplaceList | MsSql.ClassGenerator.Core/ClassManager.Helper.cs:239-257 | The list, with the underscore pair appended when asked for, equals `InvalidCharReplaceList` |
| ClassManagerHelper.ReplaceListNormalising | MsSql.ClassGenerator.Core/ClassManager.Helper.cs:239-257 | The table's keys are single characters, and no replacement text brings any key back |
| ClassManagerHelper.FoldKeepsAbsent | MsSql.ClassGenerator.Core/ClassManager.Helper.cs:225-226 | The `Aggregate` of replacements never introduces a character that no value contains |
| ClassManagerHelper.FoldRemovesKeys | MsSql.ClassGenerator.Core/ClassManager.Helper.cs:225-226 | After the fold over a normalising table, none of its keys is left |
| ClassManagerHelper.FoldIdentity | MsSql.ClassGenerator.Core/ClassManager.Helper.cs:225-226 | A text without any key passes through the fold unchanged |
| ClassManagerHelper.FoldKeepsPresent | MsSql.ClassGenerator.Core/ClassManager.Helper.cs:277-278 | The fold over single-character keys removes no other character |
| ClassManagerHelper.NoDiacriticsKeys | MsSql.ClassGenerator.Core/ClassManager.Helper.cs:243-250 | "No space, umlaut or ß" is the absence of every fixed key |
| ClassManagerHelper.Clean | MsSql.ClassGenerator.Core/ClassManager.Helper.cs:309 | Cleaning leaves no space, umlaut or ß, and no `_` when the table includes it |
| ClassManagerHelper.CleanIdentity | MsSql.ClassGenerator.Core/ClassManager.Helper.cs:309 | An already clean text is unchanged |
| ClassManagerHelper.CleanKeepsMarks | MsSql.ClassGenerator.Core/ClassManager.Helper.cs:277-278 | Cleaning without the underscore pair keeps exactly the characters that are neither letters nor table keys |
| ClassManagerHelper.FoldNoDiacritics | MsSql.ClassGenerator.Core/ClassManager.Helper.cs:225-226 | The fold over the table leaves no space, umlaut or ß, and no `_` when included |
| ClassManagerHelper.FoldCleans | MsSql.ClassGenerator.Core/ClassManager.Helper.cs:277-278 | Any normalising table that starts with the fixed keys cleans every text |
| ClassManagerHelper.GeneratePropertyName | MsSql.ClassGenerator.Core/ClassManager.Helper.cs:222-232 | The property name has no space, umlaut or `_`, does not start in lower case, and does not start with a digit |
| ClassManagerHelper.UpperKeepsClean | MsSql.ClassGenerator.Core/ClassManager.Helper.cs:229 | Upper-casing the first character brings no space, umlaut or `_` back |
| ClassManagerHelper.GeneratePropertyNameIdempotent | MsSql.ClassGenerator.Core/ClassManager.Helper.cs:222-232 | Normalising a property name twice gives the same name as once |
| ClassManagerHelper.UpperFirstConcat | MsSql.ClassGenerator.Core/ClassManager.Helper.cs:300 | Concatenating the upper-cased pieces keeps exactly their non-letter characters |
| ClassManagerHelper.GenerateClassName | MsSql.ClassGenerator.Core/ClassManager.Helper.cs:288-312 | The class name has no space, umlaut or `_`, and does not start with a digit |
| ClassManagerHelper.UnderscoreFreeConcat | MsSql.ClassGenerator.Core/ClassManager.Helper.cs:297-300 | Splitting on `_` and re-concatenating leaves no `_` |
| ClassManagerHelper.PrefixWords | MsSql.ClassGenerator.Core/ClassManager.Helper.cs:231 | `Column`, `Class` and `Ns` are upper-case letter words |
| ClassManagerHelper.DigitGuard | MsSql.ClassGenerator.Core/ClassManager.Helper.cs:311 | The prefix is added exactly when the text starts with a digit, and the result never starts with one |
| ClassManagerHelper.ClassNameFixedPoint | MsSql.ClassGenerator.Core/ClassManager.Helper.cs:288-312 | A name of letters and digits that does not start in lower case or with a digit is its own class name |
| ClassManagerHelper.GenerateClassNameIdempotent | MsSql.ClassGenerator.Core/ClassManager.Helper.cs:288-312 | For names of letters, digits and `_`, normalising the class name twice gives the same name as once |
| ClassManagerHelper.ClassNameOfIdentifierText | MsSql.ClassGenerator.Core/ClassManager.Helper.cs:288-312 | Such a name gives a class name of letters and digits that does not start in lower case |
| ClassManagerHelper.DigitGuardIdentifier | MsSql.ClassGenerator.Core/ClassManager.Helper.cs:311 | The digit guard keeps identifier text and an upper-case start |
| ClassManagerHelper.CleanedIdentifierText | MsSql.ClassGenerator.Core/ClassManager.Helper.cs:292-309 | On identifier text the cleaning step of either branch changes nothing |
| ClassManagerHelper.IdentifierTextIsClean | MsSql.ClassGenerator.Core/ClassManager.Helper.cs:243-250 | Identifier text holds no space and no umlaut |
| ClassManagerHelper.UpperFirstConcatIdentifiers | MsSql.ClassGenerator.Core/ClassManager.Helper.cs:300 | Concatenating non-empty identifier pieces gives identifier text that does not start in lower case |
| ClassManagerHelper.SplitTrimmedIdentifiers | MsSql.ClassGenerator.Core/ClassManager.Helper.cs:297 | Splitting identifier text on `_` yields non-empty letter-and-digit pieces |
| ClassManagerHelper.SplitCharsFrom | MsSql.ClassGenerator.Core/ClassManager.Helper.cs:297 | A split piece holds only characters of the text |
| ClassManagerHelper.NoWhiteSpaceTrim | MsSql.ClassGenerator.Core/ClassManager.Helper.cs:297 | Trimming identifier text changes nothing |
| ClassManagerHelper.GenerateNamespace | MsSql.ClassGenerator.Core/ClassManager.Helper.cs:263-281 | The namespace has no space. A dotted namespace also has no umlaut and does not start with a digit |
| ClassManagerHelper.NamespaceWithoutDot | MsSql.ClassGenerator.Core/ClassManager.Helper.cs:268-269 | Without a dot: a space-free namespace is only upper-cased at its first character; every non-letter other than a space is kept exactly; a leading digit stays, with no `Ns` prefix |
| ClassManagerHelper.JoinedSegmentsMembers | MsSql.ClassGenerator.Core/ClassManager.Helper.cs:271-272 | Trimming, dropping empty segments and re-joining keep exactly the characters that are neither dots, whitespace nor letters |
| ClassManagerHelper.NamespaceKeepsMarks | MsSql.ClassGenerator.Core/ClassManager.Helper.cs:274-280 | With a dot, the space removal, umlaut replacement and `Ns` prefix keep exactly the joined segments' characters that are neither letters nor table keys |
| ClassManagerHelper.NamespaceKeepsUnderscore | MsSql.ClassGenerator.Core/ClassManager.Helper.cs:263-281 | The namespace holds an underscore exactly when the input does, with or without dots |
| ClassManagerHelper.NamespaceSegments | MsSql.ClassGenerator.Core/ClassManager.Helper.cs:271-272 | Splitting the join on dots gives back the trimmed, non-empty input segments, each upper-cased at its first character; no segment gives the empty text |
| ClassManagerHelper.NamespaceSegmentShape | MsSql.ClassGenerator.Core/ClassManager.Helper.cs:271-272 | Every dotted segment of the join is non-empty and starts with neither whitespace nor a lower-case letter |
| Extensions.StarFree | MsSql.ClassGenerator.Core/Common/Extensions.cs:21-25 | Removing `*` leaves a star-free text unchanged |
| Extensions.MatchFilterContains | MsSql.ClassGenerator.Core/Common/Extensions.cs:27-33 | `*x*` matches exactly the values that contain x, ignoring case |
| Extensions.MatchFilterSuffix | MsSql.ClassGenerator.Core/Common/Extensions.cs:27-33 | `*x` matches exactly the values that end with x, ignoring case |
| Extensions.MatchFilterPrefix | MsSql.ClassGenerator.Core/Common/Extensions.cs:27-33 | `x*` matches exactly the values that start with x, ignoring case |
| Extensions.MatchFilterExact | MsSql.ClassGenerator.Core/Common/Extensions.cs:27-33 | A filter without `*` matches exactly the values equal to it, ignoring case |
| Extensions.MatchFilterInteriorStar | MsSql.ClassGenerator.Core/Common/Extensions.cs:21-33 | An interior `*` is removed, so `a*b` matches only `ab` |
| Extensions.StarRemoval | MsSql.ClassGenerator.Core/Common/Extensions.cs:21-25 | Every `*` is removed, whatever its position |
| Extensions.MatchFilter | MsSql.ClassGenerator.Core/Common/Extensions.cs:16-34 | A blank filter matches every value; the wildcard cases are stated by the lemmas above |
| Extensions.ChangeFirstChar | MsSql.ClassGenerator.Core/Common/Extensions.cs:81-89 | Only the first character changes, to its upper or lower case. The length is kept |
| Extensions.FirstCharToUpper | MsSql.ClassGenerator.Core/Common/Extensions.cs:70-73 | Only the first character changes, and it is not a lower-case letter. Digits and spaces stay as they are |
| Extensions.FirstCharToLower | MsSql.ClassGenerator.Core/Common/Extensions.cs:60-63 | Only the first character changes, and it is not an upper-case letter |
| Extensions.FirstCharToUpperIdempotent | MsSql.ClassGenerator.Core/Common/Extensions.cs:70-73 | Upper-casing twice is upper-casing once |
| Extensions.FirstCharToLowerIdempotent | MsSql.ClassGenerator.Core/Common/Extensions.cs:60-63 | Lower-casing twice is lower-casing once |
| Extensions.FirstCharToUpperKeeps | MsSql.ClassGenerator.Core/Common/Extensions.cs:70-73 | Non-letters are present after the change exactly when they were before |
| Extensions.StartsWithNumber | MsSql.ClassGenerator.Core/Common/Extensions.cs:96-99 | True exactly for a text whose first character is a digit |
| Database.ColumnEntry.PropertyName | MsSql.ClassGenerator.Core/Model/Database/ColumnEntry.cs:34 | The property name is the column name, or the alias when that is not blank; it is blank only when it is the column name |
| Database.ColumnEntry.HasDifferentAlias | MsSql.ClassGenerator.Core/Model/Database/ColumnEntry.cs:26 | There is a different alias exactly when the property name differs from the column name |
| Database.NewColumnEntry | MsSql.ClassGenerator.Core/Model/Database/ColumnEntry.cs:6-61 | A default column has an empty property name, no different alias, and is neither key nor nullable |
| Database.BlankAliasFallsBack | MsSql.ClassGenerator.Core/Model/Database/ColumnEntry.cs:26-34 | With a blank alias the property name is the column name, and there is no different alias |
| Database.DifferentAliasNamesProperty | MsSql.ClassGenerator.Core/Model/Database/ColumnEntry.cs:26-34 | A different alias is the property name and differs from the column name |
| Database.CaseOnlyAliasDiffers | MsSql.ClassGenerator.Core/Model/Database/ColumnEntry.cs:26 | The alias comparison is case-sensitive: `id` is a different alias for `Id` |
| Database.TableEntry.ClassName | MsSql.ClassGenerator.Core/Model/Database/TableEntry.cs:29 | The class name is the table name, or the alias when that is not blank; it is blank only when it is the table name |
| Database.NewTableEntry | MsSql.ClassGenerator.Core/Model/Database/TableEntry.cs:6-40 | A default table has an empty class name, schema and column list |
| Database.ClassNameChoice | MsSql.ClassGenerator.Core/Model/Database/TableEntry.cs:29 | The class name is the alias when it is not blank, and the table name otherwise |
| Database.ClassNameIgnoresSchemaAndColumns | MsSql.ClassGenerator.Core/Model/Database/TableEntry.cs:29 | The class name depends on neither the schema, the columns nor the id |
| Database.WhitespaceAliasFallsBack | MsSql.ClassGenerator.Core/Model/Database/TableEntry.cs:29 | Any alias that is set but made of whitespace only falls back to the table name |
| InternalRecords.InfoEntry.IsEmpty | MsSql.ClassGenerator.Core/Model/Internal/InfoEntry.cs:31 | Empty means summary and remarks both have length zero, so both are blank |
| InternalRecords.NewInfoEntry | MsSql.ClassGenerator.Core/Model/Internal/InfoEntry.cs:6-31 | A default entry is empty and table-level |
| InternalRecords.IsEmptyIgnoresTableAndColumn | MsSql.ClassGenerator.Core/Model/Internal/InfoEntry.cs:31 | Emptiness looks only at the summary and the remarks |
| InternalRecords.WhitespaceSummaryIsNotEmpty | MsSql.ClassGenerator.Core/Model/Internal/InfoEntry.cs:31 | Any summary that is set but made of whitespace only makes the entry non-empty (`IsNullOrEmpty`), even though it counts as blank text |
| Model.NewOptions | MsSql.ClassGenerator.Core/Model/ClassGeneratorOptions.cs:13-61 | New options have the given namespace, a sealed public class, and every flag off |
| Model.NewGeneratorResult | MsSql.ClassGenerator.Core/Model/GeneratorResult.cs:11-16 | A new result has no classes and an empty key code |
| Strings.Split | MsSql.ClassGenerator.Core/ClassManager.cs:366-367 | `Split` yields at least one piece, and no piece holds the separator |
| Strings.JoinSplit | MsSql.ClassGenerator.Core/ClassManager.cs:366-369 | Joining the split pieces with the separator gives back the text |
| Strings.SplitJoin | MsSql.ClassGenerator.Core/ClassManager.cs:366-369 | Splitting pieces joined by a separator they do not contain gives back the pieces |
| Strings.ReplaceCharKeepsOther | MsSql.ClassGenerator.Core/ClassManager.Helper.cs:274 | Replacing one character never removes a different one |
| Strings.JoinMembers | MsSql.ClassGenerator.Core/ClassManager.Helper.cs:272 | A character other than the separator is in a join exactly when it is in one of the pieces |
| Strings.SplitMembers | MsSql.ClassGenerator.Core/ClassManager.Helper.cs:271 | A character other than the separator is in the text exactly when it is in one of the split pieces |
| Strings.TrimKeeps | MsSql.ClassGenerator.Core/ClassManager.Helper.cs:271 | Trimming keeps exactly the characters that are not whitespace |
| Strings.TrimStartKeeps | MsSql.ClassGenerator.Core/ClassManager.Helper.cs:271 | `TrimStart` keeps every character that is not whitespace |
| Strings.TrimEndKeeps | MsSql.ClassGenerator.Core/ClassManager.Helper.cs:271 | `TrimEnd` keeps every character that is not whitespace |
| Strings.TrimAllMembers | MsSql.ClassGenerator.Core/ClassManager.Helper.cs:271 | Trimming every piece keeps exactly the characters that are not whitespace |
| Strings.KeepNonEmptyMembers | MsSql.ClassGenerator.Core/ClassManager.Helper.cs:271 | Dropping the empty pieces loses no character |
| Strings.SplitTrimmedMembers | MsSql.ClassGenerator.Core/ClassManager.Helper.cs:271 | Trimmed splitting keeps exactly the characters that are neither the separator nor whitespace |
| Strings.ReplaceJoin | MsSql.ClassGenerator.Core/ClassManager.cs:361 | `Replace` on a join substitutes exactly the separators |
| Strings.SplitTrimmed | MsSql.ClassGenerator.Core/ClassManager.Helper.cs:271 | The pieces are trimmed, non-empty, and free of the separator |
| Strings.Trim | MsSql.ClassGenerator.Core/ClassManager.Helper.cs:297 | The trimmed text neither starts nor ends with whitespace and holds only characters of the text |
| Strings.TerminatedIsJoin | MsSql.ClassGenerator.Core/ClassManager.cs:399-442 | Lines that each end with a break are the joined lines plus one final break |

## Left out

- File access and JSON parsing (`LoadFileContentAsync`, `LoadJsonAsync`, `File.OpenRead`) are not modelled. Each file is an input value: the conversion and information files are `Resource`s, the templates a map from file name to lines.
- `async`/`await` and `CancellationToken` are not modelled. The operations are sequential.
- `CloneAsync` (`Common/Extensions.cs:42-53`) is not modelled as a JSON round trip. The option copy is a value copy. The template copy in `GeneratePropertyCode` is a fresh array that is not aliased with the template.
- The `ProgressEvent` notifications are not modelled. They are observable only by subscribers.
- `string.Equals(..., OrdinalIgnoreCase)`, `ToUpper` and `ToLower` are modelled on ASCII letters only, not with full Unicode case mapping. The `InvariantCultureIgnoreCase` comparisons of `GetCSharpType` (`ClassManager.Helper.cs:195`) and `MatchFilter` (`Common/Extensions.cs:29-32`) are linguistic in the source (ignorable characters, canonical equivalence); the model reduces them to the same ASCII ordinal comparison.
- `Environment.NewLine` is fixed to `"\n"`.
- `Generator.ClassManager.GenerateClasses`: the source sets `AddSummary` on the caller's options object. The model sets the manager's own copy, so the caller does not see the change.
- `Generator.ClassManager.GenerateClass`: the source inserts the `using` line at index 0 of a clone of the class template. The model prepends it to a sequence value. The shared template never changes in either form, but the in-place insert is not modelled.
- `Generator.ClassManager.GenerateClass`: the source reads the property template file again for every table. The model looks it up in the same fixed map each time, so a file that changes during a run is not modelled.
- `Generator.ClassManager.GenerateProperties`, `Generator.ClassManager.GenerateResult`, `Generator.ClassManager.AddPropertyAttributes` and `Generator.ClassManager.AddClassRemarks` are parts of source methods moved into methods of their own. The statements are the same.
- `StringDefault.WithStringDefault`: the function folds the source's `Any` test and its `-1` check into one index search, because the search after a successful `Any` test always succeeds. `StringDefault.SetStringDefault` keeps both steps as the source writes them.
- Every text field read from JSON is a non-null `string`: `TypeConversion.SqlType`, `TypeConversion.CsharpType`, `InfoEntry.Table`, `InfoEntry.Summary` and `InfoEntry.Remarks`. A `null` `SqlType` or `Table` makes the source throw at the comparison (`ClassManager.Helper.cs:195`, `ClassManager.cs:92`); that failure is not modelled.
- `ClassManagerHelper.CSharpType`: a matching entry whose `CsharpType` is `null` gives `"object"` in the source (`?.CsharpType ?? "object"`, `ClassManager.Helper.cs:196-197`). The model has no `null` type name, so only the no-match fallback to `"object"` is modelled.
- `Strings.IntToString` gives the digits of the length for `[MaxLength]`. Only their shape is stated (digits, or a leading `-`), not their value.
- `TableRepo`, `TableManager`, `ConnectionEntry`, `Helper.cs` and `AdditionalInformationEntry` are not part of this model. They hold database access, connection handling and UI data outside the generation engine.
