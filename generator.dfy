/**
 * The orchestration of `ClassManager.cs`: `GenerateClassesAsync`,
 * `GenerateClassAsync`, `GeneratePropertyCodeAsync`, the two addition
 * builders and the loaders of `ClassManager.Helper.cs`, on a `ClassManager`
 * object holding the options and the two loaded lists.
 *
 * Files are inputs: the type-conversion file and the information file are
 * each missing, unreadable or loaded, and the template files are a map from
 * file name to lines (a name not in the map is a missing file).
 */
module Generator {
  import opened Strings
  import opened Wrappers
  import opened Database
  import opened InternalRecords
  import opened Model
  import Extensions
  import ClassManagerHelper
  import TemplateRenderer
  import Annotations
  import StringDefault
  import EfKeyCode

  /** The outcome of reading and deserialising one file. */
  datatype Resource<T> = Missing | Unreadable | Loaded(content: T)

  /** The files the generator reads. */
  datatype Files = Files(
    typeConversion: Resource<seq<TypeConversion>>,
    information: Resource<seq<InfoEntry>>,
    templates: map<string, seq<string>>)

  /** What makes a generation run fail. */
  datatype Error =
    | OptionsNull                // `ArgumentNullException` for missing options
    | TypeConversionUnreadable   // the conversion file exists but does not deserialise
    | TemplateNotFound(file: string)

  const UsingLine: string := "using CommunityToolkit.Mvvm.ComponentModel;"
  const InheritValue: string := ": ObservableObject"

  // ---------------------------------------------------------------- loaders

  /**
   * The conversion list after `LoadTypeConversionDataAsync`: kept once it
   * holds rows, kept (empty) when the file is missing, replaced when it loads.
   */
  function LoadedConversions(current: seq<TypeConversion>, file: Resource<seq<TypeConversion>>): Result<seq<TypeConversion>, Error> {
    if |current| > 0 then Success(current)
    else match file
      case Missing => Success(current)
      case Unreadable => Failure(TypeConversionUnreadable)
      case Loaded(rows) => Success(rows)
  }

  /** The information list after `LoadAdditionalInformationAsync`: any failure leaves it empty. */
  function LoadedInformation(file: Resource<seq<InfoEntry>>): seq<InfoEntry> {
    match file
    case Loaded(entries) => entries
    case _ => []
  }

  /** A template file's lines, or the failure to open it. */
  function LoadTemplate(templates: map<string, seq<string>>, file: string): Result<seq<string>, Error> {
    if file in templates then Success(templates[file]) else Failure(TemplateNotFound(file))
  }

  /** The options in force once information entries exist: they switch summaries on. */
  function EffectiveOptions(options: ClassGeneratorOptions, information: seq<InfoEntry>): (r: ClassGeneratorOptions)
    ensures r.addSummary == (options.addSummary || |information| > 0)
    ensures r.(addSummary := options.addSummary) == options
  {
    if |information| > 0 then options.(addSummary := true) else options
  }

  // ---------------------------------------------------------------- one property

  /** An entry about one of the table's columns: the table name matches without regard to case, the column is not blank. */
  predicate DescribesColumnOf(e: InfoEntry, tableName: string) {
    EqualsIgnoreCase(e.table, tableName) && !e.IsTableLevel()
  }

  /** An entry about the table itself: the table name matches without regard to case, the column is blank. */
  predicate DescribesTable(e: InfoEntry, tableName: string) {
    EqualsIgnoreCase(e.table, tableName) && e.IsTableLevel()
  }

  /** The information entries about columns of the table, in list order. */
  function ColumnInformation(information: seq<InfoEntry>, tableName: string): seq<InfoEntry>
    decreases |information|
  {
    if information == [] then []
    else
      var rest := ColumnInformation(information[1..], tableName);
      if DescribesColumnOf(information[0], tableName) then [information[0]] + rest else rest
  }

  /** The first information entry about the table itself. */
  function TableInformation(information: seq<InfoEntry>, tableName: string): Option<InfoEntry>
    decreases |information|
  {
    if information == [] then None
    else if DescribesTable(information[0], tableName) then Some(information[0])
    else TableInformation(information[1..], tableName)
  }

  /** The bindings of a property template, in the order the source adds them. */
  function PropertyBindings(column: ColumnEntry, dataType: string, information: seq<InfoEntry>, options: ClassGeneratorOptions): seq<Replacement> {
    var propertyName := ClassManagerHelper.GeneratePropertyName(column.PropertyName());
    [ Replacement("type", dataType, false),
      Replacement("nullable", if column.isNullable then "?" else "", false),
      Replacement("name", propertyName, false),
      Replacement("name2", "_" + Extensions.FirstCharToLower(propertyName), false),
      Replacement("addition", Annotations.PropertyAddition(column, dataType, information, options), false) ]
  }

  /** The code of one property: the template with its string default, rendered with the property's bindings. */
  function PropertyCode(column: ColumnEntry, template: seq<string>, conversions: seq<TypeConversion>,
                        information: seq<InfoEntry>, options: ClassGeneratorOptions, addEmptyLine: bool): string {
    var dataType := ClassManagerHelper.CSharpType(conversions, column.dataType);
    TemplateRenderer.Finalize(StringDefault.WithStringDefault(template, dataType),
                              PropertyBindings(column, dataType, information, options), addEmptyLine)
  }

  /** The codes of the columns in list order; all but the table's last column ask for an empty line. */
  function PropertyCodes(columns: seq<ColumnEntry>, template: seq<string>, conversions: seq<TypeConversion>,
                         information: seq<InfoEntry>, options: ClassGeneratorOptions): seq<string>
  {
    seq(|columns|, j requires 0 <= j < |columns| =>
      PropertyCode(columns[j], template, conversions, information, options, j + 1 != |columns|))
  }

  // ---------------------------------------------------------------- one class

  /** The keyword of a class modifier. */
  function ModifierKeyword(modifier: ClassModifier): string {
    match modifier
    case Internal => "internal"
    case Protected => "protected"
    case ProtectedInternal => "protected internal"
    case Public => "public"
  }

  /** The class template copy: the toolkit's `using` line in front when `SetProperty` is used. */
  function ClassTemplate(template: seq<string>, options: ClassGeneratorOptions): seq<string> {
    if options.addSetProperty then [UsingLine] + template else template
  }

  /** The bindings of the class template, in the order the source adds them. */
  function ClassBindings(table: TableEntry, properties: seq<string>, tableInfo: Option<InfoEntry>, options: ClassGeneratorOptions): seq<Replacement> {
    [ Replacement("properties", Join(properties, NewLine), true),
      Replacement("namespace", ClassManagerHelper.GenerateNamespace(options.namespace), false),
      Replacement("modifier", ModifierKeyword(options.modifier), false),
      Replacement("sealed", if options.sealedClass then " sealed" else "", false),
      Replacement("name", ClassManagerHelper.GenerateClassName(table.ClassName()), false),
      Replacement("inherits", if options.addSetProperty then InheritValue else "", false),
      Replacement("addition", Annotations.ClassAddition(table, tableInfo, options), false) ]
  }

  /** The class generated for one table. */
  function ClassCode(table: TableEntry, classTemplate: seq<string>, propertyTemplate: seq<string>,
                     conversions: seq<TypeConversion>, information: seq<InfoEntry>, options: ClassGeneratorOptions): ClassEntry {
    var columnInfo := ColumnInformation(information, table.name);
    var properties := PropertyCodes(table.columns, propertyTemplate, conversions, columnInfo, options);
    var bindings := ClassBindings(table, properties, TableInformation(information, table.name), options);
    ClassEntry(ClassManagerHelper.GenerateClassName(table.ClassName()), table.name,
               TemplateRenderer.Finalize(ClassTemplate(classTemplate, options), bindings, false))
  }

  /** The classes of the tables, in list order. */
  function ClassCodes(tables: seq<TableEntry>, classTemplate: seq<string>, propertyTemplate: seq<string>,
                      conversions: seq<TypeConversion>, information: seq<InfoEntry>, options: ClassGeneratorOptions): seq<ClassEntry>
  {
    seq(|tables|, j requires 0 <= j < |tables| =>
      ClassCode(tables[j], classTemplate, propertyTemplate, conversions, information, options))
  }

  /** `Add` under a condition, as the addition builders do. */
  function AddIf<T>(list: seq<T>, condition: bool, x: T): seq<T> {
    if condition then list + [x] else list
  }

  /** Four conditional additions after a block: the block, then the items whose condition holds. */
  lemma AddIfChain<T>(block: seq<T>, a: bool, ax: T, b: bool, bx: T, c: bool, cx: T, d: bool, dx: T)
    ensures AddIf(AddIf(AddIf(AddIf(block, a, ax), b, bx), c, cx), d, dx)
            == block + ((if a then [ax] else []) + (if b then [bx] else []) + (if c then [cx] else []) + (if d then [dx] else []))
  {
  }

  /** Five `Add` calls on a new list give the five items in order. */
  lemma Appended5<T>(a: T, b: T, c: T, d: T, e: T)
    ensures [] + [a] + [b] + [c] + [d] + [e] == [a, b, c, d, e]
  {
  }

  /** Seven `Add` calls on a new list give the seven items in order. */
  lemma Appended7<T>(a: T, b: T, c: T, d: T, e: T, f: T, g: T)
    ensures [] + [a] + [b] + [c] + [d] + [e] + [f] + [g] == [a, b, c, d, e, f, g]
  {
  }

  // ---------------------------------------------------------------- a whole run

  /** The manager's fields: the options and the two loaded lists. */
  datatype State = State(options: Option<ClassGeneratorOptions>, conversions: seq<TypeConversion>, information: seq<InfoEntry>)

  /** The outcome of `GenerateClassesAsync` and the manager's fields after it. */
  datatype Run = Run(result: Result<GeneratorResult, Error>, after: State)

  /**
   * The result of a run once the lists are loaded and the options are in
   * force: the class template, then the property template (a missing file
   * fails), one class per table and, for an EF model, the key code.
   */
  function Generated(tables: seq<TableEntry>, options: ClassGeneratorOptions, conversions: seq<TypeConversion>,
                     information: seq<InfoEntry>, templates: map<string, seq<string>>): Result<GeneratorResult, Error> {
    match LoadTemplate(templates, ClassManagerHelper.ClassTemplateFile(options.namespace != ""))
    case Failure(e) => Failure(e)
    case Success(classTemplate) =>
      match LoadTemplate(templates, ClassManagerHelper.PropertyTemplateFile(options))
      case Failure(e) => Failure(e)
      case Success(propertyTemplate) =>
        var classes := ClassCodes(tables, classTemplate, propertyTemplate, conversions, information, options);
        var keyCode := if options.dbModel then EfKeyCode.KeyCode(tables) else "";
        Success(GeneratorResult(classes, keyCode))
  }

  /** `GenerateClassesAsync` for a non-empty table list, once the options are set. */
  function GenerateNonEmpty(tables: seq<TableEntry>, options: ClassGeneratorOptions, before: State, files: Files): (r: Run)
    ensures r.after.options.Some? && r.after.options.value.(addSummary := options.addSummary) == options
    ensures options.addSummary ==> r.after.options.value.addSummary
  {
    match LoadedConversions(before.conversions, files.typeConversion)
    case Failure(e) => Run(Failure(e), before.(options := Some(options)))
    case Success(conversions) =>
      var information := LoadedInformation(files.information);
      var effective := EffectiveOptions(options, information);
      Run(Generated(tables, effective, conversions, information, files.templates), State(Some(effective), conversions, information))
  }

  /** `GenerateClassesAsync`: null options fail first, an empty table list gives the empty result. */
  function Generate(tables: seq<TableEntry>, options: Option<ClassGeneratorOptions>, before: State, files: Files): (r: Run)
    ensures options.None? ==> r.after == before
    ensures options.Some? ==> && r.after.options.Some?
                              && r.after.options.value.(addSummary := options.value.addSummary) == options.value
                              && (options.value.addSummary ==> r.after.options.value.addSummary)
    ensures options.Some? && tables == [] ==> r.result == Success(NewGeneratorResult()) && r.after.options == options
  {
    match options
    case None => Run(Failure(OptionsNull), before)
    case Some(o) =>
      if tables == [] then Run(Success(NewGeneratorResult()), before.(options := options))
      else GenerateNonEmpty(tables, o, before, files)
  }

  // ---------------------------------------------------------------- properties

  /** The column entries are exactly the entries about the table's columns, and no more than the list holds. */
  lemma {:induction false} ColumnInformationFilter(information: seq<InfoEntry>, tableName: string)
    ensures |ColumnInformation(information, tableName)| <= |information|
    ensures forall e :: e in ColumnInformation(information, tableName) <==> e in information && DescribesColumnOf(e, tableName)
    decreases |information|
  {
    if information != [] {
      ColumnInformationFilter(information[1..], tableName);
      assert information == [information[0]] + information[1..];
    }
  }

  /** The table entry is the first entry about the table, and there is none exactly when no entry is about it. */
  lemma {:induction false} TableInformationFirstMatch(information: seq<InfoEntry>, tableName: string)
    ensures var r := TableInformation(information, tableName);
            r.None? <==> forall i | 0 <= i < |information| :: !DescribesTable(information[i], tableName)
    ensures var r := TableInformation(information, tableName);
            forall i | 0 <= i < |information| && DescribesTable(information[i], tableName)
                                              && (forall j | 0 <= j < i :: !DescribesTable(information[j], tableName))
              :: r == Some(information[i])
    decreases |information|
  {
    if information != [] && !DescribesTable(information[0], tableName) {
      TableInformationFirstMatch(information[1..], tableName);
      assert forall i | 1 <= i < |information| :: information[i] == information[1..][i - 1];
    }
  }

  /**
   * One code per column, in column order; each is the column's rendered
   * template, and every column but the table's last is followed by one more
   * line break (the empty line between two properties).
   */
  lemma {:induction false} PropertiesSeparated(columns: seq<ColumnEntry>, template: seq<string>, conversions: seq<TypeConversion>,
                                               information: seq<InfoEntry>, options: ClassGeneratorOptions)
    ensures |PropertyCodes(columns, template, conversions, information, options)| == |columns|
    ensures forall j | 0 <= j < |columns| ::
              PropertyCodes(columns, template, conversions, information, options)[j]
              == PropertyCode(columns[j], template, conversions, information, options, false)
                 + (if j + 1 < |columns| then NewLine else "")
  {
    forall j | 0 <= j < |columns|
      ensures PropertyCodes(columns, template, conversions, information, options)[j]
              == PropertyCode(columns[j], template, conversions, information, options, false)
                 + (if j + 1 < |columns| then NewLine else "")
    {
      EmptyLineAppended(columns[j], template, conversions, information, options, j + 1 != |columns|);
    }
  }

  /** An entry of the table describes either the table itself or one of its columns, never both. */
  lemma {:induction false} TableOrColumnLevel(e: InfoEntry, tableName: string)
    requires EqualsIgnoreCase(e.table, tableName)
    ensures DescribesTable(e, tableName) <==> !DescribesColumnOf(e, tableName)
    ensures DescribesTable(e, tableName) <==> IsNullOrWhiteSpace(e.column)
  {
  }

  /**
   * The property bindings in their order: the C# type; `?` exactly for a
   * nullable column; the normalised property name; the backing field, an
   * underscore and the name with its first character lower-cased; the additions.
   */
  lemma {:induction false} PropertyBindingValues(column: ColumnEntry, dataType: string, information: seq<InfoEntry>, options: ClassGeneratorOptions)
    ensures var b := PropertyBindings(column, dataType, information, options);
            && |b| == 5
            && b[0].key == "type" && b[1].key == "nullable" && b[2].key == "name" && b[3].key == "name2" && b[4].key == "addition"
            && !b[0].indent && !b[1].indent && !b[2].indent && !b[3].indent && !b[4].indent
            && b[0].value == dataType
            && (b[1].value == "?" <==> column.isNullable)
            && (b[1].value == "" <==> !column.isNullable)
            && b[2].value == ClassManagerHelper.GeneratePropertyName(column.PropertyName())
            && b[3].value == "_" + Extensions.FirstCharToLower(b[2].value)
            && b[4].value == Annotations.PropertyAddition(column, dataType, information, options)
  {
  }

  /**
   * The class bindings in their order: only the property block is indented;
   * `sealed` binds ` sealed` exactly for sealed classes; `inherits` binds the
   * toolkit base exactly when `SetProperty` is used.
   */
  lemma {:induction false} ClassBindingValues(table: TableEntry, properties: seq<string>, tableInfo: Option<InfoEntry>, options: ClassGeneratorOptions)
    ensures var b := ClassBindings(table, properties, tableInfo, options);
            && |b| == 7
            && b[0].key == "properties" && b[1].key == "namespace" && b[2].key == "modifier" && b[3].key == "sealed"
            && b[4].key == "name" && b[5].key == "inherits" && b[6].key == "addition"
            && b[0].indent && !b[1].indent && !b[2].indent && !b[3].indent && !b[4].indent && !b[5].indent && !b[6].indent
            && b[0].value == Join(properties, NewLine)
            && b[2].value == ModifierKeyword(options.modifier)
            && (b[3].value == " sealed" <==> options.sealedClass)
            && (b[3].value == "" <==> !options.sealedClass)
            && (b[5].value == InheritValue <==> options.addSetProperty)
            && (b[5].value == "" <==> !options.addSetProperty)
            && b[4].value == ClassManagerHelper.GenerateClassName(table.ClassName())
  {
    assert |" sealed"| == 7 && |InheritValue| > 0;
  }

  /** Asking for the empty line adds one line break after the property and changes nothing else. */
  lemma EmptyLineAppended(column: ColumnEntry, template: seq<string>, conversions: seq<TypeConversion>,
                          information: seq<InfoEntry>, options: ClassGeneratorOptions, addEmptyLine: bool)
    ensures PropertyCode(column, template, conversions, information, options, addEmptyLine)
            == PropertyCode(column, template, conversions, information, options, false) + (if addEmptyLine then NewLine else "")
  {
    var dataType := ClassManagerHelper.CSharpType(conversions, column.dataType);
    var content := StringDefault.WithStringDefault(template, dataType);
    var bindings := PropertyBindings(column, dataType, information, options);
    TemplateRenderer.FinalizeEmptyLine(content, bindings, addEmptyLine);
  }

  /** One class per table, in table order, each named after its table. */
  lemma {:induction false} ClassCodesNamed(tables: seq<TableEntry>, classTemplate: seq<string>, propertyTemplate: seq<string>,
                                           conversions: seq<TypeConversion>, information: seq<InfoEntry>, options: ClassGeneratorOptions)
    ensures |ClassCodes(tables, classTemplate, propertyTemplate, conversions, information, options)| == |tables|
    ensures forall j | 0 <= j < |tables| ::
              var c := ClassCodes(tables, classTemplate, propertyTemplate, conversions, information, options)[j];
              c.tableName == tables[j].name && c.name == ClassManagerHelper.GenerateClassName(tables[j].ClassName())
  {
    forall j | 0 <= j < |tables|
      ensures var c := ClassCodes(tables, classTemplate, propertyTemplate, conversions, information, options)[j];
              c.tableName == tables[j].name && c.name == ClassManagerHelper.GenerateClassName(tables[j].ClassName())
    {
      ClassCodeNames(tables[j], classTemplate, propertyTemplate, conversions, information, options);
    }
  }

  /** A class carries its table's name and the class name made from it. */
  lemma ClassCodeNames(table: TableEntry, classTemplate: seq<string>, propertyTemplate: seq<string>,
                       conversions: seq<TypeConversion>, information: seq<InfoEntry>, options: ClassGeneratorOptions)
    ensures var c := ClassCode(table, classTemplate, propertyTemplate, conversions, information, options);
            c.tableName == table.name && c.name == ClassManagerHelper.GenerateClassName(table.ClassName())
  {
  }

  /** Generated classes: one per table, in table order, each named after its table. */
  lemma {:induction false} GeneratedClassPerTable(tables: seq<TableEntry>, options: ClassGeneratorOptions, conversions: seq<TypeConversion>,
                                                  information: seq<InfoEntry>, templates: map<string, seq<string>>)
    requires Generated(tables, options, conversions, information, templates).Success?
    ensures var classes := Generated(tables, options, conversions, information, templates).value.classes;
            |classes| == |tables|
            && forall j | 0 <= j < |tables| ::
                 classes[j].tableName == tables[j].name
                 && classes[j].name == ClassManagerHelper.GenerateClassName(tables[j].ClassName())
  {
    var classTemplate := templates[ClassManagerHelper.ClassTemplateFile(options.namespace != "")];
    var propertyTemplate := templates[ClassManagerHelper.PropertyTemplateFile(options)];
    ClassCodesNamed(tables, classTemplate, propertyTemplate, conversions, information, options);
  }

  /** A successful run returns one class per table, in table order, each named after its table. */
  lemma {:induction false} OneClassPerTable(tables: seq<TableEntry>, options: Option<ClassGeneratorOptions>, before: State, files: Files)
    requires Generate(tables, options, before, files).result.Success?
    ensures var classes := Generate(tables, options, before, files).result.value.classes;
            |classes| == |tables|
            && forall j | 0 <= j < |tables| ::
                 classes[j].tableName == tables[j].name
                 && classes[j].name == ClassManagerHelper.GenerateClassName(tables[j].ClassName())
  {
    if tables != [] {
      var conversions := LoadedConversions(before.conversions, files.typeConversion).value;
      var information := LoadedInformation(files.information);
      GeneratedClassPerTable(tables, EffectiveOptions(options.value, information), conversions, information, files.templates);
    }
  }

  /**
   * A successful run carries key code exactly when the context is an EF
   * model and some table has a composite key; with an EF model it is the
   * key code of the tables.
   */
  lemma {:induction false} KeyCodeOnlyForCompositeKeys(tables: seq<TableEntry>, options: Option<ClassGeneratorOptions>, before: State, files: Files)
    requires Generate(tables, options, before, files).result.Success?
    ensures var keyCode := Generate(tables, options, before, files).result.value.efKeyCode;
            keyCode == (if options.value.dbModel then EfKeyCode.KeyCode(tables) else "")
    ensures var keyCode := Generate(tables, options, before, files).result.value.efKeyCode;
            keyCode != "" <==> options.value.dbModel && exists t | t in tables :: EfKeyCode.HasCompositeKey(t)
  {
    EfKeyCode.KeyCodeEmptyIff(tables);
    if tables == [] {
      assert EfKeyCode.KeyTables(tables) == [];
    }
  }

  /**
   * The error a run reports: missing options first; then, for a non-empty
   * table list, an unreadable conversion file while no conversions are
   * loaded; otherwise only one of the two chosen template files, when it
   * is not there.
   */
  lemma {:induction false} GenerateErrors(tables: seq<TableEntry>, options: Option<ClassGeneratorOptions>, before: State, files: Files)
    ensures Generate(tables, options, before, files).result == Failure(OptionsNull) <==> options.None?
    ensures Generate(tables, options, before, files).result == Failure(TypeConversionUnreadable)
            <==> options.Some? && tables != [] && before.conversions == [] && files.typeConversion.Unreadable?
    ensures forall file ::
              (Generate(tables, options, before, files).result == Failure(TemplateNotFound(file))
               ==> && options.Some? && tables != [] && file !in files.templates
                   && (file == ClassManagerHelper.ClassTemplateFile(options.value.namespace != "")
                       || file == ClassManagerHelper.PropertyTemplateFile(options.value)))
  {
  }

  /**
   * The converse: with options, tables, a conversion list that loads and
   * both chosen template files present, the run succeeds.
   */
  lemma {:induction false} GenerateSucceeds(tables: seq<TableEntry>, options: ClassGeneratorOptions, before: State, files: Files)
    requires tables != [] && LoadedConversions(before.conversions, files.typeConversion).Success?
    requires ClassManagerHelper.ClassTemplateFile(options.namespace != "") in files.templates
    requires ClassManagerHelper.PropertyTemplateFile(options) in files.templates
    ensures Generate(tables, Some(options), before, files).result.Success?
  {
  }

  /**
   * After a run over tables whose conversions load, the manager holds the
   * loaded lists and the options in force, whatever the templates give.
   */
  lemma {:induction false} StateAfterRun(tables: seq<TableEntry>, options: ClassGeneratorOptions, before: State, files: Files)
    requires tables != [] && LoadedConversions(before.conversions, files.typeConversion).Success?
    ensures var information := LoadedInformation(files.information);
            Generate(tables, Some(options), before, files).after
            == State(Some(EffectiveOptions(options, information)),
                     LoadedConversions(before.conversions, files.typeConversion).value, information)
  {
  }

  /** Information entries switch summaries on and change no other option; without them the options stay. */
  lemma {:induction false} SummaryForcedByInformation(options: ClassGeneratorOptions, information: seq<InfoEntry>)
    ensures EffectiveOptions(options, information).addSummary == (options.addSummary || |information| > 0)
    ensures EffectiveOptions(options, information).(addSummary := options.addSummary) == options
  {
  }

  /** Loading the conversions a second time keeps what the first load gave. */
  lemma {:induction false} LoadedConversionsIdempotent(current: seq<TypeConversion>, file: Resource<seq<TypeConversion>>)
    requires LoadedConversions(current, file).Success?
    ensures var once := LoadedConversions(current, file).value;
            LoadedConversions(once, file) == Success(once)
  {
  }

  /** The `using` line is inserted as the first line exactly when `SetProperty` is used; the template follows unchanged. */
  lemma {:induction false} ClassTemplateUsing(template: seq<string>, options: ClassGeneratorOptions)
    ensures options.addSetProperty ==> ClassTemplate(template, options)[0] == UsingLine && ClassTemplate(template, options)[1..] == template
    ensures !options.addSetProperty ==> ClassTemplate(template, options) == template
  {
  }

  /** Each modifier has its own keyword. */
  lemma {:induction false} ModifierKeywordInjective(a: ClassModifier, b: ClassModifier)
    ensures ModifierKeyword(a) == ModifierKeyword(b) ==> a == b
  {
  }

  // ---------------------------------------------------------------- the manager

  class ClassManager {
    var options: Option<ClassGeneratorOptions>
    var typeConversionList: seq<TypeConversion>
    var additionalInformation: seq<InfoEntry>

    /** The manager's fields as a value. */
    function Fields(): State
      reads this
    {
      State(options, typeConversionList, additionalInformation)
    }

    constructor()
      ensures options == None && typeConversionList == [] && additionalInformation == []
    {
      options := None;
      typeConversionList := [];
      additionalInformation := [];
    }

    /** `LoadTypeConversionDataAsync`: loads the list unless it already holds rows. */
    method LoadTypeConversionData(file: Resource<seq<TypeConversion>>) returns (error: Option<Error>)
      modifies this
      ensures options == old(options) && additionalInformation == old(additionalInformation)
      ensures match LoadedConversions(old(typeConversionList), file)
              case Success(rows) => error == None && typeConversionList == rows
              case Failure(e) => error == Some(e) && typeConversionList == old(typeConversionList)
    {
      error := None;
      if |typeConversionList| > 0 {
        return;
      }
      match file
      case Missing =>
        return;
      case Unreadable =>
        error := Some(TypeConversionUnreadable);
      case Loaded(rows) =>
        typeConversionList := rows;
    }

    /** `LoadAdditionalInformationAsync`: resets the list, then loads it; failures are ignored. */
    method LoadAdditionalInformation(file: Resource<seq<InfoEntry>>)
      modifies this
      ensures options == old(options) && typeConversionList == old(typeConversionList)
      ensures additionalInformation == LoadedInformation(file)
    {
      additionalInformation := [];
      match file
      case Loaded(entries) =>
        additionalInformation := entries;
      case _ =>
    }

    /** `CreatePropertyAddition`: the documentation and attribute lines, joined. */
    method CreatePropertyAddition(column: ColumnEntry, dataType: string, information: seq<InfoEntry>) returns (text: string)
      requires options.Some?
      ensures text == Annotations.PropertyAddition(column, dataType, information, options.value)
    {
      var o := options.value;
      var additions: seq<string> := [];
      var info := Annotations.ColumnInfo(information, column.name);
      if o.addSummary {
        additions := additions + [ClassManagerHelper.SummaryStart];
        additions := additions + [if info.Some? && Annotations.HasText(info.value.summary) then Annotations.DocLine(info.value.summary) else Annotations.TodoLine];
        additions := additions + [ClassManagerHelper.SummaryEnd];
        if info.Some? && Annotations.HasText(info.value.remarks) {
          additions := additions + [ClassManagerHelper.RemarksStart];
          additions := additions + [Annotations.DocLine(info.value.remarks)];
          additions := additions + [ClassManagerHelper.RemarksEnd];
        }
      }
      assert additions == Annotations.PropertyDocumentation(info, o.addSummary);
      additions := AddPropertyAttributes(additions, column, dataType);
      text := Join(additions, NewLine);
    }

    /** The attribute part of `CreatePropertyAddition`: each attribute under its condition, after the lines already there. */
    method AddPropertyAttributes(lines: seq<string>, column: ColumnEntry, dataType: string) returns (additions: seq<string>)
      requires options.Some?
      ensures additions == lines + Annotations.PropertyAttributes(column, dataType, options.value)
    {
      var o := options.value;
      additions := lines;
      var key := o.dbModel && column.isPrimaryKey;
      if key {
        additions := additions + [Annotations.KeyAttribute];
      }
      var columnName := o.addColumnAttribute || column.HasDifferentAlias();
      if columnName {
        additions := additions + [Annotations.ColumnAttribute(column)];
      }
      var date := EqualsIgnoreCase(column.dataType, "date");
      if date {
        additions := additions + [Annotations.DateAttribute];
      }
      var length := dataType == "string";
      if length {
        additions := additions + [Annotations.MaxLengthAttribute(column.maxLength)];
      }
      AddIfChain(lines, key, Annotations.KeyAttribute, columnName, Annotations.ColumnAttribute(column),
                 date, Annotations.DateAttribute, length, Annotations.MaxLengthAttribute(column.maxLength));
    }

    /** `CreateClassAddition`: the documentation lines and the table attribute, joined. */
    method CreateClassAddition(table: TableEntry, tableInfo: Option<InfoEntry>) returns (text: string)
      requires options.Some?
      ensures text == Annotations.ClassAddition(table, tableInfo, options.value)
    {
      var o := options.value;
      var additions: seq<string> := [];
      var hasRemarks := (tableInfo.Some? && Annotations.HasText(tableInfo.value.remarks)) || o.addTableNameToClassSummary;
      ghost var summaryLines := [ClassManagerHelper.SummaryStart, Annotations.SummaryLine(tableInfo), ClassManagerHelper.SummaryEnd];
      if o.addSummary || o.addTableNameToClassSummary {
        additions := additions + [ClassManagerHelper.SummaryStart];
        additions := additions + [Annotations.SummaryLine(tableInfo)];
        additions := additions + [ClassManagerHelper.SummaryEnd];
        assert additions == summaryLines;
        if hasRemarks {
          additions := AddClassRemarks(additions, table, tableInfo);
        }
      }
      assert additions == Annotations.ClassDocumentation(table, tableInfo, o);
      ghost var documentation := additions;
      if o.dbModel {
        additions := additions + [Annotations.TableAttribute(table)];
      }
      assert additions == AddIf(documentation, o.dbModel, Annotations.TableAttribute(table));
      assert additions == Annotations.ClassAdditionLines(table, tableInfo, o);
      text := Join(additions, NewLine);
    }

    /** The remarks part of `CreateClassAddition`, after the summary lines already there. */
    method AddClassRemarks(lines: seq<string>, table: TableEntry, tableInfo: Option<InfoEntry>) returns (additions: seq<string>)
      requires options.Some?
      ensures additions == lines + Annotations.ClassRemarks(table, tableInfo, options.value.addTableNameToClassSummary)
    {
      var o := options.value;
      ghost var remarks: seq<string> := [ClassManagerHelper.RemarksStart];
      additions := lines + [ClassManagerHelper.RemarksStart];
      var hasEntry := false;
      if tableInfo.Some? && Annotations.HasText(tableInfo.value.remarks) {
        additions := additions + [Annotations.DocLine(tableInfo.value.remarks)];
        remarks := remarks + [Annotations.RemarksLine(tableInfo)];
        hasEntry := true;
      }
      assert additions == lines + remarks;
      if o.addTableNameToClassSummary {
        if hasEntry {
          additions := additions + [Annotations.ParagraphLine];
          remarks := remarks + [Annotations.ParagraphLine];
        }
        additions := additions + [Annotations.TableNameLine(table)];
        remarks := remarks + [Annotations.TableNameLine(table)];
      }
      assert additions == lines + remarks;
      additions := additions + [ClassManagerHelper.RemarksEnd];
      remarks := remarks + [ClassManagerHelper.RemarksEnd];
      assert additions == lines + remarks;
    }

    /** `GeneratePropertyCodeAsync`: a fresh copy of the template, its string default, and the rendering. */
    method GeneratePropertyCode(column: ColumnEntry, propertyTemplate: seq<string>, information: seq<InfoEntry>, addEmptyLine: bool)
      returns (code: string)
      requires options.Some?
      ensures code == PropertyCode(column, propertyTemplate, typeConversionList, information, options.value, addEmptyLine)
    {
      var replaceList: seq<Replacement> := [];
      var template := new string[|propertyTemplate|](i requires 0 <= i < |propertyTemplate| => propertyTemplate[i]);
      assert template[..] == propertyTemplate;
      var dataType := ClassManagerHelper.CSharpType(typeConversionList, column.dataType);
      StringDefault.SetStringDefault(template, dataType);
      var typeBinding := Replacement("type", dataType, false);
      replaceList := replaceList + [typeBinding];
      var nullableBinding := Replacement("nullable", if column.isNullable then "?" else "", false);
      replaceList := replaceList + [nullableBinding];
      var propertyName := ClassManagerHelper.GeneratePropertyName(column.PropertyName());
      var nameBinding := Replacement("name", propertyName, false);
      replaceList := replaceList + [nameBinding];
      var fieldBinding := Replacement("name2", "_" + Extensions.FirstCharToLower(propertyName), false);
      replaceList := replaceList + [fieldBinding];
      var addition := CreatePropertyAddition(column, dataType, information);
      var additionBinding := Replacement("addition", addition, false);
      replaceList := replaceList + [additionBinding];
      Appended5(typeBinding, nullableBinding, nameBinding, fieldBinding, additionBinding);
      assert replaceList == PropertyBindings(column, dataType, information, options.value);
      code := TemplateRenderer.FinalizeTemplate(template[..], replaceList, addEmptyLine);
    }

    /** The property loop of `GenerateClassAsync`: one code per column, in list order, the last without an empty line. */
    method GenerateProperties(columns: seq<ColumnEntry>, propertyTemplate: seq<string>, columnInformation: seq<InfoEntry>)
      returns (properties: seq<string>)
      requires options.Some?
      ensures properties == PropertyCodes(columns, propertyTemplate, typeConversionList, columnInformation, options.value)
    {
      ghost var codes := PropertyCodes(columns, propertyTemplate, typeConversionList, columnInformation, options.value);
      properties := [];
      for i := 0 to |columns|
        invariant properties == codes[..i]
      {
        var column := columns[i];
        var code := GeneratePropertyCode(column, propertyTemplate, columnInformation, i + 1 != |columns|);
        assert codes[i] == code;
        TakeOneMore(codes, i);
        properties := properties + [code];
      }
      assert codes[..|columns|] == codes;
    }

    /** `GenerateClassAsync`: the property codes in column order, then the class template rendered. */
    method GenerateClass(table: TableEntry, classTemplate: seq<string>, templates: map<string, seq<string>>)
      returns (r: Result<ClassEntry, Error>)
      requires options.Some?
      ensures match LoadTemplate(templates, ClassManagerHelper.PropertyTemplateFile(options.value))
              case Failure(e) => r == Failure(e)
              case Success(propertyTemplate) =>
                r == Success(ClassCode(table, classTemplate, propertyTemplate, typeConversionList, additionalInformation, options.value))
    {
      var o := options.value;
      var replaceList: seq<Replacement> := [];
      var template := classTemplate;
      var loaded := LoadTemplate(templates, ClassManagerHelper.PropertyTemplateFile(o));
      if loaded.Failure? {
        return Failure(loaded.error);
      }
      var propertyTemplate := loaded.value;
      var columnInformation := ColumnInformation(additionalInformation, table.name);
      var tableInformation := TableInformation(additionalInformation, table.name);
      var properties := GenerateProperties(table.columns, propertyTemplate, columnInformation);
      var propertiesBinding := Replacement("properties", Join(properties, NewLine), true);
      replaceList := replaceList + [propertiesBinding];
      var namespaceBinding := Replacement("namespace", ClassManagerHelper.GenerateNamespace(o.namespace), false);
      replaceList := replaceList + [namespaceBinding];
      var modifierBinding := Replacement("modifier", ModifierKeyword(o.modifier), false);
      replaceList := replaceList + [modifierBinding];
      var sealedBinding := Replacement("sealed", if o.sealedClass then " sealed" else "", false);
      replaceList := replaceList + [sealedBinding];
      var className := ClassManagerHelper.GenerateClassName(table.ClassName());
      var nameBinding := Replacement("name", className, false);
      replaceList := replaceList + [nameBinding];
      var inheritValue := "";
      if o.addSetProperty {
        template := [UsingLine] + template;
        inheritValue := InheritValue;
      }
      var inheritsBinding := Replacement("inherits", inheritValue, false);
      replaceList := replaceList + [inheritsBinding];
      var addition := CreateClassAddition(table, tableInformation);
      var additionBinding := Replacement("addition", addition, false);
      replaceList := replaceList + [additionBinding];
      Appended7(propertiesBinding, namespaceBinding, modifierBinding, sealedBinding, nameBinding, inheritsBinding, additionBinding);
      assert replaceList == ClassBindings(table, properties, tableInformation, o);
      var code := TemplateRenderer.FinalizeTemplate(template, replaceList, false);
      return Success(ClassEntry(className, table.name, code));
    }

    /** `GenerateClassesAsync`: loads what it needs, generates each class in table order, then the key code. */
    method GenerateClasses(tables: seq<TableEntry>, options: Option<ClassGeneratorOptions>, files: Files)
      returns (r: Result<GeneratorResult, Error>)
      modifies this
      ensures Run(r, Fields()) == Generate(tables, options, old(Fields()), files)
    {
      if options.None? {
        return Failure(OptionsNull);
      }
      this.options := options;
      if |tables| == 0 {
        return Success(NewGeneratorResult());
      }
      var error := LoadTypeConversionData(files.typeConversion);
      if error.Some? {
        return Failure(error.value);
      }
      LoadAdditionalInformation(files.information);
      var o := options.value;
      if |additionalInformation| > 0 {
        o := o.(addSummary := true);
        this.options := Some(o);
      }
      r := GenerateResult(tables, files.templates);
    }

    /** The template loading and the class loop of `GenerateClassesAsync`, with the key code after them. */
    method GenerateResult(tables: seq<TableEntry>, templates: map<string, seq<string>>) returns (r: Result<GeneratorResult, Error>)
      requires options.Some? && tables != []
      ensures r == Generated(tables, options.value, typeConversionList, additionalInformation, templates)
    {
      var o := options.value;
      var loaded := LoadTemplate(templates, ClassManagerHelper.ClassTemplateFile(o.namespace != ""));
      if loaded.Failure? {
        return Failure(loaded.error);
      }
      var classTemplate := loaded.value;
      var result := NewGeneratorResult();
      var classes: seq<ClassEntry> := [];
      ghost var propertyFile := ClassManagerHelper.PropertyTemplateFile(o);
      ghost var propertyTemplate := if propertyFile in templates then templates[propertyFile] else [];
      ghost var all := ClassCodes(tables, classTemplate, propertyTemplate, typeConversionList, additionalInformation, o);
      for i := 0 to |tables|
        invariant i > 0 ==> propertyFile in templates
        invariant classes == all[..i]
      {
        var entry := GenerateClass(tables[i], classTemplate, templates);
        if entry.Failure? {
          return Failure(entry.error);
        }
        assert entry.value == all[i];
        TakeOneMore(all, i);
        classes := classes + [entry.value];
      }
      assert classes == all;
      result := result.(classes := classes);
      if o.dbModel {
        var keyCode := EfKeyCode.GenerateEfKeyCode(tables);
        result := result.(efKeyCode := keyCode);
      }
      return Success(result);
    }
  }
}
