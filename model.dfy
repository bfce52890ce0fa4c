/**
 * The option and result records of `Model` and the class-modifier enum.
 */
module Model {

  datatype ClassModifier = Public | Internal | Protected | ProtectedInternal

  datatype ClassGeneratorOptions = ClassGeneratorOptions(
    namespace: string,
    sealedClass: bool,
    modifier: ClassModifier,
    dbModel: bool,
    addColumnAttribute: bool,
    withBackingField: bool,
    addSetProperty: bool,
    addSummary: bool,
    addTableNameToClassSummary: bool,
    additionalInformationFilepath: string)

  /** Options with only the required namespace given: sealed, public, every flag off. */
  function NewOptions(namespace: string): (o: ClassGeneratorOptions)
    ensures o.namespace == namespace && o.sealedClass && o.modifier == Public
    ensures !o.dbModel && !o.addColumnAttribute && !o.withBackingField && !o.addSetProperty
    ensures !o.addSummary && !o.addTableNameToClassSummary && o.additionalInformationFilepath == ""
  {
    ClassGeneratorOptions(namespace, true, Public, false, false, false, false, false, false, "")
  }

  datatype ClassEntry = ClassEntry(name: string, tableName: string, code: string)

  datatype GeneratorResult = GeneratorResult(classes: seq<ClassEntry>, efKeyCode: string)

  function NewGeneratorResult(): (r: GeneratorResult)
    ensures r.classes == [] && r.efKeyCode == ""
  {
    GeneratorResult([], "")
  }
}
