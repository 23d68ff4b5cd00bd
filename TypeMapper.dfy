/** jsonTypeToCppType: the C++ type the generated code extracts a JSON value of a given type into. */
module TypeMapper {
  import opened Wrappers
  import opened Json
  import opened OperationSpecs

  /** The six JSON type tokens the generator can translate, and their C++ types. */
  const KindTable: map<string, string> :=
    map["string" := "std::string", "number" := "double", "number_integer" := "int",
        "number_unsigned" := "uint64_t", "number_float" := "double", "boolean" := "bool"]

  function UnconvertibleText(kind: string): string {
    "Unable to convert \"" + kind + "\" from JSON to cpp"
  }

  /** The if-chain of jsonTypeToCppType: translates exactly the table's tokens, raises otherwise. */
  function JsonTypeToCppType(kind: string): (r: Result<string, GenError>)
    ensures r.Success? <==> kind in KindTable
    ensures r.Success? ==> r.value == KindTable[kind]
    ensures r.Failure? ==> r.error == RuntimeError(UnconvertibleText(kind))
  {
    if kind == "string" then Success("std::string")
    else if kind == "number" then Success("double")
    else if kind == "number_integer" then Success("int")
    else if kind == "number_unsigned" then Success("uint64_t")
    else if kind == "number_float" then Success("double")
    else if kind == "boolean" then Success("bool")
    else Failure(RuntimeError(UnconvertibleText(kind)))
  }

  /**
   * Every translatable token is also one of nlohmann's type tokens, so the field guard the
   * generated code places before the extraction names a real type check. null, array and
   * object have no C++ counterpart here.
   */
  lemma TranslatableKindsAreJsonKinds(kind: string)
    requires JsonTypeToCppType(kind).Success?
    ensures KindOfToken(kind).Some?
    ensures KindOfToken(kind).value !in {KNull, KArray, KObject}
  {
  }
}
