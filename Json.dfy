/**
 * JSON values as nlohmann::json holds them, reduced to what the bridge and the generated
 * code look at: the type tag, strings, integers and the members of objects and arrays.
 * Numbers keep nlohmann's three tags: a parsed non-negative integer is number_unsigned, a
 * negative one number_integer, anything with a fraction or exponent number_float.
 */
module Json {
  import opened Wrappers

  datatype Json =
    | Null
    | Bool(b: bool)
    | Int(i: int)             // number_integer (signed)
    | Unsigned(n: nat)        // number_unsigned
    | Float(whole: int)       // number_float; only the part before the point is kept
    | Str(s: string)
    | Arr(elems: seq<Json>)
    | Obj(fields: map<string, Json>)

  /** The type names that follow `is_` in nlohmann's predicates (is_string(), is_object(), ...). */
  datatype JsonKind =
    | KNull | KBoolean | KNumber | KNumberInteger | KNumberUnsigned | KNumberFloat
    | KString | KArray | KObject
  {
    /** The token as it is written in MESSAGE_ASSERT_FIELD(msg, name, token). */
    function Token(): string {
      match this
      case KNull => "null"
      case KBoolean => "boolean"
      case KNumber => "number"
      case KNumberInteger => "number_integer"
      case KNumberUnsigned => "number_unsigned"
      case KNumberFloat => "number_float"
      case KString => "string"
      case KArray => "array"
      case KObject => "object"
    }
  }

  /** nlohmann's is_<kind>(): is_number_integer holds for signed and unsigned integers alike. */
  predicate HasKind(j: Json, kind: JsonKind) {
    match kind
    case KNull => j.Null?
    case KBoolean => j.Bool?
    case KNumber => j.Int? || j.Unsigned? || j.Float?
    case KNumberInteger => j.Int? || j.Unsigned?
    case KNumberUnsigned => j.Unsigned?
    case KNumberFloat => j.Float?
    case KString => j.Str?
    case KArray => j.Arr?
    case KObject => j.Obj?
  }

  /** The kind named by a token, when the token names one of nlohmann's predicates. */
  function KindOfToken(token: string): (r: Option<JsonKind>)
    ensures r.Some? ==> r.value.Token() == token
  {
    if token == "null" then Some(KNull)
    else if token == "boolean" then Some(KBoolean)
    else if token == "number" then Some(KNumber)
    else if token == "number_integer" then Some(KNumberInteger)
    else if token == "number_unsigned" then Some(KNumberUnsigned)
    else if token == "number_float" then Some(KNumberFloat)
    else if token == "string" then Some(KString)
    else if token == "array" then Some(KArray)
    else if token == "object" then Some(KObject)
    else None
  }

  /** nlohmann's contains(key): false for every value that is not an object. */
  predicate Contains(j: Json, key: string) {
    j.Obj? && key in j.fields
  }

  /** nlohmann's size(): members of an object or array, 0 for null, 1 for a scalar. */
  function Size(j: Json): nat {
    match j
    case Null => 0
    case Obj(fields) => |fields|
    case Arr(elems) => |elems|
    case _ => 1
  }

  /** Reading a string member that is known to be there. */
  function StringField(j: Json, key: string): string
    requires Contains(j, key) && j.fields[key].Str?
  {
    j.fields[key].s
  }

  /** Whether no pair before position i has the key of pairs[i]. */
  predicate FirstWithItsKey(pairs: seq<(string, Json)>, i: nat)
    requires i < |pairs|
  {
    forall j :: 0 <= j < i ==> pairs[j].0 != pairs[i].0
  }

  /** Putting the first pair over the object of the rest keeps every first-with-its-key pair. */
  lemma FirstPairWins(pairs: seq<(string, Json)>, rest: map<string, Json>)
    requires pairs != []
    requires forall i :: 0 <= i < |pairs| - 1 && FirstWithItsKey(pairs[1..], i) ==> pairs[1..][i].0 in rest && rest[pairs[1..][i].0] == pairs[1..][i].1
    ensures forall i :: 0 <= i < |pairs| && FirstWithItsKey(pairs, i)
                        ==> pairs[i].0 in rest[pairs[0].0 := pairs[0].1] && rest[pairs[0].0 := pairs[0].1][pairs[i].0] == pairs[i].1
  {
    forall i | 1 <= i < |pairs| && FirstWithItsKey(pairs, i)
      ensures pairs[i].0 != pairs[0].0 && FirstWithItsKey(pairs[1..], i - 1)
    {
      assert pairs[0].0 != pairs[i].0;
    }
  }

  /** An object built from an initializer list of key/value pairs; the first pair for a key wins. */
  function ObjectOf(pairs: seq<(string, Json)>): (r: map<string, Json>)
    ensures r.Keys == set p | p in pairs :: p.0
    ensures forall k :: k in r ==> exists i :: 0 <= i < |pairs| && pairs[i] == (k, r[k])
    ensures forall i :: 0 <= i < |pairs| && FirstWithItsKey(pairs, i) ==> pairs[i].0 in r && r[pairs[i].0] == pairs[i].1
  {
    if pairs == [] then map[]
    else
      var rest := ObjectOf(pairs[1..]);
      assert forall p :: p in pairs[1..] ==> p in pairs;
      FirstPairWins(pairs, rest);
      rest[pairs[0].0 := pairs[0].1]
  }
}
