/**
 * The operation definitions generate_CLI_operations.py reads from YAML, the errors it can
 * raise, and the accumulation pattern all its emitters share: one piece of text per list
 * element, in list order, the first error aborting the whole run.
 */
module OperationSpecs {
  import opened Wrappers

  /**
   * A YAML value as PyYAML loads it into an argument's "value": only strings, booleans and
   * Python truthiness matter to the generator, so numbers keep whether they are zero and
   * lists and mappings whether they are empty.
   */
  datatype YamlValue =
    | YStr(s: string)
    | YBool(b: bool)
    | YNumber(nonZero: bool)
    | YNull
    | YCollection(size: nat)

  /** Python's truth value of a loaded YAML value. */
  predicate Truthy(v: YamlValue) {
    match v
    case YStr(s) => s != []
    case YBool(b) => b
    case YNumber(nonZero) => nonZero
    case YNull => false
    case YCollection(size) => size > 0
  }

  /** An entry of an operation's "parameter" list: a name and a JSON type token. */
  datatype ParameterSpec = ParameterSpec(name: string, kind: string)

  /** An entry of a function's "parameter" list: a name and the value to pass. */
  datatype ArgumentSpec = ArgumentSpec(name: string, value: YamlValue)

  /** A "function" spec: its "type" (api or regular), "name" and optional "parameter" list. */
  datatype FunctionSpec = FunctionSpec(callType: string, name: string, parameter: Option<seq<ArgumentSpec>>)

  /** An entry of "depends": the variable to bind, its JSON type token and how to obtain it. */
  datatype DependencySpec = DependencySpec(name: string, kind: string, call: FunctionSpec)

  /** The "executes" spec, whose "function" key may be missing. */
  datatype ExecuteSpec = ExecuteSpec(call: Option<FunctionSpec>)

  /** One operation: the optional keys "parameter" and "depends" are options. */
  datatype OperationSpec = OperationSpec(operation: string, parameter: Option<seq<ParameterSpec>>,
                                         depends: Option<seq<DependencySpec>>, executes: ExecuteSpec)

  /** What aborts the generator: a raised RuntimeError, a failed assert, a str concatenation. */
  datatype GenError = RuntimeError(what: string) | AssertionError | TypeError

  /** The argument list of a function spec, [] when the key is absent. */
  function ArgumentsOf(f: FunctionSpec): seq<ArgumentSpec> {
    if f.parameter.Some? then f.parameter.value else []
  }

  /**
   * The pieces an emitter's loop builds, one per element in order, each knowing its position;
   * the first piece that fails is the error of the whole.
   */
  function Collect<T>(items: seq<T>, piece: (nat, T) -> Result<string, GenError>): (r: Result<seq<string>, GenError>)
    ensures r.Success? ==> |r.value| == |items|
    decreases |items|
  {
    if items == [] then Success([])
    else
      var front := Collect(items[..|items| - 1], piece);
      if front.Failure? then front
      else
        var last := piece(|items| - 1, items[|items| - 1]);
        if last.Failure? then Failure(last.error) else Success(front.value + [last.value])
  }

  /** One more loop iteration: the prefix's pieces and the next one. */
  lemma CollectStep<T>(items: seq<T>, piece: (nat, T) -> Result<string, GenError>, i: nat)
    requires i < |items| && Collect(items[..i], piece).Success?
    ensures piece(i, items[i]).Success? ==>
              Collect(items[..i + 1], piece) == Success(Collect(items[..i], piece).value + [piece(i, items[i]).value])
    ensures piece(i, items[i]).Failure? ==> Collect(items, piece) == Failure(piece(i, items[i]).error)
  {
    assert items[..i + 1][..i] == items[..i];
    if piece(i, items[i]).Failure? {
      CollectStopsAtError(items, piece, i);
    }
  }

  /** Once a prefix succeeded and the next piece fails, that failure is the result. */
  lemma {:induction false} CollectStopsAtError<T>(items: seq<T>, piece: (nat, T) -> Result<string, GenError>, i: nat)
    requires i < |items| && Collect(items[..i], piece).Success? && piece(i, items[i]).Failure?
    ensures Collect(items, piece) == Failure(piece(i, items[i]).error)
    decreases |items|
  {
    var front := items[..|items| - 1];
    if |items| == i + 1 {
      assert front == items[..i];
    } else {
      assert front[..i] == items[..i];
      CollectStopsAtError(front, piece, i);
    }
  }

  /** The run succeeds exactly when every piece does, and then holds each piece in order. */
  lemma {:induction false} CollectSucceedsIff<T>(items: seq<T>, piece: (nat, T) -> Result<string, GenError>)
    ensures Collect(items, piece).Success? <==> forall i :: 0 <= i < |items| ==> piece(i, items[i]).Success?
    ensures Collect(items, piece).Success? ==>
              forall i :: 0 <= i < |items| ==> Collect(items, piece).value[i] == piece(i, items[i]).value
    decreases |items|
  {
    if items != [] {
      var n := |items|;
      var front := items[..n - 1];
      CollectSucceedsIff(front, piece);
      assert forall i :: 0 <= i < n - 1 ==> front[i] == items[i];
    }
  }

  /** The error of a failed run is the error of its first failing piece. */
  lemma CollectFirstError<T>(items: seq<T>, piece: (nat, T) -> Result<string, GenError>, k: nat)
    requires k < |items| && piece(k, items[k]).Failure?
    requires forall j :: 0 <= j < k ==> piece(j, items[j]).Success?
    ensures Collect(items, piece) == Failure(piece(k, items[k]).error)
  {
    var prefix := items[..k];
    CollectSucceedsIff(prefix, piece);
    assert forall j :: 0 <= j < k ==> prefix[j] == items[j];
    CollectStopsAtError(items, piece, k);
  }

  /** A failed run failed at one of its pieces, with that piece's error. */
  lemma {:induction false} CollectFailureIsPieceFailure<T>(items: seq<T>, piece: (nat, T) -> Result<string, GenError>)
    requires Collect(items, piece).Failure?
    ensures exists i :: 0 <= i < |items| && piece(i, items[i]).Failure?
                        && Collect(items, piece).error == piece(i, items[i]).error
    decreases |items|
  {
    var n := |items|;
    var front := items[..n - 1];
    if Collect(front, piece).Failure? {
      CollectFailureIsPieceFailure(front, piece);
      var i :| 0 <= i < |front| && piece(i, front[i]).Failure? && Collect(front, piece).error == piece(i, front[i]).error;
      assert front[i] == items[i];
    } else {
      assert piece(n - 1, items[n - 1]).Failure?;
    }
  }
}
