/**
 * `decodeArgs` and the reflective `Method.invoke` that consumes its result.
 */
module ArgDecoding {
  import opened Common
  import opened Values
  import opened Reflection
  import opened Streams

  /** Jackson's `readerFor(type).readValue(node)`: a value of the class, or None where Jackson throws. */
  type Decoder = (JavaClass, Json) -> Option<JavaValue>

  /** Why `decodeArgs` throws: no parameter type at that index, or Jackson could not read the value. */
  datatype ArgError = ArgIndexOutOfBounds(index: nat) | ArgNotDecodable(index: nat)

  /** Position j of the argument array has a parameter type, and Jackson reads the value as that type. */
  predicate DecodesAt(args: seq<Json>, types: seq<JavaClass>, decode: Decoder, j: nat)
    requires j < |args|
  {
    j < |types| && decode(types[j], args[j]).Some?
  }

  /**
   * Decoding positions i.. of the argument array, each against the parameter type at the same
   * index, stopping at the first position that fails.
   */
  function DecodeFrom(args: seq<Json>, types: seq<JavaClass>, decode: Decoder, i: nat): (r: Result<seq<JavaValue>, ArgError>)
    requires i <= |args|
    ensures r.Ok? <==> forall j :: i <= j < |args| ==> DecodesAt(args, types, decode, j)
    ensures r.Ok? ==> |r.value| == |args| - i &&
                      forall j :: i <= j < |args| ==> DecodesAt(args, types, decode, j) && Some(r.value[j - i]) == decode(types[j], args[j])
    ensures r.Err? ==> i <= r.error.index < |args| && !DecodesAt(args, types, decode, r.error.index) &&
                       (forall j :: i <= j < r.error.index ==> DecodesAt(args, types, decode, j)) &&
                       (r.error.ArgIndexOutOfBounds? <==> r.error.index >= |types|)
    decreases |args| - i
  {
    if i == |args| then Ok([])
    else if i >= |types| then
      assert !DecodesAt(args, types, decode, i);
      Err(ArgIndexOutOfBounds(i))
    else match decode(types[i], args[i])
      case None =>
        assert !DecodesAt(args, types, decode, i);
        Err(ArgNotDecodable(i))
      case Some(v) =>
        assert DecodesAt(args, types, decode, i);
        match DecodeFrom(args, types, decode, i + 1)
        case Ok(rest) => Ok([v] + rest)
        case Err(e) => Err(e)
  }

  /** `decodeArgs` as a value: an absent `args` gives no arguments, a present one is decoded position by position. */
  function DecodeArgsSpec(argsJson: Option<seq<Json>>, types: seq<JavaClass>, decode: Decoder): Result<seq<JavaValue>, ArgError> {
    match argsJson
    case None => Ok([])
    case Some(args) => DecodeFrom(args, types, decode, 0)
  }

  /**
   * `decodeArgs`: fills an array as long as the JSON array, element i decoded against parameter type i.
   * It checks no arity: a longer array faults on the parameter index, a shorter one passes.
   */
  method DecodeArgs(argsJson: Option<seq<Json>>, parameterTypes: seq<JavaClass>, decode: Decoder)
    returns (r: Result<seq<JavaValue>, ArgError>)
    ensures r == DecodeArgsSpec(argsJson, parameterTypes, decode)
    ensures argsJson.None? ==> r == Ok([])
    ensures argsJson.Some? && r.Ok? ==> |r.value| == |argsJson.value| <= |parameterTypes|
  {
    if argsJson.None? {
      return Ok([]);
    }
    var json := argsJson.value;
    var args := new JavaValue[|json|];
    for i := 0 to args.Length
      invariant forall j :: 0 <= j < i ==> DecodesAt(json, parameterTypes, decode, j) && Some(args[j]) == decode(parameterTypes[j], json[j])
    {
      if i >= |parameterTypes| {
        FirstFailure(json, parameterTypes, decode, i);
        return Err(ArgIndexOutOfBounds(i));
      }
      var value := decode(parameterTypes[i], json[i]);
      if value.None? {
        FirstFailure(json, parameterTypes, decode, i);
        return Err(ArgNotDecodable(i));
      }
      args[i] := value.value;
    }
    r := Ok(args[..]);
    if |json| > 0 {
      assert DecodesAt(json, parameterTypes, decode, |json| - 1);
    }
    var spec := DecodeFrom(json, parameterTypes, decode, 0);
    assert spec.Ok?;
    assert spec.value == args[..];
  }

  /** The error `decodeArgs` reports is the first position that fails. */
  lemma FirstFailure(args: seq<Json>, types: seq<JavaClass>, decode: Decoder, i: nat)
    requires i < |args| && !DecodesAt(args, types, decode, i)
    requires forall j :: 0 <= j < i ==> DecodesAt(args, types, decode, j)
    ensures DecodeFrom(args, types, decode, 0) ==
            Err(if i >= |types| then ArgIndexOutOfBounds(i) else ArgNotDecodable(i))
  {
    var r := DecodeFrom(args, types, decode, 0);
    assert r.Err?;
    var e := r.error.index;
    if e != i {
      assert false;
    }
  }

  /** Absent `args` decodes to no arguments whatever the parameter types. */
  lemma AbsentArgsDecodeEmpty(types: seq<JavaClass>, decode: Decoder)
    ensures DecodeArgsSpec(None, types, decode) == Ok([])
  {
  }

  /** More arguments than parameters always fails; at the first missing parameter index unless an earlier value fails first. */
  lemma TooManyArgsFail(args: seq<Json>, types: seq<JavaClass>, decode: Decoder)
    requires |args| > |types|
    ensures DecodeArgsSpec(Some(args), types, decode).Err?
    ensures DecodeArgsSpec(Some(args), types, decode).error.index <= |types|
  {
    assert !DecodesAt(args, types, decode, |types|);
  }

  /** Fewer arguments than parameters pass `decodeArgs` untouched when each value decodes. */
  lemma FewerArgsPass(args: seq<Json>, types: seq<JavaClass>, decode: Decoder)
    requires |args| < |types|
    requires forall j :: 0 <= j < |args| ==> decode(types[j], args[j]).Some?
    ensures DecodeArgsSpec(Some(args), types, decode).Ok?
    ensures |DecodeArgsSpec(Some(args), types, decode).value| == |args|
  {
  }

  /**
   * The endpoint's own code once reflection has accepted the call: the stream it returns, or None
   * when it throws (argument conversion failures of reflection included).
   */
  type EndpointBody = (MethodInfo, seq<JavaValue>) -> Option<Flux>

  /** Why `Method.invoke` throws: the argument count differs from the parameter count, or the target threw. */
  datatype InvokeError = WrongArgumentCount | TargetThrew

  /** `Method.invoke(endpoint, args)`: reflection rejects a wrong argument count before the method runs. */
  function Invoke(m: MethodInfo, args: seq<JavaValue>, body: EndpointBody): (r: Result<Flux, InvokeError>)
    ensures r.Ok? <==> |args| == |m.parameters| && body(m, args).Some?
    ensures r.Ok? ==> Some(r.value) == body(m, args)
    ensures |args| != |m.parameters| ==> r == Err(WrongArgumentCount)
  {
    if |args| != |m.parameters| then Err(WrongArgumentCount)
    else match body(m, args)
      case None => Err(TargetThrew)
      case Some(f) => Ok(f)
  }
}
