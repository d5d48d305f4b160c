/** Failure-carrying wrappers, Java's 32-bit int and the decimal text of a number. */
module Common {

  datatype Option<+T> = None | Some(value: T)

  datatype Result<+T, +E> = Ok(value: T) | Err(error: E)

  /** Java's `int`. */
  type Int32 = x: int | -0x8000_0000 <= x < 0x8000_0000

  const MaxInt32: Int32 := 0x7fff_ffff

  /** Java's `int` arithmetic: the mathematical result reduced into the 32-bit range (two's complement wrap-around). */
  function WrapInt32(x: int): (r: Int32)
    ensures (r - x) % 0x1_0000_0000 == 0
    ensures -0x8000_0000 <= x < 0x8000_0000 ==> r == x
  {
    var m := x % 0x1_0000_0000;
    if m < 0x8000_0000 then m else m - 0x1_0000_0000
  }

  predicate IsDigit(c: char) {
    '0' <= c <= '9'
  }

  predicate AllDigits(s: string) {
    forall i :: 0 <= i < |s| ==> IsDigit(s[i])
  }

  function DigitChar(d: nat): (c: char)
    requires d < 10
    ensures IsDigit(c) && c as int - '0' as int == d
  {
    ('0' as int + d) as char
  }

  /** The decimal text of a non-negative number, as `Long.toString` writes it: no sign, no leading zero. */
  function NatToDecimal(n: nat): (s: string)
    ensures |s| >= 1 && AllDigits(s)
    ensures n > 0 ==> s[0] != '0'
    decreases n
  {
    if n < 10 then [DigitChar(n)] else NatToDecimal(n / 10) + [DigitChar(n % 10)]
  }

  /** The number a string of decimal digits denotes; the reading that `NatToDecimal` inverts. */
  function DecimalValue(s: string): nat
    requires AllDigits(s)
  {
    if s == [] then 0 else DecimalValue(s[..|s| - 1]) * 10 + (s[|s| - 1] as int - '0' as int)
  }

  lemma {:induction false} DecimalRoundTrip(n: nat)
    ensures DecimalValue(NatToDecimal(n)) == n
    decreases n
  {
    var s := NatToDecimal(n);
    if n >= 10 {
      DecimalRoundTrip(n / 10);
      assert s[..|s| - 1] == NatToDecimal(n / 10);
    }
  }

  /** Distinct numbers have distinct decimal texts. */
  lemma DecimalInjective(m: nat, n: nat)
    requires NatToDecimal(m) == NatToDecimal(n)
    ensures m == n
  {
    DecimalRoundTrip(m);
    DecimalRoundTrip(n);
  }
}

/** JSON trees (what Jackson's `JsonNode` and JavaScript's parsed values hold) and the Java values decoded from them. */
module Values {
  import opened Common

  datatype Json =
    | JNull
    | JBool(b: bool)
    | JNumber(n: int)
    | JString(s: string)
    | JArray(elems: seq<Json>)
    | JObject(fields: map<string, Json>)

  /** A Java object as the handler sees it: an argument after decoding, or an item a stream produces. */
  datatype JavaValue =
    | NullValue
    | IntValue(i: Int32)
    | StringValue(s: string)
    | OtherValue(tree: Json)  // any other object, represented by the tree Jackson serialises it to

  /** `ObjectMapper.valueToTree` for the values above. */
  function ToJson(v: JavaValue): Json {
    match v
    case NullValue => JNull
    case IntValue(i) => JNumber(i)
    case StringValue(s) => JString(s)
    case OtherValue(tree) => tree
  }
}

/** The frames both ends exchange, after JSON parsing. */
module Wire {
  import opened Common
  import opened Values

  /** A response frame: `{id, item}` for an item, `{id, done: true}` for completion; an absent field is None / false. */
  datatype Envelope = Envelope(id: int, item: Option<Json>, done: bool)

  function ItemEnvelope(id: int, item: Json): Envelope {
    Envelope(id, Some(item), false)
  }

  function DoneEnvelope(id: int): Envelope {
    Envelope(id, None, true)
  }

  /** A request as the server reads it: the `method` field as text, `id` as a Java int, `args` as the raw node or absent. */
  datatype Request = Request(methodName: string, id: Int32, args: Option<Json>)

  /** A request frame as the client writes it: `{id, method, args}`. */
  datatype RequestFrame = RequestFrame(id: nat, methodName: string, args: seq<Json>)

  /** The server's reading of a client frame: `args` is present as an array and the id goes through `asInt`. */
  function FrameToRequest(f: RequestFrame): (r: Request)
    ensures f.id < 0x8000_0000 ==> r.id == f.id
    ensures r.methodName == f.methodName && r.args == Some(JArray(f.args))
  {
    Request(f.methodName, WrapInt32(f.id), Some(JArray(f.args)))
  }
}
