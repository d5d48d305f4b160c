/**
 * The sample endpoint `MyPushEndpoint` and its one operation `startCountdown(name, duration)`:
 * `duration + 1` ticks, mapped to "d...", "d-1...", ..., "1...", then "Hello, <name>".
 */
module MyPushEndpoint {
  import opened Common
  import opened Values
  import opened Reflection
  import opened Streams
  import opened ClientStub

  /** The text of item k: the remaining count followed by "...", or the greeting when nothing remains. */
  function CountdownItem(name: string, duration: int, k: nat): string
    requires k <= duration
  {
    var remaining := duration - k;
    if remaining == 0 then "Hello, " + name else NatToDecimal(remaining) + "..."
  }

  /**
   * The items of `startCountdown`, or None when building the stream throws: `take` receives the
   * Java int `duration + 1` and rejects a negative count (duration < -1, or the wrap-around at the
   * largest int).
   */
  function StartCountdown(name: string, duration: Int32): Option<seq<string>> {
    var count := WrapInt32(duration + 1);
    if count < 0 then None
    else Some(seq(count, k requires 0 <= k < count => CountdownItem(name, duration, k)))
  }

  /** The call builds a stream exactly when -1 <= duration < the largest int. */
  lemma CountdownDefined(name: string, duration: Int32)
    ensures StartCountdown(name, duration).Some? <==> -1 <= duration < MaxInt32
  {
  }

  /**
   * For 0 <= duration < the largest int: duration + 1 items; item k < duration is the decimal of
   * duration - k followed by "..."; the last is "Hello, " + name.
   */
  lemma CountdownItems(name: string, duration: Int32)
    requires 0 <= duration < MaxInt32
    ensures var items := StartCountdown(name, duration).value;
      && |items| == duration + 1
      && (forall k :: 0 <= k < duration ==> items[k] == NatToDecimal(duration - k) + "...")
      && items[duration] == "Hello, " + name
  {
  }

  /** The number an item's text holds before its final "...". */
  function CountOf(item: string): nat
    requires |item| >= 3 && AllDigits(item[..|item| - 3])
  {
    DecimalValue(item[..|item| - 3])
  }

  /** The numeric items count down by one, from duration to 1, each written as plain digits. */
  lemma CountdownCountsDown(name: string, duration: Int32, k: nat)
    requires 0 <= duration < MaxInt32 && k < duration
    ensures var item := StartCountdown(name, duration).value[k];
      && |item| >= 4 && AllDigits(item[..|item| - 3]) && item[|item| - 3..] == "..."
      && CountOf(item) == duration - k
      && (k + 1 < duration ==> CountOf(StartCountdown(name, duration).value[k + 1]) == CountOf(item) - 1)
  {
    var items := StartCountdown(name, duration).value;
    var digits := NatToDecimal(duration - k);
    assert items[k] == digits + "...";
    assert items[k][..|items[k]| - 3] == digits;
    DecimalRoundTrip(duration - k);
    if k + 1 < duration {
      var next := NatToDecimal(duration - (k + 1));
      assert items[k + 1] == next + "...";
      assert items[k + 1][..|items[k + 1]| - 3] == next;
      DecimalRoundTrip(duration - (k + 1));
    }
  }

  const Greeting := "Hello, "

  /** Only the last item is the greeting: every earlier item starts with a digit. */
  lemma OnlyLastGreets(name: string, duration: Int32, k: nat)
    requires -1 <= duration < MaxInt32 && k <= duration
    ensures var item := StartCountdown(name, duration).value[k];
      (|item| >= |Greeting| && item[..|Greeting|] == Greeting) <==> k == duration
  {
    var item := StartCountdown(name, duration).value[k];
    if k < duration {
      assert item == NatToDecimal(duration - k) + "...";
      assert IsDigit(item[0]);
    } else {
      assert item == Greeting + name;
      assert item[..|Greeting|] == Greeting;
    }
  }

  /** The name can occur in a numeric item too: the greeting is the only item that starts with it, not the only one containing it. */
  lemma NameAlsoInNumbers()
    ensures StartCountdown("1", 1) == Some(["1...", "Hello, 1"])
    ensures StartCountdown("1", 1).value[0][..1] == "1"
  {
    assert NatToDecimal(1) == "1";
    var items := StartCountdown("1", 1).value;
    assert |items| == 2 && items[0] == "1..." && items[1] == "Hello, 1";
    assert items == ["1...", "Hello, 1"];
  }

  /** duration 0 sends just the greeting; duration -1 an empty stream that completes at once. */
  lemma CountdownEdges(name: string)
    ensures StartCountdown(name, 0) == Some(["Hello, " + name])
    ensures StartCountdown(name, -1) == Some([])
    ensures StartCountdown(name, MaxInt32) == None
  {
    var once := StartCountdown(name, 0).value;
    assert |once| == 1 && once[0] == "Hello, " + name;
    assert once == ["Hello, " + name];
    assert |StartCountdown(name, -1).value| == 0;
  }

  const MyPushEndpointClass := JavaClass("com.example.application.MyPushEndpoint")

  /** `startCountdown` as reflection reports it (compiled with parameter names kept). */
  const StartCountdownMethod := MethodInfo(
    "startCountdown", MyPushEndpointClass, true, false, FluxClass, ClassArgument(StringClass),
    [Parameter("name", StringClass), Parameter("duration", IntClass)])

  /** A public method MyPushEndpoint inherits from Object (equals, hashCode, toString, getClass, notify, notifyAll, wait). */
  predicate InheritedFromObject(m: MethodInfo) {
    m.declaringClass == ObjectClass
  }

  /** Whatever order reflection lists them in, the registry of MyPushEndpoint holds `startCountdown` alone. */
  lemma {:induction false} MyPushEndpointRegistry(methods: seq<MethodInfo>)
    requires StartCountdownMethod in methods
    requires forall m :: m in methods ==> m == StartCountdownMethod || InheritedFromObject(m)
    ensures Registry(methods) == map["startCountdown" := StartCountdownMethod]
    decreases |methods|
  {
    var n := |methods| - 1;
    var init, last := methods[..n], methods[n];
    assert forall m :: m in init ==> m in methods;
    if StartCountdownMethod in init {
      MyPushEndpointRegistry(init);
    } else {
      assert last == StartCountdownMethod by {
        assert methods == init + [last];
      }
      RegistryEmpty(init);
    }
  }

  /** Methods inherited from Object register nothing. */
  lemma {:induction false} RegistryEmpty(methods: seq<MethodInfo>)
    requires forall m :: m in methods ==> InheritedFromObject(m)
    ensures Registry(methods) == map[]
    decreases |methods|
  {
    if methods != [] {
      var n := |methods| - 1;
      assert methods[n] in methods;
      assert forall m :: m in methods[..n] ==> m in methods;
      RegistryEmpty(methods[..n]);
    }
  }

  const ClientImport := "import { open, EndpointGenerator } from 'Frontend/fake-generated/pushclient';\n"
  // Lines 2 and 3 of the checked-in file.
  const ClientSignature := "export function startCountdown(" + "name: string, duration: number" + "): EndpointGenerator<string> {\n"
  const ClientCall := "  return open('myPushEndpoint', '" + "startCountdown', [name, " + "duration]);\n"

  /** The text of the checked-in client file for this endpoint (four lines, no newline after the last). */
  const CheckedInClient := ClientImport + ClientSignature + ClientCall + "}"

  /** The stub generated for `startCountdown` under the mapping `myPushEndpoint`: lines 2 to 4 of the checked-in file. */
  lemma StartCountdownStub()
    ensures Stub("myPushEndpoint", StartCountdownMethod) == ClientSignature + ClientCall + "}\n"
  {
    SignatureText();
    CallText();
  }

  lemma StartCountdownParameterLists()
    ensures Join(ParameterDeclarations(StartCountdownMethod.parameters), ", ") == "name: string" + ", " + "duration: number"
    ensures Join(ParameterNames(StartCountdownMethod.parameters), ", ") == "name" + ", " + "duration"
  {
    var decls := ParameterDeclarations(StartCountdownMethod.parameters);
    assert decls[0] == "name" + ": " + "string" == "name: string";
    assert decls[1] == "duration" + ": " + "number" == "duration: number";
    assert decls == ["name: string", "duration: number"];
    assert ParameterNames(StartCountdownMethod.parameters) == ["name", "duration"];
  }

  lemma SignatureText()
    ensures Signature(StartCountdownMethod) == ClientSignature
  {
    StartCountdownParameterLists();
    assert GetTsType(GetFluxParameterType(StartCountdownMethod.fluxArgument)) == "string";
    assert "export function " + "startCountdown" + "(" == "export function startCountdown(";
    assert "name: string" + ", " + "duration: number" == "name: string, duration: number";
    assert "): EndpointGenerator<" + "string" + "> {\n" == "): EndpointGenerator<string> {\n";
  }

  lemma CallText()
    ensures OpenCall("myPushEndpoint", StartCountdownMethod) == ClientCall
  {
    StartCountdownParameterLists();
    CallShape("  return open('", "myPushEndpoint", "', '", "startCountdown", "', [", "name", ", ", "duration", "]);\n");
    assert "  return open('" + "myPushEndpoint" + "', '" == "  return open('myPushEndpoint', '";
    assert "startCountdown" + "', [" + "name" + ", " == "startCountdown', [name, ";
    assert "duration" + "]);\n" == "duration]);\n";
  }

  /** The call's pieces regrouped into the three pieces of line 3, over string variables. */
  lemma CallShape(a: string, b: string, c: string, d: string, e: string, f: string, g: string, h: string, i: string)
    ensures a + b + c + d + e + (f + g + h) + i == (a + b + c) + (d + e + f + g) + (h + i)
  {
  }

  /** The logged message for this endpoint under the mapping `myPushEndpoint` is the checked-in client file, then blank lines. */
  lemma LoggedStubMatchesCheckedInClient(className: string)
    ensures LogMessage(className, "myPushEndpoint", [StartCountdownMethod]) == Header(className) + CheckedInClient + "\n\n\n"
  {
    StartCountdownStub();
    assert ImportLine == ClientImport;
    assert Stubs("myPushEndpoint", [StartCountdownMethod]) == Stub("myPushEndpoint", StartCountdownMethod);
    Regroup(Header(className), ClientImport, ClientSignature, ClientCall);
  }

  /** Regrouping over string variables, so the solver need not unfold the long texts to see it. */
  lemma Regroup(h: string, i: string, sig: string, call: string)
    ensures h + i + (sig + call + "}\n") + "\n\n" == h + (i + sig + call + "}") + "\n\n\n"
  {
    assert "}\n" + "\n\n" == "}" + "\n\n\n";
  }

  /** The name as Java's string concatenation writes it: a null reference becomes "null". */
  function NameText(v: JavaValue): Option<string> {
    match v
    case StringValue(s) => Some(s)
    case NullValue => Some("null")
    case _ => None
  }

  /** The strings as Java String objects, in order. */
  function StringValues(items: seq<string>): (vs: seq<JavaValue>)
    ensures |vs| == |items| && forall k :: 0 <= k < |items| ==> ToJson(vs[k]) == JString(items[k])
  {
    seq(|items|, k requires 0 <= k < |items| => StringValue(items[k]))
  }

  /**
   * Running MyPushEndpoint's code for a call reflection has accepted: the stream of
   * `startCountdown`, which completes after its last item; None where the call throws
   * (an argument of the wrong type, or `take` rejecting the count).
   */
  function MyPushEndpointBody(m: MethodInfo, args: seq<JavaValue>): (r: Option<Flux>)
    ensures r.Some? ==> r.value.terminal == Completes
  {
    if m != StartCountdownMethod || |args| != 2 || NameText(args[0]).None? || !args[1].IntValue? then None
    else match StartCountdown(NameText(args[0]).value, args[1].i)
      case None => None
      case Some(items) => Some(Flux(StringValues(items), Completes))
  }
}
