/**
 * What the handler learns from Java reflection about an endpoint's methods, which of them it
 * registers, and how it names their types for the TypeScript client.
 */
module Reflection {
  import opened Common

  /** A loaded class, identified by its binary name (a single class loader is assumed). */
  datatype JavaClass = JavaClass(name: string)

  const ObjectClass := JavaClass("java.lang.Object")
  const StringClass := JavaClass("java.lang.String")
  const IntClass := JavaClass("int")
  const FluxClass := JavaClass("reactor.core.publisher.Flux")

  /** The argument of `Flux<T>` in a method's generic return type: a class, or something else (absent, parameterized, wildcard, type variable). */
  datatype TypeArgument = ClassArgument(argClass: JavaClass) | NonClassArgument

  datatype Parameter = Parameter(name: string, paramType: JavaClass)

  /** A `java.lang.reflect.Method`, reduced to what the handler reads from it. */
  datatype MethodInfo = MethodInfo(
    name: string,
    declaringClass: JavaClass,
    isPublic: bool,
    isStatic: bool,
    returnType: JavaClass,
    fluxArgument: TypeArgument,
    parameters: seq<Parameter>)

  /** The eligibility filter: not declared by Object, public, not static, and erased return type exactly Flux. */
  predicate IsEndpointMethod(m: MethodInfo) {
    && m.declaringClass != ObjectClass
    && m.isPublic
    && !m.isStatic
    && m.returnType == FluxClass
  }

  function ParameterTypes(m: MethodInfo): seq<JavaClass> {
    seq(|m.parameters|, i requires 0 <= i < |m.parameters| => m.parameters[i].paramType)
  }

  /**
   * The name-keyed registry the constructor builds from `getMethods()` in the order reflection
   * returns them: each eligible method is `put` under its name, so a later one replaces an earlier.
   */
  function Registry(methods: seq<MethodInfo>): (r: map<string, MethodInfo>)
    ensures forall k :: k in r ==> r[k].name == k && IsEndpointMethod(r[k]) && r[k] in methods
    decreases |methods|
  {
    if methods == [] then map[]
    else
      var earlier := Registry(methods[..|methods| - 1]);
      var m := methods[|methods| - 1];
      if IsEndpointMethod(m) then earlier[m.name := m] else earlier
  }

  /** A name is registered iff some eligible method carries it. */
  lemma {:induction false} RegistryKeys(methods: seq<MethodInfo>, k: string)
    ensures k in Registry(methods) <==>
            exists i :: 0 <= i < |methods| && IsEndpointMethod(methods[i]) && methods[i].name == k
    decreases |methods|
  {
    if methods != [] {
      var n := |methods| - 1;
      var init := methods[..n];
      RegistryKeys(init, k);
      if k in Registry(init) {
        var i :| 0 <= i < |init| && IsEndpointMethod(init[i]) && init[i].name == k;
        assert methods[i] == init[i];
      }
      if exists i :: 0 <= i < |methods| && IsEndpointMethod(methods[i]) && methods[i].name == k {
        var i :| 0 <= i < |methods| && IsEndpointMethod(methods[i]) && methods[i].name == k;
        if i < n {
          assert init[i] == methods[i];
        }
      }
    }
  }

  /** The method registered under a name is the last eligible method with that name. */
  lemma {:induction false} RegistryLastWins(methods: seq<MethodInfo>, i: nat)
    requires i < |methods| && IsEndpointMethod(methods[i])
    requires forall j :: i < j < |methods| && methods[j].name == methods[i].name ==> !IsEndpointMethod(methods[j])
    ensures methods[i].name in Registry(methods) && Registry(methods)[methods[i].name] == methods[i]
    decreases |methods|
  {
    var n := |methods| - 1;
    var init, last := methods[..n], methods[n];
    assert Registry(methods) == if IsEndpointMethod(last) then Registry(init)[last.name := last] else Registry(init);
    if i < n {
      assert init[i] == methods[i];
      forall j | i < j < |init| && init[j].name == init[i].name
        ensures !IsEndpointMethod(init[j])
      {
        assert init[j] == methods[j];
      }
      RegistryLastWins(init, i);
      assert IsEndpointMethod(last) ==> last.name != methods[i].name;
    }
  }

  /** An ineligible method never ends up in the registry. */
  lemma {:induction false} RegistryExcludes(methods: seq<MethodInfo>, m: MethodInfo)
    requires m in methods && !IsEndpointMethod(m)
    ensures m !in Registry(methods).Values
  {
  }

  /** `getFluxParameterType`: the class argument of Flux, or Object when the argument is not a class. */
  function GetFluxParameterType(t: TypeArgument): JavaClass {
    match t
    case ClassArgument(c) => c
    case NonClassArgument => ObjectClass
  }

  /** `getTsType`: primitive int is a TypeScript number, String a string, every other class `any`. */
  function GetTsType(c: JavaClass): (ts: string)
    ensures ts == "number" <==> c == IntClass
    ensures ts == "string" <==> c == StringClass
    ensures ts == "any" <==> c != IntClass && c != StringClass
  {
    if c == IntClass then "number"
    else if c == StringClass then "string"
    else "any"
  }

  /** The TypeScript item type of a stream: that of its class argument, and `any` when the argument is not a class. */
  lemma ItemTsType(t: TypeArgument)
    ensures t.NonClassArgument? ==> GetTsType(GetFluxParameterType(t)) == "any"
    ensures t.ClassArgument? ==> GetTsType(GetFluxParameterType(t)) == GetTsType(t.argClass)
  {
  }
}
