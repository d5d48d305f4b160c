/**
 * The text `logCode` logs: a TypeScript client stub with one exported function per registered
 * endpoint method, each forwarding its parameters to the client's `open`.
 */
module ClientStub {
  import opened Reflection

  /** `Collectors.joining(sep)`: the parts with `sep` between neighbours; no parts give the empty text. */
  function Join(parts: seq<string>, sep: string): string
    decreases |parts|
  {
    if |parts| == 0 then ""
    else if |parts| == 1 then parts[0]
    else parts[0] + sep + Join(parts[1..], sep)
  }

  /** `name: tsType` for each parameter, in declaration order. */
  function ParameterDeclarations(ps: seq<Parameter>): seq<string> {
    seq(|ps|, i requires 0 <= i < |ps| => ps[i].name + ": " + GetTsType(ps[i].paramType))
  }

  /** The parameter names, in declaration order. */
  function ParameterNames(ps: seq<Parameter>): seq<string> {
    seq(|ps|, i requires 0 <= i < |ps| => ps[i].name)
  }

  /** The first line of a stub: the exported function's name, typed parameters and item type. */
  function Signature(m: MethodInfo): string {
    "export function " + m.name + "(" + Join(ParameterDeclarations(m.parameters), ", ")
      + "): EndpointGenerator<" + GetTsType(GetFluxParameterType(m.fluxArgument)) + "> {\n"
  }

  /** The second line of a stub: the call to `open` with the mapping, the method name and the parameters. */
  function OpenCall(mapping: string, m: MethodInfo): string {
    "  return open('" + mapping + "', '" + m.name + "', [" + Join(ParameterNames(m.parameters), ", ") + "]);\n"
  }

  /** The exported function for one method: its signature, the call to `open`, and the closing brace. */
  function Stub(mapping: string, m: MethodInfo): string {
    Signature(m) + OpenCall(mapping, m) + "}\n"
  }

  /** The stubs of several methods, one after the other in the given order. */
  function Stubs(mapping: string, ms: seq<MethodInfo>): string
    decreases |ms|
  {
    if ms == [] then "" else Stubs(mapping, ms[..|ms| - 1]) + Stub(mapping, ms[|ms| - 1])
  }

  function Header(className: string): string {
    "TS client generation is not implemented in this prototype, you need to manually create "
      + className + ".ts with the following contents: \n\n"
  }

  const ImportLine := "import { open, EndpointGenerator } from 'Frontend/fake-generated/pushclient';\n"

  /** The whole logged message for the methods in iteration order. */
  function LogMessage(className: string, mapping: string, ms: seq<MethodInfo>): string {
    Header(className) + ImportLine + Stubs(mapping, ms) + "\n\n"
  }

  /** One more method in the iteration appends its stub (what each `forEach` step does to the builder). */
  lemma StubsPrefix(mapping: string, ms: seq<MethodInfo>, i: nat)
    requires i < |ms|
    ensures Stubs(mapping, ms[..i + 1]) == Stubs(mapping, ms[..i]) + Stub(mapping, ms[i])
  {
    assert ms[..i + 1][..i] == ms[..i];
  }

  /**
   * The stub forwards exactly the parameters it declares: the two lists have one entry per
   * parameter, and declaration i is name i followed by its TypeScript type.
   */
  lemma ParameterListsAgree(ps: seq<Parameter>)
    ensures |ParameterDeclarations(ps)| == |ParameterNames(ps)| == |ps|
    ensures forall i :: 0 <= i < |ps| ==>
      ParameterDeclarations(ps)[i] == ParameterNames(ps)[i] + ": " + GetTsType(ps[i].paramType)
  {
  }
}
