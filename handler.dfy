/**
 * `PushEndpointHandler`: the per-endpoint WebSocket handler. Its constructor builds the method
 * registry; each text message dispatches one call and streams that call's envelopes back.
 */
module Framework {
  import opened Common
  import opened Values
  import opened Wire
  import opened Reflection
  import opened ArgDecoding
  import opened Streams
  import opened ClientStub

  /** The connection's outgoing side: every frame `sendMessage` writes, in order. */
  class WebSocketSession {
    var sent: seq<Envelope>

    constructor ()
      ensures sent == []
    {
      sent := [];
    }

    method SendMessage(e: Envelope)
      modifies this
      ensures sent == old(sent) + [e]
    {
      sent := sent + [e];
    }
  }

  /** Why `handleTextMessage` throws before any envelope is sent. */
  datatype HandlerError =
    | ArgsNotArray                       // the cast of `args` to an array node fails
    | UnknownMethod(name: string)        // the lookup gives null and the next dereference faults
    | BadArguments(cause: ArgError)      // `decodeArgs` throws
    | InvocationFailed(why: InvokeError) // `Method.invoke` throws

  /** The raw `args` node as the optional array `decodeArgs` receives, or None when the cast fails. */
  function ArgsArray(args: Option<Json>): Option<Option<seq<Json>>> {
    match args
    case None => Some(None)
    case Some(JArray(elems)) => Some(Some(elems))
    case Some(_) => None
  }

  /**
   * One message's whole effect: either the exception that ends the handler before anything is sent,
   * or the envelopes the subscription sends for the call's id.
   */
  function HandleSpec(endpointMethods: map<string, MethodInfo>, request: Request, decode: Decoder, body: EndpointBody)
    : Result<seq<Envelope>, HandlerError>
  {
    match ArgsArray(request.args)
    case None => Err(ArgsNotArray)
    case Some(argsJson) =>
      if request.methodName !in endpointMethods then Err(UnknownMethod(request.methodName))
      else
        var m := endpointMethods[request.methodName];
        match DecodeArgsSpec(argsJson, ParameterTypes(m), decode)
        case Err(e) => Err(BadArguments(e))
        case Ok(args) =>
          match Invoke(m, args, body)
          case Err(e) => Err(InvocationFailed(e))
          case Ok(flux) => Ok(CallEnvelopes(request.id, flux))
  }

  /** An unknown method name fails the handler before decoding, invoking or sending anything. */
  lemma UnknownMethodFails(endpointMethods: map<string, MethodInfo>, request: Request, decode: Decoder, body: EndpointBody)
    requires request.methodName !in endpointMethods
    ensures HandleSpec(endpointMethods, request, decode, body) ==
            (if ArgsArray(request.args).None? then Err(ArgsNotArray) else Err(UnknownMethod(request.methodName)))
  {
  }

  /**
   * A dispatched call sends its stream's items as `{id, item}` in order, then one `{id, done: true}`
   * iff the stream completes; the request's id is echoed in each.
   */
  lemma DispatchedCallEnvelopes(endpointMethods: map<string, MethodInfo>, request: Request, decode: Decoder, body: EndpointBody)
    requires HandleSpec(endpointMethods, request, decode, body).Ok?
    ensures var es := HandleSpec(endpointMethods, request, decode, body).value;
      exists f: Flux ::
        && body(endpointMethods[request.methodName], DecodeArgsSpec(ArgsArray(request.args).value, ParameterTypes(endpointMethods[request.methodName]), decode).value) == Some(f)
        && es == CallEnvelopes(request.id, f)
        && |es| == |f.items| + (if f.terminal == Completes then 1 else 0)
        && (forall k :: 0 <= k < |es| ==> es[k].id == request.id)
        && (forall k :: 0 <= k < |f.items| ==> es[k] == ItemEnvelope(request.id, ToJson(f.items[k])))
        && (forall k :: 0 <= k < |es| ==> (es[k].done <==> f.terminal == Completes && k == |f.items|))
  {
    var m := endpointMethods[request.methodName];
    var args := DecodeArgsSpec(ArgsArray(request.args).value, ParameterTypes(m), decode).value;
    var f := Invoke(m, args, body).value;
    CallEnvelopesShape(request.id, f);
  }

  /**
   * With fewer arguments than parameters `decodeArgs` passes, and the call fails in `Method.invoke`
   * on the argument count: still before anything is sent.
   */
  lemma FewerArgsFailAtInvoke(endpointMethods: map<string, MethodInfo>, request: Request, decode: Decoder, body: EndpointBody)
    requires request.methodName in endpointMethods
    requires request.args.Some? && request.args.value.JArray?
    requires var ps := ParameterTypes(endpointMethods[request.methodName]); var args := request.args.value.elems;
      |args| < |ps| && forall j :: 0 <= j < |args| ==> decode(ps[j], args[j]).Some?
    ensures HandleSpec(endpointMethods, request, decode, body) == Err(InvocationFailed(WrongArgumentCount))
  {
    var m := endpointMethods[request.methodName];
    FewerArgsPass(request.args.value.elems, ParameterTypes(m), decode);
  }

  /** One step of `logCode`'s loop: appending the next method's stub extends the text by one method. */
  lemma AppendStub(builder: string, prefix: string, mapping: string, ms: seq<MethodInfo>, i: nat)
    requires i < |ms| && builder == prefix + Stubs(mapping, ms[..i])
    ensures builder + Stub(mapping, ms[i]) == prefix + Stubs(mapping, ms[..i + 1])
  {
    StubsPrefix(mapping, ms, i);
    ConcatAssociates(prefix, Stubs(mapping, ms[..i]), Stub(mapping, ms[i]));
  }

  /** Regrouping over string variables, so the solver need not unfold the stub texts to see it. */
  lemma ConcatAssociates(a: string, b: string, c: string)
    ensures (a + b) + c == a + (b + c)
  {
  }

  class PushEndpointHandler {
    const mapping: string
    const endpointClassName: string
    var endpointMethods: map<string, MethodInfo>

    /** Walks `getMethods()` in order and `put`s each eligible method under its name. */
    constructor (mapping: string, endpointClassName: string, methods: seq<MethodInfo>)
      ensures this.mapping == mapping && this.endpointClassName == endpointClassName
      ensures endpointMethods == Registry(methods)
    {
      this.mapping := mapping;
      this.endpointClassName := endpointClassName;
      endpointMethods := map[];
      new;
      for i := 0 to |methods|
        invariant endpointMethods == Registry(methods[..i])
      {
        assert methods[..i + 1][..i] == methods[..i];
        if IsEndpointMethod(methods[i]) {
          endpointMethods := endpointMethods[methods[i].name := methods[i]];
        }
      }
      assert methods[..|methods|] == methods;
    }

    /**
     * `handleTextMessage` followed by the subscription running to its end: on a failure before
     * dispatch nothing is sent and the failure is returned; otherwise each item is sent as it comes,
     * then `{id, done: true}` on completion, and nothing on a stream error (which is only printed).
     */
    method HandleTextMessage(session: WebSocketSession, request: Request, decode: Decoder, body: EndpointBody)
      returns (failure: Option<HandlerError>)
      modifies session
      ensures var spec := HandleSpec(endpointMethods, request, decode, body);
        && (spec.Err? ==> failure == Some(spec.error) && session.sent == old(session.sent))
        && (spec.Ok? ==> failure == None && session.sent == old(session.sent) + spec.value)
    {
      var argsJson: Option<seq<Json>>;
      match request.args {
        case None =>
          argsJson := None;
        case Some(node) =>
          if !node.JArray? {
            return Some(ArgsNotArray);
          }
          argsJson := Some(node.elems);
      }
      if request.methodName !in endpointMethods {
        return Some(UnknownMethod(request.methodName));
      }
      var target := endpointMethods[request.methodName];
      var args := DecodeArgs(argsJson, ParameterTypes(target), decode);
      if args.Err? {
        return Some(BadArguments(args.error));
      }
      var result := Invoke(target, args.value, body);
      if result.Err? {
        return Some(InvocationFailed(result.error));
      }
      var flux := result.value;
      // item callback: one `{id, item}` per item, in order
      for k := 0 to |flux.items|
        invariant session.sent == old(session.sent) + ItemEnvelopes(request.id, flux.items[..k])
      {
        ItemEnvelopesAppend(request.id, flux.items, k);
        session.SendMessage(ItemEnvelope(request.id, ToJson(flux.items[k])));
      }
      assert flux.items[..|flux.items|] == flux.items;
      // completion callback sends `{id, done: true}`; the error callback only prints
      if flux.terminal == Completes {
        session.SendMessage(DoneEnvelope(request.id));
      }
      return None;
    }

    /** The registered methods in the order the registry's `values()` yields the given keys. */
    function MethodsInOrder(order: seq<string>): seq<MethodInfo>
      reads this
      requires forall i :: 0 <= i < |order| ==> order[i] in endpointMethods
    {
      var registry := endpointMethods;
      seq(|order|, i requires 0 <= i < |order| => registry[order[i]])
    }

    /**
     * `logCode`: nothing for an empty registry; otherwise the header, the import line, one stub per
     * registered method in the map's iteration order `order` (each key once), and a blank line.
     */
    method LogCode(order: seq<string>) returns (message: Option<string>)
      requires forall k :: k in endpointMethods <==> k in order
      requires forall i, j :: 0 <= i < j < |order| ==> order[i] != order[j]
      ensures message.None? <==> endpointMethods == map[]
      ensures message.Some? ==> message.value == LogMessage(endpointClassName, mapping, MethodsInOrder(order))
    {
      if endpointMethods == map[] {
        return None;
      }
      var ms := MethodsInOrder(order);
      var builder := Header(endpointClassName) + ImportLine;
      for i := 0 to |ms|
        invariant builder == Header(endpointClassName) + ImportLine + Stubs(mapping, ms[..i])
      {
        AppendStub(builder, Header(endpointClassName) + ImportLine, mapping, ms, i);
        builder := builder + Stub(mapping, ms[i]);
      }
      assert ms[..|ms|] == ms;
      builder := builder + "\n\n";
      return Some(builder);
    }
  }
}
