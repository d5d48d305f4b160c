/**
 * Both ends together: what a client generator yields for the envelopes the handler sends, and the
 * sample exchange `startCountdown("World", 2)` with call id 7.
 */
module EndToEnd {
  import opened Common
  import opened Values
  import opened Wire
  import opened Reflection
  import opened ArgDecoding
  import opened Streams
  import opened Framework
  import opened MyPushEndpoint
  import opened PushClient

  /**
   * A Jackson reader for the two parameter types of the sample endpoint: an `int` from a JSON number
   * in range, a `String` from a JSON string or null. Every other pairing is treated as unreadable.
   */
  function ScalarDecoder(c: JavaClass, j: Json): Option<JavaValue> {
    if c == IntClass && j.JNumber? && -0x8000_0000 <= j.n < 0x8000_0000 then Some(IntValue(j.n))
    else if c == StringClass && j.JString? then Some(StringValue(j.s))
    else if c == StringClass && j.JNull? then Some(NullValue)
    else None
  }

  /** What the top-level generator hands to its caller for the messages its channel generator yields. */
  function ItemsOf(ms: seq<Envelope>): seq<Option<Json>> {
    seq(|ms|, k requires 0 <= k < |ms| => ms[k].item)
  }

  /**
   * A call whose stream completes: the client's generator yields every item, in order, as the JSON
   * of the server's value, and then returns.
   */
  lemma CompletedCallReachesClient(id: int, f: Flux)
    requires f.terminal == Completes
    ensures var es := CallEnvelopes(id, f);
      && HasDone(es)
      && UntilDone(es) == ItemEnvelopes(id, f.items)
      && ItemsOf(UntilDone(es)) == seq(|f.items|, k requires 0 <= k < |f.items| => Some(ToJson(f.items[k])))
  {
    var es := CallEnvelopes(id, f);
    CallEnvelopesShape(id, f);
    assert es[|f.items|].done;
    UntilDoneIs(es, |f.items|);
    assert es[..|f.items|] == ItemEnvelopes(id, f.items);
  }

  /**
   * A call whose stream fails: the client's generator yields every item that was sent and then
   * waits for ever, since no message ends the call.
   */
  lemma FailedCallLeavesClientWaiting(id: int, f: Flux)
    requires f.terminal == Fails
    ensures var es := CallEnvelopes(id, f);
      && !HasDone(es)
      && UntilDone(es) == es == ItemEnvelopes(id, f.items)
  {
    var es := CallEnvelopes(id, f);
    CallEnvelopesShape(id, f);
    assert forall k :: 0 <= k < |es| ==> !es[k].done;
    UntilDoneStops(es);
  }

  /** The request of the sample exchange: `{"method":"startCountdown","id":7,"args":["World",2]}`. */
  const WorldRequest := Request("startCountdown", 7, Some(JArray([JString("World"), JNumber(2)])))

  /**
   * The sample exchange `startCountdown("World", 2)` with id 7: "2...", "1...", "Hello, World" under
   * id 7, then `{"id":7,"done":true}`,
   * with the registry of MyPushEndpoint.
   */
  lemma WorldCountdown()
    ensures HandleSpec(map["startCountdown" := StartCountdownMethod], WorldRequest, ScalarDecoder, MyPushEndpointBody)
      == Ok([ItemEnvelope(7, JString("2...")), ItemEnvelope(7, JString("1...")),
             ItemEnvelope(7, JString("Hello, World")), DoneEnvelope(7)])
  {
    var args := [JString("World"), JNumber(2)];
    var types := ParameterTypes(StartCountdownMethod);
    assert types == [StringClass, IntClass];
    var values := [StringValue("World"), IntValue(2)];
    assert ScalarDecoder(StringClass, JString("World")) == Some(StringValue("World"));
    assert ScalarDecoder(IntClass, JNumber(2)) == Some(IntValue(2));
    assert DecodeFrom(args, types, ScalarDecoder, 2) == Ok([]);
    assert [IntValue(2)] + [] == [IntValue(2)];
    assert DecodeFrom(args, types, ScalarDecoder, 1) == Ok([IntValue(2)]);
    assert [StringValue("World")] + [IntValue(2)] == values;
    assert DecodeFrom(args, types, ScalarDecoder, 0) == Ok(values);
    assert NatToDecimal(2) == "2" && NatToDecimal(1) == "1";
    var items := StartCountdown("World", 2).value;
    assert |items| == 3 && items[0] == "2..." && items[1] == "1..." && items[2] == "Hello, World";
    assert items == ["2...", "1...", "Hello, World"];
    var f := Flux(StringValues(items), Completes);
    assert MyPushEndpointBody(StartCountdownMethod, values) == Some(f);
    assert Invoke(StartCountdownMethod, values, MyPushEndpointBody) == Ok(f);
    var es := CallEnvelopes(7, f);
    CallEnvelopesShape(7, f);
    assert es == [ItemEnvelope(7, JString("2...")), ItemEnvelope(7, JString("1...")),
                  ItemEnvelope(7, JString("Hello, World")), DoneEnvelope(7)];
  }

  /**
   * The outcome at the client of the envelopes one call sends: the generator returns iff the stream
   * completed, and the caller receives the stream's items as JSON, in order, either way.
   */
  lemma ClientOutcome(id: int, f: Flux)
    ensures var es := CallEnvelopes(id, f);
      && (HasDone(es) <==> f.terminal == Completes)
      && ItemsOf(UntilDone(es)) == seq(|f.items|, k requires 0 <= k < |f.items| => Some(ToJson(f.items[k])))
  {
    if f.terminal == Completes {
      CompletedCallReachesClient(id, f);
    } else {
      FailedCallLeavesClientWaiting(id, f);
      CallEnvelopesShape(id, f);
    }
  }

  /** The socket delivering, in order, messages that all carry one id with a waiter: they queue at that waiter. */
  method Deliver(channel: Channel, id: int, messages: seq<Envelope>)
    requires channel.Valid() && id in channel.handlers
    requires forall k :: 0 <= k < |messages| ==> messages[k].id == id
    modifies channel
    ensures channel.Valid() && channel.nextId == old(channel.nextId) && channel.sent == old(channel.sent)
    ensures channel.handlers == old(channel.handlers)[id := old(channel.handlers)[id] + messages]
  {
    ghost var waiting := channel.handlers;
    assert messages[..0] == [] && waiting[id] + [] == waiting[id];
    assert waiting[id := waiting[id]] == waiting;
    for k := 0 to |messages|
      invariant channel.Valid() && channel.nextId == old(channel.nextId) && channel.sent == old(channel.sent)
      invariant channel.handlers == waiting[id := waiting[id] + messages[..k]]
    {
      ghost var queued := waiting[id] + messages[..k];
      assert messages[..k + 1] == messages[..k] + [messages[k]];
      assert queued + [messages[k]] == waiting[id] + messages[..k + 1];
      channel.OnMessage(messages[k]);
      assert channel.handlers == waiting[id := queued][id := queued + [messages[k]]];
    }
    assert messages[..|messages|] == messages;
  }

  /**
   * The client side of one call: the socket delivers the call's messages to the channel, then the
   * call's generator is pulled and its items handed on. The caller gets the items of the messages
   * before the first `done`, and the generator returns iff a `done` arrived.
   */
  method Receive(channel: Channel, id: int, delivered: seq<Envelope>) returns (items: seq<Option<Json>>, returned: bool)
    requires channel.Valid() && id in channel.handlers && channel.handlers[id] == []
    requires forall k :: 0 <= k < |delivered| ==> delivered[k].id == id
    modifies channel
    ensures channel.Valid() && channel.nextId == old(channel.nextId) && channel.sent == old(channel.sent)
    ensures items == ItemsOf(UntilDone(delivered))
    ensures returned <==> HasDone(delivered)
    ensures channel.handlers == old(channel.handlers)[id := Leftover(delivered)]
  {
    Deliver(channel, id, delivered);
    assert [] + delivered == delivered;
    ghost var queued := channel.handlers;
    assert queued == old(channel.handlers)[id := delivered];
    var yielded;
    yielded, returned := channel.Pull(id);
    ghost var rest := if returned then delivered[|yielded| + 1..] else [];
    assert channel.handlers == queued[id := rest];
    UntilDoneStops(delivered);
    assert rest == Leftover(delivered);
    assert queued[id := rest] == old(channel.handlers)[id := rest];
    items := YieldItems(yielded);
    assert items == ItemsOf(yielded);
  }

  /**
   * One call from end to end on one connection: the channel sends its frame, the handler serves it
   * into the session, the socket delivers what the session wrote to the channel, and the channel's
   * generator is pulled. A failed dispatch sends nothing and the generator waits; otherwise it yields
   * the stream's items as JSON and returns iff the stream completed.
   */
  method Call(channel: Channel, handler: PushEndpointHandler, session: WebSocketSession,
              methodName: string, args: seq<Json>, decode: Decoder, body: EndpointBody)
    returns (items: seq<Option<Json>>, returned: bool)
    requires channel.Valid() && channel.nextId < 0x8000_0000
    modifies channel, session
    ensures channel.Valid() && channel.sent == old(channel.sent) + [RequestFrame(old(channel.nextId), methodName, args)]
    ensures channel.nextId == old(channel.nextId) + 1
    ensures var spec := HandleSpec(handler.endpointMethods, Request(methodName, old(channel.nextId), Some(JArray(args))), decode, body);
      var delivered := if spec.Ok? then spec.value else [];
      && session.sent == old(session.sent) + delivered
      && channel.handlers == old(channel.handlers)[old(channel.nextId) := Leftover(delivered)]
      && (spec.Err? ==> items == [] && !returned)
      && (spec.Ok? ==> exists f :: spec == Ok(CallEnvelopes(old(channel.nextId), f)))
      && (forall f :: spec == Ok(CallEnvelopes(old(channel.nextId), f)) ==>
            (returned <==> f.terminal == Completes) &&
            items == seq(|f.items|, k requires 0 <= k < |f.items| => Some(ToJson(f.items[k]))))
  {
    var id := channel.Open(methodName, args);
    var request := FrameToRequest(RequestFrame(id, methodName, args));
    ghost var spec := HandleSpec(handler.endpointMethods, request, decode, body);
    var before := session.sent;
    var failure := handler.HandleTextMessage(session, request, decode, body);
    var delivered := session.sent[|before|..];
    assert delivered == if spec.Ok? then spec.value else [];
    if spec.Ok? {
      DispatchedCallEnvelopes(handler.endpointMethods, request, decode, body);
    }
    ghost var armed := channel.handlers;
    items, returned := Receive(channel, id, delivered);
    assert channel.handlers == armed[id := Leftover(delivered)];
    forall f | spec == Ok(CallEnvelopes(id, f))
      ensures (returned <==> f.terminal == Completes)
      ensures items == seq(|f.items|, k requires 0 <= k < |f.items| => Some(ToJson(f.items[k])))
    {
      ClientOutcome(id, f);
    }
  }
}
