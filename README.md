# fusion-push streaming RPC, modelled in Dafny

fusion-push is a prototype of streaming remote calls over one WebSocket per endpoint. A browser
client writes `{id, method, args}`. The server looks the method up in the endpoint's registry,
decodes the arguments, invokes the method and subscribes to the `Flux` it returns. Each item goes
back as `{id, item}`, and completion as `{id, done: true}`. On the client, a `Channel` per endpoint
routes incoming messages by id to the waiting call, whose generator yields items until `done`.

The model covers:

- **Server handler** (`Framework.PushEndpointHandler`): the registry build, the eligibility filter,
  `decodeArgs`, `Method.invoke`'s argument count check, the envelopes a call sends, and `logCode`'s
  TypeScript stub text (`ClientStub`, `Reflection.GetTsType`).
- **Sample endpoint** (`MyPushEndpoint.StartCountdown`): the countdown, including Java's 32-bit
  `duration + 1` and Reactor's refusal of a negative `take`.
- **Client** (`PushClient`): `Channel` with its id counter, waiters and `onmessage` routing; the
  `open` loop that stops at the first `done`; the `channels` cache; the top-level `open` and `close`.
- **Both ends together** (`EndToEnd`): a completed call's items reach the client's caller in order.
  The sample exchange `startCountdown("World", 2)` with id 7 gives "2...", "1...",
  "Hello, World", then done.

Values are modelled as follows:

- JSON is a datatype (`Values.Json`).
- A Java object is `Values.JavaValue`.
- A reflected method is a record (`Reflection.MethodInfo`).
- A `Flux` is its finite list of items plus how it ends, completion or error (`Streams.Flux`).
- Jackson's per-type reading is an abstract partial function (`ArgDecoding.Decoder`).
- The endpoint's own code is an abstract function from method and arguments to a stream, or to
  nothing when it throws (`ArgDecoding.EndpointBody`).
- Sending on the socket appends to a sequence (`Framework.WebSocketSession.sent`,
  `PushClient.Channel.sent`).

What the code does on failures, and one property it does not have:

- No error envelope is ever sent. A call that fails before dispatch (unknown method, arguments
  that cannot be read, `invoke` throwing) sends nothing. A stream that fails sends its items and
  then nothing, and its client waits for ever.
- `decodeArgs` checks no arity. Surplus arguments fault on the parameter index. Missing ones pass
  `decodeArgs` and fail only in `Method.invoke`.
- The item that carries the name is the only one that starts with "Hello, ". It is not the only
  one containing the name: for the name "1" and duration 1, "1..." contains it too
  (`MyPushEndpoint.NameAlsoInNumbers`).

## Model

| member | source | states |
|---|---|---|
| Values.ToJson | src/main/java/com/example/application/framework/PushEndpointHandler.java:88 | `valueToTree`: null becomes JSON null, an int a number, a String a JSON string, any other object its tree |
| Reflection.IsEndpointMethod | src/main/java/com/example/application/framework/PushEndpointHandler.java:47-66 | a method is eligible iff it is not declared by Object, is public, is not static and has erased return type exactly Flux |
| Reflection.GetFluxParameterType | src/main/java/com/example/application/framework/PushEndpointHandler.java:164-171 | the class argument of `Flux<T>`, or Object when the argument is not a class |
| Streams.ItemEnvelopes | src/main/java/com/example/application/framework/PushEndpointHandler.java:84-95 | the item callback's output: one `{id, item}` per item, carrying `valueToTree` of the item, in stream order |
| Streams.CallEnvelopes | src/main/java/com/example/application/framework/PushEndpointHandler.java:84-111 | everything a subscription sends: the item envelopes, then `{id, done: true}` iff the stream completes, nothing more on error |
| ArgDecoding.DecodesAt | src/main/java/com/example/application/framework/PushEndpointHandler.java:122 | position j has a parameter type and Jackson reads the JSON value as that type |
| ArgDecoding.DecodeArgsSpec | src/main/java/com/example/application/framework/PushEndpointHandler.java:114-127 | `decodeArgs` as a value: absent args give no arguments, present ones are decoded position by position |
| ClientStub.Join | src/main/java/com/example/application/framework/PushEndpointHandler.java:145 | `Collectors.joining(sep)`: the parts with `sep` between neighbours, empty for no parts |
| ClientStub.ParameterDeclarations | src/main/java/com/example/application/framework/PushEndpointHandler.java:143-145 | `name: tsType` for each parameter in declaration order |
| ClientStub.ParameterNames | src/main/java/com/example/application/framework/PushEndpointHandler.java:147-148 | the parameter names in declaration order |
| ClientStub.Signature | src/main/java/com/example/application/framework/PushEndpointHandler.java:150-151 | `export function N(p: T, ...): EndpointGenerator<R> {` and a newline, R being the TypeScript type of the Flux argument |
| ClientStub.OpenCall | src/main/java/com/example/application/framework/PushEndpointHandler.java:152-153 | `  return open('mapping', 'N', [p, ...]);` and a newline |
| ClientStub.Stub | src/main/java/com/example/application/framework/PushEndpointHandler.java:150-154 | one method's stub: signature, call to `open`, closing brace |
| ClientStub.Stubs | src/main/java/com/example/application/framework/PushEndpointHandler.java:140-156 | the stubs of the methods, concatenated in iteration order |
| ClientStub.Header | src/main/java/com/example/application/framework/PushEndpointHandler.java:135-136 | the sentence naming the endpoint class's `.ts` file, then a blank line |
| ClientStub.LogMessage | src/main/java/com/example/application/framework/PushEndpointHandler.java:134-158 | the whole logged text: header, import line, stubs, `\n\n` |
| Framework.ArgsArray | src/main/java/com/example/application/framework/PushEndpointHandler.java:77 | the `(ArrayNode)` cast: an absent `args` stays absent, an array passes, anything else fails the cast |
| Framework.HandleSpec | src/main/java/com/example/application/framework/PushEndpointHandler.java:68-112 | one message's effect in Java's evaluation order: cast, lookup, decode, invoke, each failure ending the handler before any send; otherwise the call's envelopes under the request id |
| MyPushEndpoint.CountdownItem | src/main/java/com/example/application/MyPushEndpoint.java:13-18 | item k: `remaining = duration - k`; the greeting when it is 0, else its decimal text then "..." |
| MyPushEndpoint.StartCountdown | src/main/java/com/example/application/MyPushEndpoint.java:11-19 | `take(duration + 1)` with Java int wrap: nothing when the count is negative, else items 0 to duration |
| MyPushEndpoint.NameText | src/main/java/com/example/application/MyPushEndpoint.java:15 | `"Hello, " + name` writes a null name as "null" |
| PushClient.HasDone | frontend/fake-generated/pushclient.ts:47 | some message has `done` set |
| PushClient.Leftover | frontend/fake-generated/pushclient.ts:43-52 | what stays at a call's waiter once its generator stopped: the messages after the first `done`; its length accounts for every message |
| EndToEnd.ItemsOf | frontend/fake-generated/pushclient.ts:68-70 | the list of the messages' `item` fields, one per message, in order |
| Common.WrapInt32 | src/main/java/com/example/application/MyPushEndpoint.java:12 | Java `int` addition: the result is the mathematical sum modulo 2^32, in the int range, and equals the sum when that fits |
| Common.NatToDecimal | src/main/java/com/example/application/MyPushEndpoint.java:17 | the decimal text of a count (`remaining + "..."`) is non-empty, all digits, with no leading zero |
| Common.DecimalRoundTrip | src/main/java/com/example/application/MyPushEndpoint.java:17 | reading the decimal text of n back gives n |
| Common.DecimalInjective | src/main/java/com/example/application/MyPushEndpoint.java:17 | distinct counts are written as distinct texts |
| Wire.FrameToRequest | src/main/java/com/example/application/framework/PushEndpointHandler.java:74-77 | the server reads back the client frame's method and args unchanged, and its id unchanged whenever that id fits in an int |
| Reflection.ParameterTypes | src/main/java/com/example/application/framework/PushEndpointHandler.java:81 | `getParameterTypes()`: the class of each declared parameter, in declaration order |
| Reflection.Registry | src/main/java/com/example/application/framework/PushEndpointHandler.java:39-43 | every registered method is stored under its own name, is eligible, and is one of the reflected methods |
| Reflection.RegistryKeys | src/main/java/com/example/application/framework/PushEndpointHandler.java:39-66 | a name is registered iff some method with that name is not declared by Object, is public, is not static and returns exactly Flux |
| Reflection.RegistryLastWins | src/main/java/com/example/application/framework/PushEndpointHandler.java:41 | `put` under the name: the method registered is the last eligible one with that name in reflection order |
| Reflection.RegistryExcludes | src/main/java/com/example/application/framework/PushEndpointHandler.java:40 | an ineligible method is never registered |
| Reflection.GetTsType | src/main/java/com/example/application/framework/PushEndpointHandler.java:173-181 | `int` maps to "number", String to "string", and every other class to "any", each iff |
| Reflection.ItemTsType | src/main/java/com/example/application/framework/PushEndpointHandler.java:164-171 | a Flux argument that is not a class becomes Object and so "any"; a class argument gets its own TypeScript type |
| Streams.CallEnvelopesShape | src/main/java/com/example/application/framework/PushEndpointHandler.java:84-111 | a call sends one `{id, item}` per item in order; then exactly one `{id, done}`, last, iff the stream completes; the id is echoed in each |
| ArgDecoding.DecodeFrom | src/main/java/com/example/application/framework/PushEndpointHandler.java:120-126 | decoding succeeds iff every position has a parameter type and is readable as it; the values are then position by position; otherwise the error names the first failing position and its kind |
| ArgDecoding.DecodeArgs | src/main/java/com/example/application/framework/PushEndpointHandler.java:114-127 | the array-filling loop equals the position-by-position specification; absent args give no arguments; a success has as many values as JSON elements and no more than the parameters |
| ArgDecoding.FirstFailure | src/main/java/com/example/application/framework/PushEndpointHandler.java:121-122 | the loop's exception is the first position that fails: an index fault past the parameters, otherwise an unreadable value |
| ArgDecoding.AbsentArgsDecodeEmpty | src/main/java/com/example/application/framework/PushEndpointHandler.java:116-118 | absent `args` gives the empty array whatever the parameter types |
| ArgDecoding.TooManyArgsFail | src/main/java/com/example/application/framework/PushEndpointHandler.java:120-122 | more JSON arguments than parameters always fail, at or before the first missing parameter index |
| ArgDecoding.FewerArgsPass | src/main/java/com/example/application/framework/PushEndpointHandler.java:120-126 | fewer arguments than parameters pass `decodeArgs` unchecked when each value is readable |
| ArgDecoding.Invoke | src/main/java/com/example/application/framework/PushEndpointHandler.java:82 | `Method.invoke` yields the endpoint's stream iff the argument count matches the parameter count and the method does not throw; a wrong count always fails |
| ClientStub.StubsPrefix | src/main/java/com/example/application/framework/PushEndpointHandler.java:140-156 | each `forEach` step appends exactly the next method's stub |
| ClientStub.ParameterListsAgree | src/main/java/com/example/application/framework/PushEndpointHandler.java:143-148 | the declared parameter list and the forwarded name list have one entry per parameter, entry i being name i and then its TypeScript type |
| Framework.WebSocketSession.SendMessage | src/main/java/com/example/application/framework/PushEndpointHandler.java:92 | sending appends one frame to the session's output and changes nothing else |
| Framework.UnknownMethodFails | src/main/java/com/example/application/framework/PushEndpointHandler.java:79-82 | an unregistered method name fails the handler before decoding, invoking or sending |
| Framework.DispatchedCallEnvelopes | src/main/java/com/example/application/framework/PushEndpointHandler.java:84-111 | a dispatched call sends exactly the envelopes of the stream the endpoint returned for the decoded arguments: items in order under the request id, then done iff it completed |
| Framework.FewerArgsFailAtInvoke | src/main/java/com/example/application/framework/PushEndpointHandler.java:81-82 | with fewer readable arguments than parameters the call passes `decodeArgs` and fails in `Method.invoke` |
| Framework.PushEndpointHandler.constructor | src/main/java/com/example/application/framework/PushEndpointHandler.java:34-45 | the constructor loop leaves exactly the registry of the reflected methods, and every entry is eligible and stored under its own name |
| Framework.PushEndpointHandler.HandleTextMessage | src/main/java/com/example/application/framework/PushEndpointHandler.java:68-112 | a failure before dispatch is reported and sends nothing; otherwise the session's output grows by exactly the call's envelopes, sent one by one |
| Framework.PushEndpointHandler.MethodsInOrder | src/main/java/com/example/application/framework/PushEndpointHandler.java:140 | `values()` in iteration order: the registered method under each key, in key order |
| Framework.PushEndpointHandler.LogCode | src/main/java/com/example/application/framework/PushEndpointHandler.java:129-162 | nothing is logged iff the registry is empty; otherwise the header, the import line, one stub per method in iteration order, then a blank line |
| MyPushEndpoint.CountdownDefined | src/main/java/com/example/application/MyPushEndpoint.java:12 | the stream is built iff -1 <= duration < the largest int; otherwise `take` throws on the wrapped negative count |
| MyPushEndpoint.CountdownItems | src/main/java/com/example/application/MyPushEndpoint.java:12-18 | for 0 <= duration < the largest int: duration + 1 items; item k < duration is the decimal of duration - k then "..."; the last is "Hello, " + name |
| MyPushEndpoint.CountdownCountsDown | src/main/java/com/example/application/MyPushEndpoint.java:12-13 | each numeric item is digits then "..."; the numbers are duration, duration - 1, ..., 1, each one less than the one before |
| MyPushEndpoint.OnlyLastGreets | src/main/java/com/example/application/MyPushEndpoint.java:13-18 | an item starts with "Hello, " iff it is the last |
| MyPushEndpoint.NameAlsoInNumbers | src/main/java/com/example/application/MyPushEndpoint.java:14-17 | for the name "1" and duration 1 the numeric item "1..." also contains the name |
| MyPushEndpoint.CountdownEdges | src/main/java/com/example/application/MyPushEndpoint.java:12-15 | duration 0 gives the greeting alone; -1 an empty stream; the largest int throws |
| MyPushEndpoint.StartCountdownMethod | src/main/java/com/example/application/MyPushEndpoint.java:10-11 | `startCountdown` as reflection reports it, declared by MyPushEndpoint, public, not static, returning `Flux<String>`, with parameters `name: String` and `duration: int` |
| MyPushEndpoint.MyPushEndpointRegistry | src/main/java/com/example/application/framework/PushEndpointHandler.java:39-53 | whatever order reflection lists its methods in, MyPushEndpoint's registry holds `startCountdown` alone |
| MyPushEndpoint.RegistryEmpty | src/main/java/com/example/application/framework/PushEndpointHandler.java:51-53 | methods inherited from Object register nothing |
| MyPushEndpoint.SignatureText | frontend/fake-generated/MyPushEndpoint.ts:2 | the generated signature for `startCountdown` is line 2 of the checked-in client |
| MyPushEndpoint.CallText | frontend/fake-generated/MyPushEndpoint.ts:3 | the generated call to `open` under mapping `myPushEndpoint` is line 3 of the checked-in client |
| MyPushEndpoint.StartCountdownStub | frontend/fake-generated/MyPushEndpoint.ts:2-4 | the whole generated stub is lines 2 to 4 of the checked-in client |
| MyPushEndpoint.LoggedStubMatchesCheckedInClient | frontend/fake-generated/MyPushEndpoint.ts:1-4 | `logCode` for MyPushEndpoint logs the header, the checked-in client file, then blank lines |
| MyPushEndpoint.StringValues | src/main/java/com/example/application/MyPushEndpoint.java:11 | the items as Java Strings, each serialised as the JSON string of its text |
| MyPushEndpoint.MyPushEndpointBody | src/main/java/com/example/application/MyPushEndpoint.java:11-20 | whenever `startCountdown` returns a stream, that stream completes (it never errors) |
| PushClient.UntilDone | frontend/fake-generated/pushclient.ts:43-52 | the generator yields a prefix of the messages with no `done` in it, stopping exactly at the first `done` |
| PushClient.UntilDoneStops | frontend/fake-generated/pushclient.ts:43-52 | the generator returns iff some message is `done`; without one it yields every message |
| PushClient.UntilDoneIs | frontend/fake-generated/pushclient.ts:47-51 | a `done`-free prefix that ends at a `done`, or at the end, is exactly what is yielded |
| PushClient.Channel.constructor | frontend/fake-generated/pushclient.ts:10-11 | a new channel starts with id 0, no waiters and nothing sent |
| PushClient.Channel.Open | frontend/fake-generated/pushclient.ts:37-46 | a call takes the current id and increments it, so ids are fresh and increasing; it sends exactly `{id, method, args}` and arms a waiter for that id alone |
| PushClient.Channel.OnMessage | frontend/fake-generated/pushclient.ts:24-33 | a message with no waiter is dropped and nothing changes; otherwise only its id's waiter receives it |
| PushClient.Channel.Pull | frontend/fake-generated/pushclient.ts:43-52 | the `while(true)` loop yields exactly the messages before the first `done` and returns iff one arrived; the waiter entry is kept and re-armed |
| PushClient.Open | frontend/fake-generated/pushclient.ts:56 | the generator records the endpoint, the method and the arguments, `args` defaulting to `[]` |
| PushClient.Close | frontend/fake-generated/pushclient.ts:58-60 | `close()` fails with "Not implemented" for every generator |
| PushClient.YieldItems | frontend/fake-generated/pushclient.ts:68-70 | the caller receives each yielded message's `item`, in order |
| PushClient.Channels.constructor | frontend/fake-generated/pushclient.ts:5 | the cache starts empty |
| PushClient.Channels.ChannelFor | frontend/fake-generated/pushclient.ts:63-66 | the cached channel for a name is reused; otherwise a new one is made and cached; there is at most one per name |
| PushClient.Channels.Start | frontend/fake-generated/pushclient.ts:62-68 | iterating a generator starts its call on the endpoint's one channel: the cached channel's next id (0 on a new one) is taken and incremented, exactly one frame is appended and one waiter armed; the cache gains at most that endpoint's channel, and every other channel is unchanged |
| EndToEnd.CompletedCallReachesClient | frontend/fake-generated/pushclient.ts:68-70 | for a completing stream, the client's caller receives exactly the JSON of the server's items, in order, and the generator returns |
| EndToEnd.FailedCallLeavesClientWaiting | src/main/java/com/example/application/framework/PushEndpointHandler.java:96-99 | for a failing stream the client sees no `done`: it yields every item sent and then waits |
| EndToEnd.ClientOutcome | frontend/fake-generated/pushclient.ts:43-70 | for any stream, the client's generator returns iff the stream completed, and the caller receives its items as JSON in order |
| EndToEnd.WorldCountdown | src/main/java/com/example/application/MyPushEndpoint.java:11-20 | the sample exchange `{"method":"startCountdown","id":7,"args":["World",2]}` yields "2...", "1...", "Hello, World" under id 7, then done |
| EndToEnd.Deliver | frontend/fake-generated/pushclient.ts:24-33 | messages that carry one armed id all queue at that id's waiter, in order |
| EndToEnd.Receive | frontend/fake-generated/pushclient.ts:43-70 | after delivery and a pull, the caller gets the items before the first `done`, the generator returns iff a `done` arrived, and only this call's waiter changes, keeping what came after the `done` |
| EndToEnd.Call | frontend/fake-generated/pushclient.ts:37-70 | one call end to end: the channel's id advances by one and one frame is sent; the session gains exactly the call's envelopes (none on a failed dispatch, which leaves the client waiting with nothing); a dispatched call's envelopes are those of some stream, whose items the caller receives as JSON in order, the generator returning iff it completed; only this call's waiter changes |

## Left out

- Jackson's text parsing and serialisation and `JSON.parse`/`JSON.stringify` are left out. Frames are datatypes on both ends, and reading a value as a class is an abstract `Decoder`. `EndToEnd.ScalarDecoder` is a small concrete reader for `int` and String, used only by the sample exchange. Jackson's coercions, such as a number read as a String or null read as 0, are not modelled.
- `tree.get("method").asText()` and `tree.get("id").asInt()` on missing or non-text and non-number fields are not modelled. A request is taken as already holding a method name, an int id and an optional `args` node.
- Java reflection and `GenericTypeReflector` are records: `MethodInfo` and `TypeArgument`. Parameter names are assumed kept by the compiler. The classes `int`, String, Flux and Object are compared by name.
- `Method.invoke`'s conversion of argument values to parameter types is not modelled separately. It is part of the abstract `EndpointBody`, which may reject the arguments.
- Reactor timing (`Flux.interval`, one-second ticks), threads, and concurrent calls on one session are left out. Each stream is drained to its end inside `HandleTextMessage`, one call at a time. Frame integrity under concurrent writes is therefore not modelled.
- `session.sendMessage` failing with an IOException is left out. Sending always appends.
- Framework.PushEndpointHandler.HandleTextMessage: a failure before dispatch is returned as a value. In the source, `handleTextMessage` is declared `throws Exception`, so every such failure leaves it as an exception and goes to the WebSocket container, which with Spring's default handler decorators closes the session. The model does not capture that closing: its session and the client's channel stay usable.
- Diagnostic output is left out: the `System.out.println` lines for ignored methods in the eligibility filter, `printStackTrace` for a failed stream or a failed `done` send, and the client's `console.log` for a message with no waiter. None of it changes state.
- Framework.PushEndpointHandler.LogCode: `HashMap` iteration order is a parameter (`order`, each key once), not Java's hash order. The logger call is left out; the method returns the text instead.
- PushClient.Channel.Pull: the source's waiter holds one resolver at a time, so a message that arrives before the generator re-arms it is lost. The model queues such messages at the waiter. It therefore does not capture that loss or the Promise/async-generator scheduling behind it.
- Establishing the client's socket (`inited`, `onopen`, `onerror`, the URL) is left out. `Channel.Open` sends immediately.
- `close()` has no effect beyond its error. Cancellation is not implemented in the source either.
- The Spring wiring (bean discovery by annotation, handler registration at "/" + name), the `@PushEndpoint` annotation and the hello-world view are outside this model.
- EndToEnd.Call requires the channel's next id to fit in a Java int. Past that point `asInt` would echo a different id, and the client would drop every reply.

