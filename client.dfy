/**
 * The browser side: one `Channel` per endpoint name, multiplexing calls over one socket by id,
 * and the generators that turn a call's envelopes back into its items.
 */
module PushClient {
  import opened Common
  import opened Values
  import opened Wire

  /** The messages a call's generator yields: those before the first one whose `done` is set. */
  function UntilDone(ms: seq<Envelope>): (r: seq<Envelope>)
    ensures |r| <= |ms| && r == ms[..|r|]
    ensures forall k :: 0 <= k < |r| ==> !r[k].done
    ensures |r| < |ms| ==> ms[|r|].done
    decreases |ms|
  {
    if ms == [] || ms[0].done then [] else [ms[0]] + UntilDone(ms[1..])
  }

  /** Some message ends the call. */
  predicate HasDone(ms: seq<Envelope>) {
    exists k :: 0 <= k < |ms| && ms[k].done
  }

  /** The generator returns iff a `done` message arrives, and then it stops right at the first one. */
  lemma UntilDoneStops(ms: seq<Envelope>)
    ensures |UntilDone(ms)| < |ms| <==> HasDone(ms)
    ensures !HasDone(ms) ==> UntilDone(ms) == ms
  {
    var r := UntilDone(ms);
    if HasDone(ms) {
      assert forall j :: 0 <= j < |r| ==> !ms[j].done;
    }
  }

  /** A prefix with no `done` that ends at a `done` (or at the end) is what the generator yields. */
  lemma UntilDoneIs(ms: seq<Envelope>, i: nat)
    requires i <= |ms| && (forall k :: 0 <= k < i ==> !ms[k].done) && (i < |ms| ==> ms[i].done)
    ensures UntilDone(ms) == ms[..i]
  {
    var r := UntilDone(ms);
    assert forall j :: 0 <= j < |r| ==> !ms[j].done;
  }

  /** What stays queued at a call's waiter once its generator has stopped: the messages after the first `done`. */
  function Leftover(ms: seq<Envelope>): (rest: seq<Envelope>)
    ensures |UntilDone(ms)| + |rest| + (if HasDone(ms) then 1 else 0) == |ms|
  {
    UntilDoneStops(ms);
    var n := |UntilDone(ms)|;
    if n < |ms| then ms[n + 1..] else []
  }

  /**
   * A connection to one endpoint. `handlers` maps each call id to its waiter; a waiter is modelled
   * by the messages it has been resolved with that the call's generator has not yet taken.
   */
  class Channel {
    const name: string
    var nextId: nat
    var handlers: map<int, seq<Envelope>>
    var sent: seq<RequestFrame>  // frames written to the socket, in order

    /** Ids are handed out 0, 1, 2, ... one per call, and only handed-out ids have waiters. */
    ghost predicate Valid()
      reads this
    {
      && |sent| == nextId
      && (forall i :: 0 <= i < |sent| ==> sent[i].id == i)
      && (forall id :: id in handlers ==> 0 <= id < nextId)
    }

    constructor (name: string)
      ensures Valid() && this.name == name
      ensures nextId == 0 && handlers == map[] && sent == []
    {
      this.name := name;
      nextId := 0;
      handlers := map[];
      sent := [];
    }

    /**
     * The start of `open`: take the next id, send `{id, method, args}`, and arm the first waiter.
     * The id is new on this channel and larger than every earlier one.
     */
    method Open(methodName: string, args: seq<Json>) returns (id: nat)
      requires Valid()
      modifies this
      ensures Valid()
      ensures id == old(nextId) && nextId == id + 1
      ensures forall j :: 0 <= j < |old(sent)| ==> old(sent)[j].id < id
      ensures id !in old(handlers)
      ensures sent == old(sent) + [RequestFrame(id, methodName, args)]
      ensures handlers == old(handlers)[id := []]
    {
      id := nextId;
      nextId := nextId + 1;
      sent := sent + [RequestFrame(id, methodName, args)];
      handlers := handlers[id := []];
    }

    /**
     * `onmessage`: a message whose id has no waiter is dropped and nothing changes; otherwise it is
     * handed to that id's waiter alone.
     */
    method OnMessage(message: Envelope)
      requires Valid()
      modifies this
      ensures Valid() && nextId == old(nextId) && sent == old(sent)
      ensures message.id !in old(handlers) ==> handlers == old(handlers)
      ensures message.id in old(handlers) ==>
        handlers == old(handlers)[message.id := old(handlers)[message.id] + [message]]
    {
      if message.id !in handlers {
        return;  // "No handler for stream id" is logged
      }
      handlers := handlers[message.id := handlers[message.id] + [message]];
    }

    /**
     * The body of `open` after the request: take the waiter's messages one by one, re-arming the
     * waiter each time, yielding each until one has `done` set, then return. With no message left
     * the generator stays suspended (`returned` is false). The waiter's entry is never removed.
     */
    method Pull(id: int) returns (yielded: seq<Envelope>, returned: bool)
      requires Valid() && id in handlers
      modifies this
      ensures Valid() && nextId == old(nextId) && sent == old(sent)
      ensures yielded == UntilDone(old(handlers)[id])
      ensures returned <==> HasDone(old(handlers)[id])
      ensures id in handlers
      ensures handlers == old(handlers)[id := if returned then old(handlers)[id][|yielded| + 1..] else []]
    {
      ghost var pending := handlers[id];
      UntilDoneStops(pending);
      yielded := [];
      var i := 0;
      while true
        invariant Valid() && nextId == old(nextId) && sent == old(sent)
        invariant i <= |pending| && handlers == old(handlers)[id := pending[i..]]
        invariant yielded == pending[..i]
        invariant forall k :: 0 <= k < i ==> !pending[k].done
        decreases |pending| - i
      {
        var waiting := handlers[id];
        assert waiting == pending[i..];
        if waiting == [] {
          UntilDoneIs(pending, i);
          return yielded, false;
        }
        var nextMessage := waiting[0];
        assert nextMessage == pending[i];
        handlers := handlers[id := waiting[1..]];  // `handlers.set(id, ...)`: the waiter is re-armed
        if nextMessage.done {
          UntilDoneIs(pending, i);
          return yielded, true;
        }
        yielded := yielded + [nextMessage];
        i := i + 1;
      }
    }
  }

  /** The object the top-level `open` returns: which endpoint, which method, which arguments. */
  datatype EndpointGenerator = EndpointGenerator(endpointName: string, methodName: string, args: seq<Json>)

  /** `open(endpointName, methodName, args = [])`: creating the generator touches no channel. */
  function Open(endpointName: string, methodName: string, args: Option<seq<Json>>): EndpointGenerator {
    EndpointGenerator(endpointName, methodName, if args.None? then [] else args.value)
  }

  /** `close()` on any generator: always the error "Not implemented". */
  function Close(g: EndpointGenerator): Result<(), string> {
    Err("Not implemented")
  }

  /** The top-level generator's loop: for each message the channel's generator yields, yield its `item`. */
  method YieldItems(messages: seq<Envelope>) returns (items: seq<Option<Json>>)
    ensures |items| == |messages|
    ensures forall k :: 0 <= k < |messages| ==> items[k] == messages[k].item
  {
    items := [];
    for k := 0 to |messages|
      invariant |items| == k
      invariant forall j :: 0 <= j < k ==> items[j] == messages[j].item
    {
      items := items + [messages[k].item];
    }
  }

  /** The module-level `channels` map: at most one channel per endpoint name, made on first use. */
  class Channels {
    var channels: map<string, Channel>

    ghost predicate Valid()
      reads this, channels.Values
    {
      forall n :: n in channels ==> channels[n].name == n && channels[n].Valid()
    }

    constructor ()
      ensures Valid() && channels == map[]
    {
      channels := map[];
    }

    /** The channel for an endpoint: the cached one if there is one, else a new one that is cached. */
    method ChannelFor(endpointName: string) returns (c: Channel)
      requires Valid()
      modifies this
      ensures Valid() && c.name == endpointName && c.Valid()
      ensures endpointName in old(channels) ==> c == old(channels)[endpointName] && channels == old(channels)
      ensures endpointName !in old(channels) ==>
        fresh(c) && c.nextId == 0 && c.handlers == map[] && channels == old(channels)[endpointName := c]
    {
      if endpointName !in channels {
        var created := new Channel(endpointName);
        channels := channels[endpointName := created];
      }
      c := channels[endpointName];
    }

    /**
     * Iterating a generator: find or make the endpoint's channel and start the call on it. The call
     * gets the channel's next id, and no other channel changes.
     */
    method Start(g: EndpointGenerator) returns (c: Channel, id: nat)
      requires Valid()
      modifies this, channels.Values
      ensures Valid() && c.name == g.endpointName && g.endpointName in channels && channels[g.endpointName] == c
      ensures id < |c.sent| && id in c.handlers
      ensures g.endpointName in old(channels) ==> c == old(channels)[g.endpointName] && id == old(c.nextId)
      ensures g.endpointName !in old(channels) ==> fresh(c) && id == 0
      ensures c.sent[id] == RequestFrame(id, g.methodName, g.args) && c.handlers[id] == []
      ensures c.nextId == id + 1
      ensures channels == old(channels)[g.endpointName := c]
      ensures g.endpointName in old(channels) ==>
        c.sent == old(channels[g.endpointName].sent) + [RequestFrame(id, g.methodName, g.args)] &&
        c.handlers == old(channels[g.endpointName].handlers)[id := []]
      ensures g.endpointName !in old(channels) ==>
        c.sent == [RequestFrame(0, g.methodName, g.args)] && c.handlers == map[0 := []]
      ensures forall n :: n in old(channels) && n != g.endpointName ==>
        n in channels && channels[n] == old(channels)[n] && unchanged(channels[n])
    {
      c := ChannelFor(g.endpointName);
      id := c.Open(g.methodName, g.args);
    }
  }
}
