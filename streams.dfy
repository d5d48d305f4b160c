/**
 * A Reactor `Flux` as the handler observes it through `subscribe`: the items it delivers in
 * order, then completion or an error; and the envelopes the subscription's callbacks send.
 */
module Streams {
  import opened Values
  import opened Wire

  datatype Terminal = Completes | Fails

  datatype Flux = Flux(items: seq<JavaValue>, terminal: Terminal)

  /** One `{id, item}` envelope per item, in the order the stream produced them. */
  function ItemEnvelopes(id: int, items: seq<JavaValue>): seq<Envelope> {
    seq(|items|, k requires 0 <= k < |items| => ItemEnvelope(id, ToJson(items[k])))
  }

  /** Everything the three callbacks send for one call: item envelopes, then `{id, done: true}` on completion; nothing on error. */
  function CallEnvelopes(id: int, f: Flux): seq<Envelope> {
    ItemEnvelopes(id, f.items) + (if f.terminal == Completes then [DoneEnvelope(id)] else [])
  }

  /**
   * The envelopes of one call: the id is echoed in every one; position k < n carries item k and is
   * not a completion; exactly one completion is sent, last, iff the stream completed.
   */
  lemma CallEnvelopesShape(id: int, f: Flux)
    ensures var es := CallEnvelopes(id, f);
      && |es| == |f.items| + (if f.terminal == Completes then 1 else 0)
      && (forall k :: 0 <= k < |es| ==> es[k].id == id)
      && (forall k :: 0 <= k < |f.items| ==> es[k] == ItemEnvelope(id, ToJson(f.items[k])))
      && (forall k :: 0 <= k < |es| ==> (es[k].done <==> f.terminal == Completes && k == |f.items|))
  {
  }

  /** Item envelopes for a sequence split in two are those of the halves, concatenated (the subscription's loop invariant). */
  lemma ItemEnvelopesAppend(id: int, items: seq<JavaValue>, k: nat)
    requires k < |items|
    ensures ItemEnvelopes(id, items[..k + 1]) == ItemEnvelopes(id, items[..k]) + [ItemEnvelope(id, ToJson(items[k]))]
  {
  }
}
