/** The publish/subscribe collaborator, reduced to what the cache facade
    does with it: it publishes (topic, payload) messages and registers one
    handler per topic. Delivery is not modelled here; a client delivers a
    message by calling `Cache.Deliver`. */
module Messaging {

  /** What a message carries. `del` always publishes a list of keys;
      `reset` publishes no payload; a delete message arriving from
      elsewhere may carry a single non-list key. */
  datatype Payload<K> =
    | ListPayload(keys: seq<K>)
    | ScalarPayload(key: K)
    | NoPayload

  datatype Message<K> = Message(topic: string, payload: Payload<K>)

  /** The shared transport: every message published so far, in order, and
      every topic a handler was registered for, in order. */
  class PubSub<K> {
    var published: seq<Message<K>>
    var subscribed: seq<string>

    constructor ()
      ensures published == [] && subscribed == []
    {
      published := [];
      subscribed := [];
    }

    method Publish(topic: string, payload: Payload<K>)
      modifies this`published
      ensures published == old(published) + [Message(topic, payload)]
    {
      published := published + [Message(topic, payload)];
    }

    method On(topic: string)
      modifies this`subscribed
      ensures subscribed == old(subscribed) + [topic]
    {
      subscribed := subscribed + [topic];
    }
  }
}
