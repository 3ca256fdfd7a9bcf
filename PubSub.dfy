/**
 * The Pub/Sub publishing helper: a process-wide cache from topic names to
 * topic handles, filled on first use, through which both publish variants
 * resolve their topic.
 */
module PubSub {
  import opened Wrappers
  import opened JsValues

  /** The `gaxOpts.timeout` every topic handle is created with, in milliseconds. */
  const TopicTimeoutMs: nat := 540000

  /** A topic handle as `pubSub.topic(name, options)` returns it: a new object on every call. */
  class Topic {
    const name: string
    const timeoutMs: nat

    constructor (name: string, timeoutMs: nat)
      ensures this.name == name && this.timeoutMs == timeoutMs
    {
      this.name := name;
      this.timeoutMs := timeoutMs;
    }
  }

  /** A message handed to a topic's `publish`: the topic and the data it serialises. */
  datatype Publication = Publication(topic: Topic, data: JsValue)

  /**
   * `Buffer.from(JSON.stringify(data))`: `JSON.stringify(undefined)` is
   * `undefined`, which `Buffer.from` rejects with a TypeError; every other value
   * serialises to a string.
   */
  function Message(topic: Topic, data: JsValue): (r: Result<Publication>)
    ensures r.Err? <==> data == Undefined
    ensures r.Ok? ==> r.value.topic == topic && r.value.data == data
  {
    if data == Undefined then Err("TypeError") else Ok(Publication(topic, data))
  }

  /** The module-level `topicCache` map, with a log of the names the factory was called for. */
  class TopicCache {
    var topics: map<string, Topic>
    /** The names `pubSub.topic` has been called with, in call order. */
    ghost var created: seq<string>

    /**
     * The factory ran exactly once for each cached name and for no other,
     * and each cached handle belongs to the name it is cached under.
     */
    ghost predicate Valid()
      reads this
    {
      && (forall i, j :: 0 <= i < j < |created| ==> created[i] != created[j])
      && (forall n :: n in created <==> n in topics)
      && (forall n :: n in topics ==> topics[n].name == n && topics[n].timeoutMs == TopicTimeoutMs)
    }

    /** `new Map()` at module load. */
    constructor ()
      ensures topics == map[] && created == []
      ensures Valid()
    {
      topics := map[];
      created := [];
    }

    /** `getTopic(name)`: the cached handle, created and cached on the first request for `name`. */
    method GetTopic(name: string) returns (topic: Topic)
      requires Valid()
      modifies this
      ensures Valid()
      ensures name in topics && topic == topics[name]
      ensures name in old(topics) ==> topics == old(topics) && created == old(created)
      ensures name !in old(topics) ==>
                && fresh(topic) && topic.name == name && topic.timeoutMs == TopicTimeoutMs
                && topics == old(topics)[name := topic]
                && created == old(created) + [name]
      ensures forall n :: n != name ==> (n in topics <==> n in old(topics)) && (n in topics ==> topics[n] == old(topics)[n])
    {
      if name !in topics {
        var t := new Topic(name, TopicTimeoutMs);
        topics := topics[name := t];
        created := created + [name];
      }
      topic := topics[name];
    }

    /**
     * `publishTopic(name, data)`: resolve the topic through the cache and
     * publish the data on it.
     */
    method PublishTopic(name: string, data: JsValue) returns (sent: Result<Publication>)
      requires Valid()
      modifies this
      ensures Valid()
      ensures name in topics
      ensures sent.Err? <==> data == Undefined
      ensures sent.Ok? ==> sent.value == Publication(topics[name], data)
      ensures name in old(topics) ==> topics == old(topics) && created == old(created)
      ensures name !in old(topics) ==>
                && fresh(topics[name]) && topics[name].name == name && topics[name].timeoutMs == TopicTimeoutMs
                && topics == old(topics)[name := topics[name]]
                && created == old(created) + [name]
      ensures forall n :: n != name ==> (n in topics <==> n in old(topics)) && (n in topics ==> topics[n] == old(topics)[n])
    {
      var topic := GetTopic(name);
      sent := Message(topic, data);
    }

    /** `publishTopicAsync(name, data)`: the same resolution and serialisation; the send is not awaited. */
    method PublishTopicAsync(name: string, data: JsValue) returns (sent: Result<Publication>)
      requires Valid()
      modifies this
      ensures Valid()
      ensures name in topics
      ensures sent.Err? <==> data == Undefined
      ensures sent.Ok? ==> sent.value == Publication(topics[name], data)
      ensures name in old(topics) ==> topics == old(topics) && created == old(created)
      ensures name !in old(topics) ==>
                && fresh(topics[name]) && topics[name].name == name && topics[name].timeoutMs == TopicTimeoutMs
                && topics == old(topics)[name := topics[name]]
                && created == old(created) + [name]
      ensures forall n :: n != name ==> (n in topics <==> n in old(topics)) && (n in topics ==> topics[n] == old(topics)[n])
    {
      var topic := GetTopic(name);
      sent := Message(topic, data);
    }
  }

  /**
   * Two requests for the same name return the same handle, and the factory
   * runs for it at most once; the other variant then publishes on that
   * handle too.
   */
  method RepeatedRequestsShareTopic(cache: TopicCache, name: string, data: JsValue)
    returns (first: Topic, second: Topic, sent: Result<Publication>)
    requires cache.Valid()
    modifies cache
    ensures first == second
    ensures sent.Ok? ==> sent.value.topic == first
    ensures cache.Valid()
    ensures multiset(cache.created)[name] == 1
  {
    first := cache.GetTopic(name);
    second := cache.GetTopic(name);
    sent := cache.PublishTopicAsync(name, data);
    CreatedOnce(cache.created, name);
  }

  /** Publishing on a new topic keeps the handle cached for every other name. */
  method PublishKeepsOtherTopics(cache: TopicCache, cached: string, name: string, data: JsValue)
    returns (sent: Result<Publication>)
    requires cache.Valid() && cached in cache.topics && cached != name
    modifies cache
    ensures cached in cache.topics && cache.topics[cached] == old(cache.topics[cached])
  {
    sent := cache.PublishTopic(name, data);
  }

  /** A name in a duplicate-free log occurs in it exactly once. */
  lemma {:induction false} CreatedOnce(log: seq<string>, name: string)
    requires forall i, j :: 0 <= i < j < |log| ==> log[i] != log[j]
    requires name in log
    ensures multiset(log)[name] == 1
  {
    var k := |log| - 1;
    assert log == log[..k] + [log[k]];
    if log[k] == name {
      assert name !in log[..k];
    } else {
      CreatedOnce(log[..k], name);
    }
  }
}
