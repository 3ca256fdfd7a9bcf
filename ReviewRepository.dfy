/**
 * The `reviews` collection and the review repository: `save` allocates a new
 * document id, builds the payload from the id, the submitted data and the
 * server time, writes it under that id and returns it.
 */
module ReviewRepository {
  import opened Strings
  import opened JsValues

  /**
   * The id `reviewRef.doc()` generates for the `n`-th new document. The
   * store's random ids are modelled by a counter, which makes "never used
   * before" provable.
   */
  function AutoId(n: nat): string {
    NatToString(n)
  }

  /** Different allocations give different ids. */
  lemma AutoIdInjective()
    ensures forall m: nat, n: nat :: AutoId(m) == AutoId(n) ==> m == n
  {
    NatToStringInjectiveAll();
  }

  /** `{id, ...data, createdAt: new Date()}`: later sources override earlier ones. */
  function ReviewPayload(id: string, data: JsValue, now: int): (payload: map<string, JsValue>)
    ensures payload.Keys == Spread(data).Keys + {"id", "createdAt"}
    ensures payload["createdAt"] == Time(now)
    ensures payload["id"] == (if "id" in Spread(data) then Spread(data)["id"] else Str(id))
    ensures forall k :: k in Spread(data) && k != "createdAt" ==> payload[k] == Spread(data)[k]
  {
    map["id" := Str(id)] + Spread(data) + map["createdAt" := Time(now)]
  }

  /** `findAll(shopId, softBy, filter)`: an empty async function, so it resolves to `undefined`. */
  function FindAll(shopId: JsValue, softBy: JsValue, filter: JsValue): (r: JsValue)
    ensures r == Undefined
  {
    Undefined
  }

  /** `getOne()`: an empty async function, so it resolves to `undefined`. */
  function GetOne(): (r: JsValue)
    ensures r == Undefined
  {
    Undefined
  }

  /** The `reviews` collection: stored documents by id, and how many ids have been handed out. */
  class ReviewCollection {
    var reviews: map<string, JsValue>
    var issued: nat

    /** No id the allocator has yet to hand out is already taken. */
    ghost predicate Valid()
      reads this
    {
      forall n: nat :: AutoId(n) in reviews ==> n < issued
    }

    constructor ()
      ensures reviews == map[] && issued == 0
      ensures Valid()
    {
      reviews := map[];
      issued := 0;
    }

    /** The id the next `save` allocates. */
    function NextId(): string
      reads this
    {
      AutoId(issued)
    }

    /**
     * `save(data)`: allocate a fresh document, write the payload to it and
     * return the payload. Exactly one document is added; the others are
     * unchanged.
     */
    method Save(data: JsValue, now: int) returns (payload: JsValue)
      requires Valid()
      modifies this
      ensures Valid()
      ensures old(NextId()) !in old(reviews)
      ensures payload == Obj(ReviewPayload(old(NextId()), data, now))
      ensures reviews == old(reviews)[old(NextId()) := payload]
      ensures |reviews| == |old(reviews)| + 1
      ensures issued == old(issued) + 1
    {
      AutoIdInjective();
      var id := AutoId(issued);
      payload := Obj(ReviewPayload(id, data, now));
      reviews := reviews[id := payload];
      issued := issued + 1;
    }
  }

  /** Saving the same data twice stores two documents under different ids: there is no deduplication. */
  method SaveTwice(store: ReviewCollection, data: JsValue, now: int, later: int) returns (first: JsValue, second: JsValue)
    requires store.Valid()
    modifies store
    ensures store.Valid()
    ensures first.Obj? && second.Obj? && "id" in first.fields && "id" in second.fields
            && ("id" !in Spread(data) ==> first.fields["id"] != second.fields["id"])
    ensures |store.reviews| == |old(store.reviews)| + 2
  {
    first := store.Save(data, now);
    second := store.Save(data, later);
    AutoIdInjective();
  }

  /** The payload carries a `shopId` or a `shopifyDomain` only when the submitted data does: `save` adds no shop linkage. */
  lemma PayloadHasNoShopLinkage(id: string, data: JsValue, now: int)
    ensures "shopId" in ReviewPayload(id, data, now) <==> "shopId" in Spread(data)
    ensures "shopifyDomain" in ReviewPayload(id, data, now) <==> "shopifyDomain" in Spread(data)
  {
  }

  /** With no data (`undefined` spreads to nothing) the payload is just the id and the time. */
  lemma UndefinedDataPayload(id: string, now: int)
    ensures ReviewPayload(id, Undefined, now) == map["id" := Str(id), "createdAt" := Time(now)]
  {
    var p := ReviewPayload(id, Undefined, now);
    assert p.Keys == {"id", "createdAt"};
  }
}
