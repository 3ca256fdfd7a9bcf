/**
 * The review service: look the shop up by its domain, then save the review
 * data. The lookup finishes before the write is issued; a missing shop makes
 * the property read `shopData.id` throw before anything is written.
 */
module ReviewService {
  import opened Wrappers
  import opened JsValues
  import opened ShopRepository
  import opened ReviewRepository

  /** The message of the `TypeError` thrown by reading a property of `null`. */
  function NullIdMessage(): string {
    "Cannot read " + "properties of " + "null (reading " + "'id')"
  }

  /** `getReviews(shopId, softBy, filter)`: an empty async function, so it resolves to `undefined`. */
  function GetReviews(shopId: JsValue, softBy: JsValue, filter: JsValue): (r: JsValue)
    ensures r == Undefined
  {
    Undefined
  }

  /**
   * `createReview(shopifyDomain, data)`. The shop's id and domain are passed
   * to `save` as extra arguments, which `save(data)` ignores, so only `data`
   * reaches the store. A thrown error is `Err` with its message.
   */
  method CreateReview(shops: seq<Doc>, store: ReviewCollection, shopifyDomain: JsValue, data: JsValue, now: int)
    returns (r: Result<JsValue>)
    requires store.Valid()
    modifies store
    ensures store.Valid()
    ensures GetShopByShopifyDomain(shops, shopifyDomain).None? ==>
              && r == Err(NullIdMessage())
              && store.reviews == old(store.reviews) && store.issued == old(store.issued)
    ensures GetShopByShopifyDomain(shops, shopifyDomain).Some? ==>
              && r == Ok(Obj(ReviewPayload(old(store.NextId()), data, now)))
              && old(store.NextId()) !in old(store.reviews)
              && store.reviews == old(store.reviews)[old(store.NextId()) := r.value]
              && store.issued == old(store.issued) + 1
  {
    var shopData := GetShopByShopifyDomain(shops, shopifyDomain);
    if shopData.None? {
      return Err(NullIdMessage());
    }
    var review := store.Save(data, now);
    return Ok(review);
  }
}
