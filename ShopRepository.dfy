/**
 * The shop lookup of the review flow: an equality query on the
 * `shopifyDomain` field of the `shops` collection, limited to one document,
 * presented as the document id merged with the document's data.
 */
module ShopRepository {
  import opened Wrappers
  import opened JsValues

  /** A stored document: its id and its data. */
  datatype Doc = Doc(id: string, data: map<string, JsValue>)

  /** `where('shopifyDomain', '==', shopifyDomain)`: the document's field equals the value. */
  predicate DomainMatches(doc: Doc, shopifyDomain: JsValue) {
    "shopifyDomain" in doc.data && doc.data["shopifyDomain"] == shopifyDomain
  }

  /** `{id: doc.id, ...doc.data()}`: a data field named `id` replaces the document id. */
  function Present(doc: Doc): (shop: map<string, JsValue>)
    ensures shop.Keys == doc.data.Keys + {"id"}
    ensures forall k :: k in doc.data ==> shop[k] == doc.data[k]
    ensures shop["id"] == (if "id" in doc.data then doc.data["id"] else Str(doc.id))
  {
    map["id" := Str(doc.id)] + doc.data
  }

  /**
   * The first document of the query result (`.limit(1)`), in the store's
   * result order, which is the order of `shops`.
   */
  function FirstMatch(shops: seq<Doc>, shopifyDomain: JsValue): (r: Option<nat>)
    ensures r.None? <==> forall k :: 0 <= k < |shops| ==> !DomainMatches(shops[k], shopifyDomain)
    ensures r.Some? ==>
              && r.value < |shops| && DomainMatches(shops[r.value], shopifyDomain)
              && forall k :: 0 <= k < r.value ==> !DomainMatches(shops[k], shopifyDomain)
    decreases |shops|
  {
    if |shops| == 0 then None
    else if DomainMatches(shops[0], shopifyDomain) then Some(0)
    else
      match FirstMatch(shops[1..], shopifyDomain)
      case None => None
      case Some(k) => Some(k + 1)
  }

  /** `getShopByShopifyDomain(shopifyDomain)`: the presented first match, or `null` when the snapshot is empty. */
  function GetShopByShopifyDomain(shops: seq<Doc>, shopifyDomain: JsValue): (r: Option<map<string, JsValue>>)
    ensures r.None? <==> forall k :: 0 <= k < |shops| ==> !DomainMatches(shops[k], shopifyDomain)
    ensures r.Some? ==>
              exists k :: 0 <= k < |shops| && DomainMatches(shops[k], shopifyDomain) && r.value == Present(shops[k])
                          && forall j :: 0 <= j < k ==> !DomainMatches(shops[j], shopifyDomain)
  {
    match FirstMatch(shops, shopifyDomain)
    case None => None
    case Some(k) => Some(Present(shops[k]))
  }

  /** When domains are unique, the lookup returns the one shop with that domain, whatever its position. */
  lemma UniqueDomainFound(shops: seq<Doc>, shopifyDomain: JsValue, k: nat)
    requires k < |shops| && DomainMatches(shops[k], shopifyDomain)
    requires forall j :: 0 <= j < |shops| && j != k ==> !DomainMatches(shops[j], shopifyDomain)
    ensures GetShopByShopifyDomain(shops, shopifyDomain) == Some(Present(shops[k]))
  {
    var r := FirstMatch(shops, shopifyDomain);
    assert r.Some?;
    assert r.value == k;
  }

  /** A shop whose stored domain is a string is never found by a value that is not a string. */
  lemma NonStringDomainFindsNothing(shops: seq<Doc>, shopifyDomain: JsValue)
    requires forall k :: 0 <= k < |shops| ==> "shopifyDomain" in shops[k].data ==> shops[k].data["shopifyDomain"].Str?
    requires !shopifyDomain.Str?
    ensures GetShopByShopifyDomain(shops, shopifyDomain).None?
  {
  }
}
