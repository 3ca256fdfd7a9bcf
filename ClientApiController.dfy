/**
 * The `POST /clientApi/reviews` controller: call the review service with the
 * request body and map the outcome onto the Koa context, `201` with the
 * saved review or `404` with the error message.
 */
module ClientApiController {
  import opened Wrappers
  import opened JsValues
  import opened ShopRepository
  import opened ReviewRepository
  import opened ReviewService

  /** The parts of a Koa context the controller reads and writes. */
  class Context {
    /** `ctx.req.body`. */
    const requestBody: JsValue
    var status: int
    var body: JsValue

    /** Koa starts every response at `404` with no body. */
    constructor (requestBody: JsValue)
      ensures this.requestBody == requestBody && status == 404 && body == Undefined
    {
      this.requestBody := requestBody;
      status := 404;
      body := Undefined;
    }
  }

  /** `{success: true, data}`. */
  function SuccessBody(data: JsValue): JsValue {
    Obj(map["success" := Bool(true), "data" := data])
  }

  /** `{success: false, error: message}`. */
  function FailureBody(message: string): JsValue {
    Obj(map["success" := Bool(false), "error" := Str(message)])
  }

  /**
   * `createReview(ctx)`. The request body is the service's only argument,
   * so it is taken as the shop domain and the review data is `undefined`.
   * Exactly one of the two responses is set.
   */
  method CreateReview(ctx: Context, shops: seq<Doc>, store: ReviewCollection, now: int)
    requires store.Valid()
    modifies ctx, store
    ensures store.Valid()
    ensures ctx.status == 201 || ctx.status == 404
    ensures ctx.status == 201 <==> GetShopByShopifyDomain(shops, ctx.requestBody).Some?
    ensures ctx.status == 201 ==>
              && ctx.body == SuccessBody(Obj(ReviewPayload(old(store.NextId()), Undefined, now)))
              && store.reviews == old(store.reviews)[old(store.NextId()) := Obj(ReviewPayload(old(store.NextId()), Undefined, now))]
              && store.issued == old(store.issued) + 1
    ensures ctx.status == 404 ==>
              && ctx.body == FailureBody(NullIdMessage())
              && store.reviews == old(store.reviews)
              && store.issued == old(store.issued)
  {
    var requestBody := ctx.requestBody;
    var resp := ReviewService.CreateReview(shops, store, requestBody, Undefined, now);
    match resp
    case Ok(review) =>
      ctx.status := 201;
      ctx.body := SuccessBody(review);
    case Err(message) =>
      ctx.status := 404;
      ctx.body := FailureBody(message);
  }

  /**
   * When every shop's stored domain is a string, a request whose body is an
   * object (or absent) is answered `404` and stores nothing; a stored
   * review never holds more than its id and its time.
   */
  method ObjectBodyIsNotFound(ctx: Context, shops: seq<Doc>, store: ReviewCollection, now: int)
    requires store.Valid()
    requires forall k :: 0 <= k < |shops| ==> "shopifyDomain" in shops[k].data ==> shops[k].data["shopifyDomain"].Str?
    requires ctx.requestBody.Obj? || ctx.requestBody == Undefined
    modifies ctx, store
    ensures ctx.status == 404 && ctx.body == FailureBody(NullIdMessage())
    ensures store.reviews == old(store.reviews)
  {
    NonStringDomainFindsNothing(shops, ctx.requestBody);
    CreateReview(ctx, shops, store, now);
  }
}
