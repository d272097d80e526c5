/**
 * The Vercel checkout function (api/create-checkout-session.js), the
 * endpoint the storefront posts to. Unlike the Netlify one it reads an
 * already parsed body, takes the origin from the origin header only, and
 * answers every failure after the guards with the same generic 500.
 */
module VercelCheckout {
  import opened Wire
  import opened StripeSession

  /**
   * The request as the handler reads it: the method, the `items` field of
   * `req.body || {}`, and the origin header.
   */
  datatype Request = Request(httpMethod: string, items: ItemsValue, origin: Option<string>)

  const METHOD_NOT_ALLOWED: string := "Method not allowed"
  const NO_ITEMS: string := "No items"
  const SERVER_ERROR: string := "Server error"

  /** `req.headers.origin || ''` */
  function Origin(req: Request): (o: string)
    ensures o != "" <==> Truthy(req.origin)
    ensures o != "" ==> req.origin == Some(o)
  {
    if Truthy(req.origin) then req.origin.value else ""
  }

  /**
   * The default `handler`. 405 exactly for a method other than POST, 400
   * exactly for a POST whose `items` is not a non-empty array, 500 always
   * with the bare `{ error: 'Server error' }`; no error body carries a hint.
   */
  function Handle(prices: map<string, string>, createSession: SessionParams -> Attempt<string>, req: Request): (r: Response)
    ensures r.statusCode in {200, 400, 405, 500}
    ensures r.statusCode == 405 <==> req.httpMethod != "POST"
    ensures r.statusCode == 405 ==> r.body == ErrorJson(METHOD_NOT_ALLOWED, None)
    ensures r.statusCode == 400 <==> req.httpMethod == "POST" && (req.items.NotAnArray? || req.items.elems == [])
    ensures r.statusCode == 400 ==> r.body == ErrorJson(NO_ITEMS, None)
    ensures r.statusCode == 500 ==> r.body == ErrorJson(SERVER_ERROR, None)
    ensures r.body.ErrorJson? ==> r.body.hint.None?
    ensures r.statusCode == 200 ==> r.body.UrlJson?
  {
    if req.httpMethod != "POST" then Response(405, ErrorJson(METHOD_NOT_ALLOWED, None))
    else match req.items
      case NotAnArray => Response(400, ErrorJson(NO_ITEMS, None))
      case ArrayOf(items) =>
        if items == [] then Response(400, ErrorJson(NO_ITEMS, None))
        else match MapLineItems(prices, items)
          case Unmapped(_) => Response(500, ErrorJson(SERVER_ERROR, None))
          case Mapped(lineItems) =>
            match createSession(SessionRequest(Origin(req), lineItems))
            case Threw(_) => Response(500, ErrorJson(SERVER_ERROR, None))
            case Done(url) => Response(200, UrlJson(url))
  }

  /**
   * An id without a price: the generic 500, and the answer does not depend
   * on session creation, so no session is created.
   */
  lemma UnmappedItem(prices: map<string, string>, createSession: SessionParams -> Attempt<string>,
                     other: SessionParams -> Attempt<string>, req: Request, k: int)
    requires req.httpMethod == "POST" && req.items.ArrayOf?
    requires 0 <= k < |req.items.elems| && !IsMapped(prices, req.items.elems[k].id)
    ensures Handle(prices, createSession, req) == Response(500, ErrorJson(SERVER_ERROR, None))
    ensures Handle(prices, createSession, req) == Handle(prices, other, req)
  {
    assert MapLineItems(prices, req.items.elems).Unmapped?;
  }

  /**
   * A POST whose items are a non-empty array of priced ids reaches session
   * creation with those line items and the origin header's redirect URLs:
   * a created session answers 200 with its URL, a thrown error the generic 500.
   */
  lemma SessionOutcome(prices: map<string, string>, createSession: SessionParams -> Attempt<string>,
                       req: Request, items: seq<Item>)
    requires req.httpMethod == "POST" && req.items == ArrayOf(items) && items != []
    requires forall k :: 0 <= k < |items| ==> IsMapped(prices, items[k].id)
    ensures var session := createSession(SessionRequest(Origin(req), MapLineItems(prices, items).lineItems));
      (session.Done? ==> Handle(prices, createSession, req) == Response(200, UrlJson(session.value))) &&
      (session.Threw? ==> Handle(prices, createSession, req) == Response(500, ErrorJson(SERVER_ERROR, None)))
  {
  }

  /**
   * A 200 answer means the session was created from line items of the same
   * length and order as `items`, prices from the table, quantities at
   * least 1, and redirect URLs built from the origin header (or "") with
   * the success and cancel markers; the body carries that session's URL.
   */
  lemma Success(prices: map<string, string>, createSession: SessionParams -> Attempt<string>, req: Request)
    requires Handle(prices, createSession, req).statusCode == 200
    ensures req.httpMethod == "POST" && req.items.ArrayOf? && req.items.elems != []
    ensures var items := req.items.elems;
      var m := MapLineItems(prices, items);
      m.Mapped? && |m.lineItems| == |items| &&
      (forall k :: 0 <= k < |items| ==>
        m.lineItems[k].price == prices[items[k].id] && m.lineItems[k].quantity >= 1) &&
      createSession(SessionParams(m.lineItems, Origin(req) + SUCCESS_MARKER, Origin(req) + CANCEL_MARKER))
        == Done(Handle(prices, createSession, req).body.url)
  {
  }
}
