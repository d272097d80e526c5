/**
 * The page and the endpoints together: the storefront posts the serialised
 * cart to /api/create-checkout-session (app.js:197) and classifies what
 * comes back. These lemmas connect the client's requests and outcomes to
 * the handlers' answers.
 */
module CheckoutFlow {
  import opened Wire
  import opened StripeSession
  import Storefront
  import VercelCheckout
  import NetlifyCheckout

  /** The parse of a response body as the page reads it; plain text is not JSON, so `data` stays `{}`. */
  function DataOf(body: ResponseBody): Storefront.ResponseData
  {
    match body
    case PlainText(_) => Storefront.ResponseData(None, None, None)
    case UrlJson(url) => Storefront.ResponseData(Some(url), None, None)
    case ErrorJson(error, hint) => Storefront.ResponseData(None, hint, Some(error))
  }

  /**
   * A response as it reaches the page: `res.ok` for a 2xx status, the raw
   * text (the text itself for a plain body, `json` for a JSON body, whose
   * serialisation is not modelled), and its parse.
   */
  function Delivered(resp: Response, json: string): Storefront.Transport
  {
    var text := if resp.body.PlainText? then resp.body.text else json;
    Storefront.Received(Storefront.HttpReply(200 <= resp.statusCode < 300, text, Some(DataOf(resp.body))))
  }

  /** The request the page sends for a cart. */
  function RequestFor(cart: seq<Storefront.Line>, origin: Option<string>): VercelCheckout.Request
  {
    VercelCheckout.Request("POST", ArrayOf(Storefront.Serialize(cart)), origin)
  }

  /**
   * For a valid, non-empty cart whose ids all have prices, the endpoint
   * charges exactly the cart: one line item per cart line, in order, with
   * that line's price and its own quantity; the answer is then 200 or the
   * generic 500 of a failed session creation, never 400 or 405.
   */
  lemma ValidCartIsCharged(cart: seq<Storefront.Line>, prices: map<string, string>,
                           createSession: SessionParams -> Attempt<string>, origin: Option<string>)
    requires Storefront.CartValid(cart) && cart != []
    requires forall k :: 0 <= k < |cart| ==> IsMapped(prices, cart[k].id)
    ensures var m := MapLineItems(prices, Storefront.Serialize(cart));
      m.Mapped? && |m.lineItems| == |cart| &&
      forall k :: 0 <= k < |cart| ==> m.lineItems[k] == LineItem(prices[cart[k].id], cart[k].qty)
    ensures VercelCheckout.Handle(prices, createSession, RequestFor(cart, origin)).statusCode in {200, 500}
  {
    var items := Storefront.Serialize(cart);
    Storefront.SerializeValidCart(cart);
    assert forall k :: 0 <= k < |items| ==> items[k].id == cart[k].id && items[k].qty == cart[k].qty;
  }

  /**
   * When session creation succeeds with a non-empty URL, checking out a
   * valid, fully priced cart redirects the page to exactly that URL.
   */
  lemma CheckoutRedirects(cart: seq<Storefront.Line>, prices: map<string, string>,
                          createSession: SessionParams -> Attempt<string>, origin: Option<string>, json: string, url: string)
    requires Storefront.CartValid(cart) && cart != []
    requires forall k :: 0 <= k < |cart| ==> IsMapped(prices, cart[k].id)
    requires var m := MapLineItems(prices, Storefront.Serialize(cart));
      createSession(SessionRequest(VercelCheckout.Origin(RequestFor(cart, origin)), m.lineItems)) == Done(url) && url != ""
    ensures Storefront.Classify(Delivered(VercelCheckout.Handle(prices, createSession, RequestFor(cart, origin)), json))
      == Storefront.Redirect(url)
  {
    var items := Storefront.Serialize(cart);
    assert forall k :: 0 <= k < |items| ==> IsMapped(prices, items[k].id);
    VercelCheckout.SessionOutcome(prices, createSession, RequestFor(cart, origin), items);
  }

  /**
   * Every failure of the Vercel endpoint reaches the page as an error whose
   * hint is the endpoint's own `error` text, since it sends no hint.
   */
  lemma VercelErrorsReachPage(prices: map<string, string>, createSession: SessionParams -> Attempt<string>,
                              req: VercelCheckout.Request, json: string)
    requires VercelCheckout.Handle(prices, createSession, req).statusCode != 200
    ensures var r := VercelCheckout.Handle(prices, createSession, req);
      Storefront.Classify(Delivered(r, json)) == Storefront.CheckoutError(r.body.error)
  {
  }

  /**
   * Every failure of the Netlify endpoint reaches the page as an error:
   * 405 shows its plain-text body, 400 shows "No items", 500 shows the
   * endpoint's hint.
   */
  lemma NetlifyErrorsReachPage(env: NetlifyCheckout.Env, ev: NetlifyCheckout.Event, json: string)
    requires NetlifyCheckout.Handle(env, ev).statusCode != 200
    ensures var r := NetlifyCheckout.Handle(env, ev);
      var o := Storefront.Classify(Delivered(r, json));
      o.CheckoutError? &&
      (r.statusCode == 405 ==> o.hint == NetlifyCheckout.METHOD_NOT_ALLOWED) &&
      (r.statusCode == 400 ==> o.hint == NetlifyCheckout.NO_ITEMS) &&
      (r.statusCode == 500 ==> o.hint == r.body.hint.value)
  {
  }
}
