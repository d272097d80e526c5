/**
 * What the two checkout endpoints (netlify/functions/create-checkout-session.js
 * and api/create-checkout-session.js) have in common: looking items up in the
 * price table, clamping quantities, the redirect URLs, and the shape of the
 * session request and of the HTTP reply.
 */
module StripeSession {
  import opened Wire

  /** One `line_items` entry of the session request: `{ price, quantity }`. */
  datatype LineItem = LineItem(price: string, quantity: int)

  /**
   * The parts of the session request that depend on the input. The fixed
   * options are the constants below.
   */
  datatype SessionParams = SessionParams(lineItems: seq<LineItem>, successUrl: string, cancelUrl: string)

  const MODE: string := "payment"
  const ALLOW_PROMOTION_CODES: bool := true
  const ALLOWED_COUNTRIES: seq<string> := ["US", "CA"]
  const BILLING_ADDRESS_COLLECTION: string := "required"

  const SUCCESS_MARKER: string := "/?success=true"
  const CANCEL_MARKER: string := "/?canceled=true"

  /** A foreign call that either returns a value or throws an error with a message. */
  datatype Attempt<T> = Done(value: T) | Threw(message: string)

  /** The `items` field of a request body: an array, or anything else (absent included). */
  datatype ItemsValue = NotAnArray | ArrayOf(elems: seq<Item>)

  /** A response body: plain text, `{ url }`, or `{ error, hint? }`. */
  datatype ResponseBody = PlainText(text: string) | UrlJson(url: string) | ErrorJson(error: string, hint: Option<string>)

  datatype Response = Response(statusCode: int, body: ResponseBody)

  /** `prices[id]` when it is truthy: present and not the empty string. */
  predicate IsMapped(prices: map<string, string>, id: string)
  {
    id in prices && prices[id] != ""
  }

  /** `Math.max(1, parseInt(it.qty || 1, 10))` on an integer `qty`. */
  function Quantity(qty: int): (q: int)
    ensures q >= 1
    ensures qty >= 1 ==> q == qty
    ensures qty < 1 ==> q == 1
  {
    var given := if qty == 0 then 1 else qty;
    if given >= 1 then given else 1
  }

  /** The outcome of `items.map(...)`: the line items, or the first id without a price, at which it threw. */
  datatype Mapping = Mapped(lineItems: seq<LineItem>) | Unmapped(id: string)

  /**
   * `items.map(it => ...)`: succeeds exactly when every id has a price, and
   * then keeps length and order, with each price from the table and each
   * quantity at least 1; otherwise it names the first unmapped id.
   */
  function MapLineItems(prices: map<string, string>, items: seq<Item>): (m: Mapping)
    ensures m.Mapped? <==> forall k :: 0 <= k < |items| ==> IsMapped(prices, items[k].id)
    ensures m.Mapped? ==> |m.lineItems| == |items|
    ensures m.Mapped? ==> forall k :: 0 <= k < |items| ==>
      m.lineItems[k] == LineItem(prices[items[k].id], Quantity(items[k].qty))
    ensures m.Unmapped? ==> !IsMapped(prices, m.id)
    ensures m.Unmapped? ==>
      exists k :: 0 <= k < |items| && items[k].id == m.id && forall j :: 0 <= j < k ==> IsMapped(prices, items[j].id)
  {
    if items == [] then Mapped([])
    else if !IsMapped(prices, items[0].id) then Unmapped(items[0].id)
    else
      match MapLineItems(prices, items[1..])
      case Unmapped(id) =>
        assert forall k :: 0 <= k < |items| - 1 ==> items[1..][k] == items[k + 1];
        Unmapped(id)
      case Mapped(rest) => Mapped([LineItem(prices[items[0].id], Quantity(items[0].qty))] + rest)
  }

  /** The session request for given line items and origin. */
  function SessionRequest(origin: string, lineItems: seq<LineItem>): (p: SessionParams)
    ensures p.lineItems == lineItems
    ensures p.successUrl != p.cancelUrl
  {
    SessionParams(lineItems, origin + SUCCESS_MARKER, origin + CANCEL_MARKER)
  }

  /**
   * Both redirect URLs start with the origin and end in their own marker,
   * so the success and the cancel target are never the same URL.
   */
  lemma SessionRequestSpec(origin: string, lineItems: seq<LineItem>)
    ensures var p := SessionRequest(origin, lineItems);
      p.lineItems == lineItems &&
      p.successUrl[..|origin|] == origin && p.successUrl[|origin|..] == SUCCESS_MARKER &&
      p.cancelUrl[..|origin|] == origin && p.cancelUrl[|origin|..] == CANCEL_MARKER &&
      p.successUrl != p.cancelUrl
  {
    var p := SessionRequest(origin, lineItems);
    assert |p.successUrl| != |p.cancelUrl|;
  }
}
