/**
 * The Netlify checkout function (netlify/functions/create-checkout-session.js):
 * a chain of guards from an incoming event to a response, with the price
 * table, the secret, URL parsing and session creation supplied by `Env`.
 */
module NetlifyCheckout {
  import opened Wire
  import opened StripeSession

  /** The `origin` and `referer` request headers. */
  datatype Headers = Headers(origin: Option<string>, referer: Option<string>)

  /**
   * What `const { items } = JSON.parse(event.body || '{}')` gives: the
   * `items` field, or the message of the error it threw (a body that is
   * not JSON, or JSON `null`).
   */
  datatype Body = Unreadable(message: string) | Parsed(items: ItemsValue)

  datatype Event = Event(httpMethod: string, body: Body, headers: Headers)

  /**
   * The function's surroundings: the secret key ("" when unset), the price
   * table, `new URL(s).origin` (which throws on a malformed URL) and
   * `stripe.checkout.sessions.create`, which yields the session URL or throws.
   */
  datatype Env = Env(
    secret: string,
    prices: map<string, string>,
    urlOrigin: string -> Attempt<string>,
    createSession: SessionParams -> Attempt<string>)

  const METHOD_NOT_ALLOWED: string := "Method not allowed"
  const SERVER_ERROR: string := "server_error"
  const SECRET_NOT_SET: string := "STRIPE_SECRET_KEY not set"
  const NO_ITEMS: string := "No items"
  const MISSING_PRICE: string := "Missing price mapping for product "

  /** The catch block: 500 with `hint: err?.message || 'unknown'`. */
  function ServerError(message: string): (r: Response)
    ensures r.statusCode == 500 && r.body.ErrorJson? && r.body.error == SERVER_ERROR
    ensures r.body.hint.Some? && r.body.hint.value != ""
    ensures message != "" ==> r.body.hint == Some(message)
    ensures message == "" ==> r.body.hint == Some("unknown")
  {
    Response(500, ErrorJson(SERVER_ERROR, Some(if message != "" then message else "unknown")))
  }

  /** `headers.origin || (headers.referer ? new URL(headers.referer).origin : '')` */
  function Origin(headers: Headers, urlOrigin: string -> Attempt<string>): (r: Attempt<string>)
    ensures r.Threw? ==> !Truthy(headers.origin) && Truthy(headers.referer) && r == urlOrigin(headers.referer.value)
    ensures Truthy(headers.origin) ==> r == Done(headers.origin.value)
  {
    if Truthy(headers.origin) then Done(headers.origin.value)
    else if Truthy(headers.referer) then urlOrigin(headers.referer.value)
    else Done("")
  }

  /**
   * `exports.handler`. Its status code tells the cases apart: 405 exactly
   * for a method other than POST, 400 exactly for a POST whose `items` is
   * not a non-empty array (once the secret is set), 500 always with
   * `error: 'server_error'` and a non-empty hint, 200 always with a url.
   */
  function Handle(env: Env, ev: Event): (r: Response)
    ensures r.statusCode in {200, 400, 405, 500}
    ensures r.statusCode == 405 <==> ev.httpMethod != "POST"
    ensures r.statusCode == 405 ==> r.body == PlainText(METHOD_NOT_ALLOWED)
    ensures r.statusCode == 400 <==>
      ev.httpMethod == "POST" && env.secret != "" && ev.body.Parsed? &&
      (ev.body.items.NotAnArray? || ev.body.items.elems == [])
    ensures r.statusCode == 400 ==> r.body == ErrorJson(NO_ITEMS, None)
    ensures r.statusCode == 500 ==>
      r.body.ErrorJson? && r.body.error == SERVER_ERROR && r.body.hint.Some? && r.body.hint.value != ""
    ensures r.statusCode == 200 ==> r.body.UrlJson?
  {
    if ev.httpMethod != "POST" then Response(405, PlainText(METHOD_NOT_ALLOWED))
    else if env.secret == "" then Response(500, ErrorJson(SERVER_ERROR, Some(SECRET_NOT_SET)))
    else match ev.body
      case Unreadable(message) => ServerError(message)
      case Parsed(NotAnArray) => Response(400, ErrorJson(NO_ITEMS, None))
      case Parsed(ArrayOf(items)) =>
        if items == [] then Response(400, ErrorJson(NO_ITEMS, None))
        else match MapLineItems(env.prices, items)
          case Unmapped(id) => ServerError(MISSING_PRICE + id)
          case Mapped(lineItems) =>
            match Origin(ev.headers, env.urlOrigin)
            case Threw(message) => ServerError(message)
            case Done(origin) =>
              match env.createSession(SessionRequest(origin, lineItems))
              case Threw(message) => ServerError(message)
              case Done(url) => Response(200, UrlJson(url))
  }

  /** A set method but no secret: 500 with the fixed hint, before the body is read. */
  lemma MissingSecret(env: Env, ev: Event, other: Body)
    requires ev.httpMethod == "POST" && env.secret == ""
    ensures Handle(env, ev) == Response(500, ErrorJson(SERVER_ERROR, Some(SECRET_NOT_SET)))
    ensures Handle(env, ev) == Handle(env, ev.(body := other))
  {
  }

  /**
   * The origin is the origin header when it is non-empty, else the origin
   * of a non-empty referer, else the empty string.
   */
  lemma OriginChoice(headers: Headers, urlOrigin: string -> Attempt<string>)
    ensures Truthy(headers.origin) ==> Origin(headers, urlOrigin) == Done(headers.origin.value)
    ensures !Truthy(headers.origin) && Truthy(headers.referer) ==>
      Origin(headers, urlOrigin) == urlOrigin(headers.referer.value)
    ensures !Truthy(headers.origin) && !Truthy(headers.referer) ==> Origin(headers, urlOrigin) == Done("")
  {
  }

  /**
   * An id without a price: 500 with a hint that names the first such id,
   * and the answer is the same whatever session creation and URL parsing
   * would do, so no session is created.
   */
  lemma UnmappedItem(env: Env, ev: Event, createSession: SessionParams -> Attempt<string>,
                     urlOrigin: string -> Attempt<string>, k: int)
    requires ev.httpMethod == "POST" && env.secret != ""
    requires ev.body.Parsed? && ev.body.items.ArrayOf?
    requires 0 <= k < |ev.body.items.elems| && !IsMapped(env.prices, ev.body.items.elems[k].id)
    ensures var items := ev.body.items.elems;
      exists i :: 0 <= i < |items| && !IsMapped(env.prices, items[i].id) &&
        (forall j :: 0 <= j < i ==> IsMapped(env.prices, items[j].id)) &&
        Handle(env, ev) == ServerError(MISSING_PRICE + items[i].id)
    ensures Handle(env, ev) == Handle(env.(createSession := createSession, urlOrigin := urlOrigin), ev)
  {
    var items := ev.body.items.elems;
    var m := MapLineItems(env.prices, items);
    assert m.Unmapped?;
  }

  /**
   * A POST with the secret set whose items are a non-empty array of priced
   * ids and whose origin resolves reaches session creation with those line
   * items and the origin's redirect URLs: a created session answers 200
   * with its URL, a thrown error the 500 with that error's message.
   */
  lemma SessionOutcome(env: Env, ev: Event, items: seq<Item>, origin: string)
    requires ev.httpMethod == "POST" && env.secret != ""
    requires ev.body == Parsed(ArrayOf(items)) && items != []
    requires forall k :: 0 <= k < |items| ==> IsMapped(env.prices, items[k].id)
    requires Origin(ev.headers, env.urlOrigin) == Done(origin)
    ensures var session := env.createSession(SessionRequest(origin, MapLineItems(env.prices, items).lineItems));
      (session.Done? ==> Handle(env, ev) == Response(200, UrlJson(session.value))) &&
      (session.Threw? ==> Handle(env, ev) == ServerError(session.message))
  {
  }

  /** A body that `JSON.parse` rejects: the catch block's 500, with the parse error's message as hint. */
  lemma UnreadableHint(env: Env, ev: Event)
    requires ev.httpMethod == "POST" && env.secret != "" && ev.body.Unreadable?
    ensures Handle(env, ev) == ServerError(ev.body.message)
  {
  }

  /**
   * A referer that `new URL` rejects, for a request that got past the items:
   * the catch block's 500 with that error's message as hint, whatever
   * session creation would do, so no session is requested.
   */
  lemma OriginThrowsHint(env: Env, ev: Event, items: seq<Item>, message: string,
                         createSession: SessionParams -> Attempt<string>)
    requires ev.httpMethod == "POST" && env.secret != ""
    requires ev.body == Parsed(ArrayOf(items)) && items != []
    requires forall k :: 0 <= k < |items| ==> IsMapped(env.prices, items[k].id)
    requires Origin(ev.headers, env.urlOrigin) == Threw(message)
    ensures Handle(env, ev) == ServerError(message)
    ensures Handle(env, ev) == Handle(env.(createSession := createSession), ev)
  {
  }

  /**
   * A 200 answer means every item was mapped and the session was created
   * from line items of the same length and order as `items`, prices from
   * the table, quantities at least 1, and redirect URLs built from the
   * request's origin with the success and cancel markers; the body carries
   * the URL of that session.
   */
  lemma Success(env: Env, ev: Event)
    requires Handle(env, ev).statusCode == 200
    ensures ev.httpMethod == "POST" && env.secret != ""
    ensures ev.body.Parsed? && ev.body.items.ArrayOf? && ev.body.items.elems != []
    ensures var items := ev.body.items.elems;
      var m := MapLineItems(env.prices, items);
      var o := Origin(ev.headers, env.urlOrigin);
      m.Mapped? && o.Done? &&
      |m.lineItems| == |items| &&
      (forall k :: 0 <= k < |items| ==>
        m.lineItems[k].price == env.prices[items[k].id] && m.lineItems[k].quantity >= 1) &&
      env.createSession(SessionParams(m.lineItems, o.value + SUCCESS_MARKER, o.value + CANCEL_MARKER))
        == Done(Handle(env, ev).body.url)
  {
  }
}
