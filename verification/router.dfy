/** The fetch interceptor that routes `/api/...` requests to the in-memory
    server. URL parsing is left out: the request's pathname is given
    directly, and a request body that does not parse as JSON is `None`. */
module Router {
  import opened Options
  import opened Text
  import M = MockApi

  /** Whether a request is answered by the in-memory server rather than
      passed on to the real `fetch`. */
  predicate Intercepts(url: string, isElectron: bool)
  {
    "/api/" <= url || (isElectron && Contains(url, "/api/"))
  }

  /** `init?.method || 'GET'`. */
  function MethodOf(verb: Option<string>): (r: string)
    ensures verb.Some? && verb.value != "" ==> r == verb.value
    ensures verb.None? || verb.value == "" ==> r == "GET"
  {
    if verb.Some? && verb.value != "" then verb.value else "GET"
  }

  /** The JSON body a route answers with. */
  datatype Payload =
    | Health(healthy: bool)
    | Products(products: seq<M.MockProduct>)
    | NextNumber(nextInvoiceNumber: string)
    | Created(receipt: M.Receipt)
    | Status(state: M.PrintState)
    | Error(error: string)

  datatype Response = Response(status: int, statusText: string, body: Payload)

  /** `createResponse`: the status text is "OK" exactly for 200. */
  function Respond(body: Payload, status: int): (r: Response)
    ensures r.status == status && r.body == body
    ensures r.statusText == "OK" <==> status == 200
    ensures status != 200 ==> r.statusText == "Error"
  {
    Response(status, if status == 200 then "OK" else "Error", body)
  }

  function Fail(message: string, status: int): Response
  {
    Respond(Error(message), status)
  }

  const StatusPrefix: string := "/api/invoices/status/"

  /** `handleMockApiCall`, checked in the order of its `switch (true)`. Only creating an
      invoice changes the server; `newId` is the id the app takes from
      the clock. */
  function Handle(s: M.Server, pathname: string, verb: Option<string>, body: Option<M.MockInvoice>, newId: string): (r: (M.Server, Response))
    ensures r.0 != s ==> pathname == "/api/invoices" && MethodOf(verb) == "POST" && body.Some?
    ensures r.1.status == 200 || r.1.status == 404 || r.1.status == 500
    ensures r.1.status == 500 <==> pathname == "/api/invoices" && MethodOf(verb) == "POST" && body.None?
  {
    if pathname == "/api/health" then (s, Respond(Health(true), 200))
    else if pathname == "/api/products" then (s, Respond(Products(M.Catalogue), 200))
    else if pathname == "/api/invoices/next-number" then (s, Respond(NextNumber(M.NextInvoiceNumber(s)), 200))
    else if pathname == "/api/invoices" && MethodOf(verb) == "POST" then
      match body
      case None => (s, Fail("Internal server error", 500))
      case Some(payload) =>
        var (s', receipt) := M.CreateInvoice(s, payload, newId);
        (s', Respond(Created(receipt), 200))
    else if StatusPrefix <= pathname then
      var id := LastSegment(pathname);
      if id != "" then (s, Respond(Status(M.GetInvoiceStatus(s, id)), 200))
      else (s, Fail("Invoice not found", 404))
    else (s, Fail("API endpoint not found", 404))
  }

  /** The read-only routes answer 200 with the server's data. */
  lemma {:induction false} ReadRoutes(s: M.Server, verb: Option<string>, body: Option<M.MockInvoice>, newId: string)
    ensures Handle(s, "/api/health", verb, body, newId) == (s, Response(200, "OK", Health(true)))
    ensures Handle(s, "/api/products", verb, body, newId) == (s, Response(200, "OK", Products(M.Catalogue)))
    ensures Handle(s, "/api/invoices/next-number", verb, body, newId)
            == (s, Response(200, "OK", NextNumber(M.NextInvoiceNumber(s))))
  {
  }

  /** A POST to the invoice list with a parsed body creates exactly the
      invoice `createInvoice` would and returns its receipt; an unparsable
      body is a 500 and leaves the server alone. */
  lemma {:induction false} CreateRoute(s: M.Server, verb: Option<string>, body: Option<M.MockInvoice>, newId: string)
    requires MethodOf(verb) == "POST"
    ensures body.Some? ==>
              Handle(s, "/api/invoices", verb, body, newId)
              == (M.CreateInvoice(s, body.value, newId).0, Response(200, "OK", Created(M.CreateInvoice(s, body.value, newId).1)))
    ensures body.None? ==>
              Handle(s, "/api/invoices", verb, body, newId) == (s, Response(500, "Error", Error("Internal server error")))
  {
    var p := "/api/invoices";
    assert p != "/api/health" && p != "/api/products" && p != "/api/invoices/next-number" by {
      assert |p| != |"/api/health"| && p[5] != "/api/products"[5] && |p| != |"/api/invoices/next-number"|;
    }
    if body.Some? {
      var c := M.CreateInvoice(s, body.value, newId);
      assert Handle(s, p, verb, body, newId) == (c.0, Respond(Created(c.1), 200));
    }
  }

  /** Any other method on the invoice list (a GET included, which is what a
      missing method means) is not a known endpoint. */
  lemma {:induction false} ListWithoutPost(s: M.Server, verb: Option<string>, body: Option<M.MockInvoice>, newId: string)
    requires MethodOf(verb) != "POST"
    ensures Handle(s, "/api/invoices", verb, body, newId) == (s, Response(404, "Error", Error("API endpoint not found")))
  {
    assert !(StatusPrefix <= "/api/invoices");
  }

  /** The status route looks up the path's last segment; a trailing slash
      leaves it empty, which is "Invoice not found". */
  lemma {:induction false} StatusRoute(s: M.Server, id: string, verb: Option<string>, body: Option<M.MockInvoice>, newId: string)
    requires forall k :: 0 <= k < |id| ==> id[k] != '/'
    ensures id != "" ==>
              Handle(s, StatusPrefix + id, verb, body, newId) == (s, Response(200, "OK", Status(M.GetInvoiceStatus(s, id))))
    ensures id == "" ==>
              Handle(s, StatusPrefix + id, verb, body, newId) == (s, Response(404, "Error", Error("Invoice not found")))
  {
    var p := StatusPrefix + id;
    assert StatusPrefix <= p;
    LastSegmentOfSuffix(StatusPrefix, id);
  }

  /** The last segment of a path that ends in `/` and then a slash-free
      word is that word. */
  lemma {:induction false} LastSegmentOfSuffix(prefix: string, id: string)
    requires |prefix| > 0 && prefix[|prefix| - 1] == '/'
    requires forall k :: 0 <= k < |id| ==> id[k] != '/'
    ensures LastSegment(prefix + id) == id
    decreases |id|
  {
    if |id| == 0 {
      assert prefix + id == prefix;
    } else {
      var s := prefix + id;
      assert s[..|s| - 1] == prefix + id[..|id| - 1];
      LastSegmentOfSuffix(prefix, id[..|id| - 1]);
      assert id == id[..|id| - 1] + [id[|id| - 1]];
    }
  }

  /** Every path outside the known routes is a 404 that touches nothing. */
  lemma {:induction false} UnknownRoute(s: M.Server, pathname: string, verb: Option<string>, body: Option<M.MockInvoice>, newId: string)
    requires pathname != "/api/health" && pathname != "/api/products" && pathname != "/api/invoices/next-number"
    requires pathname != "/api/invoices" && !(StatusPrefix <= pathname)
    ensures Handle(s, pathname, verb, body, newId) == (s, Response(404, "Error", Error("API endpoint not found")))
  {
  }

  /** Every path starting with `/api/` is intercepted, in a browser as in
      the desktop shell; a full URL is only intercepted in the shell. */
  lemma {:induction false} InterceptsApiPaths(url: string)
    ensures "/api/" <= url ==> Intercepts(url, false) && Intercepts(url, true)
    ensures !("/api/" <= url) ==> (Intercepts(url, true) <==> Contains(url, "/api/")) && !Intercepts(url, false)
  {
  }
}
