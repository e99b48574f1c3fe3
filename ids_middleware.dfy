/** The id-stamping middleware of the development server: before a
    request reaches the JSON store, a cart line's `itemId`, or a product's
    `sku`, is copied into the body's `id` field. The body is a map from
    field name to (string) value. */
module IdsMiddleware {
  import opened CartItems

  const CART_ITEMS_SEGMENT := "/carts/items"
  const PRODUCTS_SEGMENT := "/products"

  /** A present, non-empty field: JavaScript truthiness of a string value. */
  predicate Truthy(body: map<string, string>, field: string) {
    field in body && body[field] != ""
  }

  predicate IsWrite(verb: string) {
    verb == "POST" || verb == "PUT"
  }

  /** The cart rule: a POST or PUT to a cart-items path with a truthy
      `itemId` gets `id := itemId`. */
  function StampCartLine(verb: string, path: string, body: map<string, string>): (r: map<string, string>)
    ensures r.Keys == body.Keys || r.Keys == body.Keys + {"id"}
    ensures forall f :: f in body && f != "id" ==> f in r && r[f] == body[f]
    ensures Contains(path, CART_ITEMS_SEGMENT) && IsWrite(verb) && Truthy(body, "itemId") ==> "id" in r && r["id"] == body["itemId"]
    ensures "id" in r && ("id" !in body || r["id"] != body["id"]) ==>
      Contains(path, CART_ITEMS_SEGMENT) && IsWrite(verb) && Truthy(body, "itemId") && r["id"] == body["itemId"]
  {
    if Contains(path, CART_ITEMS_SEGMENT) && IsWrite(verb) && Truthy(body, "itemId") then body["id" := body["itemId"]] else body
  }

  /** The product rule: a POST or PUT to a products path with a truthy
      `sku` gets `id := sku`. */
  function StampProduct(verb: string, path: string, body: map<string, string>): (r: map<string, string>)
    ensures r.Keys == body.Keys || r.Keys == body.Keys + {"id"}
    ensures forall f :: f in body && f != "id" ==> f in r && r[f] == body[f]
    ensures Contains(path, PRODUCTS_SEGMENT) && IsWrite(verb) && Truthy(body, "sku") ==> "id" in r && r["id"] == body["sku"]
    ensures "id" in r && ("id" !in body || r["id"] != body["id"]) ==>
      Contains(path, PRODUCTS_SEGMENT) && IsWrite(verb) && Truthy(body, "sku") && r["id"] == body["sku"]
  {
    if Contains(path, PRODUCTS_SEGMENT) && IsWrite(verb) && Truthy(body, "sku") then body["id" := body["sku"]] else body
  }

  /** The body after the middleware: the cart rule, then the product rule. */
  function Stamped(verb: string, path: string, body: map<string, string>): (r: map<string, string>)
    ensures r.Keys == body.Keys || r.Keys == body.Keys + {"id"}
    ensures forall f :: f in body && f != "id" ==> f in r && r[f] == body[f]
  {
    StampProduct(verb, path, StampCartLine(verb, path, body))
  }

  /** Only the `id` field can change, and only to the value of `itemId` or
      `sku`. */
  lemma OnlyIdChanges(verb: string, path: string, body: map<string, string>)
    ensures var r := Stamped(verb, path, body);
      "id" in r && (("id" !in body) || r["id"] != body["id"]) ==>
        ("itemId" in body && r["id"] == body["itemId"]) || ("sku" in body && r["id"] == body["sku"])
  {
  }

  /** GET and DELETE requests, and bodies without a truthy `itemId` or
      `sku`, pass unchanged. */
  lemma ReadsAndBareBodiesUnchanged(verb: string, path: string, body: map<string, string>)
    requires !IsWrite(verb) || (!Truthy(body, "itemId") && !Truthy(body, "sku"))
    ensures Stamped(verb, path, body) == body
  {
  }

  /** Stamping a stamped body changes nothing. */
  lemma StampedIdempotent(verb: string, path: string, body: map<string, string>)
    ensures Stamped(verb, path, Stamped(verb, path, body)) == Stamped(verb, path, body)
  {
    var once := Stamped(verb, path, body);
    var c := StampCartLine(verb, path, body);
    assert Truthy(c, "itemId") <==> Truthy(body, "itemId");
    assert Truthy(once, "sku") <==> Truthy(body, "sku");
    assert Truthy(once, "itemId") <==> Truthy(body, "itemId");
    if Contains(path, CART_ITEMS_SEGMENT) && IsWrite(verb) && Truthy(body, "itemId") {
      assert once["itemId"] == body["itemId"];
      if Contains(path, PRODUCTS_SEGMENT) && Truthy(body, "sku") {
        assert once["sku"] == body["sku"];
        assert StampCartLine(verb, path, once) == once["id" := body["itemId"]];
      } else {
        assert StampCartLine(verb, path, once) == once;
      }
    }
  }

  /** An incoming request: the body is the one part the middleware writes. */
  class Request {
    const verb: string
    const path: string
    var body: map<string, string>

    constructor (verb: string, path: string, body: map<string, string>)
      ensures this.verb == verb && this.path == path && this.body == body
    {
      this.verb := verb;
      this.path := path;
      this.body := body;
    }
  }

  /** The middleware: stamps the body in place and hands the request on;
      `nextCalls` counts the calls of `next()`. */
  method StampIds(req: Request) returns (nextCalls: nat)
    modifies req
    ensures req.body == Stamped(req.verb, req.path, old(req.body))
    ensures nextCalls == 1
  {
    if Contains(req.path, CART_ITEMS_SEGMENT) {
      if req.verb == "POST" {
        if Truthy(req.body, "itemId") {
          req.body := req.body["id" := req.body["itemId"]];
        }
      } else if req.verb == "PUT" {
        if Truthy(req.body, "itemId") {
          req.body := req.body["id" := req.body["itemId"]];
        }
      }
    }
    if Contains(req.path, PRODUCTS_SEGMENT) {
      if req.verb == "POST" || req.verb == "PUT" {
        if Truthy(req.body, "sku") {
          req.body := req.body["id" := req.body["sku"]];
        }
      }
    }
    nextCalls := 1;
  }
}
