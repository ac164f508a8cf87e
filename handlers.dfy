/** The store-backed product handlers that `NewProductHandler` builds, as the tests
    in internal/handlers/products_test.go and internal/tests/integration_api_test.go
    drive them. Each request loads the whole collection, decides a response (and
    for a change, the new collection), and saves the new collection.

    The decision is a function of the request and the load result, so that every
    outcome, load and save failures included, is stated; the `ProductHandler`
    class runs it against a `ProductStore`. */
module ProductHandlers {
  import opened Models
  import opened Http
  import Collection
  import Decimal
  import HandlerErrors
  import Store

  /** What a handler decides: reply without touching the store, or save a new
      collection and then reply. */
  datatype Plan = Reply(response: Response) | Persist(products: seq<Product>, response: Response)

  /** The reply once the save a plan asks for has returned `saveErr`: the plan's
      own reply, unless the save failed, which is a 500 "Failed to save". */
  function Finish(plan: Plan, saveErr: Option<Error>): (r: Response)
    ensures plan.Reply? || saveErr.None? ==> r == plan.response
    ensures plan.Persist? && saveErr.Some? ==>
      r.status == StatusInternalServerError && HandlerErrors.ErrorOf(r) == Some(HandlerErrors.ErrFailedToSave)
  {
    match plan
    case Reply(r) => r
    case Persist(_, r) => if saveErr.None? then r else HandlerErrors.HandleError(HandlerErrors.ErrFailedToSave)
  }

  // ----- GET /products/:id -----

  function GetProductResponse(idParam: string, loaded: Result<seq<Product>>): (r: Response)
    ensures Decimal.Atoi(idParam).None? ==> r == HandlerErrors.HandleError(HandlerErrors.ErrInvalidProductID)
    ensures Decimal.Atoi(idParam).Some? && loaded.Err? ==> r == HandlerErrors.HandleError(HandlerErrors.ErrFailedToLoad)
    ensures Decimal.Atoi(idParam).Some? && loaded.Ok? ==>
      var ps, id := loaded.value, Decimal.Atoi(idParam).value;
      && (r.status == StatusOK <==> exists i :: 0 <= i < |ps| && ps[i].id == id)
      && (r.status == StatusOK ==> exists i :: Collection.FirstMatch(ps, id, i) && r.body == One(ps[i]))
      && (r.status != StatusOK ==> r == HandlerErrors.HandleError(HandlerErrors.ErrProductNotFound))
  {
    match Decimal.Atoi(idParam)
    case None => HandlerErrors.HandleError(HandlerErrors.ErrInvalidProductID)
    case Some(id) =>
      match loaded
      case Err(_) => HandlerErrors.HandleError(HandlerErrors.ErrFailedToLoad)
      case Ok(ps) =>
        match Collection.FindFirst(ps, id)
        case Some(i) => Response(StatusOK, One(ps[i]))
        case None => HandlerErrors.HandleError(HandlerErrors.ErrProductNotFound)
  }

  // ----- GET /products?limit=&offset= -----

  /** A `limit` or `offset` query parameter, or its default text when absent, read
      as a non-negative Go int. */
  function QueryNat(param: Option<string>, default: string): Option<nat>
  {
    var text := match param case Some(s) => s case None => default;
    match Decimal.Atoi(text)
    case Some(n) => if n >= 0 then Some(n) else None
    case None => None
  }

  /** `ps[start:end]` with `start = offset` and `end = offset + limit`, each clamped
      to the length: up to `limit` products from position `offset` on. */
  function Window(ps: seq<Product>, offset: nat, limit: nat): (w: seq<Product>)
    ensures |w| == if offset >= |ps| then 0 else if limit < |ps| - offset then limit else |ps| - offset
    ensures forall k :: 0 <= k < |w| ==> w[k] == ps[offset + k]
  {
    var start := if offset < |ps| then offset else |ps|;
    var end := if offset + limit < |ps| then offset + limit else |ps|;
    ps[start..end]
  }

  function GetAllProductsResponse(limit: Option<string>, offset: Option<string>,
                                  loaded: Result<seq<Product>>): (r: Response)
    ensures QueryNat(limit, "10").None? ==> r == HandlerErrors.HandleError(HandlerErrors.ErrInvalidLimitParameter)
    ensures QueryNat(limit, "10").Some? && QueryNat(offset, "0").None? ==>
      r == HandlerErrors.HandleError(HandlerErrors.ErrInvalidOffsetParameter)
    ensures QueryNat(limit, "10").Some? && QueryNat(offset, "0").Some? && loaded.Err? ==>
      r == HandlerErrors.HandleError(HandlerErrors.ErrFailedToLoad)
    ensures QueryNat(limit, "10").Some? && QueryNat(offset, "0").Some? && loaded.Ok? ==>
      r == Response(StatusOK, Many(Window(loaded.value, QueryNat(offset, "0").value, QueryNat(limit, "10").value)))
  {
    match QueryNat(limit, "10")
    case None => HandlerErrors.HandleError(HandlerErrors.ErrInvalidLimitParameter)
    case Some(l) =>
      match QueryNat(offset, "0")
      case None => HandlerErrors.HandleError(HandlerErrors.ErrInvalidOffsetParameter)
      case Some(o) =>
        match loaded
        case Err(_) => HandlerErrors.HandleError(HandlerErrors.ErrFailedToLoad)
        case Ok(ps) => Response(StatusOK, Many(Window(ps, o, l)))
  }

  /** With no query parameters the list is the first ten products. */
  lemma ListDefaults(ps: seq<Product>)
    ensures GetAllProductsResponse(None, None, Ok(ps)) ==
      Response(StatusOK, Many(if |ps| <= 10 then ps else ps[..10]))
  {
    Decimal.AtoiItoa(10);
    assert Decimal.Itoa(10) == "10";
    Decimal.AtoiItoa(0);
    assert Decimal.Itoa(0) == "0";
    assert ps[0..|ps|] == ps;
  }

  /** An offset at or past the end gives an empty list, not an error. */
  lemma ListPastTheEnd(ps: seq<Product>, offset: Int64)
    requires offset >= |ps|
    ensures GetAllProductsResponse(None, Some(Decimal.Itoa(offset)), Ok(ps)) == Response(StatusOK, Many([]))
  {
    Decimal.AtoiItoa(10);
    assert Decimal.Itoa(10) == "10";
    Decimal.AtoiItoa(offset);
  }

  /** A negative limit is refused. */
  lemma ListNegativeLimit(limit: Int64, offset: Option<string>, loaded: Result<seq<Product>>)
    requires limit < 0
    ensures GetAllProductsResponse(Some(Decimal.Itoa(limit)), offset, loaded) ==
      HandlerErrors.HandleError(HandlerErrors.ErrInvalidLimitParameter)
  {
    Decimal.AtoiItoa(limit);
  }

  // ----- POST /products -----

  /** Create: the body (None when it does not bind) gets the next ID, whatever ID
      it carried, and is appended. */
  function CreateProductPlan(body: Option<Product>, loaded: Result<seq<Product>>, next: Int64): (plan: Plan)
    ensures body.None? ==> plan == Reply(HandlerErrors.HandleError(HandlerErrors.ErrBindJSON))
    ensures body.Some? && loaded.Err? ==> plan == Reply(HandlerErrors.HandleError(HandlerErrors.ErrFailedToLoad))
    ensures body.Some? && loaded.Ok? ==>
      var ps, created := loaded.value, body.value.(id := next);
      && plan.Persist?
      && |plan.products| == |ps| + 1
      && plan.products[..|ps|] == ps
      && plan.products[|ps|] == created
      && plan.response == Response(StatusCreated, One(created))
  {
    match body
    case None => Reply(HandlerErrors.HandleError(HandlerErrors.ErrBindJSON))
    case Some(p) =>
      match loaded
      case Err(_) => Reply(HandlerErrors.HandleError(HandlerErrors.ErrFailedToLoad))
      case Ok(ps) =>
        var created := p.(id := next);
        assert (ps + [created])[..|ps|] == ps;
        Persist(ps + [created], Response(StatusCreated, One(created)))
  }

  /** A created product's ID is new to the collection, so creation keeps IDs unique. */
  lemma CreateKeepsUniqueIds(body: Product, ps: seq<Product>)
    requires Collection.UniqueIds(ps) && Collection.NoMaxInt(ps)
    ensures
      var plan := CreateProductPlan(Some(body), Ok(ps), Collection.NextId(ps));
      && (forall j :: 0 <= j < |ps| ==> plan.products[j].id < plan.products[|ps|].id)
      && Collection.UniqueIds(plan.products)
  {
    Collection.NextIdExceedsAll(ps);
    var plan := CreateProductPlan(Some(body), Ok(ps), Collection.NextId(ps));
    forall j | 0 <= j < |ps|
      ensures plan.products[j] == ps[j]
    {
      assert plan.products[j] == plan.products[..|ps|][j];
    }
  }

  // ----- PUT /products/:id -----

  /** Update: the first product with the path ID is replaced by the body, whose ID
      is overwritten with the path ID. */
  function UpdateProductPlan(idParam: string, body: Option<Product>, loaded: Result<seq<Product>>): (plan: Plan)
    ensures Decimal.Atoi(idParam).None? ==> plan == Reply(HandlerErrors.HandleError(HandlerErrors.ErrInvalidProductID))
    ensures Decimal.Atoi(idParam).Some? && body.None? ==> plan == Reply(HandlerErrors.HandleError(HandlerErrors.ErrBindJSON))
    ensures Decimal.Atoi(idParam).Some? && body.Some? && loaded.Err? ==>
      plan == Reply(HandlerErrors.HandleError(HandlerErrors.ErrFailedToLoad))
    ensures Decimal.Atoi(idParam).Some? && body.Some? && loaded.Ok? ==>
      var ps, id := loaded.value, Decimal.Atoi(idParam).value;
      var updated := body.value.(id := id);
      && (plan.Persist? <==> exists i :: 0 <= i < |ps| && ps[i].id == id)
      && (plan.Persist? ==> exists i :: Collection.FirstMatch(ps, id, i) && plan.products == ps[i := updated])
      && (plan.Persist? ==> plan.response == Response(StatusOK, One(updated)))
      && (plan.Reply? ==> plan.response == HandlerErrors.HandleError(HandlerErrors.ErrProductNotFound))
  {
    match Decimal.Atoi(idParam)
    case None => Reply(HandlerErrors.HandleError(HandlerErrors.ErrInvalidProductID))
    case Some(id) =>
      match body
      case None => Reply(HandlerErrors.HandleError(HandlerErrors.ErrBindJSON))
      case Some(p) =>
        match loaded
        case Err(_) => Reply(HandlerErrors.HandleError(HandlerErrors.ErrFailedToLoad))
        case Ok(ps) =>
          match Collection.FindFirst(ps, id)
          case None => Reply(HandlerErrors.HandleError(HandlerErrors.ErrProductNotFound))
          case Some(i) =>
            var updated := p.(id := id);
            Persist(ps[i := updated], Response(StatusOK, One(updated)))
  }

  /** The replacement keeps the replaced product's ID, so IDs stay unique. */
  lemma UpdateKeepsUniqueIds(idParam: string, body: Product, ps: seq<Product>)
    requires Collection.UniqueIds(ps)
    ensures
      var plan := UpdateProductPlan(idParam, Some(body), Ok(ps));
      plan.Persist? ==> |plan.products| == |ps| && Collection.UniqueIds(plan.products)
  {
    var plan := UpdateProductPlan(idParam, Some(body), Ok(ps));
    if plan.Persist? {
      var i := Collection.FindFirst(ps, Decimal.Atoi(idParam).value).value;
      assert forall k :: 0 <= k < |ps| ==> plan.products[k].id == ps[k].id;
    }
  }

  // ----- PATCH /products/:id -----

  /** A JSON value as `map[string]interface{}` holds it, reduced to the shapes a
      patch can use. */
  datatype JsonValue = JString(s: string) | JNumber(n: real) | JStringMap(m: map<string, string>) | JOther

  /** A decoded patch body: field name to value. */
  type Patch = map<string, JsonValue>

  /** Whether `v` has the type of the Product field named `key`; keys that name no
      patchable field are ignored, so any value fits them. */
  predicate Fits(key: string, v: JsonValue)
  {
    if key in {"name", "image_url", "description", "category"} then v.JString?
    else if key in {"price", "rating"} then v.JNumber?
    else if key == "specifications" then v.JStringMap?
    else true
  }

  predicate WellTyped(patch: Patch)
  {
    forall k :: k in patch ==> Fits(k, patch[k])
  }

  function PatchString(patch: Patch, key: string, current: string): string
  {
    if key in patch && patch[key].JString? then patch[key].s else current
  }

  function PatchNumber(patch: Patch, key: string, current: real): real
  {
    if key in patch && patch[key].JNumber? then patch[key].n else current
  }

  /** Overwrites each field the patch names with the value given for it, or fails
      when a value has the wrong type. */
  function ApplyPatch(p: Product, patch: Patch): (r: Option<Product>)
    ensures r.Some? <==> WellTyped(patch)
    ensures r.Some? ==> r.value.id == p.id
    ensures r.Some? ==>
      && r.value.name == (if "name" in patch then patch["name"].s else p.name)
      && r.value.imageUrl == (if "image_url" in patch then patch["image_url"].s else p.imageUrl)
      && r.value.description == (if "description" in patch then patch["description"].s else p.description)
      && r.value.price == (if "price" in patch then patch["price"].n else p.price)
      && r.value.rating == (if "rating" in patch then patch["rating"].n else p.rating)
      && r.value.specifications == (if "specifications" in patch then patch["specifications"].m else p.specifications)
      && r.value.category == (if "category" in patch then patch["category"].s else p.category)
  {
    if !WellTyped(patch) then None
    else
      var specs := if "specifications" in patch && patch["specifications"].JStringMap?
                   then patch["specifications"].m else p.specifications;
      Some(p.(name := PatchString(patch, "name", p.name),
              imageUrl := PatchString(patch, "image_url", p.imageUrl),
              description := PatchString(patch, "description", p.description),
              price := PatchNumber(patch, "price", p.price),
              rating := PatchNumber(patch, "rating", p.rating),
              specifications := specs,
              category := PatchString(patch, "category", p.category)))
  }

  /** Applying a patch twice is applying it once. */
  lemma ApplyPatchIdempotent(p: Product, patch: Patch)
    requires WellTyped(patch)
    ensures ApplyPatch(ApplyPatch(p, patch).value, patch) == ApplyPatch(p, patch)
  {
  }

  /** An empty patch changes nothing. */
  lemma ApplyEmptyPatch(p: Product)
    ensures ApplyPatch(p, map[]) == Some(p)
  {
  }

  /** Patch: the first product with the path ID gets the patch applied. */
  function PatchProductPlan(idParam: string, patch: Option<Patch>, loaded: Result<seq<Product>>): (plan: Plan)
    ensures Decimal.Atoi(idParam).None? ==> plan == Reply(HandlerErrors.HandleError(HandlerErrors.ErrInvalidProductID))
    ensures Decimal.Atoi(idParam).Some? && patch.None? ==> plan == Reply(HandlerErrors.HandleError(HandlerErrors.ErrBindJSON))
    ensures Decimal.Atoi(idParam).Some? && patch.Some? && loaded.Err? ==>
      plan == Reply(HandlerErrors.HandleError(HandlerErrors.ErrFailedToLoad))
    ensures Decimal.Atoi(idParam).Some? && patch.Some? && loaded.Ok? ==>
      var ps, id := loaded.value, Decimal.Atoi(idParam).value;
      && (plan.Persist? <==> WellTyped(patch.value) && exists i :: 0 <= i < |ps| && ps[i].id == id)
      && (plan.Persist? ==> exists i :: (Collection.FirstMatch(ps, id, i) &&
            var patched := ApplyPatch(ps[i], patch.value).value;
            plan.products == ps[i := patched] && plan.response == Response(StatusOK, One(patched))))
      && (plan.Reply? && (forall i :: 0 <= i < |ps| ==> ps[i].id != id) ==>
            plan.response == HandlerErrors.HandleError(HandlerErrors.ErrProductNotFound))
      && (plan.Reply? && (exists i :: 0 <= i < |ps| && ps[i].id == id) ==>
            plan.response == HandlerErrors.HandleError(HandlerErrors.ErrBindJSON))
  {
    match Decimal.Atoi(idParam)
    case None => Reply(HandlerErrors.HandleError(HandlerErrors.ErrInvalidProductID))
    case Some(id) =>
      match patch
      case None => Reply(HandlerErrors.HandleError(HandlerErrors.ErrBindJSON))
      case Some(fields) =>
        match loaded
        case Err(_) => Reply(HandlerErrors.HandleError(HandlerErrors.ErrFailedToLoad))
        case Ok(ps) =>
          match Collection.FindFirst(ps, id)
          case None => Reply(HandlerErrors.HandleError(HandlerErrors.ErrProductNotFound))
          case Some(i) =>
            match ApplyPatch(ps[i], fields)
            case None => Reply(HandlerErrors.HandleError(HandlerErrors.ErrBindJSON))
            case Some(patched) => Persist(ps[i := patched], Response(StatusOK, One(patched)))
  }

  /** A patch never changes an ID, so IDs stay unique. */
  lemma PatchKeepsUniqueIds(idParam: string, patch: Patch, ps: seq<Product>)
    requires Collection.UniqueIds(ps)
    ensures
      var plan := PatchProductPlan(idParam, Some(patch), Ok(ps));
      plan.Persist? ==> |plan.products| == |ps| && Collection.UniqueIds(plan.products)
  {
    var plan := PatchProductPlan(idParam, Some(patch), Ok(ps));
    if plan.Persist? {
      var i := Collection.FindFirst(ps, Decimal.Atoi(idParam).value).value;
      assert forall k :: 0 <= k < |ps| ==> plan.products[k].id == ps[k].id;
    }
  }

  /** With IDs 1..n at positions 0..n-1, as seeded, the patched product is also the
      one at position `id - 1` of the result. */
  lemma PatchedSitsAtIdMinusOne(idParam: string, patch: Patch, ps: seq<Product>)
    requires Collection.DenseIds(ps)
    requires PatchProductPlan(idParam, Some(patch), Ok(ps)).Persist?
    ensures
      var plan := PatchProductPlan(idParam, Some(patch), Ok(ps));
      var id := Decimal.Atoi(idParam).value;
      1 <= id <= |plan.products| && plan.response == Response(StatusOK, One(plan.products[id - 1]))
  {
    var id := Decimal.Atoi(idParam).value;
    var i := Collection.FindFirst(ps, id).value;
    assert ps[i].id == i + 1;
    Collection.DenseIdsPosition(ps, id);
  }

  // ----- DELETE /products/:id -----

  /** Delete: the first product with the path ID is removed, the rest keep their order. */
  function DeleteProductPlan(idParam: string, loaded: Result<seq<Product>>): (plan: Plan)
    ensures Decimal.Atoi(idParam).None? ==> plan == Reply(HandlerErrors.HandleError(HandlerErrors.ErrInvalidProductID))
    ensures Decimal.Atoi(idParam).Some? && loaded.Err? ==> plan == Reply(HandlerErrors.HandleError(HandlerErrors.ErrFailedToLoad))
    ensures Decimal.Atoi(idParam).Some? && loaded.Ok? ==>
      var ps, id := loaded.value, Decimal.Atoi(idParam).value;
      && (plan.Persist? <==> exists i :: 0 <= i < |ps| && ps[i].id == id)
      && (plan.Persist? ==> exists i :: (Collection.FirstMatch(ps, id, i) &&
            plan.products == ps[..i] + ps[i + 1..]))
      && (plan.Persist? ==> plan.response == Response(StatusNoContent, Empty))
      && (plan.Reply? ==> plan.response == HandlerErrors.HandleError(HandlerErrors.ErrProductNotFound))
  {
    match Decimal.Atoi(idParam)
    case None => Reply(HandlerErrors.HandleError(HandlerErrors.ErrInvalidProductID))
    case Some(id) =>
      match loaded
      case Err(_) => Reply(HandlerErrors.HandleError(HandlerErrors.ErrFailedToLoad))
      case Ok(ps) =>
        match Collection.FindFirst(ps, id)
        case None => Reply(HandlerErrors.HandleError(HandlerErrors.ErrProductNotFound))
        case Some(i) => Persist(Collection.RemoveAt(ps, i), Response(StatusNoContent, Empty))
  }

  /** Deleting removes exactly one product and keeps IDs unique; with unique IDs
      no product with that ID remains. */
  lemma DeleteKeepsUniqueIds(idParam: string, ps: seq<Product>)
    requires Collection.UniqueIds(ps)
    ensures
      var plan := DeleteProductPlan(idParam, Ok(ps));
      plan.Persist? ==>
        && |plan.products| == |ps| - 1
        && Collection.UniqueIds(plan.products)
        && forall k :: 0 <= k < |plan.products| ==> plan.products[k].id != Decimal.Atoi(idParam).value
  {
    var plan := DeleteProductPlan(idParam, Ok(ps));
    if plan.Persist? {
      var i := Collection.FindFirst(ps, Decimal.Atoi(idParam).value).value;
      var r := Collection.RemoveAt(ps, i);
      assert forall k :: 0 <= k < |r| ==> r[k] == ps[if k < i then k else k + 1];
    }
  }

  // ----- Routing -----

  datatype Endpoint =
    | ListProducts | GetProduct(id: string) | CreateProduct
    | UpdateProduct(id: string) | PatchProduct(id: string) | DeleteProduct(id: string)

  const ProductsPath := "/products"

  /** Gin's default answer to a path it has no route for; the test routers install
      no NoRoute handler of their own. */
  const NoRoute := Response(StatusNotFound, Text("404 page not found"))

  /** The six registered routes: `/products` for GET and POST, `/products/:id` for
      GET, PUT, PATCH and DELETE, where `:id` is one non-empty path segment. */
  function Route(verb: string, path: string): (r: Option<Endpoint>)
    ensures r.Some? ==> path == ProductsPath || (|path| > 10 && path[..10] == "/products/")
  {
    if path == ProductsPath then
      if verb == "GET" then Some(ListProducts)
      else if verb == "POST" then Some(CreateProduct)
      else None
    else if |path| > 10 && path[..10] == "/products/" && '/' !in path[10..] then
      var id := path[10..];
      if verb == "GET" then Some(GetProduct(id))
      else if verb == "PUT" then Some(UpdateProduct(id))
      else if verb == "PATCH" then Some(PatchProduct(id))
      else if verb == "DELETE" then Some(DeleteProduct(id))
      else None
    else None
  }

  /** The path without its trailing slash routes for this verb, so Gin's default
      trailing-slash redirect applies to it. */
  predicate HasSlashVariant(verb: string, path: string)
  {
    |path| > 1 && path[|path| - 1] == '/' && Route(verb, path[..|path| - 1]).Some?
  }

  /** The router's own answer for a request, as `gin.Default()` sets it up: nothing
      when a handler takes the request; a redirect to the path without its trailing
      slash when that one is routed (301 for GET, 307 for other verbs); the 404 page
      otherwise. No route is registered with a trailing slash, so only removing one
      can help. */
  function Unrouted(verb: string, path: string): (r: Option<Response>)
    ensures r.Some? <==> Route(verb, path).None?
    ensures r.Some? && HasSlashVariant(verb, path) ==>
      r.value.body == Moved(path[..|path| - 1]) && Route(verb, r.value.body.location).Some?
      && r.value.status == (if verb == "GET" then StatusMovedPermanently else StatusTemporaryRedirect)
    ensures r.Some? && !HasSlashVariant(verb, path) ==> r.value == NoRoute && r.value.status == StatusNotFound
  {
    if Route(verb, path).Some? then None
    else if HasSlashVariant(verb, path) then
      Some(Response(if verb == "GET" then StatusMovedPermanently else StatusTemporaryRedirect, Moved(path[..|path| - 1])))
    else Some(NoRoute)
  }

  /** `/products/` and `/products/<id>/` are redirected, not refused. */
  lemma TrailingSlashRedirects(id: string)
    requires id != [] && '/' !in id
    ensures Unrouted("GET", "/products/") == Some(Response(StatusMovedPermanently, Moved(ProductsPath)))
    ensures Unrouted("POST", "/products/") == Some(Response(StatusTemporaryRedirect, Moved(ProductsPath)))
    ensures Unrouted("DELETE", "/products/" + id + "/") ==
      Some(Response(StatusTemporaryRedirect, Moved("/products/" + id)))
  {
    var p := "/products/" + id + "/";
    assert p[..|p| - 1] == "/products/" + id;
    ProductIdRoute("DELETE", id);
    assert p[..10] == "/products/";
    assert '/' in p[10..] by { assert p[10..][|p[10..]| - 1] == '/'; }
    assert "/products/"[..|"/products/"| - 1] == ProductsPath;
  }

  /** `/products` takes exactly GET and POST. */
  lemma ProductsPathRoutes(verb: string)
    ensures Route(verb, ProductsPath).Some? <==> verb == "GET" || verb == "POST"
    ensures Route("GET", ProductsPath) == Some(ListProducts)
    ensures Route("POST", ProductsPath) == Some(CreateProduct)
  {
  }

  /** A path under another prefix has no route, so it is answered with 404. */
  lemma UnregisteredPath()
    ensures Route("GET", "/api/v1/products/1") == None
    ensures Unrouted("GET", "/api/v1/products/1") == Some(NoRoute)
    ensures Unrouted("GET", "/api/v1/products/1").value.status == StatusNotFound
  {
    assert "/api/v1/products/1"[1] == 'a';
    assert "/api/v1/products/1" != ProductsPath;
  }

  /** `/products/<id>` takes exactly GET, PUT, PATCH and DELETE, each to its handler. */
  lemma ProductIdRoute(verb: string, id: string)
    requires id != [] && '/' !in id
    ensures Route(verb, "/products/" + id).Some? <==> verb in {"GET", "PUT", "PATCH", "DELETE"}
    ensures Route("GET", "/products/" + id) == Some(GetProduct(id))
    ensures Route("PUT", "/products/" + id) == Some(UpdateProduct(id))
    ensures Route("PATCH", "/products/" + id) == Some(PatchProduct(id))
    ensures Route("DELETE", "/products/" + id) == Some(DeleteProduct(id))
  {
    var path := "/products/" + id;
    assert path[..10] == "/products/";
    assert path[10..] == id;
  }

  /** Runs a handler's decisions against a store. */
  class ProductHandler {
    const db: Store.ProductStore

    constructor (db: Store.ProductStore)
      ensures this.db == db
    {
      this.db := db;
    }

    /** Saves what the plan asks to save, then gives its reply. */
    method Carry(plan: Plan) returns (resp: Response)
      modifies db
      ensures db.products == if plan.Persist? then plan.products else old(db.products)
      ensures resp == plan.response
    {
      match plan
      case Reply(r) =>
        resp := r;
      case Persist(ps, _) =>
        var err := db.SaveProducts(ps);
        resp := Finish(plan, err);
    }

    method GetProduct(idParam: string) returns (resp: Response)
      ensures resp == GetProductResponse(idParam, Ok(db.products))
    {
      var ps, err := db.LoadProducts();
      resp := GetProductResponse(idParam, FromPair(ps, err));
    }

    method GetAllProducts(limit: Option<string>, offset: Option<string>) returns (resp: Response)
      ensures resp == GetAllProductsResponse(limit, offset, Ok(db.products))
    {
      var ps, err := db.LoadProducts();
      resp := GetAllProductsResponse(limit, offset, FromPair(ps, err));
    }

    method CreateProduct(body: Option<Product>) returns (resp: Response)
      modifies db
      ensures
        var plan := CreateProductPlan(body, Ok(old(db.products)), Collection.NextId(old(db.products)));
        resp == plan.response && db.products == if plan.Persist? then plan.products else old(db.products)
    {
      var ps, err := db.LoadProducts();
      var next := db.GetNextID(ps);
      resp := Carry(CreateProductPlan(body, FromPair(ps, err), next));
    }

    method UpdateProduct(idParam: string, body: Option<Product>) returns (resp: Response)
      modifies db
      ensures
        var plan := UpdateProductPlan(idParam, body, Ok(old(db.products)));
        resp == plan.response && db.products == if plan.Persist? then plan.products else old(db.products)
    {
      var ps, err := db.LoadProducts();
      resp := Carry(UpdateProductPlan(idParam, body, FromPair(ps, err)));
    }

    method PatchProduct(idParam: string, patch: Option<Patch>) returns (resp: Response)
      modifies db
      ensures
        var plan := PatchProductPlan(idParam, patch, Ok(old(db.products)));
        resp == plan.response && db.products == if plan.Persist? then plan.products else old(db.products)
    {
      var ps, err := db.LoadProducts();
      resp := Carry(PatchProductPlan(idParam, patch, FromPair(ps, err)));
    }

    method DeleteProduct(idParam: string) returns (resp: Response)
      modifies db
      ensures
        var plan := DeleteProductPlan(idParam, Ok(old(db.products)));
        resp == plan.response && db.products == if plan.Persist? then plan.products else old(db.products)
    {
      var ps, err := db.LoadProducts();
      resp := Carry(DeleteProductPlan(idParam, FromPair(ps, err)));
    }
  }
}
