/** The request sequences of internal/handlers/products_test.go (over the in-memory
    store) and internal/tests/integration_api_test.go (over a store seeded through
    SaveProducts), with what those tests assert as postconditions. */
module Scenarios {
  import opened Models
  import opened Http
  import opened ProductHandlers
  import Collection
  import Decimal
  import Store

  const Laptop := Blank.(id := 1, name := "Laptop", category := "Electronics")

  /** The three products the integration tests seed. */
  const IntegrationSeed: seq<Product> := [
    Blank.(id := 1, name := "Laptop", imageUrl := "/images/laptop.png",
           description := "High-performance laptop", price := 1200.0, rating := 4.5,
           specifications := map["RAM" := "16GB", "Storage" := "512GB SSD"], category := "Electronics"),
    Blank.(id := 2, name := "Smartphone", imageUrl := "/images/smartphone.png",
           description := "Latest model smartphone", price := 800.0, rating := 4.8,
           specifications := map["Camera" := "108MP", "Battery" := "5000mAh"], category := "Electronics"),
    Blank.(id := 3, name := "Headphones", imageUrl := "/images/headphones.png",
           description := "Noise-cancelling headphones", price := 150.0, rating := 4.2,
           specifications := map["Connectivity" := "Bluetooth 5.0", "Driver size" := "40mm"], category := "Accessories")]

  lemma PathIds()
    ensures Decimal.Atoi("1") == Some(1)
    ensures Decimal.Atoi("999") == Some(999)
    ensures Decimal.Atoi("abc") == None
  {
    Decimal.AtoiItoa(1);
    assert Decimal.Itoa(1) == "1";
    Decimal.AtoiItoa(999);
    assert Decimal.Itoa(999) == "999";
    Decimal.AtoiRejectsNonDigit("abc", 0);
  }

  /** A handler over a store that SaveProducts has seeded, as the integration
      tests set it up. */
  method SeededHandler() returns (h: ProductHandler)
    ensures fresh(h) && fresh(h.db) && h.db.products == IntegrationSeed
  {
    var db := new Store.ProductStore([]);
    var _ := db.SaveProducts(IntegrationSeed);
    h := new ProductHandler(db);
  }

  // ----- products_test.go -----

  method GetProductOnOneItemStore() returns (found: Response, missing: Response, invalid: Response)
    ensures found.status == StatusOK && found.body.One?
    ensures found.body.product.id == 1 && found.body.product.name == "Laptop"
    ensures missing == Response(StatusNotFound, Object(map["error" := "Product not found"]))
    ensures invalid == Response(StatusBadRequest, Object(map["error" := "Invalid product ID"]))
  {
    var db := new Store.ProductStore([Laptop]);
    var h := new ProductHandler(db);
    PathIds();
    found := h.GetProduct("1");
    missing := h.GetProduct("999");
    invalid := h.GetProduct("abc");
  }

  method ListWithoutQuery() returns (resp: Response)
    ensures resp.status == StatusOK && resp.body.Many? && |resp.body.products| == 2
  {
    var db := new Store.ProductStore([Blank.(id := 1, name := "Laptop"), Blank.(id := 2, name := "Smartphone")]);
    var h := new ProductHandler(db);
    ListDefaults(db.products);
    resp := h.GetAllProducts(None, None);
  }

  method CreateOnEmptyStore() returns (resp: Response, stored: seq<Product>)
    ensures resp.status == StatusCreated && resp.body.One?
    ensures resp.body.product.id == 1 && resp.body.product.name == "New Product"
    ensures |stored| == 1
  {
    var db := new Store.ProductStore([]);
    var h := new ProductHandler(db);
    Collection.NextIdOfEmpty();
    resp := h.CreateProduct(Some(Blank.(name := "New Product", category := "Electronics")));
    var err;
    stored, err := db.LoadProducts();
  }

  method UpdateOnOneItemStore() returns (resp: Response, stored: seq<Product>)
    ensures resp.status == StatusOK && resp.body.One?
    ensures resp.body.product.name == "Updated Laptop" && resp.body.product.category == "Premium Electronics"
    ensures |stored| == 1 && stored[0].name == "Updated Laptop"
  {
    var db := new Store.ProductStore([Laptop]);
    var h := new ProductHandler(db);
    PathIds();
    resp := h.UpdateProduct("1", Some(Blank.(name := "Updated Laptop", category := "Premium Electronics")));
    var err;
    stored, err := db.LoadProducts();
  }

  method PatchCategory() returns (resp: Response, stored: seq<Product>)
    ensures resp.status == StatusOK && resp.body.One?
    ensures resp.body.product == Laptop.(category := "Premium Electronics")
    ensures |stored| == 1 && stored[0].category == "Premium Electronics"
  {
    var db := new Store.ProductStore([Laptop]);
    var h := new ProductHandler(db);
    PathIds();
    resp := h.PatchProduct("1", Some(map["category" := JString("Premium Electronics")]));
    var err;
    stored, err := db.LoadProducts();
  }

  method DeleteOnlyItem() returns (resp: Response, stored: seq<Product>)
    ensures resp.status == StatusNoContent
    ensures stored == []
  {
    var db := new Store.ProductStore([Blank.(id := 1, name := "Laptop")]);
    var h := new ProductHandler(db);
    PathIds();
    resp := h.DeleteProduct("1");
    var err;
    stored, err := db.LoadProducts();
  }

  // ----- integration_api_test.go -----

  method SeededGetProduct() returns (resp: Response)
    ensures resp.status == StatusOK && resp.body.One?
    ensures resp.body.product.id == 1 && resp.body.product.name == "Laptop"
  {
    var h := SeededHandler();
    PathIds();
    resp := h.GetProduct("1");
  }

  method SeededListWindow() returns (resp: Response)
    ensures resp.status == StatusOK && resp.body.Many?
    ensures |resp.body.products| == 1 && resp.body.products[0].id == 2
  {
    var h := SeededHandler();
    PathIds();
    resp := h.GetAllProducts(Some("1"), Some("1"));
  }

  method SeededCreate() returns (resp: Response)
    ensures resp.status == StatusCreated && resp.body.One?
    ensures resp.body.product.id == 4 && resp.body.product.name == "New Product"
  {
    var h := SeededHandler();
    Collection.NextIdExceedsAll(IntegrationSeed);
    Collection.NextIdIsLeast(IntegrationSeed, 4);
    resp := h.CreateProduct(Some(Blank.(name := "New Product", description := "A brand new product",
                                        price := 100.0, rating := 4.0, category := "Electronics")));
  }

  method SeededUpdate() returns (resp: Response)
    ensures resp.status == StatusOK && resp.body.One? && resp.body.product.name == "Updated Laptop"
  {
    var h := SeededHandler();
    PathIds();
    resp := h.UpdateProduct("1", Some(Blank.(id := 1, name := "Updated Laptop", description := "Updated description",
                                             price := 1300.0, rating := 4.6, category := "Electronics")));
  }

  method SeededPatch() returns (resp: Response)
    ensures resp.status == StatusOK && resp.body.One?
    ensures resp.body.product.price == 1250.0 && resp.body.product.rating == 4.7
    ensures resp.body.product.category == "Premium Electronics"
    ensures resp.body.product.name == "Laptop" && resp.body.product.id == 1
  {
    var h := SeededHandler();
    PathIds();
    resp := h.PatchProduct("1", Some(map["price" := JNumber(1250.0), "rating" := JNumber(4.7),
                                         "category" := JString("Premium Electronics")]));
  }

  method SeededDelete() returns (resp: Response, stored: seq<Product>)
    ensures resp.status == StatusNoContent
    ensures stored == IntegrationSeed[1..]
  {
    var h := SeededHandler();
    PathIds();
    resp := h.DeleteProduct("1");
    var err;
    stored, err := h.db.LoadProducts();
  }
}
