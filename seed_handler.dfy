/** internal/handlers/products.go: a package-level seed of three products and a
    GetProduct that looks a path ID up in it. Nothing here writes to the seed. */
module SeedHandler {
  import opened Models
  import opened Http
  import Collection
  import Decimal
  import HandlerErrors

  /** The seed collection (the file's `products` slice); its Category fields are unset. */
  const Products: seq<Product> := [
    Blank.(id := 1, name := "Laptop", imageUrl := "/images/laptop.png",
           description := "High-performance laptop", price := 1200.0, rating := 4.5,
           specifications := map["RAM" := "16GB", "Storage" := "512GB SSD"]),
    Blank.(id := 2, name := "Smartphone", imageUrl := "/images/smartphone.png",
           description := "Latest model smartphone", price := 800.0, rating := 4.8,
           specifications := map["Camera" := "108MP", "Battery" := "5000mAh"]),
    Blank.(id := 3, name := "Headphones", imageUrl := "/images/headphones.png",
           description := "Noise-cancelling headphones", price := 150.0, rating := 4.2,
           specifications := map["Connectivity" := "Bluetooth 5.0", "Driver size" := "40mm"])]

  const InvalidProductID: Response := HandlerErrors.HandleError(HandlerErrors.ErrInvalidProductID)
  const ProductNotFound: Response := HandlerErrors.HandleError(HandlerErrors.ErrProductNotFound)

  /** GET /products/:id over the seed: 400 when the ID does not parse, 200 with the
      first seed product carrying it, 404 otherwise. */
  function GetProduct(idParam: string): (r: Response)
    ensures Decimal.Atoi(idParam).None? ==> r == InvalidProductID
    ensures r.status == StatusOK <==>
      Decimal.Atoi(idParam).Some? && exists i :: 0 <= i < |Products| && Products[i].id == Decimal.Atoi(idParam).value
    ensures r.status == StatusOK ==>
      exists i :: Collection.FirstMatch(Products, Decimal.Atoi(idParam).value, i) && r.body == One(Products[i])
    ensures Decimal.Atoi(idParam).Some? && r.status != StatusOK ==> r == ProductNotFound
  {
    match Decimal.Atoi(idParam)
    case None => InvalidProductID
    case Some(id) =>
      match Collection.FindFirst(Products, id)
      case Some(i) => Response(StatusOK, One(Products[i]))
      case None => ProductNotFound
  }

  /** The seed holds IDs 1, 2, 3 in this order, and product 1 is the Laptop. */
  lemma SeedShape()
    ensures |Products| == 3 && Collection.DenseIds(Products)
    ensures Products[0].name == "Laptop"
  {
  }

  /** Every seed product is found by its own ID. */
  lemma GetProductFindsSeed(id: Int64)
    requires 1 <= id <= 3
    ensures GetProduct(Decimal.Itoa(id)) == Response(StatusOK, One(Products[id - 1]))
  {
    Decimal.AtoiItoa(id);
    SeedShape();
    Collection.DenseIdsPosition(Products, id);
  }

  /** An ID that parses but is not in the seed gives 404 "Product not found". */
  lemma GetProductMissing(idParam: string)
    requires Decimal.Atoi(idParam).Some?
    requires Decimal.Atoi(idParam).value !in {1, 2, 3}
    ensures GetProduct(idParam) == ProductNotFound
  {
  }

  /** The cases the handler tests exercise: "1" is the Laptop, "999" is missing,
      "abc" is not an ID. */
  lemma GetProductExamples()
    ensures GetProduct("1").status == StatusOK && GetProduct("1").body.product.name == "Laptop"
    ensures GetProduct("999") == ProductNotFound
    ensures GetProduct("abc") == InvalidProductID
  {
    GetProductFindsSeed(1);
    assert Decimal.Itoa(1) == "1";
    Decimal.AtoiItoa(999);
    assert Decimal.Itoa(999) == "999";
    GetProductMissing("999");
    Decimal.AtoiRejectsNonDigit("abc", 0);
  }
}
