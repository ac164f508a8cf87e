/** The in-memory product store of internal/handlers/products_test.go (`MockDB`):
    Load hands back the stored collection and Save replaces it wholesale. */
module Store {
  import opened Models
  import Collection

  class ProductStore {
    var products: seq<Product>

    constructor (initial: seq<Product>)
      ensures products == initial
    {
      products := initial;
    }

    /** Returns exactly the stored collection, and never an error. */
    method LoadProducts() returns (ps: seq<Product>, err: Option<Error>)
      ensures ps == products && err == None
    {
      ps, err := products, None;
    }

    /** Replaces the stored collection, and never fails. */
    method SaveProducts(ps: seq<Product>) returns (err: Option<Error>)
      modifies this
      ensures products == ps && err == None
    {
      products := ps;
      err := None;
    }

    /** One more than the running maximum of the IDs in `ps`, from 0. */
    method GetNextID(ps: seq<Product>) returns (next: Int64)
      ensures next == Collection.NextId(ps)
      ensures Collection.NoMaxInt(ps) ==> next >= 1 && forall i :: 0 <= i < |ps| ==> ps[i].id < next
    {
      var maxID: Int64 := 0;
      for i := 0 to |ps|
        invariant maxID == Collection.MaxId(ps[..i])
      {
        Collection.MaxIdStep(ps, i);
        if ps[i].id > maxID {
          maxID := ps[i].id;
        }
      }
      assert ps[..|ps|] == ps;
      next := AddInt64(maxID, 1);
      if Collection.NoMaxInt(ps) {
        Collection.NextIdExceedsAll(ps);
      }
    }
  }

  /** A load after a save returns what was saved. */
  method SaveThenLoad(store: ProductStore, ps: seq<Product>) returns (loaded: seq<Product>)
    modifies store
    ensures loaded == ps && store.products == ps
  {
    var _ := store.SaveProducts(ps);
    var err;
    loaded, err := store.LoadProducts();
  }
}
