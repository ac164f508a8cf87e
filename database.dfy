/** internal/database/database.go: the `Client` store. Reading and writing the data
    file happen under a global mutex; here the read result, the JSON encoder and
    decoder and the file write are parameters, and the mutex is not modelled. */
module Database {
  import opened Models
  import Collection

  /** `Client.LoadProducts`: a missing file is the empty collection, any other read
      error and any decode error are returned, and decoded products come back as
      the decoder produced them. */
  function LoadProducts(read: ReadOutcome, unmarshal: Bytes -> Result<seq<Product>>): (r: Result<seq<Product>>)
    ensures read == ReadFailed(NotExist) ==> r == Ok([])
    ensures read.ReadFailed? && read.err != NotExist ==> r == Err(read.err)
    ensures read.Read? && unmarshal(read.data).Err? ==> r == Err(unmarshal(read.data).error)
    ensures read.Read? && unmarshal(read.data).Ok? ==> r == Ok(unmarshal(read.data).value)
  {
    match read
    case ReadFailed(err) => if err == NotExist then Ok([]) else Err(err)
    case Read(data) =>
      match unmarshal(data)
      case Err(e) => Err(e)
      case Ok(products) => Ok(products)
  }

  /** `Client.SaveProducts`: an encoding failure is returned and nothing is written;
      otherwise the encoded bytes are written and the write's error is returned. */
  function SaveProducts(products: seq<Product>, marshal: seq<Product> -> Result<Bytes>,
                        write: Bytes -> Option<Error>): (r: SaveEffect)
    ensures marshal(products).Err? ==> r.written == None && r.err == Some(marshal(products).error)
    ensures marshal(products).Ok? ==>
      r.written == Some(marshal(products).value) && r.err == write(marshal(products).value)
  {
    match marshal(products)
    case Err(e) => SaveEffect(None, Some(e))
    case Ok(data) => SaveEffect(Some(data), write(data))
  }

  /** Save then load round-trips the collection, provided encoding succeeds,
      decoding inverts it, the write succeeds and the next read returns the bytes
      written. */
  lemma SaveThenLoad(products: seq<Product>, marshal: seq<Product> -> Result<Bytes>,
                     unmarshal: Bytes -> Result<seq<Product>>, write: Bytes -> Option<Error>)
    requires marshal(products).Ok?
    requires unmarshal(marshal(products).value) == Ok(products)
    requires write(marshal(products).value) == None
    ensures SaveProducts(products, marshal, write).err == None
    ensures SaveProducts(products, marshal, write).written.Some?
    ensures LoadProducts(Read(SaveProducts(products, marshal, write).written.value), unmarshal) == Ok(products)
  {
  }

  /** A failed save leaves the file as it was: nothing is written unless the
      encoding succeeds. */
  lemma FailedEncodeWritesNothing(products: seq<Product>, marshal: seq<Product> -> Result<Bytes>,
                                  write: Bytes -> Option<Error>)
    requires SaveProducts(products, marshal, write).written.None?
    ensures marshal(products).Err?
    ensures SaveProducts(products, marshal, write).err == Some(marshal(products).error)
  {
  }

  /** `Client.GetNextID`: one more than the running maximum of the IDs, from 0. */
  method GetNextID(products: seq<Product>) returns (next: Int64)
    ensures next == Collection.NextId(products)
    ensures Collection.NoMaxInt(products) ==>
      next >= 1 && forall i :: 0 <= i < |products| ==> products[i].id < next
  {
    var maxID: Int64 := 0;
    for i := 0 to |products|
      invariant maxID == Collection.MaxId(products[..i])
    {
      Collection.MaxIdStep(products, i);
      if products[i].id > maxID {
        maxID := products[i].id;
      }
    }
    assert products[..|products|] == products;
    next := AddInt64(maxID, 1);
    if Collection.NoMaxInt(products) {
      Collection.NextIdExceedsAll(products);
    }
  }
}
