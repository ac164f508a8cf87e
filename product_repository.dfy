/** internal/repositories/product_repository.go over the base repository of
    internal/repositories/base_repository.go. The base repository's Load and Save
    are I/O and arrive here as their outcomes; the JSON decoder is a parameter. */
module ProductRepository {
  import opened Models
  import Collection

  /** What the base repository's `Load()` returns: bytes (nil is the empty
      sequence), or an error. */
  datatype LoadOutcome = Loaded(data: Bytes) | LoadFailed(err: Error)

  /** An element of the `[]interface{}` handed to the base repository's `Save`. */
  datatype Value = Boxed(product: Product)

  /** The base repository's `Load` (base_repository.go): a missing file becomes
      `(nil, nil)`, so it never reports not-exist to its caller. */
  function BaseLoad(read: ReadOutcome): (r: LoadOutcome)
    ensures read == ReadFailed(NotExist) ==> r == Loaded([])
    ensures read.Read? ==> r == Loaded(read.data)
    ensures r.LoadFailed? ==> r.err != NotExist && read == ReadFailed(r.err)
  {
    match read
    case Read(data) => Loaded(data)
    case ReadFailed(err) => if err == NotExist then Loaded([]) else LoadFailed(err)
  }

  /** `LoadProducts`: decides the result from the base Load outcome and what the
      decoder makes of the bytes, then copies the decoded products in order. */
  method LoadProducts(load: LoadOutcome, unmarshal: Bytes -> Result<seq<Product>>)
    returns (r: Result<seq<Product>>)
    ensures load == LoadFailed(NotExist) ==> r == Ok([])
    ensures load.LoadFailed? && load.err != NotExist ==> r == Err(load.err)
    ensures load.Loaded? && unmarshal(load.data).Err? ==> r == Err(unmarshal(load.data).error)
    ensures load.Loaded? && unmarshal(load.data).Ok? ==> r == Ok(unmarshal(load.data).value)
  {
    match load
    case LoadFailed(err) =>
      if err == NotExist {
        return Ok([]);
      }
      return Err(err);
    case Loaded(data) =>
      var decoded := unmarshal(data);
      if decoded.Err? {
        return Err(decoded.error);
      }
      var products := decoded.value;
      var result := new Product[|products|];
      for i := 0 to |products|
        invariant forall k :: 0 <= k < i ==> result[k] == products[k]
      {
        result[i] := products[i];
      }
      assert result[..] == products;
      return Ok(result[..]);
  }

  /** Through the base repository a missing file reaches the decoder as nil data:
      LoadProducts then returns whatever decoding empty input gives, never the
      empty collection its not-exist branch promises (unless the decoder accepts
      empty input). */
  method LoadThroughBase(read: ReadOutcome, unmarshal: Bytes -> Result<seq<Product>>)
    returns (r: Result<seq<Product>>)
    ensures read == ReadFailed(NotExist) && unmarshal([]).Err? ==> r == Err(unmarshal([]).error)
    ensures read == ReadFailed(NotExist) && unmarshal([]).Ok? ==> r == Ok(unmarshal([]).value)
    ensures read.ReadFailed? && read.err != NotExist ==> r == Err(read.err)
    ensures read.Read? && unmarshal(read.data).Err? ==> r == Err(unmarshal(read.data).error)
    ensures read.Read? && unmarshal(read.data).Ok? ==> r == Ok(unmarshal(read.data).value)
  {
    r := LoadProducts(BaseLoad(read), unmarshal);
  }

  /** The base repository's `Save`: an encoding failure is returned and nothing is
      written; otherwise the encoded bytes are written and the write's error is
      returned. */
  function BaseSave(model: seq<Value>, marshal: seq<Value> -> Result<Bytes>,
                    write: Bytes -> Option<Error>): (r: SaveEffect)
    ensures marshal(model).Err? ==> r.written == None && r.err == Some(marshal(model).error)
    ensures marshal(model).Ok? ==>
      r.written == Some(marshal(model).value) && r.err == write(marshal(model).value)
  {
    match marshal(model)
    case Err(e) => SaveEffect(None, Some(e))
    case Ok(data) => SaveEffect(Some(data), write(data))
  }

  /** The boxed form of a collection that `SaveProducts` hands to `Save`. */
  function Boxes(model: seq<Product>): (r: seq<Value>)
    ensures |r| == |model| && forall i :: 0 <= i < |model| ==> r[i] == Boxed(model[i])
  {
    seq(|model|, i requires 0 <= i < |model| => Boxed(model[i]))
  }

  /** `SaveProducts`: boxes each product into the `[]interface{}` it hands to the
      base repository's `Save`, and returns what Save returns. */
  method SaveProducts(model: seq<Product>, save: seq<Value> -> Option<Error>)
    returns (handed: seq<Value>, err: Option<Error>)
    ensures |handed| == |model|
    ensures forall i :: 0 <= i < |model| ==> handed[i] == Boxed(model[i])
    ensures handed == Boxes(model)
    ensures err == save(handed)
  {
    var data := new Value[|model|](_ => Boxed(Blank));
    for idx := 0 to |model|
      invariant forall k :: 0 <= k < idx ==> data[k] == Boxed(model[k])
    {
      data[idx] := Boxed(model[idx]);
    }
    handed := data[..];
    err := save(handed);
  }

  /** A collection saved through the base repository and read back from the file
      it wrote loads as itself, provided the encoding of the boxed products
      succeeds, the decoder inverts it and the write succeeds. */
  method SaveThenLoad(model: seq<Product>, marshal: seq<Value> -> Result<Bytes>,
                      unmarshal: Bytes -> Result<seq<Product>>, write: Bytes -> Option<Error>)
    returns (saveErr: Option<Error>, loaded: Result<seq<Product>>)
    requires marshal(Boxes(model)).Ok?
    requires unmarshal(marshal(Boxes(model)).value) == Ok(model)
    requires write(marshal(Boxes(model)).value) == None
    ensures saveErr == None
    ensures loaded == Ok(model)
  {
    var handed;
    handed, saveErr := SaveProducts(model, v => BaseSave(v, marshal, write).err);
    var written := BaseSave(handed, marshal, write).written.value;
    loaded := LoadThroughBase(Read(written), unmarshal);
  }

  /** `GetNextID`: one more than the running maximum of the IDs, starting from 0. */
  method GetNextID(products: seq<Product>) returns (next: Int64)
    ensures next == Collection.NextId(products)
    ensures Collection.NoMaxInt(products) ==>
      next >= 1 && forall i :: 0 <= i < |products| ==> products[i].id < next
  {
    var maxID: Int64 := 0;
    for i := 0 to |products|
      invariant maxID == Collection.MaxId(products[..i])
    {
      Collection.MaxIdStep(products, i);
      if products[i].id > maxID {
        maxID := products[i].id;
      }
    }
    assert products[..|products|] == products;
    next := AddInt64(maxID, 1);
    if Collection.NoMaxInt(products) {
      Collection.NextIdExceedsAll(products);
    }
  }
}
