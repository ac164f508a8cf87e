/** The data model shared by the store, the repository and the handlers. */
module Models {

  const MinInt64: int := -0x8000_0000_0000_0000
  const MaxInt64: int := 0x7FFF_FFFF_FFFF_FFFF

  /** Go's `int` on a 64-bit platform. */
  type Int64 = x: int | MinInt64 <= x <= MaxInt64

  /** Go's `+` on `int`: the exact sum, wrapped into the 64-bit range. */
  function AddInt64(a: Int64, b: Int64): Int64
  {
    var s := a + b;
    if s > MaxInt64 then s - 0x1_0000_0000_0000_0000
    else if s < MinInt64 then s + 0x1_0000_0000_0000_0000
    else s
  }

  type Bytes = seq<bv8>

  datatype Option<T> = None | Some(value: T)

  /** The Go `error` values the core distinguishes: `os.IsNotExist` errors, other
      I/O errors, and failures of the JSON decoder and encoder. */
  datatype Error =
    | NotExist
    | IoFailure(reason: string)
    | DecodeFailure(reason: string)
    | EncodeFailure(reason: string)

  /** A Go `(value, error)` pair in which exactly one side is meaningful. */
  datatype Result<T> = Ok(value: T) | Err(error: Error)

  /** A Go `(value, error)` pair read as a Result. */
  function FromPair<T>(value: T, err: Option<Error>): Result<T>
  {
    match err
    case None => Ok(value)
    case Some(e) => Err(e)
  }

  /** `models.Product`. `price` and `rating` are Go float64 values; they are only
      copied, never computed with, so a `real` stands for each of them. */
  datatype Product = Product(
    id: Int64,
    name: string,
    imageUrl: string,
    description: string,
    price: real,
    rating: real,
    specifications: map<string, string>,
    category: string)

  /** The zero Product: what a Go composite literal leaves in every field it omits. */
  const Blank: Product := Product(0, "", "", "", 0.0, 0.0, map[], "")

  /** What reading the data file gives: its bytes, or an error. */
  datatype ReadOutcome = Read(data: Bytes) | ReadFailed(err: Error)

  /** The effect of saving the data file: the bytes written, if any, and the error
      returned. */
  datatype SaveEffect = SaveEffect(written: Option<Bytes>, err: Option<Error>)
}
