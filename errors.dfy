/** The handlers' error vocabulary (internal/handlers/errors.go): a fixed table of
    (status, message) pairs and the response each of them turns into. */
module HandlerErrors {
  import opened Http
  import Models

  datatype Error = Error(code: int, message: string)

  function NewError(code: int, message: string): (e: Error)
    ensures e.code == code && e.message == message
  {
    Error(code, message)
  }

  const ErrInvalidID := NewError(StatusBadRequest, "Invalid ID")
  const ErrFailedToLoad := NewError(StatusInternalServerError, "Failed to load")
  const ErrNotFound := NewError(StatusNotFound, "Not found")
  const ErrInvalidLimitParameter := NewError(StatusBadRequest, "Invalid limit parameter")
  const ErrInvalidOffsetParameter := NewError(StatusBadRequest, "Invalid offset parameter")
  const ErrFailedToSave := NewError(StatusInternalServerError, "Failed to save")
  const ErrBindJSON := NewError(StatusBadRequest, "Invalid request body")

  /** The two errors internal/handlers/products.go writes for a path ID that does
      not parse or is not in the collection; the handler tests expect the same
      messages. They are not part of the predefined table below. */
  const ErrInvalidProductID := NewError(StatusBadRequest, "Invalid product ID")
  const ErrProductNotFound := NewError(StatusNotFound, "Product not found")

  /** The predefined errors, in declaration order. */
  const Predefined: seq<Error> := [
    ErrInvalidID, ErrFailedToLoad, ErrNotFound, ErrInvalidLimitParameter,
    ErrInvalidOffsetParameter, ErrFailedToSave, ErrBindJSON]

  /** Errors caused by what the client sent. */
  const ClientInputErrors: seq<Error> := [
    ErrInvalidID, ErrInvalidLimitParameter, ErrInvalidOffsetParameter, ErrBindJSON]

  /** Errors caused by the store. */
  const StorageErrors: seq<Error> := [ErrFailedToLoad, ErrFailedToSave]

  lemma PredefinedTable()
    ensures ErrInvalidID == Error(400, "Invalid ID")
    ensures ErrFailedToLoad == Error(500, "Failed to load")
    ensures ErrNotFound == Error(404, "Not found")
    ensures ErrInvalidLimitParameter == Error(400, "Invalid limit parameter")
    ensures ErrInvalidOffsetParameter == Error(400, "Invalid offset parameter")
    ensures ErrFailedToSave == Error(500, "Failed to save")
    ensures ErrBindJSON == Error(400, "Invalid request body")
  {
  }

  /** Client-input errors are all 400, and a predefined error is 500 exactly when
      it is a load or save failure. */
  lemma StatusClasses()
    ensures forall e :: e in ClientInputErrors ==> e.code == StatusBadRequest
    ensures forall e :: e in Predefined ==> (e.code == StatusInternalServerError <==> e in StorageErrors)
    ensures forall e :: e in Predefined ==> e in ClientInputErrors || e in StorageErrors || e == ErrNotFound
  {
  }

  /** No two predefined errors share a message, so a message names its error. */
  lemma MessagesDistinct()
    ensures forall i, j :: 0 <= i < j < |Predefined| ==> Predefined[i].message != Predefined[j].message
  {
  }

  /** `c.JSON(err.Code, gin.H{"error": err.Message})`. */
  function HandleError(err: Error): (r: Response)
    ensures r.status == err.code
    ensures r.body.Object? && r.body.fields.Keys == {"error"} && r.body.fields["error"] == err.message
  {
    Response(err.code, Object(map["error" := err.message]))
  }

  /** Reads a response back as the error it reports, if it has the error shape. */
  function ErrorOf(r: Response): Models.Option<Error>
  {
    if r.body.Object? && r.body.fields.Keys == {"error"}
    then Models.Some(Error(r.status, r.body.fields["error"]))
    else Models.None
  }

  /** HandleError loses nothing: the error can be read back from the response ... */
  lemma ErrorOfHandleError(e: Error)
    ensures ErrorOf(HandleError(e)) == Models.Some(e)
  {
  }

  /** ... and every error-shaped response is the one HandleError builds. */
  lemma HandleErrorOfErrorOf(r: Response)
    requires ErrorOf(r).Some?
    ensures HandleError(ErrorOf(r).value) == r
  {
    assert r.body.fields == map["error" := r.body.fields["error"]];
  }
}
