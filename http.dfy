/** What a handler writes back: a status code and a JSON body. */
module Http {
  import opened Models

  const StatusOK := 200
  const StatusCreated := 201
  const StatusNoContent := 204
  const StatusMovedPermanently := 301
  const StatusTemporaryRedirect := 307
  const StatusBadRequest := 400
  const StatusNotFound := 404
  const StatusInternalServerError := 500

  datatype Body =
    | Empty                                  // no content
    | Object(fields: map<string, string>)    // a `gin.H` whose values are strings
    | One(product: Product)                  // one Product as JSON
    | Many(products: seq<Product>)           // a JSON array of Products
    | Text(text: string)                     // a plain-text body
    | Moved(location: string)                // a redirect: its Location header, no body

  datatype Response = Response(status: int, body: Body)
}
