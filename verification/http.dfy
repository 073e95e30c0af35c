/**
 The JSON responses the services send (`res.status(n).json(body)`).
 Fields that are `undefined` are dropped by `JSON.stringify`, so
 `{success: true, id: undefined}` and `{success: true}` are the same body.
 */
module Http {
  import opened Common
  import Store

  datatype Body =
    /** `{success: true, message?, id?}` */
    | Success(message: Option<string>, id: Option<Store.Id>)
    /** `{error, message?}` */
    | Failure(error: string, detail: Option<string>)
    /** A bare JSON array of template documents. */
    | Templates(docs: seq<Store.TemplateDoc>)

  datatype Response = Response(status: nat, body: Body)

  /** `res.json(body)`: status 200. */
  function Ok(body: Body): Response {
    Response(200, body)
  }
}
