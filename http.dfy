/**
 * What the handlers share: the response they send, the outcome of a lookup in
 * one of the two user stores, and the history documents they write.
 */
module Http {
  import opened Wrappers
  import opened JsValues

  /** `res.status(status).json(body)`. */
  datatype Response = Response(status: int, body: map<string, JsValue>)

  /** `{ error: message }` with the given status. */
  function ErrorResponse(status: int, message: string): (r: Response)
    ensures r.status == status && r.body.Keys == {"error"} && r.body["error"] == Str(message)
  {
    Response(status, map["error" := Str(message)])
  }

  /**
   * The handlers' outer `catch`: 500 with 'Internal server error' and the
   * error's message. The message of a TypeError raised by the engine is not
   * modelled (None).
   */
  function InternalError(message: Option<string>): (r: Response)
    ensures r.status == 500 && "error" in r.body && r.body["error"] == Str("Internal server error")
  {
    Response(500, map["error" := Str("Internal server error"),
                      "message" := if message.Some? then Str(message.value) else Undefined])
  }

  /** One `findOne` on a user store: a document, `null`, or a thrown error. */
  datatype Lookup = Found(doc: map<string, JsValue>) | NotFound | LookupFailed

  datatype UserCheck = UserFound | UserMissing | CheckFailed

  /**
   * The handlers' inline existence check: the Mongoose store first, the native
   * store only when the first returned `null`. A thrown error in the first store
   * skips the second.
   */
  function CheckUser(mongoose: Lookup, native: Lookup): (r: UserCheck)
    ensures r == UserMissing <==> mongoose.NotFound? && native.NotFound?
    ensures r == UserFound <==> mongoose.Found? || (mongoose.NotFound? && native.Found?)
    ensures r == CheckFailed <==> mongoose.LookupFailed? || (mongoose.NotFound? && native.LookupFailed?)
  {
    match mongoose
    case Found(_) => UserFound
    case LookupFailed => CheckFailed
    case NotFound =>
      match native
      case Found(_) => UserFound
      case NotFound => UserMissing
      case LookupFailed => CheckFailed
  }

  /** The `sourceType` values of a history record. */
  datatype SourceType = Prompt | PhotoRecipe | PhotoIngredients

  /** A `Recipe.create` document. */
  datatype HistoryRecord = HistoryRecord(userId: JsValue, recipe: JsValue, sourceIngredients: JsValue,
                                         sourceType: SourceType, imageUrl: Option<string>)

  /** The outcome of one `create`: the new document's id, or a thrown error. */
  datatype Saved = SavedAs(id: string) | SaveFailed

  const DefaultJwtSecret: string := "your-secret-key-change-in-production"

  /** `process.env.JWT_SECRET || 'your-secret-key-change-in-production'`: an unset or empty variable gives the default. */
  function JwtSecret(configured: Option<string>): (r: string)
    ensures configured.Some? && configured.value != "" ==> r == configured.value
    ensures configured.None? || configured.value == "" ==> r == DefaultJwtSecret
  {
    if configured.Some? && configured.value != "" then configured.value else DefaultJwtSecret
  }
}
