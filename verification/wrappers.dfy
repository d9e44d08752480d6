/** Optional values, results, and the HTTP errors that the handlers raise with `createError`. */
module Wrappers {

  datatype Option<+T> = None | Some(value: T)

  /** What `createError({ statusCode, message })` carries. The user-facing texts are
      named by what they say rather than spelled out in Lao. */
  datatype Message =
    | LoginRequired           // "please log in" (requireAuth)
    | AccessDenied            // "you have no access" (requireAdmin)
    | MissingCredentials      // login without username or password
    | BadCredentials          // unknown user or wrong password (one shared text)
    | AccountDisabled         // inactive account
    | CustomerAndItemsRequired
    | CustomerFieldsRequired
    | PhoneTaken
    | RequiredFieldsMissing   // shared text of the user, product and promotion endpoints
    | UsernameTaken
    | NameAndUnitRequired
    | CategoryNameTaken
    | NameAndPriceRequired
    | FormDataRequired
    | StoreRejected           // an error thrown by the database client (not a createError)

  datatype HttpError = HttpError(status: nat, message: Message)

  datatype Result<+T> = Ok(value: T) | Err(error: HttpError)

  /** JavaScript truthiness of an optional string: absent and "" are falsy. */
  predicate PresentText(s: Option<string>) {
    s.Some? && s.value != ""
  }

  /** JavaScript truthiness of an optional number: absent and 0 are falsy. */
  predicate PresentNumber(n: Option<int>) {
    n.Some? && n.value != 0
  }

  /** `x || fallback` for an optional string. */
  function TextOr(s: Option<string>, fallback: string): (r: string)
  {
    if PresentText(s) then s.value else fallback
  }

  /** `x || fallback` for an optional number. */
  function NumberOr(n: Option<int>, fallback: int): (r: int)
  {
    if PresentNumber(n) then n.value else fallback
  }

  /** `x || null` for an optional string. */
  function TextOrNull(s: Option<string>): (r: Option<string>)
  {
    if PresentText(s) then s else None
  }
}
