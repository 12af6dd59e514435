/** The local identity record of `src/modules/auth/types.ts`. */
module AuthTypes {
  import opened JsValues

  /** The signed-in user as the session layer stores it. The record has no
      `displayName`: only `id`, `email` and an optional `name`. */
  datatype User = User(id: string, email: string, name: Option<string>)
}
