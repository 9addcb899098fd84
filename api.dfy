/**
 * What the storefront's API routes share: the JSON response they send, the
 * outcome of a call into the content service or the session library (a
 * value, or an exception), and the user record with its password hash kept
 * out of every response.
 */
module Api {
  import opened Js

  /** A route's JSON reply: status 200 with a body, or an error status with `{ error }`. */
  datatype Response<T> = Success(body: T) | Failure(status: int, error: string)

  /** The outcome of an awaited call the route does not define: its value, or a thrown exception. */
  datatype Call<T> = Returned(value: T) | Threw

  /**
   * A user object from the content service. `metadata` holds the account's
   * fields (email, full name, password_hash, last login, ...) by key.
   */
  datatype User = User(id: string, slug: string, title: string, metadata: map<string, string>)

  const PasswordHashKey: string := "password_hash"

  /** `const { password_hash, ...userMetadata } = user.metadata` and `{ ...user, metadata: userMetadata }`. */
  function WithoutPasswordHash(user: User): (r: User)
    ensures PasswordHashKey !in r.metadata
    ensures r.id == user.id && r.slug == user.slug && r.title == user.title
    ensures forall key :: key in user.metadata && key != PasswordHashKey ==>
              key in r.metadata && r.metadata[key] == user.metadata[key]
    ensures forall key :: key in r.metadata ==> key in user.metadata
  {
    user.(metadata := user.metadata - {PasswordHashKey})
  }

  /** `!x` for a string field of a request body: missing (or null) and "" are falsy. */
  predicate Falsy(s: Option<string>) {
    s.None? || s.value == ""
  }
}
