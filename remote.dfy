/**
 * What a screen receives from the backend. The screens never inspect the HTTP
 * exchange itself: a request either fails (axios throws, or reading a nested
 * field of the envelope throws) or yields the field the screen reads.
 */
module Remote {

  datatype Option<+T> = None | Some(value: T) {
    /** `x || fallback` for a field that is either present or absent. */
    function GetOr(fallback: T): T {
      match this
      case Some(v) => v
      case None => fallback
    }
  }

  /** The outcome of one awaited request. */
  datatype Fetch<+T> = Failure(message: string) | Success(value: T)

  /** A JSON array field read with `Array.isArray` or `|| []`: `None` when absent or not an array. */
  type ListField<T> = Option<seq<T>>

  /** `s || fallback` on a string that may be absent: empty and absent both fall back. */
  function OrDefault(s: Option<string>, fallback: string): (r: string)
    ensures s.Some? && s.value != "" ==> r == s.value
    ensures s.None? || s.value == "" ==> r == fallback
  {
    if s.Some? && s.value != "" then s.value else fallback
  }

  /** `n || ""` on a numeric field that may be absent: `None` stands for the empty string, which 0 also yields. */
  function NumberOrEmpty(n: Option<int>): (r: Option<int>)
    ensures r.Some? <==> n.Some? && n.value != 0
    ensures r.Some? ==> r.value == n.value
  {
    if n.Some? && n.value != 0 then n else None
  }

  /** JavaScript truthiness of a string that may be absent (a token, a route parameter). */
  predicate Truthy(s: Option<string>) {
    s.Some? && s.value != ""
  }

  const TokenMissing: string := "Authentication token is missing."

  /** The message every list screen shows when its list cannot be loaded. */
  const LoadUsersFailed: string := "Failed to load users"

  /** The message the access-toggle screens show when the toggle request fails. */
  const UpdateAccessFailed: string := "Failed to update user access"
}
