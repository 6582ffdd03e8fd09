/**
 * The role gate the routers import (`get_user_role`, `ensure_role`, `ensure_admin`). Their
 * definitions are not part of this model; the role lookup is abstract: it resolves a user
 * name to the role of an existing, active user, or to nothing.
 */
module Access {
  import opened Common

  type RoleLookup = string -> Option<string>

  /** `ensure_role(client, username, allowed)`: refuses with 403 unless the resolved role is listed. */
  function EnsureRole(role: RoleLookup, username: string, allowed: seq<string>): (r: Result<string>)
    ensures r.Ok? <==> role(username).Some? && role(username).value in allowed
    ensures r.Ok? ==> r.value == role(username).value
    ensures r.Err? ==> r.error == Forbidden
  {
    match role(username)
    case Some(x) => if x in allowed then Ok(x) else Err(Forbidden)
    case None => Err(Forbidden)
  }

  /** `ensure_admin(client, username)`. */
  function EnsureAdmin(role: RoleLookup, username: string): (r: Result<string>)
    ensures r.Ok? <==> role(username) == Some("admin")
    ensures r.Err? ==> r.error == Forbidden
  {
    EnsureRole(role, username, ["admin"])
  }

  /**
   * A refusal raised inside a handler's `try: ... except Exception` reaches the client as 500:
   * the 403 is itself an `Exception`.
   */
  lemma RefusalInsideTry(role: RoleLookup, username: string, allowed: seq<string>)
    requires role(username).None? || role(username).value !in allowed
    ensures EnsureRole(role, username, allowed).Err? && EnsureRole(role, username, allowed).error.Status() == 403
    ensures Caught(EnsureRole(role, username, allowed)) == Err(ServerError)
  {
  }
}
