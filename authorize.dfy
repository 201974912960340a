/** The role gate of the HTTP API (backend/src/auth/authorize.js): a request without an
    authenticated user is answered 401, one whose role is not allowed is answered 403, and
    any other request is passed on to the next handler. */
module Authorize {
  import opened Wrappers

  /** The authenticated user attached to a request; its role may be absent. */
  datatype User = User(role: Option<string>)

  /** What the gate does with a request: answer it with a status and an error text, or call
      `next()` and answer nothing. */
  datatype Outcome = Respond(status: nat, error: string) | Next

  const Unauthenticated: Outcome := Respond(401, "Unauthenticated")
  const Forbidden: Outcome := Respond(403, "Forbidden: insufficient permissions")

  /** `authorize(allowedRoles)(req, res, next)`, with `req.user` as `user`. */
  function Authorize(allowedRoles: seq<string>, user: Option<User>): (r: Outcome)
    ensures r == Unauthenticated <==> user.None?
    ensures r == Forbidden <==> user.Some? && !Includes(allowedRoles, user.value.role)
    ensures r == Next <==> user.Some? && Includes(allowedRoles, user.value.role)
  {
    if user.None? then Unauthenticated
    else if !Includes(allowedRoles, user.value.role) then Forbidden
    else Next
  }

  /** `authorize()`: the default role list. */
  const DefaultRoles: seq<string> := []

  /** Exactly one of the three outcomes happens on every call. */
  lemma OneOutcome(allowedRoles: seq<string>, user: Option<User>)
    ensures var r := Authorize(allowedRoles, user);
      r in {Unauthenticated, Forbidden, Next}
  {
  }

  /** With the default empty role list, every authenticated request is refused with 403. */
  lemma DefaultForbidsAll(user: User)
    ensures Authorize(DefaultRoles, Some(user)) == Forbidden
  {
  }

  /** Allowing more roles never turns a passed request into a refused one. */
  lemma MoreRolesAllowMore(allowed: seq<string>, more: seq<string>, user: Option<User>)
    requires forall r :: r in allowed ==> r in more
    ensures Authorize(allowed, user) == Next ==> Authorize(more, user) == Next
    ensures Authorize(more, user) == Forbidden ==> Authorize(allowed, user) == Forbidden
  {
  }
}
