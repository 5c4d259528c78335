/** What every page reads from the shared session context: a status and, once
    signed in, the session user with the fields the auth callbacks add. */
module Session {
  import opened JsValues

  datatype Status = Loading | Authenticated | Unauthenticated

  /** The session user; `role`, `level` and `examPassed` are optional, and
      `id` and `name` may be missing too when a page reads them untyped. */
  datatype SessionUser = SessionUser(
    id: Option<string>,
    name: Option<string>,
    role: Option<string>,
    level: Option<int>,
    examPassed: Option<bool>)

  /** `(session?.user as any)?.role === "admin"`. */
  predicate IsAdminSession(session: Option<SessionUser>) {
    session.Some? && session.value.role == Some("admin")
  }
}
