/**
  * The two request guards: the protected procedure requires a signed-in user,
  * the admin procedure requires a user whose role is admin. Either one throws
  * before the handler runs or passes the context on unchanged.
  */
module Trpc {
  import opened Wrappers
  import opened Schema
  import opened Auth

  datatype Code = Unauthorized | Forbidden

  /** A TRPCError: its code and its message. */
  datatype TrpcError = TrpcError(code: Code, message: string)

  const UnauthedMessage: string := "Unauthorized: User must be logged in"
  const NotAdminMessage: string := "Forbidden: Admin role required"

  /** A request context: the user (null when unauthenticated) and everything else it carries. */
  datatype Ctx<+R> = Ctx(user: Option<Principal>, rest: R)

  /** The context a guarded handler receives: the user is known to be present. */
  datatype AuthedCtx<+R> = AuthedCtx(user: Principal, rest: R)

  function Widen<R>(c: AuthedCtx<R>): Ctx<R>
  {
    Ctx(Some(c.user), c.rest)
  }

  /** requireUser: UNAUTHORIZED without a user, otherwise the same context. */
  function RequireUser<R>(ctx: Ctx<R>): (r: Result<AuthedCtx<R>, TrpcError>)
    ensures r.Err? <==> ctx.user.None?
    ensures r.Err? ==> r.error == TrpcError(Unauthorized, UnauthedMessage)
    ensures r.Ok? ==> Widen(r.value) == ctx
  {
    if ctx.user.None? then Err(TrpcError(Unauthorized, UnauthedMessage))
    else Ok(AuthedCtx(ctx.user.value, ctx.rest))
  }

  /** The admin middleware: FORBIDDEN without a user or without the admin role, otherwise the same context. */
  function RequireAdmin<R>(ctx: Ctx<R>): (r: Result<AuthedCtx<R>, TrpcError>)
    ensures r.Ok? <==> ctx.user.Some? && ctx.user.value.role == AdminRole
    ensures r.Err? ==> r.error == TrpcError(Forbidden, NotAdminMessage)
    ensures r.Ok? ==> Widen(r.value) == ctx
  {
    if ctx.user.None? || ctx.user.value.role != AdminRole then Err(TrpcError(Forbidden, NotAdminMessage))
    else Ok(AuthedCtx(ctx.user.value, ctx.rest))
  }

  /** Every context the admin guard admits, the protected guard admits too, unchanged. */
  lemma AdminAdmittedByProtected<R>(ctx: Ctx<R>)
    requires RequireAdmin(ctx).Ok?
    ensures RequireUser(ctx) == RequireAdmin(ctx)
  {
  }

  /** The guards agree with the role predicate for the two roles. */
  lemma GuardsMatchPermission<R>(ctx: Ctx<R>)
    ensures RequireUser(ctx).Ok? <==> HasPermission(ctx.user, RoleName(UserRole))
    ensures RequireAdmin(ctx).Ok? <==> HasPermission(ctx.user, RoleName(AdminRole))
  {
  }
}
