/**
 * The route guard (`AdminProtectedRoute` in
 * components/AdminProtectedRoute.tsx): given the session's loading flag
 * and user, what it renders and whether its effect redirects.
 */
module RouteGuard {
  import opened Wrappers
  import opened Http
  import Session

  /** What the component renders. */
  datatype View = LoadingPlaceholder | Children | Nothing

  /** One evaluation: the rendered view, and the path the effect pushes, if any. */
  datatype Decision = Decision(view: View, redirectTo: Option<string>)

  /** `user && user.isAdmin`. */
  predicate IsAdmin(user: Option<Session.User>)
  {
    user.Some? && user.value.isAdmin
  }

  /** The effect: redirect to the login page once loading is over and no administrator is signed in. */
  function Redirect(isLoading: bool, user: Option<Session.User>): Option<string>
  {
    if !isLoading && !IsAdmin(user) then Some(Session.LoginPath) else None
  }

  /** The rendered output. */
  function Render(isLoading: bool, user: Option<Session.User>): View
  {
    if isLoading then LoadingPlaceholder
    else if IsAdmin(user) then Children
    else Nothing
  }

  function Decide(isLoading: bool, user: Option<Session.User>): (d: Decision)
    ensures isLoading ==> d == Decision(LoadingPlaceholder, None)
    ensures !isLoading ==> (d.view == Children <==> IsAdmin(user))
    ensures !isLoading && !IsAdmin(user) ==> d == Decision(Nothing, Some(Session.LoginPath))
    ensures d.view == Children ==> IsAdmin(user) && d.redirectTo == None
    ensures d.redirectTo.Some? ==> d.redirectTo.value == Session.LoginPath && d.view == Nothing
  {
    Decision(Render(isLoading, user), Redirect(isLoading, user))
  }

  /** The component: it reads the session through `useAuth`, which throws outside a provider. */
  function AdminProtectedRoute(context: Option<Session.ContextValue>): (r: Result<Decision, Error>)
    ensures r.Failure? <==> context.None?
    ensures r.Failure? ==> r.error == Session.OutsideProvider
    ensures r.Success? ==> r.value == Decide(context.value.isLoading, context.value.user)
  {
    match Session.UseAuth(context)
    case Failure(e) => Failure(e)
    case Success(v) => Success(Decide(v.isLoading, v.user))
  }

  /**
   * Over any reachable session, protected content is shown only when the
   * durable storage holds an administrator's record.
   */
  lemma ChildrenOnlyForStoredAdmin(s: Session.State)
    requires Session.Invariant(s)
    ensures Decide(s.isLoading, s.user).view == Children ==>
      IsAdmin(Session.StoredUser(s.storage))
  {
  }

  /**
   * Across a whole session, starting from mount, the guard never shows
   * protected content without an administrator record in storage.
   */
  lemma GuardSafeAlongRun(storage: Session.Storage, location: string, ops: seq<Session.Op>)
    ensures var s := Session.Run(Session.Initial(storage, location), ops);
      Decide(s.isLoading, s.user).view == Children ==> IsAdmin(Session.StoredUser(s.storage))
  {
    Session.InitialSatisfiesInvariant(storage, location);
    Session.RunPreservesInvariant(Session.Initial(storage, location), ops);
    ChildrenOnlyForStoredAdmin(Session.Run(Session.Initial(storage, location), ops));
  }

  /**
   * What a live provider publishes is safe to gate on: the guard never
   * throws under it, shows protected content only when storage holds an
   * administrator's record, and, once loading is over, shows it exactly then.
   */
  lemma ProviderGuardSafe(p: Session.AuthProvider)
    requires p.Valid()
    ensures AdminProtectedRoute(Some(p.Value())).Success?
    ensures AdminProtectedRoute(Some(p.Value())).value.view == Children ==>
      IsAdmin(Session.StoredUser(p.storage))
    ensures !p.isLoading ==>
      (AdminProtectedRoute(Some(p.Value())).value.view == Children <==> IsAdmin(Session.StoredUser(p.storage)))
  {
    ChildrenOnlyForStoredAdmin(p.Snapshot());
  }
}
