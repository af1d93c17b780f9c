// The dashboard's section guard: render nothing while the user is still
// unknown, else the route or the not-found page depending on permissions.

module SectionRoute {
  import opened Wrappers

  datatype MatchPermission = All | Any

  /** What the guard renders. */
  datatype Outcome = Nothing | Route | NotFound

  /** The `user` of the user context: not yet known (`undefined`), or known (which may be null). */
  datatype UserState<U> = Undefined | Known(user: U)

  /** `matchAll`: the permissions must all be held. */
  predicate MatchAll(m: MatchPermission) {
    m == All
  }

  /**
   * `hasSectionPermissions`: no permission list grants the section; otherwise
   * `hasAll` decides for "all" (the default) and `hasAny` for "any".
   */
  predicate HasSectionPermissions<P, U>(permissions: Option<seq<P>>, matchPermission: Option<MatchPermission>,
                                        user: U, hasAll: (seq<P>, U) -> bool, hasAny: (seq<P>, U) -> bool)
  {
    if permissions.None? then true
    else if MatchAll(matchPermission.GetOr(All)) then hasAll(permissions.value, user)
    else hasAny(permissions.value, user)
  }

  /** The permission helpers are passed in, since their definitions are not part of this model. */
  function Guard<P, U>(user: UserState<U>, permissions: Option<seq<P>>, matchPermission: Option<MatchPermission>,
                       hasAll: (seq<P>, U) -> bool, hasAny: (seq<P>, U) -> bool): (r: Outcome)
    ensures user.Undefined? <==> r == Nothing
    ensures user.Known? ==> (r == Route <==> HasSectionPermissions(permissions, matchPermission, user.user, hasAll, hasAny))
  {
    if user.Undefined? then Nothing
    else if HasSectionPermissions(permissions, matchPermission, user.user, hasAll, hasAny) then Route
    else NotFound
  }

  /** While the user is unknown nothing is rendered, whatever the permissions and helpers say. */
  lemma UndefinedUserRendersNothing<P, U>(permissions: Option<seq<P>>, matchPermission: Option<MatchPermission>,
                                         hasAll: (seq<P>, U) -> bool, hasAny: (seq<P>, U) -> bool)
    ensures Guard(Undefined, permissions, matchPermission, hasAll, hasAny) == Nothing
  {
  }

  /** Without a permission list a known user always gets the route, whatever the helpers say. */
  lemma NoPermissionsGrants<P, U>(user: U, matchPermission: Option<MatchPermission>,
                                  hasAll: (seq<P>, U) -> bool, hasAny: (seq<P>, U) -> bool)
    ensures Guard(Known(user), None, matchPermission, hasAll, hasAny) == Route
  {
  }

  /** An empty list takes no shortcut: the helper for the match mode decides. */
  lemma EmptyListAsksHelpers<P, U>(user: U, hasAll: (seq<P>, U) -> bool, hasAny: (seq<P>, U) -> bool)
    ensures Guard(Known(user), Some([]), Some(All), hasAll, hasAny) == (if hasAll([], user) then Route else NotFound)
    ensures Guard(Known(user), Some([]), Some(Any), hasAll, hasAny) == (if hasAny([], user) then Route else NotFound)
  {
  }

  /** Leaving the match mode out is the same as asking for "all". */
  lemma DefaultMatchIsAll<P, U>(user: UserState<U>, permissions: Option<seq<P>>,
                                hasAll: (seq<P>, U) -> bool, hasAny: (seq<P>, U) -> bool)
    ensures Guard(user, permissions, None, hasAll, hasAny) == Guard(user, permissions, Some(All), hasAll, hasAny)
  {
  }

  /** Once the user is known the outcome is the route or the not-found page, never nothing. */
  lemma KnownUserRouteOrNotFound<P, U>(user: U, permissions: Option<seq<P>>, matchPermission: Option<MatchPermission>,
                                       hasAll: (seq<P>, U) -> bool, hasAny: (seq<P>, U) -> bool)
    ensures Guard(Known(user), permissions, matchPermission, hasAll, hasAny) in {Route, NotFound}
  {
  }

  /**
   * When holding all of a non-empty list implies holding one of it, as the
   * helpers' names promise, a section open under "all" is open under "any".
   */
  lemma AllImpliesAny<P, U>(user: U, permissions: seq<P>, hasAll: (seq<P>, U) -> bool, hasAny: (seq<P>, U) -> bool)
    requires permissions != []
    requires hasAll(permissions, user) ==> hasAny(permissions, user)
    ensures Guard(Known(user), Some(permissions), Some(All), hasAll, hasAny) == Route ==>
      Guard(Known(user), Some(permissions), Some(Any), hasAll, hasAny) == Route
  {
  }
}
