/**
 * The REST framework permission classes: admin-only access, admin-or-read-
 * only access, and access for users whose subscription is active.
 */
module Permissions {

  /** `request.user`: whether it is set at all, and its flags. */
  datatype User = User(present: bool, authenticated: bool, staff: bool, superuser: bool)

  /** `permissions.SAFE_METHODS` */
  const SafeMethods: set<string> := {"GET", "HEAD", "OPTIONS"}

  predicate IsAdmin(u: User)
  {
    u.staff || u.superuser
  }

  /** The first `IsAdminUser`: a staff user or a superuser. */
  predicate FirstIsAdminUser(u: User)
  {
    u.present && IsAdmin(u)
  }

  /**
   * `IsAdminUser` as the module ends up binding it: the second definition
   * replaces the first, and also asks that the user be authenticated.
   */
  predicate IsAdminUser(u: User)
  {
    u.present && u.authenticated && IsAdmin(u)
  }

  /** The effective rule is the first one narrowed to authenticated users, and no wider. */
  lemma ShadowedRuleIsStricter(u: User)
    ensures IsAdminUser(u) ==> FirstIsAdminUser(u)
    ensures FirstIsAdminUser(u) && !IsAdminUser(u) <==> u.present && !u.authenticated && IsAdmin(u)
  {
  }

  /** `IsAdminOrReadOnly`: every safe method for anyone, anything else for staff and superusers only. */
  predicate IsAdminOrReadOnly(verb: string, u: User)
  {
    verb in SafeMethods || (u.present && IsAdmin(u))
  }

  /** Only staff and superusers may change anything; reading is open to every request, even without a user. */
  lemma IsAdminOrReadOnlySpec(verb: string, u: User)
    ensures !(u.present && IsAdmin(u)) && IsAdminOrReadOnly(verb, u) ==> verb in SafeMethods
    ensures u.present && IsAdmin(u) ==> forall v :: IsAdminOrReadOnly(v, u)
    ensures verb in SafeMethods ==> IsAdminOrReadOnly(verb, u)
    ensures verb !in SafeMethods ==> (IsAdminOrReadOnly(verb, u) <==> u.present && (u.staff || u.superuser))
    ensures IsAdminOrReadOnly("GET", u) && IsAdminOrReadOnly("HEAD", u) && IsAdminOrReadOnly("OPTIONS", u)
  {
  }

  /** What `request.user.subscription.is_active()` does: answer, or raise (no subscription, or any error). */
  datatype SubLookup = Found(active: bool) | Raises

  /** `HasActiveSubscription`; the user must be set, since its flags are read outside the `try`. */
  predicate HasActiveSubscription(u: User, lookup: SubLookup)
    requires u.present
  {
    if IsAdmin(u) then true
    else match lookup
      case Found(active) => active
      case Raises => false
  }

  /** A user who is not staff or a superuser passes only on a subscription that answers active. */
  lemma HasActiveSubscriptionSpec(u: User, lookup: SubLookup)
    requires u.present
    ensures !IsAdmin(u) && HasActiveSubscription(u, lookup) ==> lookup == Found(true)
    ensures IsAdmin(u) ==> forall l :: HasActiveSubscription(u, l)
    ensures IsAdmin(u) ==> HasActiveSubscription(u, lookup)
    ensures !IsAdmin(u) ==> (HasActiveSubscription(u, lookup) <==> lookup.Found? && lookup.active)
    ensures lookup.Raises? ==> (HasActiveSubscription(u, lookup) <==> IsAdmin(u))
  {
  }
}
