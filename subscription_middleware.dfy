/**
 * The backend's subscription gate: a middleware run on every request that
 * lets anonymous users, staff, superusers and a few public routes through,
 * and otherwise demands a subscription that is neither blocked nor inactive,
 * marking it EXPIRED or EXPIRING on the way and telling the client how many
 * days remain when five or fewer do.
 */
module SubscriptionMiddleware {
  import opened Common

  /** The URL names served without a subscription. */
  const WhitelistedUrlNames: seq<string> := ["login", "register", "payment-initiate", "payment-callback"]

  /** A subscription status the gate writes, or any other it leaves alone. */
  datatype SubStatus = Expired | Expiring | OtherStatus(name: string)

  /** The reply the gate produces: the downstream view's response, or its own JSON refusal. */
  datatype Response = Downstream | Json(status: int, detail: string, code: string)

  const NoSubscriptionMessage := "No active subscription. Please subscribe to continue."
  const BlockedMessage := "Your account has been blocked. Contact support."
  const ExpiredMessage := "Your subscription has expired. Please renew."

  /** `_blocked_response(message)` */
  function BlockedResponse(message: string): (r: Response)
    ensures r.Json? && r.status == 402 && r.code == "SUBSCRIPTION_REQUIRED" && r.detail == message
  {
    Json(402, message, "SUBSCRIPTION_REQUIRED")
  }

  /**
   * `resolved.url_name in WHITELISTED_URL_NAMES`, where `None` stands for a
   * path `resolve` raised on: such a path is not whitelisted.
   */
  predicate Whitelisted(urlName: Option<string>)
  {
    urlName.Some? && urlName.value in WhitelistedUrlNames
  }

  /** The user as the gate sees it. */
  datatype User = User(authenticated: bool, superuser: bool, staff: bool)

  /**
   * What the subscription answers when asked: `is_blocked`,
   * `is_active()`, `days_remaining()` and its stored status.
   */
  datatype SubView = SubView(isBlocked: bool, isActive: bool, daysRemaining: int, status: SubStatus)

  /** Everything one pass through the gate decides. */
  datatype Effect = Effect(
    response: Response,
    touches: bool,                 // the subscription is looked up at all
    newStatus: Option<SubStatus>,  // the status written and saved, if any
    warning: Option<bool>,         // `request.subscription_warning`, if set
    days: Option<int>,             // `request.days_remaining`, if set
    attach: bool)                  // `request.subscription` is set

  /** The bypasses before any subscription is looked at. */
  predicate Bypassed(user: User, urlName: Option<string>)
  {
    !user.authenticated || user.superuser || user.staff || Whitelisted(urlName)
  }

  /** `__call__`, as a decision: `sub` is `None` when the user has no subscription. */
  function Gate(user: User, urlName: Option<string>, sub: Option<SubView>): Effect
  {
    if Bypassed(user, urlName) then Effect(Downstream, false, None, None, None, false)
    else if sub.None? then Effect(BlockedResponse(NoSubscriptionMessage), true, None, None, None, false)
    else
      var s := sub.value;
      if s.isBlocked then Effect(BlockedResponse(BlockedMessage), true, None, None, None, false)
      else if !s.isActive then Effect(BlockedResponse(ExpiredMessage), true, Some(Expired), None, None, false)
      else if s.daysRemaining <= 5 then
        Effect(Downstream, true, if s.status != Expiring then Some(Expiring) else None, Some(true), Some(s.daysRemaining), true)
      else Effect(Downstream, true, None, Some(false), None, true)
  }

  /**
   * Anonymous users, staff, superusers and whitelisted routes go straight
   * downstream: no subscription is read or written and nothing is attached.
   */
  lemma BypassSpec(user: User, urlName: Option<string>, sub: Option<SubView>)
    ensures Bypassed(user, urlName) ==> Gate(user, urlName, sub) == Effect(Downstream, false, None, None, None, false)
    ensures Whitelisted(urlName) <==>
              (urlName.Some? &&
               (urlName.value == "login" || urlName.value == "register" ||
                urlName.value == "payment-initiate" || urlName.value == "payment-callback"))
    ensures !Whitelisted(None)
  {
  }

  /** Every refusal is a 402 with code SUBSCRIPTION_REQUIRED, and refusals are never sent downstream. */
  lemma RefusalsSpec(user: User, urlName: Option<string>, sub: Option<SubView>)
    ensures var e := Gate(user, urlName, sub);
            && (e.response.Json? ==> e.response.status == 402 && e.response.code == "SUBSCRIPTION_REQUIRED")
            && (e.response.Json? ==> !e.attach && e.warning.None? && e.days.None?)
            && (e.response.Downstream? <==>
                  Bypassed(user, urlName) || (sub.Some? && !sub.value.isBlocked && sub.value.isActive))
  {
  }

  /**
   * The refusals in their order: no subscription; blocked, whatever its
   * activity and with its status untouched; inactive, after EXPIRED is saved.
   */
  lemma CheckOrder(user: User, urlName: Option<string>, sub: Option<SubView>)
    requires !Bypassed(user, urlName)
    ensures sub.None? ==> Gate(user, urlName, sub).response == BlockedResponse(NoSubscriptionMessage)
    ensures sub.Some? && sub.value.isBlocked ==>
              Gate(user, urlName, sub).response == BlockedResponse(BlockedMessage) && Gate(user, urlName, sub).newStatus.None?
    ensures sub.Some? && !sub.value.isBlocked && !sub.value.isActive ==>
              Gate(user, urlName, sub).response == BlockedResponse(ExpiredMessage) && Gate(user, urlName, sub).newStatus == Some(Expired)
  {
  }

  /**
   * On the pass path the warning is on, with the days attached, exactly when
   * five or fewer days remain; EXPIRING is written only when not already set.
   */
  lemma WarningSpec(user: User, urlName: Option<string>, s: SubView)
    requires !Bypassed(user, urlName) && !s.isBlocked && s.isActive
    ensures var e := Gate(user, urlName, Some(s));
            && e.attach
            && (e.warning == Some(true) <==> s.daysRemaining <= 5)
            && (e.days.Some? <==> s.daysRemaining <= 5)
            && (e.days.Some? ==> e.days.value == s.daysRemaining)
            && (e.newStatus.Some? <==> s.daysRemaining <= 5 && s.status != Expiring)
            && (e.newStatus.Some? ==> e.newStatus.value == Expiring)
  {
  }

  /** A second pass over the subscription the first one left writes nothing more and decides the same. */
  lemma ExpiringIdempotent(user: User, urlName: Option<string>, s: SubView)
    ensures var first := Gate(user, urlName, Some(s));
            var after := if first.newStatus.Some? then s.(status := first.newStatus.value) else s;
            var second := Gate(user, urlName, Some(after));
            && (!s.isBlocked && s.isActive ==> second.newStatus.None?)
            && second.response == first.response && second.warning == first.warning && second.days == first.days
  {
  }

  // ---------------------------------------------------------------- the stateful middleware

  /** A subscription row: the stored status it is saved with and the answers of its opaque methods. */
  class Subscription {
    var status: SubStatus
    var saves: seq<SubStatus>   // the statuses saved with `save(update_fields=['status'])`, in order
    const isBlocked: bool
    const active: bool          // what `is_active()` returns
    const daysLeft: int         // what `days_remaining()` returns

    constructor (status: SubStatus, isBlocked: bool, active: bool, daysLeft: int)
      ensures this.status == status && saves == []
      ensures this.isBlocked == isBlocked && this.active == active && this.daysLeft == daysLeft
    {
      this.status := status;
      saves := [];
      this.isBlocked := isBlocked;
      this.active := active;
      this.daysLeft := daysLeft;
    }

    function View(): SubView
      reads this
    {
      SubView(isBlocked, active, daysLeft, status)
    }

    /** `subscription.status = s; subscription.save(update_fields=['status'])` */
    method SaveStatus(s: SubStatus)
      modifies this
      ensures status == s && saves == old(saves) + [s]
    {
      status := s;
      saves := saves + [s];
    }
  }

  /** The attributes the gate may set on a request. */
  class Request {
    var subscriptionWarning: Option<bool>
    var daysRemaining: Option<int>
    var subscription: Subscription?

    constructor ()
      ensures subscriptionWarning.None? && daysRemaining.None? && subscription == null
    {
      subscriptionWarning := None;
      daysRemaining := None;
      subscription := null;
    }
  }

  /** The middleware, counting how often it handed a request downstream. */
  class Middleware {
    var downstreamCalls: nat

    constructor ()
      ensures downstreamCalls == 0
    {
      downstreamCalls := 0;
    }

    /** `self.get_response(request)` */
    method GetResponse() returns (r: Response)
      modifies this
      ensures r == Downstream && downstreamCalls == old(downstreamCalls) + 1
    {
      downstreamCalls := downstreamCalls + 1;
      r := Downstream;
    }

    /**
     * `__call__(request)`. `urlName` is what `resolve(request.path)` gave
     * (`None` when it raised) and `sub` the user's subscription (`null`
     * when there is none). The new state is the one `Gate` decides.
     */
    method Call(user: User, urlName: Option<string>, request: Request, sub: Subscription?) returns (response: Response)
      modifies this, request, sub
      ensures var e := Gate(user, urlName, if sub == null then None else Some(old(sub.View())));
              && response == e.response
              && downstreamCalls == old(downstreamCalls) + (if response.Downstream? then 1 else 0)
              && (sub != null ==>
                    && sub.status == (if e.newStatus.Some? then e.newStatus.value else old(sub.status))
                    && sub.saves == old(sub.saves) + (if e.newStatus.Some? then [e.newStatus.value] else []))
              && request.subscriptionWarning == (if e.warning.Some? then e.warning else old(request.subscriptionWarning))
              && request.daysRemaining == (if e.days.Some? then e.days else old(request.daysRemaining))
              && request.subscription == (if e.attach then sub else old(request.subscription))
    {
      if !user.authenticated {
        response := GetResponse();
        return;
      }
      if user.superuser || user.staff {
        response := GetResponse();
        return;
      }
      if urlName.Some? && urlName.value in WhitelistedUrlNames {
        response := GetResponse();
        return;
      }
      if sub == null {
        return BlockedResponse(NoSubscriptionMessage);
      }
      if sub.isBlocked {
        return BlockedResponse(BlockedMessage);
      }
      if !sub.active {
        sub.SaveStatus(Expired);
        return BlockedResponse(ExpiredMessage);
      }
      var daysRemaining := sub.daysLeft;
      if daysRemaining <= 5 {
        if sub.status != Expiring {
          sub.SaveStatus(Expiring);
        }
        request.subscriptionWarning := Some(true);
        request.daysRemaining := Some(daysRemaining);
      } else {
        request.subscriptionWarning := Some(false);
      }
      request.subscription := sub;
      response := GetResponse();
    }
  }
}
