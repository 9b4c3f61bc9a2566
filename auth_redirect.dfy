/**
 * The client's authentication guard: on every route change the app reads the
 * stored access token and, when there is none, sends the browser to the
 * login page unless it is already on a public page.
 */
module AuthRedirect {
  import opened Common

  /** The pages reachable without a token. */
  const PublicPaths: seq<string> := ["/login", "/register"]

  /** `!token`, for what `localStorage.getItem` returns: `null` or the stored text. */
  predicate Falsy(token: Option<string>)
  {
    token.None? || token.value == ""
  }

  /** The condition of the effect. */
  predicate ShouldRedirect(token: Option<string>, path: string)
  {
    Falsy(token) && path !in PublicPaths
  }

  /** A `navigate(to, { replace })` call. */
  datatype Navigation = Navigate(to: string, replace: bool)

  /** One run of the effect: the navigation it makes, if any. */
  function EffectRun(token: Option<string>, path: string): (r: Option<Navigation>)
    ensures r.Some? <==> Falsy(token) && path != "/login" && path != "/register"
    ensures r.Some? ==> r.value == Navigate("/login", true)
    ensures Truthy(if token.Some? then Str(token.value) else Null) ==> r.None?
  {
    if ShouldRedirect(token, path) then Some(Navigate("/login", true)) else None
  }

  /** A render: the token the store holds at that moment and the current pathname. */
  datatype Render = Render(token: Option<string>, path: string)

  /**
   * Whether the effect runs at render `i`: on the first render, and on every
   * later one whose pathname differs from the previous render's.
   */
  predicate Runs(renders: seq<Render>, i: nat)
    requires i < |renders|
  {
    i == 0 || renders[i].path != renders[i - 1].path
  }

  /** The navigations the guard makes over a sequence of renders, in order. */
  function Navigations(renders: seq<Render>): seq<Navigation>
    decreases |renders|
  {
    if renders == [] then []
    else
      var n := |renders| - 1;
      var now := if Runs(renders, n) then EffectRun(renders[n].token, renders[n].path) else None;
      Navigations(renders[..n]) + (if now.Some? then [now.value] else [])
  }

  /**
   * Over any sequence of renders, every navigation is a replacing one to the
   * login page, there is at most one per render, and there are none at all
   * when every render had a token or every render was on a public page.
   */
  lemma {:induction false} NavigationsSpec(renders: seq<Render>)
    ensures forall i :: 0 <= i < |Navigations(renders)| ==> Navigations(renders)[i] == Navigate("/login", true)
    ensures |Navigations(renders)| <= |renders|
    ensures (forall i :: 0 <= i < |renders| ==> !Falsy(renders[i].token)) ==> Navigations(renders) == []
    ensures (forall i :: 0 <= i < |renders| ==> renders[i].path in PublicPaths) ==> Navigations(renders) == []
    decreases |renders|
  {
    if renders != [] {
      var n := |renders| - 1;
      var init := renders[..n];
      assert forall i :: 0 <= i < |init| ==> init[i] == renders[i];
      NavigationsSpec(init);
    }
  }

  /**
   * A render whose pathname is new and that finds no token on a protected
   * page adds exactly one navigation; a render on an unchanged pathname adds
   * none, whatever the token.
   */
  lemma PathChangeRechecks(renders: seq<Render>, r: Render)
    ensures renders != [] && r.path == renders[|renders| - 1].path ==>
              Navigations(renders + [r]) == Navigations(renders)
    ensures (renders == [] || r.path != renders[|renders| - 1].path) && ShouldRedirect(r.token, r.path) ==>
              Navigations(renders + [r]) == Navigations(renders) + [Navigate("/login", true)]
  {
    assert (renders + [r])[..|renders|] == renders;
  }
}
