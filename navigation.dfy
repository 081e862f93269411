/**
 * Route parameters passed by value between screens. A screen reads its
 * parameters with `const { userName = "Guest", email = "" } = route.params || {}`:
 * absent parameters, or an absent parameter object, fall back to defaults.
 */
module Navigation {
  import opened Wrappers

  /** The parameter object a route receives; `None` is an absent key. */
  datatype RouteParams = RouteParams(userName: Option<string>, email: Option<string>, travelType: Option<string>)

  /** The user's display name and email, carried from screen to screen. */
  datatype Identity = Identity(userName: string, email: string)

  const GuestName := "Guest"

  /** `route.params || {}`. */
  function ParamsOrEmpty(params: Option<RouteParams>): RouteParams {
    params.GetOr(RouteParams(None, None, None))
  }

  /**
   * The identity a screen resolves from its route parameters: each key falls
   * back to its default on its own, whether the key or the whole object is absent.
   */
  function IdentityOf(params: Option<RouteParams>): (id: Identity)
    ensures params.None? || params.value.userName.None? ==> id.userName == GuestName
    ensures params.None? || params.value.email.None? ==> id.email == ""
    ensures params.Some? && params.value.userName.Some? ==> id.userName == params.value.userName.value
    ensures params.Some? && params.value.email.Some? ==> id.email == params.value.email.value
  {
    var p := ParamsOrEmpty(params);
    Identity(p.userName.GetOr(GuestName), p.email.GetOr(""))
  }

  /** The travel type the destinations screen filters by; `""` when absent. */
  function TravelTypeOf(params: Option<RouteParams>): (t: string)
    ensures params.None? || params.value.travelType.None? ==> t == ""
    ensures params.Some? && params.value.travelType.Some? ==> t == params.value.travelType.value
  {
    ParamsOrEmpty(params).travelType.GetOr("")
  }

  /** `{ userName, email }`: the parameters a screen forwards to the next one. */
  function Forward(id: Identity): RouteParams {
    RouteParams(Some(id.userName), Some(id.email), None)
  }

  /** Forwarded identity arrives unchanged: no screen substitutes a default for it. */
  lemma ForwardedIdentityArrives(id: Identity)
    ensures IdentityOf(Some(Forward(id))) == id
    ensures TravelTypeOf(Some(Forward(id))) == ""
  {
  }

  /**
   * Every route name a navigator of the app registers: the root stack
   * (`Login`, `DrawerNavigator`), the drawer and its stacks, and the tab
   * navigator and its stacks. There is no `Nearby` among them.
   */
  const RegisteredRoutes: set<string> := {
    "Login", "DrawerNavigator",
    "Home", "Profile", "Settings", "HomeScreen", "TabNavigator", "ProfileScreen", "SettingsScreen",
    "Survey", "Results", "SurveyForm", "SurveyResults"}

  /** The routes with the destinations tab that the survey's button names. */
  const RoutesWithNearby: set<string> := RegisteredRoutes + {"Nearby"}

  /**
   * `navigation.navigate(name, params)` over a flat set of route names: a name
   * outside the set is handled by no navigator and delivers nothing. Which
   * navigator may handle a name inside the set (the caller's own or one of its
   * parents) is not modelled.
   */
  function Navigate(routes: set<string>, name: string, params: RouteParams): (delivered: Option<RouteParams>)
    ensures delivered.Some? <==> name in routes
    ensures delivered.Some? ==> delivered.value == params
  {
    if name in routes then Some(params) else None
  }

  /** As written, a navigation to `Nearby` reaches no screen, whatever it carries. */
  lemma NearbyNotRegistered(params: RouteParams)
    ensures Navigate(RegisteredRoutes, "Nearby", params) == None
  {
  }

  /**
   * With a `Nearby` route registered, its parameters arrive unchanged, and
   * every navigation that worked before still delivers the same parameters.
   */
  lemma NearbyRegistered(params: RouteParams, name: string, other: RouteParams)
    ensures Navigate(RoutesWithNearby, "Nearby", params) == Some(params)
    ensures Navigate(RegisteredRoutes, name, other).Some? ==>
              Navigate(RoutesWithNearby, name, other) == Navigate(RegisteredRoutes, name, other)
  {
  }
}
