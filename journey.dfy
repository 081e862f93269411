/**
 * The screens together: the identity accepted at login travels by route
 * parameters to the survey, and the survey's "Find Nearby Destinations"
 * button names a `Nearby` route carrying the identity and the chosen travel
 * type. No navigator registers that route, so as written the parameters
 * reach no screen; the destinations leg below is composed over the routes
 * with `Nearby` registered, the evident intent.
 */
module Journey {
  import opened Wrappers
  import opened Navigation
  import opened Ranking
  import JsText
  import EmailPattern
  import Login
  import Survey
  import Nearby

  /**
   * The identity forwarded by a successful login reaches the survey
   * unchanged and prefills its name. The survey's navigation to `Nearby`
   * reaches nothing as written; with the route registered, the destinations
   * screen resolves the same identity and the chosen travel type.
   */
  lemma IdentityPropagates(userName: string, email: string, travelType: string)
    ensures var toDrawer := Navigate(RegisteredRoutes, "DrawerNavigator", Forward(Identity(userName, email)));
            toDrawer.Some? &&
            var survey := IdentityOf(toDrawer);
            survey == Identity(userName, email) &&
            Survey.InitialForm(survey.userName).name == userName &&
            var toNearby := RouteParams(Some(survey.userName), Some(survey.email), Some(travelType));
            Navigate(RegisteredRoutes, "Nearby", toNearby) == None &&
            var arrived := Navigate(RoutesWithNearby, "Nearby", toNearby);
            arrived.Some? && IdentityOf(arrived) == survey && TravelTypeOf(arrived) == travelType
  {
    ForwardedIdentityArrives(Identity(userName, email));
    NearbyNotRegistered(RouteParams(Some(userName), Some(email), Some(travelType)));
    NearbyRegistered(RouteParams(Some(userName), Some(email), Some(travelType)), "Nearby",
                     RouteParams(Some(userName), Some(email), Some(travelType)));
  }

  /** Ana's name and email pass the login validation. */
  lemma AnaCredentialsAccepted()
    ensures !JsText.AllWhitespace("Ana") && EmailPattern.Matches("ana@x.com")
    ensures Login.FormErrors("Ana", "ana@x.com") == map[]
  {
    assert EmailPattern.AtDotWitness("ana@x.com", 3, 5);
    EmailPattern.MatchesIffAtDot("ana@x.com");
    assert !JsText.IsWhitespace("Ana"[0]);
    Login.NoErrorsIff("Ana", "ana@x.com");
  }

  /** A user types a name and an email that pass validation and presses Login. */
  method LogIn(userName: string, email: string) returns (toDrawer: Option<RouteParams>)
    requires !JsText.AllWhitespace(userName) && EmailPattern.Matches(email)
    ensures toDrawer == Some(Forward(Identity(userName, email)))
  {
    var login := new Login.LoginScreen();
    login.ChangeUserName(userName);
    login.ChangeEmail(email);
    assert login.userName == userName && login.email == email;
    Login.NoErrorsIff(userName, email);
    toDrawer := login.HandleLogin();
  }

  /** With those parameters, Ana gives her age, picks Food and Japan and submits. */
  method AnaAnswersSurvey(params: Option<RouteParams>, isNaN: string -> bool) returns (alert: Survey.SubmitAlert)
    requires params == Some(Forward(Identity("Ana", "ana@x.com"))) && !isNaN("30")
    ensures alert.recommendation == "sushi making in Tokyo"
    ensures alert.findNearby == RouteParams(Some("Ana"), Some("ana@x.com"), Some("Food"))
    ensures alert.viewResults.userName == "Ana" && alert.viewResults.recommendation == "sushi making in Tokyo"
  {
    var survey := new Survey.SurveyScreen(params, isNaN);
    survey.ChangeAge("30");
    survey.SelectTravelType("Food");
    survey.SelectCountry("Japan");
    Survey.NoErrorsIff(survey.formData, isNaN);
    Survey.FoodInJapan();
    var submitted := survey.HandleSubmit();
    alert := submitted.value;
  }

  /** The destinations screen opened from the survey, once the position is known. */
  method AnaSeesNearby(params: RouteParams, here: Coordinates, distanceKm: (Coordinates, Coordinates) -> real)
    returns (shown: seq<RankedDestination>)
    requires params == RouteParams(Some("Ana"), Some("ana@x.com"), Some("Food"))
    ensures shown != [] && forall x | x in shown :: x.travelType == "Food"
  {
    var nearby := new Nearby.NearbyScreen(Some(params));
    nearby.GetLocationAsync(Nearby.Located(Some(here)), distanceKm);
    shown := nearby.FilteredDestinations();
    Nearby.SurveyChoiceNeverEmpty(here, distanceKm, "Food");
  }

  /**
   * Ana logs in, answers the survey with Food and Japan and is recommended
   * sushi making in Tokyo. Her "Find Nearby Destinations" navigation reaches
   * no screen as written; with the `Nearby` route registered, and once her
   * position is known, she is shown only food destinations, at least one.
   */
  method AnaJourney(isNaN: string -> bool, here: Coordinates, distanceKm: (Coordinates, Coordinates) -> real)
    returns (recommendation: string, toNearby: RouteParams, shown: seq<RankedDestination>)
    requires !isNaN("30")
    ensures recommendation == "sushi making in Tokyo"
    ensures toNearby == RouteParams(Some("Ana"), Some("ana@x.com"), Some("Food"))
    ensures Navigate(RegisteredRoutes, "Nearby", toNearby) == None
    ensures shown != [] && forall x | x in shown :: x.travelType == "Food"
  {
    AnaCredentialsAccepted();
    var toDrawer := LogIn("Ana", "ana@x.com");
    var alert := AnaAnswersSurvey(toDrawer, isNaN);
    recommendation := alert.recommendation;
    toNearby := alert.findNearby;
    NearbyNotRegistered(toNearby);
    NearbyRegistered(toNearby, "Nearby", toNearby);
    var delivered := Navigate(RoutesWithNearby, "Nearby", toNearby);
    shown := AnaSeesNearby(delivered.value, here, distanceKm);
  }
}
