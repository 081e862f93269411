# Travel survey app: a verified model of its screen logic

This project models, in Dafny, the logic of three screens of a small React
Native travel survey app. Rendering is not modelled; of the navigation wiring,
only the set of route names the navigators register is.

- **Login gate** (`LoginScreen.js`). The form holds a name and an email and
  checks them: the name must not be blank after `trim`, and the email must
  not be blank and must match the unanchored pattern `\S+@\S+\.\S+`. Login
  navigates to the drawer navigator with the untouched field values only
  when there are no errors.
- **Travel survey** (`SurveyScreen.js`). A form record is edited field by
  field, and each edit clears that field's error. The validator checks the
  name, age, travel type and country. A fixed 4 x 8 table gives a
  recommendation, with a default string for pairs outside it. Submitting
  either stores the errors or offers navigation to the results or to the
  nearby destinations. No navigator registers the nearby route (see
  "## Findings").
- **Nearby destinations** (`NearbyDestinationsScreen.js`). There are six
  fixed destinations. A one-shot location fetch moves the screen from
  loading to an error message or to a ranked list. Ranking copies each
  destination with its distance and sorts the copies in place, stably, by
  ascending distance. The list shown is then filtered by the requested
  travel type.

Files (each holds one module):

- `wrappers.dfy`: `Option`.
- `text.dfy` (`JsText`): the ECMAScript whitespace class shared by `trim` and `\s`, and `trim` itself.
- `email.dfy` (`EmailPattern`): the pattern's language, the compiled test, and the `@`/`.` characterisation.
- `navigation.dfy`: route parameters and their `"Guest"`/`""` defaults, the registered route names, and the navigation action.
- `forms.dfy`: the per-field error state. `setErrors`, and clearing one entry to `null`.
- `login.dfy`, `survey.dfy`, `nearby.dfy`: one class per screen, holding the screen's state and handlers, plus the specification functions and lemmas.
- `ranking.dfy`: the map, the sort and the filter.
- `journey.dfy`: the screens composed, from login to the survey as written, and on to the filtered destination list over the routes with `Nearby` registered.

Where code updates state (component state, the array sorted in place), the
model does too. Screens are classes whose methods change their fields. The
sort is a method on an `array`, proved equal to a functional specification
(`StableSort`). Lemmas state the properties of that specification.

Behaviours of the code worth noting:

- Login forwards the raw `userName` and `email`, not trimmed values (`LoginScreen.js:37`). See `Login.ForwardsUntrimmedName`.
- The survey checks only that travel type and country are non-empty, not that they belong to the lists (`SurveyScreen.js:46-47`). The lists are enforced by the buttons, modelled as the invariant `SurveyScreen.Valid`.
- The age needs only to be non-empty and not `NaN`. There is no positivity check (`SurveyScreen.js:44`).
- A denied permission and a thrown location error give different messages (`NearbyDestinationsScreen.js:102, 141`).

## Model

| member | source | states |
|---|---|---|
| JsText.TrimStart | src/screens/LoginScreen.js:20 | the result is a suffix of the input, everything dropped is whitespace, and the result does not start with whitespace |
| JsText.TrimEnd | src/screens/LoginScreen.js:20 | the result is a prefix of the input, everything dropped is whitespace, and the result does not end with whitespace |
| JsText.Trim | src/screens/LoginScreen.js:20-21 | `trim` gives the empty string exactly when every character is whitespace; otherwise the result starts and ends with non-whitespace |
| EmailPattern.MatchesIffAtDot | src/screens/LoginScreen.js:23 | the unanchored `\S+@\S+\.\S+` matches iff some `@` at index a >= 1 has non-whitespace at a-1, some `.` at d >= a+2 has only non-whitespace between them, and d+1 holds non-whitespace |
| EmailPattern.Test | src/screens/LoginScreen.js:23 | a passing input contains an `@` and a `.` and has at least five characters |
| EmailPattern.TestIffMatches | src/screens/LoginScreen.js:23 | the compiled test succeeds exactly when some substring of the input is in the pattern's language |
| EmailPattern.Accepted | src/screens/LoginScreen.js:23 | `ana@x.com` passes, and so does an address inside longer text, since the pattern is unanchored |
| EmailPattern.Rejected | src/screens/LoginScreen.js:23 | inputs with no `.` after the `@`, nothing after the `.` (`ana@x.`), nothing before `@`, nothing between `@` and `.`, or a space before `@` fail |
| Login.FormErrorsMeaning | src/screens/LoginScreen.js:18-27 | a name error exactly when the name is all whitespace; "Email is required" exactly when the email is all whitespace; "Email address is invalid" exactly when it is not and the pattern fails; the two email errors never both |
| Login.NoErrorsIff | src/screens/LoginScreen.js:18-31 | the error map is empty iff the name has a non-whitespace character and the email matches the pattern |
| Login.ErrorsIndependent | src/screens/LoginScreen.js:18-27 | the name entry depends only on the name, the email entry only on the email |
| Login.BothErrorsAtOnce | src/screens/LoginScreen.js:18-27 | for every all-whitespace name and email, the errors are exactly "Name is required" and "Email is required" |
| Login.ForwardsUntrimmedName | src/screens/LoginScreen.js:37 | a name with surrounding spaces passes and is forwarded as typed |
| Login.LoginScreen.constructor | src/screens/LoginScreen.js:14-16 | both fields start empty, with no errors |
| Login.LoginScreen.ValidateForm | src/screens/LoginScreen.js:18-27 | the map built field by field equals the specification `FormErrors` |
| Login.LoginScreen.HandleLogin | src/screens/LoginScreen.js:29-38 | navigates iff the error map is empty, carrying the raw `{userName, email}`; otherwise stores the errors and does not navigate |
| Login.LoginScreen.ChangeUserName | src/screens/LoginScreen.js:55-58 | sets the name, nulls the name error if shown; email and the other error untouched |
| Login.LoginScreen.ChangeEmail | src/screens/LoginScreen.js:72-75 | sets the email, nulls the email error if shown; name and the other error untouched |
| Forms.Shown | src/screens/LoginScreen.js:32 | the stored error state has the validator's keys, each with its message, and shows a field exactly when the validator gave it a non-empty message |
| Login.RejectedLoginShowsReported | src/screens/LoginScreen.js:29-33 | after a rejected login, an error is shown under exactly the fields the validator reported |
| Forms.ClearError | src/screens/SurveyScreen.js:158 | clearing keeps every key, leaves every other entry unchanged, makes that entry not shown, and changes nothing when it was not shown |
| Navigation.IdentityOf | src/screens/SurveyScreen.js:29 | each key defaults on its own: an absent parameter object or an absent `userName` gives `"Guest"`, an absent object or `email` gives `""`; a present value is used as is |
| Navigation.TravelTypeOf | src/screens/NearbyDestinationsScreen.js:58-62 | an absent parameter object or an absent `travelType` gives `""`; a present value is used as is |
| Navigation.NearbyNotRegistered | src/navigation/TabNavigator.js:74-83 | as registered by `App.js`, the drawer and the tabs, a navigation to `Nearby` delivers nothing |
| Navigation.NearbyRegistered | src/screens/SurveyScreen.js:130-134 | with `Nearby` registered, its parameters arrive unchanged, and every navigation that worked before delivers the same parameters |
| Navigation.ForwardedIdentityArrives | src/screens/SurveyScreen.js:29 | a forwarded `{userName, email}` is read back unchanged, and the travel type is absent |
| Survey.InitialFormWellFormed | src/screens/SurveyScreen.js:31-38 | the initial form has the prefilled name, empty age, travel type, country and comments, and a budget on the slider grid 500..5000 step 50 |
| Survey.FormErrors | src/screens/SurveyScreen.js:41-49 | name error iff the name is `""` (no trimming); age error iff empty or `isNaN`; travel type or country error iff empty; no other keys; each entry carries its message: "Name is required", "Valid age is required", "Travel type is required", "Country is required" |
| Survey.BudgetAndCommentsIgnored | src/screens/SurveyScreen.js:41-49 | changing the budget or comments never changes the errors |
| Survey.BlankNameAccepted | src/screens/SurveyScreen.js:43 | every non-empty whitespace-only name passes the name check |
| Survey.NoErrorsIff | src/screens/SurveyScreen.js:41-49 | the error map is empty iff name, age, travel type and country are all filled and the age is a number |
| Survey.Recommendation | src/screens/SurveyScreen.js:94-97 | the result is the default or the table entry for the pair |
| Survey.TableShape | src/screens/SurveyScreen.js:52-93 | the table's rows are exactly the four travel types, each with exactly the eight countries, every entry non-empty and not the default |
| Survey.TableCoversChoices | src/screens/SurveyScreen.js:15-25 | every travel type x country pair from the two lists gets its own table entry, never the default |
| Survey.OutsideTableIsDefault | src/screens/SurveyScreen.js:94-97 | a pair outside the lists, neither value naming a property inherited from `Object.prototype`, yields "a custom travel experience" |
| Survey.FoodInJapan | src/screens/SurveyScreen.js:85 | Food and Japan give "sushi making in Tokyo" |
| Survey.AcceptedFormGetsTableEntry | src/screens/SurveyScreen.js:100-107 | a well-formed form that passes validation is recommended a table entry |
| Survey.SurveyScreen.constructor | src/screens/SurveyScreen.js:29-39 | the identity comes from the route with defaults, the form starts as the initial form with the name prefilled, and there are no errors |
| Survey.SurveyScreen.ValidateForm | src/screens/SurveyScreen.js:41-49 | the map built field by field equals the specification `FormErrors` |
| Survey.SurveyScreen.HandleSubmit | src/screens/SurveyScreen.js:100-139 | with errors: stores them, no alert. Without: the alert carries the table recommendation (never the default); Results gets `{formData, recommendation, userName, email}` with the route's user name; Nearby gets `{userName, email, travelType}` |
| Survey.SurveyScreen.ChangeName | src/screens/SurveyScreen.js:156-159 | replaces only the name and clears only the name error |
| Survey.SurveyScreen.ChangeAge | src/screens/SurveyScreen.js:170-173 | replaces only the age and clears only the age error |
| Survey.SurveyScreen.SelectTravelType | src/screens/SurveyScreen.js:190-194 | replaces only the travel type and clears only its error |
| Survey.SurveyScreen.SelectCountry | src/screens/SurveyScreen.js:222-225 | replaces only the country and clears only its error |
| Survey.SurveyScreen.ChangeBudget | src/screens/SurveyScreen.js:246-254 | replaces only the budget, a slider value, and touches no error |
| Survey.SurveyScreen.ChangeComments | src/screens/SurveyScreen.js:270-272 | replaces only the comments and touches no error |
| Ranking.WithDistances | src/screens/NearbyDestinationsScreen.js:119-131 | one copy per destination, in order; each copy is its destination plus the distance from the user, all other fields unchanged |
| Ranking.StableSort | src/screens/NearbyDestinationsScreen.js:134 | the sort keeps the length; its order is stated by the three lemmas below |
| Ranking.FilterCount | src/screens/NearbyDestinationsScreen.js:151 | filtering keeps each accepted element as often as it occurs and drops every other |
| Ranking.FilterIsSubsequence | src/screens/NearbyDestinationsScreen.js:151 | filtering keeps the original order |
| Ranking.FilterSorted | src/screens/NearbyDestinationsScreen.js:151 | filtering an ascending list leaves it ascending |
| Ranking.StableSortPermutes | src/screens/NearbyDestinationsScreen.js:134 | the sort's result is a permutation of its input |
| Ranking.StableSortSorted | src/screens/NearbyDestinationsScreen.js:134 | the sort's result is in ascending order of distance |
| Ranking.StableSortStable | src/screens/NearbyDestinationsScreen.js:134 | for every distance, the elements at that distance keep their input order |
| Ranking.InsertNext | src/screens/NearbyDestinationsScreen.js:134 | one in-place step moves the next element into the sorted prefix and leaves the rest of the array alone |
| Ranking.SortByDistance | src/screens/NearbyDestinationsScreen.js:134 | the in-place sort leaves the array equal to the stable ascending order of its old contents |
| Ranking.FilterByTravelType | src/screens/NearbyDestinationsScreen.js:150-152 | no travel type shows the list whole; a filtered list is never longer |
| Ranking.FilterByTravelTypeCounts | src/screens/NearbyDestinationsScreen.js:150-152 | with a travel type, exactly the entries of that type are shown, each as often as it occurs |
| Ranking.FilterByTravelTypeKeepsOrder | src/screens/NearbyDestinationsScreen.js:150-152 | an empty travel type shows the whole list; in all cases order is kept, so an ascending list stays ascending |
| Nearby.EveryTravelTypeHasDestination | src/screens/NearbyDestinationsScreen.js:17-54 | each of the four travel types occurs among the six destinations |
| Nearby.RankedFrom | src/screens/NearbyDestinationsScreen.js:119-136 | the ranked list has one entry per destination |
| Nearby.RankedFromProperties | src/screens/NearbyDestinationsScreen.js:119-136 | the stored list has six entries and is a permutation of the distance-tagged copies. It is ascending and stable, and each entry is a destination with its own distance |
| Nearby.SurveyChoiceNeverEmpty | src/screens/NearbyDestinationsScreen.js:150-152 | after a successful fetch, filtering by any travel type of the survey leaves at least one destination |
| Nearby.NearestRanksFirst | src/screens/NearbyDestinationsScreen.js:134 | a destination strictly nearer than all others is ranked first |
| Nearby.NearbyScreen.constructor | src/screens/NearbyDestinationsScreen.js:58-68 | identity and travel type come from the route with defaults; the screen starts loading, with no error, no location and no destinations |
| Nearby.NearbyScreen.GetLocationAsync | src/screens/NearbyDestinationsScreen.js:96-144 | every outcome ends with `loading` false. A denial sets "Location permission was denied"; an exception sets "Error getting location: " plus the message. Neither changes the list. A position is stored and the list becomes the ranked copies. The list stays ascending |
| Nearby.NearbyScreen.FilteredDestinations | src/screens/NearbyDestinationsScreen.js:150-152 | the whole list with no travel type; otherwise every entry of that type, as often as in the list, and no other; always in list order, so ascending |
| Journey.IdentityPropagates | src/screens/SurveyScreen.js:29-32 | the identity forwarded at login reaches the survey through a registered route and prefills the name; the survey's navigation to `Nearby` reaches nothing as written, and with the route registered the destinations screen resolves the same identity and the chosen travel type |
| Journey.LogIn | src/screens/LoginScreen.js:29-38 | typing a valid name and email and pressing Login navigates with exactly those values |
| Journey.AnaAnswersSurvey | src/screens/SurveyScreen.js:100-139 | after Ana's login, answering Food and Japan yields "sushi making in Tokyo" and Nearby parameters with travel type Food |
| Journey.AnaSeesNearby | src/screens/NearbyDestinationsScreen.js:150-152 | opened with travel type Food, after a successful fetch the screen shows a non-empty list of food destinations only |
| Journey.AnaJourney | src/screens/SurveyScreen.js:85 | login and survey composed: the recommendation is "sushi making in Tokyo"; the Nearby navigation carries Food and, as written, reaches nothing; with `Nearby` registered, only food destinations are shown, at least one |

## Left out

- The haversine distance (`NearbyDestinationsScreen.js:71-91`) is not modelled. It is floating-point trigonometry. Distances come from a caller-supplied function on coordinates, and are compared as reals.
- Distances are never NaN in the model, so the comparator `a.distance - b.distance` is a total order here.
- The location service and the asynchronous effect are not modelled. Permission requests, position requests and `useEffect` are replaced by the request's outcome, given as input: denied, a position (possibly absent), or an exception message.
- The race with unmounting the screen is not modelled; it is concurrency.
- The `location` state holds coordinates only. The rest of the location object, and its display with `toFixed(4)`, are not modelled.
- JavaScript's `isNaN` coercion of the age text is not modelled. It is a function supplied when the survey screen is created.
- The alert's message text is not modelled: string interpolation of age, travel type, country and budget. Only the recommendation and the two buttons' navigations are.
- `Array.prototype.sort` is modelled by an insertion sort. The engine's own algorithm is not, but any stable sort gives the same result.
- A route parameter passed as an explicit `null` is not modelled. Destructuring defaults apply only to absent values, so the model distinguishes only present and absent.
- React's state batching and stale closures are not modelled. Each handler runs to completion on the current state.
- Navigation.Navigate: route names are one flat set of every name any navigator registers. React Navigation's scoping, where only the calling screen's navigator or one of its parents handles an action, is not modelled. `NearbyNotRegistered` holds under any scoping, since no navigator registers `Nearby` at all.
- JSX rendering, `StyleSheet` blocks, `Alert.alert` and `navigation.navigate` are not modelled. Navigation is a returned value carrying its parameters.
- The drawer and tab navigators (`src/navigation/DrawerNavigator.js`, `src/navigation/TabNavigator.js`) and `App.js` are not part of this model beyond the route names they register (`Navigation.RegisteredRoutes`). The forwarding of `{userName, email}` into the tabs' `initialParams` is taken as given.
- Journey.IdentityPropagates, Journey.AnaJourney: the survey-to-destinations leg is composed over `Navigation.RoutesWithNearby`, the evident intent, because no navigator of the source registers a `Nearby` route. As written that navigation reaches no screen, and both members state this too.
- Survey.Recommendation, Survey.OutsideTableIsDefault: the table is a map, so a lookup with a property name inherited from `Object.prototype` (`"constructor"`, `"toString"`, `"__proto__"`, ...) gives the default here. The source's property lookup finds the inherited member instead, which is not a string. The form's buttons never produce such names, and `OutsideTableIsDefault` excludes them.
- The results, settings, home and profile screens are not part of this model. They show fixed data or only display values.

## Findings

| source | as written | input that shows it | evidently intended | confidence | as-written member | corrected member |
|---|---|---|---|---|---|---|
| src/screens/SurveyScreen.js:130-134 | "Find Nearby Destinations" navigates to `Nearby`, but no navigator registers that name. `TabNavigator.js:74-83` registers only `Survey` and `Results`, and no file imports the destinations screen | any accepted survey, e.g. Food and Japan; the button's navigation is handled by no navigator | a `Nearby` tab showing the destinations screen, receiving `{userName, email, travelType}` | high (not executed) | Navigation.NearbyNotRegistered | Navigation.NearbyRegistered |
