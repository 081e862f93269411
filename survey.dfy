/**
 * The travel survey (src/screens/SurveyScreen.js): a form record edited
 * field by field, a validator, a recommendation looked up in a fixed
 * travel type x country table, and a submit action that either blocks with
 * per-field errors or offers navigation to the results or the nearby
 * destinations.
 */
module Survey {
  import opened Wrappers
  import opened Navigation
  import opened Forms
  import JsText

  const TravelTypes: seq<string> := ["Adventure", "Relaxation", "Cultural", "Food"]
  const Countries: seq<string> := ["USA", "Japan", "Italy", "France", "Australia", "Thailand", "Spain", "Brazil"]

  /** The budget slider: from 500 to 5000 in steps of 50. */
  const BudgetMin := 500
  const BudgetMax := 5000
  const BudgetStep := 50

  predicate OnSlider(budget: int) {
    BudgetMin <= budget <= BudgetMax && (budget - BudgetMin) % BudgetStep == 0
  }

  datatype SurveyForm = SurveyForm(
    name: string, age: string, travelType: string, country: string, budget: int, comments: string)

  datatype Field = Name | Age | TravelType | Country

  /** The form a screen starts with: the name prefilled, the budget mid-range. */
  function InitialForm(userName: string): SurveyForm {
    SurveyForm(userName, "", "", "", 2750, "")
  }

  /**
   * The values the form's widgets can produce: the budget comes from the
   * slider, the travel type and country are unset or chosen from the lists.
   */
  predicate WellFormed(form: SurveyForm) {
    OnSlider(form.budget) &&
    (form.travelType == "" || form.travelType in TravelTypes) &&
    (form.country == "" || form.country in Countries)
  }

  /** The initial form is well formed: 2750 lies on the slider's grid. */
  lemma InitialFormWellFormed(userName: string)
    ensures var f := InitialForm(userName);
            WellFormed(f) && f.name == userName && f.age == "" && f.travelType == "" &&
            f.country == "" && f.comments == ""
  {
  }

  const NameRequired := "Name is required"
  const AgeRequired := "Valid age is required"
  const TravelTypeRequired := "Travel type is required"
  const CountryRequired := "Country is required"

  /**
   * The errors `validateForm` reports. `isNaN` is JavaScript's global
   * `isNaN` applied to the age text.
   */
  function FormErrors(form: SurveyForm, isNaN: string -> bool): (errors: map<Field, string>)
    ensures errors.Keys <= {Name, Age, TravelType, Country}
    ensures Name in errors <==> form.name == ""
    ensures Age in errors <==> form.age == "" || isNaN(form.age)
    ensures TravelType in errors <==> form.travelType == ""
    ensures Country in errors <==> form.country == ""
    ensures Name in errors ==> errors[Name] == NameRequired
    ensures Age in errors ==> errors[Age] == AgeRequired
    ensures TravelType in errors ==> errors[TravelType] == TravelTypeRequired
    ensures Country in errors ==> errors[Country] == CountryRequired
  {
    var e0: map<Field, string> := map[];
    var e1 := if form.name == "" then e0[Name := NameRequired] else e0;
    var e2 := if form.age == "" || isNaN(form.age) then e1[Age := AgeRequired] else e1;
    var e3 := if form.travelType == "" then e2[TravelType := TravelTypeRequired] else e2;
    if form.country == "" then e3[Country := CountryRequired] else e3
  }

  /** The budget and the comments never affect validation. */
  lemma BudgetAndCommentsIgnored(form: SurveyForm, isNaN: string -> bool, budget: int, comments: string)
    ensures FormErrors(form.(budget := budget, comments := comments), isNaN) == FormErrors(form, isNaN)
  {
  }

  /** The name is not trimmed: any non-empty whitespace-only name passes. */
  lemma BlankNameAccepted(form: SurveyForm, isNaN: string -> bool)
    requires form.name != "" && JsText.AllWhitespace(form.name)
    ensures Name !in FormErrors(form, isNaN)
  {
  }

  /** A submission is accepted exactly when all four required fields are filled. */
  lemma NoErrorsIff(form: SurveyForm, isNaN: string -> bool)
    ensures FormErrors(form, isNaN) == map[] <==>
              form.name != "" && form.age != "" && !isNaN(form.age) &&
              form.travelType != "" && form.country != ""
  {
    var errors := FormErrors(form, isNaN);
    if errors != map[] {
      var f :| f in errors;
      assert f == Name || f == Age || f == TravelType || f == Country;
    }
  }

  const DefaultRecommendation := "a custom travel experience"

  const AdventureRow: map<string, string> := map[
      "USA" := "hiking in the Grand Canyon",
      "Japan" := "climbing Mount Fuji",
      "Italy" := "hiking in the Dolomites",
      "France" := "skiing in the Alps",
      "Australia" := "diving in the Great Barrier Reef",
      "Thailand" := "jungle trekking in Chiang Mai",
      "Spain" := "hiking the Camino de Santiago",
      "Brazil" := "exploring the Amazon rainforest"]

  const RelaxationRow: map<string, string> := map[
      "USA" := "beach resort in Hawaii",
      "Japan" := "onsen retreat in Hakone",
      "Italy" := "wellness spa in Tuscany",
      "France" := "luxury resort in French Riviera",
      "Australia" := "beach holiday in Gold Coast",
      "Thailand" := "island hopping in Phuket",
      "Spain" := "beach resort in Ibiza",
      "Brazil" := "beachfront stay in Copacabana"]

  const CulturalRow: map<string, string> := map[
      "USA" := "museums in New York City",
      "Japan" := "temple tour in Kyoto",
      "Italy" := "historical sites in Rome",
      "France" := "art galleries in Paris",
      "Australia" := "aboriginal cultural tours",
      "Thailand" := "temple exploration in Bangkok",
      "Spain" := "architectural tour in Barcelona",
      "Brazil" := "cultural festivals in Salvador"]

  const FoodRow: map<string, string> := map[
      "USA" := "food tour in New Orleans",
      "Japan" := "sushi making in Tokyo",
      "Italy" := "cooking class in Bologna",
      "France" := "wine tasting in Bordeaux",
      "Australia" := "food markets in Melbourne",
      "Thailand" := "street food tour in Bangkok",
      "Spain" := "tapas crawl in Madrid",
      "Brazil" := "food festival in São Paulo"]

  /** The nested lookup table, one row per travel type and one column per country. */
  const Recommendations: map<string, map<string, string>> := map[
    "Adventure" := AdventureRow, "Relaxation" := RelaxationRow,
    "Cultural" := CulturalRow, "Food" := FoodRow]

  /**
   * `recommendations[travelType]?.[country] || "a custom travel experience"`:
   * the table entry when there is one and it is a non-empty string.
   */
  function Recommendation(travelType: string, country: string): (r: string)
    ensures r == DefaultRecommendation ||
            (travelType in Recommendations && country in Recommendations[travelType] &&
             r == Recommendations[travelType][country])
  {
    if travelType in Recommendations && country in Recommendations[travelType]
       && Recommendations[travelType][country] != ""
    then Recommendations[travelType][country]
    else DefaultRecommendation
  }

  /** Every entry of a row is a real recommendation: non-empty and not the default. */
  predicate ProperRow(row: map<string, string>) {
    row.Keys == (set c | c in Countries) &&
    forall c | c in row :: row[c] != "" && row[c] != DefaultRecommendation
  }

  lemma AdventureRowProper()
    ensures ProperRow(AdventureRow)
  {
  }

  lemma RelaxationRowProper()
    ensures ProperRow(RelaxationRow)
  {
  }

  lemma CulturalRowProper()
    ensures ProperRow(CulturalRow)
  {
  }

  lemma FoodRowProper()
    ensures ProperRow(FoodRow)
  {
  }

  /** The table's rows are exactly the travel types, each a proper row over the countries. */
  lemma TableShape()
    ensures Recommendations.Keys == set t | t in TravelTypes
    ensures forall t | t in Recommendations :: ProperRow(Recommendations[t])
  {
    AdventureRowProper();
    RelaxationRowProper();
    CulturalRowProper();
    FoodRowProper();
  }

  /** Every pair drawn from the two lists gets its own table entry, never the default. */
  lemma TableCoversChoices(travelType: string, country: string)
    requires travelType in TravelTypes && country in Countries
    ensures Recommendation(travelType, country) == Recommendations[travelType][country]
    ensures Recommendation(travelType, country) != DefaultRecommendation
  {
    TableShape();
  }

  /**
   * The properties every JavaScript object inherits from `Object.prototype`.
   * A property lookup with one of these names finds the inherited member, not
   * `undefined`, so the table lookup is not a plain map lookup for them.
   */
  const ObjectPrototypeNames: set<string> := {
    "constructor", "hasOwnProperty", "isPrototypeOf", "propertyIsEnumerable",
    "toString", "toLocaleString", "valueOf", "__proto__",
    "__defineGetter__", "__defineSetter__", "__lookupGetter__", "__lookupSetter__"}

  /**
   * Any pair outside the two lists falls back to the default, provided
   * neither value names an inherited property.
   */
  lemma OutsideTableIsDefault(travelType: string, country: string)
    requires travelType !in TravelTypes || country !in Countries
    requires travelType !in ObjectPrototypeNames && country !in ObjectPrototypeNames
    ensures Recommendation(travelType, country) == DefaultRecommendation
  {
    TableShape();
  }

  lemma FoodInJapan()
    ensures Recommendation("Food", "Japan") == "sushi making in Tokyo"
  {
  }

  /** A well-formed form that passes validation is recommended a table entry. */
  lemma AcceptedFormGetsTableEntry(form: SurveyForm, isNaN: string -> bool)
    requires WellFormed(form) && FormErrors(form, isNaN) == map[]
    ensures Recommendation(form.travelType, form.country) != DefaultRecommendation
  {
    NoErrorsIff(form, isNaN);
    TableCoversChoices(form.travelType, form.country);
  }

  /** The Results route's parameters: `{ formData, recommendation, userName, email }`. */
  datatype ResultsParams = ResultsParams(formData: SurveyForm, recommendation: string, userName: string, email: string)

  /**
   * The thank-you alert shown on a valid submission: the recommendation and
   * the navigation each of its two buttons performs.
   */
  datatype SubmitAlert = SubmitAlert(recommendation: string, viewResults: ResultsParams, findNearby: RouteParams)

  /** The component state of the survey screen. */
  class SurveyScreen {
    const userName: string
    const email: string
    /** JavaScript's global `isNaN` on the age text. */
    const isNaN: string -> bool
    var formData: SurveyForm
    var errors: map<Field, Option<string>>

    ghost predicate Valid()
      reads this
    {
      WellFormed(formData)
    }

    /** Reads the identity from the route (defaulting to "Guest" and "") and prefills the name. */
    constructor (params: Option<RouteParams>, isNaN: string -> bool)
      ensures Identity(userName, email) == IdentityOf(params) && this.isNaN == isNaN
      ensures formData == InitialForm(userName) && errors == map[]
      ensures Valid()
    {
      var id := IdentityOf(params);
      userName, email, this.isNaN := id.userName, id.email, isNaN;
      formData := InitialForm(id.userName);
      errors := map[];
    }

    /** `validateForm`: fills a fresh error map field by field. */
    method ValidateForm() returns (newErrors: map<Field, string>)
      ensures newErrors == FormErrors(formData, isNaN)
    {
      newErrors := map[];
      if formData.name == "" {
        newErrors := newErrors[Name := NameRequired];
      }
      if formData.age == "" || isNaN(formData.age) {
        newErrors := newErrors[Age := AgeRequired];
      }
      if formData.travelType == "" {
        newErrors := newErrors[TravelType := TravelTypeRequired];
      }
      if formData.country == "" {
        newErrors := newErrors[Country := CountryRequired];
      }
    }

    /**
     * `handleSubmit`: with errors, stores them and shows nothing; without,
     * shows the alert whose buttons open the results (with the route's
     * user name, not the form's) or the nearby destinations (with the
     * chosen travel type).
     */
    method HandleSubmit() returns (alert: Option<SubmitAlert>)
      requires Valid()
      modifies this`errors
      ensures alert.None? <==> FormErrors(formData, isNaN) != map[]
      ensures alert.None? ==> errors == Shown(FormErrors(formData, isNaN))
      ensures alert.Some? ==>
                var recommendation := Recommendation(formData.travelType, formData.country);
                errors == old(errors) &&
                alert.value == SubmitAlert(
                  recommendation,
                  ResultsParams(formData, recommendation, userName, email),
                  RouteParams(Some(userName), Some(email), Some(formData.travelType)))
      ensures alert.Some? ==> alert.value.recommendation != DefaultRecommendation
      ensures alert.Some? ==> formData.travelType in TravelTypes
    {
      var formErrors := ValidateForm();
      // `Object.keys(formErrors).length > 0`
      if formErrors != map[] {
        errors := Shown(formErrors);
        return None;
      }
      NoErrorsIff(formData, isNaN);
      AcceptedFormGetsTableEntry(formData, isNaN);
      var recommendation := Recommendation(formData.travelType, formData.country);
      alert := Some(SubmitAlert(
        recommendation,
        ResultsParams(formData, recommendation, userName, email),
        RouteParams(Some(userName), Some(email), Some(formData.travelType))));
    }

    /** The name field's `onChangeText`. */
    method ChangeName(text: string)
      requires Valid()
      modifies this`formData, this`errors
      ensures Valid()
      ensures formData == old(formData).(name := text) && errors == ClearError(old(errors), Name)
    {
      formData := formData.(name := text);
      if IsShown(errors, Name) {
        errors := errors[Name := None];
      }
    }

    /** The age field's `onChangeText`. */
    method ChangeAge(text: string)
      requires Valid()
      modifies this`formData, this`errors
      ensures Valid()
      ensures formData == old(formData).(age := text) && errors == ClearError(old(errors), Age)
    {
      formData := formData.(age := text);
      if IsShown(errors, Age) {
        errors := errors[Age := None];
      }
    }

    /** Pressing one of the travel type buttons. */
    method SelectTravelType(travelType: string)
      requires Valid() && travelType in TravelTypes
      modifies this`formData, this`errors
      ensures Valid()
      ensures formData == old(formData).(travelType := travelType) && errors == ClearError(old(errors), TravelType)
    {
      formData := formData.(travelType := travelType);
      if IsShown(errors, TravelType) {
        errors := errors[TravelType := None];
      }
    }

    /** Pressing one of the country buttons. */
    method SelectCountry(country: string)
      requires Valid() && country in Countries
      modifies this`formData, this`errors
      ensures Valid()
      ensures formData == old(formData).(country := country) && errors == ClearError(old(errors), Country)
    {
      formData := formData.(country := country);
      if IsShown(errors, Country) {
        errors := errors[Country := None];
      }
    }

    /** The budget slider's `onValueChange`; the slider only produces values on its grid. */
    method ChangeBudget(budget: int)
      requires Valid() && OnSlider(budget)
      modifies this`formData
      ensures Valid()
      ensures formData == old(formData).(budget := budget)
    {
      formData := formData.(budget := budget);
    }

    /** The comments field's `onChangeText`; comments have no error entry. */
    method ChangeComments(text: string)
      requires Valid()
      modifies this`formData
      ensures Valid()
      ensures formData == old(formData).(comments := text)
    {
      formData := formData.(comments := text);
    }
  }
}
