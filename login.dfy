/**
 * The login gate (src/screens/LoginScreen.js): two text fields, a validator
 * that builds a per-field error map, and a login action that navigates to the
 * drawer navigator with the raw field values only when that map is empty.
 */
module Login {
  import opened Wrappers
  import opened JsText
  import EmailPattern
  import opened Navigation
  import opened Forms

  datatype Field = UserName | Email

  const NameRequired := "Name is required"
  const EmailRequired := "Email is required"
  const EmailInvalid := "Email address is invalid"

  /** The name check of `validateForm`, on its own. */
  function NameErrors(userName: string): map<Field, string> {
    if IsBlank(userName) then map[UserName := NameRequired] else map[]
  }

  /**
   * The errors `validateForm` reports; `FormErrorsMeaning` states what each
   * entry means.
   */
  function FormErrors(userName: string, email: string): map<Field, string> {
    var nameErrors := NameErrors(userName);
    if IsBlank(email) then nameErrors[Email := EmailRequired]
    else if !EmailPattern.Test(email) then nameErrors[Email := EmailInvalid]
    else nameErrors
  }

  /**
   * A name error exactly when the name is all whitespace. For the email,
   * "required" exactly when it is all whitespace, otherwise "invalid"
   * exactly when the pattern does not match; never both.
   */
  lemma FormErrorsMeaning(userName: string, email: string)
    ensures var errors := FormErrors(userName, email);
            (UserName in errors <==> AllWhitespace(userName)) &&
            (UserName in errors ==> errors[UserName] == NameRequired) &&
            (Email in errors <==> AllWhitespace(email) || !EmailPattern.Matches(email)) &&
            (Email in errors ==> (errors[Email] == EmailRequired <==> AllWhitespace(email))) &&
            (Email in errors ==> (errors[Email] == EmailInvalid <==> !AllWhitespace(email)))
  {
    EmailPattern.TestIffMatches(email);
  }

  /**
   * Login is allowed exactly when the name has a non-whitespace character and
   * the email matches the pattern (which implies it is not blank).
   */
  lemma NoErrorsIff(userName: string, email: string)
    ensures FormErrors(userName, email) == map[] <==>
              !AllWhitespace(userName) && EmailPattern.Matches(email)
  {
    FormErrorsMeaning(userName, email);
    var errors := FormErrors(userName, email);
    if errors == map[] {
      assert UserName !in errors && Email !in errors;
    } else {
      assert UserName in errors || Email in errors;
    }
  }

  /**
   * The name entry depends only on the name and the email entry only on the
   * email, so a blank name and a bad email are reported together.
   */
  lemma ErrorsIndependent(userName: string, email: string, otherName: string, otherEmail: string)
    ensures var e1, e2 := FormErrors(userName, email), FormErrors(otherName, otherEmail);
            (AllWhitespace(userName) == AllWhitespace(otherName) ==>
               (UserName in e1 <==> UserName in e2) && (UserName in e1 ==> e1[UserName] == e2[UserName])) &&
            (email == otherEmail ==>
               (Email in e1 <==> Email in e2) && (Email in e1 ==> e1[Email] == e2[Email]))
  {
    FormErrorsMeaning(userName, email);
    FormErrorsMeaning(otherName, otherEmail);
  }

  /** The three outcomes of the email check, each on top of the name check. */
  lemma EmailCases(userName: string, email: string)
    ensures IsBlank(email) ==> FormErrors(userName, email) == NameErrors(userName)[Email := EmailRequired]
    ensures !IsBlank(email) && !EmailPattern.Test(email) ==>
              FormErrors(userName, email) == NameErrors(userName)[Email := EmailInvalid]
    ensures !IsBlank(email) && EmailPattern.Test(email) ==> FormErrors(userName, email) == NameErrors(userName)
  {
  }

  /** A blank name gives exactly the name error. */
  lemma BlankNameError(userName: string)
    requires AllWhitespace(userName)
    ensures NameErrors(userName) == map[UserName := NameRequired]
  {
    var t := Trim(userName);
    assert t == [];
  }

  /** Both fields blank: both "required" errors at once, and nothing else. */
  lemma BothErrorsAtOnce(userName: string, email: string)
    requires AllWhitespace(userName) && AllWhitespace(email)
    ensures FormErrors(userName, email) == map[UserName := NameRequired, Email := EmailRequired]
  {
    BlankNameError(userName);
    var t := Trim(email);
    assert t == [];
    EmailCases(userName, email);
  }

  /**
   * After a rejected login the screen shows an error under exactly the
   * fields the validator reported.
   */
  lemma RejectedLoginShowsReported(userName: string, email: string, f: Field)
    ensures IsShown(Shown(FormErrors(userName, email)), f) <==> f in FormErrors(userName, email)
  {
    FormErrorsMeaning(userName, email);
  }

  /** The component state of the login screen. */
  class LoginScreen {
    var userName: string
    var email: string
    var errors: map<Field, Option<string>>

    constructor ()
      ensures userName == "" && email == "" && errors == map[]
    {
      userName, email, errors := "", "", map[];
    }

    /** `validateForm`: fills a fresh error map field by field. */
    method ValidateForm() returns (newErrors: map<Field, string>)
      ensures newErrors == FormErrors(userName, email)
    {
      newErrors := map[];
      if IsBlank(userName) {
        newErrors := newErrors[UserName := NameRequired];
      }
      assert newErrors == NameErrors(userName);
      EmailCases(userName, email);
      if IsBlank(email) {
        newErrors := newErrors[Email := EmailRequired];
      } else if !EmailPattern.Test(email) {
        newErrors := newErrors[Email := EmailInvalid];
      }
    }

    /**
     * `handleLogin`: with errors, stores them and does not navigate; without,
     * navigates to the drawer navigator with the untrimmed field values.
     * The result is the navigation parameters, `None` for no navigation.
     */
    method HandleLogin() returns (navigate: Option<RouteParams>)
      modifies this`errors
      ensures navigate.Some? <==> FormErrors(userName, email) == map[]
      ensures navigate.Some? ==> navigate.value == Forward(Identity(userName, email)) && errors == old(errors)
      ensures navigate.None? ==> errors == Shown(FormErrors(userName, email))
    {
      var formErrors := ValidateForm();
      // `Object.keys(formErrors).length > 0`
      if formErrors != map[] {
        errors := Shown(formErrors);
        return None;
      }
      navigate := Some(Forward(Identity(userName, email)));
    }

    /** The name field's `onChangeText`. */
    method ChangeUserName(text: string)
      modifies this`userName, this`errors
      ensures userName == text && errors == ClearError(old(errors), UserName)
    {
      userName := text;
      if IsShown(errors, UserName) {
        errors := errors[UserName := None];
      }
    }

    /** The email field's `onChangeText`. */
    method ChangeEmail(text: string)
      modifies this`email, this`errors
      ensures email == text && errors == ClearError(old(errors), Email)
    {
      email := text;
      if IsShown(errors, Email) {
        errors := errors[Email := None];
      }
    }
  }

  /** A name with surrounding spaces is forwarded as typed, not trimmed. */
  lemma ForwardsUntrimmedName()
    ensures FormErrors(" Ana ", "ana@x.com") == map[]
    ensures Forward(Identity(" Ana ", "ana@x.com")).userName == Some(" Ana ")
  {
    EmailPattern.AcceptedMatches();
    assert !IsWhitespace(" Ana "[1]);
    NoErrorsIff(" Ana ", "ana@x.com");
  }
}
