/** The sign-up form: five fields, a password-strength meter, per-field
    rules that are shown once a field has been visited, and a submission
    that checks every field before it sends the account data. */
module SignupPage {
  import opened Text
  import opened Remote
  import opened EmailRule
  import opened FormErrors

  datatype Field = FirstName | LastName | Email | Password | ConfirmPassword

  /** The fields in the order the submit handler visits them. */
  const FieldOrder: seq<Field> := [FirstName, LastName, Email, Password, ConfirmPassword]

  datatype Form = Form(firstname: string, lastname: string, email: string, password: string, confirmPassword: string)

  const EmptyForm: Form := Form("", "", "", "", "")

  function Get(form: Form, f: Field): string {
    match f
    case FirstName => form.firstname
    case LastName => form.lastname
    case Email => form.email
    case Password => form.password
    case ConfirmPassword => form.confirmPassword
  }

  /** `{ ...formData, [name]: value }`. */
  function Set(form: Form, f: Field, value: string): (r: Form)
    ensures Get(r, f) == value
    ensures forall g :: g != f ==> Get(r, g) == Get(form, g)
  {
    match f
    case FirstName => form.(firstname := value)
    case LastName => form.(lastname := value)
    case Email => form.(email := value)
    case Password => form.(password := value)
    case ConfirmPassword => form.(confirmPassword := value)
  }

  // ---------------------------------------------------------------------
  // Password strength

  predicate IsAsciiLetter(c: char) {
    ('a' <= c <= 'z') || ('A' <= c <= 'Z')
  }

  predicate IsSpecial(c: char) {
    c in "@$!%*?&"
  }

  predicate HasLetter(s: string) {
    exists i :: 0 <= i < |s| && IsAsciiLetter(s[i])
  }

  predicate HasDigit(s: string) {
    exists i :: 0 <= i < |s| && '0' <= s[i] <= '9'
  }

  predicate HasSpecial(s: string) {
    exists i :: 0 <= i < |s| && IsSpecial(s[i])
  }

  /** No character that a regular expression's `.` refuses to match. */
  predicate SingleLine(s: string) {
    forall i :: 0 <= i < |s| ==> !IsLineTerminator(s[i])
  }

  /** The strong pattern: one line of at least 8 UTF-16 units holding a letter, a digit and one of @$!%*?&. */
  predicate StrongPattern(s: string) {
    SingleLine(s) && JsLength(s) >= 8 && HasLetter(s) && HasDigit(s) && HasSpecial(s)
  }

  /** The medium pattern: one line of at least 6 UTF-16 units holding a letter and a digit. */
  predicate MediumPattern(s: string) {
    SingleLine(s) && JsLength(s) >= 6 && HasLetter(s) && HasDigit(s)
  }

  /** `evaluatePasswordStrength`. */
  function PasswordStrength(password: string): string {
    if password == "" then ""
    else if StrongPattern(password) then "strong"
    else if MediumPattern(password) then "medium"
    else "weak"
  }

  /** The meter's four readings: none only for the empty password, and the
      strongest pattern that matches a non-empty one; every strong password
      also meets the medium conditions. */
  lemma StrengthLevels(password: string)
    ensures PasswordStrength(password) == "" <==> password == ""
    ensures PasswordStrength(password) == "strong" <==> password != "" && StrongPattern(password)
    ensures PasswordStrength(password) == "medium" <==> password != "" && !StrongPattern(password) && MediumPattern(password)
    ensures PasswordStrength(password) == "weak" <==> password != "" && !MediumPattern(password)
    ensures StrongPattern(password) ==> MediumPattern(password)
  {
  }

  /** A password holding a line break is never better than weak, however long and varied. */
  lemma LineBreakIsWeak(password: string, i: nat)
    requires i < |password| && IsLineTerminator(password[i])
    ensures PasswordStrength(password) == "weak"
  {
    assert !SingleLine(password);
  }

  // ---------------------------------------------------------------------
  // Field rules

  const FirstNameRequired: string := "First name is required"
  const LastNameRequired: string := "Last name is required"
  const PasswordRequired: string := "Password is required"
  const PasswordTooShort: string := "Password must be at least 6 characters"
  const PasswordsDiffer: string := "Passwords do not match"
  const ConfirmRequired: string := "Confirm your password"

  /** `validateField(name, value)`, reading the other password field from `form`. */
  function ValidateField(f: Field, value: string, form: Form): string {
    match f
    case FirstName => if Trim(Js, value) == "" then FirstNameRequired else ""
    case LastName => if Trim(Js, value) == "" then LastNameRequired else ""
    case Email => EmailError(value)
    case Password =>
      if value == "" then PasswordRequired
      else if JsLength(value) < 6 then PasswordTooShort
      else if form.confirmPassword != "" && value != form.confirmPassword then PasswordsDiffer
      else ""
    case ConfirmPassword =>
      if value == "" then ConfirmRequired
      else if value != form.password then PasswordsDiffer
      else ""
  }

  /** What each field's rule accepts, stated without the order of the checks. */
  predicate FieldOk(f: Field, form: Form) {
    match f
    case FirstName => !IsBlank(Js, form.firstname)
    case LastName => !IsBlank(Js, form.lastname)
    case Email => !IsBlank(Js, form.email) && Matches(form.email)
    case Password =>
      form.password != "" && JsLength(form.password) >= 6
      && (form.confirmPassword == "" || form.password == form.confirmPassword)
    case ConfirmPassword => form.confirmPassword != "" && form.confirmPassword == form.password
  }

  lemma ValidateFieldIff(f: Field, form: Form)
    ensures ValidateField(f, Get(form, f), form) == "" <==> FieldOk(f, form)
  {
    match f
    case FirstName => TrimEmptyIffBlank(Js, form.firstname);
    case LastName => TrimEmptyIffBlank(Js, form.lastname);
    case Email =>
    case Password =>
    case ConfirmPassword =>
  }

  /** The other field whose rule reads this one. */
  function Partner(f: Field): Option<Field> {
    match f
    case Password => Some(ConfirmPassword)
    case ConfirmPassword => Some(Password)
    case _ => None
  }

  /** A field's rule reads only the value and its partner's entry in the form. */
  lemma ValidateFieldReadsPartner(f: Field, value: string, a: Form, b: Form)
    requires Partner(f).Some? ==> Get(a, Partner(f).value) == Get(b, Partner(f).value)
    ensures ValidateField(f, value, a) == ValidateField(f, value, b)
  {
  }

  // ---------------------------------------------------------------------
  // Re-validation on change

  /** The errors after `handleChange` as written: the partner is
      re-validated against the form as it was before this change. */
  function ChangeErrorsAsWritten(errors: map<Field, string>, touched: set<Field>, form: Form, f: Field, value: string): map<Field, string> {
    if f !in touched then errors
    else
      var own := errors[f := ValidateField(f, value, form)];
      if f == Password && ConfirmPassword in touched then
        own[ConfirmPassword := ValidateField(ConfirmPassword, form.confirmPassword, form)]
      else if f == ConfirmPassword && Password in touched then
        own[Password := ValidateField(Password, form.password, form)]
      else own
  }

  /** The errors after `handleChange` with the partner re-validated against the changed form. */
  function ChangeErrors(errors: map<Field, string>, touched: set<Field>, form: Form, f: Field, value: string): map<Field, string> {
    if f !in touched then errors
    else
      var next := Set(form, f, value);
      var own := errors[f := ValidateField(f, value, form)];
      if Partner(f).Some? && Partner(f).value in touched then
        own[Partner(f).value := ValidateField(Partner(f).value, Get(next, Partner(f).value), next)]
      else own
  }

  /** `ChangeErrors` for a touched field, spelled out per partner. */
  lemma ChangeErrorsTouched(errors: map<Field, string>, touched: set<Field>, form: Form, f: Field, value: string)
    requires f in touched
    ensures var next := Set(form, f, value);
            var own := errors[f := ValidateField(f, value, form)];
            ChangeErrors(errors, touched, form, f, value)
              == if f == Password && ConfirmPassword in touched then
                   own[ConfirmPassword := ValidateField(ConfirmPassword, next.confirmPassword, next)]
                 else if f == ConfirmPassword && Password in touched then
                   own[Password := ValidateField(Password, next.password, next)]
                 else own
  {
  }

  /** A change to an untouched field leaves the errors alone; a change to a
      touched one leaves its error, and that of its partner when touched,
      equal to their rules applied to the changed form, and no other entry
      moves. */
  lemma ChangeErrorsCurrent(errors: map<Field, string>, touched: set<Field>, form: Form, f: Field, value: string)
    ensures f !in touched ==> ChangeErrors(errors, touched, form, f, value) == errors
    ensures var next := Set(form, f, value);
            var r := ChangeErrors(errors, touched, form, f, value);
            && (f in touched ==> f in r && r[f] == ValidateField(f, Get(next, f), next))
            && (f in touched && Partner(f).Some? && Partner(f).value in touched ==>
                  Partner(f).value in r
                  && r[Partner(f).value] == ValidateField(Partner(f).value, Get(next, Partner(f).value), next))
            && (forall g :: g != f && Partner(f) != Some(g) ==> (g in r <==> g in errors) && (g in errors ==> r[g] == errors[g]))
  {
    var next := Set(form, f, value);
    if Partner(f).Some? {
      ValidateFieldReadsPartner(f, value, form, next);
    }
  }

  /** With both password fields visited, typing the password that the
      confirmation already holds leaves, as written, a stale "Passwords do
      not match" on the confirmation; re-validating against the changed form
      clears it. */
  lemma StaleConfirmationError()
    ensures var form := Form("", "", "", "abcdef", "abcdefg");
            var touched := {Password, ConfirmPassword};
            && ChangeErrorsAsWritten(map[], touched, form, Password, "abcdefg")[ConfirmPassword] == PasswordsDiffer
            && ChangeErrors(map[], touched, form, Password, "abcdefg")[ConfirmPassword] == ""
            && ChangeErrors(map[], touched, form, Password, "abcdefg")[Password] == ""
  {
    assert "abcdef" != "abcdefg";
  }

  // ---------------------------------------------------------------------
  // Submission

  /** The error object the submit handler builds: every failing field with its message. */
  function SubmitErrors(form: Form): (r: map<Field, string>)
    ensures forall f :: f in r <==> ValidateField(f, Get(form, f), form) != ""
    ensures forall f :: f in r ==> r[f] == ValidateField(f, Get(form, f), form)
  {
    map f | f in FieldOrder && ValidateField(f, Get(form, f), form) != "" :: ValidateField(f, Get(form, f), form)
  }

  /** Each field's message for `form`, as the submit handler computes it. */
  function Rule(form: Form): Field -> string {
    (g: Field) => ValidateField(g, Get(form, g), form)
  }

  /** Visiting the fields in the handler's order builds the submit error object. */
  lemma ErrorsOverFieldOrder(form: Form)
    ensures ErrorsOver(Rule(form), FieldOrder) == SubmitErrors(form)
  {
    ErrorsOverFailing(Rule(form), FieldOrder);
  }

  /** Nothing is reported exactly when every rule accepts, and then the
      two password entries agree and the address matches the pattern. */
  lemma SubmitErrorsEmptyIff(form: Form)
    ensures SubmitErrors(form) == map[] <==> forall f :: FieldOk(f, form)
    ensures SubmitErrors(form) == map[] ==>
              form.password == form.confirmPassword && JsLength(form.password) >= 6 && Matches(form.email)
  {
    forall f ensures ValidateField(f, Get(form, f), form) == "" <==> FieldOk(f, form) {
      ValidateFieldIff(f, form);
    }
    if SubmitErrors(form) == map[] {
      assert FieldOk(ConfirmPassword, form) && FieldOk(Password, form) && FieldOk(Email, form);
    } else {
      var f :| f in SubmitErrors(form);
      assert !FieldOk(f, form);
    }
  }

  /** The account data the form sends: every field but the confirmation. */
  datatype SignupRequest = SignupRequest(firstname: string, lastname: string, email: string, password: string)

  class Page {
    var form: Form
    var errors: map<Field, string>
    var touched: set<Field>
    var passwordStrength: string

    /** The meter, shown whenever the password is non-empty, shows that password's strength. */
    ghost predicate Valid()
      reads this
    {
      form.password != "" ==> passwordStrength == PasswordStrength(form.password)
    }

    constructor ()
      ensures Valid() && form == EmptyForm && errors == map[] && touched == {} && passwordStrength == ""
    {
      form := EmptyForm;
      errors := map[];
      touched := {};
      passwordStrength := "";
    }

    /** `handleChange`, with the partner re-validated against the changed form. */
    method Change(f: Field, value: string)
      requires Valid()
      modifies this
      ensures Valid()
      ensures form == Set(old(form), f, value) && touched == old(touched)
      ensures errors == ChangeErrors(old(errors), old(touched), old(form), f, value)
      ensures f == Password ==> passwordStrength == PasswordStrength(value)
      ensures f != Password ==> passwordStrength == old(passwordStrength)
    {
      var next := Set(form, f, value);
      var newErrors := errors;
      if f in touched {
        ChangeErrorsTouched(errors, touched, form, f, value);
        newErrors := newErrors[f := ValidateField(f, value, form)];
        if f == Password && ConfirmPassword in touched {
          newErrors := newErrors[ConfirmPassword := ValidateField(ConfirmPassword, next.confirmPassword, next)];
        }
        if f == ConfirmPassword && Password in touched {
          newErrors := newErrors[Password := ValidateField(Password, next.password, next)];
        }
      }
      if f == Password {
        passwordStrength := PasswordStrength(value);
      } else {
        assert next.password == form.password;
      }
      form := next;
      errors := newErrors;
    }

    /** `handleBlur`: the field becomes touched and its error is its rule's verdict. */
    method Blur(f: Field)
      requires Valid()
      modifies this
      ensures Valid()
      ensures touched == old(touched) + {f} && form == old(form) && passwordStrength == old(passwordStrength)
      ensures errors == old(errors)[f := ValidateField(f, Get(form, f), form)]
    {
      touched := touched + {f};
      errors := errors[f := ValidateField(f, Get(form, f), form)];
    }

    /** The error object of the submit handler for the current form. */
    method CollectErrors() returns (newErrors: map<Field, string>)
      ensures newErrors == SubmitErrors(form)
    {
      newErrors := CollectFailing(Rule(form), FieldOrder);
      ErrorsOverFieldOrder(form);
    }

    /** `handleSubmit`, with the awaited `signupUser` as `outcome`. Any
        failing field replaces the error object and nothing is sent;
        otherwise the account data is sent, and only a success clears the form. */
    method Submit(outcome: Outcome<string>) returns (sent: Option<SignupRequest>)
      requires Valid()
      modifies this
      ensures Valid() && touched == old(touched)
      ensures SubmitErrors(old(form)) != map[] ==>
                sent == None && errors == SubmitErrors(old(form)) && form == old(form)
      ensures SubmitErrors(old(form)) == map[] ==>
                sent == Some(SignupRequest(old(form).firstname, old(form).lastname, old(form).email, old(form).password))
                && errors == old(errors)
                && (outcome.Returned? ==> form == EmptyForm)
                && (outcome.Threw? ==> form == old(form))
    {
      var newErrors := CollectErrors();
      if |newErrors| > 0 {
        errors := newErrors;
        return None;
      }
      assert newErrors == map[];
      sent := Some(SignupRequest(form.firstname, form.lastname, form.email, form.password));
      match outcome {
        case Returned(_) => form := EmptyForm;
        case Threw(_) =>
      }
    }
  }

  /** Submitting the empty form reports the missing confirmation and sends nothing. */
  method EmptySubmitScenario()
  {
    var page := new Page();
    assert ValidateField(ConfirmPassword, "", EmptyForm) == ConfirmRequired;
    assert ConfirmPassword in SubmitErrors(EmptyForm);
    var sent := page.Submit(Returned("Signup successful!"));
    assert sent == None && page.errors[ConfirmPassword] == ConfirmRequired;
  }
}
