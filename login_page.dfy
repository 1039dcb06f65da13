/** The login form: email and password, each checked once visited, a
    submission that checks both before sending, and on success the signed-in
    user stored in the application's user context. */
module LoginPage {
  import opened Text
  import opened Remote
  import opened EmailRule
  import opened FormErrors
  import SignupPage

  datatype Field = Email | Password

  /** The fields in the order the submit handler visits them. */
  const FieldOrder: seq<Field> := [Email, Password]

  datatype Form = Form(email: string, password: string)

  const EmptyForm: Form := Form("", "")

  function Get(form: Form, f: Field): string {
    match f
    case Email => form.email
    case Password => form.password
  }

  function Set(form: Form, f: Field, value: string): (r: Form)
    ensures Get(r, f) == value
    ensures forall g :: g != f ==> Get(r, g) == Get(form, g)
  {
    match f
    case Email => form.(email := value)
    case Password => form.(password := value)
  }

  const PasswordRequired: string := "Password is required"

  /** `validateField`: the shared email rule, and a password that must not be empty. */
  function ValidateField(f: Field, value: string): (r: string)
    ensures f == Password ==> (r == "" <==> value != "") && (r != "" ==> r == PasswordRequired)
  {
    match f
    case Email => EmailError(value)
    case Password => if value == "" then PasswordRequired else ""
  }

  /** The login email rule is the sign-up email rule; the login password
      rule neither trims nor demands a length, so a password of spaces, or a
      single character, passes here while sign-up refuses the latter. */
  lemma RulesAgainstSignup(value: string, signup: SignupPage.Form)
    ensures ValidateField(Email, value) == SignupPage.ValidateField(SignupPage.Email, value, signup)
    ensures ValidateField(Password, " ") == ""
    ensures ValidateField(Password, "x") == "" && SignupPage.ValidateField(SignupPage.Password, "x", signup) != ""
  {
  }

  /** The error object the submit handler builds: every failing field with its message. */
  function SubmitErrors(form: Form): (r: map<Field, string>)
    ensures forall f :: f in r <==> ValidateField(f, Get(form, f)) != ""
    ensures forall f :: f in r ==> r[f] == ValidateField(f, Get(form, f))
  {
    map f | f in FieldOrder && ValidateField(f, Get(form, f)) != "" :: ValidateField(f, Get(form, f))
  }

  /** Each field's message for `form`, as the submit handler computes it. */
  function Rule(form: Form): Field -> string {
    (g: Field) => ValidateField(g, Get(form, g))
  }

  /** Visiting the fields in the handler's order builds the submit error object. */
  lemma ErrorsOverFieldOrder(form: Form)
    ensures ErrorsOver(Rule(form), FieldOrder) == SubmitErrors(form)
  {
    ErrorsOverFailing(Rule(form), FieldOrder);
  }

  /** The user the backend returns on a successful login. */
  datatype UserRecord = UserRecord(firstname: string, lastname: string, email: string)

  /** The body of a successful login: the user and a message for the alert. */
  datatype LoginReply = LoginReply(user: UserRecord, message: string)

  class Page {
    var form: Form
    var errors: map<Field, string>
    var touched: set<Field>
    /** The application's user context, which `login` sets. */
    var user: Option<UserRecord>

    constructor ()
      ensures form == EmptyForm && errors == map[] && touched == {} && user == None
    {
      form := EmptyForm;
      errors := map[];
      touched := {};
      user := None;
    }

    /** `handleBlur`. */
    method Blur(f: Field)
      modifies this
      ensures touched == old(touched) + {f} && form == old(form) && user == old(user)
      ensures errors == old(errors)[f := ValidateField(f, Get(form, f))]
    {
      touched := touched + {f};
      errors := errors[f := ValidateField(f, Get(form, f))];
    }

    /** `handleChange`: the value is stored; its error is refreshed only once the field was touched. */
    method Change(f: Field, value: string)
      modifies this
      ensures form == Set(old(form), f, value) && touched == old(touched) && user == old(user)
      ensures f in touched ==> errors == old(errors)[f := ValidateField(f, value)]
      ensures f !in touched ==> errors == old(errors)
    {
      form := Set(form, f, value);
      if f in touched {
        errors := errors[f := ValidateField(f, value)];
      }
    }

    /** The error object of the submit handler for the current form. */
    method CollectErrors() returns (newErrors: map<Field, string>)
      ensures newErrors == SubmitErrors(form)
    {
      newErrors := CollectFailing(Rule(form), FieldOrder);
      ErrorsOverFieldOrder(form);
    }

    /** `handleSubmit`, with the awaited `loginUser` as `outcome`. Failing
        fields become exactly the error object and nothing is sent; otherwise
        the form is sent, a success stores the user and clears the form, and
        a failure leaves the form as it was. */
    method Submit(outcome: Outcome<LoginReply>) returns (sent: Option<Form>)
      modifies this
      ensures touched == old(touched)
      ensures SubmitErrors(old(form)) != map[] ==>
                sent == None && errors == SubmitErrors(old(form)) && form == old(form) && user == old(user)
      ensures SubmitErrors(old(form)) == map[] ==>
                sent == Some(old(form)) && errors == old(errors)
                && (outcome.Returned? ==> user == Some(outcome.value.user) && form == EmptyForm)
                && (outcome.Threw? ==> user == old(user) && form == old(form))
    {
      var newErrors := CollectErrors();
      if |newErrors| > 0 {
        errors := newErrors;
        return None;
      }
      assert newErrors == map[];
      sent := Some(form);
      match outcome {
        case Returned(reply) =>
          user := Some(reply.user);
          form := EmptyForm;
        case Threw(_) =>
      }
    }
  }

  /** Typing an address and a password and submitting signs the user in;
      the server's refusal leaves the typed values in place. */
  method LoginScenario(address: string, who: UserRecord)
    requires Matches(address) && !IsBlank(Js, address)
  {
    var page := new Page();
    page.Change(Email, address);
    page.Change(Password, "pw");
    var sent := page.Submit(Threw(Thrown("Invalid credentials", "")));
    assert sent == Some(Form(address, "pw")) && page.form == Form(address, "pw") && page.user == None;
    sent := page.Submit(Returned(LoginReply(who, "Login successful")));
    assert page.user == Some(who) && page.form == EmptyForm;
  }
}
