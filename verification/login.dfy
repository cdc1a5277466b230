/**
 * The `Login` page: its form state (the three inputs, the per-field error
 * messages and the sign-in / sign-up mode), the validation run on submit,
 * the user record handed to `onLogin`, the input handler and the mode toggle.
 *
 * React's state setters are modelled as direct assignments to the fields of
 * `LoginForm`; the `onLogin` callback becomes the result of `HandleSubmit`.
 */
module Login {
  import opened Options
  import opened JsText
  import opened EmailFormat

  /** The `name` attribute of an input, which is also its key in `formData`
      and in `errors`. */
  datatype FieldName = Name | Email | Password

  datatype FormData = FormData(name: string, email: string, password: string)

  /** The record passed to `onLogin`. */
  datatype User = User(name: string, email: string)

  /** `formData[field]`. */
  function Get(form: FormData, field: FieldName): string {
    match field
    case Name => form.name
    case Email => form.email
    case Password => form.password
  }

  /** `{ ...form, [field]: value }`. */
  function Updated(form: FormData, field: FieldName, value: string): (r: FormData)
    ensures Get(r, field) == value
    ensures forall other :: other != field ==> Get(r, other) == Get(form, other)
  {
    match field
    case Name => form.(name := value)
    case Email => form.(email := value)
    case Password => form.(password := value)
  }

  /** The name rule: 'Name is required' exactly in sign-up mode for a name
      made of white space only. */
  function NameError(isSignUp: bool, name: string): (e: Option<string>)
    ensures e == Some("Name is required") <==> isSignUp && Blank(name)
    ensures e == None <==> !(isSignUp && Blank(name))
  {
    TrimEmptyIffBlank(name);
    if isSignUp && Trim(name) == [] then Some("Name is required") else None
  }

  /** The email rule: a blank address is 'required', any other address that
      fails the format check is 'invalid', and the two never coincide. */
  function EmailError(email: string): (e: Option<string>)
    ensures e == Some("Email is required") <==> Blank(email)
    ensures e == Some("Invalid email format") <==> !Blank(email) && !ValidEmailFormat(email)
    ensures e == None <==> ValidEmailFormat(email)
  {
    TrimEmptyIffBlank(email);
    ValidEmailNotBlankAndNamed(email);
    if Trim(email) == [] then Some("Email is required")
    else if !ValidEmailFormat(email) then Some("Invalid email format")
    else None
  }

  /** The email rule in terms of the page's regular expression
      `^[^\s@]+@[^\s@]+\.[^\s@]+$`: an address it matches has no error, and
      a non-blank address it rejects is 'invalid'. */
  lemma EmailRule(email: string)
    ensures EmailError(email) == None <==> RegexMatches(email)
    ensures EmailError(email) == Some("Invalid email format") <==> !Blank(email) && !RegexMatches(email)
  {
    RegexIffValidFormat(email);
  }

  /** The password rule: empty is 'required', 1 to 5 UTF-16 units (as
      `password.length` counts them) is 'too short', 6 or more is accepted. */
  function PasswordError(password: string): (e: Option<string>)
    ensures e == Some("Password is required") <==> password == []
    ensures e == Some("Password must be at least 6 characters") <==> password != [] && Utf16Length(password) < 6
    ensures e == None <==> Utf16Length(password) >= 6
  {
    if password == [] then Some("Password is required")
    else if Utf16Length(password) < 6 then Some("Password must be at least 6 characters")
    else None
  }

  /** `if (e) newErrors[field] = e`: one conditional insertion. */
  function Record(errors: map<FieldName, string>, field: FieldName, e: Option<string>): map<FieldName, string> {
    if e.Some? then errors[field := e.value] else errors
  }

  /** The `newErrors` object `validateForm` builds: one entry per failing
      field, holding that field's message. */
  function FormErrors(isSignUp: bool, form: FormData): (errors: map<FieldName, string>)
    ensures Name in errors <==> NameError(isSignUp, form.name).Some?
    ensures Email in errors <==> EmailError(form.email).Some?
    ensures Password in errors <==> PasswordError(form.password).Some?
    ensures Name in errors ==> errors[Name] == NameError(isSignUp, form.name).value
    ensures Email in errors ==> errors[Email] == EmailError(form.email).value
    ensures Password in errors ==> errors[Password] == PasswordError(form.password).value
    ensures errors.Keys <= {Name, Email, Password}
  {
    Recorded(NameError(isSignUp, form.name), EmailError(form.email), PasswordError(form.password))
  }

  /** The three conditional insertions, in the order `validateForm` makes
      them, starting from `{}`. */
  function Recorded(name: Option<string>, email: Option<string>, password: Option<string>): (errors: map<FieldName, string>)
    ensures Name in errors <==> name.Some?
    ensures Email in errors <==> email.Some?
    ensures Password in errors <==> password.Some?
    ensures name.Some? ==> errors[Name] == name.value
    ensures email.Some? ==> errors[Email] == email.value
    ensures password.Some? ==> errors[Password] == password.value
  {
    Record(Record(Record(map[], Name, name), Email, email), Password, password)
  }

  /** A map keyed by field names is empty exactly when none of the three
      names is a key, and exactly when it has no keys at all. */
  lemma EmptyErrors(errors: map<FieldName, string>)
    ensures errors == map[] <==> Name !in errors && Email !in errors && Password !in errors
    ensures errors == map[] <==> |errors| == 0
  {
    if errors != map[] {
      var field :| field in errors;
      assert field == Name || field == Email || field == Password;
    }
  }

  /** No entry is recorded exactly when every field passes. */
  lemma NoErrorsIff(isSignUp: bool, form: FormData)
    ensures FormErrors(isSignUp, form) == map[] <==>
      NameError(isSignUp, form.name).None? && EmailError(form.email).None? && PasswordError(form.password).None?
  {
    EmptyErrors(FormErrors(isSignUp, form));
  }

  /** `formData.name || formData.email.split('@')[0]`. */
  function DisplayName(form: FormData): (r: string)
    ensures form.name != [] ==> r == form.name
    ensures form.name == [] ==> r == BeforeFirst(form.email, '@')
  {
    if form.name != [] then form.name else BeforeFirst(form.email, '@')
  }

  /** What a submitted form hands to `onLogin`: the typed email, and a name
      that is never empty once the email has the accepted format. */
  function SubmittedUser(form: FormData): (user: User)
    ensures user.email == form.email
    ensures form.name != [] ==> user.name == form.name
    ensures ValidEmailFormat(form.email) ==> user.name != []
  {
    ValidEmailNotBlankAndNamed(form.email);
    User(DisplayName(form), form.email)
  }

  /** `errors[field]` is truthy: the input shows an error message. */
  predicate Shown(errors: map<FieldName, string>, field: FieldName) {
    field in errors && errors[field] != []
  }

  /** The effect of `handleChange` on `errors`: a shown error of the edited
      field is replaced by the empty string, anything else is kept. */
  function Cleared(errors: map<FieldName, string>, field: FieldName): (r: map<FieldName, string>)
    ensures r.Keys == errors.Keys
    ensures !Shown(r, field)
    ensures forall other :: other != field && other in errors ==> r[other] == errors[other]
  {
    if Shown(errors, field) then errors[field := ""] else errors
  }

  /** The checks of `validateForm`, in order, each inserting its message
      into `newErrors` when its field fails. */
  method CollectErrors(isSignUp: bool, form: FormData) returns (newErrors: map<FieldName, string>)
    ensures newErrors == FormErrors(isSignUp, form)
  {
    newErrors := map[];
    if isSignUp && Trim(form.name) == [] {
      newErrors := newErrors[Name := "Name is required"];
    }
    ghost var named := newErrors;
    if Trim(form.email) == [] {
      newErrors := newErrors[Email := "Email is required"];
    } else if !ValidEmailFormat(form.email) {
      newErrors := newErrors[Email := "Invalid email format"];
    }
    ghost var mailed := newErrors;
    if form.password == [] {
      newErrors := newErrors[Password := "Password is required"];
    } else if Utf16Length(form.password) < 6 {
      newErrors := newErrors[Password := "Password must be at least 6 characters"];
    }
    RecordedSteps(isSignUp, form, named, mailed, newErrors);
  }

  /** The three insertions of `CollectErrors` compose to `FormErrors`. */
  lemma RecordedSteps(isSignUp: bool, form: FormData, named: map<FieldName, string>,
                      mailed: map<FieldName, string>, collected: map<FieldName, string>)
    requires named == if isSignUp && Trim(form.name) == [] then map[Name := "Name is required"] else map[]
    requires mailed == if Trim(form.email) == [] then named[Email := "Email is required"]
                       else if !ValidEmailFormat(form.email) then named[Email := "Invalid email format"]
                       else named
    requires collected == if form.password == [] then mailed[Password := "Password is required"]
                          else if Utf16Length(form.password) < 6
                          then mailed[Password := "Password must be at least 6 characters"]
                          else mailed
    ensures collected == FormErrors(isSignUp, form)
  {
    assert named == Record(map[], Name, NameError(isSignUp, form.name));
    assert mailed == Record(named, Email, EmailError(form.email));
    assert collected == Record(mailed, Password, PasswordError(form.password));
  }

  /** A map with no keys is the empty map. */
  lemma NoKeys<K, V>(m: map<K, V>)
    ensures |m| == 0 <==> m == map[]
  {
  }

  class LoginForm {
    var isSignUp: bool
    var formData: FormData
    var errors: map<FieldName, string>

    /** The initial state: sign-in mode, empty inputs, no errors. */
    constructor()
      ensures !isSignUp && formData == FormData("", "", "") && errors == map[]
    {
      isSignUp := false;
      formData := FormData("", "", "");
      errors := map[];
    }

    /** `validateForm`: records the errors of the current inputs and answers
        whether there are none. */
    method ValidateForm() returns (valid: bool)
      modifies this`errors
      ensures errors == FormErrors(isSignUp, formData)
      ensures valid <==> errors == map[]
    {
      var newErrors := CollectErrors(isSignUp, formData);
      valid := |newErrors| == 0;
      NoKeys(newErrors);
      errors := newErrors;
    }

    /** `handleSubmit`: validates, and yields the user record for `onLogin`
        exactly when the form is valid. */
    method HandleSubmit() returns (user: Option<User>)
      modifies this`errors
      ensures errors == FormErrors(isSignUp, formData)
      ensures user.Some? <==> errors == map[]
      ensures user.Some? ==> user.value == SubmittedUser(formData)
    {
      var valid := ValidateForm();
      if valid {
        user := Some(SubmittedUser(formData));
      } else {
        user := None;
      }
    }

    /** `handleChange`: stores the new value of one input and hides that
        input's error, if it shows one. */
    method HandleChange(field: FieldName, value: string)
      modifies this`formData, this`errors
      ensures formData == Updated(old(formData), field, value)
      ensures errors == Cleared(old(errors), field)
    {
      formData := Updated(formData, field, value);
      if field in errors && errors[field] != [] {
        errors := errors[field := ""];
      }
    }

    /** The "Sign up" / "Sign in" switch: flips the mode and drops every
        error. */
    method ToggleSignUp()
      modifies this`isSignUp, this`errors
      ensures isSignUp == !old(isSignUp)
      ensures errors == map[]
    {
      isSignUp := !isSignUp;
      errors := map[];
    }
  }

  /** The form is valid exactly when the name is not blank (sign-up mode
      only), the regular expression accepts the email and the password has at
      least 6 UTF-16 units. */
  lemma ValidIff(isSignUp: bool, form: FormData)
    ensures FormErrors(isSignUp, form) == map[] <==>
      && (isSignUp ==> !Blank(form.name))
      && RegexMatches(form.email)
      && Utf16Length(form.password) >= 6
  {
    NoErrorsIff(isSignUp, form);
    EmailRule(form.email);
  }

  /** In sign-in mode the name is never checked, whatever it holds. */
  lemma SignInIgnoresName(form: FormData, name: string)
    ensures FormErrors(false, form) == FormErrors(false, form.(name := name))
    ensures Name !in FormErrors(false, form)
  {
    var a, b := FormErrors(false, form), FormErrors(false, form.(name := name));
    assert a.Keys == b.Keys;
  }

  /** A submitted user always has a non-empty name, and its email is the one
      typed in. */
  lemma SubmittedUserNamed(isSignUp: bool, form: FormData)
    requires FormErrors(isSignUp, form) == map[]
    ensures SubmittedUser(form).name != []
    ensures SubmittedUser(form).email == form.email
  {
    assert Email !in FormErrors(isSignUp, form);
    ValidEmailNotBlankAndNamed(form.email);
  }
}
