/** The signup screen (src/App/Pages/Auth/SignupScreen.tsx): the guard chain
    of `handleSignup` and the tab switch. Alerts are returned as values. */
module Signup {
  import opened Wrappers
  import opened Validation
  import opened AuthStore

  datatype SignupForm = SignupForm(
    fullName: string, email: string, phoneNumber: string, password: string, confirmPassword: string)

  /** The failures, in the order the chain tests them. */
  datatype SignupError = EmptyField | InvalidEmail | ShortPassword | PasswordsDiffer

  function ErrorMessage(error: SignupError): string {
    match error
    case EmptyField => "Please fill in all fields"
    case InvalidEmail => "Please enter a valid email address"
    case ShortPassword => "Password must be at least 6 characters"
    case PasswordsDiffer => "Passwords do not match"
  }

  /** `!field` for a string: only the empty string is missing (spaces count as filled). */
  predicate AnyFieldEmpty(form: SignupForm) {
    form.fullName == "" || form.email == "" || form.phoneNumber == "" || form.password == "" || form.confirmPassword == ""
  }

  /** The first failing check, or none. */
  function FirstFailure(form: SignupForm): Option<SignupError> {
    if AnyFieldEmpty(form) then Some(EmptyField)
    else if !ValidateEmail(form.email) then Some(InvalidEmail)
    else if !ValidatePassword(form.password) then Some(ShortPassword)
    else if !ValidatePasswordsMatch(form.password, form.confirmPassword) then Some(PasswordsDiffer)
    else None
  }

  /** Each error is reported exactly when its check fails and every earlier check passed. */
  lemma GuardOrder(form: SignupForm)
    ensures FirstFailure(form) == Some(EmptyField) <==> AnyFieldEmpty(form)
    ensures FirstFailure(form) == Some(InvalidEmail) <==> !AnyFieldEmpty(form) && !ValidateEmail(form.email)
    ensures FirstFailure(form) == Some(ShortPassword) <==>
      !AnyFieldEmpty(form) && ValidateEmail(form.email) && |form.password| < 6
    ensures FirstFailure(form) == Some(PasswordsDiffer) <==>
      !AnyFieldEmpty(form) && ValidateEmail(form.email) && |form.password| >= 6 && form.password != form.confirmPassword
    ensures FirstFailure(form) == None <==>
      !AnyFieldEmpty(form) && ValidateEmail(form.email) && |form.password| >= 6 && form.password == form.confirmPassword
  {
  }

  /** The phone number must be present but its format is never checked. */
  lemma PhoneNeverValidated(form: SignupForm, phone: string)
    requires phone != "" && form.phoneNumber != ""
    ensures FirstFailure(form.(phoneNumber := phone)) == FirstFailure(form)
  {
  }

  /** A form that passes carries an address with exactly one `@` and a
      non-empty confirmation equal to the password. */
  lemma PassingForm(form: SignupForm)
    requires FirstFailure(form) == None
    ensures multiset(form.email)['@'] == 1
    ensures form.confirmPassword == form.password && |form.confirmPassword| >= 6
  {
    EmailHasOneAt(form.email);
  }

  /** The screen's component state. */
  class SignupScreen {
    var form: SignupForm
    var activeTab: string
    var isLoading: bool

    /** The form opens prefilled with a sample name, address and phone number. */
    constructor()
      ensures form == SignupForm("Dexter Morgan", "dextermrgn@gmail.com", "085191039930", "", "")
      ensures activeTab == "register" && !isLoading
    {
      form := SignupForm("Dexter Morgan", "dextermrgn@gmail.com", "085191039930", "", "");
      activeTab := "register";
      isLoading := false;
    }

    /** `handleSignup`: the first failing check is alerted and the store is
        not called; otherwise the store signs the user up (with `id` for the
        timestamp) and the loading flag ends false. */
    method HandleSignup(auth: AuthStore, id: string) returns (alert: Option<string>)
      modifies this, auth
      ensures form == old(form) && activeTab == old(activeTab)
      ensures FirstFailure(form).Some? ==>
        && alert == Some(ErrorMessage(FirstFailure(form).value))
        && auth.State() == old(auth.State()) && isLoading == old(isLoading)
      ensures FirstFailure(form).None? ==>
        && alert == None && !isLoading
        && auth.State() == old(auth.State()).(user := Some(User(id, form.fullName, form.email)), isLoading := false)
    {
      var failure := FirstFailure(form);
      if failure.Some? {
        alert := Some(ErrorMessage(failure.value));
        return;
      }
      isLoading := true;
      auth.Signup(form.fullName, form.email, form.password, id);
      isLoading := false;
      alert := None;
    }

    /** `handleTabChange`: the login tab goes back to the previous screen and
        leaves the tab alone; any other key becomes the active tab. */
    method HandleTabChange(key: string) returns (goBack: bool)
      modifies this
      ensures goBack <==> key == "login"
      ensures goBack ==> activeTab == old(activeTab)
      ensures !goBack ==> activeTab == key
      ensures form == old(form) && isLoading == old(isLoading)
    {
      if key == "login" {
        goBack := true;
      } else {
        activeTab := key;
        goBack := false;
      }
    }
  }
}
