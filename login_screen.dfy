/**
 * `LoginScreen`: the sign-in form's field validation and the rule that enables
 * its button. The form's four `rememberSaveable` variables are the fields of
 * `LoginForm`; the change handlers and the `LaunchedEffect(authState)` block
 * are its methods. The localised messages are named by their string resources.
 */
module LoginScreen {
  import opened Outcomes
  import opened AuthViewModels

  /** The string resources a field error can show. */
  datatype FieldError = EmailCannotBeEmpty | InvalidEmailFormat | PasswordCannotBeEmpty | PasswordTooShort | InvalidData

  /** The shortest password `validatePassword` accepts. */
  const MinPasswordLength: nat := 6

  /** `validateEmail`: emptiness is checked first, then the presence of an '@'. */
  function ValidateEmail(email: string): (error: Option<FieldError>)
    ensures error.None? <==> email != [] && '@' in email
    ensures email == [] ==> error == Some(EmailCannotBeEmpty)
    ensures email != [] && '@' !in email ==> error == Some(InvalidEmailFormat)
  {
    if email == [] then Some(EmailCannotBeEmpty)
    else if '@' !in email then Some(InvalidEmailFormat)
    else None
  }

  /** `validatePassword`: emptiness is checked first, then the length. */
  function ValidatePassword(password: string): (error: Option<FieldError>)
    ensures error.None? <==> |password| >= MinPasswordLength
    ensures password == [] ==> error == Some(PasswordCannotBeEmpty)
    ensures 0 < |password| < MinPasswordLength ==> error == Some(PasswordTooShort)
  {
    if password == [] then Some(PasswordCannotBeEmpty)
    else if |password| < MinPasswordLength then Some(PasswordTooShort)
    else None
  }

  /** The validators only ever report their own field's messages. */
  lemma ValidatorsStayInTheirField(email: string, password: string)
    ensures ValidateEmail(email) != Some(InvalidData) && ValidatePassword(password) != Some(InvalidData)
    ensures ValidateEmail(email).Some? ==> ValidateEmail(email).value in {EmailCannotBeEmpty, InvalidEmailFormat}
    ensures ValidatePassword(password).Some? ==> ValidatePassword(password).value in {PasswordCannotBeEmpty, PasswordTooShort}
  {
  }

  class LoginForm {
    var email: string
    var password: string
    var emailError: Option<FieldError>
    var passwordError: Option<FieldError>

    /**
     * A field shows no error only while it is still empty from the start or
     * after it was last edited to a value its validator accepts.
     */
    ghost predicate Valid()
      reads this
    {
      && (emailError.None? ==> email == [] || ValidateEmail(email).None?)
      && (passwordError.None? ==> password == [] || ValidatePassword(password).None?)
    }

    constructor ()
      ensures Valid()
      ensures email == [] && password == [] && emailError == None && passwordError == None
    {
      email := [];
      password := [];
      emailError := None;
      passwordError := None;
    }

    /** `onEmailChange`: stores the text and re-validates the e-mail field only. */
    method OnEmailChange(text: string)
      requires Valid()
      modifies this`email, this`emailError
      ensures Valid()
      ensures email == text && emailError == ValidateEmail(text)
    {
      email := text;
      emailError := ValidateEmail(text);
    }

    /** `onPasswordChange`: stores the text and re-validates the password field only. */
    method OnPasswordChange(text: string)
      requires Valid()
      modifies this`password, this`passwordError
      ensures Valid()
      ensures password == text && passwordError == ValidatePassword(text)
    {
      password := text;
      passwordError := ValidatePassword(text);
    }

    /** `LaunchedEffect(authState)`: an `Error` marks both fields as invalid data; other states change nothing. */
    method OnAuthState(state: AuthState)
      requires Valid()
      modifies this`emailError, this`passwordError
      ensures Valid()
      ensures state.Error? ==> emailError == Some(InvalidData) && passwordError == Some(InvalidData)
      ensures !state.Error? ==> emailError == old(emailError) && passwordError == old(passwordError)
    {
      if state.Error? {
        emailError := Some(InvalidData);
        passwordError := Some(InvalidData);
      }
    }

    /**
     * `isButtonEnabled && !isLoading`: both fields filled, neither showing an
     * error, and no sign-in in progress. An enabled button always submits an
     * e-mail with an '@' and a password of at least six characters.
     */
    function IsButtonEnabled(isLoading: bool): (enabled: bool)
      requires Valid()
      reads this
      ensures enabled ==> !isLoading && emailError.None? && passwordError.None?
      ensures enabled ==> '@' in email && |password| >= MinPasswordLength
      ensures !isLoading && emailError.None? && passwordError.None? ==>
        (ValidateEmail(email).None? && ValidatePassword(password).None? ==> enabled)
    {
      email != [] && password != [] && emailError.None? && passwordError.None? && !isLoading
    }
  }

  /**
   * After a failed sign-in, editing one field re-validates only that field: the
   * other keeps its invalid-data error and the button stays disabled, however
   * good the new text is.
   */
  method EditOneFieldAfterError(form: LoginForm, message: string, text: string)
    requires form.Valid()
    modifies form
    ensures form.Valid()
    ensures form.passwordError == Some(InvalidData)
    ensures !form.IsButtonEnabled(false)
  {
    form.OnAuthState(Error(message));
    form.OnEmailChange(text);
  }

  /** Editing both fields to accepted values after a failed sign-in enables the button again. */
  method EditBothFieldsAfterError(form: LoginForm, message: string, email: string, password: string)
    requires form.Valid()
    requires ValidateEmail(email).None? && ValidatePassword(password).None?
    modifies form
    ensures form.Valid()
    ensures form.IsButtonEnabled(false) && !form.IsButtonEnabled(true)
  {
    form.OnAuthState(Error(message));
    form.OnEmailChange(email);
    form.OnPasswordChange(password);
  }
}
