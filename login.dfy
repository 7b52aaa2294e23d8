/**
 * The login form (`screens/Login.tsx`). Submitting checks that both fields are
 * filled, then starts a one-second simulated authentication whose completion
 * accepts any e-mail containing '@' with a password longer than four characters.
 * The timer is modelled by a pending record of the credentials it captured and
 * an explicit completion step.
 */
module Login {
  import opened Types
  import opened Text

  /** What the form reports to the application shell: `onLogin()` or `onError(msg)`. */
  datatype Callback = OnLogin | OnError(message: string)

  const MissingFields: string := "Por favor completa todos los campos."
  const InvalidCredentials: string := "Credenciales inválidas. Intenta de nuevo."
  const ContactAdmin: string := "Contacta al administrador del sistema."

  /** The simulated server's acceptance test. */
  predicate CredentialsAccepted(email: string, password: string)
  {
    Includes(email, "@") && |password| > 4
  }

  /** Acceptance means: an '@' somewhere in the e-mail and at least five password characters. */
  lemma CredentialsAcceptedSpec(email: string, password: string)
    ensures CredentialsAccepted(email, password) <==> '@' in email && |password| >= 5
  {
    IncludesChar(email, '@');
  }

  /**
   * Every callback one submission eventually produces, if the form stays mounted
   * until the simulated request completes.
   */
  function SubmitCallbacks(email: string, password: string): seq<Callback>
  {
    if email == "" || password == "" then [OnError(MissingFields)]
    else if CredentialsAccepted(email, password) then [OnLogin]
    else [OnError(InvalidCredentials)]
  }

  /**
   * A submission produces exactly one callback: a login iff the credentials pass the
   * acceptance test, and otherwise the error naming what was wrong.
   */
  lemma SubmitCallbacksSpec(email: string, password: string)
    ensures |SubmitCallbacks(email, password)| == 1
    ensures SubmitCallbacks(email, password)[0] == OnLogin
            <==> '@' in email && |password| >= 5
    ensures SubmitCallbacks(email, password)[0] == OnError(MissingFields)
            <==> email == "" || password == ""
    ensures SubmitCallbacks(email, password)[0] == OnError(InvalidCredentials)
            <==> email != "" && password != "" && ('@' !in email || |password| < 5)
  {
    CredentialsAcceptedSpec(email, password);
  }

  /** The credentials a pending request captured when it was started. */
  datatype Credentials = Credentials(email: string, password: string)

  class LoginForm {
    var email: string
    var password: string
    var isLoading: bool
    /** The simulated request still to complete, if any. */
    var pending: Option<Credentials>

    /** A request in flight keeps the form in its loading state. */
    ghost predicate Valid()
      reads this
    {
      pending.Some? ==> isLoading
    }

    constructor ()
      ensures Valid()
      ensures email == "" && password == "" && !isLoading && pending == None
    {
      email, password, isLoading, pending := "", "", false, None;
    }

    /** The submit button's caption. */
    function ButtonLabel(): string
      reads this
    {
      if isLoading then "Autenticando..." else "Iniciar sesión"
    }

    /**
     * The "forgot password" link. It sits outside the form and is never disabled, so
     * it works while a request is pending; it only reports the administrator
     * message and leaves the form untouched.
     */
    method ForgotPassword() returns (fired: Callback)
      requires Valid()
      ensures fired.OnError? && fired.message == ContactAdmin
      ensures fired != OnLogin
    {
      fired := OnError(ContactAdmin);
    }

    /** Typing in the e-mail field, which stays enabled during a request. */
    method SetEmail(value: string)
      requires Valid()
      modifies this`email
      ensures Valid() && email == value
    {
      email := value;
    }

    /** Typing in the password field, which stays enabled during a request. */
    method SetPassword(value: string)
      requires Valid()
      modifies this`password
      ensures Valid() && password == value
    {
      password := value;
    }

    /**
     * `handleSubmit`. The submit button is disabled while loading, so a submission
     * then does nothing. An empty field reports an error at once; otherwise the form
     * enters its loading state and a request with the current credentials starts.
     */
    method Submit() returns (fired: Option<Callback>)
      requires Valid()
      modifies this`isLoading, this`pending
      ensures Valid()
      ensures old(isLoading) ==> fired == None && unchanged(this)
      ensures !old(isLoading) && (email == "" || password == "") ==>
                fired == Some(OnError(MissingFields)) && unchanged(this)
      ensures !old(isLoading) && email != "" && password != "" ==>
                fired == None && isLoading && pending == Some(Credentials(email, password))
    {
      if isLoading {
        return None;
      }
      if email == "" || password == "" {
        return Some(OnError(MissingFields));
      }
      isLoading := true;
      pending := Some(Credentials(email, password));
      fired := None;
    }

    /**
     * The request's completion: it judges the credentials captured at submission,
     * not the fields' current contents. On success the form stays in its loading
     * state (the application replaces it); on failure it becomes usable again.
     */
    method Complete() returns (fired: Callback)
      requires Valid() && pending.Some?
      modifies this`isLoading, this`pending
      ensures Valid() && pending == None
      ensures fired == OnLogin <==>
                CredentialsAccepted(old(pending).value.email, old(pending).value.password)
      ensures fired != OnLogin ==> fired == OnError(InvalidCredentials) && !isLoading
      ensures fired == OnLogin ==> isLoading
    {
      var c := pending.value;
      pending := None;
      if CredentialsAccepted(c.email, c.password) {
        fired := OnLogin;
      } else {
        isLoading := false;
        fired := OnError(InvalidCredentials);
      }
    }
  }

  /**
   * Filling the form, submitting it and letting the request complete produces the
   * callbacks `SubmitCallbacks` describes, even if the fields are edited meanwhile.
   */
  method FillAndSubmit(email: string, password: string, editedEmail: string, editedPassword: string)
    returns (callbacks: seq<Callback>)
    ensures callbacks == SubmitCallbacks(email, password)
  {
    var form := new LoginForm();
    form.SetEmail(email);
    form.SetPassword(password);
    var first := form.Submit();
    if first.Some? {
      return [first.value];
    }
    form.SetEmail(editedEmail);
    form.SetPassword(editedPassword);
    var second := form.Complete();
    callbacks := [second];
  }
}
