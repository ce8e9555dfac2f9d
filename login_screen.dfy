/** The login screen of app/login.tsx: form state, the sign-in/sign-up
    toggle, the alert it raises, and `handleSubmit`'s validation, dispatch
    to the session store and role routing. `showWebAlert` is modelled as
    setting the alert state on every platform. */
module LoginScreen {
  import opened Wrappers
  import opened Types
  import Auth
  import Session
  import opened Router

  datatype FormData = FormData(name: string, email: string, password: string)

  /** `alertConfig` without its `onOk` callback, which `handleSubmit` never passes. */
  datatype AlertConfig = AlertConfig(visible: bool, title: string, message: string)

  const FillAllFields: string := "Please fill in all required fields"
  const EnterName: string := "Please enter your name"
  const AuthErrorTitle: string := "Authentication Error"
  const DemoCredentialsText: string :=
    "Tourist Account:\nemail: tourist@monastery.com\npassword: 123456\n\nAdmin Account:\nemail: admin@monastery.com\npassword: 123456"

  /** The checks `handleSubmit` makes before any auth call: email and password
      are required in both modes, the name only when signing up. */
  function ValidateForm(isSignUp: bool, form: FormData): (e: Option<string>)
    ensures e == Some(FillAllFields) <==> form.email == "" || form.password == ""
    ensures e == Some(EnterName) <==> form.email != "" && form.password != "" && isSignUp && form.name == ""
    ensures e.None? <==> form.email != "" && form.password != "" && (isSignUp ==> form.name != "")
  {
    if form.email == "" || form.password == "" then Some(FillAllFields)
    else if isSignUp && form.name == "" then Some(EnterName)
    else None
  }

  /** In sign-in mode the name field plays no part in validation. */
  lemma SignInIgnoresName(form: FormData, name: string)
    ensures ValidateForm(false, form) == ValidateForm(false, form.(name := name))
  {
  }

  /** What the store's call resolves with: `signup(name, email, password)` in
      sign-up mode, `login(email, password)` otherwise. */
  function SubmitOutcome(isSignUp: bool, form: FormData, now: nat, fault: Option<string>): (r: Result<User>)
    ensures !isSignUp ==> r == Auth.Authenticate(form.email, form.password)
    ensures isSignUp ==> (r.Success? <==> fault.None?)
    ensures isSignUp && r.Success? ==> r.value.role == Tourist && r.value.name == form.name
    ensures r.Success? ==> r.value.email == form.email
  {
    if isSignUp then
      if fault.Some? then Failure(fault.value) else Success(Auth.SignupUser(now, form.name, form.email))
    else Auth.Authenticate(form.email, form.password)
  }

  /** Navigation after a successful auth call: tourist and admin go to their
      roots; any other role string leaves the screen where it is. */
  function RedirectAfterAuth(role: string): (r: Option<Route>)
    ensures r == Some(TouristRoot) <==> role == "tourist"
    ensures r == Some(AdminRoot) <==> role == "admin"
    ensures r.None? <==> role != "tourist" && role != "admin"
  {
    if role == "tourist" then Some(TouristRoot)
    else if role == "admin" then Some(AdminRoot)
    else None
  }

  /** For every typed user the screen sends them where the entry page would. */
  lemma RedirectAgreesWithIndex(u: User)
    ensures RedirectAfterAuth(RoleName(u.role)) == IndexNavigation(Some(u), false, true, None)
  {
  }

  class LoginForm {
    const auth: Session.AuthProvider
    var isSignUp: bool
    var form: FormData
    var alert: AlertConfig

    constructor (auth: Session.AuthProvider)
      ensures this.auth == auth
      ensures !isSignUp && form == FormData("", "", "") && alert == AlertConfig(false, "", "")
    {
      this.auth := auth;
      isSignUp := false;
      form := FormData("", "", "");
      alert := AlertConfig(false, "", "");
    }

    method EditName(text: string)
      modifies this
      ensures form == old(form).(name := text)
      ensures isSignUp == old(isSignUp) && alert == old(alert)
    {
      form := form.(name := text);
    }

    method EditEmail(text: string)
      modifies this
      ensures form == old(form).(email := text)
      ensures isSignUp == old(isSignUp) && alert == old(alert)
    {
      form := form.(email := text);
    }

    method EditPassword(text: string)
      modifies this
      ensures form == old(form).(password := text)
      ensures isSignUp == old(isSignUp) && alert == old(alert)
    {
      form := form.(password := text);
    }

    /** The "Sign In" / "Sign Up" link. */
    method ToggleMode()
      modifies this
      ensures isSignUp == !old(isSignUp)
      ensures form == old(form) && alert == old(alert)
    {
      isSignUp := !isSignUp;
    }

    /** `showWebAlert(title, message)`. */
    method ShowAlert(title: string, message: string)
      modifies this
      ensures alert == AlertConfig(true, title, message)
      ensures isSignUp == old(isSignUp) && form == old(form)
    {
      alert := AlertConfig(true, title, message);
    }

    /** The alert's OK button hides it and keeps its text. */
    method DismissAlert()
      modifies this
      ensures alert == old(alert).(visible := false)
      ensures isSignUp == old(isSignUp) && form == old(form)
    {
      alert := alert.(visible := false);
    }

    /** `handleSubmit`. A form that fails validation raises an "Error" alert
        and calls nothing; otherwise the store is called in the current mode,
        success routes by role and failure raises an "Authentication Error"
        alert with the error's message and does not navigate. `now` and
        `fault` are passed on to the store's `signup`. */
    method HandleSubmit(now: nat, fault: Option<string>) returns (nav: Option<Route>)
      modifies this, auth, auth.gateway
      ensures isSignUp == old(isSignUp) && form == old(form)
      ensures ValidateForm(isSignUp, form).Some? ==>
                nav.None? && alert == AlertConfig(true, "Error", ValidateForm(isSignUp, form).value)
                && unchanged(auth, auth.gateway)
      ensures ValidateForm(isSignUp, form).None? ==>
                var r := SubmitOutcome(isSignUp, form, now, fault);
                && !auth.isLoading
                && auth.history == old(auth.history)
                     + [Session.SetLoading(true), Session.Call(if isSignUp then Session.SignupCall else Session.LoginCall)]
                     + (if r.Success? then [Session.SetUser(Some(r.value))] else [])
                     + [Session.SetLoading(false)]
                && auth.user == (if r.Success? then Some(r.value) else old(auth.user))
                && auth.gateway.currentUser == (if r.Success? then Some(r.value) else old(auth.gateway.currentUser))
                && (r.Success? ==> nav == RedirectAfterAuth(RoleName(r.value.role)) && alert == old(alert))
                && (r.Failure? ==> nav.None? && alert == AlertConfig(true, AuthErrorTitle, r.error))
    {
      var invalid := ValidateForm(isSignUp, form);
      if invalid.Some? {
        ShowAlert("Error", invalid.value);
        return None;
      }
      var r: Result<User>;
      if isSignUp {
        r := auth.Signup(form.name, form.email, form.password, now, fault);
      } else {
        r := auth.Login(form.email, form.password);
      }
      if r.Success? {
        if r.value.role == Tourist {
          nav := Some(TouristRoot);
        } else if r.value.role == Admin {
          nav := Some(AdminRoot);
        } else {
          nav := None;
        }
      } else {
        ShowAlert(AuthErrorTitle, r.error);
        nav := None;
      }
    }

    /** "View Demo Credentials". */
    method ShowDemoCredentials()
      modifies this
      ensures alert == AlertConfig(true, "Demo Credentials", DemoCredentialsText)
      ensures isSignUp == old(isSignUp) && form == old(form)
    {
      ShowAlert("Demo Credentials", DemoCredentialsText);
    }
  }
}
