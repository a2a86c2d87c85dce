/**
 * The mock account store of components/Login.tsx: one account under the
 * localStorage key 'user', and a session under 'sessionToken'.
 */
module LoginComponent {
  import opened Wrappers
  import opened Text
  import opened Browser

  const SessionToken := "mock-logged-in"
  const EmptyFieldsError := "Email and password cannot be empty."
  const NoAccountError := "No account found with this email. Please sign up."
  const BadCredentialsError := "Invalid email or password."
  const DuplicateAccountError := "An account with this email already exists."

  /** What one submission leaves behind: the error shown, localStorage, and whether `onLoginSuccess` was called. */
  datatype Outcome = Outcome(error: string, storage: Storage, loggedIn: bool)

  /** `handleSubmit` in login view (`isLoginView`) or sign-up view. */
  function Submit(isLoginView: bool, email: string, password: string, stored: Storage): (r: Outcome)
    ensures AllWhitespace(email) || AllWhitespace(password) ==> r == Outcome(EmptyFieldsError, stored, false)
    ensures r.loggedIn <==>
      && !AllWhitespace(email) && !AllWhitespace(password)
      && if isLoginView then stored.user == Some(Account(email, password))
         else !(stored.user.Some? && stored.user.value.email == email)
    ensures !r.loggedIn ==> r.storage == stored && r.error != ""
    ensures r.loggedIn ==> r.error == "" && r.storage.sessionToken == Some(SessionToken) && r.storage.apiKey == stored.apiKey
    ensures r.loggedIn ==> r.storage.user == if isLoginView then stored.user else Some(Account(email, password))
    ensures isLoginView && !r.loggedIn && !AllWhitespace(email) && !AllWhitespace(password) ==>
      r.error == if stored.user.None? then NoAccountError else BadCredentialsError
    ensures !isLoginView && !r.loggedIn && !AllWhitespace(email) && !AllWhitespace(password) ==>
      r.error == DuplicateAccountError
  {
    TrimEmptyIff(email);
    TrimEmptyIff(password);
    if Trim(email) == "" || Trim(password) == "" then
      Outcome(EmptyFieldsError, stored, false)
    else if isLoginView then
      match stored.user
      case None => Outcome(NoAccountError, stored, false)
      case Some(user) =>
        if user.email == email && user.password == password then
          Outcome("", stored.(sessionToken := Some(SessionToken)), true)
        else
          Outcome(BadCredentialsError, stored, false)
    else if stored.user.Some? && stored.user.value.email == email then
      Outcome(DuplicateAccountError, stored, false)
    else
      Outcome("", stored.(user := Some(Account(email, password)), sessionToken := Some(SessionToken)), true)
  }

  /** After a successful sign-up with (e, p), logging in with (e, p) succeeds. */
  lemma SignUpThenLogIn(email: string, password: string, stored: Storage)
    requires Submit(false, email, password, stored).loggedIn
    ensures Submit(true, email, password, Submit(false, email, password, stored).storage).loggedIn
  {
  }

  /** Sign-up with another email replaces the one stored account: the old credentials stop working. */
  lemma SignUpEvictsOtherAccount(email: string, password: string, previous: Account, stored: Storage)
    requires stored.user == Some(previous) && previous.email != email
    requires !AllWhitespace(email) && !AllWhitespace(password)
    requires !AllWhitespace(previous.email) && !AllWhitespace(previous.password)
    ensures Submit(false, email, password, stored).loggedIn
    ensures Submit(true, previous.email, previous.password, Submit(false, email, password, stored).storage).error == BadCredentialsError
  {
  }

  /** The Login component: its four state variables and the shared localStorage. */
  class Login {
    var isLoginView: bool
    var email: string
    var password: string
    var error: string
    const storage: LocalStorage

    constructor(storage: LocalStorage)
      ensures isLoginView && email == "" && password == "" && error == ""
      ensures this.storage == storage
    {
      isLoginView, email, password, error := true, "", "", "";
      this.storage := storage;
    }

    /** `handleSubmit`; `loggedIn` says whether `onLoginSuccess` was called. */
    method HandleSubmit() returns (loggedIn: bool)
      modifies this`error, storage
      ensures var r := Submit(isLoginView, email, password, old(storage.items));
              error == r.error && storage.items == r.storage && loggedIn == r.loggedIn
    {
      var email, password, stored := email, password, storage.items;
      error := "";
      loggedIn := false;
      if Trim(email) == "" || Trim(password) == "" {
        error := EmptyFieldsError;
        return;
      }
      if isLoginView {
        if stored.user.None? {
          error := NoAccountError;
          return;
        }
        var user := stored.user.value;
        if user.email == email && user.password == password {
          storage.items := stored.(sessionToken := Some(SessionToken));
          loggedIn := true;
        } else {
          error := BadCredentialsError;
        }
      } else {
        if stored.user.Some? {
          var user := stored.user.value;
          if user.email == email {
            error := DuplicateAccountError;
            return;
          }
        }
        storage.items := stored.(user := Some(Account(email, password)), sessionToken := Some(SessionToken));
        loggedIn := true;
      }
    }

    /** `toggleView`: the other view, with every field cleared; toggling twice restores the view. */
    method ToggleView()
      modifies this`isLoginView, this`email, this`password, this`error
      ensures isLoginView == !old(isLoginView)
      ensures email == "" && password == "" && error == ""
    {
      isLoginView := !isLoginView;
      error := "";
      email := "";
      password := "";
    }
  }
}
