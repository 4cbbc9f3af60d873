/**
 * The sign-in / sign-up card: the validity rule of its input fields, the
 * error and success indicators those fields derive, and the form's own state
 * (mode, the three values, the password-match flag, the message and the
 * submitting flag) with the handlers that change it.
 *
 * The authentication call and the watchlist request are not made here: their
 * outcomes are inputs of `OnSubmit`, which returns the requests it would send.
 */
module Login {
  import opened Wrappers
  import opened Text

  const MismatchMessage: string := "Passwords do not match"
  const WatchlistFailedMessage: string := "Logged in, but failed to add movie to watchlist."
  const AuthFailedMessage: string := "Authentication failed."
  const UnexpectedMessage: string := "An unexpected error occurred."
  const ErrorType: string := "error"
  /** The minimum length the card gives its password fields. */
  const PasswordMinLength: nat := 6

  // ---------------------------------------------------------------------
  // Field validity
  // ---------------------------------------------------------------------

  /** No white space anywhere in `s` (every character matches `\S`). */
  predicate NoSpace(s: string) {
    forall i :: 0 <= i < |s| ==> !IsSpace(s[i])
  }

  /**
   * `\S+@\S+\.\S+` matches with its `@` at `at` and its `.` at `dot`: a
   * non-space character before the `@`, only non-space characters (at least
   * one) between the `@` and the `.`, and a non-space character after it.
   */
  predicate EmailShapeAt(s: string, at: int, dot: int) {
    && 0 < at && at + 1 < dot && dot + 1 < |s|
    && s[at] == '@' && s[dot] == '.'
    && !IsSpace(s[at - 1]) && NoSpace(s[at + 1..dot]) && !IsSpace(s[dot + 1])
  }

  /** `/\S+@\S+\.\S+/.test(s)`: the pattern matches somewhere in `s`. */
  predicate EmailShape(s: string) {
    exists at, dot | 0 <= at < |s| && 0 <= dot < |s| :: EmailShapeAt(s, at, dot)
  }

  /** `minLength || (type === 'password' ? 6 : 1)`: an absent or zero minimum falls back to the type's. */
  function RequiredLength(kind: string, minLength: Option<nat>): (n: nat)
    ensures n >= 1
    ensures minLength.Some? && minLength.value != 0 ==> n == minLength.value
    ensures (minLength.None? || minLength.value == 0) ==> n == if kind == "password" then 6 else 1
  {
    if minLength.Some? && minLength.value != 0 then minLength.value
    else if kind == "password" then PasswordMinLength
    else 1
  }

  /** The field's validity after a change: long enough and, for an email field, of e-mail shape. */
  predicate IsValidInput(value: string, kind: string, minLength: Option<nat>)
    ensures IsValidInput(value, kind, minLength) ==> |value| >= 1
    ensures IsValidInput(value, kind, minLength) && kind == "email" ==> '@' in value
  {
    |value| >= RequiredLength(kind, minLength) && (kind == "email" ==> EmailShape(value))
  }

  /**
   * An empty value is never valid, a password field without its own minimum
   * needs six characters, and an email field needs an `@`.
   */
  lemma InvalidInputs(value: string, kind: string, minLength: Option<nat>)
    ensures value == [] ==> !IsValidInput(value, kind, minLength)
    ensures kind == "password" && minLength.None? && |value| < 6 ==> !IsValidInput(value, kind, minLength)
    ensures kind == "email" && '@' !in value ==> !IsValidInput(value, kind, minLength)
  {
  }

  /**
   * The pattern is not anchored: whatever surrounds an address of e-mail
   * shape, the whole is still of e-mail shape.
   */
  lemma {:induction false} EmailShapeInContext(prefix: string, s: string, suffix: string)
    requires EmailShape(s)
    ensures EmailShape(prefix + s + suffix)
  {
    var at, dot :| 0 <= at < |s| && 0 <= dot < |s| && EmailShapeAt(s, at, dot);
    var t := prefix + s + suffix;
    var n := |prefix|;
    assert t[n + at + 1..n + dot] == s[at + 1..dot];
    assert t[n + at] == s[at] && t[n + dot] == s[dot];
    assert t[n + at - 1] == s[at - 1] && t[n + dot + 1] == s[dot + 1];
    assert EmailShapeAt(t, n + at, n + dot);
  }

  /** A plain address `local@domain.tld` of non-space parts without `@` or `.` is valid. */
  lemma PlainAddressIsValid(local: string, domain: string, tld: string)
    requires local != [] && domain != [] && tld != []
    requires NoSpace(local) && NoSpace(domain) && NoSpace(tld)
    ensures IsValidInput(local + "@" + domain + "." + tld, "email", None)
  {
    var s := local + "@" + domain + "." + tld;
    var at := |local|;
    var dot := |local| + 1 + |domain|;
    assert s[at] == '@' && s[dot] == '.';
    assert s[at - 1] == local[|local| - 1];
    assert s[dot + 1] == tld[0];
    assert s[at + 1..dot] == domain;
    assert EmailShapeAt(s, at, dot);
  }

  // ---------------------------------------------------------------------
  // The input field
  // ---------------------------------------------------------------------

  /** One input of the card, with the state it keeps for itself. */
  class InputField {
    const kind: string
    const minLength: Option<nat>
    var isFocused: bool
    var isValid: bool
    var hasInteracted: bool

    constructor (kind: string, minLength: Option<nat>)
      ensures this.kind == kind && this.minLength == minLength
      ensures !isFocused && !isValid && !hasInteracted
    {
      this.kind := kind;
      this.minLength := minLength;
      isFocused := false;
      isValid := false;
      hasInteracted := false;
    }

    /** A change of the value: records its validity and reports it to the form. */
    method HandleInputChange(value: string) returns (valid: bool)
      modifies this
      ensures valid == IsValidInput(value, kind, minLength) && isValid == valid
      ensures isFocused == old(isFocused) && hasInteracted == old(hasInteracted)
    {
      valid := IsValidInput(value, kind, minLength);
      isValid := valid;
    }

    method HandleFocus()
      modifies this
      ensures isFocused && hasInteracted && isValid == old(isValid)
    {
      isFocused := true;
      hasInteracted := true;
    }

    method HandleBlur()
      modifies this
      ensures !isFocused && hasInteracted == old(hasInteracted) && isValid == old(isValid)
    {
      isFocused := false;
    }

    /** The error is shown only for a non-empty error text on a field the user has focused. */
    predicate HasError(error: Option<string>)
      reads this
      ensures HasError(error) ==> hasInteracted && error.Some? && |error.value| >= 1
      ensures !hasInteracted ==> !HasError(error)
    {
      Truthy(error) && hasInteracted
    }

    /**
     * The success mark: asked for, no error shown, valid, not empty and
     * interacted with; it never appears together with the error.
     */
    predicate IsSuccess(success: bool, error: Option<string>, value: string)
      reads this
      ensures IsSuccess(success, error, value) ==> !HasError(error) && isValid && value != []
    {
      success && !HasError(error) && isValid && |value| > 0 && hasInteracted
    }
  }

  // ---------------------------------------------------------------------
  // The form
  // ---------------------------------------------------------------------

  /** `e.target.setCustomValidity(...)` on the confirm field: empty when it matches or is still short. */
  function ConfirmValidity(password: string, confirm: string): (v: string)
    ensures v == [] <==> confirm == password || |confirm| < PasswordMinLength
    ensures v != [] ==> v == MismatchMessage
  {
    if confirm == password || |confirm| < PasswordMinLength then "" else MismatchMessage
  }

  datatype AuthResult = AuthResult(success: bool, message: Option<string>)

  /**
   * How the `login`/`signup` promise settles: with a value (`None` being
   * `undefined`), or by throwing, with the server's `message` if the error
   * carries a response.
   */
  datatype AuthOutcome = Returned(result: Option<AuthResult>) | Threw(responseMessage: Option<string>)

  /** The requests a submit sends. */
  datatype Request =
    | Signup(email: string, password: string)
    | SignIn(email: string, password: string)
    | AddToWatchlist(movieId: string, mediaType: string, title: string, poster: string)

  /** `searchParams.get(name)`. */
  function Param(params: map<string, string>, name: string): Option<string> {
    if name in params then Some(params[name]) else None
  }

  /** Sign-in came from a watchlist button that passed everything the watchlist entry needs. */
  predicate WatchlistRequested(params: map<string, string>) {
    && Param(params, "redirect") == Some("watchlist")
    && Truthy(Param(params, "movieId")) && Truthy(Param(params, "mediaType"))
    && Truthy(Param(params, "title")) && Truthy(Param(params, "poster"))
  }

  function WatchlistRequest(params: map<string, string>): Request
    requires WatchlistRequested(params)
  {
    AddToWatchlist(params["movieId"], params["mediaType"], params["title"], params["poster"])
  }

  /** The promise settled with a result whose `success` is set. */
  predicate AuthSucceeded(auth: AuthOutcome) {
    auth.Returned? && auth.result.Some? && auth.result.value.success
  }

  /** The requests a submit sends after the authentication request. */
  function AfterAuthRequests(auth: AuthOutcome, params: map<string, string>): seq<Request> {
    if AuthSucceeded(auth) && WatchlistRequested(params) then [WatchlistRequest(params)] else []
  }

  /**
   * The message a submit that passed the mismatch guard leaves; `None` when
   * it sets none, so the message stays cleared. Reading `success` of an
   * `undefined` result throws a `TypeError`, which carries no response.
   */
  function AfterAuthMessage(auth: AuthOutcome, params: map<string, string>, watchlistOk: bool): Option<string> {
    match auth
    case Threw(responseMessage) => Some(OrDefault(responseMessage, UnexpectedMessage))
    case Returned(None) => Some(UnexpectedMessage)
    case Returned(Some(result)) =>
      if !result.success then Some(OrDefault(result.message, AuthFailedMessage))
      else if WatchlistRequested(params) && !watchlistOk then Some(WatchlistFailedMessage)
      else None
  }

  /**
   * A submit ends without a message exactly when authentication succeeded and
   * the pending watchlist entry, if any, was added; the watchlist request goes
   * out only after a successful authentication that carries a complete entry.
   */
  lemma {:induction false} SubmitOutcomes(auth: AuthOutcome, params: map<string, string>, watchlistOk: bool)
    ensures AfterAuthMessage(auth, params, watchlistOk).None? <==>
      AuthSucceeded(auth) && (!WatchlistRequested(params) || watchlistOk)
    ensures AfterAuthRequests(auth, params) != [] <==> AuthSucceeded(auth) && WatchlistRequested(params)
    ensures AfterAuthMessage(auth, params, watchlistOk).Some? ==>
      AfterAuthMessage(auth, params, watchlistOk).value != []
  {
    assert UnexpectedMessage != [] && AuthFailedMessage != [] && WatchlistFailedMessage != [];
  }

  /** What the server answers to `/api/login` or `/api/register`. */
  datatype ServerAnswer = Accepted | Refused(message: Option<string>)

  /**
   * The authentication context's `login` and `signup` as written: on success
   * they store the user and resolve with nothing; a refusal rejects with the
   * server's message.
   */
  function ContextAuthAsWritten(answer: ServerAnswer): AuthOutcome {
    match answer
    case Accepted => Returned(None)
    case Refused(message) => Threw(message)
  }

  /** The same calls resolving with the `{ success: true }` the form reads. */
  function ContextAuth(answer: ServerAnswer): AuthOutcome {
    match answer
    case Accepted => Returned(Some(AuthResult(true, None)))
    case Refused(message) => Threw(message)
  }

  /**
   * As written, a sign-in or sign-up the server accepts still ends with
   * "An unexpected error occurred." and never adds the pending watchlist entry.
   */
  lemma AcceptedSignInAsWritten(params: map<string, string>, watchlistOk: bool)
    ensures AfterAuthMessage(ContextAuthAsWritten(Accepted), params, watchlistOk) == Some(UnexpectedMessage)
    ensures AfterAuthRequests(ContextAuthAsWritten(Accepted), params) == []
  {
  }

  /**
   * With the result the form expects, an accepted sign-in sets no message
   * unless the watchlist entry fails, and sends the entry when one is pending.
   */
  lemma AcceptedSignIn(params: map<string, string>, watchlistOk: bool)
    ensures AfterAuthMessage(ContextAuth(Accepted), params, watchlistOk).None?
      <==> !WatchlistRequested(params) || watchlistOk
    ensures AfterAuthRequests(ContextAuth(Accepted), params)
      == if WatchlistRequested(params) then [WatchlistRequest(params)] else []
  {
    SubmitOutcomes(ContextAuth(Accepted), params, watchlistOk);
  }

  /** Where an authenticated visitor is sent once authentication has loaded. */
  function RedirectTarget(authLoading: bool, isAuthenticated: bool, params: map<string, string>): (r: Option<string>)
    ensures r.Some? <==> !authLoading && isAuthenticated
    ensures r.Some? ==> (r.value == "/watchlist" <==> Param(params, "redirect") == Some("watchlist"))
    ensures r.Some? ==> r.value in {"/watchlist", "/"}
  {
    if !authLoading && isAuthenticated then
      Some(if Param(params, "redirect") == Some("watchlist") then "/watchlist" else "/")
    else None
  }

  /**
   * What `useAuth()` gives the form for `isAuthenticated`: the context's value
   * has no such field, so it is `undefined`, which is falsy.
   */
  const ContextIsAuthenticated: bool := false

  /** As written, the redirect never happens, whatever the loading state and the URL. */
  lemma RedirectAsWritten(authLoading: bool, params: map<string, string>)
    ensures RedirectTarget(authLoading, ContextIsAuthenticated, params) == None
  {
  }

  /** The mode of the card and the values and flags of its form. */
  class LoginForm {
    var isSignUp: bool
    var email: string
    var password: string
    var confirmPassword: string
    var message: string
    var messageType: string
    var formSubmitting: bool
    var passwordsMatch: bool
    var emailValid: bool
    var passwordValid: bool
    /** The custom validity message of the confirm field. */
    var confirmValidity: string

    /**
     * The match flag is accurate whenever there is a confirmation to compare,
     * and there is one only in sign-up mode.
     */
    predicate Valid()
      reads this
    {
      && (!isSignUp ==> confirmPassword == [])
      && (confirmPassword != [] ==> passwordsMatch == (password == confirmPassword))
    }

    constructor ()
      ensures Valid()
      ensures !isSignUp && email == [] && password == [] && confirmPassword == [] && message == []
      ensures messageType == ErrorType && !formSubmitting && passwordsMatch
      ensures !emailValid && !passwordValid && confirmValidity == []
    {
      isSignUp := false;
      email := "";
      password := "";
      confirmPassword := "";
      message := "";
      messageType := ErrorType;
      formSubmitting := false;
      passwordsMatch := true;
      emailValid := false;
      passwordValid := false;
      confirmValidity := "";
    }

    /** The shared part of `showSignIn` and `showSignUp`. */
    method SwitchMode(signUp: bool)
      modifies this
      ensures Valid()
      ensures isSignUp == signUp && message == [] && email == [] && password == [] && confirmPassword == []
      ensures passwordsMatch
      ensures messageType == old(messageType) && formSubmitting == old(formSubmitting)
      ensures emailValid == old(emailValid) && passwordValid == old(passwordValid)
      ensures confirmValidity == old(confirmValidity)
    {
      isSignUp := signUp;
      message := "";
      password := "";
      confirmPassword := "";
      email := "";
      passwordsMatch := true;
    }

    method ShowSignIn()
      modifies this
      ensures Valid()
      ensures !isSignUp && message == [] && email == [] && password == [] && confirmPassword == []
      ensures passwordsMatch
      ensures messageType == old(messageType) && formSubmitting == old(formSubmitting)
      ensures emailValid == old(emailValid) && passwordValid == old(passwordValid)
      ensures confirmValidity == old(confirmValidity)
    {
      SwitchMode(false);
    }

    method ShowSignUp()
      modifies this
      ensures Valid()
      ensures isSignUp && message == [] && email == [] && password == [] && confirmPassword == []
      ensures passwordsMatch
      ensures messageType == old(messageType) && formSubmitting == old(formSubmitting)
      ensures emailValid == old(emailValid) && passwordValid == old(passwordValid)
      ensures confirmValidity == old(confirmValidity)
    {
      SwitchMode(true);
    }

    /** The email field's change handler with its validation callback. */
    method SetEmail(value: string)
      requires Valid()
      modifies this
      ensures Valid()
      ensures email == value && emailValid == IsValidInput(value, "email", None)
      ensures isSignUp == old(isSignUp) && password == old(password) && confirmPassword == old(confirmPassword)
      ensures passwordsMatch == old(passwordsMatch) && passwordValid == old(passwordValid)
      ensures message == old(message) && messageType == old(messageType)
      ensures formSubmitting == old(formSubmitting) && confirmValidity == old(confirmValidity)
    {
      email := value;
      emailValid := IsValidInput(value, "email", None);
    }

    /** `handlePasswordChange` with the password field's validation callback. */
    method HandlePasswordChange(value: string)
      requires Valid()
      modifies this
      ensures Valid()
      ensures password == value && passwordValid == IsValidInput(value, "password", Some(PasswordMinLength))
      ensures isSignUp && confirmPassword != [] ==> passwordsMatch == (value == confirmPassword)
      ensures !(isSignUp && confirmPassword != []) ==> passwordsMatch == old(passwordsMatch)
      ensures isSignUp == old(isSignUp) && email == old(email) && confirmPassword == old(confirmPassword)
      ensures emailValid == old(emailValid) && message == old(message) && messageType == old(messageType)
      ensures formSubmitting == old(formSubmitting) && confirmValidity == old(confirmValidity)
    {
      password := value;
      if isSignUp && confirmPassword != [] {
        passwordsMatch := value == confirmPassword;
      }
      passwordValid := IsValidInput(value, "password", Some(PasswordMinLength));
    }

    /** `handleConfirmPasswordChange`; the confirm field is on the sign-up form only. */
    method HandleConfirmPasswordChange(value: string)
      requires Valid() && isSignUp
      modifies this
      ensures Valid()
      ensures confirmPassword == value && passwordsMatch == (password == value)
      ensures confirmValidity == ConfirmValidity(password, value)
      ensures isSignUp == old(isSignUp) && email == old(email) && password == old(password)
      ensures emailValid == old(emailValid) && passwordValid == old(passwordValid)
      ensures message == old(message) && messageType == old(messageType)
      ensures formSubmitting == old(formSubmitting)
    {
      confirmPassword := value;
      passwordsMatch := password == value;
      confirmValidity := ConfirmValidity(password, value);
    }

    /** The `error` the form passes to its confirm field. */
    function ConfirmError(): Option<string>
      reads this
    {
      if !passwordsMatch && |confirmPassword| > 0 then Some(MismatchMessage) else None
    }

    /** The `success` the form passes to its confirm field. */
    predicate ConfirmSuccess()
      reads this
    {
      passwordsMatch && |confirmPassword| >= PasswordMinLength
    }

    /**
     * In a form in its valid state the confirm field shows its error exactly
     * when a confirmation has been typed that differs from the password, and
     * asks for its success mark only for a confirmation of at least six
     * characters equal to the password.
     */
    lemma ConfirmIndicators()
      requires Valid()
      ensures ConfirmError().Some? <==> confirmPassword != [] && confirmPassword != password
      ensures ConfirmSuccess() ==> confirmPassword == password && |confirmPassword| >= PasswordMinLength
    {
    }

    /** Whether a submit in the current state is stopped by the mismatch guard. */
    predicate Mismatched()
      reads this
    {
      isSignUp && password != confirmPassword
    }

    /**
     * `onSubmit`. A sign-up whose passwords differ is refused with a message
     * and sends nothing; otherwise the login or signup request goes out, and
     * after a successful one the pending watchlist entry, if the query string
     * carries one. The submitting flag is down again on every path.
     */
    method OnSubmit(auth: AuthOutcome, params: map<string, string>, watchlistOk: bool)
      returns (requests: seq<Request>)
      requires Valid()
      modifies this`message, this`messageType, this`formSubmitting
      ensures Valid()
      ensures !formSubmitting
      ensures old(Mismatched()) ==> requests == [] && message == MismatchMessage && messageType == ErrorType
      ensures !old(Mismatched()) ==>
        && requests == [if isSignUp then Signup(email, password) else SignIn(email, password)]
                       + AfterAuthRequests(auth, params)
        && message == AfterAuthMessage(auth, params, watchlistOk).GetOr([])
        && messageType == if AfterAuthMessage(auth, params, watchlistOk).Some? then ErrorType else old(messageType)
    {
      message := "";
      formSubmitting := true;
      requests := [];
      if isSignUp && password != confirmPassword {
        message := MismatchMessage;
        messageType := ErrorType;
        formSubmitting := false;
        return;
      }
      requests := requests + [if isSignUp then Signup(email, password) else SignIn(email, password)];
      match auth {
        case Threw(responseMessage) =>
          message := OrDefault(responseMessage, UnexpectedMessage);
          messageType := ErrorType;
        case Returned(None) =>
          // reading `success` of undefined throws a TypeError with no response
          message := UnexpectedMessage;
          messageType := ErrorType;
        case Returned(Some(authResult)) =>
          if authResult.success {
            if Param(params, "redirect") == Some("watchlist") {
              var movieId := Param(params, "movieId");
              var mediaType := Param(params, "mediaType");
              var title := Param(params, "title");
              var poster := Param(params, "poster");
              if Truthy(movieId) && Truthy(mediaType) && Truthy(title) && Truthy(poster) {
                requests := requests + [AddToWatchlist(movieId.value, mediaType.value, title.value, poster.value)];
                if !watchlistOk {
                  message := WatchlistFailedMessage;
                  messageType := ErrorType;
                }
              }
            }
          } else {
            message := OrDefault(authResult.message, AuthFailedMessage);
            messageType := ErrorType;
          }
      }
      formSubmitting := false;
    }
  }
}
