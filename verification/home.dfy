/** The home page (client/src/pages/home.tsx): the login error message, the
    choice of the side panel and the page title. */
module Home {
  import opened Wrappers
  import opened Schema

  const AccessDeniedMessage := "Anulowano logowanie przez Discord."
  const NoCodeMessage := "Nie otrzymano kodu autoryzacji od Discord."
  const AuthFailedMessage := "Błąd autoryzacji Discord. Sprawdź konfigurację aplikacji."
  const InvalidRequestMessage := "Nieprawidłowe żądanie OAuth. Sprawdź Redirect URI w Discord Developer Portal."

  /** The fixed messages, by reason code. */
  const KnownMessages: map<string, string> := map[
    "access_denied" := AccessDeniedMessage,
    "no_code" := NoCodeMessage,
    "auth_failed" := AuthFailedMessage,
    "invalid_request" := InvalidRequestMessage]

  /** The names every plain object literal inherits from Object.prototype. */
  const InheritedNames: set<string> := {
    "constructor", "hasOwnProperty", "isPrototypeOf", "propertyIsEnumerable",
    "toLocaleString", "toString", "valueOf", "__defineGetter__", "__defineSetter__",
    "__lookupGetter__", "__lookupSetter__", "__proto__"}

  /** What the page gets for a code: nothing, a message, or an inherited
      member of the lookup object (a function, or for `__proto__` the
      prototype object itself) standing where a message should be. */
  datatype LoginNotice = NoNotice | Notice(text: string) | InheritedMember(name: string)

  /** getErrorMessage as written: nothing for a missing or empty code. The
      lookup `errorMessages[error]` finds the four own keys, and also every
      inherited name, whose member is truthy and so is returned. Any other
      code gives "Błąd: <code>". */
  function GetErrorMessage(error: Option<string>): (notice: LoginNotice)
    ensures notice.NoNotice? <==> error.None? || error.value == ""
    ensures notice.InheritedMember? <==> error.Some? && error.value in InheritedNames
    ensures notice.InheritedMember? ==> notice.name == error.value
    ensures notice.Notice? && error.value in KnownMessages ==> notice.text == KnownMessages[error.value]
    ensures notice.Notice? && error.value !in KnownMessages ==> notice.text == "Błąd: " + error.value
  {
    if error.None? || error.value == "" then NoNotice
    else if error.value in KnownMessages then Notice(KnownMessages[error.value])
    else if error.value in InheritedNames then InheritedMember(error.value)
    else Notice("Błąd: " + error.value)
  }

  /** The lookup as evidently intended, over the four own keys only: a
      message for every non-empty code. */
  function LoginErrorMessage(error: Option<string>): (message: Option<string>)
    ensures message.None? <==> error.None? || error.value == ""
    ensures message.Some? && error.value in KnownMessages ==> message.value == KnownMessages[error.value]
    ensures message.Some? && error.value !in KnownMessages ==> message.value == "Błąd: " + error.value
  {
    if error.None? || error.value == "" then None
    else if error.value in KnownMessages then Some(KnownMessages[error.value])
    else Some("Błąd: " + error.value)
  }

  function AsNotice(message: Option<string>): LoginNotice
  {
    if message.None? then NoNotice else Notice(message.value)
  }

  /** The two lookups differ only on the inherited names. */
  lemma LookupsAgreeOnOwnNames(error: Option<string>)
    ensures error.None? || error.value !in InheritedNames ==>
      GetErrorMessage(error) == AsNotice(LoginErrorMessage(error))
    ensures error.Some? && error.value in InheritedNames ==>
      GetErrorMessage(error).InheritedMember? && LoginErrorMessage(error).Some?
  {
  }

  /** `/?error=__proto__` puts the prototype object where the message text
      belongs; the intended lookup gives it the generic message. */
  lemma InheritedCodeGetsNoMessage()
    ensures GetErrorMessage(Some("__proto__")) == InheritedMember("__proto__")
    ensures LoginErrorMessage(Some("__proto__")) == Some("Błąd: __proto__")
  {
    assert "__proto__" !in KnownMessages;
    assert "Błąd: " + "__proto__" == "Błąd: __proto__";
  }

  /** Every reason code the login callback redirects with gets a message;
      the three it names itself read as follows (session_error has no fixed
      message of its own). */
  lemma CallbackReasonsHaveMessages()
    ensures GetErrorMessage(Some("no_code")) == Notice(NoCodeMessage)
    ensures GetErrorMessage(Some("auth_failed")) == Notice(AuthFailedMessage)
    ensures GetErrorMessage(Some("session_error")) == Notice("Błąd: session_error")
  {
    assert "session_error" !in KnownMessages && "session_error" !in InheritedNames;
    assert "Błąd: " + "session_error" == "Błąd: session_error";
  }

  /** `data?.authenticated && data?.user`. */
  predicate IsAuthenticated(data: Option<AuthResponse>)
  {
    data.Some? && data.value.authenticated && data.value.user.Some?
  }

  /** `data?.user?.hasClientRole`. */
  predicate HasClientRole(data: Option<AuthResponse>)
  {
    data.Some? && data.value.user.Some? && data.value.user.value.hasClientRole
  }

  datatype Panel = LoginPrompt | AccessDeniedPrompt(user: User) | FeedbackFormPanel

  /** The side column: each of the three panels under its own condition. */
  function Panels(data: Option<AuthResponse>): (shown: seq<Panel>)
    ensures |shown| == 1
    ensures shown[0] == LoginPrompt <==> !IsAuthenticated(data)
    ensures shown[0].AccessDeniedPrompt? <==> IsAuthenticated(data) && !HasClientRole(data)
    ensures shown[0].AccessDeniedPrompt? ==> shown[0].user == data.value.user.value
    ensures shown[0] == FeedbackFormPanel <==> IsAuthenticated(data) && HasClientRole(data)
  {
    var auth := IsAuthenticated(data);
    var role := HasClientRole(data);
    (if !auth then [LoginPrompt] else [])
    + (if auth && !role then [AccessDeniedPrompt(data.value.user.value)] else [])
    + (if auth && role then [FeedbackFormPanel] else [])
  }

  /** The heading: a greeting with the user's name when signed in. */
  function Title(data: Option<AuthResponse>): (title: string)
    ensures IsAuthenticated(data) ==> title == "Witaj, " + data.value.user.value.username + "!"
    ensures !IsAuthenticated(data) ==> title == "Opinie użytkowników"
  {
    if IsAuthenticated(data) then "Witaj, " + data.value.user.value.username + "!"
    else "Opinie użytkowników"
  }

  /** The heading and the side column agree: the generic heading appears
      exactly when the login prompt does. */
  lemma TitleAgreesWithPanel(data: Option<AuthResponse>)
    ensures Title(data) == "Opinie użytkowników" <==> Panels(data) == [LoginPrompt]
  {
    if IsAuthenticated(data) {
      assert Title(data)[0] == 'W';
      assert Panels(data)[0] != LoginPrompt;
    }
  }

  /** What `/api/auth/me` answers decides the panel: signed out shows the
      login prompt, a user without the role sees the denial, a user with it
      the form. */
  lemma PanelFollowsAuthAnswer(r: AuthResponse)
    requires r.authenticated <==> r.user.Some?
    ensures !r.authenticated ==> Panels(Some(r)) == [LoginPrompt]
    ensures r.authenticated && !r.user.value.hasClientRole ==> Panels(Some(r)) == [AccessDeniedPrompt(r.user.value)]
    ensures r.authenticated && r.user.value.hasClientRole ==> Panels(Some(r)) == [FeedbackFormPanel]
  {
  }
}
