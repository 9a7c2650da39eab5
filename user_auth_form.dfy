/** The sign-in form: its validation rules and what a submission does with
    the server's answer. Whether a text is a URL is a parameter, as is the
    answer to the probe request. */
module UserAuthForm {
  import opened Wrappers
  import TodoBackend
  import Js

  datatype SignInData = SignInData(nextcloudUrl: string, email: string, password: string)

  const Defaults := SignInData("", "", "")

  /** The message shown under the URL field: the first failing rule. */
  function UrlError(url: string, isUrl: string -> bool): Option<string> {
    if Js.Utf16Length(url) < 1 then Some("Please enter your Nextcloud URL")
    else if !isUrl(url) then Some("Please enter a valid URL")
    else None
  }

  /** The message shown under the username field. */
  function EmailError(email: string): Option<string> {
    if Js.Utf16Length(email) < 1 then Some("Please enter your username") else None
  }

  /** The message shown under the password field: the first failing rule. */
  function PasswordError(password: string): Option<string> {
    if Js.Utf16Length(password) < 1 then Some("Please enter your password")
    else if Js.Utf16Length(password) < 7 then Some("Password must be at least 7 characters long")
    else None
  }

  /** The schema accepts the data. */
  predicate Valid(d: SignInData, isUrl: string -> bool) {
    UrlError(d.nextcloudUrl, isUrl).None? && EmailError(d.email).None? && PasswordError(d.password).None?
  }

  /** The rules in full: a non-empty valid URL, a non-empty username and a
      password of at least 7 UTF-16 code units; an empty password is asked
      for, a short one is called too short; the blank form is refused. */
  lemma SchemaSpec(d: SignInData, isUrl: string -> bool)
    ensures Valid(d, isUrl) <==>
              d.nextcloudUrl != [] && isUrl(d.nextcloudUrl) && d.email != []
              && Js.Utf16Length(d.password) >= 7
    ensures d.password == "" ==> PasswordError(d.password) == Some("Please enter your password")
    ensures d.password != [] && Js.Utf16Length(d.password) < 7 ==>
              PasswordError(d.password) == Some("Password must be at least 7 characters long")
    ensures !Valid(Defaults, isUrl)
  {
  }

  /** Length is counted in code units: every password of seven characters
      passes, and so does one of four characters above U+FFFF (four emoji,
      say), which is eight code units long; seven or more characters at or
      below U+FFFF are needed otherwise. */
  lemma PasswordCodeUnits(password: string)
    ensures |password| >= 7 ==> PasswordError(password) == None
    ensures |password| >= 4 && (forall i :: 0 <= i < |password| ==> password[i] as int > 0xFFFF) ==>
              PasswordError(password) == None
    ensures (forall i :: 0 <= i < |password| ==> password[i] as int <= 0xFFFF) ==>
              (PasswordError(password) == None <==> |password| >= 7)
  {
    Js.Utf16LengthOfAstral(password);
  }

  /** The probe request: the news app's folder list under the given URL. */
  function ProbeUrl(nextcloudUrl: string): string {
    nextcloudUrl + "/index.php/apps/news/api/v1-2/folders"
  }

  /** The text encoded into the Basic authorization header. */
  function BasicCredentials(d: SignInData): string {
    d.email + ":" + d.password
  }

  /** The probe's end: an HTTP status, or a thrown error. */
  datatype ProbeResult = Answered(status: int) | Thrown

  /** `response.ok`. */
  predicate IsOk(status: int) {
    200 <= status <= 299
  }

  const InvalidCredentials := "Invalid credentials. Please check your username and password."
  const CheckUrl := "Authentication failed. Please check your Nextcloud URL and try again."
  const ConnectionFailed := "Connection failed. Please check your Nextcloud URL and internet connection."

  /** The storage after a successful sign-in. */
  function SignedIn(storage: map<string, string>, d: SignInData): map<string, string> {
    storage["backend-url" := d.nextcloudUrl]["backend-login" := d.email]
           ["backend-password" := d.password]["isAuthenticated" := "true"]
  }

  /** The backends read back exactly what the sign-in saved. */
  lemma SignInFeedsBackend(storage: map<string, string>, d: SignInData)
    ensures TodoBackend.Stored(SignedIn(storage, d), "backend-url") == d.nextcloudUrl
    ensures TodoBackend.Stored(SignedIn(storage, d), "backend-login") == d.email
    ensures TodoBackend.Stored(SignedIn(storage, d), "backend-password") == d.password
    ensures TodoBackend.Stored(SignedIn(storage, d), "isAuthenticated") == "true"
    ensures forall k :: k in storage && k !in {"backend-url", "backend-login", "backend-password", "isAuthenticated"}
              ==> SignedIn(storage, d)[k] == storage[k]
  {
  }

  /** The form's loading flag, its error and the browser's storage. */
  class AuthForm {
    var isLoading: bool
    var authError: Option<string>
    var storage: map<string, string>

    constructor(storage: map<string, string>)
      ensures !isLoading && authError.None? && this.storage == storage
    {
      isLoading := false;
      authError := None;
      this.storage := storage;
    }

    /** `onSubmit` up to the request: loading starts, the old error goes,
        and the probe URL and credentials are returned. */
    method StartSubmit(d: SignInData) returns (url: string, credentials: string)
      modifies this
      ensures isLoading && authError.None? && storage == old(storage)
      ensures url == ProbeUrl(d.nextcloudUrl) && credentials == BasicCredentials(d)
    {
      isLoading := true;
      authError := None;
      url := ProbeUrl(d.nextcloudUrl);
      credentials := BasicCredentials(d);
    }

    /** The rest of `onSubmit`: an ok answer saves the credentials and goes
        home; 401 and the other answers and a thrown error each set their
        message and save nothing; loading ends in every case. */
    method FinishSubmit(d: SignInData, result: ProbeResult) returns (navigateHome: bool)
      modifies this
      ensures !isLoading
      ensures navigateHome <==> result.Answered? && IsOk(result.status)
      ensures navigateHome ==> storage == SignedIn(old(storage), d) && authError == old(authError)
      ensures !navigateHome ==> storage == old(storage)
      ensures result.Answered? && result.status == 401 ==> authError == Some(InvalidCredentials)
      ensures result.Answered? && !IsOk(result.status) && result.status != 401 ==> authError == Some(CheckUrl)
      ensures result.Thrown? ==> authError == Some(ConnectionFailed)
    {
      navigateHome := false;
      match result {
        case Thrown =>
          authError := Some(ConnectionFailed);
        case Answered(status) =>
          if 200 <= status && status <= 299 {
            storage := storage["backend-url" := d.nextcloudUrl];
            storage := storage["backend-login" := d.email];
            storage := storage["backend-password" := d.password];
            storage := storage["isAuthenticated" := "true"];
            navigateHome := true;
          } else if status == 401 {
            authError := Some(InvalidCredentials);
          } else {
            authError := Some(CheckUrl);
          }
      }
      isLoading := false;
    }
  }
}
