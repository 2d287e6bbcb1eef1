/** The Android bridge's pure parts (SdkReactNativeModule.kt): mapping the SDK's result
    to the wire record and reading the caller's maps into SDK request objects. */
module Android {
  import opened Wrappers
  import Types
  import opened Wire

  /** The SDK's session status; its raw value is capitalized on Android. */
  datatype Status = Approved | Pending | Declined {
    function RawValue(): string {
      match this
      case Approved => "Approved"
      case Pending => "Pending"
      case Declined => "Declined"
    }
  }

  datatype Session = Session(sessionId: string, status: Status)

  /** The SDK's six error variants; each carries a message that may be null. */
  datatype NativeError =
    | SessionExpired(message: Option<string>)
    | NetworkError(message: Option<string>)
    | CameraAccessDenied(message: Option<string>)
    | NotInitialized(message: Option<string>)
    | ApiError(message: Option<string>)
    | Unknown(message: Option<string>)

  datatype NativeResult =
    | Completed(session: Session)
    | Cancelled(optSession: Option<Session>)
    | Failed(error: NativeError, optSession: Option<Session>)
  {
    function Session(): Option<Session> {
      if Completed? then Some(session) else optSession
    }
  }

  const UnknownErrorMessage := "An unknown error occurred."
  const UnexpectedErrorMessage := "An unexpected error occurred."

  /** `mapErrorType`: one token per variant, all in the typed error set, and only the
      `Unknown` variant is written `unknown`. */
  function MapErrorType(e: NativeError): (r: string)
    ensures r in Types.ErrorTokens
    ensures r == "unknown" <==> e.Unknown?
  {
    match e
    case SessionExpired(_) => "sessionExpired"
    case NetworkError(_) => "networkError"
    case CameraAccessDenied(_) => "cameraAccessDenied"
    case NotInitialized(_) => "notInitialized"
    case ApiError(_) => "apiError"
    case Unknown(_) => "unknown"
  }

  /** `putSessionData`: writes the two session keys and nothing else. */
  function PutSessionData(w: ResultJS, s: Session): (r: ResultJS)
    ensures r.sessionId == Some(s.sessionId) && r.status == Some(s.status.RawValue())
    ensures r.tag == w.tag && r.errorType == w.errorType && r.errorMessage == w.errorMessage
  {
    w.(sessionId := Some(s.sessionId), status := Some(s.status.RawValue()))
  }

  /** The session keys, written only when the SDK gave a session. */
  function PutOptionalSession(w: ResultJS, s: Option<Session>): ResultJS {
    if s.Some? then PutSessionData(w, s.value) else w
  }

  /** `mapVerificationResult`: one tag per variant, session keys exactly when the SDK
      reported a session, error keys exactly for a failure. */
  function MapVerificationResult(result: NativeResult): (w: ResultJS)
    ensures WellFormed(w)
    ensures w.tag == "completed" <==> result.Completed?
    ensures w.tag == "cancelled" <==> result.Cancelled?
    ensures w.tag == "failed" <==> result.Failed?
    ensures w.sessionId.Some? <==> result.Session().Some?
    ensures w.status.Some? <==> result.Session().Some?
    ensures result.Session().Some? ==>
      w.sessionId.value == result.Session().value.sessionId && w.status.value == result.Session().value.status.RawValue()
    ensures w.errorType.Some? <==> result.Failed?
    ensures w.errorMessage.Some? <==> result.Failed?
    ensures result.Failed? ==>
      w.errorType.value == MapErrorType(result.error) && w.errorMessage.value == result.error.message.GetOr(UnknownErrorMessage)
  {
    match result
    case Completed(s) => PutSessionData(Tagged("completed"), s)
    case Cancelled(s) => PutOptionalSession(Tagged("cancelled"), s)
    case Failed(e, s) =>
      var m := Tagged("failed").(errorType := Some(MapErrorType(e)), errorMessage := Some(e.message.GetOr(UnknownErrorMessage)));
      PutOptionalSession(m, s)
  }

  /** `rejectWithError`: despite its name it resolves, with a well-formed failed/unknown
      record carrying the exception's message. */
  function RejectWithError(message: Option<string>): (w: ResultJS)
    ensures WellFormed(w) && w.tag == "failed"
    ensures w.errorType == Some(Types.ErrorType.Unknown.Token())
    ensures w.errorMessage == Some(message.GetOr(UnexpectedErrorMessage))
    ensures w.sessionId.None? && w.status.None?
  {
    Tagged("failed").(errorType := Some("unknown"), errorMessage := Some(message.GetOr(UnexpectedErrorMessage)))
  }

  // ─── Reading the caller's maps ────────────────────────────────────────────

  /** `ReadableMap` throws when a key holds a value of another type than the one asked for. */
  datatype Fault = WrongType(key: string)

  /** `getString` succeeds on a string or a null; `getBoolean` only on a boolean. */
  predicate StringSlot(m: Dict, key: string) {
    key !in m || !m[key].VBool?
  }

  predicate BoolSlot(m: Dict, key: string) {
    key !in m || m[key].VBool?
  }

  /** The string under `key`: null when the key is absent or holds null, a throw when it
      holds a boolean. */
  function OptString(m: Dict, key: string): (r: Result<Option<string>, Fault>)
    ensures r.Success? <==> StringSlot(m, key)
    ensures r.Success? ==> r.value == StringAt(m, key)
    ensures r.Failure? ==> r.error == WrongType(key)
  {
    if key !in m then Success(None)
    else match m[key]
      case VNull => Success(None)
      case VStr(s) => Success(Some(s))
      case VBool(_) => Failure(WrongType(key))
  }

  /** The boolean under `key`: null when the key is absent, a throw when it holds anything
      but a boolean, null included. */
  function OptBool(m: Dict, key: string): (r: Result<Option<bool>, Fault>)
    ensures r.Success? <==> BoolSlot(m, key)
    ensures r.Success? ==> r.value == BoolAt(m, key)
    ensures r.Failure? ==> r.error == WrongType(key)
  {
    if key !in m then Success(None)
    else match m[key]
      case VBool(b) => Success(Some(b))
      case _ => Failure(WrongType(key))
  }

  /** A case of the SDK's `SupportedLanguage`, by its position among the cases. */
  datatype Locale = Locale(index: nat)

  datatype Configuration = Configuration(
    languageLocale: Option<Locale>,
    customIntroScreen: bool,
    fontFamily: Option<string>,
    loggingEnabled: bool)

  predicate ConfigSlotsOk(m: Dict) {
    StringSlot(m, "languageCode") && BoolSlot(m, "customIntroScreen")
    && StringSlot(m, "fontFamily") && BoolSlot(m, "loggingEnabled")
  }

  /** `parseConfiguration`: null gives null; the two flags default to false, the font to
      null, and a language is looked up only for a present non-null code. A mistyped
      value throws. `fromCode` is the SDK's `SupportedLanguage.fromCode`, which the model
      does not look into; it may answer null. */
  function ParseConfiguration(m: Option<Dict>, fromCode: string -> Option<Locale>): (r: Result<Option<Configuration>, Fault>)
    ensures m.None? ==> r == Success(None)
    ensures m.Some? ==> (r.Success? <==> ConfigSlotsOk(m.value))
    ensures m.Some? && r.Success? ==> r.value.Some?
    ensures m.Some? && r.Success? ==>
      var c := r.value.value;
      && (StringAt(m.value, "languageCode").None? ==> c.languageLocale.None?)
      && (StringAt(m.value, "languageCode").Some? ==> c.languageLocale == fromCode(StringAt(m.value, "languageCode").value))
      && c.customIntroScreen == BoolAt(m.value, "customIntroScreen").GetOr(false)
      && c.fontFamily == StringAt(m.value, "fontFamily")
      && c.loggingEnabled == BoolAt(m.value, "loggingEnabled").GetOr(false)
    ensures r.Failure? ==> r.error.key in ConfigKeys
  {
    match m
    case None => Success(None)
    case Some(d) =>
      var code :- OptString(d, "languageCode");
      var language := if code.Some? then fromCode(code.value) else None;
      var intro :- OptBool(d, "customIntroScreen");
      var font :- OptString(d, "fontFamily");
      var logging :- OptBool(d, "loggingEnabled");
      Success(Some(Configuration(language, intro.GetOr(false), font, logging.GetOr(false))))
  }

  predicate ContactSlotsOk(m: Dict) {
    StringSlot(m, "email") && BoolSlot(m, "sendNotificationEmails")
    && StringSlot(m, "emailLang") && StringSlot(m, "phone")
  }

  /** `parseContactDetails`: null gives null; each field is the map's value under its
      name, null when absent or null. A mistyped value throws. */
  function ParseContactDetails(m: Option<Dict>): (r: Result<Option<Types.ContactDetails>, Fault>)
    ensures m.None? ==> r == Success(None)
    ensures m.Some? ==> (r.Success? <==> ContactSlotsOk(m.value))
    ensures m.Some? && r.Success? ==> r.value.Some?
    ensures m.Some? && r.Success? ==>
      && (forall k :: k in Types.ContactStringKeys ==> Types.ContactField(r.value.value, k) == StringAt(m.value, k))
      && r.value.value.sendNotificationEmails == BoolAt(m.value, "sendNotificationEmails")
  {
    match m
    case None => Success(None)
    case Some(d) =>
      var email :- OptString(d, "email");
      var notify :- OptBool(d, "sendNotificationEmails");
      var lang :- OptString(d, "emailLang");
      var phone :- OptString(d, "phone");
      Success(Some(Types.ContactDetails(email, notify, lang, phone)))
  }

  /** The optional string under each key of `keys` in turn, stopping at the first key
      whose value throws. */
  function ReadStrings(m: Dict, keys: seq<string>): (r: Result<seq<Option<string>>, Fault>)
    ensures r.Success? <==> forall k :: k in keys ==> StringSlot(m, k)
    ensures r.Success? ==> |r.value| == |keys| && forall i :: 0 <= i < |keys| ==> r.value[i] == StringAt(m, keys[i])
    ensures r.Failure? ==> r.error.key in keys && !StringSlot(m, r.error.key)
    ensures r.Failure? ==>
      exists i :: 0 <= i < |keys| && keys[i] == r.error.key && (forall j :: 0 <= j < i ==> StringSlot(m, keys[j]))
    decreases |keys|
  {
    if |keys| == 0 then Success([])
    else
      var head :- OptString(m, keys[0]);
      var tail :- ReadStrings(m, keys[1..]);
      Success([head] + tail)
  }

  /** `parseExpectedDetails`: null gives null; each field is the map's string under its
      name, null when absent or null. A mistyped value throws. */
  function ParseExpectedDetails(m: Option<Dict>): (r: Result<Option<Types.ExpectedDetails>, Fault>)
    ensures m.None? ==> r == Success(None)
    ensures m.Some? ==> (r.Success? <==> forall k :: k in Types.ExpectedKeys ==> StringSlot(m.value, k))
    ensures m.Some? && r.Success? ==> r.value.Some?
    ensures m.Some? && r.Success? ==>
      forall k :: k in Types.ExpectedKeys ==> Types.ExpectedField(r.value.value, k) == StringAt(m.value, k)
  {
    match m
    case None => Success(None)
    case Some(d) =>
      var v :- ReadStrings(d, Types.ExpectedKeys);
      var e := Types.ExpectedFromFields(v);
      assert forall k :: k in Types.ExpectedKeys ==> Types.ExpectedField(e, k) == StringAt(d, k) by {
        forall k | k in Types.ExpectedKeys
          ensures Types.ExpectedField(e, k) == StringAt(d, k)
        {
          var i :| 0 <= i < |Types.ExpectedKeys| && Types.ExpectedKeys[i] == k;
        }
      }
      Success(Some(e))
  }
}
