/** The public JavaScript entry points (src/index.tsx): projecting the caller's options
    onto the wire and turning the wire record back into a typed result. */
module Facade {
  import opened Wrappers
  import opened Types
  import opened Wire

  const NoSessionMessage := "Verification completed but no session data was returned."
  const UnknownErrorMessage := "An unknown error occurred during verification."
  const UnexpectedTypePrefix := "Unexpected result type: "

  /** The error tokens the facade passes through as they are. */
  const PassThroughTokens: set<string> :=
    {"sessionExpired", "networkError", "cameraAccessDenied", "notInitialized", "apiError"}

  /** `mapStatus`: exactly "Approved" and "Declined" are recognised; anything else,
      absent included, is Pending. */
  function MapStatus(status: Option<string>): (r: VerificationStatus)
    ensures r == Approved <==> status == Some("Approved")
    ensures r == Declined <==> status == Some("Declined")
  {
    if status == Some("Approved") then Approved
    else if status == Some("Declined") then Declined
    else Pending
  }

  /** `mapStatus` reads back every status value written with the enum's own casing,
      and only those: other casings, the empty string and absence are Pending. */
  lemma MapStatusInvertsValue(s: VerificationStatus, other: Option<string>)
    ensures MapStatus(Some(s.Value())) == s
    ensures (other.None? || other.value !in StatusValues) ==> MapStatus(other) == Pending
  {
  }

  /** `mapErrorType`: a recognised token passes through, anything else is `unknown`. */
  function MapErrorType(errorType: Option<string>): (r: ErrorType)
    ensures errorType.Some? && errorType.value in PassThroughTokens ==> r.Token() == errorType.value
    ensures r != Unknown ==> errorType == Some(r.Token())
  {
    if errorType == Some("sessionExpired") then SessionExpired
    else if errorType == Some("networkError") then NetworkError
    else if errorType == Some("cameraAccessDenied") then CameraAccessDenied
    else if errorType == Some("notInitialized") then NotInitialized
    else if errorType == Some("apiError") then ApiError
    else Unknown
  }

  /** Every one of the six categories survives being written as its token and read back,
      and no other input yields anything but `unknown`. */
  lemma MapErrorTypeInvertsToken(e: ErrorType, other: Option<string>)
    ensures MapErrorType(Some(e.Token())) == e
    ensures (other.None? || other.value !in ErrorTokens) ==> MapErrorType(other) == Unknown
  { }

  /** The session a wire record describes: present exactly when `sessionId` is. */
  function SessionOf(raw: ResultJS): (r: Option<SessionData>)
    ensures r.Some? <==> raw.sessionId.Some?
    ensures r.Some? ==> r.value.sessionId == raw.sessionId.value && r.value.status == MapStatus(raw.status)
  {
    if raw.sessionId.Some? then Some(SessionData(raw.sessionId.value, MapStatus(raw.status))) else None
  }

  /** `mapNativeResult`: total over every wire record, never `completed` without a session,
      unknown tags degraded to a failure, and the session always carried over. */
  function MapNativeResult(raw: ResultJS): (r: VerificationResult)
    ensures r.Session() == SessionOf(raw)
    ensures r.Completed? <==> raw.tag == "completed" && raw.sessionId.Some?
    ensures r.Cancelled? <==> raw.tag == "cancelled"
    ensures raw.tag == "completed" && raw.sessionId.None? ==>
      r.Failed? && r.error == VerificationError(Unknown, NoSessionMessage)
    ensures raw.tag == "failed" ==>
      r.Failed? && r.error == VerificationError(MapErrorType(raw.errorType), raw.errorMessage.GetOr(UnknownErrorMessage))
    ensures raw.tag !in ResultTags ==>
      r.Failed? && r.error == VerificationError(Unknown, UnexpectedTypePrefix + raw.tag)
  {
    var session := SessionOf(raw);
    if raw.tag == "completed" then
      if session.None? then Failed(VerificationError(Unknown, NoSessionMessage), None)
      else Completed(session.value)
    else if raw.tag == "cancelled" then
      Cancelled(session)
    else if raw.tag == "failed" then
      Failed(VerificationError(MapErrorType(raw.errorType), raw.errorMessage.GetOr(UnknownErrorMessage)), session)
    else
      Failed(VerificationError(Unknown, UnexpectedTypePrefix + raw.tag), session)
  }

  /** A well-formed wire record keeps its tag through the facade, and a failed one keeps
      the bridge's message; the facade's fallbacks only fire on malformed records. */
  lemma WellFormedIsNotDegraded(raw: ResultJS)
    requires WellFormed(raw)
    ensures raw.tag == "completed" <==> MapNativeResult(raw).Completed?
    ensures raw.tag == "cancelled" <==> MapNativeResult(raw).Cancelled?
    ensures raw.tag == "failed" <==> MapNativeResult(raw).Failed?
    ensures raw.tag == "failed" ==> MapNativeResult(raw).error.message == raw.errorMessage.value
  {
  }

  /** The configuration forwarded to the bridge: only language, font and logging;
      `customIntroScreen` is never forwarded. */
  function NativeConfig(config: Option<Config>): (r: Option<Config>)
    ensures r.None? <==> config.None?
    ensures r.Some? ==> r.value.languageCode == config.value.languageCode
    ensures r.Some? ==> r.value.fontFamily == config.value.fontFamily
    ensures r.Some? ==> r.value.loggingEnabled == config.value.loggingEnabled
    ensures r.Some? ==> r.value.customIntroScreen.None?
  {
    match config
    case None => None
    case Some(c) => Some(Config(c.languageCode, None, c.fontFamily, c.loggingEnabled))
  }

  /** The contact details forwarded to the bridge: every field, unchanged. */
  function NativeContactDetails(details: Option<ContactDetails>): (r: Option<ContactDetails>)
    ensures r == details
  {
    match details
    case None => None
    case Some(d) => Some(ContactDetails(d.email, d.sendNotificationEmails, d.emailLang, d.phone))
  }

  /** The expected details forwarded to the bridge: every field, unchanged. */
  function NativeExpectedDetails(details: Option<ExpectedDetails>): (r: Option<ExpectedDetails>)
    ensures r == details
  {
    match details
    case None => None
    case Some(d) =>
      Some(ExpectedDetails(d.firstName, d.lastName, d.dateOfBirth, d.gender, d.nationality,
                           d.country, d.address, d.identificationNumber, d.ipAddress, d.portraitImage))
  }

  /** The arguments `startVerificationWithWorkflow` hands to the bridge. */
  datatype WorkflowCall = WorkflowCall(
    workflowId: string,
    vendorData: Option<string>,
    metadata: Option<string>,
    contactDetails: Option<ContactDetails>,
    expectedDetails: Option<ExpectedDetails>,
    config: Option<Config>)

  /** With no options every optional argument is null; otherwise each is forwarded,
      the configuration through `NativeConfig`. */
  function WorkflowArguments(workflowId: string, options: Option<WorkflowOptions>): (r: WorkflowCall)
    ensures r.workflowId == workflowId
    ensures options.None? ==> r == WorkflowCall(workflowId, None, None, None, None, None)
    ensures options.Some? ==>
      && r.vendorData == options.value.vendorData
      && r.metadata == options.value.metadata
      && r.contactDetails == options.value.contactDetails
      && r.expectedDetails == options.value.expectedDetails
      && r.config == NativeConfig(options.value.config)
  {
    match options
    case None => WorkflowCall(workflowId, None, None, None, None, NativeConfig(None))
    case Some(o) =>
      WorkflowCall(workflowId, o.vendorData, o.metadata,
                   NativeContactDetails(o.contactDetails), NativeExpectedDetails(o.expectedDetails),
                   NativeConfig(o.config))
  }
}
