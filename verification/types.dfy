/** The typed values the JavaScript caller receives and supplies (src/types.ts). */
module Types {
  import opened Wrappers

  /** The status of a completed verification session. */
  datatype VerificationStatus = Approved | Pending | Declined {

    /** The enum member's string value, which is its own name. */
    function Value(): (r: string)
      ensures r in StatusValues
    {
      match this
      case Approved => "Approved"
      case Pending => "Pending"
      case Declined => "Declined"
    }
  }

  const StatusValues: set<string> := {"Approved", "Pending", "Declined"}

  /** The closed set of error categories. */
  datatype ErrorType = SessionExpired | NetworkError | CameraAccessDenied | NotInitialized | ApiError | Unknown {

    /** The string token the category is written as. */
    function Token(): (r: string)
      ensures r in ErrorTokens
    {
      match this
      case SessionExpired => "sessionExpired"
      case NetworkError => "networkError"
      case CameraAccessDenied => "cameraAccessDenied"
      case NotInitialized => "notInitialized"
      case ApiError => "apiError"
      case Unknown => "unknown"
    }
  }

  const ErrorTokens: set<string> :=
    {"sessionExpired", "networkError", "cameraAccessDenied", "notInitialized", "apiError", "unknown"}

  /** Distinct statuses are written differently, and every written status is some member's value. */
  lemma StatusValueIsExact(a: VerificationStatus, b: VerificationStatus, s: string)
    ensures a.Value() == b.Value() ==> a == b
    ensures s in StatusValues ==> exists v: VerificationStatus :: v.Value() == s
  {
    if s == "Approved" { assert Approved.Value() == s; }
    else if s == "Pending" { assert Pending.Value() == s; }
    else if s == "Declined" { assert Declined.Value() == s; }
  }

  /** The six categories have six distinct tokens, and every token names one of them. */
  lemma ErrorTokenIsExact(a: ErrorType, b: ErrorType, t: string)
    ensures a.Token() == b.Token() ==> a == b
    ensures t in ErrorTokens ==> exists e: ErrorType :: e.Token() == t
  {
    if t == "sessionExpired" { assert SessionExpired.Token() == t; }
    else if t == "networkError" { assert NetworkError.Token() == t; }
    else if t == "cameraAccessDenied" { assert CameraAccessDenied.Token() == t; }
    else if t == "notInitialized" { assert NotInitialized.Token() == t; }
    else if t == "apiError" { assert ApiError.Token() == t; }
    else if t == "unknown" { assert Unknown.Token() == t; }
  }

  datatype VerificationError = VerificationError(kind: ErrorType, message: string)

  datatype SessionData = SessionData(sessionId: string, status: VerificationStatus)

  /** The three-tag result: a completed result always carries a session,
      a cancelled or failed one may not. */
  datatype VerificationResult =
    | Completed(session: SessionData)
    | Cancelled(optSession: Option<SessionData>)
    | Failed(error: VerificationError, optSession: Option<SessionData>)
  {
    /** The session the result carries, whatever its tag. */
    function Session(): Option<SessionData> {
      if Completed? then Some(session) else optSession
    }
  }

  /** SDK configuration (`DiditConfig`, and the identically shaped `VerificationConfig` on the wire). */
  datatype Config = Config(
    languageCode: Option<string>,
    customIntroScreen: Option<bool>,
    fontFamily: Option<string>,
    loggingEnabled: Option<bool>)

  datatype ContactDetails = ContactDetails(
    email: Option<string>,
    sendNotificationEmails: Option<bool>,
    emailLang: Option<string>,
    phone: Option<string>)

  datatype ExpectedDetails = ExpectedDetails(
    firstName: Option<string>,
    lastName: Option<string>,
    dateOfBirth: Option<string>,
    gender: Option<string>,
    nationality: Option<string>,
    country: Option<string>,
    address: Option<string>,
    identificationNumber: Option<string>,
    ipAddress: Option<string>,
    portraitImage: Option<string>)

  datatype WorkflowOptions = WorkflowOptions(
    vendorData: Option<string>,
    metadata: Option<string>,
    contactDetails: Option<ContactDetails>,
    expectedDetails: Option<ExpectedDetails>,
    config: Option<Config>)

  /** The string-valued keys of a contact-details record. */
  const ContactStringKeys: seq<string> := ["email", "emailLang", "phone"]

  /** The string field of a contact-details record named by `key`. */
  function ContactField(d: ContactDetails, key: string): Option<string> {
    if key == "email" then d.email
    else if key == "emailLang" then d.emailLang
    else if key == "phone" then d.phone
    else None
  }

  /** The keys of an expected-details record, in declaration order. */
  const ExpectedKeys: seq<string> :=
    ["firstName", "lastName", "dateOfBirth", "gender", "nationality",
     "country", "address", "identificationNumber", "ipAddress", "portraitImage"]

  /** The field of an expected-details record named by `key`. */
  function ExpectedField(d: ExpectedDetails, key: string): Option<string> {
    if key == "firstName" then d.firstName
    else if key == "lastName" then d.lastName
    else if key == "dateOfBirth" then d.dateOfBirth
    else if key == "gender" then d.gender
    else if key == "nationality" then d.nationality
    else if key == "country" then d.country
    else if key == "address" then d.address
    else if key == "identificationNumber" then d.identificationNumber
    else if key == "ipAddress" then d.ipAddress
    else if key == "portraitImage" then d.portraitImage
    else None
  }

  /** The record whose fields, in `ExpectedKeys` order, are `v`. */
  function ExpectedFromFields(v: seq<Option<string>>): (d: ExpectedDetails)
    requires |v| == |ExpectedKeys|
    ensures forall i :: 0 <= i < |ExpectedKeys| ==> ExpectedField(d, ExpectedKeys[i]) == v[i]
  {
    ExpectedDetails(v[0], v[1], v[2], v[3], v[4], v[5], v[6], v[7], v[8], v[9])
  }

  /** Two expected-details records that agree on every key are the same record. */
  lemma ExpectedExtensional(a: ExpectedDetails, b: ExpectedDetails)
    requires forall k :: k in ExpectedKeys ==> ExpectedField(a, k) == ExpectedField(b, k)
    ensures a == b
  {
    assert ExpectedField(a, "firstName") == ExpectedField(b, "firstName");
    assert ExpectedField(a, "lastName") == ExpectedField(b, "lastName");
    assert ExpectedField(a, "dateOfBirth") == ExpectedField(b, "dateOfBirth");
    assert ExpectedField(a, "gender") == ExpectedField(b, "gender");
    assert ExpectedField(a, "nationality") == ExpectedField(b, "nationality");
    assert ExpectedField(a, "country") == ExpectedField(b, "country");
    assert ExpectedField(a, "address") == ExpectedField(b, "address");
    assert ExpectedField(a, "identificationNumber") == ExpectedField(b, "identificationNumber");
    assert ExpectedField(a, "ipAddress") == ExpectedField(b, "ipAddress");
    assert ExpectedField(a, "portraitImage") == ExpectedField(b, "portraitImage");
  }
}
