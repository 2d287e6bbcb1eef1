/** The iOS bridge (DiditSdkBridge.swift): mapping the SDK's result to the wire record,
    finding a controller to present on, and reading the caller's dictionaries. */
module Ios {
  import opened Wrappers
  import opened Seqs
  import Types
  import opened Wire

  /** The SDK's session status; its own raw values are lower-case. */
  datatype Status = Approved | Pending | Declined

  /** `statusString`: the capitalized spelling the JavaScript side expects, one per status. */
  function StatusString(s: Status): (r: string)
    ensures r in Types.StatusValues
  {
    match s
    case Approved => "Approved"
    case Pending => "Pending"
    case Declined => "Declined"
  }

  /** Distinct statuses are written differently. */
  lemma StatusStringInjective(a: Status, b: Status)
    ensures StatusString(a) == StatusString(b) ==> a == b
  {
  }

  datatype Session = Session(sessionId: string, status: Status)

  /** The SDK's four error cases; each has a localized description. */
  datatype NativeError =
    | SessionExpired(localizedDescription: string)
    | NetworkError(localizedDescription: string)
    | CameraAccessDenied(localizedDescription: string)
    | Unknown(localizedDescription: string)

  datatype NativeResult =
    | Completed(session: Session)
    | Cancelled(optSession: Option<Session>)
    | Failed(error: NativeError, optSession: Option<Session>)
  {
    function Session(): Option<Session> {
      if Completed? then Some(session) else optSession
    }
  }

  /** `mapErrorType`: one token per case, all in the typed error set, and only the
      `unknown` case is written `unknown`. */
  function MapErrorType(e: NativeError): (r: string)
    ensures r in Types.ErrorTokens
    ensures r == "unknown" <==> e.Unknown?
  {
    match e
    case SessionExpired(_) => "sessionExpired"
    case NetworkError(_) => "networkError"
    case CameraAccessDenied(_) => "cameraAccessDenied"
    case Unknown(_) => "unknown"
  }

  /** The two session keys, set only when there is a session. */
  function WithSession(w: ResultJS, s: Option<Session>): ResultJS {
    if s.Some? then w.(sessionId := Some(s.value.sessionId), status := Some(StatusString(s.value.status))) else w
  }

  /** `mapVerificationResult`: one tag per case, session keys exactly when the SDK
      reported a session, error keys exactly for a failure. */
  function MapVerificationResult(result: NativeResult): (w: ResultJS)
    ensures WellFormed(w)
    ensures w.tag == "completed" <==> result.Completed?
    ensures w.tag == "cancelled" <==> result.Cancelled?
    ensures w.tag == "failed" <==> result.Failed?
    ensures w.sessionId.Some? <==> result.Session().Some?
    ensures w.status.Some? <==> result.Session().Some?
    ensures result.Session().Some? ==>
      w.sessionId.value == result.Session().value.sessionId && w.status.value == StatusString(result.Session().value.status)
    ensures w.errorType.Some? <==> result.Failed?
    ensures w.errorMessage.Some? <==> result.Failed?
    ensures result.Failed? ==>
      w.errorType.value == MapErrorType(result.error) && w.errorMessage.value == result.error.localizedDescription
  {
    match result
    case Completed(s) => WithSession(Tagged("completed"), Some(s))
    case Cancelled(s) => WithSession(Tagged("cancelled"), s)
    case Failed(e, s) =>
      WithSession(Tagged("failed").(errorType := Some(MapErrorType(e)), errorMessage := Some(e.localizedDescription)), s)
  }

  // ─── Finding a controller to present on ──────────────────────────────────

  /** A view controller and the controller it currently presents, if any. */
  datatype Controller = Controller(id: string, presented: Option<Controller>)

  /** `c` is `root` or lies on the chain of controllers `root` presents. */
  predicate InChain(root: Controller, c: Controller)
    decreases root
  {
    c == root || (root.presented.Some? && InChain(root.presented.value, c))
  }

  /** The chain is closed under "presents". */
  lemma {:induction false} InChainStep(root: Controller, c: Controller)
    requires InChain(root, c) && c.presented.Some?
    ensures InChain(root, c.presented.value)
    decreases root
  {
    if c != root {
      InChainStep(root.presented.value, c);
    }
  }

  /** The walk up the presentation chain: the topmost controller, which presents nothing. */
  method TopOfChain(root: Controller) returns (top: Controller)
    ensures top.presented.None?
    ensures InChain(root, top)
  {
    top := root;
    while top.presented.Some?
      invariant InChain(root, top)
      decreases top
    {
      InChainStep(root, top);
      top := top.presented.value;
    }
  }

  datatype Window = Window(isKeyWindow: bool, rootViewController: Option<Controller>)

  datatype Scene = WindowScene(windows: seq<Window>) | OtherScene

  /** The root controller of the key window of the first window scene; later scenes are
      never consulted. */
  function KeyWindowRoot(scenes: seq<Scene>): Option<Controller> {
    match FirstIndex(scenes, (s: Scene) => s.WindowScene?)
    case None => None
    case Some(i) =>
      var windows := scenes[i].windows;
      match FirstIndex(windows, (w: Window) => w.isKeyWindow)
      case None => None
      case Some(j) => windows[j].rootViewController
  }

  /** `findRootViewController`: nothing when the first window scene has no key window with
      a root controller; otherwise the topmost controller presented from that root. */
  method FindRootViewController(scenes: seq<Scene>) returns (r: Option<Controller>)
    ensures r.None? <==> KeyWindowRoot(scenes).None?
    ensures r.Some? ==> r.value.presented.None? && InChain(KeyWindowRoot(scenes).value, r.value)
  {
    var root := KeyWindowRoot(scenes);
    if root.None? {
      return None;
    }
    var top := TopOfChain(root.value);
    return Some(top);
  }

  // ─── Presenting ──────────────────────────────────────────────────────────

  const NoRootMessage := "Unable to find root view controller to present verification UI."

  /** The record the completion receives when there is nothing to present on. */
  const NoRootResult: ResultJS :=
    Tagged("failed").(errorType := Some("unknown"), errorMessage := Some(NoRootMessage))

  /** What `presentVerification` did: where it presented, whether the start action ran,
      and the records it handed to `completion`, in order. */
  datatype Presentation = Presentation(presentedOn: Option<Controller>, startActionRun: bool, completions: seq<ResultJS>)

  /** `presentVerification`, given the SDK results its view reports. With no controller to
      present on, `completion` gets one synthetic failure and the SDK is never started;
      otherwise it presents on the topmost controller, starts the SDK, and passes each
      result on, mapped. */
  method PresentVerification(scenes: seq<Scene>, onResults: seq<NativeResult>) returns (p: Presentation)
    ensures KeyWindowRoot(scenes).None? ==> p == Presentation(None, false, [NoRootResult])
    ensures KeyWindowRoot(scenes).Some? ==>
      && p.startActionRun
      && p.presentedOn.Some? && p.presentedOn.value.presented.None?
      && InChain(KeyWindowRoot(scenes).value, p.presentedOn.value)
    ensures KeyWindowRoot(scenes).Some? ==>
      |p.completions| == |onResults| && forall i :: 0 <= i < |onResults| ==> p.completions[i] == MapVerificationResult(onResults[i])
    ensures forall i :: 0 <= i < |p.completions| ==> WellFormed(p.completions[i])
  {
    var rootVC := FindRootViewController(scenes);
    if rootVC.None? {
      return Presentation(None, false, [NoRootResult]);
    }
    var completions := [];
    var k := 0;
    while k < |onResults|
      invariant 0 <= k <= |onResults|
      invariant |completions| == k
      invariant forall i :: 0 <= i < k ==> completions[i] == MapVerificationResult(onResults[i])
    {
      completions := completions + [MapVerificationResult(onResults[k])];
      k := k + 1;
    }
    return Presentation(rootVC, true, completions);
  }

  // ─── Reading the caller's dictionaries ───────────────────────────────────

  /** `languageLocale` is the position, in `SupportedLanguage.allCases`, of the language chosen. */
  datatype Configuration = Configuration(languageLocale: Option<nat>, fontFamily: Option<string>, loggingEnabled: bool)

  /** `parseConfiguration`, given the codes of the supported languages in declaration
      order: nil gives nil; a language is chosen only for a string code some supported
      language has (the first such); font is the string under its key or nil; logging
      defaults to false; `customIntroScreen` is not read. */
  function ParseConfiguration(d: Option<Dict>, languageCodes: seq<string>): (r: Option<Configuration>)
    ensures r.None? <==> d.None?
    ensures r.Some? ==> r.value.fontFamily == StringAt(d.value, "fontFamily")
    ensures r.Some? ==> r.value.loggingEnabled == BoolAt(d.value, "loggingEnabled").GetOr(false)
    ensures r.Some? ==>
      (r.value.languageLocale.Some? <==> StringAt(d.value, "languageCode").Some? && StringAt(d.value, "languageCode").value in languageCodes)
    ensures r.Some? && r.value.languageLocale.Some? ==>
      var i := r.value.languageLocale.value;
      && i < |languageCodes| && Some(languageCodes[i]) == StringAt(d.value, "languageCode")
      && forall j :: 0 <= j < i ==> Some(languageCodes[j]) != StringAt(d.value, "languageCode")
  {
    match d
    case None => None
    case Some(m) =>
      var code := StringAt(m, "languageCode");
      var language := if code.Some? then FirstIndex(languageCodes, (c: string) => c == code.value) else None;
      Some(Configuration(language, StringAt(m, "fontFamily"), BoolAt(m, "loggingEnabled").GetOr(false)))
  }

  /** `customIntroScreen` has no influence on the parsed configuration. */
  lemma IgnoresCustomIntroScreen(m: Dict, v: Value, languageCodes: seq<string>)
    ensures ParseConfiguration(Some(m["customIntroScreen" := v]), languageCodes) == ParseConfiguration(Some(m), languageCodes)
  {
    assert StringAt(m["customIntroScreen" := v], "languageCode") == StringAt(m, "languageCode");
    assert StringAt(m["customIntroScreen" := v], "fontFamily") == StringAt(m, "fontFamily");
    assert BoolAt(m["customIntroScreen" := v], "loggingEnabled") == BoolAt(m, "loggingEnabled");
  }

  /** `parseContactDetails`: nil gives nil; each field is the value of its type under its
      name, nil when absent or of another type. */
  function ParseContactDetails(d: Option<Dict>): (r: Option<Types.ContactDetails>)
    ensures r.None? <==> d.None?
    ensures r.Some? ==>
      && (forall k :: k in Types.ContactStringKeys ==> Types.ContactField(r.value, k) == StringAt(d.value, k))
      && r.value.sendNotificationEmails == BoolAt(d.value, "sendNotificationEmails")
  {
    match d
    case None => None
    case Some(m) =>
      Some(Types.ContactDetails(StringAt(m, "email"), BoolAt(m, "sendNotificationEmails"),
                                StringAt(m, "emailLang"), StringAt(m, "phone")))
  }

  /** `parseExpectedDetails`: nil gives nil; each field is the string under its name, nil
      when absent or of another type. */
  function ParseExpectedDetails(d: Option<Dict>): (r: Option<Types.ExpectedDetails>)
    ensures r.None? <==> d.None?
    ensures r.Some? ==> forall k :: k in Types.ExpectedKeys ==> Types.ExpectedField(r.value, k) == StringAt(d.value, k)
  {
    match d
    case None => None
    case Some(m) =>
      var e := Types.ExpectedFromFields(seq(|Types.ExpectedKeys|, i requires 0 <= i < |Types.ExpectedKeys| => StringAt(m, Types.ExpectedKeys[i])));
      assert forall k :: k in Types.ExpectedKeys ==> Types.ExpectedField(e, k) == StringAt(m, k) by {
        forall k | k in Types.ExpectedKeys
          ensures Types.ExpectedField(e, k) == StringAt(m, k)
        {
          var i :| 0 <= i < |Types.ExpectedKeys| && Types.ExpectedKeys[i] == k;
        }
      }
      Some(e)
  }
}
