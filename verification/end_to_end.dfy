/** Properties of the whole path: a native result through a bridge and the facade to the
    caller, and the caller's options through the facade and a bridge to the SDK. */
module EndToEnd {
  import opened Wrappers
  import opened Types
  import opened Wire
  import Facade
  import Android
  import Ios
  import ReadyWait
  import Settle
  import Seqs

  /** The typed status each platform's status stands for. */
  function AndroidStatus(s: Android.Status): VerificationStatus {
    match s
    case Approved => Approved
    case Pending => Pending
    case Declined => Declined
  }

  function IosStatus(s: Ios.Status): VerificationStatus {
    match s
    case Approved => Approved
    case Pending => Pending
    case Declined => Declined
  }

  function AndroidSession(s: Option<Android.Session>): Option<SessionData> {
    if s.Some? then Some(SessionData(s.value.sessionId, AndroidStatus(s.value.status))) else None
  }

  function IosSession(s: Option<Ios.Session>): Option<SessionData> {
    if s.Some? then Some(SessionData(s.value.sessionId, IosStatus(s.value.status))) else None
  }

  /** The typed category each platform's error stands for. */
  function AndroidErrorType(e: Android.NativeError): ErrorType {
    match e
    case SessionExpired(_) => SessionExpired
    case NetworkError(_) => NetworkError
    case CameraAccessDenied(_) => CameraAccessDenied
    case NotInitialized(_) => NotInitialized
    case ApiError(_) => ApiError
    case Unknown(_) => Unknown
  }

  function IosErrorType(e: Ios.NativeError): ErrorType {
    match e
    case SessionExpired(_) => SessionExpired
    case NetworkError(_) => NetworkError
    case CameraAccessDenied(_) => CameraAccessDenied
    case Unknown(_) => Unknown
  }

  /** Both bridges write statuses the way the facade reads them, so no status is lost,
      and the two platforms agree on every status. */
  lemma StatusesSurviveTheBoundary(a: Android.Status, i: Ios.Status)
    ensures Facade.MapStatus(Some(a.RawValue())) == AndroidStatus(a)
    ensures Facade.MapStatus(Some(Ios.StatusString(i))) == IosStatus(i)
    ensures AndroidStatus(a) == IosStatus(i) <==> a.RawValue() == Ios.StatusString(i)
  {
  }

  /** Every token either bridge writes is one the facade passes through unchanged. */
  lemma ErrorTokensSurviveTheBoundary(a: Android.NativeError, i: Ios.NativeError)
    ensures Facade.MapErrorType(Some(Android.MapErrorType(a))) == AndroidErrorType(a)
    ensures Facade.MapErrorType(Some(Ios.MapErrorType(i))) == IosErrorType(i)
    ensures Facade.MapErrorType(Some(Android.MapErrorType(a))).Token() == Android.MapErrorType(a)
    ensures Facade.MapErrorType(Some(Ios.MapErrorType(i))).Token() == Ios.MapErrorType(i)
  { }

  /** An Android result reaches the caller with its tag, its session and its error intact. */
  lemma AndroidResultReachesCaller(r: Android.NativeResult)
    ensures var t := Facade.MapNativeResult(Android.MapVerificationResult(r));
      && (t.Completed? <==> r.Completed?)
      && (t.Cancelled? <==> r.Cancelled?)
      && (t.Failed? <==> r.Failed?)
      && t.Session() == AndroidSession(r.Session())
      && (r.Failed? ==> t.error == VerificationError(AndroidErrorType(r.error), r.error.message.GetOr(Android.UnknownErrorMessage)))
  { }

  /** An iOS result reaches the caller with its tag, its session and its error intact. */
  lemma IosResultReachesCaller(r: Ios.NativeResult)
    ensures var t := Facade.MapNativeResult(Ios.MapVerificationResult(r));
      && (t.Completed? <==> r.Completed?)
      && (t.Cancelled? <==> r.Cancelled?)
      && (t.Failed? <==> r.Failed?)
      && t.Session() == IosSession(r.Session())
      && (r.Failed? ==> t.error == VerificationError(IosErrorType(r.error), r.error.localizedDescription))
  { }

  /** The failures the bridges make up themselves reach the caller as failed/unknown,
      with their own message and no session. */
  lemma SyntheticFailuresReachCaller(message: Option<string>)
    ensures Facade.MapNativeResult(ReadyWait.NoActivityResult)
      == Failed(VerificationError(Unknown, ReadyWait.NoActivityMessage), None)
    ensures Facade.MapNativeResult(Android.RejectWithError(message))
      == Failed(VerificationError(Unknown, message.GetOr(Android.UnexpectedErrorMessage)), None)
    ensures Facade.MapNativeResult(Ios.NoRootResult)
      == Failed(VerificationError(Unknown, Ios.NoRootMessage), None)
  {
  }

  /** The map the bridge receives for an optional configuration. */
  function ConfigArgument(c: Option<Config>): Option<Dict> {
    if c.Some? then Some(ConfigDict(c.value)) else None
  }

  /** A configuration given to the facade reaches the Android SDK without a throw, with
      `customIntroScreen` always false and the other fields as given or defaulted. */
  lemma AndroidConfigFromFacade(c: Option<Config>, fromCode: string -> Option<Android.Locale>)
    ensures var r := Android.ParseConfiguration(ConfigArgument(Facade.NativeConfig(c)), fromCode);
      && r.Success?
      && (c.None? ==> r.value.None?)
      && (c.Some? ==>
          && r.value.Some?
          && !r.value.value.customIntroScreen
          && r.value.value.fontFamily == c.value.fontFamily
          && r.value.value.loggingEnabled == c.value.loggingEnabled.GetOr(false)
          && (c.value.languageCode.None? ==> r.value.value.languageLocale.None?)
          && (c.value.languageCode.Some? ==> r.value.value.languageLocale == fromCode(c.value.languageCode.value)))
  {
  }

  /** A configuration given to the facade reaches the iOS SDK with font and logging as
      given or defaulted, and a language exactly when its code is a supported one. */
  lemma IosConfigFromFacade(c: Option<Config>, languageCodes: seq<string>)
    ensures var r := Ios.ParseConfiguration(ConfigArgument(Facade.NativeConfig(c)), languageCodes);
      && (r.None? <==> c.None?)
      && (c.Some? ==>
          && r.value.fontFamily == c.value.fontFamily
          && r.value.loggingEnabled == c.value.loggingEnabled.GetOr(false)
          && (r.value.languageLocale.Some? <==> c.value.languageCode.Some? && c.value.languageCode.value in languageCodes))
  {
  }

  /** Contact details given to the facade reach either SDK exactly as given. */
  lemma ContactDetailsSurviveTheBoundary(c: ContactDetails)
    ensures Android.ParseContactDetails(Some(ContactDict(c))) == Success(Some(c))
    ensures Ios.ParseContactDetails(Some(ContactDict(c))) == Some(c)
  { }

  /** Expected details given to the facade reach either SDK exactly as given. */
  lemma ExpectedDetailsSurviveTheBoundary(e: ExpectedDetails)
    ensures Android.ParseExpectedDetails(Some(ExpectedDict(e))) == Success(Some(e))
    ensures Ios.ParseExpectedDetails(Some(ExpectedDict(e))) == Some(e)
  {
    var d := ExpectedDict(e);
    assert forall k :: k in ExpectedKeys ==> Android.StringSlot(d, k) by {
      forall k | k in ExpectedKeys ensures Android.StringSlot(d, k) {
        if k in d { assert d[k].VStr?; }
      }
    }
    var a := Android.ParseExpectedDetails(Some(d));
    ExpectedExtensional(a.value.value, e);
    ExpectedExtensional(Ios.ParseExpectedDetails(Some(d)).value, e);
  }

  /** Where the Android bridge accepts a map without throwing, the two platforms read the
      same details from it. */
  lemma PlatformsAgreeOnDetails(m: Dict)
    ensures Android.ParseContactDetails(Some(m)).Success? ==>
      Android.ParseContactDetails(Some(m)).value == Ios.ParseContactDetails(Some(m))
    ensures Android.ParseExpectedDetails(Some(m)).Success? ==>
      Android.ParseExpectedDetails(Some(m)).value == Ios.ParseExpectedDetails(Some(m))
  { }

  /** A value of the wrong type throws on Android but reads as absent on iOS: a boolean
      under a string key, or anything but a boolean under `sendNotificationEmails`. */
  lemma PlatformsDisagreeOnMistypedValues(m: Dict, k: string)
    ensures k in ContactStringKeys && k in m && m[k].VBool? ==>
      Android.ParseContactDetails(Some(m)).Failure? && ContactField(Ios.ParseContactDetails(Some(m)).value, k).None?
    ensures k == "sendNotificationEmails" && k in m && !m[k].VBool? ==>
      Android.ParseContactDetails(Some(m)).Failure? && Ios.ParseContactDetails(Some(m)).value.sendNotificationEmails.None?
  { }

  /** The same disagreement for expected details: a boolean under any of the ten keys. */
  lemma PlatformsDisagreeOnMistypedExpected(m: Dict, k: string)
    ensures k in ExpectedKeys && k in m && m[k].VBool? ==>
      Android.ParseExpectedDetails(Some(m)).Failure? && ExpectedField(Ios.ParseExpectedDetails(Some(m)).value, k).None?
  { }

  /** The arguments the facade builds for a workflow call never make the Android bridge throw. */
  lemma WorkflowArgumentsParseOnAndroid(workflowId: string, options: Option<WorkflowOptions>, fromCode: string -> Option<Android.Locale>)
    ensures var call := Facade.WorkflowArguments(workflowId, options);
      && Android.ParseConfiguration(ConfigArgument(call.config), fromCode).Success?
      && (call.contactDetails.Some? ==> Android.ParseContactDetails(Some(ContactDict(call.contactDetails.value))).Success?)
      && (call.expectedDetails.Some? ==> Android.ParseExpectedDetails(Some(ExpectedDict(call.expectedDetails.value))).Success?)
  {
    var call := Facade.WorkflowArguments(workflowId, options);
    AndroidConfigFromFacade(if options.Some? then options.value.config else None, fromCode);
    if call.contactDetails.Some? {
      ContactDetailsSurviveTheBoundary(call.contactDetails.value);
    }
    if call.expectedDetails.Some? {
      ExpectedDetailsSurviveTheBoundary(call.expectedDetails.value);
    }
  }

  /** On Android with no activity, the first Ready settles the call with the missing-activity
      failure, and a later SDK callback does not change it. */
  lemma NoActivityAnswerIsFinal(before: seq<ReadyWait.SdkState>, after: seq<ReadyWait.Event>)
    requires forall j :: 0 <= j < |before| ==> !ReadyWait.Terminal(before[j])
    ensures var f := ReadyWait.Run(ReadyWait.Initial, ReadyWait.Emit(before + [ReadyWait.Ready]) + after, false);
      f.promise == Settle.Settled(ReadyWait.NoActivityResult) && !f.launched
  {
    var states := before + [ReadyWait.Ready];
    Seqs.FirstIndexIs(states, ReadyWait.Terminal, |before|);
    ReadyWait.RunMatchesScan(states, false);
    var g := ReadyWait.Run(ReadyWait.Initial, ReadyWait.Emit(states), false);
    RunConcat(ReadyWait.Initial, ReadyWait.Emit(states), after, false);
    ReadyWait.SettledIsFinal(g, after, false);
    StoppedStaysUnlaunched(g, after, false);
  }

  /** Running two traces one after the other is running their concatenation. */
  lemma {:induction false} RunConcat(f: ReadyWait.Flow, t1: seq<ReadyWait.Event>, t2: seq<ReadyWait.Event>, activityPresent: bool)
    ensures ReadyWait.Run(f, t1 + t2, activityPresent) == ReadyWait.Run(ReadyWait.Run(f, t1, activityPresent), t2, activityPresent)
    decreases |t1|
  {
    if |t1| > 0 {
      assert (t1 + t2)[0] == t1[0];
      assert (t1 + t2)[1..] == t1[1..] + t2;
      RunConcat(ReadyWait.Step(f, t1[0], activityPresent), t1[1..], t2, activityPresent);
    } else {
      assert t1 + t2 == t2;
    }
  }

  /** Once the collector has stopped without launching, nothing launches the UI. */
  lemma {:induction false} StoppedStaysUnlaunched(f: ReadyWait.Flow, trace: seq<ReadyWait.Event>, activityPresent: bool)
    requires !f.collecting && !f.launched
    ensures !ReadyWait.Run(f, trace, activityPresent).launched
    ensures !ReadyWait.Run(f, trace, activityPresent).collecting
    decreases |trace|
  {
    if |trace| > 0 {
      StoppedStaysUnlaunched(ReadyWait.Step(f, trace[0], activityPresent), trace[1..], activityPresent);
    }
  }

  /** An Android approval of session "abc", and an iOS network failure, as the caller
      sees them. */
  lemma WorkedExamples(message: string)
    ensures Facade.MapNativeResult(Android.MapVerificationResult(Android.Completed(Android.Session("abc", Android.Approved))))
      == Completed(SessionData("abc", Approved))
    ensures Facade.MapNativeResult(Ios.MapVerificationResult(Ios.Failed(Ios.NetworkError(message), None)))
      == Failed(VerificationError(NetworkError, message), None)
  {
  }
}
