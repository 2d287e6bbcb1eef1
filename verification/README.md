# Didit React Native bridge: result mapping and completion protocol, in Dafny

This project models the part of the Didit React Native SDK bridge that decides what a
JavaScript caller receives from `startVerification` and `startVerificationWithWorkflow`.
It covers four pieces:

- **The facade** (`src/index.tsx`). It turns the flat wire record `VerificationResultJS` into
  the three-tag `VerificationResult` union: `completed`, `cancelled` or `failed`. It also
  projects the caller's options onto the arguments of the native call.
- **The Android bridge** (`SdkReactNativeModule.kt`). It maps the SDK's result to the wire
  record and reads the caller's maps into SDK request objects. It watches the SDK's state
  until the first `Ready` or `Error`. On `Ready` it launches the UI when an activity exists,
  and otherwise resolves early with a synthetic failure. Any exception resolves the call with
  a failed/unknown record, so the call never rejects.
- **The iOS bridge** (`DiditSdkBridge.swift`). It normalises statuses to the capitalized
  spelling and maps the SDK's result to the wire record. It walks the presentation chain to
  find the topmost controller. When there is no root controller it completes at once with a
  synthetic failure and never starts the SDK.
- **The end-to-end properties** that tie these together. A native result crosses either
  bridge and the facade with its tag, session and error intact. The caller's options reach
  either SDK unchanged or with their documented defaults.

Modules, one per source file or concern:

- `Wrappers`: `Option` and `Result`.
- `Seqs`: the "first element satisfying a predicate" scan that Kotlin's `first { }` and
  Swift's `first(where:)` perform.
- `Settle`: a promise as a write-once cell.
- `Types`: `src/types.ts`.
- `Wire`: the shapes in `src/NativeSdkReactNative.ts`.
- `Facade`, `Android`, `ReadyWait` (the asynchronous part of the Kotlin module), `Ios`.
- `EndToEnd`: the cross-file lemmas.

Modelling choices:

- The wire record's `type` key is the field `tag`, because `type` is a Dafny keyword.
- A JavaScript object crossing into a bridge becomes a `map<string, Value>`. A property whose
  value is `undefined` does not become a key (`Wire.ConfigDict`, `ContactDict`,
  `ExpectedDict`). This is an assumption about React Native's marshalling, which the
  repository's own code does not show.
- Android's `ReadableMap.getString` reads a null as null and throws on a boolean.
  `getBoolean` throws on anything but a boolean. The model writes each throw as a `Fault`
  naming the key. The text of the exception belongs to React Native, so the call flow takes it
  as a parameter (`exceptionMessage`).
- iOS's `as? String` and `as? Bool` never throw. A value of another type reads as nil
  (`Wire.StringAt`, `Wire.BoolAt`).
- `SupportedLanguage.fromCode(code)` on Android is a parameter `fromCode` of
  `Android.ParseConfiguration`. It returns a language, `Android.Locale`, or null, so an
  unsupported code may give a null `languageLocale` exactly as the SDK's lookup decides. The
  model assumes the lookup never throws; its own code is not part of this model.
  On iOS the codes of `SupportedLanguage.allCases` are a parameter, and the chosen language is
  the position of the first case whose code matches.
- The SDK is an opaque source of results and states. On Android, one call is a trace of
  events (`ReadyWait.Event`): a state emission or a result callback. A boolean says whether an
  activity is present. The promise is a `Settle.Cell`, in which the first resolve wins. This
  is React Native's promise behaviour; the bridges themselves do not guard against a second
  resolve.
- Android's `VerificationStatus.rawValue` is taken to be the capitalized name ("Approved",
  "Pending", "Declined"). The comment at `ios/DiditSdkBridge.swift:190-192` says this is the
  Android spelling. That the Android `VerificationStatus` has exactly these three values is
  also an assumption: the Android SDK's code is not part of this model.
- A value in a map (`Wire.Value`) is null, a boolean or a string; there are no numbers. On
  Android a number under any key would make `getString` or `getBoolean` throw, and on iOS
  `as? Bool` would accept an `NSNumber` 0 or 1, under `loggingEnabled` and
  `sendNotificationEmails` alike. Neither is modelled.
- `DiditSdk.state` is taken never to complete, as a `StateFlow` never does. If it completed
  before a Ready or Error, `first { }` would throw, and the `catch` around the call would
  resolve it failed/unknown with the exception's message.
- `UIApplication.shared.connectedScenes` is an unordered `Set`. The order of `scenes` in
  `Ios.KeyWindowRoot` is therefore arbitrary: "the first window scene" is whichever one the
  set's iteration happens to yield first, and the model promises nothing about which.

Points worth noting:

- The iOS SDK has four error cases, against the six categories of the typed union; the other two never arise from iOS.
- iOS parsing never throws, and iOS does not read `customIntroScreen`.
- The facade never forwards `customIntroScreen` to either platform. As a result, when called
  through the facade, the Android SDK receives `false` for it whenever the caller passes a
  configuration, and no configuration at all otherwise (`EndToEnd.AndroidConfigFromFacade`).

## Model

| member | source | states |
|---|---|---|
| Seqs.FirstIndex | android/src/main/java/com/sdkreactnative/SdkReactNativeModule.kt:107-131 | the index found satisfies the predicate and no earlier element does; None exactly when no element does |
| Settle.FirstResolveWins | android/src/main/java/com/sdkreactnative/SdkReactNativeModule.kt:51-56 | of any sequence of resolves on one promise, the first fixes the value; a settled promise never changes |
| Types.StatusValueIsExact | src/types.ts:6-13 | the three statuses have three distinct string values, and every status value names a member |
| Types.ErrorTokenIsExact | src/types.ts:20-26 | the six error categories have six distinct tokens, and every token in the set names a category |
| Wire.ConfigDict | src/NativeSdkReactNative.ts:7-16 | the configuration map holds exactly the defined fields, each under its own name with its own type |
| Wire.ContactDict | src/NativeSdkReactNative.ts:21-26 | the contact map holds exactly the defined fields, strings as strings and the notification flag as a boolean |
| Wire.ExpectedDict | src/NativeSdkReactNative.ts:31-42 | the expected-details map holds exactly the defined fields, each a string under its own name |
| Facade.MapStatus | src/index.tsx:77-87 | Approved exactly for "Approved" and Declined exactly for "Declined"; everything else, absent included, is Pending |
| Facade.MapStatusInvertsValue | src/index.tsx:77-87 | every status written as its enum value reads back as itself; absence and any string outside the three values (lower-case "approved", "") read as Pending |
| Facade.MapErrorType | src/index.tsx:89-100 | the five recognised tokens pass through unchanged; any other result is `unknown`, and a non-unknown result was given as its own token |
| Facade.MapErrorTypeInvertsToken | src/index.tsx:89-100 | all six categories survive being written as a token and read back; absence or any string outside the six yields `unknown` |
| Facade.SessionOf | src/index.tsx:28-34 | a session exists exactly when `sessionId` is non-null, with that id verbatim and the mapped status |
| Facade.MapNativeResult | src/index.tsx:27-75 | total; never `completed` without a session; `completed` with no id becomes failed/unknown with the no-session message; `cancelled` keeps its optional session; `failed` maps the error type and defaults the message; any other tag becomes failed/unknown naming the tag; the session is always carried over |
| Facade.WellFormedIsNotDegraded | src/index.tsx:36-73 | a record in the shape the bridges promise keeps its tag through the facade, and a failure keeps the bridge's message |
| Facade.NativeConfig | src/index.tsx:129-135 | no config gives null; otherwise language, font and logging are forwarded and `customIntroScreen` is dropped |
| Facade.NativeContactDetails | src/index.tsx:174-181 | contact details are forwarded unchanged, absent as null |
| Facade.NativeExpectedDetails | src/index.tsx:183-196 | expected details are forwarded unchanged, absent as null |
| Facade.WorkflowArguments | src/index.tsx:198-205 | without options every optional argument is null; otherwise vendor data, metadata and details are forwarded and the config is projected |
| Android.MapErrorType | android/src/main/java/com/sdkreactnative/SdkReactNativeModule.kt:213-222 | total over the six variants; every token is in the typed error set; only `Unknown` is written `unknown` |
| Android.PutSessionData | android/src/main/java/com/sdkreactnative/SdkReactNativeModule.kt:208-211 | sets `sessionId` and `status` from the session and leaves every other key as it was |
| Android.MapVerificationResult | android/src/main/java/com/sdkreactnative/SdkReactNativeModule.kt:185-206 | one tag per variant; session keys exactly when the SDK gave a session; error type and message exactly for a failure, the message defaulting to "An unknown error occurred."; always well-formed |
| Android.RejectWithError | android/src/main/java/com/sdkreactnative/SdkReactNativeModule.kt:224-230 | an exception resolves, never rejects, with a well-formed failed/unknown record carrying its message or "An unexpected error occurred." |
| Android.OptString | android/src/main/java/com/sdkreactnative/SdkReactNativeModule.kt:150 | an absent or null value reads as null, a string as itself; a boolean throws, naming the key |
| Android.OptBool | android/src/main/java/com/sdkreactnative/SdkReactNativeModule.kt:160 | an absent key reads as null, a boolean as itself; anything else throws, naming the key |
| Android.ParseConfiguration | android/src/main/java/com/sdkreactnative/SdkReactNativeModule.kt:136-153 | null gives null; the two flags default to false and the font to null; the language is null unless a non-null code is present, and then it is the SDK lookup's answer for that code, null included; it throws exactly when a value has the wrong type |
| Android.ParseContactDetails | android/src/main/java/com/sdkreactnative/SdkReactNativeModule.kt:155-164 | null gives null; each field is the map's value under its name, null when absent or null; it throws exactly on a wrong type |
| Android.ReadStrings | android/src/main/java/com/sdkreactnative/SdkReactNativeModule.kt:170-179 | reading keys in order yields each key's string or null; it fails exactly when some key holds a boolean, and the fault names the first such key, every earlier key having read cleanly |
| Android.ParseExpectedDetails | android/src/main/java/com/sdkreactnative/SdkReactNativeModule.kt:166-181 | null gives null; each of the ten fields is the string under its name, null when absent or null; it throws exactly on a wrong type |
| ReadyWait.AwaitReady | android/src/main/java/com/sdkreactnative/SdkReactNativeModule.kt:105-132 | the first Ready or Error decides and every other state is skipped. Ready with an activity launches the UI without resolving. Ready without one resolves with the missing-activity failure. Error stops without resolving. With no such state it is still waiting |
| ReadyWait.CollectFirst | android/src/main/java/com/sdkreactnative/SdkReactNativeModule.kt:107-131 | the collector loop ends exactly as the scan says |
| ReadyWait.Step | android/src/main/java/com/sdkreactnative/SdkReactNativeModule.kt:107-131 | one event: an SDK callback resolves an unsettled promise with its mapped result (the `onResult` lambda at lines 51-53 and 87-89); while collecting, Ready stops the collector and launches the UI or, with no activity, resolves the missing-activity failure; Error only stops the collector; any other state, or any state after the stop, changes nothing; a settled promise never changes |
| ReadyWait.Run | android/src/main/java/com/sdkreactnative/SdkReactNativeModule.kt:44-60 | a call's events applied in order: once stopped, the collector never restarts; once launched, the UI stays launched; without an activity it is never launched |
| ReadyWait.SkipsNonTerminal | android/src/main/java/com/sdkreactnative/SdkReactNativeModule.kt:129 | a state other than Ready or Error leaves the outcome to the remaining states |
| ReadyWait.SettledIsFinal | android/src/main/java/com/sdkreactnative/SdkReactNativeModule.kt:51-56 | once the call's promise is settled, no later state or callback changes it |
| ReadyWait.StoppedIgnoresStates | android/src/main/java/com/sdkreactnative/SdkReactNativeModule.kt:123-128 | after the collector stops, further states change nothing |
| ReadyWait.RunMatchesScan | android/src/main/java/com/sdkreactnative/SdkReactNativeModule.kt:105-131 | running the call over states alone ends exactly as the scan: launched and unresolved, resolved with the missing-activity failure, stopped and unresolved, or still waiting |
| ReadyWait.WithActivityOnlyCallbacksResolve | android/src/main/java/com/sdkreactnative/SdkReactNativeModule.kt:109-112 | with an activity present the wait never resolves; the promise holds the first SDK callback's mapped result |
| ReadyWait.RunKeepsWellFormed | android/src/main/java/com/sdkreactnative/SdkReactNativeModule.kt:51-53 | whatever settles the promise, it settles with a well-formed record |
| ReadyWait.Launch | android/src/main/java/com/sdkreactnative/SdkReactNativeModule.kt:44-60 | a parse exception resolves at once with failed/unknown and the SDK is never started; a successful parse runs the call's trace exactly as `ReadyWait.Run` does (missing-activity answer on the first Ready, silent stop on Error, waiting without either), and with an activity the first callback decides; the caller only ever sees a well-formed record |
| ReadyWait.StartVerification | android/src/main/java/com/sdkreactnative/SdkReactNativeModule.kt:39-61 | a configuration map that throws resolves the call with failed/unknown and launches nothing; a configuration map that parses starts the SDK and runs the trace as `ReadyWait.Run`; every resolution is well-formed |
| ReadyWait.StartVerificationWithWorkflow | android/src/main/java/com/sdkreactnative/SdkReactNativeModule.kt:65-97 | a configuration, contact or expected map that throws resolves the call with failed/unknown and launches nothing; when all three parse, the SDK is started and the trace runs as `ReadyWait.Run`; every resolution is well-formed |
| Ios.StatusString | ios/DiditSdkBridge.swift:193-199 | each status is written in the capitalized spelling of the typed status set |
| Ios.StatusStringInjective | ios/DiditSdkBridge.swift:193-199 | distinct statuses are written differently |
| Ios.MapErrorType | ios/DiditSdkBridge.swift:233-244 | total over the four cases; every token is in the typed error set; only `unknown` is written `unknown` |
| Ios.MapVerificationResult | ios/DiditSdkBridge.swift:202-231 | one tag per case; session keys exactly when the SDK gave a session; error type and localized description exactly for a failure; always well-formed |
| Ios.InChainStep | ios/DiditSdkBridge.swift:136-139 | the controller presented by one on the chain is also on the chain |
| Ios.TopOfChain | ios/DiditSdkBridge.swift:135-140 | the walk ends on a controller of the root's chain that presents nothing |
| Ios.FindRootViewController | ios/DiditSdkBridge.swift:126-141 | nothing exactly when the first window scene has no key window with a root; otherwise the topmost controller of that root's chain |
| Ios.PresentVerification | ios/DiditSdkBridge.swift:85-122 | with no root the completion gets exactly one failed/unknown record with the no-root message and the start action never runs; otherwise it presents on the topmost controller, runs the start action and completes with each SDK result mapped |
| Ios.ParseConfiguration | ios/DiditSdkBridge.swift:145-158 | nil gives nil; the font is the string under its key; logging defaults to false; a language is chosen exactly when the code is a supported language's code, and it is the first such |
| Ios.IgnoresCustomIntroScreen | ios/DiditSdkBridge.swift:145-158 | the value under `customIntroScreen` has no influence on the parsed configuration |
| Ios.ParseContactDetails | ios/DiditSdkBridge.swift:160-169 | nil gives nil; each field is the value of its type under its name, nil when absent or of another type |
| Ios.ParseExpectedDetails | ios/DiditSdkBridge.swift:171-186 | nil gives nil; each of the ten fields is the string under its name, nil when absent or of another type |
| EndToEnd.StatusesSurviveTheBoundary | ios/DiditSdkBridge.swift:190-199 | the facade reads back every status either bridge writes, and the two platforms write the same status the same way |
| EndToEnd.ErrorTokensSurviveTheBoundary | src/index.tsx:89-100 | every error token either bridge writes passes through the facade unchanged, as the matching category |
| EndToEnd.AndroidResultReachesCaller | android/src/main/java/com/sdkreactnative/SdkReactNativeModule.kt:185-211 | an Android result reaches the caller with its tag, session id, status and error category intact, and with its message or the bridge's default |
| EndToEnd.IosResultReachesCaller | ios/DiditSdkBridge.swift:202-231 | an iOS result reaches the caller with its tag, session id, status, error category and localized description intact |
| EndToEnd.SyntheticFailuresReachCaller | android/src/main/java/com/sdkreactnative/SdkReactNativeModule.kt:115-121 | the missing-activity, exception and missing-root failures reach the caller as failed/unknown with their own message and no session |
| EndToEnd.AndroidConfigFromFacade | src/index.tsx:129-135 | a facade configuration never makes Android throw; `customIntroScreen` arrives false, logging defaults to false, the font is as given, and the language is null without a code and otherwise whatever the SDK's lookup answers for it |
| EndToEnd.IosConfigFromFacade | ios/DiditSdkBridge.swift:145-158 | a facade configuration reaches iOS with the font as given, logging defaulted to false, and a language exactly when the code is supported |
| EndToEnd.ContactDetailsSurviveTheBoundary | src/index.tsx:174-181 | contact details given to the facade reach either SDK exactly as given |
| EndToEnd.ExpectedDetailsSurviveTheBoundary | src/index.tsx:183-196 | expected details given to the facade reach either SDK exactly as given |
| EndToEnd.PlatformsAgreeOnDetails | ios/DiditSdkBridge.swift:160-186 | wherever Android reads a details map without throwing, iOS reads the same details from it |
| EndToEnd.PlatformsDisagreeOnMistypedValues | android/src/main/java/com/sdkreactnative/SdkReactNativeModule.kt:155-164 | for every map and every contact key: a boolean under a string key, or a non-boolean under `sendNotificationEmails`, throws on Android while iOS reads that field as nil |
| EndToEnd.PlatformsDisagreeOnMistypedExpected | android/src/main/java/com/sdkreactnative/SdkReactNativeModule.kt:166-181 | for every map and every expected-details key: a boolean there throws on Android while iOS reads that field as nil |
| EndToEnd.WorkflowArgumentsParseOnAndroid | src/index.tsx:198-205 | the arguments the facade builds for a workflow call never make the Android parsers throw |
| EndToEnd.NoActivityAnswerIsFinal | android/src/main/java/com/sdkreactnative/SdkReactNativeModule.kt:109-124 | with no activity, the first Ready settles the call with the missing-activity failure; later callbacks change nothing and the UI is never launched |
| EndToEnd.WorkedExamples | android/src/main/java/com/sdkreactnative/SdkReactNativeModule.kt:189-192 | an Android approval of session "abc" reaches the caller as completed/Approved, and an iOS network failure as failed/networkError with its description |

## Left out

- The native SDKs themselves (`DiditSdk.startVerification`, `DiditSdk.state`, `launchVerificationUI`, `DiditSdk.shared`, the `.diditVerification` view modifier). They are closed source. The model has them only as the results and states they produce.
- `SupportedLanguage.fromCode` and `SupportedLanguage.allCases`. Both are SDK code outside this model, so each is a parameter: a lookup that may answer null on Android, and the list of language codes on iOS.
- The contents of error messages the SDKs produce. They are opaque fields.
- Coroutine scheduling, `DispatchQueue` hops and the 0.3 s delayed dismiss of the hosting controller. These are concurrency and UI; one call on Android is modelled as one interleaving, a trace of events.
- UIKit and SwiftUI presentation, `currentActivity` lookup and the hosting view. Only "an activity is present" and the chain of presented controllers are kept.
- `SdkReactNativeModule.initialize`, which auto-initialises the SDK, and the `[weak self]` early return on iOS. Both are lifecycle plumbing outside the result protocol.
- ReadyWait.Launch: an exception thrown by the SDK's own start call, by `launchVerificationUI` inside the state collector, or by `first { }` when the state flow completes without a Ready or Error, is caught by the same `try` in the source. The model only raises exceptions from parsing, because the SDK calls are opaque and the state flow is taken never to complete.
- Ios.ParseConfiguration: Swift's `as? Bool` also accepts an `NSNumber` 0 or 1. That bridging is not modelled, because `Wire.Value` has no numbers (see "Modelling choices"); the same holds for `Ios.ParseContactDetails`.
- The Objective-C++ TurboModule that turns the iOS completion into a promise resolve is not part of this model. Each completion is taken to be one resolve.
- The Android `Status.rawValue` strings come from the closed SDK. They are taken to be capitalized, as stated above.
- React Native's marshalling of JavaScript objects into maps. It is modelled, not proved: an `undefined` property is no key.
- `example/src/App.tsx` (demo UI), `SdkReactNativePackage.kt` (module registration), the `TurboModuleRegistry` wiring, `app.plugin.js` and `expo-plugin.js` (build-file text injection). They are packaging and glue, not the result protocol.
- No timeout exists in the source. If the state signal never completes, a call whose SDK never reaches Ready, Error or a callback stays unsettled; the model shows this as `StillWaiting` and an `Unsettled` promise.
