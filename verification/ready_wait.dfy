/** The Android bridge's asynchronous part (SdkReactNativeModule.kt): after starting the
    SDK it watches the SDK's state until the first Ready or Error, launching the UI or
    resolving early; the SDK's own result callback resolves the same promise. */
module ReadyWait {
  import opened Wrappers
  import opened Seqs
  import opened Settle
  import opened Wire
  import Android

  /** The SDK's state signal, reduced to what the bridge tells apart. */
  datatype SdkState = Ready | Error | Other(name: string)

  /** The states that end the wait. */
  predicate Terminal(s: SdkState) {
    s.Ready? || s.Error?
  }

  const NoActivityMessage := "No active Activity available to present verification UI."

  /** The record resolved when Ready arrives and there is no activity to present on. */
  const NoActivityResult: ResultJS :=
    Android.MapVerificationResult(Android.Failed(Android.Unknown(Some(NoActivityMessage)), None))

  /** How the wait ends: it launches the UI, resolves with a synthetic failure, stops
      silently, or is still waiting when the observed states run out. */
  datatype ReadyOutcome =
    | LaunchedUI(at: nat)
    | ResolvedFailure(at: nat, result: ResultJS)
    | StoppedSilently(at: nat)
    | StillWaiting

  /** `awaitReadyAndLaunchUI` over the states observed so far: the first Ready or Error
      decides, every other state is skipped. */
  function AwaitReady(states: seq<SdkState>, activityPresent: bool): (o: ReadyOutcome)
    ensures o.StillWaiting? <==> forall j :: 0 <= j < |states| ==> !Terminal(states[j])
    ensures !o.StillWaiting? ==> o.at < |states| && Terminal(states[o.at])
    ensures !o.StillWaiting? ==> forall j :: 0 <= j < o.at ==> !Terminal(states[j])
    ensures o.LaunchedUI? ==> states[o.at].Ready? && activityPresent
    ensures o.ResolvedFailure? ==> states[o.at].Ready? && !activityPresent && o.result == NoActivityResult
    ensures o.StoppedSilently? ==> states[o.at].Error?
  {
    match FirstIndex(states, Terminal)
    case None => StillWaiting
    case Some(i) =>
      if states[i].Error? then StoppedSilently(i)
      else if activityPresent then LaunchedUI(i)
      else ResolvedFailure(i, NoActivityResult)
  }

  /** The collector loop behind `DiditSdk.state.first { ... }`. */
  method CollectFirst(states: seq<SdkState>, activityPresent: bool) returns (o: ReadyOutcome)
    ensures o == AwaitReady(states, activityPresent)
  {
    var i := 0;
    while i < |states|
      invariant 0 <= i <= |states|
      invariant forall j :: 0 <= j < i ==> !Terminal(states[j])
    {
      match states[i]
      case Ready =>
        FirstIndexIs(states, Terminal, i);
        if activityPresent {
          return LaunchedUI(i);
        } else {
          return ResolvedFailure(i, NoActivityResult);
        }
      case Error =>
        FirstIndexIs(states, Terminal, i);
        return StoppedSilently(i);
      case Other(_) =>
        i := i + 1;
    }
    return StillWaiting;
  }

  // ─── One call, as a trace of events ──────────────────────────────────────

  /** What can happen after the SDK is started: it emits a state, or it calls back with a result. */
  datatype Event = Emitted(state: SdkState) | Delivered(result: Android.NativeResult)

  /** The call's promise, whether the state collector still runs, and whether the UI was launched. */
  datatype Flow = Flow(promise: Cell<ResultJS>, collecting: bool, launched: bool)

  const Initial := Flow(Unsettled, true, false)

  /** One event. A callback resolves the promise unless it is already settled. While the
      collector runs, `Ready` stops it and either launches the UI or, with no activity,
      resolves the missing-activity failure; `Error` stops it and does nothing else; any
      other state, and any state once the collector has stopped, changes nothing. */
  function Step(f: Flow, e: Event, activityPresent: bool): (r: Flow)
    ensures e.Delivered? ==> r.collecting == f.collecting && r.launched == f.launched
    ensures e.Delivered? && f.promise.Unsettled? ==> r.promise == Settled(Android.MapVerificationResult(e.result))
    ensures e.Emitted? && (!f.collecting || e.state.Other?) ==> r == f
    ensures e.Emitted? && f.collecting && e.state.Ready? ==>
      && !r.collecting
      && r.launched == (f.launched || activityPresent)
      && (activityPresent ==> r.promise == f.promise)
      && (!activityPresent && f.promise.Unsettled? ==> r.promise == Settled(NoActivityResult))
    ensures e.Emitted? && f.collecting && e.state.Error? ==> r == f.(collecting := false)
    ensures f.promise.Settled? ==> r.promise == f.promise
  {
    match e
    case Delivered(r) => f.(promise := Resolve(f.promise, Android.MapVerificationResult(r)))
    case Emitted(s) =>
      if !f.collecting then f
      else if s.Ready? then
        if activityPresent then f.(collecting := false, launched := true)
        else f.(collecting := false, promise := Resolve(f.promise, NoActivityResult))
      else if s.Error? then f.(collecting := false)
      else f
  }

  /** The events of `trace`, one after another. The collector never restarts, the UI is
      never taken down, and without an activity it is never launched. */
  function Run(f: Flow, trace: seq<Event>, activityPresent: bool): (r: Flow)
    ensures r.collecting ==> f.collecting
    ensures f.launched ==> r.launched
    ensures !activityPresent ==> r.launched == f.launched
    decreases |trace|
  {
    if |trace| == 0 then f else Run(Step(f, trace[0], activityPresent), trace[1..], activityPresent)
  }

  /** The trace in which the SDK only emits `states`. */
  function Emit(states: seq<SdkState>): (t: seq<Event>)
    ensures |t| == |states|
    ensures forall i :: 0 <= i < |states| ==> t[i] == Emitted(states[i])
    decreases |states|
  {
    if |states| == 0 then [] else [Emitted(states[0])] + Emit(states[1..])
  }

  /** The records the SDK's callbacks in `trace` would resolve with, in order. */
  function Delivered(trace: seq<Event>): seq<ResultJS>
    decreases |trace|
  {
    if |trace| == 0 then []
    else if trace[0].Delivered? then [Android.MapVerificationResult(trace[0].result)] + Delivered(trace[1..])
    else Delivered(trace[1..])
  }

  /** A settled promise keeps its value whatever happens next. */
  lemma {:induction false} SettledIsFinal(f: Flow, trace: seq<Event>, activityPresent: bool)
    requires f.promise.Settled?
    ensures Run(f, trace, activityPresent).promise == f.promise
    decreases |trace|
  {
    if |trace| > 0 {
      SettledIsFinal(Step(f, trace[0], activityPresent), trace[1..], activityPresent);
    }
  }

  /** Once the collector has stopped, further states change nothing. */
  lemma {:induction false} StoppedIgnoresStates(f: Flow, states: seq<SdkState>, activityPresent: bool)
    requires !f.collecting
    ensures Run(f, Emit(states), activityPresent) == f
    decreases |states|
  {
    if |states| > 0 {
      assert Emit(states)[1..] == Emit(states[1..]);
      StoppedIgnoresStates(f, states[1..], activityPresent);
    }
  }

  /** A state that does not end the wait is skipped: the scan decides as it would on the rest. */
  lemma SkipsNonTerminal(states: seq<SdkState>, activityPresent: bool)
    requires |states| > 0 && !Terminal(states[0])
    ensures AwaitReady(states, activityPresent).StillWaiting? == AwaitReady(states[1..], activityPresent).StillWaiting?
    ensures AwaitReady(states, activityPresent).LaunchedUI? == AwaitReady(states[1..], activityPresent).LaunchedUI?
    ensures AwaitReady(states, activityPresent).ResolvedFailure? == AwaitReady(states[1..], activityPresent).ResolvedFailure?
  { }

  /** Running the collector over a state-only trace ends exactly as the scan says. */
  lemma {:induction false} RunMatchesScan(states: seq<SdkState>, activityPresent: bool)
    ensures var o := AwaitReady(states, activityPresent);
            var g := Run(Initial, Emit(states), activityPresent);
            && (o.StillWaiting? ==> g == Initial)
            && (o.LaunchedUI? ==> g == Flow(Unsettled, false, true))
            && (o.ResolvedFailure? ==> g == Flow(Settled(NoActivityResult), false, false))
            && (o.StoppedSilently? ==> g == Flow(Unsettled, false, false))
    decreases |states|
  {
    if |states| > 0 {
      assert Emit(states)[1..] == Emit(states[1..]);
      var g1 := Step(Initial, Emitted(states[0]), activityPresent);
      if Terminal(states[0]) {
        FirstIndexIs(states, Terminal, 0);
        StoppedIgnoresStates(g1, states[1..], activityPresent);
      } else {
        SkipsNonTerminal(states, activityPresent);
        RunMatchesScan(states[1..], activityPresent);
      }
    }
  }

  /** With an activity to present on, the wait never resolves: the promise gets the
      SDK callback's first result, and nothing else. */
  lemma {:induction false} WithActivityOnlyCallbacksResolve(f: Flow, trace: seq<Event>)
    ensures Run(f, trace, true).promise == ResolveAll(f.promise, Delivered(trace))
    decreases |trace|
  {
    if |trace| > 0 {
      WithActivityOnlyCallbacksResolve(Step(f, trace[0], true), trace[1..]);
    }
  }

  /** Whatever settles the promise, it is settled with a well-formed record. */
  lemma {:induction false} RunKeepsWellFormed(f: Flow, trace: seq<Event>, activityPresent: bool)
    requires f.promise.Settled? ==> WellFormed(f.promise.value)
    ensures var g := Run(f, trace, activityPresent); g.promise.Settled? ==> WellFormed(g.promise.value)
    decreases |trace|
  {
    if |trace| > 0 {
      RunKeepsWellFormed(Step(f, trace[0], activityPresent), trace[1..], activityPresent);
    }
  }

  /** `startVerification` / `startVerificationWithWorkflow` once the parse has been tried:
      a thrown exception resolves the call at once and the SDK is never started; otherwise
      the call runs the trace. Either way the caller only ever sees a well-formed record. */
  function Launch(parsed: bool, exceptionMessage: Option<string>, trace: seq<Event>, activityPresent: bool): (f: Flow)
    ensures f.promise.Settled? ==> WellFormed(f.promise.value)
    ensures !parsed ==> f.promise == Settled(Android.RejectWithError(exceptionMessage)) && !f.collecting && !f.launched
    ensures parsed ==> f == Run(Initial, trace, activityPresent)
    ensures parsed && activityPresent ==> f.promise == ResolveAll(Unsettled, Delivered(trace))
  {
    if !parsed then Flow(Settled(Android.RejectWithError(exceptionMessage)), false, false)
    else
      RunKeepsWellFormed(Initial, trace, activityPresent);
      WithActivityOnlyCallbacksResolve(Initial, trace);
      Run(Initial, trace, activityPresent)
  }

  /** `startVerification`: the configuration map is parsed first; `exceptionMessage` is the
      message of whatever the map throws. */
  function StartVerification(config: Option<Dict>, fromCode: string -> Option<Android.Locale>, exceptionMessage: Option<string>, trace: seq<Event>, activityPresent: bool): (f: Flow)
    ensures f.promise.Settled? ==> WellFormed(f.promise.value)
    ensures Android.ParseConfiguration(config, fromCode).Failure? ==>
      f.promise == Settled(Android.RejectWithError(exceptionMessage)) && !f.launched
    ensures Android.ParseConfiguration(config, fromCode).Success? ==> f == Run(Initial, trace, activityPresent)
  {
    Launch(Android.ParseConfiguration(config, fromCode).Success?, exceptionMessage, trace, activityPresent)
  }

  /** The three maps of a workflow call all parse without a throw. */
  predicate WorkflowParses(config: Option<Dict>, contact: Option<Dict>, expected: Option<Dict>,
                           fromCode: string -> Option<Android.Locale>) {
    && Android.ParseConfiguration(config, fromCode).Success?
    && Android.ParseContactDetails(contact).Success?
    && Android.ParseExpectedDetails(expected).Success?
  }

  /** `startVerificationWithWorkflow`: configuration, contact and expected details are
      parsed in that order before the SDK is started. */
  function StartVerificationWithWorkflow(
    config: Option<Dict>, contact: Option<Dict>, expected: Option<Dict>, fromCode: string -> Option<Android.Locale>,
    exceptionMessage: Option<string>, trace: seq<Event>, activityPresent: bool): (f: Flow)
    ensures f.promise.Settled? ==> WellFormed(f.promise.value)
    ensures !WorkflowParses(config, contact, expected, fromCode) ==>
      f.promise == Settled(Android.RejectWithError(exceptionMessage)) && !f.launched
    ensures WorkflowParses(config, contact, expected, fromCode) ==> f == Run(Initial, trace, activityPresent)
  {
    Launch(WorkflowParses(config, contact, expected, fromCode), exceptionMessage, trace, activityPresent)
  }
}
