/** The chapter 15 ARPort view controller: the app state is declared with four cases but is
    only ever set to DetectSurface, the tap handler is empty, and the status label shows the
    tracking status when there is one and the state's message otherwise. */
module ARPortBasic {
  import opened ARTracking
  import opened ARPortStatus

  datatype BasicState = BasicState(appState: AppState, trackingStatus: string,
                                   statusMessage: string, statusLabel: string)

  /** The callbacks the view controller receives. */
  datatype Event =
    | Tap | StartApp | ResetApp
    | TrackingChanged(state: TrackingState) | Failed(error: string)
    | Interrupted | InterruptionEnded | Render

  function InitialState(): (s: BasicState)
    ensures s.appState == DetectSurface && s.trackingStatus == "" && s.statusMessage == ""
  {
    BasicState(DetectSurface, "", "", "")
  }

  function Step(s: BasicState, e: Event): (r: BasicState)
    // the tap handler has an empty body
    ensures e.Tap? ==> r == s
    // only the two app-management calls write the app state, and they write DetectSurface
    ensures e.StartApp? || e.ResetApp? ==> r == s.(appState := DetectSurface)
    ensures !(e.StartApp? || e.ResetApp?) ==> r.appState == s.appState
    ensures e.TrackingChanged? ==> r == s.(trackingStatus := TrackingStatus(e.state))
    // failures and interruptions overwrite the tracking status with a non-empty text
    ensures e.Failed? ==> r == s.(trackingStatus := FailureStatus(e.error))
    ensures e.Interrupted? ==> r == s.(trackingStatus := InterruptedStatus)
    ensures e.InterruptionEnded? ==> r == s.(trackingStatus := InterruptionEndedStatus)
    ensures e.Failed? || e.Interrupted? || e.InterruptionEnded? ==> r.trackingStatus != ""
    // each rendered frame refreshes the message and the label
    ensures e.Render? ==> r.statusMessage == StatusMessage(s.appState)
    ensures e.Render? ==> r.statusLabel == StatusLabel(s.trackingStatus, s.appState)
    ensures e.Render? ==> r.appState == s.appState && r.trackingStatus == s.trackingStatus
  {
    match e
    case Tap => s
    case StartApp => s.(appState := DetectSurface)
    case ResetApp => s.(appState := DetectSurface)
    case TrackingChanged(state) => s.(trackingStatus := TrackingStatus(state))
    case Failed(error) => s.(trackingStatus := FailureStatus(error))
    case Interrupted => s.(trackingStatus := InterruptedStatus)
    case InterruptionEnded => s.(trackingStatus := InterruptionEndedStatus)
    case Render =>
      var message := StatusMessage(s.appState);
      s.(statusMessage := message,
         statusLabel := if s.trackingStatus != "" then s.trackingStatus else message)
  }

  function Run(s: BasicState, events: seq<Event>): BasicState
    decreases |events|
  {
    if events == [] then s else Run(Step(s, events[0]), events[1..])
  }

  /** The app never leaves DetectSurface, whatever the callbacks. */
  lemma {:induction false} AlwaysDetectSurface(s: BasicState, events: seq<Event>)
    requires s.appState == DetectSurface
    ensures Run(s, events).appState == DetectSurface
    decreases |events|
  {
    if events != [] {
      AlwaysDetectSurface(Step(s, events[0]), events[1..]);
    }
  }

  /** So once a frame is rendered with no tracking problem the label asks to scan for surfaces. */
  lemma {:induction false} LabelAfterRender(events: seq<Event>)
    requires Run(InitialState(), events).trackingStatus == ""
    ensures Step(Run(InitialState(), events), Render).statusLabel == "Scan available flat surfaces..."
  {
    AlwaysDetectSurface(InitialState(), events);
  }

  class ViewController {
    var appState: AppState
    var trackingStatus: string
    var statusMessage: string
    var statusLabel: string

    function State(): BasicState
      reads this
    {
      BasicState(appState, trackingStatus, statusMessage, statusLabel)
    }

    constructor ()
      ensures State() == InitialState()
    {
      appState, trackingStatus, statusMessage, statusLabel := DetectSurface, "", "", "";
    }

    method TapGestureHandler()
      ensures State() == Step(old(State()), Tap)
    {
    }

    method StartApp()
      modifies this
      ensures State() == Step(old(State()), Event.StartApp)
    {
      appState := DetectSurface;
    }

    /** Restarting the AR session itself is the framework's. */
    method ResetApp()
      modifies this
      ensures State() == Step(old(State()), Event.ResetApp)
    {
      appState := DetectSurface;
    }

    method CameraDidChangeTrackingState(state: TrackingState)
      modifies this
      ensures State() == Step(old(State()), TrackingChanged(state))
    {
      trackingStatus := TrackingStatus(state);
    }

    method SessionDidFail(error: string)
      modifies this
      ensures State() == Step(old(State()), Failed(error))
    {
      trackingStatus := FailurePrefix + error;
    }

    method SessionWasInterrupted()
      modifies this
      ensures State() == Step(old(State()), Interrupted)
    {
      trackingStatus := InterruptedStatus;
    }

    method SessionInterruptionEnded()
      modifies this
      ensures State() == Step(old(State()), InterruptionEnded)
    {
      trackingStatus := InterruptionEndedStatus;
    }

    /** renderer(_:updateAtTime:) runs updateStatus on every frame. */
    method UpdateStatus()
      modifies this
      ensures State() == Step(old(State()), Render)
    {
      statusMessage := StatusMessage(appState);
      statusLabel := if trackingStatus != "" then trackingStatus else statusMessage;
    }
  }
}
