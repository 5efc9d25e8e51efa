/** The chapter 16 ARPort view controller: a focus node follows the surface the camera points
    at, a tap places the portal there, and the app state moves between DetectSurface,
    PointAtSurface, TapToStart and Started. */
module ARPortFocus {
  import opened Wrappers
  import opened ARTracking
  import opened ARPortStatus

  /** A node position, kept as an opaque value. */
  datatype Position = Position(x: real, y: real, z: real)

  datatype PortState = PortState(
    appState: AppState, trackingStatus: string, statusMessage: string, statusLabel: string,
    focusHidden: bool, focusPosition: Position, portHidden: bool, portPosition: Position)

  /** What the visibility of the two nodes says about the app state, in every reachable state:
      the portal shows exactly when the app has started, the focus node shows whenever the app
      waits for a tap, and it is hidden while pointing at no surface and once started. */
  ghost predicate Consistent(s: PortState)
  {
    && (s.appState == Started <==> !s.portHidden)
    && (s.appState == TapToStart ==> !s.focusHidden)
    && (s.appState == Started || s.appState == PointAtSurface ==> s.focusHidden)
  }

  /** The state after viewDidLoad: both nodes hidden, nothing tracked yet. */
  function InitialState(focusPosition: Position, portPosition: Position): (s: PortState)
    ensures s.appState == DetectSurface && s.trackingStatus == "" && s.statusMessage == ""
    ensures s.focusHidden && s.portHidden && Consistent(s)
  {
    PortState(DetectSurface, "", "", "", true, focusPosition, true, portPosition)
  }

  /** tapGestureHandler: honoured only in TapToStart, where it shows the portal at the focus
      position and hides the focus node. */
  function AfterTap(s: PortState): (r: PortState)
    ensures s.appState != TapToStart ==> r == s
    ensures s.appState == TapToStart ==>
              r == s.(appState := Started, portHidden := false, focusHidden := true,
                      portPosition := s.focusPosition)
    ensures Consistent(s) ==> Consistent(r)
  {
    if s.appState != TapToStart then s
    else s.(portHidden := false, focusHidden := true, portPosition := s.focusPosition,
            appState := Started)
  }

  /** startApp: back to scanning with both nodes hidden. */
  function AfterStartApp(s: PortState): (r: PortState)
    ensures r == s.(appState := DetectSurface, portHidden := true, focusHidden := true)
    ensures Consistent(r)
  {
    s.(portHidden := true, focusHidden := true, appState := DetectSurface)
  }

  /** resetApp: back to scanning with the portal hidden; the focus node is left as it is. */
  function AfterResetApp(s: PortState): (r: PortState)
    ensures r == s.(appState := DetectSurface, portHidden := true)
    ensures Consistent(s) ==> Consistent(r)
  {
    s.(portHidden := true, appState := DetectSurface)
  }

  /** updateFocusNode. `results` is what the raycast from the focus point returns, None when no
      raycast query could be built. */
  function AfterFocusUpdate(s: PortState, results: Option<seq<Position>>): (r: PortState)
    ensures s.appState == Started ==> r == s.(focusHidden := true)
    ensures s.appState != Started && results.None? ==> r == s
    ensures s.appState != Started && results.Some? && |results.value| == 1 ==>
              r == s.(appState := TapToStart, focusHidden := false, focusPosition := results.value[0])
    ensures s.appState != Started && results.Some? && |results.value| != 1 ==>
              r == s.(appState := PointAtSurface, focusHidden := true)
    ensures r.appState == Started <==> s.appState == Started
    ensures Consistent(s) ==> Consistent(r)
  {
    if s.appState == Started then s.(focusHidden := true)
    else if results.None? then s
    else if |results.value| == 1 then
      s.(focusPosition := results.value[0], appState := TapToStart, focusHidden := false)
    else s.(appState := PointAtSurface, focusHidden := true)
  }

  /** updateStatus. */
  function AfterUpdateStatus(s: PortState): (r: PortState)
    ensures r == s.(statusMessage := StatusMessage(s.appState),
                    statusLabel := StatusLabel(s.trackingStatus, s.appState))
    ensures r.statusLabel != ""
    ensures Consistent(s) ==> Consistent(r)
  {
    var message := StatusMessage(s.appState);
    s.(statusMessage := message,
       statusLabel := if s.trackingStatus != "" then s.trackingStatus else message)
  }

  /** The callbacks the view controller receives; a rendered frame runs updateFocusNode and then
      updateStatus. */
  datatype Event =
    | Tap | StartApp | ResetApp
    | TrackingChanged(state: TrackingState) | Failed(error: string)
    | Interrupted | InterruptionEnded
    | Render(results: Option<seq<Position>>)

  function Step(s: PortState, e: Event): (r: PortState)
    ensures Consistent(s) ==> Consistent(r)
  {
    match e
    case Tap => AfterTap(s)
    case StartApp => AfterStartApp(s)
    case ResetApp => AfterResetApp(s)
    case TrackingChanged(state) => s.(trackingStatus := TrackingStatus(state))
    case Failed(error) => s.(trackingStatus := FailureStatus(error))
    case Interrupted => s.(trackingStatus := InterruptedStatus)
    case InterruptionEnded => s.(trackingStatus := InterruptionEndedStatus)
    case Render(results) => AfterUpdateStatus(AfterFocusUpdate(s, results))
  }

  function Run(s: PortState, events: seq<Event>): PortState
    decreases |events|
  {
    if events == [] then s else Run(Step(s, events[0]), events[1..])
  }

  lemma {:induction false} RunKeepsConsistent(s: PortState, events: seq<Event>)
    requires Consistent(s)
    ensures Consistent(Run(s, events))
    decreases |events|
  {
    if events != [] {
      RunKeepsConsistent(Step(s, events[0]), events[1..]);
    }
  }

  /** Started is left only through startApp or resetApp: no tap, frame or tracking callback
      leaves it, and the portal stays where the tap put it. */
  lemma {:induction false} StartedUntilRestart(s: PortState, events: seq<Event>)
    requires s.appState == Started
    requires forall i :: 0 <= i < |events| ==> !events[i].StartApp? && !events[i].ResetApp?
    ensures Run(s, events).appState == Started
    ensures Run(s, events).portPosition == s.portPosition && Run(s, events).portHidden == s.portHidden
    decreases |events|
  {
    if events != [] {
      StartedUntilRestart(Step(s, events[0]), events[1..]);
    }
  }

  /** Started can only be reached through a tap in TapToStart: frames and tracking callbacks
      alone never start the app. */
  lemma {:induction false} OnlyTapStarts(s: PortState, events: seq<Event>)
    requires s.appState != Started
    requires forall i :: 0 <= i < |events| ==> !events[i].Tap?
    ensures Run(s, events).appState != Started
    decreases |events|
  {
    if events != [] {
      OnlyTapStarts(Step(s, events[0]), events[1..]);
    }
  }

  class ViewController {
    var appState: AppState
    var trackingStatus: string
    var statusMessage: string
    var statusLabel: string
    var focusHidden: bool
    var focusPosition: Position
    var portHidden: bool
    var portPosition: Position

    function State(): PortState
      reads this
    {
      PortState(appState, trackingStatus, statusMessage, statusLabel,
                focusHidden, focusPosition, portHidden, portPosition)
    }

    ghost predicate Valid()
      reads this
    {
      Consistent(State())
    }

    /** The positions are those the two nodes have in their scene files. */
    constructor (focusPosition: Position, portPosition: Position)
      ensures State() == InitialState(focusPosition, portPosition) && Valid()
    {
      appState, trackingStatus, statusMessage, statusLabel := DetectSurface, "", "", "";
      focusHidden, this.focusPosition := true, focusPosition;
      portHidden, this.portPosition := true, portPosition;
    }

    method TapGestureHandler()
      requires Valid()
      modifies this
      ensures State() == AfterTap(old(State())) && Valid()
    {
      if appState != TapToStart { return; }
      portHidden := false;
      focusHidden := true;
      portPosition := focusPosition;
      appState := Started;
    }

    method StartApp()
      requires Valid()
      modifies this
      ensures State() == AfterStartApp(old(State())) && Valid()
    {
      portHidden := true;
      focusHidden := true;
      appState := DetectSurface;
    }

    /** Restarting the AR session itself is the framework's. */
    method ResetApp()
      requires Valid()
      modifies this
      ensures State() == AfterResetApp(old(State())) && Valid()
    {
      portHidden := true;
      appState := DetectSurface;
    }

    method CameraDidChangeTrackingState(state: TrackingState)
      requires Valid()
      modifies this
      ensures State() == Step(old(State()), TrackingChanged(state)) && Valid()
    {
      trackingStatus := TrackingStatus(state);
    }

    method SessionDidFail(error: string)
      requires Valid()
      modifies this
      ensures State() == Step(old(State()), Failed(error)) && Valid()
    {
      trackingStatus := FailurePrefix + error;
    }

    method SessionWasInterrupted()
      requires Valid()
      modifies this
      ensures State() == Step(old(State()), Interrupted) && Valid()
    {
      trackingStatus := InterruptedStatus;
    }

    method SessionInterruptionEnded()
      requires Valid()
      modifies this
      ensures State() == Step(old(State()), InterruptionEnded) && Valid()
    {
      trackingStatus := InterruptionEndedStatus;
    }

    method UpdateFocusNode(results: Option<seq<Position>>)
      requires Valid()
      modifies this
      ensures State() == AfterFocusUpdate(old(State()), results) && Valid()
    {
      if appState == Started {
        focusHidden := true;
        return;
      }
      if results.Some? {
        if |results.value| == 1 {
          focusPosition := results.value[0];
          appState := TapToStart;
          focusHidden := false;
        } else {
          appState := PointAtSurface;
          focusHidden := true;
        }
      }
    }

    method UpdateStatus()
      requires Valid()
      modifies this
      ensures State() == AfterUpdateStatus(old(State())) && Valid()
    {
      statusMessage := StatusMessage(appState);
      statusLabel := if trackingStatus != "" then trackingStatus else statusMessage;
    }

    /** renderer(_:updateAtTime:). */
    method RendererUpdate(results: Option<seq<Position>>)
      requires Valid()
      modifies this
      ensures State() == Step(old(State()), Render(results)) && Valid()
    {
      UpdateFocusNode(results);
      UpdateStatus();
    }
  }
}
