/** The status texts of the ARPort view controller, written identically in its chapter 15 and
    chapter 16 versions: the app states, the tracking-status text for each tracking state, the
    message for each app state, and the choice between the two for the status label. */
module ARPortStatus {
  import opened ARTracking

  datatype AppState = DetectSurface | PointAtSurface | TapToStart | Started

  const TrackingPrefix: string := "Tracking:"

  /** session(_:cameraDidChangeTrackingState:): the text kept in trackingStatus; every text
      but the empty one begins with "Tracking:". */
  function TrackingStatus(state: TrackingState): (r: string)
    ensures r == "" <==> state == Normal
    ensures state != Normal ==> |r| > |TrackingPrefix| && r[..|TrackingPrefix|] == TrackingPrefix
  {
    match state
    case NotAvailable => TrackingPrefix + "  Not available!"
    case Normal => ""
    case Limited(reason) =>
      match reason
      case ExcessiveMotion => TrackingPrefix + " Limited due to excessive motion!"
      case InsufficientFeatures => TrackingPrefix + " Limited due to insufficient features!"
      case Relocalizing => TrackingPrefix + " Relocalizing..."
      case Initializing => TrackingPrefix + " Initializing..."
      case Unknown => TrackingPrefix + " Unknown..."
  }

  /** Each tracking state has its own text. */
  lemma TrackingStatusDistinct(a: TrackingState, b: TrackingState)
    requires TrackingStatus(a) == TrackingStatus(b)
    ensures a == b
  {
  }

  /** updateStatus: the message for each app state. */
  function StatusMessage(state: AppState): (r: string)
    ensures r != ""
  {
    match state
    case DetectSurface => "Scan available flat surfaces..."
    case PointAtSurface => "Point at designated surface first!"
    case TapToStart => "Tap to start."
    case Started => "Tap objects for more info."
  }

  lemma StatusMessageDistinct(a: AppState, b: AppState)
    requires StatusMessage(a) == StatusMessage(b)
    ensures a == b
  {
  }

  /** The status label: a non-empty tracking status wins over the app-state message. */
  function StatusLabel(trackingStatus: string, state: AppState): (r: string)
    ensures trackingStatus != "" ==> r == trackingStatus
    ensures trackingStatus == "" ==> r == StatusMessage(state)
    ensures r != ""
  {
    if trackingStatus != "" then trackingStatus else StatusMessage(state)
  }

  const FailurePrefix: string := "AR Session Failure: "
  const InterruptedStatus: string := "AR Session Was Interrupted!"
  const InterruptionEndedStatus: string := "AR Session Interruption Ended"

  /** session(_:didFailWithError:): the failure text with the error's description appended. */
  function FailureStatus(error: string): (r: string)
    ensures |r| == |FailurePrefix| + |error|
    ensures r[..|FailurePrefix|] == FailurePrefix && r[|FailurePrefix|..] == error
    ensures r != ""
  {
    FailurePrefix + error
  }
}
