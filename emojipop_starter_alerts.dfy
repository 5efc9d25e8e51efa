/** The starter EmojiPop view controller's session callbacks: which tracking changes raise an
    alert, the failure and interruption alerts, and the restart when an interruption ends. */
module EmojiPopStarterAlerts {
  import opened Wrappers
  import opened ARTracking
  import EP = EmojiPopScene
  import ES = EmojiPopStarterScene

  datatype Alert = Alert(title: string, message: string)

  const TrackingLimitedTitle: string := "Tracking Limited"

  /** The alert a tracking change raises: none while tracking works or is only starting up
      or relocalizing, one titled "Tracking Limited" otherwise. */
  function TrackingAlert(state: TrackingState): (r: Option<Alert>)
    ensures r.None? <==> state == Normal || (state.Limited? && state.reason in {Initializing, Relocalizing, Unknown})
    ensures r.Some? ==> r.value.title == TrackingLimitedTitle && r.value.message != ""
    ensures state == NotAvailable ==> r == Some(Alert(TrackingLimitedTitle, "AR not available"))
    ensures state == Limited(ExcessiveMotion) ==> r == Some(Alert(TrackingLimitedTitle, "Excessive motion!"))
    ensures state == Limited(InsufficientFeatures) ==> r == Some(Alert(TrackingLimitedTitle, "Insufficient features!"))
  {
    match state
    case Normal => None
    case NotAvailable => Some(Alert(TrackingLimitedTitle, "AR not available"))
    case Limited(reason) =>
      match reason
      case Initializing => None
      case Relocalizing => None
      case ExcessiveMotion => Some(Alert(TrackingLimitedTitle, "Excessive motion!"))
      case InsufficientFeatures => Some(Alert(TrackingLimitedTitle, "Insufficient features!"))
      case Unknown => None
  }

  /** Different alerting states give different alerts, so the user can tell them apart. */
  lemma TrackingAlertsDistinct(a: TrackingState, b: TrackingState)
    requires TrackingAlert(a).Some? && TrackingAlert(a) == TrackingAlert(b)
    ensures a == b
  {
  }

  function SessionFailureAlert(description: string): (r: Alert)
    ensures r.title == "Session Failure" && r.message == description
  {
    Alert("Session Failure", description)
  }

  function InterruptionAlert(): (r: Alert)
    ensures r.title == "AR Session" && r.message == "Session was interrupted!"
  {
    Alert("AR Session", "Session was interrupted!")
  }

  class ViewController {
    /** The alerts presented so far, oldest first. */
    var alerts: seq<Alert>
    var scene: ES.StarterScene

    constructor (scene: ES.StarterScene)
      ensures this.scene == scene && alerts == []
    {
      this.scene := scene;
      alerts := [];
    }

    method ShowAlert(title: string, message: string)
      modifies this
      ensures alerts == old(alerts) + [Alert(title, message)] && scene == old(scene)
    {
      alerts := alerts + [Alert(title, message)];
    }

    method SessionDidFail(description: string)
      modifies this
      ensures alerts == old(alerts) + [SessionFailureAlert(description)] && scene == old(scene)
    {
      ShowAlert("Session Failure", description);
    }

    method CameraDidChangeTrackingState(state: TrackingState)
      modifies this
      ensures alerts == old(alerts) + (if TrackingAlert(state).Some? then [TrackingAlert(state).value] else [])
      ensures scene == old(scene)
    {
      match state
      case Normal =>
      case NotAvailable => ShowAlert(TrackingLimitedTitle, "AR not available");
      case Limited(reason) =>
        match reason
        case Initializing =>
        case Relocalizing =>
        case ExcessiveMotion => ShowAlert(TrackingLimitedTitle, "Excessive motion!");
        case InsufficientFeatures => ShowAlert(TrackingLimitedTitle, "Insufficient features!");
        case Unknown =>
    }

    method SessionWasInterrupted()
      modifies this
      ensures alerts == old(alerts) + [InterruptionAlert()] && scene == old(scene)
    {
      ShowAlert("AR Session", "Session was interrupted!");
    }

    /** The game goes back to waiting for a tap; no alert is shown. */
    method SessionInterruptionEnded()
      modifies scene
      ensures scene.State() == EP.AfterStartGame(old(scene.State()))
      ensures scene.gameState == EP.TapToStart
    {
      scene.StartGame();
    }
  }
}
