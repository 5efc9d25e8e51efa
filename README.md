# AR tutorial apps: state machines and decision logic

This project models the small amount of logic that the augmented-reality sample apps own
themselves. The AR, rendering and networking work belongs to the platform frameworks. The
framework callbacks become input events, and framework results become plain inputs:
- a raycast result list;
- an optional entity hit;
- the name of a touched node;
- a tracking-state enum;
- a face anchor's `jawOpen` value.

The modelled pieces:

- **EmojiPop, finished game** (`EmojiPopScene`). The `Scene` class holds `gameState`,
  `score`, `lives`, `spawnTime`, a count of spawned emojis and the HUD message. The class
  methods are proved against step functions (`AfterUpdate`, `AfterTouches`, and so on).
  A lemma over every sequence of events proves these invariants:
  - the score never goes negative;
  - lives never exceed 10;
  - a game in play has at least one life;
  - a game is over only once its lives have run out;
  - no event adds more than one point.

  Frames and further expiries keep GameOver and the final score. Only a touch or startGame
  leaves GameOver, and startGame is also what the view controller calls when a session
  interruption ends. A further lemma proves that the first emoji waits more than three
  seconds.
- **EmojiPop, starter** (`EmojiPopStarterScene`, `EmojiPopStarterAlerts`). The starter scene
  reuses the game state and the start, play and stop steps, because its code for them is
  identical. Its frames do nothing and touches during play are ignored. A trace lemma proves
  that it never scores and never reaches GameOver. The starter view controller maps tracking
  states to optional alerts and restarts the game when a session interruption ends.
- **ARPort** (`ARPortStatus`, `ARPortBasic`, `ARPortFocus`). `ARPortStatus` holds the
  tracking-status texts, the per-state messages and the label choice. Chapters 15 and 16
  write these identically. In chapter 15 the app state is only ever set to DetectSurface,
  which is proved for every trace. Chapter 16 adds the focus node and the portal. Its class
  keeps an invariant tying node visibility to the app state. Lemmas prove that Started is left
  only through startApp or resetApp, and that only a tap reaches Started.
- **ARFunnyFace** (`FunnyFaceAnchors`, `FunnyFaceBlend`). Both chapters use the same
  Previous and Next clamps. They are defined once, with the last prop id as a parameter: 2 in
  chapter 10, 3 in chapter 11. They keep `propId` within range over any sequence of presses. `updateUIView` loads exactly one prop
  per valid id, and in chapter 11 it sets the robot exactly for id 3. The session delegate
  finds the last face anchor with a loop proved against `LastFace`. It fires the lasers only
  through the `isLasersDone` latch. Robots are named by load number, and the `lasersDone`
  closure belongs to the robot it was attached to. So `NoRefireInFlight` also shows this: if
  the robot is reloaded while lasers are in flight, only the earlier robot's `lasersDone` can
  release the latch.
- **TinyToyTank** (`TinyToyTank`). The six button handlers share one shape, modelled as
  `Press(action)`. `Drive` feeds a sequence of presses and completions to the view
  controller's handlers. A loop proves that the flag and the posted notifications end as the
  functions `PlayingAfter` and `Posted` say. Lemmas about those functions therefore hold of
  the handlers themselves, and they prove two things: without an `actionComplete`, presses
  post at most one notification; over any run, posted notifications exceed completions by at
  most one.
- **XOXO** (`XOXO`). The model covers:
  - the player colour buttons;
  - the peer-admission rule;
  - the `"SessionID:"` command;
  - removal of a departed peer's session-ID entry;
  - the branches of the tap handler;
  - the removal of every anchor of the current frame.

## Model

| member | source | states |
|---|---|---|
| `EmojiPopScene.InitialState` | 14-raycasting-and-physics/projects/final/EmojiPop/EmojiPop/Scene.swift:45-50 | the scene starts in Init with score 0, 10 lives and a disarmed spawn timer |
| `EmojiPopScene.AfterStartGame` | 14-raycasting-and-physics/projects/final/EmojiPop/EmojiPop/Scene.swift:96-100 | startGame sets TapToStart and shows the tap prompt; score, lives and timer are unchanged |
| `EmojiPopScene.AfterPlayGame` | 14-raycasting-and-physics/projects/final/EmojiPop/EmojiPop/Scene.swift:102-108 | playGame sets Playing and resets score to 0, lives to 10 and spawnTime to 0 |
| `EmojiPopScene.AfterStopGame` | 14-raycasting-and-physics/projects/final/EmojiPop/EmojiPop/Scene.swift:110-113 | stopGame sets GameOver, shows the final score and leaves score and lives unchanged |
| `EmojiPopScene.AfterUpdate` | 14-raycasting-and-physics/projects/final/EmojiPop/EmojiPop/Scene.swift:56-69 | a frame changes nothing unless Playing; a disarmed timer is armed for currentTime+3 with no spawn on that frame; an emoji spawns exactly when an armed timer is before currentTime, re-arming it for currentTime+0.5; state, score and lives never change |
| `EmojiPopScene.AfterCheckTouches` | 14-raycasting-and-physics/projects/final/EmojiPop/EmojiPop/Scene.swift:171-184 | the score rises by exactly 1 iff the touched node is named "Emoji"; otherwise nothing changes |
| `EmojiPopScene.AfterTouches` | 14-raycasting-and-physics/projects/final/EmojiPop/EmojiPop/Scene.swift:71-86 | a touch does nothing in Init, starts a fresh game in TapToStart, checks for an emoji hit in Playing, and returns to TapToStart from GameOver keeping the score |
| `EmojiPopScene.AfterEmojiExpired` | 14-raycasting-and-physics/projects/final/EmojiPop/EmojiPop/Scene.swift:159-162 | each expired emoji costs exactly one life, and the state becomes GameOver once lives reach 0 or below |
| `EmojiPopScene.Scene.constructor` | 14-raycasting-and-physics/projects/final/EmojiPop/EmojiPop/Scene.swift:45-50 | the fields start at the initial state |
| `EmojiPopScene.Scene.DidMove` | 14-raycasting-and-physics/projects/final/EmojiPop/EmojiPop/Scene.swift:52-54 | presenting the scene runs startGame |
| `EmojiPopScene.Scene.Update` | 14-raycasting-and-physics/projects/final/EmojiPop/EmojiPop/Scene.swift:56-69 | the fields after a frame are those AfterUpdate gives |
| `EmojiPopScene.Scene.TouchesBegan` | 14-raycasting-and-physics/projects/final/EmojiPop/EmojiPop/Scene.swift:71-86 | the fields after a touch are those AfterTouches gives |
| `EmojiPopScene.Scene.StartGame` | 14-raycasting-and-physics/projects/final/EmojiPop/EmojiPop/Scene.swift:96-100 | the fields become AfterStartGame of the old ones |
| `EmojiPopScene.Scene.PlayGame` | 14-raycasting-and-physics/projects/final/EmojiPop/EmojiPop/Scene.swift:102-108 | the fields become AfterPlayGame of the old ones |
| `EmojiPopScene.Scene.StopGame` | 14-raycasting-and-physics/projects/final/EmojiPop/EmojiPop/Scene.swift:110-113 | the fields become AfterStopGame of the old ones |
| `EmojiPopScene.Scene.SpawnEmoji` | 14-raycasting-and-physics/projects/final/EmojiPop/EmojiPop/Scene.swift:138-165 | one more emoji is launched and nothing else changes |
| `EmojiPopScene.Scene.EmojiExpired` | 14-raycasting-and-physics/projects/final/EmojiPop/EmojiPop/Scene.swift:159-162 | the expiry closure gives AfterEmojiExpired of the old fields |
| `EmojiPopScene.Scene.CheckTouches` | 14-raycasting-and-physics/projects/final/EmojiPop/EmojiPop/Scene.swift:171-184 | the fields become AfterCheckTouches of the old ones |
| `EmojiPopScene.RunKeepsConsistent` | 14-raycasting-and-physics/projects/final/EmojiPop/EmojiPop/Scene.swift:71-177 | over any sequence of frames, touches and expiries: score stays at least 0, lives at most 10, a game in play has at least one life, a game is over only with no lives left, and the score rises by at most one per event |
| `EmojiPopScene.ReachableIsConsistent` | 14-raycasting-and-physics/projects/final/EmojiPop/EmojiPop/Scene.swift:45-50 | every state reached from the initial one has those bounds |
| `EmojiPopScene.GameOverHoldsUntilTouch` | 14-raycasting-and-physics/projects/final/EmojiPop/EmojiPop/Scene.swift:56-162 | frames and further expiries leave GameOver and the final score untouched |
| `EmojiPopScene.FirstSpawnWaits` | 14-raycasting-and-physics/projects/final/EmojiPop/EmojiPop/Scene.swift:59-66 | after a game starts, no emoji spawns on any frame up to three seconds after that game's first frame |
| `EmojiPopScene.FirstSpawnWaitsFrom` | 14-raycasting-and-physics/projects/final/EmojiPop/EmojiPop/Scene.swift:63-66 | while the armed spawn time has not been passed, frames neither spawn nor move the timer |
| `EmojiPopStarterScene.AfterStarterUpdate` | 14-raycasting-and-physics/projects/starter/EmojiPop/EmojiPop/Scene.swift:56-58 | a frame changes nothing in any state |
| `EmojiPopStarterScene.AfterStarterTouches` | 14-raycasting-and-physics/projects/starter/EmojiPop/EmojiPop/Scene.swift:60-75 | a touch changes nothing in Init or Playing, starts a fresh game in TapToStart and returns to TapToStart from GameOver |
| `EmojiPopStarterScene.StarterScene.constructor` | 14-raycasting-and-physics/projects/starter/EmojiPop/EmojiPop/Scene.swift:45-50 | the starter scene starts in Init with score 0 and 10 lives |
| `EmojiPopStarterScene.StarterScene.DidMove` | 14-raycasting-and-physics/projects/starter/EmojiPop/EmojiPop/Scene.swift:52-54 | presenting the scene runs startGame |
| `EmojiPopStarterScene.StarterScene.Update` | 14-raycasting-and-physics/projects/starter/EmojiPop/EmojiPop/Scene.swift:56-58 | the frame callback changes no field |
| `EmojiPopStarterScene.StarterScene.TouchesBegan` | 14-raycasting-and-physics/projects/starter/EmojiPop/EmojiPop/Scene.swift:60-75 | the fields after a touch are those AfterStarterTouches gives |
| `EmojiPopStarterScene.StarterScene.StartGame` | 14-raycasting-and-physics/projects/starter/EmojiPop/EmojiPop/Scene.swift:85-89 | sets TapToStart, as in the finished game |
| `EmojiPopStarterScene.StarterScene.PlayGame` | 14-raycasting-and-physics/projects/starter/EmojiPop/EmojiPop/Scene.swift:91-97 | sets Playing with score 0, lives 10 and spawnTime 0, as in the finished game |
| `EmojiPopStarterScene.StarterScene.StopGame` | 14-raycasting-and-physics/projects/starter/EmojiPop/EmojiPop/Scene.swift:99-102 | sets GameOver without touching the score |
| `EmojiPopStarterScene.RunStaysUntouched` | 14-raycasting-and-physics/projects/starter/EmojiPop/EmojiPop/Scene.swift:60-102 | over any sequence of startGame calls, frames and touches, score stays 0, lives stay 10, nothing spawns and GameOver is never reached |
| `EmojiPopStarterScene.StarterNeverScores` | 14-raycasting-and-physics/projects/starter/EmojiPop/EmojiPop/Scene.swift:68-70 | with checkTouches disabled, the score of every reachable state is 0 |
| `EmojiPopStarterAlerts.TrackingAlert` | 14-raycasting-and-physics/projects/starter/EmojiPop/EmojiPop/ViewController.swift:94-112 | no alert for normal, initializing, relocalizing or unknown reasons; "Tracking Limited" alerts "AR not available", "Excessive motion!" and "Insufficient features!" otherwise |
| `EmojiPopStarterAlerts.TrackingAlertsDistinct` | 14-raycasting-and-physics/projects/starter/EmojiPop/EmojiPop/ViewController.swift:97-107 | different alerting tracking states raise different alerts |
| `EmojiPopStarterAlerts.SessionFailureAlert` | 14-raycasting-and-physics/projects/starter/EmojiPop/EmojiPop/ViewController.swift:90-92 | a session failure alert is titled "Session Failure" and carries the error's description |
| `EmojiPopStarterAlerts.InterruptionAlert` | 14-raycasting-and-physics/projects/starter/EmojiPop/EmojiPop/ViewController.swift:114-116 | an interruption alerts "Session was interrupted!" under "AR Session" |
| `EmojiPopStarterAlerts.ViewController.ShowAlert` | 14-raycasting-and-physics/projects/starter/EmojiPop/EmojiPop/ViewController.swift:123-129 | presenting an alert appends it to the alerts shown |
| `EmojiPopStarterAlerts.ViewController.SessionDidFail` | 14-raycasting-and-physics/projects/starter/EmojiPop/EmojiPop/ViewController.swift:90-92 | a failure presents exactly the failure alert |
| `EmojiPopStarterAlerts.ViewController.CameraDidChangeTrackingState` | 14-raycasting-and-physics/projects/starter/EmojiPop/EmojiPop/ViewController.swift:94-112 | a tracking change presents TrackingAlert's alert when there is one, and nothing otherwise |
| `EmojiPopStarterAlerts.ViewController.SessionWasInterrupted` | 14-raycasting-and-physics/projects/starter/EmojiPop/EmojiPop/ViewController.swift:114-116 | an interruption presents exactly the interruption alert |
| `EmojiPopStarterAlerts.ViewController.SessionInterruptionEnded` | 14-raycasting-and-physics/projects/starter/EmojiPop/EmojiPop/ViewController.swift:118-121 | the end of an interruption runs the scene's startGame, leaving the game in TapToStart |
| `ARPortStatus.TrackingStatus` | 16-focus-nodes-and-billboards/projects/final/ARPort/ARPort/ViewController.swift:188-208 | normal tracking clears the tracking status; every other state gives a non-empty text beginning "Tracking:" (chapter 15, lines 176-196, is identical) |
| `ARPortStatus.TrackingStatusDistinct` | 16-focus-nodes-and-billboards/projects/final/ARPort/ARPort/ViewController.swift:188-208 | each tracking state and limited reason has its own text |
| `ARPortStatus.StatusMessage` | 16-focus-nodes-and-billboards/projects/final/ARPort/ARPort/ViewController.swift:269-279 | every app state has a non-empty message |
| `ARPortStatus.StatusMessageDistinct` | 16-focus-nodes-and-billboards/projects/final/ARPort/ARPort/ViewController.swift:269-279 | different app states have different messages |
| `ARPortStatus.StatusLabel` | 16-focus-nodes-and-billboards/projects/final/ARPort/ARPort/ViewController.swift:281-282 | the label shows the tracking status when it is non-empty, else the message for the app state, so it is never empty |
| `ARPortStatus.FailureStatus` | 16-focus-nodes-and-billboards/projects/final/ARPort/ARPort/ViewController.swift:210-212 | a session failure's text is "AR Session Failure: " followed by the error's description |
| `ARPortBasic.InitialState` | 15-arkit-and-scenekit/projects/final/ARPort/ARPort/ViewController.swift:51-53 | the app starts in DetectSurface with empty tracking status and message |
| `ARPortBasic.Step` | 15-arkit-and-scenekit/projects/final/ARPort/ARPort/ViewController.swift:65-240 | the tap changes nothing; only startApp and resetApp write the app state, always DetectSurface; tracking changes set the tracking text; failure, interruption and interruption-ended overwrite it with fixed non-empty texts; a frame refreshes message and label |
| `ARPortBasic.AlwaysDetectSurface` | 15-arkit-and-scenekit/projects/final/ARPort/ARPort/ViewController.swift:99-110 | the app state stays DetectSurface over every sequence of callbacks |
| `ARPortBasic.LabelAfterRender` | 15-arkit-and-scenekit/projects/final/ARPort/ARPort/ViewController.swift:227-240 | with no tracking problem, every rendered frame's label asks to scan for surfaces |
| `ARPortBasic.ViewController.constructor` | 15-arkit-and-scenekit/projects/final/ARPort/ARPort/ViewController.swift:51-53 | the fields start at the initial state |
| `ARPortBasic.ViewController.TapGestureHandler` | 15-arkit-and-scenekit/projects/final/ARPort/ARPort/ViewController.swift:65-66 | the tap handler changes nothing |
| `ARPortBasic.ViewController.StartApp` | 15-arkit-and-scenekit/projects/final/ARPort/ARPort/ViewController.swift:99-103 | sets DetectSurface |
| `ARPortBasic.ViewController.ResetApp` | 15-arkit-and-scenekit/projects/final/ARPort/ARPort/ViewController.swift:105-110 | sets DetectSurface |
| `ARPortBasic.ViewController.CameraDidChangeTrackingState` | 15-arkit-and-scenekit/projects/final/ARPort/ARPort/ViewController.swift:176-196 | the tracking status becomes the state's text |
| `ARPortBasic.ViewController.SessionDidFail` | 15-arkit-and-scenekit/projects/final/ARPort/ARPort/ViewController.swift:198-200 | the tracking status becomes the failure text |
| `ARPortBasic.ViewController.SessionWasInterrupted` | 15-arkit-and-scenekit/projects/final/ARPort/ARPort/ViewController.swift:202-204 | the tracking status becomes "AR Session Was Interrupted!" |
| `ARPortBasic.ViewController.SessionInterruptionEnded` | 15-arkit-and-scenekit/projects/final/ARPort/ARPort/ViewController.swift:206-208 | the tracking status becomes "AR Session Interruption Ended" |
| `ARPortBasic.ViewController.UpdateStatus` | 15-arkit-and-scenekit/projects/final/ARPort/ARPort/ViewController.swift:227-241 | message and label are refreshed, the label preferring a non-empty tracking status |
| `ARPortFocus.InitialState` | 16-focus-nodes-and-billboards/projects/final/ARPort/ARPort/ViewController.swift:51-53 | the app starts in DetectSurface with empty tracking status and both nodes hidden |
| `ARPortFocus.AfterTap` | 16-focus-nodes-and-billboards/projects/final/ARPort/ARPort/ViewController.swift:68-74 | a tap does nothing outside TapToStart; in TapToStart it shows the portal at the focus position, hides the focus node and sets Started |
| `ARPortFocus.AfterStartApp` | 16-focus-nodes-and-billboards/projects/final/ARPort/ARPort/ViewController.swift:108-114 | startApp hides both nodes and sets DetectSurface |
| `ARPortFocus.AfterResetApp` | 16-focus-nodes-and-billboards/projects/final/ARPort/ARPort/ViewController.swift:116-122 | resetApp hides the portal and sets DetectSurface, leaving the focus node as it is |
| `ARPortFocus.AfterFocusUpdate` | 16-focus-nodes-and-billboards/projects/final/ARPort/ARPort/ViewController.swift:307-329 | in Started only the focus node is hidden; with no query nothing changes; exactly one raycast result gives TapToStart with the focus node shown at that result; any other count gives PointAtSurface with it hidden; Started is neither entered nor left |
| `ARPortFocus.AfterUpdateStatus` | 16-focus-nodes-and-billboards/projects/final/ARPort/ARPort/ViewController.swift:269-283 | message and label are refreshed and the label is never empty |
| `ARPortFocus.Step` | 16-focus-nodes-and-billboards/projects/final/ARPort/ARPort/ViewController.swift:246-251 | every callback, including a rendered frame, keeps the visibility invariant |
| `ARPortFocus.RunKeepsConsistent` | 16-focus-nodes-and-billboards/projects/final/ARPort/ARPort/ViewController.swift:68-329 | over any sequence of callbacks, the portal shows exactly in Started and the focus node shows in TapToStart and is hidden in PointAtSurface and Started |
| `ARPortFocus.StartedUntilRestart` | 16-focus-nodes-and-billboards/projects/final/ARPort/ARPort/ViewController.swift:309-312 | without startApp or resetApp, Started is never left and the portal keeps its position and visibility |
| `ARPortFocus.OnlyTapStarts` | 16-focus-nodes-and-billboards/projects/final/ARPort/ARPort/ViewController.swift:68-74 | without a tap, Started is never reached |
| `ARPortFocus.ViewController.constructor` | 16-focus-nodes-and-billboards/projects/final/ARPort/ARPort/ViewController.swift:51-53 | the fields start at the initial state, which satisfies the invariant |
| `ARPortFocus.ViewController.TapGestureHandler` | 16-focus-nodes-and-billboards/projects/final/ARPort/ARPort/ViewController.swift:68-74 | the fields become AfterTap of the old ones |
| `ARPortFocus.ViewController.StartApp` | 16-focus-nodes-and-billboards/projects/final/ARPort/ARPort/ViewController.swift:108-114 | the fields become AfterStartApp of the old ones |
| `ARPortFocus.ViewController.ResetApp` | 16-focus-nodes-and-billboards/projects/final/ARPort/ARPort/ViewController.swift:116-122 | the fields become AfterResetApp of the old ones |
| `ARPortFocus.ViewController.CameraDidChangeTrackingState` | 16-focus-nodes-and-billboards/projects/final/ARPort/ARPort/ViewController.swift:188-208 | only the tracking status changes, to the state's text |
| `ARPortFocus.ViewController.SessionDidFail` | 16-focus-nodes-and-billboards/projects/final/ARPort/ARPort/ViewController.swift:210-212 | only the tracking status changes, to the failure text |
| `ARPortFocus.ViewController.SessionWasInterrupted` | 16-focus-nodes-and-billboards/projects/final/ARPort/ARPort/ViewController.swift:214-216 | only the tracking status changes, to the interruption text |
| `ARPortFocus.ViewController.SessionInterruptionEnded` | 16-focus-nodes-and-billboards/projects/final/ARPort/ARPort/ViewController.swift:218-220 | only the tracking status changes, to the interruption-ended text |
| `ARPortFocus.ViewController.UpdateFocusNode` | 16-focus-nodes-and-billboards/projects/final/ARPort/ARPort/ViewController.swift:307-329 | the fields become AfterFocusUpdate of the old ones |
| `ARPortFocus.ViewController.UpdateStatus` | 16-focus-nodes-and-billboards/projects/final/ARPort/ARPort/ViewController.swift:269-283 | the fields become AfterUpdateStatus of the old ones |
| `ARPortFocus.ViewController.RendererUpdate` | 16-focus-nodes-and-billboards/projects/final/ARPort/ARPort/ViewController.swift:246-251 | each frame updates the focus node and then the status |
| `FunnyFaceAnchors.Previous` | 10-face-anchors/projects/final/ARFunnyFace/ARFunnyFace/ContentView.swift:50-52 | Previous decrements propId but never below 0; chapter 11 (11-facial-blend-shapes/projects/final/ARFunnyFace/ContentView.swift lines 54-56) uses the same button |
| `FunnyFaceAnchors.Next` | 10-face-anchors/projects/final/ARFunnyFace/ARFunnyFace/ContentView.swift:67-69 | Next increments propId but never above the last prop id: 2 in chapter 10, and 3 in chapter 11 (11-facial-blend-shapes/projects/final/ARFunnyFace/ContentView.swift lines 72-74) |
| `FunnyFaceAnchors.NextUndoesPrevious` | 10-face-anchors/projects/final/ARFunnyFace/ARFunnyFace/ContentView.swift:51-68 | for 0 < p <= last, Next after Previous returns p |
| `FunnyFaceAnchors.PreviousUndoesNext` | 10-face-anchors/projects/final/ARFunnyFace/ARFunnyFace/ContentView.swift:51-68 | for 0 <= p < last, Previous after Next returns p |
| `FunnyFaceAnchors.PropFor` | 10-face-anchors/projects/final/ARFunnyFace/ARFunnyFace/ContentView.swift:101-116 | ids 0, 1 and 2 load eyes, glasses and mustache; any other id loads nothing |
| `FunnyFaceAnchors.PropForDistinct` | 10-face-anchors/projects/final/ARFunnyFace/ARFunnyFace/ContentView.swift:101-116 | different ids load different props |
| `FunnyFaceAnchors.PressesStayInRange` | 10-face-anchors/projects/final/ARFunnyFace/ARFunnyFace/ContentView.swift:41-68 | from an id in 0..last, every sequence of presses keeps propId in 0..last |
| `FunnyFaceAnchors.ReachablePropLoads` | 10-face-anchors/projects/final/ARFunnyFace/ARFunnyFace/ContentView.swift:41-116 | every propId reachable from 0 names a prop, so a view update always shows one |
| `FunnyFaceAnchors.FunnyFace.constructor` | 10-face-anchors/projects/final/ARFunnyFace/ARFunnyFace/ContentView.swift:41 | propId starts at 0 with no anchors |
| `FunnyFaceAnchors.FunnyFace.PreviousPressed` | 10-face-anchors/projects/final/ARFunnyFace/ARFunnyFace/ContentView.swift:50-52 | propId becomes Previous of the old id; the anchors are unchanged |
| `FunnyFaceAnchors.FunnyFace.NextPressed` | 10-face-anchors/projects/final/ARFunnyFace/ARFunnyFace/ContentView.swift:67-69 | propId becomes Next of the old id; the anchors are unchanged |
| `FunnyFaceAnchors.FunnyFace.UpdateUIView` | 10-face-anchors/projects/final/ARFunnyFace/ARFunnyFace/ContentView.swift:95-117 | all anchors are removed, then exactly the prop for propId is appended, or none |
| `FunnyFaceBlend.PropFor` | 11-facial-blend-shapes/projects/final/ARFunnyFace/ContentView.swift:111-136 | ids 0..3 load eyes, glasses, mustache and robot; the robot exactly for id 3; any other id loads nothing |
| `FunnyFaceBlend.ReachablePropLoads` | 11-facial-blend-shapes/projects/final/ARFunnyFace/ContentView.swift:42-136 | every propId reachable from 0 with the buttons loads a prop, and it is the robot exactly when the id reached is 3 |
| `FunnyFaceBlend.FaceView.constructor` | 11-facial-blend-shapes/projects/final/ARFunnyFace/ContentView.swift:37-42 | propId starts at 0 with no anchors and no robot |
| `FunnyFaceBlend.FaceView.PreviousPressed` | 11-facial-blend-shapes/projects/final/ARFunnyFace/ContentView.swift:54-56 | propId becomes Previous of the old id; nothing else changes |
| `FunnyFaceBlend.FaceView.NextPressed` | 11-facial-blend-shapes/projects/final/ARFunnyFace/ContentView.swift:72-74 | propId becomes Next of the old id; nothing else changes |
| `FunnyFaceBlend.FaceView.UpdateUIView` | 11-facial-blend-shapes/projects/final/ARFunnyFace/ContentView.swift:103-137 | all anchors are removed and exactly the prop for propId is appended, or none; afterwards the robot is set iff propId is 3, and then it is a newly loaded robot |
| `FunnyFaceBlend.LastFace` | 11-facial-blend-shapes/projects/final/ARFunnyFace/ContentView.swift:157-162 | the face used is the last face anchor in the update, and there is none exactly when no anchor is a face anchor |
| `FunnyFaceBlend.FindFaceAnchor` | 11-facial-blend-shapes/projects/final/ARFunnyFace/ContentView.swift:157-162 | the loop over the anchors returns LastFace of them |
| `FunnyFaceBlend.AfterAnchorUpdate` | 11-facial-blend-shapes/projects/final/ARFunnyFace/ContentView.swift:153-201 | nothing happens without a robot or a face; lasers fire iff the latch is set and jawOpen > 0.9, and firing clears the latch and attaches the release closure to the current robot |
| `FunnyFaceBlend.AfterLasersDone` | 11-facial-blend-shapes/projects/final/ARFunnyFace/ContentView.swift:197-199 | a robot's lasersDone action releases the latch only if the closure was attached to that robot |
| `FunnyFaceBlend.DelegateHandler.constructor` | 11-facial-blend-shapes/projects/final/ARFunnyFace/ContentView.swift:145 | the latch starts released, with no lasers fired |
| `FunnyFaceBlend.DelegateHandler.SessionDidUpdate` | 11-facial-blend-shapes/projects/final/ARFunnyFace/ContentView.swift:153-201 | an update is ignored without a robot, traps without a face anchor, and otherwise poses the robot and changes the latch as AfterAnchorUpdate says |
| `FunnyFaceBlend.DelegateHandler.LasersDone` | 11-facial-blend-shapes/projects/final/ARFunnyFace/ContentView.swift:197-199 | the fields become AfterLasersDone of the old ones |
| `FunnyFaceBlend.NoRefireInFlight` | 11-facial-blend-shapes/projects/final/ARFunnyFace/ContentView.swift:194-200 | while lasers are in flight, no sequence of updates changes anything until a robot carrying the closure runs lasersDone |
| `FunnyFaceBlend.AtMostOneFiring` | 11-facial-blend-shapes/projects/final/ARFunnyFace/ContentView.swift:194-200 | without a lasersDone action, any sequence of updates fires the lasers at most once |
| `TinyToyTank.ViewController.constructor` | 01-ar-quick-start/projects/final/TinyToyTank/TinyToyTank/ViewController.swift:37 | the action flag starts false and nothing is posted |
| `TinyToyTank.ViewController.Press` | 01-ar-quick-start/projects/final/TinyToyTank/TinyToyTank/ViewController.swift:41-75 | a press while an action plays posts nothing and keeps the flag; otherwise it sets the flag and posts exactly that button's notification |
| `TinyToyTank.ViewController.ActionComplete` | 01-ar-quick-start/projects/final/TinyToyTank/TinyToyTank/ViewController.swift:82-84 | actionComplete clears the flag and posts nothing |
| `TinyToyTank.NextPlaying` | 01-ar-quick-start/projects/final/TinyToyTank/TinyToyTank/ViewController.swift:41-84 | after a press an action is always playing, whether it started one or was dropped; after actionComplete none is |
| `TinyToyTank.Drive` | 01-ar-quick-start/projects/final/TinyToyTank/TinyToyTank/ViewController.swift:41-84 | calling the handlers for a sequence of presses and completions leaves the flag at PlayingAfter and appends exactly Posted to the notifications, so the lemmas below hold of the handlers |
| `TinyToyTank.PostedArePressed` | 01-ar-quick-start/projects/final/TinyToyTank/TinyToyTank/ViewController.swift:41-75 | every posted notification is the action of some press in the run |
| `TinyToyTank.PressesWithoutCompletion` | 01-ar-quick-start/projects/final/TinyToyTank/TinyToyTank/ViewController.swift:41-75 | presses with no actionComplete between them post at most one notification, and none if an action is already playing |
| `TinyToyTank.PostedBoundedByCompletions` | 01-ar-quick-start/projects/final/TinyToyTank/TinyToyTank/ViewController.swift:41-84 | over any run, notifications posted are at most the completions plus the one action that may still be playing |
| `XOXO.PeerAdmission` | 17-ecs-and-collaborative-experience/projects/final/XOXO/XOXO/ViewController.swift:225-234 | a discovered peer is refused with no session and when more than 2 peers are connected, and invited otherwise |
| `XOXO.SessionIdCommand` | 17-ecs-and-collaborative-experience/projects/final/XOXO/XOXO/ViewController.swift:215-216 | the command is "SessionID:" followed by the session identifier |
| `XOXO.SessionIdCommandInjective` | 17-ecs-and-collaborative-experience/projects/final/XOXO/XOXO/ViewController.swift:215-216 | different session identifiers give different commands |
| `XOXO.WithoutPeer` | 17-ecs-and-collaborative-experience/projects/final/XOXO/XOXO/ViewController.swift:241-244 | only the departed peer's key is removed; every other entry is unchanged |
| `XOXO.ViewController.constructor` | 17-ecs-and-collaborative-experience/projects/final/XOXO/XOXO/ViewController.swift:42-47 | the player colour starts blue and the peer session-ID map starts empty |
| `XOXO.ViewController.Player1ButtonPressed` | 17-ecs-and-collaborative-experience/projects/final/XOXO/XOXO/ViewController.swift:55-57 | Player 1 sets the colour to blue and changes nothing else |
| `XOXO.ViewController.Player2ButtonPressed` | 17-ecs-and-collaborative-experience/projects/final/XOXO/XOXO/ViewController.swift:59-61 | Player 2 sets the colour to red and changes nothing else |
| `XOXO.ViewController.RemoveAnchors` | 17-ecs-and-collaborative-experience/projects/final/XOXO/XOXO/ViewController.swift:267-273 | every anchor of the current frame is removed from the session; with no frame nothing changes |
| `XOXO.ViewController.ClearButtonPressed` | 17-ecs-and-collaborative-experience/projects/final/XOXO/XOXO/ViewController.swift:63-65 | the clear button removes the current frame's anchors |
| `XOXO.ViewController.AddGameBoardAnchor` | 17-ecs-and-collaborative-experience/projects/final/XOXO/XOXO/ViewController.swift:117-142 | a board is placed at the transform and its new anchor joins the session |
| `XOXO.ViewController.HandleTap` | 17-ecs-and-collaborative-experience/projects/final/XOXO/XOXO/ViewController.swift:154-184 | a tap hitting a tile never adds a board: it paints the tile if owned, otherwise requests ownership and paints on grant; a tap with no tile places a board on the first raycast result, or only sets the warning when there is none; a new anchor identity is used exactly when a board is placed |
| `XOXO.ViewController.InitMultipeerSession` | 17-ecs-and-collaborative-experience/projects/final/XOXO/XOXO/ViewController.swift:192-211 | the multipeer session exists and the app waits for peers |
| `XOXO.ViewController.SendARSessionIDTo` | 17-ecs-and-collaborative-experience/projects/final/XOXO/XOXO/ViewController.swift:213-220 | with a session, the session-ID command is handed over for the given peers; without one nothing is sent |
| `XOXO.ViewController.PeerDiscovered` | 17-ecs-and-collaborative-experience/projects/final/XOXO/XOXO/ViewController.swift:225-234 | returns PeerAdmission's answer and shows the discovery message or the max-connections warning |
| `XOXO.ViewController.PeerJoined` | 17-ecs-and-collaborative-experience/projects/final/XOXO/XOXO/ViewController.swift:236-239 | a joined peer is sent this device's session-ID command |
| `XOXO.ViewController.PeerLeft` | 17-ecs-and-collaborative-experience/projects/final/XOXO/XOXO/ViewController.swift:241-244 | the peer's session-ID entry is removed as WithoutPeer says |

## Left out

- Rendering and the scene graph are not modelled. This covers node creation and cloning,
  materials, layout constraints, the SwiftUI view body and the coaching-overlay setup. Only
  node visibility flags and positions are kept, as opaque values.
- AR session configuration and restarts are not modelled: `initARSession`, `resetARSession`,
  and the `session.run` in `updateUIView`. Raycasting, hit-testing and `entity(at:)` become
  inputs.
- Floating-point math is not modelled: `Deg2Rad`, the blend-shape orientations, the
  `focusPoint` arithmetic, and the random impulse, torque and emoji choice in `spawnEmoji`.
  `spawnTime` and `jawOpen` are reals, and the 0.9 threshold is exact rather than the
  nearest `Float`.
- SKAction timing and sound are not modelled. An emoji's expiry is an event that can arrive
  at any time, in any game state, as the expiry closure allows. The model does not tie an
  expiry to a live emoji, the 3-second wait, or a collected emoji whose expiry is cancelled.
- EmojiPop `addAnchor`/`removeAnchor` are left out. They place and remove the session anchor
  for the spawn point, which is framework work. `updateHUD` is a `Hud` value; its guard on the
  view type is not modelled.
- EmojiPopScene.Scene.SpawnEmoji always counts one launch. The source launches nothing when
  the view is not an `ARSKView`, and attaches the emoji to nothing when there is no
  "SpawnPoint" node. Both are scene-graph conditions the model does not track.
- Swift `Int` overflow traps are not modelled. `score` and `lives` are unbounded integers.
- `DispatchQueue.main.async` is treated as an ordinary sequential step. This applies to
  `startApp`, `resetApp`, `sendMessage` and the render callback.
- The `requestOwnership` completion in XOXO runs at once, with its result as the `granted`
  input.
- XOXO.ViewController.InitMultipeerSession models only the path that does not crash. The
  `fatalError` raised when no synchronization service can be created is framework failure
  and is left out.
- MultipeerSession.swift is not part of this model, and neither is the session-identifier KVO
  observation. The model records that the session-ID command was handed to the session. It
  does not model the wrapper's empty-peer guard or delivery.
- XOXO `session(_:didAdd:)`, which handles participant anchors, and the empty `receivedData`
  handler are left out. Nothing in the source ever inserts into `peerSessionIDs`, so only
  removal is modelled.
- ARPort chapter 16 `touchesBegan` (billboard toggling by node name), `orientationChanged` and
  `initFocusNode` are left out. They are scene-graph work.
- In ARFunnyFace chapter 11, the blend shapes other than `jawOpen` only pose the robot and are
  not modelled. They are assumed present whenever a face anchor is.
- Snapshot and photo-album I/O, NotificationCenter, alert presentation and debug prints are
  not modelled. Presented alerts are kept as a list, and posted tank notifications as a
  sequence.
