/** The chapter 11 ARFunnyFace app: the prop selector of chapter 10 extended with a rigged
    robot (propId 3), and the session delegate that poses the robot from the face's blend
    shapes and fires its lasers, guarded by the isLasersDone latch, when the jaw opens wide. */
module FunnyFaceBlend {
  import opened Wrappers
  import FA = FunnyFaceAnchors

  datatype Prop = Eyes | Glasses | Mustache | Robot

  const LastPropId: int := 3
  const RobotPropId: int := 3
  /** The jawOpen blend-shape value above which the lasers fire. */
  const JawOpenThreshold: real := 0.9

  /** The prop updateUIView loads for an id: one for each id 0..3, none for any other; the
      robot exactly for id 3. */
  function PropFor(propId: int): (r: Option<Prop>)
    ensures r.Some? <==> 0 <= propId <= LastPropId
    ensures r == Some(Robot) <==> propId == RobotPropId
    ensures propId == 0 ==> r == Some(Eyes)
    ensures propId == 1 ==> r == Some(Glasses)
    ensures propId == 2 ==> r == Some(Mustache)
  {
    if propId == 0 then Some(Eyes)
    else if propId == 1 then Some(Glasses)
    else if propId == 2 then Some(Mustache)
    else if propId == 3 then Some(Robot)
    else None
  }

  /** The selector buttons are chapter 10's with the robot as the last prop, so every id
      reachable from 0 loads a prop, and the robot exactly when the id reached is 3. */
  lemma {:induction false} ReachablePropLoads(presses: seq<FA.Button>)
    ensures PropFor(FA.AfterPresses(0, LastPropId, presses)).Some?
    ensures PropFor(FA.AfterPresses(0, LastPropId, presses)) == Some(Robot) <==>
              FA.AfterPresses(0, LastPropId, presses) == RobotPropId
  {
    FA.PressesStayInRange(0, LastPropId, presses);
  }

  /** ContentView's propId, the ARView scene's anchors and the global `robot`. A robot is
      named by its load number: every loadRobot call makes a new robot scene. */
  class FaceView {
    var propId: int
    var anchors: seq<Prop>
    var robot: Option<nat>
    var robotsLoaded: nat

    constructor ()
      ensures propId == 0 && anchors == [] && robot == None && robotsLoaded == 0
    {
      propId := 0;
      anchors := [];
      robot := None;
      robotsLoaded := 0;
    }

    method PreviousPressed()
      modifies this
      ensures propId == FA.Previous(old(propId))
      ensures anchors == old(anchors) && robot == old(robot) && robotsLoaded == old(robotsLoaded)
    {
      propId := if propId <= 0 then 0 else propId - 1;
    }

    method NextPressed()
      modifies this
      ensures propId == FA.Next(old(propId), LastPropId)
      ensures anchors == old(anchors) && robot == old(robot) && robotsLoaded == old(robotsLoaded)
    {
      propId := if propId >= LastPropId then LastPropId else propId + 1;
    }

    /** The robot is dropped and all anchors removed, then the prop for propId (if any) is
        appended; for id 3 a new robot is loaded and becomes the current one. */
    method UpdateUIView()
      modifies this
      ensures propId == old(propId)
      ensures anchors == if PropFor(propId).Some? then [PropFor(propId).value] else []
      ensures robot.Some? <==> propId == RobotPropId
      ensures robot.Some? ==> robot.value == old(robotsLoaded) + 1 == robotsLoaded
      ensures robot.None? ==> robotsLoaded == old(robotsLoaded)
    {
      robot := None;
      anchors := [];
      if propId == 0 {
        anchors := anchors + [Eyes];
      } else if propId == 1 {
        anchors := anchors + [Glasses];
      } else if propId == 2 {
        anchors := anchors + [Mustache];
      } else if propId == 3 {
        robotsLoaded := robotsLoaded + 1;
        anchors := anchors + [Robot];
        robot := Some(robotsLoaded);
      }
    }
  }

  /** An anchor in a session update: a face anchor with its jawOpen blend shape, or any other. */
  datatype SessionAnchor = FaceAnchor(jawOpen: real) | OtherAnchor

  /** The face anchor the delegate uses: the last one in the update. */
  function LastFace(anchors: seq<SessionAnchor>): (r: Option<real>)
    ensures r.None? <==> forall i :: 0 <= i < |anchors| ==> !anchors[i].FaceAnchor?
    ensures r.Some? ==> exists i :: 0 <= i < |anchors| && anchors[i] == FaceAnchor(r.value) &&
                                     forall j :: i < j < |anchors| ==> !anchors[j].FaceAnchor?
    decreases |anchors|
  {
    if anchors == [] then None
    else if anchors[|anchors| - 1].FaceAnchor? then Some(anchors[|anchors| - 1].jawOpen)
    else LastFace(anchors[..|anchors| - 1])
  }

  /** The loop of session(_:didUpdate:) that keeps the last face anchor it meets. */
  method FindFaceAnchor(anchors: seq<SessionAnchor>) returns (face: Option<real>)
    ensures face == LastFace(anchors)
  {
    face := None;
    for i := 0 to |anchors|
      invariant face == LastFace(anchors[..i])
    {
      assert anchors[..i + 1][..i] == anchors[..i];
      if anchors[i].FaceAnchor? {
        face := Some(anchors[i].jawOpen);
      }
    }
    assert anchors[..|anchors|] == anchors;
  }

  /** The delegate's fields: the latch, the robots whose lasersDone action runs the closure
      that releases it, and the showLasers notifications posted so far, by robot. */
  datatype LaserState = LaserState(isLasersDone: bool, handlers: set<nat>, shown: seq<nat>)

  /** session(_:didUpdate:) once the face anchor is found: nothing without a robot or a face,
      and the lasers fire only when the latch is set and the jaw is open wider than 0.9. */
  function AfterAnchorUpdate(s: LaserState, robot: Option<nat>, face: Option<real>): (r: LaserState)
    ensures robot.None? || face.None? ==> r == s
    ensures robot.Some? && face.Some? && s.isLasersDone && face.value > JawOpenThreshold ==>
              r == LaserState(false, s.handlers + {robot.value}, s.shown + [robot.value])
    ensures |r.shown| != |s.shown| <==>
              robot.Some? && face.Some? && s.isLasersDone && face.value > JawOpenThreshold
    ensures |r.shown| == |s.shown| ==> r == s
  {
    if robot.Some? && face.Some? && s.isLasersDone && face.value > JawOpenThreshold then
      LaserState(false, s.handlers + {robot.value}, s.shown + [robot.value])
    else s
  }

  /** A robot's lasersDone action: it releases the latch only if that robot carries the closure. */
  function AfterLasersDone(s: LaserState, robot: nat): (r: LaserState)
    ensures robot in s.handlers ==> r == s.(isLasersDone := true)
    ensures robot !in s.handlers ==> r == s
  {
    if robot in s.handlers then s.(isLasersDone := true) else s
  }

  /** What session(_:didUpdate:) did: nothing without a robot; a trap when no face anchor came,
      since the blend shapes are force-unwrapped; otherwise the robot is posed. */
  datatype UpdateOutcome = Ignored | Trapped | Posed(jawOpen: real)

  class DelegateHandler {
    var isLasersDone: bool
    var lasersDoneHandlers: set<nat>
    var lasersShown: seq<nat>

    function State(): LaserState
      reads this
    {
      LaserState(isLasersDone, lasersDoneHandlers, lasersShown)
    }

    constructor ()
      ensures State() == LaserState(true, {}, [])
    {
      isLasersDone := true;
      lasersDoneHandlers := {};
      lasersShown := [];
    }

    /** `robot` is the global robot at the time of the update. */
    method SessionDidUpdate(robot: Option<nat>, anchors: seq<SessionAnchor>) returns (outcome: UpdateOutcome)
      modifies this
      ensures State() == AfterAnchorUpdate(old(State()), robot, LastFace(anchors))
      ensures robot.None? ==> outcome == Ignored
      ensures robot.Some? ==> outcome == if LastFace(anchors).None? then Trapped else Posed(LastFace(anchors).value)
    {
      if robot.None? { return Ignored; }
      var face := FindFaceAnchor(anchors);
      if face.None? { return Trapped; }
      var jawOpen := face.value;
      if isLasersDone && jawOpen > JawOpenThreshold {
        isLasersDone := false;
        lasersShown := lasersShown + [robot.value];
        lasersDoneHandlers := lasersDoneHandlers + {robot.value};
      }
      return Posed(jawOpen);
    }

    method LasersDone(robot: nat)
      modifies this
      ensures State() == AfterLasersDone(old(State()), robot)
    {
      if robot in lasersDoneHandlers {
        isLasersDone := true;
      }
    }
  }

  /** The inputs the delegate receives. */
  datatype DelegateEvent = AnchorsUpdated(robot: Option<nat>, anchors: seq<SessionAnchor>) | LasersDoneFired(owner: nat)

  function Step(s: LaserState, e: DelegateEvent): LaserState
  {
    match e
    case AnchorsUpdated(robot, anchors) => AfterAnchorUpdate(s, robot, LastFace(anchors))
    case LasersDoneFired(robot) => AfterLasersDone(s, robot)
  }

  function Run(s: LaserState, events: seq<DelegateEvent>): LaserState
    decreases |events|
  {
    if events == [] then s else Run(Step(s, events[0]), events[1..])
  }

  /** While lasers are in flight nothing fires again, however wide the jaw opens and whichever
      robot is loaded, until the lasersDone action of a robot that carries the closure runs.
      In particular a robot loaded after the lasers were fired never releases the latch. */
  lemma {:induction false} NoRefireInFlight(s: LaserState, events: seq<DelegateEvent>)
    requires !s.isLasersDone
    requires forall i :: 0 <= i < |events| && events[i].LasersDoneFired? ==> events[i].owner !in s.handlers
    ensures Run(s, events) == s
    decreases |events|
  {
    if events != [] {
      assert Step(s, events[0]) == s;
      NoRefireInFlight(s, events[1..]);
    }
  }

  /** Without a lasersDone action, the lasers fire at most once. */
  lemma {:induction false} AtMostOneFiring(s: LaserState, events: seq<DelegateEvent>)
    requires forall i :: 0 <= i < |events| ==> events[i].AnchorsUpdated?
    ensures |Run(s, events).shown| <= |s.shown| + 1
    decreases |events|
  {
    if events != [] {
      var next := Step(s, events[0]);
      if |next.shown| == |s.shown| {
        assert next == s;
        AtMostOneFiring(s, events[1..]);
      } else {
        NoRefireInFlight(next, events[1..]);
      }
    }
  }
}
