/** The chapter 10 ARFunnyFace prop selector: Previous and Next buttons move propId within 0..2,
    and each view update replaces the scene's anchors by the one prop propId names. */
module FunnyFaceAnchors {
  import opened Wrappers

  /** The face props the app can load, one per prop id. */
  datatype Prop = Eyes | Glasses | Mustache

  const LastPropId: int := 2

  /** The Previous button: one prop back, never below 0. */
  function Previous(propId: int): (r: int)
    ensures 0 <= r
    ensures propId > 0 ==> r == propId - 1
    ensures propId <= 0 ==> r == 0
  {
    if propId <= 0 then 0 else propId - 1
  }

  /** The Next button: one prop on, never above the last prop id, `last` (2 here; the
      chapter 11 app, which adds the robot, uses the same button with 3). */
  function Next(propId: int, last: int): (r: int)
    ensures r <= last
    ensures propId < last ==> r == propId + 1
    ensures propId >= last ==> r == last
  {
    if propId >= last then last else propId + 1
  }

  /** Inside the range the two buttons undo each other. */
  lemma NextUndoesPrevious(propId: int, last: int)
    requires 0 < propId <= last
    ensures Next(Previous(propId), last) == propId
  {
  }

  lemma PreviousUndoesNext(propId: int, last: int)
    requires 0 <= propId < last
    ensures Previous(Next(propId, last)) == propId
  {
  }

  /** The prop updateUIView loads for an id: one for each id 0..2, none for any other. */
  function PropFor(propId: int): (r: Option<Prop>)
    ensures r.Some? <==> 0 <= propId <= LastPropId
    ensures propId == 0 ==> r == Some(Eyes)
    ensures propId == 1 ==> r == Some(Glasses)
    ensures propId == 2 ==> r == Some(Mustache)
  {
    if propId == 0 then Some(Eyes)
    else if propId == 1 then Some(Glasses)
    else if propId == 2 then Some(Mustache)
    else None
  }

  /** Different ids load different props. */
  lemma PropForDistinct(a: int, b: int)
    requires PropFor(a).Some? && PropFor(a) == PropFor(b)
    ensures a == b
  {
  }

  datatype Button = PreviousButton | NextButton

  /** The prop id after one press. */
  function Press(propId: int, last: int, b: Button): int
  {
    if b == PreviousButton then Previous(propId) else Next(propId, last)
  }

  /** The prop id after a sequence of button presses. */
  function AfterPresses(propId: int, last: int, presses: seq<Button>): int
    decreases |presses|
  {
    if presses == [] then propId
    else AfterPresses(Press(propId, last, presses[0]), last, presses[1..])
  }

  /** Starting in range, no sequence of presses leaves the range 0..last. */
  lemma {:induction false} PressesStayInRange(propId: int, last: int, presses: seq<Button>)
    requires 0 <= propId <= last
    ensures 0 <= AfterPresses(propId, last, presses) <= last
    decreases |presses|
  {
    if presses != [] {
      PressesStayInRange(Press(propId, last, presses[0]), last, presses[1..]);
    }
  }

  /** So every reachable id names a prop, and updateUIView always shows exactly one. */
  lemma {:induction false} ReachablePropLoads(presses: seq<Button>)
    ensures PropFor(AfterPresses(0, LastPropId, presses)).Some?
  {
    PressesStayInRange(0, LastPropId, presses);
  }

  /** ContentView's propId together with the anchors of the ARView's scene. */
  class FunnyFace {
    var propId: int
    /** The scene's anchors, in the order they were appended. */
    var anchors: seq<Prop>

    constructor ()
      ensures propId == 0 && anchors == []
    {
      propId := 0;
      anchors := [];
    }

    method PreviousPressed()
      modifies this
      ensures propId == Previous(old(propId)) && anchors == old(anchors)
    {
      propId := if propId <= 0 then 0 else propId - 1;
    }

    method NextPressed()
      modifies this
      ensures propId == Next(old(propId), LastPropId) && anchors == old(anchors)
    {
      propId := if propId >= LastPropId then LastPropId else propId + 1;
    }

    /** All anchors are removed, then the prop for propId (if any) is appended; restarting the
        face-tracking session is the framework's. */
    method UpdateUIView()
      modifies this
      ensures propId == old(propId)
      ensures anchors == if PropFor(propId).Some? then [PropFor(propId).value] else []
    {
      anchors := [];
      if propId == 0 {
        anchors := anchors + [Eyes];
      } else if propId == 1 {
        anchors := anchors + [Glasses];
      } else if propId == 2 {
        anchors := anchors + [Mustache];
      }
    }
  }
}
