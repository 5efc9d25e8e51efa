/** The TinyToyTank controls: six buttons each post one animation notification to the tank
    scene, and a single flag drops every press while an animation is playing. */
module TinyToyTank {
  /** The notification each button posts. */
  datatype TankAction = TankRight | TankForward | TankLeft | TurretRight | CannonFire | TurretLeft

  class ViewController {
    var isActionPlaying: bool
    /** The notifications posted to the tank scene, oldest first. */
    var posted: seq<TankAction>

    constructor ()
      ensures !isActionPlaying && posted == []
    {
      isActionPlaying := false;
      posted := [];
    }

    /** Any of the six button handlers, for the action its button names. */
    method Press(action: TankAction)
      modifies this
      ensures old(isActionPlaying) ==> isActionPlaying && posted == old(posted)
      ensures !old(isActionPlaying) ==> isActionPlaying && posted == old(posted) + [action]
    {
      if isActionPlaying { return; }
      else { isActionPlaying := true; }
      posted := posted + [action];
    }

    /** The actionComplete callback the scene runs when an animation ends. */
    method ActionComplete()
      modifies this
      ensures !isActionPlaying && posted == old(posted)
    {
      isActionPlaying := false;
    }
  }

  datatype Event = Pressed(action: TankAction) | Completed

  /** The flag after one event: a press always leaves an animation playing (it either starts
      one or was dropped because one plays), and a completion always clears it. */
  function NextPlaying(playing: bool, e: Event): (r: bool)
    ensures e.Pressed? ==> r
    ensures e.Completed? ==> !r
  {
    e.Pressed? || (playing && !e.Completed?)
  }

  /** The flag after a run of events. */
  function PlayingAfter(playing: bool, events: seq<Event>): bool
    decreases |events|
  {
    if events == [] then playing
    else PlayingAfter(NextPlaying(playing, events[0]), events[1..])
  }

  /** The notifications a run of events posts. */
  function Posted(playing: bool, events: seq<Event>): seq<TankAction>
    decreases |events|
  {
    if events == [] then []
    else
      var now := if events[0].Pressed? && !playing then [events[0].action] else [];
      now + Posted(NextPlaying(playing, events[0]), events[1..])
  }

  /** Feeds a run of button presses and completions to the view controller, one handler call
      per event; the flag and the posted notifications end as PlayingAfter and Posted say, so
      the lemmas below hold of the handlers themselves. */
  method Drive(v: ViewController, events: seq<Event>)
    modifies v
    ensures v.isActionPlaying == PlayingAfter(old(v.isActionPlaying), events)
    ensures v.posted == old(v.posted) + Posted(old(v.isActionPlaying), events)
  {
    for i := 0 to |events|
      invariant PlayingAfter(v.isActionPlaying, events[i..]) == PlayingAfter(old(v.isActionPlaying), events)
      invariant v.posted + Posted(v.isActionPlaying, events[i..]) == old(v.posted) + Posted(old(v.isActionPlaying), events)
    {
      assert events[i..][1..] == events[i + 1..];
      match events[i]
      case Pressed(action) => v.Press(action);
      case Completed => v.ActionComplete();
    }
    assert events[|events|..] == [];
  }

  function Completions(events: seq<Event>): nat
    decreases |events|
  {
    if events == [] then 0 else (if events[0].Completed? then 1 else 0) + Completions(events[1..])
  }

  /** Every posted notification is the action of a press in the run. */
  lemma {:induction false} PostedArePressed(playing: bool, events: seq<Event>, k: nat)
    requires k < |Posted(playing, events)|
    ensures exists i :: 0 <= i < |events| && events[i] == Pressed(Posted(playing, events)[k])
    decreases |events|
  {
    var next := NextPlaying(playing, events[0]);
    var now := if events[0].Pressed? && !playing then [events[0].action] else [];
    if k < |now| {
      assert events[0] == Pressed(Posted(playing, events)[k]);
    } else {
      PostedArePressed(next, events[1..], k - |now|);
      var i :| 0 <= i < |events[1..]| && events[1..][i] == Pressed(Posted(next, events[1..])[k - |now|]);
      assert events[i + 1] == Pressed(Posted(playing, events)[k]);
    }
  }

  /** Without an actionComplete, a run of presses posts at most one notification, and none
      when an animation is already playing. */
  lemma {:induction false} PressesWithoutCompletion(playing: bool, events: seq<Event>)
    requires forall i :: 0 <= i < |events| ==> events[i].Pressed?
    ensures |Posted(playing, events)| <= if playing then 0 else 1
    ensures events != [] ==> PlayingAfter(playing, events)
    decreases |events|
  {
    if events != [] {
      PressesWithoutCompletion(true, events[1..]);
    }
  }

  /** Over any run, the notifications posted never outnumber the completed animations by more
      than the one that may still be playing. */
  lemma {:induction false} PostedBoundedByCompletions(playing: bool, events: seq<Event>)
    ensures |Posted(playing, events)| <= Completions(events) + (if playing then 0 else 1)
    decreases |events|
  {
    if events != [] {
      PostedBoundedByCompletions(NextPlaying(playing, events[0]), events[1..]);
    }
  }
}
