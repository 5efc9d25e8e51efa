/** The starter EmojiPop scene: the same states and the same start, play and stop operations
    as the finished game, but frames do nothing and touches during play are ignored. */
module EmojiPopStarterScene {
  import EP = EmojiPopScene

  /** update: the starter's frame callback has an empty body. */
  function AfterStarterUpdate(s: EP.SceneState, currentTime: real): (r: EP.SceneState)
    ensures r == s
  {
    s
  }

  /** touchesBegan with the checkTouches call commented out. */
  function AfterStarterTouches(s: EP.SceneState): (r: EP.SceneState)
    ensures s.gameState == EP.Init || s.gameState == EP.Playing ==> r == s
    ensures s.gameState == EP.TapToStart ==>
              r.gameState == EP.Playing && r.score == 0 && r.lives == EP.InitialLives && r.spawnTime == 0.0
    ensures s.gameState == EP.GameOver ==> r.gameState == EP.TapToStart && r.score == s.score
    ensures r.spawned == s.spawned
  {
    match s.gameState
    case Init => s
    case TapToStart => EP.AfterPlayGame(s)
    case Playing => s
    case GameOver => EP.AfterStartGame(s)
  }

  class StarterScene {
    var gameState: EP.GameState
    var score: int
    var lives: int
    var spawnTime: real
    var hud: EP.Hud

    /** The starter never spawns, so its `spawned` count is always zero. */
    function State(): EP.SceneState
      reads this
    {
      EP.SceneState(gameState, score, lives, spawnTime, 0, hud)
    }

    constructor ()
      ensures State() == EP.InitialState()
    {
      gameState, score, lives := EP.Init, 0, EP.InitialLives;
      spawnTime, hud := 0.0, EP.Blank;
    }

    method DidMove()
      modifies this
      ensures State() == EP.AfterStartGame(old(State()))
    {
      StartGame();
    }

    method Update(currentTime: real)
      ensures State() == AfterStarterUpdate(old(State()), currentTime)
    {
    }

    /** The touches themselves are never looked at. */
    method TouchesBegan()
      modifies this
      ensures State() == AfterStarterTouches(old(State()))
    {
      match gameState
      case Init =>
      case TapToStart => PlayGame();
      case Playing =>
      case GameOver => StartGame();
    }

    method StartGame()
      modifies this
      ensures State() == EP.AfterStartGame(old(State()))
    {
      gameState := EP.TapToStart;
      hud := EP.TapToStartHud;
    }

    method PlayGame()
      modifies this
      ensures State() == EP.AfterPlayGame(old(State()))
    {
      gameState := EP.Playing;
      score := 0;
      lives := EP.InitialLives;
      spawnTime := 0.0;
    }

    method StopGame()
      modifies this
      ensures State() == EP.AfterStopGame(old(State()))
    {
      gameState := EP.GameOver;
      hud := EP.GameOverHud(score);
    }
  }

  /** The calls the starter scene receives: startGame (from didMove or from the view
      controller when a session interruption ends), frames, and touches. */
  datatype Event = Start | Frame(currentTime: real) | Touch

  function Step(s: EP.SceneState, e: Event): EP.SceneState
  {
    match e
    case Start => EP.AfterStartGame(s)
    case Frame(t) => AfterStarterUpdate(s, t)
    case Touch => AfterStarterTouches(s)
  }

  function Run(s: EP.SceneState, events: seq<Event>): EP.SceneState
    decreases |events|
  {
    if events == [] then s else Run(Step(s, events[0]), events[1..])
  }

  /** Nothing in the starter scores, loses a life, spawns or ends a game: the score stays 0,
      the lives stay 10 and GameOver is never reached. */
  ghost predicate Untouched(s: EP.SceneState)
  {
    s.score == 0 && s.lives == EP.InitialLives && s.spawned == 0 && s.gameState != EP.GameOver
  }

  lemma {:induction false} RunStaysUntouched(s: EP.SceneState, events: seq<Event>)
    requires Untouched(s)
    ensures Untouched(Run(s, events))
    decreases |events|
  {
    if events != [] {
      RunStaysUntouched(Step(s, events[0]), events[1..]);
    }
  }

  lemma {:induction false} StarterNeverScores(events: seq<Event>)
    ensures Run(EP.InitialState(), events).score == 0
    ensures Run(EP.InitialState(), events).gameState != EP.GameOver
  {
    RunStaysUntouched(EP.InitialState(), events);
  }
}
