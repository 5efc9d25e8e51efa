/** The game loop of the finished EmojiPop scene: a SpriteKit scene whose fields move through
    Init, TapToStart, Playing and GameOver as frames, touches and emoji expiries arrive. */
module EmojiPopScene {
  import opened Wrappers

  datatype GameState = Init | TapToStart | Playing | GameOver

  /** The message the scene last sent to the head-up display. */
  datatype Hud = Blank | TapToStartHud | ScoreHud(score: int, lives: int) | GameOverHud(score: int)

  const InitialLives: int := 10
  /** Seconds from the first frame of a game to the first emoji. */
  const FirstSpawnDelay: real := 3.0
  /** Seconds between later emojis. */
  const SpawnInterval: real := 0.5
  /** The node name that marks a spawned emoji. */
  const EmojiName: string := "Emoji"

  /** The values of the scene's fields; `spawned` counts the emojis spawnEmoji has launched. */
  datatype SceneState = SceneState(gameState: GameState, score: int, lives: int,
                                   spawnTime: real, spawned: nat, hud: Hud)

  function InitialState(): (s: SceneState)
    ensures s.gameState == Init && s.score == 0 && s.lives == InitialLives
    ensures s.spawnTime == 0.0 && s.spawned == 0 && s.hud == Blank
  {
    SceneState(Init, 0, InitialLives, 0.0, 0, Blank)
  }

  /** startGame: wait for a tap; the score of the last game stays on record. */
  function AfterStartGame(s: SceneState): (r: SceneState)
    ensures r.gameState == TapToStart && r.hud == TapToStartHud
    ensures r.score == s.score && r.lives == s.lives
    ensures r.spawnTime == s.spawnTime && r.spawned == s.spawned
  {
    s.(gameState := TapToStart, hud := TapToStartHud)
  }

  /** playGame: a fresh game with no score, full lives and the spawn timer disarmed. */
  function AfterPlayGame(s: SceneState): (r: SceneState)
    ensures r.gameState == Playing && r.score == 0 && r.lives == InitialLives && r.spawnTime == 0.0
    ensures r.spawned == s.spawned && r.hud == s.hud
  {
    s.(gameState := Playing, score := 0, lives := InitialLives, spawnTime := 0.0)
  }

  /** stopGame: the game is over and the final score is shown. */
  function AfterStopGame(s: SceneState): (r: SceneState)
    ensures r.gameState == GameOver && r.hud == GameOverHud(s.score)
    ensures r.score == s.score && r.lives == s.lives
    ensures r.spawnTime == s.spawnTime && r.spawned == s.spawned
  {
    s.(gameState := GameOver, hud := GameOverHud(s.score))
  }

  /** update(currentTime): the per-frame spawn timer. */
  function AfterUpdate(s: SceneState, currentTime: real): (r: SceneState)
    ensures s.gameState != Playing ==> r == s
    ensures r.gameState == s.gameState && r.score == s.score && r.lives == s.lives
    // a disarmed timer is armed for three seconds ahead and nothing spawns on that frame
    ensures s.gameState == Playing && s.spawnTime == 0.0 ==>
              r.spawnTime == currentTime + FirstSpawnDelay && r.spawned == s.spawned
    // an emoji spawns exactly when an armed timer has run out
    ensures r.spawned != s.spawned <==>
              s.gameState == Playing && s.spawnTime != 0.0 && s.spawnTime < currentTime
    ensures r.spawned != s.spawned ==>
              r.spawned == s.spawned + 1 && r.spawnTime == currentTime + SpawnInterval
    ensures s.gameState == Playing && s.spawnTime != 0.0 && !(s.spawnTime < currentTime) ==>
              r.spawnTime == s.spawnTime
    ensures s.gameState == Playing ==> r.hud == ScoreHud(s.score, s.lives)
  {
    if s.gameState != Playing then s
    else
      var armed := if s.spawnTime == 0.0 then s.(spawnTime := currentTime + FirstSpawnDelay) else s;
      var fired := if armed.spawnTime < currentTime
                   then armed.(spawned := armed.spawned + 1, spawnTime := currentTime + SpawnInterval)
                   else armed;
      fired.(hud := ScoreHud(fired.score, fired.lives))
  }

  /** checkTouches: one point for touching an emoji, nothing for anything else. */
  function AfterCheckTouches(s: SceneState, touched: Option<string>): (r: SceneState)
    ensures r.score == s.score + 1 <==> touched == Some(EmojiName)
    ensures touched != Some(EmojiName) ==> r == s
    ensures r == s.(score := r.score)
  {
    if touched != Some(EmojiName) then s else s.(score := s.score + 1)
  }

  /** touchesBegan: what a touch does depends only on the game state. */
  function AfterTouches(s: SceneState, touched: Option<string>): (r: SceneState)
    ensures s.gameState == Init ==> r == s
    ensures s.gameState == TapToStart ==>
              r.gameState == Playing && r.score == 0 && r.lives == InitialLives && r.spawnTime == 0.0
    ensures s.gameState == Playing ==> r == AfterCheckTouches(s, touched)
    ensures s.gameState == GameOver ==> r.gameState == TapToStart && r.score == s.score && r.lives == s.lives
    ensures r.spawned == s.spawned
  {
    match s.gameState
    case Init => s
    case TapToStart => AfterPlayGame(s)
    case Playing => AfterCheckTouches(s, touched)
    case GameOver => AfterStartGame(s)
  }

  /** The closure an emoji runs when it expires: one life lost, and the game ends at zero. */
  function AfterEmojiExpired(s: SceneState): (r: SceneState)
    ensures r.lives == s.lives - 1
    ensures r.gameState == if s.lives - 1 <= 0 then GameOver else s.gameState
    ensures r.score == s.score && r.spawnTime == s.spawnTime && r.spawned == s.spawned
  {
    var t := s.(lives := s.lives - 1);
    if t.lives <= 0 then AfterStopGame(t) else t
  }

  class Scene {
    var gameState: GameState
    var score: int
    var lives: int
    var spawnTime: real
    var spawned: nat
    var hud: Hud

    function State(): SceneState
      reads this
    {
      SceneState(gameState, score, lives, spawnTime, spawned, hud)
    }

    constructor ()
      ensures State() == InitialState()
    {
      gameState, score, lives := Init, 0, InitialLives;
      spawnTime, spawned, hud := 0.0, 0, Blank;
    }

    /** didMove(to:): the scene is shown and waits for a tap. */
    method DidMove()
      modifies this
      ensures State() == AfterStartGame(old(State()))
    {
      StartGame();
    }

    method Update(currentTime: real)
      modifies this
      ensures State() == AfterUpdate(old(State()), currentTime)
    {
      if gameState != Playing { return; }
      if spawnTime == 0.0 {
        spawnTime := currentTime + FirstSpawnDelay;
      }
      if spawnTime < currentTime {
        SpawnEmoji();
        spawnTime := currentTime + SpawnInterval;
      }
      hud := ScoreHud(score, lives);
    }

    /** `touched` is the name of the node under the first touch: None when there is no touch
        or the node has no name. */
    method TouchesBegan(touched: Option<string>)
      modifies this
      ensures State() == AfterTouches(old(State()), touched)
    {
      match gameState
      case Init =>
      case TapToStart => PlayGame();
      case Playing => CheckTouches(touched);
      case GameOver => StartGame();
    }

    method StartGame()
      modifies this
      ensures State() == AfterStartGame(old(State()))
    {
      gameState := TapToStart;
      hud := TapToStartHud;
    }

    method PlayGame()
      modifies this
      ensures State() == AfterPlayGame(old(State()))
    {
      gameState := Playing;
      score := 0;
      lives := InitialLives;
      spawnTime := 0.0;
    }

    method StopGame()
      modifies this
      ensures State() == AfterStopGame(old(State()))
    {
      gameState := GameOver;
      hud := GameOverHud(score);
    }

    /** spawnEmoji: launches one emoji; its flight, sound and physics are the framework's. */
    method SpawnEmoji()
      modifies this
      ensures State() == old(State()).(spawned := old(spawned) + 1)
    {
      spawned := spawned + 1;
    }

    /** The expiry closure an emoji runs three seconds after it is spawned. */
    method EmojiExpired()
      modifies this
      ensures State() == AfterEmojiExpired(old(State()))
    {
      lives := lives - 1;
      if lives <= 0 { StopGame(); }
    }

    method CheckTouches(touched: Option<string>)
      modifies this
      ensures State() == AfterCheckTouches(old(State()), touched)
    {
      if touched != Some(EmojiName) { return; }
      score := score + 1;
    }
  }

  /** The inputs the framework feeds the scene. */
  datatype Event = Moved | Frame(currentTime: real) | Touch(touched: Option<string>) | Expiry

  function Step(s: SceneState, e: Event): SceneState
  {
    match e
    case Moved => AfterStartGame(s)
    case Frame(t) => AfterUpdate(s, t)
    case Touch(touched) => AfterTouches(s, touched)
    case Expiry => AfterEmojiExpired(s)
  }

  function Run(s: SceneState, events: seq<Event>): SceneState
    decreases |events|
  {
    if events == [] then s else Run(Step(s, events[0]), events[1..])
  }

  /** What holds of every state the scene reaches: the score is never negative, lives never
      exceed the starting ten, a game in play has at least one life left, and a game is over
      only once its lives have run out. */
  ghost predicate Consistent(s: SceneState)
  {
    && s.score >= 0
    && s.lives <= InitialLives
    && (s.gameState == Playing ==> s.lives >= 1)
    && (s.gameState == GameOver ==> s.lives <= 0)
  }

  /** Every event keeps the invariant, and no event scores more than one point. */
  lemma {:induction false} RunKeepsConsistent(s: SceneState, events: seq<Event>)
    requires Consistent(s)
    ensures Consistent(Run(s, events))
    ensures Run(s, events).score <= s.score + |events|
    decreases |events|
  {
    if events != [] {
      RunKeepsConsistent(Step(s, events[0]), events[1..]);
    }
  }

  lemma {:induction false} ReachableIsConsistent(events: seq<Event>)
    ensures Consistent(Run(InitialState(), events))
  {
    RunKeepsConsistent(InitialState(), events);
  }

  /** GameOver is left only by a touch or a new startGame: frames and further expiries keep
      the game over and the final score unchanged. */
  lemma {:induction false} GameOverHoldsUntilTouch(s: SceneState, events: seq<Event>)
    requires s.gameState == GameOver
    requires forall i :: 0 <= i < |events| ==> events[i].Frame? || events[i].Expiry?
    ensures Run(s, events).gameState == GameOver && Run(s, events).score == s.score
    decreases |events|
  {
    if events != [] {
      GameOverHoldsUntilTouch(Step(s, events[0]), events[1..]);
    }
  }

  /** After a game starts, no emoji appears until more than three seconds after the first
      frame of that game. */
  lemma {:induction false} FirstSpawnWaits(s: SceneState, firstFrame: real, events: seq<Event>)
    requires s.gameState == Playing && s.spawnTime == 0.0 && firstFrame >= 0.0
    requires forall i :: 0 <= i < |events| ==>
               events[i].Frame? && events[i].currentTime <= firstFrame + FirstSpawnDelay
    ensures Run(AfterUpdate(s, firstFrame), events).spawned == s.spawned
    ensures Run(AfterUpdate(s, firstFrame), events).spawnTime == firstFrame + FirstSpawnDelay
    decreases |events|
  {
    FirstSpawnWaitsFrom(AfterUpdate(s, firstFrame), firstFrame, events);
  }

  lemma {:induction false} FirstSpawnWaitsFrom(s: SceneState, firstFrame: real, events: seq<Event>)
    requires s.gameState == Playing && s.spawnTime == firstFrame + FirstSpawnDelay && firstFrame >= 0.0
    requires forall i :: 0 <= i < |events| ==>
               events[i].Frame? && events[i].currentTime <= firstFrame + FirstSpawnDelay
    ensures Run(s, events).spawned == s.spawned
    ensures Run(s, events).spawnTime == s.spawnTime
    decreases |events|
  {
    if events != [] {
      FirstSpawnWaitsFrom(Step(s, events[0]), firstFrame, events[1..]);
    }
  }
}
