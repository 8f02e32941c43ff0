/**
 * The game's driver (src/game_driver.rs): a menu/HUD state machine on top
 * of the game state (camera, scene, motion ticker, renderer).  Keyboard
 * state and the frame time, which the source polls from the windowing
 * library, are parameters; drawing is not modelled.
 */
module Game {
  import opened Math
  import opened SceneApi
  import opened Motion
  import opened Ai
  import opened RenderCamera
  import Renderer

  const MAX_DEPTH: nat := 5
  const SAMPLES_PER_PIXEL: nat := 1
  /** Seconds that must pass between two menu inputs. */
  const MENU_CHANGE_TIMEOUT: real := 0.2

  /** One more than the largest `usize`: `0usize - 1` wraps to `USIZE_WRAP - 1` in release builds. */
  const USIZE_WRAP: nat := 0x1_0000_0000_0000_0000

  datatype Action = NewGame | Exit | Pause | EndGame | Continue | MainMenu

  datatype UIState = MainMenu | Hud | PauseMenu | EndGame

  /** The discriminant of a `UIState`. */
  function Ordinal(s: UIState): nat
  {
    match s
    case MainMenu => 0
    case Hud => 1
    case PauseMenu => 2
    case EndGame => 3
  }

  const MENU_ITEMS: seq<seq<(string, Action)>> := [
    [("New game", Action.NewGame), ("Exit", Action.Exit)],
    [],
    [("Continue", Action.Continue), ("Main menu", Action.EndGame), ("Exit", Action.Exit)],
    [("Main menu", Action.MainMenu)]
  ]

  /** `UIState::menu_items`: the entries of the state's menu, found by its discriminant. */
  function MenuItems(s: UIState): (items: seq<(string, Action)>)
    ensures s == UIState.MainMenu ==> |items| == 2 && items[0].1 == Action.NewGame && items[1].1 == Action.Exit
    ensures s == Hud ==> |items| == 0
    ensures s == PauseMenu ==> |items| == 3 && items[0].1 == Continue && items[1].1 == Action.EndGame && items[2].1 == Action.Exit
    ensures s == UIState.EndGame ==> |items| == 1 && items[0].1 == Action.MainMenu
  {
    MENU_ITEMS[Ordinal(s)]
  }

  /** The keys `process_inputs` and `advance` look at. */
  datatype Keys = Keys(escape: bool, enter: bool, up: bool, down: bool, left: bool, right: bool)

  /** The part of the driver the menu keys act on. */
  datatype Menu = Menu(ui: UIState, selected: nat, sinceChange: real)

  /** In every state that shows a menu, the selected item is one of its entries. */
  predicate SelectionInBounds(m: Menu)
  {
    m.ui != Hud ==> m.selected < |MenuItems(m.ui)|
  }

  // Moving the selection

  /** Down: the next entry, wrapping from the last to the first. */
  function Down(sel: nat, len: nat): (r: nat)
    requires sel < len
    ensures r < len
    ensures r == if sel + 1 == len then 0 else sel + 1
  {
    (sel + 1) % len
  }

  /** Up: the previous entry, wrapping from the first to the last. */
  function Up(sel: nat, len: nat): (r: nat)
    requires sel < len
    ensures r < len
    ensures r == if sel == 0 then len - 1 else sel - 1
  {
    (sel + len - 1) % len
  }

  /** Up and Down undo each other. */
  lemma UpDownInverse(sel: nat, len: nat)
    requires sel < len
    ensures Up(Down(sel, len), len) == sel
    ensures Down(Up(sel, len), len) == sel
  {
    var d := Down(sel, len);
    var u := Up(sel, len);
    assert Up(d, len) == if d == 0 then len - 1 else d - 1;
    assert Down(u, len) == if u + 1 == len then 0 else u + 1;
  }

  /**
   * Up as written: `(sel - 1) % len` on a `usize`, which at `sel = 0`
   * wraps to `usize::MAX % len` in a release build (a debug build panics).
   */
  function UpAsWritten(sel: nat, len: nat): (r: nat)
    requires sel < len
    ensures r < len
    ensures sel > 0 ==> r == Up(sel, len)
  {
    if sel == 0 then (USIZE_WRAP - 1) % len else (sel - 1) % len
  }

  /**
   * In the three-entry pause menu, Up on the first entry stays on the
   * first entry (`usize::MAX` is a multiple of 3) instead of moving to the
   * last one.
   */
  lemma UpAsWrittenSticksAtTop()
    ensures UpAsWritten(0, |MenuItems(PauseMenu)|) == 0
    ensures Up(0, |MenuItems(PauseMenu)|) == 2
  {
  }

  /**
   * What `process_inputs` as written would select after Up once the
   * timeout has passed in a menu (Enter and the pause menu's Escape not
   * pressed): the underflowing Up, then Down if it is pressed too.
   */
  function SelectionAsWritten(m: Menu, keys: Keys): (r: nat)
    requires SelectionInBounds(m) && m.ui != Hud
    ensures r < |MenuItems(m.ui)|
  {
    var len := |MenuItems(m.ui)|;
    var sel := if keys.up then UpAsWritten(m.selected, len) else m.selected;
    if keys.down then Down(sel, len) else sel
  }

  // Polling the keys

  /**
   * `process_inputs`: the time since the last menu input grows by the
   * frame time; below the timeout nothing else happens.  In the HUD only
   * Escape acts (pausing the game).  In a menu Enter activates the
   * selected entry, else Escape continues the game from the pause menu,
   * else Up and then Down move the selection.  Returning an action or
   * moving the selection restarts the timer.
   */
  function Inputs(m: Menu, keys: Keys, frameTime: real): (r: (Option<Action>, Menu))
    requires SelectionInBounds(m)
    ensures SelectionInBounds(r.1) && r.1.ui == m.ui
    ensures r.0.Some? ==> r.1 == m.(sinceChange := 0.0)
  {
    var t := m.sinceChange + frameTime;
    if t < MENU_CHANGE_TIMEOUT then (None, m.(sinceChange := t))
    else if m.ui == Hud then
      if keys.escape then (Some(Pause), m.(sinceChange := 0.0)) else (None, m.(sinceChange := t))
    else if keys.enter then
      (Some(MenuItems(m.ui)[m.selected].1), m.(sinceChange := 0.0))
    else if keys.escape && m.ui == PauseMenu then
      (Some(Continue), m.(sinceChange := 0.0))
    else
      var len := |MenuItems(m.ui)|;
      var sel := if keys.up then Up(m.selected, len) else m.selected;
      var sel := if keys.down then Down(sel, len) else sel;
      (None, m.(selected := sel, sinceChange := if keys.up || keys.down then 0.0 else t))
  }

  /** While the timeout has not passed, no key has any effect; only the timer grows. */
  lemma InputsDebounced(m: Menu, keys: Keys, frameTime: real)
    requires SelectionInBounds(m) && m.sinceChange + frameTime < MENU_CHANGE_TIMEOUT
    ensures Inputs(m, keys, frameTime) == (None, m.(sinceChange := m.sinceChange + frameTime))
  {
  }

  /**
   * Which actions each state can produce: New game or Exit from the main
   * menu, Pause from the HUD, Continue, End game or Exit from the pause
   * menu and Main menu from the end screen.  An action is produced only
   * once the timeout has passed, and only by Enter or Escape.
   */
  lemma InputsActions(m: Menu, keys: Keys, frameTime: real)
    requires SelectionInBounds(m)
    ensures var a := Inputs(m, keys, frameTime).0;
            a.Some? ==> m.sinceChange + frameTime >= MENU_CHANGE_TIMEOUT && (keys.enter || keys.escape)
    ensures var a := Inputs(m, keys, frameTime).0;
            a.Some? ==>
              match m.ui
              case MainMenu => a.value == Action.NewGame || a.value == Action.Exit
              case Hud => a.value == Pause
              case PauseMenu => a.value == Continue || a.value == Action.EndGame || a.value == Action.Exit
              case EndGame => a.value == Action.MainMenu
  {
  }

  /**
   * Once the timeout has passed: in the HUD Escape pauses; in a menu Enter
   * wins over Escape and activates the selected entry; Escape alone
   * continues the game in the pause menu and does nothing in the other
   * menus.
   */
  lemma InputsKeys(m: Menu, keys: Keys, frameTime: real)
    requires SelectionInBounds(m) && m.sinceChange + frameTime >= MENU_CHANGE_TIMEOUT
    ensures var a := Inputs(m, keys, frameTime).0;
            m.ui == Hud ==> (a.Some? <==> keys.escape) && (keys.escape ==> a == Some(Pause))
    ensures m.ui != Hud && keys.enter ==> Inputs(m, keys, frameTime).0 == Some(MenuItems(m.ui)[m.selected].1)
    ensures m.ui != Hud && !keys.enter && keys.escape ==>
              Inputs(m, keys, frameTime).0 == (if m.ui == PauseMenu then Some(Continue) else None)
  {
  }

  /**
   * In a menu, pressing Up and Down together (and neither Enter nor
   * Escape) keeps the selection but still restarts the timer.
   */
  lemma UpAndDownCancel(m: Menu, keys: Keys, frameTime: real)
    requires SelectionInBounds(m) && m.ui != Hud && m.sinceChange + frameTime >= MENU_CHANGE_TIMEOUT
    requires !keys.enter && !keys.escape && keys.up && keys.down
    ensures Inputs(m, keys, frameTime) == (None, m.(sinceChange := 0.0))
  {
    UpDownInverse(m.selected, |MenuItems(m.ui)|);
  }

  /**
   * `Inputs` uses the wrapping Up; the code as written (in a release
   * build) selects the same entry everywhere except on the first entry of
   * the pause menu with Up pressed: the main menu's two entries and the
   * end screen's one divide `usize::MAX + 1` evenly.
   */
  lemma InputsUpAsWritten(m: Menu, keys: Keys, frameTime: real)
    requires SelectionInBounds(m) && m.ui != Hud && m.sinceChange + frameTime >= MENU_CHANGE_TIMEOUT
    requires !keys.enter && !(keys.escape && m.ui == PauseMenu)
    ensures Inputs(m, keys, frameTime).0 == None
    ensures (Inputs(m, keys, frameTime).1.selected == SelectionAsWritten(m, keys))
            <==> !(keys.up && m.ui == PauseMenu && m.selected == 0)
  {
    var len := |MenuItems(m.ui)|;
    if keys.up && m.selected == 0 {
      if m.ui == PauseMenu {
        UpAsWrittenSticksAtTop();
      } else {
        assert UpAsWritten(0, len) == Up(0, len);
      }
    }
  }

  // Applying an action

  /**
   * `process_action` on the menu and the score: a new game goes to the
   * HUD with score 0; Pause, End game and Main menu go to their menus with
   * the first entry selected and the timer restarted; Continue goes back
   * to the HUD keeping the selection; Exit changes nothing.
   */
  function AfterAction(m: Menu, score: int, a: Action): (r: (Menu, int))
    ensures a == Action.NewGame ==> r == (m.(ui := Hud), 0)
    ensures a == Action.Exit ==> r == (m, score)
    ensures a == Pause ==> r == (Menu(PauseMenu, 0, 0.0), score)
    ensures a == Action.EndGame ==> r == (Menu(UIState.EndGame, 0, 0.0), score)
    ensures a == Continue ==> r == (m.(ui := Hud), score)
    ensures a == Action.MainMenu ==> r == (Menu(UIState.MainMenu, 0, 0.0), score)
  {
    match a
    case NewGame => (m.(ui := Hud), 0)
    case Exit => (m, score)
    case Pause => (Menu(PauseMenu, 0, 0.0), score)
    case EndGame => (Menu(UIState.EndGame, 0, 0.0), score)
    case Continue => (m.(ui := Hud), score)
    case MainMenu => (Menu(UIState.MainMenu, 0, 0.0), score)
  }

  /**
   * Every action keeps the selection inside the menu shown: each menu is
   * entered with its first entry selected, and every menu has one.
   */
  lemma ActionKeepsSelectionInBounds(m: Menu, score: int, a: Action)
    requires SelectionInBounds(m)
    ensures SelectionInBounds(AfterAction(m, score, a).0)
  {
  }

  // Scoring

  /** The score change of one game step: −1 when the ball hits the near wall, +1 on the far wall. */
  function ScoreDelta(r: MotionResult): (d: int)
    ensures d == -1 <==> r == Collision(Plane(Near))
    ensures d == 1 <==> r == Collision(Plane(Far))
    ensures d == 0 <==> r != Collision(Plane(Near)) && r != Collision(Plane(Far))
  {
    match r
    case Collision(Plane(Near)) => -1
    case Collision(Plane(Far)) => 1
    case _ => 0
  }

  /** The near paddle's keys in the HUD. */
  function KeyDirections(keys: Keys): (d: Directions)
    ensures d.up == keys.up && d.down == keys.down && d.left == keys.left && d.right == keys.right
  {
    Directions(keys.up, keys.down, keys.left, keys.right)
  }

  /** `GameState`: the camera, the scene, the motion ticker and the renderer of one game. */
  class GameState {
    const camera: Camera
    var scene: Scene
    const motionTicker: MotionTicker
    const renderer: Renderer.Renderer

    /** The walls leave room for the paddles and the paddles do not move along z. */
    ghost predicate Valid()
      reads this, motionTicker
    {
      HasPaddleRoom(scene.layout) && motionTicker.Valid()
    }

    /**
     * `GameState::new`: a camera with aspect ratio width/height and a view
     * port 2 wide, the initial scene, a fresh motion ticker and a renderer
     * for the frame with one sample per pixel and depth 5.  The initial
     * scene comes from outside the model (see README).
     */
    constructor (width: nat, height: nat, initialScene: Scene)
      requires 0 < width < 0x1_0000 && 0 < height < 0x1_0000
      requires HasPaddleRoom(initialScene.layout)
      ensures Valid() && scene == initialScene && motionTicker.State() == INITIAL_SPEEDS
      ensures camera.origin == NewPoint(1.0, -1.0, 0.0)
      ensures ViewPort(camera.viewPortBase, camera.viewPortXAxis, camera.viewPortYAxis,
                       2.0, 2.0 / (width as real / height as real))
      ensures renderer.Valid() && renderer.width == width as real && renderer.height == height as real
      ensures renderer.samplesPerPixel == SAMPLES_PER_PIXEL && renderer.maxDepth == MAX_DEPTH
      ensures fresh(camera) && fresh(motionTicker) && fresh(renderer)
    {
      camera := new Camera(width as real / height as real, 2.0);
      scene := initialScene;
      motionTicker := new MotionTicker();
      renderer := new Renderer.Renderer(width, height, SAMPLES_PER_PIXEL, MAX_DEPTH);
    }

    /**
     * `GameState::advance`: one motion step, then the camera follows the
     * near paddle's x and y; returns the score change of the step.
     */
    method Advance(elapsed: real, nearDirections: Directions, farDirections: Directions, lib: Libm)
      returns (delta: int)
      requires Valid()
      modifies this, motionTicker, camera
      ensures Valid()
      ensures var (result, scene', speeds') :=
                TickResult(old(motionTicker.State()), old(scene), elapsed, nearDirections, farDirections, lib);
              scene == scene' && motionTicker.State() == speeds' && delta == ScoreDelta(result)
      ensures var nearPos := SpherePos(scene, NearPaddle);
              camera.origin == old(camera.origin).(x := nearPos.x, y := nearPos.y)
      ensures -1 <= delta <= 1
    {
      TickKeepsPaddles(motionTicker.State(), scene, elapsed, nearDirections, farDirections, lib);
      var result;
      result, scene := motionTicker.Tick(scene, elapsed, nearDirections, farDirections, lib);
      var nearPos := SpherePos(scene, NearPaddle);
      camera.MoveOriginTo(nearPos.x, nearPos.y);
      delta := ScoreDelta(result);
    }
  }

  /** `GameDriver`: the menu state, the score and the game being played. */
  class GameDriver {
    const width: nat
    const height: nat
    /** What `Scene::new` builds. */
    const initialScene: Scene
    var gameState: GameState
    var uiState: UIState
    var currentSelectedItem: nat
    var sinceLastSelectionChange: real
    var score: int

    function CurrentMenu(): Menu
      reads this
    {
      Menu(uiState, currentSelectedItem, sinceLastSelectionChange)
    }

    /** The selection is in bounds and a valid game can be started at any time. */
    ghost predicate Valid()
      reads this, gameState, gameState.motionTicker
    {
      SelectionInBounds(CurrentMenu()) && gameState.Valid()
      && 0 < width < 0x1_0000 && 0 < height < 0x1_0000 && HasPaddleRoom(initialScene.layout)
    }

    /** `GameDriver::new` without its image and texture: the main menu, first entry, score 0. */
    constructor (frameWidth: nat, frameHeight: nat, scene: Scene)
      requires 0 < frameWidth < 0x1_0000 && 0 < frameHeight < 0x1_0000
      requires HasPaddleRoom(scene.layout)
      ensures Valid() && CurrentMenu() == Menu(UIState.MainMenu, 0, 0.0) && score == 0
      ensures gameState.scene == scene && fresh(gameState)
    {
      width, height, initialScene := frameWidth, frameHeight, scene;
      gameState := new GameState(frameWidth, frameHeight, scene);
      uiState := UIState.MainMenu;
      currentSelectedItem := 0;
      sinceLastSelectionChange := 0.0;
      score := 0;
    }

    /** `process_inputs`, with the key state and the frame time as parameters. */
    method ProcessInputs(keys: Keys, frameTime: real) returns (action: Option<Action>)
      requires Valid()
      modifies this
      ensures (action, CurrentMenu()) == Inputs(old(CurrentMenu()), keys, frameTime)
      ensures score == old(score) && gameState == old(gameState) && Valid()
    {
      sinceLastSelectionChange := sinceLastSelectionChange + frameTime;
      if sinceLastSelectionChange < MENU_CHANGE_TIMEOUT {
        return None;
      }
      if uiState == Hud {
        if keys.escape {
          sinceLastSelectionChange := 0.0;
          return Some(Pause);
        }
        return None;
      }
      if keys.enter {
        sinceLastSelectionChange := 0.0;
        return Some(MenuItems(uiState)[currentSelectedItem].1);
      }
      if keys.escape && uiState == PauseMenu {
        sinceLastSelectionChange := 0.0;
        return Some(Continue);
      }
      if keys.up {
        currentSelectedItem := Up(currentSelectedItem, |MenuItems(uiState)|);
        sinceLastSelectionChange := 0.0;
      }
      if keys.down {
        currentSelectedItem := Down(currentSelectedItem, |MenuItems(uiState)|);
        sinceLastSelectionChange := 0.0;
      }
      action := None;
    }

    /** `process_action`: a new game replaces the game state; see `AfterAction` for the rest. */
    method ProcessAction(action: Action)
      requires Valid()
      modifies this
      ensures (CurrentMenu(), score) == AfterAction(old(CurrentMenu()), old(score), action)
      ensures action == Action.NewGame ==>
                fresh(gameState) && fresh(gameState.motionTicker) && fresh(gameState.camera)
                && gameState.scene == initialScene && gameState.motionTicker.State() == INITIAL_SPEEDS
      ensures action != Action.NewGame ==> gameState == old(gameState)
      ensures Valid()
    {
      ActionKeepsSelectionInBounds(CurrentMenu(), score, action);
      match action
      case NewGame =>
        gameState := new GameState(width, height, initialScene);
        uiState := Hud;
        score := 0;
      case Exit =>
      case Pause =>
        uiState := PauseMenu;
        currentSelectedItem := 0;
        sinceLastSelectionChange := 0.0;
      case EndGame =>
        uiState := UIState.EndGame;
        currentSelectedItem := 0;
        sinceLastSelectionChange := 0.0;
      case Continue =>
        uiState := Hud;
      case MainMenu =>
        uiState := UIState.MainMenu;
        currentSelectedItem := 0;
        sinceLastSelectionChange := 0.0;
    }

    /**
     * `advance`: nothing moves while paused.  Otherwise the AI steers the
     * far paddle; the near paddle follows the keys in the HUD and the AI's
     * controls in the other menus, and the score changes by the step's
     * delta.
     */
    method Advance(keys: Keys, frameTime: real, lib: Libm)
      requires Valid()
      modifies this, gameState, gameState.motionTicker, gameState.camera
      ensures Valid() && gameState == old(gameState) && CurrentMenu() == old(CurrentMenu())
      ensures uiState == PauseMenu ==>
                score == old(score) && gameState.scene == old(gameState.scene)
                && gameState.motionTicker.State() == old(gameState.motionTicker.State())
                && gameState.camera.origin == old(gameState.camera.origin)
      ensures uiState != PauseMenu ==>
                var far := ControlFarPaddle(old(gameState.scene));
                var near := if uiState == Hud then KeyDirections(keys) else far;
                var (result, scene', speeds') :=
                  TickResult(old(gameState.motionTicker.State()), old(gameState.scene), frameTime, near, far, lib);
                gameState.scene == scene' && gameState.motionTicker.State() == speeds'
                && score == old(score) + ScoreDelta(result)
    ensures uiState != PauseMenu ==>
                var nearPos := SpherePos(gameState.scene, NearPaddle);
                gameState.camera.origin == old(gameState.camera.origin).(x := nearPos.x, y := nearPos.y)
    {
      if uiState == PauseMenu {
        return;
      }
      var farDirections := ControlFarPaddle(gameState.scene);
      var nearDirections := if uiState == Hud then KeyDirections(keys) else farDirections;
      var delta := gameState.Advance(frameTime, nearDirections, farDirections, lib);
      score := score + delta;
    }

    /**
     * `next_frame` without drawing: polls the keys; on Exit stops at once
     * and reports false; otherwise applies the action, if any, advances
     * the game and reports true.
     */
    method NextFrame(keys: Keys, frameTime: real, lib: Libm) returns (running: bool)
      requires Valid()
      modifies this, gameState, gameState.motionTicker, gameState.camera
      ensures Valid()
      ensures var (action, menu) := Inputs(old(CurrentMenu()), keys, frameTime);
              && (!running <==> action == Some(Action.Exit))
              && (!running ==> CurrentMenu() == menu && score == old(score) && gameState == old(gameState))
              && (running ==>
                    var (menu', score') := if action.Some? then AfterAction(menu, old(score), action.value) else (menu, old(score));
                    CurrentMenu() == menu'
                    && (menu'.ui == PauseMenu ==> score == score')
                    && (menu'.ui != PauseMenu ==> score' - 1 <= score <= score' + 1))
    {
      var action := ProcessInputs(keys, frameTime);
      if action == Some(Action.Exit) {
        return false;
      }
      if action.Some? {
        ProcessAction(action.value);
      }
      Advance(keys, frameTime, lib);
      running := true;
    }
  }
}
