/**
 * The game manager: a persistent singleton that pauses and resumes the game with Escape while
 * a pause menu exists (only in "Level 1"), and loads scenes. The engine's global Time.timeScale
 * and the scene load it requests are fields of the model.
 */
module Pause {
  import opened Wrappers

  const FirstLevelScene: string := "Level 1"
  const MainMenuScene: string := "MainMenu"

  /** The pause-menu object and whether it is shown. */
  datatype PauseMenu = PauseMenu(active: bool)

  /** The static GameManager.instance. */
  class ManagerRegistry {
    var instance: GameManager?

    constructor ()
      ensures instance == null
    {
      instance := null;
    }
  }

  class GameManager {
    var pauseMenu: Option<PauseMenu>
    var isPaused: bool
    /** Time.timeScale */
    var timeScale: real
    /** The scene most recently requested from SceneManager.LoadScene. */
    var requestedScene: Option<string>
    var destroyed: bool
    var persistent: bool

    constructor ()
      ensures pauseMenu == None && !isPaused && timeScale == 1.0 && requestedScene == None
      ensures !destroyed && !persistent
    {
      pauseMenu := None;
      isPaused := false;
      timeScale := 1.0;
      requestedScene := None;
      destroyed := false;
      persistent := false;
    }

    /** The first manager becomes the instance and persists; later ones destroy themselves. */
    method Awake(registry: ManagerRegistry)
      modifies registry, this`destroyed, this`persistent
      ensures old(registry.instance) == null ==> registry.instance == this && persistent && destroyed == old(destroyed)
      ensures old(registry.instance) != null ==>
        registry.instance == old(registry.instance) && destroyed && persistent == old(persistent)
    {
      if registry.instance == null {
        registry.instance := this;
        persistent := true;
      } else {
        destroyed := true;
      }
    }

    /** Escape toggles pause, but only while a pause menu exists. */
    method Update(escapePressed: bool)
      modifies this`pauseMenu, this`isPaused, this`timeScale
      ensures old(pauseMenu).None? || !escapePressed ==>
        pauseMenu == old(pauseMenu) && isPaused == old(isPaused) && timeScale == old(timeScale)
      ensures old(pauseMenu).Some? && escapePressed ==>
        isPaused == !old(isPaused) && pauseMenu == Some(PauseMenu(isPaused))
        && timeScale == (if isPaused then 0.0 else 1.0)
    {
      if pauseMenu.Some? && escapePressed {
        if !isPaused {
          PauseGame();
        } else {
          ResumeGame();
        }
      }
    }

    /** Scene loaded: "Level 1" gets its pause menu, hidden; every other scene has none. */
    method OnSceneLoaded(sceneName: string)
      modifies this`pauseMenu
      ensures pauseMenu == if sceneName == FirstLevelScene then Some(PauseMenu(false)) else None
    {
      if sceneName == FirstLevelScene {
        pauseMenu := Some(PauseMenu(false));
      } else {
        pauseMenu := None;
      }
    }

    /** Show the menu and freeze time. */
    method PauseGame()
      requires pauseMenu.Some?
      modifies this`pauseMenu, this`isPaused, this`timeScale
      ensures pauseMenu == Some(PauseMenu(true)) && timeScale == 0.0 && isPaused
    {
      pauseMenu := Some(PauseMenu(true));
      timeScale := 0.0;
      isPaused := true;
    }

    /** Hide the menu and let time run. */
    method ResumeGame()
      requires pauseMenu.Some?
      modifies this`pauseMenu, this`isPaused, this`timeScale
      ensures pauseMenu == Some(PauseMenu(false)) && timeScale == 1.0 && !isPaused
    {
      pauseMenu := Some(PauseMenu(false));
      timeScale := 1.0;
      isPaused := false;
    }

    /** Let time run and go to the main menu; the paused flag is left as it was. */
    method QuitToMainMenu()
      modifies this`timeScale, this`requestedScene
      ensures timeScale == 1.0 && requestedScene == Some(MainMenuScene)
      ensures isPaused == old(isPaused) && pauseMenu == old(pauseMenu)
    {
      timeScale := 1.0;
      requestedScene := Some(MainMenuScene);
    }

    method StartGame()
      modifies this`requestedScene
      ensures requestedScene == Some(FirstLevelScene)
    {
      requestedScene := Some(FirstLevelScene);
    }
  }

  /**
   * Quitting to the main menu from the pause menu keeps the paused flag. After the main menu
   * starts the game again and Level 1 is loaded, the menu is hidden and time runs, yet the
   * game counts as paused, so the first Escape only clears the flag and shows no menu.
   */
  method QuitWhilePausedThenEscape(manager: GameManager)
    requires manager.isPaused
    modifies manager`pauseMenu, manager`isPaused, manager`timeScale, manager`requestedScene
    ensures manager.requestedScene == Some(FirstLevelScene)
    ensures !manager.isPaused && manager.timeScale == 1.0 && manager.pauseMenu == Some(PauseMenu(false))
  {
    manager.QuitToMainMenu();
    manager.OnSceneLoaded(MainMenuScene);
    manager.StartGame();
    manager.OnSceneLoaded(FirstLevelScene);
    assert manager.isPaused && manager.timeScale == 1.0 && manager.pauseMenu == Some(PauseMenu(false));
    manager.Update(true);
  }

  /** From an unpaused game with a pause menu, Escape twice leaves the game running again. */
  method EscapeTwice(manager: GameManager)
    requires manager.pauseMenu.Some? && !manager.isPaused
    modifies manager`pauseMenu, manager`isPaused, manager`timeScale
    ensures !manager.isPaused && manager.timeScale == 1.0 && manager.pauseMenu == Some(PauseMenu(false))
  {
    manager.Update(true);
    manager.Update(true);
  }
}
