/** What the level-select screen sees of the game around it: the play modes,
    the screens it can switch to, the level store it queries, and the calls
    it makes into audio, the mode store and the level runner, recorded as
    effects in order. */
module Game {
  /** MAXLVL, the number of level slots of a set (25: the 5 x 5 grid). */
  const MAXLVL: nat := 25

  datatype Mode = NormalMode | PracticeMode | ChallengeMode

  /** The screens `goto_state` is asked for: the set-selection screen, this
      screen again, and the level-intro screen that starts play. */
  datatype Screen = SetScreen | StartScreen | LevelScreen

  /** What a handler returns: switch to a screen, or stay (the C code's `1`). */
  datatype Next = Goto(screen: Screen) | Stay

  /** `set_level_exists` and the flags of `get_level(i)`. */
  datatype LevelStatus = LevelStatus(present: bool, locked: bool, bonus: bool, completed: bool)

  /** The current set's levels. The status is modelled as defined for every
      index: every call site in ball/st_start.c reaches only indices of
      existing level widgets, or index 0. */
  type LevelSet = nat -> LevelStatus

  /** The externally visible calls, in the order they are made. */
  datatype Effect =
    | MenuSound                          // audio_play(AUD_MENU, ...)
    | ModeSet(mode: Mode)                // mode_set(mode)
    | LevelPlay(level: nat, mode: Mode)  // level_play(get_level(level), mode)
    | LevelStop                          // level_stop()
    | LevelSnap(level: nat)              // level_snap(level)
    | CheatSet                           // set_cheat()
}
