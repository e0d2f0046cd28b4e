/** The level-select screen as a state object: the mode recorded by
    `mode_set`, the status label and preview image it owns while it is shown,
    and the log of external calls it has made. Each handler of
    ball/st_start.c is a method that updates that state step by step and is
    proved against the decision functions of module Start. */
module LevelSelect {
  import opened Wrappers
  import opened Tokens
  import opened Game
  import opened LevelGrid
  import opened Start

  /** What `start_enter` builds that the model keeps: whether each mode
      button is shown selected, and the level buttons, row by row. */
  datatype Layout = Layout(practiceOn: bool, normalOn: bool, challengeOn: bool, rows: seq<seq<Cell>>)

  /** The nested loops of `start_enter`: five rows, each filled from its
      highest level index down to its lowest. */
  method BuildGrid(levels: LevelSet) returns (rows: seq<seq<Cell>>)
    ensures |rows| == ROWS
    ensures forall r :: 0 <= r < ROWS ==> |rows[r]| == COLUMNS
    ensures forall r: nat, k: nat :: r < ROWS && k < COLUMNS ==>
      rows[r][k] == LevelCell(levels(GridIndex(r, k)), GridIndex(r, k))
  {
    rows := [];
    for i := 0 to ROWS
      invariant |rows| == i
      invariant forall r :: 0 <= r < i ==> |rows[r]| == COLUMNS
      invariant forall r: nat, k: nat :: r < i && k < COLUMNS ==>
        rows[r][k] == LevelCell(levels(GridIndex(r, k)), GridIndex(r, k))
    {
      var row := [];
      var j: int := COLUMNS - 1;
      while j >= 0
        invariant -1 <= j < COLUMNS
        invariant |row| == COLUMNS - 1 - j
        invariant forall k: nat :: k < |row| ==>
          row[k] == LevelCell(levels(GridIndex(i, k)), GridIndex(i, k))
      {
        row := row + [LevelCell(levels(i * COLUMNS + j), i * COLUMNS + j)];
        j := j - 1;
      }
      rows := rows + [row];
    }
  }

  class StartMenu {
    /** The current mode as last recorded by `mode_set`. */
    var mode: Mode
    /** The text of the status label (`status_id`). */
    var status: Message
    /** The picture in the preview image (`shot_id`). */
    var shot: Shot
    /** Every external call made so far, in order. */
    var log: seq<Effect>

    constructor (mode: Mode)
      ensures this.mode == mode && status == ChooseLevel && shot == SetShot && log == []
    {
      this.mode := mode;
      status := ChooseLevel;
      shot := SetShot;
      log := [];
    }

    /** `start_enter`: drop Challenge mode when cheat is off, then build the
        screen with the set's picture and the greeting label. */
    method Enter(cheat: bool, levels: LevelSet) returns (layout: Layout)
      modifies this
      ensures mode == EntryMode(old(mode), cheat)
      ensures log == old(log) + (if mode != old(mode) then [ModeSet(NormalMode)] else [])
      ensures status == ChooseLevel && shot == SetShot
      ensures layout.practiceOn == (mode == PracticeMode)
      ensures layout.normalOn == (mode == NormalMode)
      ensures layout.challengeOn == (mode == ChallengeMode)
      ensures |layout.rows| == ROWS
      ensures forall r :: 0 <= r < ROWS ==> |layout.rows[r]| == COLUMNS
      ensures forall r: nat, k: nat :: r < ROWS && k < COLUMNS ==>
        layout.rows[r][k] == LevelCell(levels(GridIndex(r, k)), GridIndex(r, k))
    {
      var m := mode;
      if m == ChallengeMode && !cheat {
        mode := NormalMode;
        log := log + [ModeSet(NormalMode)];
        m := NormalMode;
      }
      var rows := BuildGrid(levels);
      shot := SetShot;
      status := ChooseLevel;
      layout := Layout(m == PracticeMode, m == NormalMode, m == ChallengeMode, rows);
    }

    /** `start_over_level(i)` for a level with status `l`. */
    method OverLevel(i: nat, cheat: bool, l: LevelStatus)
      modifies this
      ensures mode == old(mode) && log == old(log)
      ensures var h := HoverLevel(i, mode, cheat, l);
        status == h.status.value && shot == (if h.shot.Some? then h.shot.value else old(shot))
    {
      if !l.locked || cheat {
        shot := LevelShot(i);
        if mode == PracticeMode {
          status := if l.bonus then PracticeBonusLevel else PracticeLevel;
        } else {
          status := if l.bonus then NormalBonusLevel else NormalLevel;
        }
        if cheat {
          status := LevelFile(i);
        }
      } else if l.bonus {
        status := UnlockBonusHint;
      } else {
        status := FinishPrevious;
      }
    }

    /** `start_over(id)`: the pointer or stick is over widget `id` (0 for
        none), whose token is `token`. */
    method Over(id: int, token: int, cheat: bool, levels: LevelSet)
      modifies this
      ensures mode == old(mode) && log == old(log)
      ensures id == 0 ==> status == old(status) && shot == old(shot)
      ensures id != 0 ==> var h := HoverToken(token, mode, cheat, levels);
        status == (if h.status.Some? then h.status.value else old(status)) &&
        shot == (if h.shot.Some? then h.shot.value else old(shot))
    {
      if id == 0 {
        return;
      }
      if token == START_CHALLENGE {
        shot := SetShot;
        status := ChallengeAll;
      } else if token == START_NORMAL {
        status := CollectCoins;
      } else if token == START_PRACTICE {
        status := TrainYourself;
      }
      if token >= 0 {
        OverLevel(token, cheat, levels(token));
      }
    }

    /** `start_action(token)`; `playSucceeds` is what `level_play` reports
        if it is called. */
    method Action(token: int, cheat: bool, levels: LevelSet, playSucceeds: bool) returns (next: Next)
      modifies this
      ensures var r := StartAction(token, old(mode), cheat, levels, playSucceeds);
        mode == r.mode && log == old(log) + r.effects && next == r.next
      ensures status == old(status) && shot == old(shot)
    {
      var m := mode;
      log := log + [MenuSound];
      if token == START_BACK {
        return Goto(SetScreen);
      } else if token == START_NORMAL {
        mode := NormalMode;
        log := log + [ModeSet(NormalMode)];
        return Goto(StartScreen);
      } else if token == START_PRACTICE {
        mode := PracticeMode;
        log := log + [ModeSet(PracticeMode)];
        return Goto(StartScreen);
      }
      var i := token;
      if i == START_CHALLENGE {
        if cheat {
          mode := ChallengeMode;
          log := log + [ModeSet(ChallengeMode)];
          return Goto(StartScreen);
        }
        i := 0;
        m := ChallengeMode;
      }
      if i >= 0 {
        var l := levels(i);
        if !l.locked || cheat {
          log := log + [LevelPlay(i, m)];
          if playSucceeds {
            return Goto(LevelScreen);
          } else {
            log := log + [LevelStop];
            return Stay;
          }
        }
      }
      return Stay;
    }

    /** The F12 loop of `start_keybd`: `level_snap` for every existing level
        below MAXLVL, in ascending order. */
    method SnapLevels(levels: LevelSet)
      modifies this`log
      ensures log == old(log) + Snaps(levels, MAXLVL)
    {
      for i := 0 to MAXLVL
        invariant log == old(log) + Snaps(levels, i)
      {
        if levels(i).present {
          log := log + [LevelSnap(i)];
        }
      }
    }

    /** `start_keybd(key, down)`: the cheat key sets cheat and re-enters the
        screen; F12 asks for a screenshot of every existing level. */
    method Keybd(key: Key, down: bool, cheat: bool, levels: LevelSet) returns (next: Next)
      modifies this
      ensures mode == old(mode) && status == old(status) && shot == old(shot)
      ensures RouteKey(key, down, cheat) == ToggleCheat ==>
        log == old(log) + [CheatSet] && next == Goto(StartScreen)
      ensures RouteKey(key, down, cheat) == SnapAll ==>
        log == old(log) + Snaps(levels, MAXLVL) && next == Stay
      ensures RouteKey(key, down, cheat) == NoKeyAction ==>
        log == old(log) && next == Stay
    {
      if down && key == KeyC && cheat {
        log := log + [CheatSet];
        return Goto(StartScreen);
      }
      if down && key == KeyF12 {
        SnapLevels(levels);
      }
      return Stay;
    }

    /** `start_buttn(b, down)`: `confirm` and `exit` say whether `b` is the
        configured confirm and exit button, `clicked` is the token of the
        clicked widget. */
    method Buttn(confirm: bool, exit: bool, down: bool, clicked: int,
                 cheat: bool, levels: LevelSet, playSucceeds: bool) returns (next: Next)
      modifies this
      ensures status == old(status) && shot == old(shot)
      ensures RouteButton(confirm, exit, down, clicked).None? ==>
        mode == old(mode) && log == old(log) && next == Stay
      ensures RouteButton(confirm, exit, down, clicked).Some? ==>
        var r := StartAction(RouteButton(confirm, exit, down, clicked).value, old(mode), cheat, levels, playSucceeds);
        mode == r.mode && log == old(log) + r.effects && next == r.next
    {
      if down {
        if confirm {
          next := Action(clicked, cheat, levels, playSucceeds);
          return;
        }
        if exit {
          next := Action(START_BACK, cheat, levels, playSucceeds);
          return;
        }
      }
      return Stay;
    }
  }
}
