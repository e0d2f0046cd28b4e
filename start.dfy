/** The decisions of the level-select screen, as functions of their inputs:
    what a confirmed token does (`start_action`), which message and preview
    a hovered widget shows (`start_over`, `start_over_level`), which mode the
    screen opens in (`start_enter`), how key and button events are routed
    (`start_keybd`, `start_buttn`), and which levels F12 photographs. */
module Start {
  import opened Wrappers
  import opened Tokens
  import opened Game

  /*------------------------------------------------------------------------*/
  /* Action dispatch                                                        */

  /** The mode left by `mode_set` after the action, where the action goes,
      and every external call it made, in order. */
  datatype ActionResult = ActionResult(mode: Mode, next: Next, effects: seq<Effect>)

  /** The `level_play` call an action makes, if any: a level token that is
      unlocked (or any level under cheat) is played in the current mode;
      Challenge without cheat plays level 0 in Challenge mode. */
  function PlayRequest(token: int, mode: Mode, cheat: bool, levels: LevelSet): Option<(nat, Mode)>
  {
    match Decode(token)
    case Some(Level(i)) => if !levels(i).locked || cheat then Some((i, mode)) else None
    case Some(Challenge) => if !cheat && !levels(0).locked then Some((0, ChallengeMode)) else None
    case _ => None
  }

  /** Plays level `i` in `playMode` when it is unlocked or cheat is on; the
      mode recorded by `mode_set` stays `kept`. */
  function TryPlay(i: nat, playMode: Mode, kept: Mode, cheat: bool, levels: LevelSet, playSucceeds: bool): ActionResult
  {
    if !levels(i).locked || cheat then
      if playSucceeds then ActionResult(kept, Goto(LevelScreen), [MenuSound, LevelPlay(i, playMode)])
      else ActionResult(kept, Stay, [MenuSound, LevelPlay(i, playMode), LevelStop])
    else ActionResult(kept, Stay, [MenuSound])
  }

  /** `start_action(token)` with the current mode `mode`, the cheat flag,
      the level store and the outcome `level_play` would report. */
  function StartAction(token: int, mode: Mode, cheat: bool, levels: LevelSet, playSucceeds: bool): (r: ActionResult)
    // the menu sound is the first call, and it is made exactly once
    ensures |r.effects| >= 1 && r.effects[0] == MenuSound && MenuSound !in r.effects[1..]
    // Back, and only Back, leads to set selection
    ensures r.next == Goto(SetScreen) <==> Decode(token) == Some(Back)
    // the screen is re-entered exactly when a mode was set, and only then is the mode changed
    ensures r.next == Goto(StartScreen) <==> r.effects == [MenuSound, ModeSet(r.mode)]
    ensures r.next != Goto(StartScreen) ==> r.mode == mode
    // a level is played exactly as PlayRequest says, and play leads on only when it succeeds;
    // PlayRequest is a convenience summary of the play gate, whose cases are also
    // stated one by one by the lemmas below
    ensures PlayRequest(token, mode, cheat, levels).Some? <==> |r.effects| >= 2 && r.effects[1].LevelPlay?
    ensures PlayRequest(token, mode, cheat, levels).Some? ==>
      var (i, m) := PlayRequest(token, mode, cheat, levels).value;
      r.effects[1] == LevelPlay(i, m) &&
      (playSucceeds ==> r.next == Goto(LevelScreen) && |r.effects| == 2) &&
      (!playSucceeds ==> r.next == Stay && r.effects[2..] == [LevelStop])
    ensures r.next == Goto(LevelScreen) ==> playSucceeds && PlayRequest(token, mode, cheat, levels).Some?
  {
    match Decode(token)
    case Some(Back) => ActionResult(mode, Goto(SetScreen), [MenuSound])
    case Some(Normal) => ActionResult(NormalMode, Goto(StartScreen), [MenuSound, ModeSet(NormalMode)])
    case Some(Practice) => ActionResult(PracticeMode, Goto(StartScreen), [MenuSound, ModeSet(PracticeMode)])
    case Some(Challenge) =>
      if cheat then ActionResult(ChallengeMode, Goto(StartScreen), [MenuSound, ModeSet(ChallengeMode)])
      else TryPlay(0, ChallengeMode, mode, cheat, levels, playSucceeds)
    case Some(Level(i)) => TryPlay(i, mode, mode, cheat, levels, playSucceeds)
    case None => ActionResult(mode, Stay, [MenuSound])
  }

  /** Back goes to set selection and keeps the mode, whatever the mode or cheat. */
  lemma BackGoesToSetSelection(mode: Mode, cheat: bool, levels: LevelSet, playSucceeds: bool)
    ensures StartAction(START_BACK, mode, cheat, levels, playSucceeds)
      == ActionResult(mode, Goto(SetScreen), [MenuSound])
  {
  }

  /** Normal and Practice record their mode and re-enter this screen. */
  lemma ModeTokensSetMode(t: Token, mode: Mode, cheat: bool, levels: LevelSet, playSucceeds: bool)
    requires t == Normal || t == Practice
    ensures var m := if t == Normal then NormalMode else PracticeMode;
      StartAction(Encode(t), mode, cheat, levels, playSucceeds)
        == ActionResult(m, Goto(StartScreen), [MenuSound, ModeSet(m)])
  {
  }

  /** With cheat, Challenge records Challenge mode and re-enters this screen. */
  lemma ChallengeWithCheat(mode: Mode, levels: LevelSet, playSucceeds: bool)
    ensures StartAction(START_CHALLENGE, mode, true, levels, playSucceeds)
      == ActionResult(ChallengeMode, Goto(StartScreen), [MenuSound, ModeSet(ChallengeMode)])
  {
  }

  /** Without cheat, Challenge is the same as confirming level 0 while in
      Challenge mode, except that the recorded mode is left as it was:
      `mode_set` is never called. */
  lemma ChallengeWithoutCheatPlaysLevelZero(mode: Mode, levels: LevelSet, playSucceeds: bool)
    ensures var a := StartAction(START_CHALLENGE, mode, false, levels, playSucceeds);
      var b := StartAction(Encode(Level(0)), ChallengeMode, false, levels, playSucceeds);
      a.next == b.next && a.effects == b.effects && a.mode == mode &&
      forall m :: ModeSet(m) !in a.effects
  {
  }

  /** A locked level without cheat only sounds the menu: no play, no mode
      change, the screen stays. */
  lemma LockedLevelIsIgnored(i: nat, mode: Mode, levels: LevelSet, playSucceeds: bool)
    requires levels(i).locked
    ensures StartAction(Encode(Level(i)), mode, false, levels, playSucceeds)
      == ActionResult(mode, Stay, [MenuSound])
  {
  }

  /** An unlocked level, or any level under cheat, is played in the current
      mode; success goes to the level screen, failure stops the level once
      and stays. */
  lemma PlayableLevelIsPlayed(i: nat, mode: Mode, cheat: bool, levels: LevelSet, playSucceeds: bool)
    requires !levels(i).locked || cheat
    ensures StartAction(Encode(Level(i)), mode, cheat, levels, playSucceeds)
      == if playSucceeds then ActionResult(mode, Goto(LevelScreen), [MenuSound, LevelPlay(i, mode)])
         else ActionResult(mode, Stay, [MenuSound, LevelPlay(i, mode), LevelStop])
  {
  }

  /** A negative int that is not one of the four control tokens falls through. */
  lemma UnknownTokenIsIgnored(token: int, mode: Mode, cheat: bool, levels: LevelSet, playSucceeds: bool)
    requires token < START_CHALLENGE
    ensures StartAction(token, mode, cheat, levels, playSucceeds) == ActionResult(mode, Stay, [MenuSound])
  {
  }

  /*------------------------------------------------------------------------*/
  /* Entry                                                                  */

  /** The mode `start_enter` continues with: Challenge mode does not survive
      entry to the screen without cheat. */
  function EntryMode(m: Mode, cheat: bool): (r: Mode)
    ensures r == ChallengeMode ==> cheat
    ensures r == m || (m == ChallengeMode && r == NormalMode)
    ensures r != m <==> m == ChallengeMode && !cheat
  {
    if m == ChallengeMode && !cheat then NormalMode else m
  }

  /*------------------------------------------------------------------------*/
  /* Hover                                                                  */

  /** The status-label texts, by kind; `LevelFile(i)` is level i's file name. */
  datatype Message =
    | ChooseLevel          // "Choose a level to play"
    | ChallengeAll         // "Challenge all levels from the first one"
    | CollectCoins         // "Collect coins and unlock next level"
    | TrainYourself        // "Train yourself without time nor coin"
    | PracticeLevel        // "Play this level in practice mode"
    | PracticeBonusLevel   // "Play this bonus level in practice mode"
    | NormalLevel          // "Play this level in normal mode"
    | NormalBonusLevel     // "Play this bonus level in normal mode"
    | UnlockBonusHint      // "Play in challenge mode to unlock extra bonus levels"
    | FinishPrevious       // "Finish previous levels to unlock this level"
    | LevelFile(level: nat)

  /** What the preview image shows: the set's picture or a level's. */
  datatype Shot = SetShot | LevelShot(level: nat)

  /** The final status label and preview image after hovering; None leaves
      the widget as it was. */
  datatype Hover = Hover(status: Option<Message>, shot: Option<Shot>)

  /** `start_over_level(i)`: the label and image for hovering level `i`. */
  function HoverLevel(i: nat, mode: Mode, cheat: bool, l: LevelStatus): (h: Hover)
    ensures h.status.Some?
    ensures h.shot.Some? <==> !l.locked || cheat
    ensures h.shot.Some? ==> h.shot == Some(LevelShot(i))
    // under cheat the level's file name is the last label written
    ensures h.status == Some(LevelFile(i)) <==> cheat
    // the unlock hints are shown exactly for locked levels without cheat
    ensures h.status.value in {UnlockBonusHint, FinishPrevious} <==> l.locked && !cheat
    ensures h.status.value in {PracticeBonusLevel, NormalBonusLevel, UnlockBonusHint} ==> l.bonus
    ensures h.status.value in {PracticeLevel, PracticeBonusLevel} <==> (!l.locked && !cheat && mode == PracticeMode)
    // without cheat an unlocked level names the mode it would be played in:
    // practice wording in Practice mode, normal wording in Normal and Challenge mode
    ensures !l.locked && !cheat ==>
      h.status.value in (if mode == PracticeMode then {PracticeLevel, PracticeBonusLevel}
                         else {NormalLevel, NormalBonusLevel})
    // without cheat a bonus level, and only a bonus level, gets bonus wording
    ensures !cheat ==> (h.status.value in {PracticeBonusLevel, NormalBonusLevel, UnlockBonusHint} <==> l.bonus)
  {
    if !l.locked || cheat then
      var played :=
        if mode == PracticeMode then (if l.bonus then PracticeBonusLevel else PracticeLevel)
        else (if l.bonus then NormalBonusLevel else NormalLevel);
      Hover(Some(if cheat then LevelFile(i) else played), Some(LevelShot(i)))
    else if l.bonus then Hover(Some(UnlockBonusHint), None)
    else Hover(Some(FinishPrevious), None)
  }

  /** `start_over` on a widget carrying `token`. */
  function HoverToken(token: int, mode: Mode, cheat: bool, levels: LevelSet): (h: Hover)
    // Back and unknown tokens leave the label alone
    ensures h.status.None? <==> Decode(token) in {None, Some(Back)}
    ensures h.shot == Some(SetShot) <==> Decode(token) == Some(Challenge)
    ensures token >= 0 ==> h == HoverLevel(token, mode, cheat, levels(token))
    ensures token < 0 ==> h.status.None? || h.status.value in {ChallengeAll, CollectCoins, TrainYourself}
    // each mode button describes its own mode; only Challenge shows the set's picture
    ensures Decode(token) == Some(Challenge) ==> h == Hover(Some(ChallengeAll), Some(SetShot))
    ensures Decode(token) == Some(Normal) ==> h == Hover(Some(CollectCoins), None)
    ensures Decode(token) == Some(Practice) ==> h == Hover(Some(TrainYourself), None)
    ensures token < 0 && Decode(token) != Some(Challenge) ==> h.shot.None?
  {
    match Decode(token)
    case Some(Challenge) => Hover(Some(ChallengeAll), Some(SetShot))
    case Some(Normal) => Hover(Some(CollectCoins), None)
    case Some(Practice) => Hover(Some(TrainYourself), None)
    case Some(Level(i)) => HoverLevel(i, mode, cheat, levels(i))
    case _ => Hover(None, None)
  }

  /*------------------------------------------------------------------------*/
  /* Event routing                                                          */

  /** The keys `start_keybd` distinguishes. */
  datatype Key = KeyC | KeyF12 | OtherKey(code: int)

  datatype KeyAction = ToggleCheat | SnapAll | NoKeyAction

  /** `start_keybd`'s choice: only presses count; the cheat key needs the
      cheat configuration, F12 does not. */
  function RouteKey(key: Key, down: bool, cheat: bool): (a: KeyAction)
    ensures !down ==> a == NoKeyAction
    ensures a == ToggleCheat <==> down && key == KeyC && cheat
    ensures a == SnapAll <==> down && key == KeyF12
  {
    if down && key == KeyC && cheat then ToggleCheat
    else if down && key == KeyF12 then SnapAll
    else NoKeyAction
  }

  /** `start_buttn`'s choice: the token to dispatch, if any. `confirm` and
      `exit` say whether the button is the configured confirm (A) and exit
      buttons; `clicked` is the token of the clicked widget. */
  function RouteButton(confirm: bool, exit: bool, down: bool, clicked: int): (t: Option<int>)
    ensures !down ==> t.None?
    ensures t.Some? ==> t.value == clicked || t.value == START_BACK
    ensures down && confirm ==> t == Some(clicked)
    ensures down && !confirm && exit ==> t == Some(START_BACK)
    ensures t == Some(START_BACK) && clicked != START_BACK ==> down && exit && !confirm
    ensures t.None? <==> !down || (!confirm && !exit)
  {
    if down && confirm then Some(clicked)
    else if down && exit then Some(START_BACK)
    else None
  }

  /*------------------------------------------------------------------------*/
  /* Screenshots                                                            */

  /** The `level_snap` calls F12 makes over the first `n` slots. */
  function Snaps(levels: LevelSet, n: nat): (s: seq<Effect>)
    ensures forall p :: 0 <= p < |s| ==> s[p].LevelSnap? && s[p].level < n
    ensures forall e :: e in s <==> e.LevelSnap? && e.level < n && levels(e.level).present
    ensures forall p, q :: 0 <= p < q < |s| ==> s[p].level < s[q].level
  {
    if n == 0 then []
    else Snaps(levels, n - 1) + (if levels(n - 1).present then [LevelSnap(n - 1)] else [])
  }
}
