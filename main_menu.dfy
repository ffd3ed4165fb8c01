/**
 * Key handling of the main menu (`explore2/src/gui/menus/main.rs`): the
 * cursor moves over six entries with Up and Down, skipping "Load Game" when
 * there is no save file; Return chooses the entry under the cursor and
 * Escape puts the cursor back on "Return to Game".
 */
module MainMenu {
  import opened Ecs

  datatype Selection = ContinuePlaying | NewGame | SaveGame | LoadGame | Credits | Quit

  datatype MenuResult = NoSelection(selected: Selection) | Selected(selected: Selection)

  /** The entry above `s` in the list, wrapping from the first to the last. */
  function Above(s: Selection): Selection
  {
    match s
    case ContinuePlaying => Quit
    case NewGame => ContinuePlaying
    case SaveGame => NewGame
    case LoadGame => SaveGame
    case Credits => LoadGame
    case Quit => Credits
  }

  /** The entry below `s` in the list, wrapping from the last to the first. */
  function Below(s: Selection): Selection
  {
    match s
    case ContinuePlaying => NewGame
    case NewGame => SaveGame
    case SaveGame => LoadGame
    case LoadGame => Credits
    case Credits => Quit
    case Quit => ContinuePlaying
  }

  /** Position of an entry in the menu, top to bottom. */
  function Rank(s: Selection): (r: nat)
    ensures r < 6
  {
    match s
    case ContinuePlaying => 0
    case NewGame => 1
    case SaveGame => 2
    case LoadGame => 3
    case Credits => 4
    case Quit => 5
  }

  /** Up and Down move one place around the six-entry ring, and undo each other. */
  lemma RingSteps(s: Selection)
    ensures Rank(Above(s)) == (Rank(s) + 5) % 6
    ensures Rank(Below(s)) == (Rank(s) + 1) % 6
    ensures Below(Above(s)) == s && Above(Below(s)) == s
  {
  }

  /**
   * The Up key as written: when the entry above is "Load Game" and there is
   * no save, the cursor jumps to "Begin New Game" instead.
   */
  function CursorUpAsWritten(s: Selection, saveExists: bool): Selection
  {
    var next := Above(s);
    if next == LoadGame && !saveExists then NewGame else next
  }

  /**
   * The Down key as written: when the entry below is "Load Game" and there is
   * no save, the cursor jumps to "Quit" instead.
   */
  function CursorDownAsWritten(s: Selection, saveExists: bool): Selection
  {
    var next := Below(s);
    if next == LoadGame && !saveExists then Quit else next
  }

  /**
   * Without a save, Up from "Credits" lands on "Begin New Game", passing over
   * "Save Game", and Down from "Save Game" lands on "Quit", passing over
   * "Credits"; so Down no longer undoes Up.
   */
  lemma AsWrittenSkipsTooFar()
    ensures CursorUpAsWritten(Credits, false) == NewGame
    ensures CursorDownAsWritten(SaveGame, false) == Quit
    ensures CursorDownAsWritten(CursorUpAsWritten(Credits, false), false) != Credits
  {
  }

  /** The skip as evidently intended: step once more in the same direction. */
  function CursorUp(s: Selection, saveExists: bool): (r: Selection)
    ensures !saveExists ==> r != LoadGame
    ensures saveExists ==> r == Above(s)
  {
    var next := Above(s);
    if next == LoadGame && !saveExists then Above(next) else next
  }

  /** Down with "Load Game" skipped when there is no save. */
  function CursorDown(s: Selection, saveExists: bool): (r: Selection)
    ensures !saveExists ==> r != LoadGame
    ensures saveExists ==> r == Below(s)
  {
    var next := Below(s);
    if next == LoadGame && !saveExists then Below(next) else next
  }

  /**
   * With or without a save, Up and Down are inverse on every entry the
   * cursor can rest on.
   */
  lemma UpDownInverse(s: Selection, saveExists: bool)
    requires saveExists || s != LoadGame
    ensures CursorDown(CursorUp(s, saveExists), saveExists) == s
    ensures CursorUp(CursorDown(s, saveExists), saveExists) == s
  {
    RingSteps(s);
  }

  /** Neither version ever puts the cursor on "Load Game" when there is no save. */
  lemma NoSaveNoLoad(s: Selection)
    ensures CursorUpAsWritten(s, false) != LoadGame && CursorDownAsWritten(s, false) != LoadGame
    ensures CursorUp(s, false) != LoadGame && CursorDown(s, false) != LoadGame
  {
  }

  /**
   * The key handling of `draw`, with the cursor moves as written.  `inMenu`
   * is the cursor of the current `MainMenu` run state, `None` when the game
   * is in any other state.
   */
  function Draw(inMenu: Option<Selection>, key: Option<Key>, saveExists: bool): (r: MenuResult)
    ensures saveExists && inMenu.Some? && key == Some(Up) ==> Rank(r.selected) == (Rank(inMenu.value) + 5) % 6
    ensures saveExists && inMenu.Some? && key == Some(Down) ==> Rank(r.selected) == (Rank(inMenu.value) + 1) % 6
    ensures !saveExists && inMenu != Some(LoadGame) ==> r.selected != LoadGame
  {
    match inMenu
    case None => NoSelection(ContinuePlaying)
    case Some(selection) =>
      match key
      case None => NoSelection(selection)
      case Some(Escape) => NoSelection(ContinuePlaying)
      case Some(Up) => NoSelection(CursorUpAsWritten(selection, saveExists))
      case Some(Down) => NoSelection(CursorDownAsWritten(selection, saveExists))
      case Some(Return) => Selected(selection)
      case Some(_) => NoSelection(selection)
  }

  /**
   * Only Return chooses an entry, and it chooses the one under the cursor;
   * outside the menu, and on Escape, the cursor goes to "Return to Game".
   */
  lemma DrawSelection(inMenu: Option<Selection>, key: Option<Key>, saveExists: bool)
    ensures Draw(inMenu, key, saveExists).Selected? <==> inMenu.Some? && key == Some(Return)
    ensures Draw(inMenu, key, saveExists).Selected? ==> Draw(inMenu, key, saveExists).selected == inMenu.value
    ensures inMenu.None? || key == Some(Escape) ==> Draw(inMenu, key, saveExists) == NoSelection(ContinuePlaying)
    ensures inMenu.Some? && (key.None? || (key.value != Up && key.value != Down && key.value != Escape)) ==>
      Draw(inMenu, key, saveExists).selected == inMenu.value
  {
  }

  /** A cursor that starts off "Load Game" without a save stays off it. */
  lemma DrawKeepsOffLoad(s: Selection, key: Option<Key>)
    requires s != LoadGame
    ensures Draw(Some(s), key, false).selected != LoadGame
  {
  }
}
