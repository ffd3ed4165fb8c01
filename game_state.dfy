/**
 * The run-state machine of the current game (`src/game/state.rs`): one call
 * of `tick` reads the `RunState` resource, acts on it, writes the new state
 * back and sweeps the dead; level changes freeze the level, have the dungeon
 * build or restore the next one and restart the log; the game-over path wipes
 * the world and starts again from depth 1.
 *
 * What `tick` hands to code that is not part of this model is recorded, in
 * order, as a `Call`: the system dispatcher, the saveload system, the
 * dungeon's freeze, thaw and `level_transition`, the spawner, the gamelog's
 * event counters, `end_turn_targeting` and the death sweep.  What the GUI
 * returns this frame is the parameter `ui`; what the systems leave in the
 * `RunState` resource on the k-th pass of the ticking loop is `passes(k)`;
 * what `level_transition` returns is `built`.
 */
module GameState {
  import opened Ecs
  import opened Spatial
  import opened GameWorld

  /** `ItemMenuResult` together with the chosen entity. */
  datatype ItemMenuResult = Cancel | NoResponse | Selected(item: Entity)
  /** `ranged_target`'s answer together with the chosen point. */
  datatype TargetResult = TargetCancel | TargetNoResponse | TargetSelected(point: Option<Point>)
  datatype CheatMenuResult = CheatCancel | CheatNoResponse | TeleportToExit | Heal | Reveal | GodMode
  datatype VendorResult = VendorCancel | VendorNoResponse | Sell | Buy | BuyMode | SellMode
  datatype MainMenuResult = NoSelection(selected: MenuSelection) | Picked(picked: MenuSelection)
  datatype GameOverResult = StayOnGameOver | QuitToMenu

  /** Everything the input handler and the menus answer this frame; each state reads its own part. */
  datatype Ui = Ui(input: RunState, items: ItemMenuResult, target: TargetResult, cheat: CheatMenuResult,
                   vendor: VendorResult, menu: MainMenuResult, gameOver: GameOverResult)

  /** A call from `tick` into code this model does not contain. */
  datatype Call =
    | RunSystems | EndTurnTargeting | RecordTurn | ClearEvents
    | Freeze | LevelTransition(newDepth: int, offset: int) | Thaw
    | SpawnTownPortal | SpawnPlayer | Save | Load | DeleteSave | DeleteTheDead

  /** The fields of `State` besides the ECS world and the dispatcher. */
  class Game {
    var mapgenNextState: Option<RunState>
    var mapgenHistory: seq<Map>
    var mapgenIndex: nat
    var mapgenTimer: real
    /** The calls into unmodelled code so far. */
    var calls: seq<Call>
  }

  // ---------------------------------------------------------------------
  // The ticking loop

  /** What the ticking loop does with the resource after a pass: the state it leaves for, or None to pass again. */
  function Leave(r: RunState): (o: Option<RunState>)
    ensures o.Some? ==> o.value != Ticking
  {
    match r
    case AwaitingInput => Some(AwaitingInput)
    case MagicMapReveal(_) => Some(MagicMapReveal(0))
    case TownPortal => Some(TownPortal)
    case TeleportingToOtherLevel(x, y, depth) => Some(TeleportingToOtherLevel(x, y, depth))
    case ShowRemoveCurse => Some(ShowRemoveCurse)
    case ShowIdentify => Some(ShowIdentify)
    case _ => None
  }

  /** The first pass from `i` on after which the loop leaves; `bound` is a pass after which it does. */
  function FirstExit(passes: nat -> RunState, i: nat, bound: nat): (k: nat)
    requires i <= bound && Leave(passes(bound)).Some?
    ensures i <= k <= bound && Leave(passes(k)).Some?
    ensures forall j :: i <= j < k ==> Leave(passes(j)).None?
    decreases bound - i
  {
    if Leave(passes(i)).Some? then i else FirstExit(passes, i + 1, bound)
  }

  /** The first exit does not depend on which later exit bounds the search. */
  lemma {:induction false} FirstExitAnyBound(passes: nat -> RunState, i: nat, b1: nat, b2: nat)
    requires i <= b1 && Leave(passes(b1)).Some? && i <= b2 && Leave(passes(b2)).Some?
    ensures FirstExit(passes, i, b1) == FirstExit(passes, i, b2)
    decreases b1 - i
  {
    if Leave(passes(i)).None? {
      FirstExitAnyBound(passes, i + 1, b1, b2);
    }
  }

  /** The state the ticking loop leaves for. */
  function Settle(passes: nat -> RunState, bound: nat): RunState
    requires Leave(passes(bound)).Some?
  {
    Leave(passes(FirstExit(passes, 0, bound))).value
  }

  /**
   * The ticking loop ends only in AwaitingInput, MagicMapReveal at row 0,
   * TownPortal, a teleport carried over unchanged, ShowRemoveCurse or
   * ShowIdentify, never in Ticking, and it is decided by the first pass whose
   * resource is one of those.
   */
  lemma SettleMeans(passes: nat -> RunState, bound: nat)
    requires Leave(passes(bound)).Some?
    ensures var r := Settle(passes, bound);
      var k := FirstExit(passes, 0, bound);
      r != Ticking && Leave(passes(k)) == Some(r) && (forall j :: 0 <= j < k ==> Leave(passes(j)).None?) &&
      (r == AwaitingInput || r == MagicMapReveal(0) || r == TownPortal || r.TeleportingToOtherLevel? ||
       r == ShowRemoveCurse || r == ShowIdentify)
  {
  }

  // ---------------------------------------------------------------------
  // The transition function

  /** The menus whose answer is an `ItemMenuResult` over an item list. */
  predicate ItemMenu(s: RunState)
  {
    s == ShowInventory || s == ShowDropItem || s == ShowRemoveItem || s == ShowRemoveCurse || s == ShowIdentify
  }

  /** The states that change level through `goto_level`. */
  predicate LevelChange(s: RunState)
  {
    s == NextLevel || s == PreviousLevel || s == TownPortal || s.TeleportingToOtherLevel?
  }

  /** The depth offset `goto_level` receives in state `s`, at map depth `depth`, if it is called. */
  function Offset(s: RunState, ui: Ui, depth: int): Option<int>
  {
    match s
    case NextLevel => Some(1)
    case PreviousLevel => Some(-1)
    case TownPortal => Some(0 - (depth - 1))
    case TeleportingToOtherLevel(_, _, target) => Some(target - 1)
    case ShowCheatMenu => if ui.cheat == TeleportToExit then Some(1) else None
    case _ => None
  }

  /** The state after a magic-mapping step on `row` of a map `height` rows tall. */
  function AfterRow(row: int, height: int): RunState
  {
    if row == height - 1 then Ticking else MagicMapReveal(row + 1)
  }

  /** What `tick` does with a state that has nothing to say about the ECS before its preconditions. */
  ghost predicate CanTick(s: RunState, mapgenNext: Option<RunState>, passes: nat -> RunState, bound: nat)
  {
    (s == MapGeneration ==> mapgenNext.Some?) && (s == Ticking ==> Leave(passes(bound)).Some?)
  }

  /** The states in which `tick` shows a menu and acts on its answer. */
  predicate MenuState(s: RunState)
  {
    ItemMenu(s) || s.ShowTargeting? || s == ShowCheatMenu || s.ShowVendor? || s.MainMenu?
  }

  /**
   * The state `tick` writes back, given the state `s` it read, this frame's
   * GUI answers, the `Ranged` storage, the recorded next state, the ticking
   * loop's passes and the map height.  A Quit from the main menu ends the
   * process; the state is then left as it was.
   */
  function Next(s: RunState, ui: Ui, ranged: map<Entity, int>, mapgenNext: Option<RunState>,
                passes: nat -> RunState, bound: nat, height: int): RunState
    requires CanTick(s, mapgenNext, passes, bound)
  {
    if MenuState(s) then MenuNext(s, ui, ranged)
    else if LevelChange(s) then MapGeneration
    else if s == GameOver then (if ui.gameOver == QuitToMenu then MapGeneration else s)
    else PlayNext(s, ui, mapgenNext, passes, bound, height)
  }

  /** `Next` in the states outside the menus, the level changes and the game over. */
  function PlayNext(s: RunState, ui: Ui, mapgenNext: Option<RunState>, passes: nat -> RunState, bound: nat, height: int): RunState
    requires CanTick(s, mapgenNext, passes, bound)
  {
    match s
    case MapGeneration => mapgenNext.value
    case PreRun => AwaitingInput
    case AwaitingInput => ui.input
    case Ticking => Settle(passes, bound)
    case SaveGame => MainMenu(LoadGame)
    case MagicMapReveal(row) => AfterRow(row, height)
    case _ => s
  }

  /** `Next` in the menus. */
  function MenuNext(s: RunState, ui: Ui, ranged: map<Entity, int>): RunState
  {
    match s
    case ShowInventory =>
      (match ui.items
       case Cancel => AwaitingInput
       case NoResponse => s
       case Selected(item) => if item in ranged then ShowTargeting(ranged[item], item) else Ticking)
    case ShowCheatMenu =>
      (match ui.cheat
       case CheatCancel => AwaitingInput
       case CheatNoResponse => s
       case TeleportToExit => MapGeneration
       case Heal => AwaitingInput
       case Reveal => AwaitingInput
       case GodMode => AwaitingInput)
    case ShowDropItem => ItemMenuNext(s, ui.items)
    case ShowRemoveItem => ItemMenuNext(s, ui.items)
    case ShowRemoveCurse => ItemMenuNext(s, ui.items)
    case ShowIdentify => ItemMenuNext(s, ui.items)
    case ShowTargeting(_, _) =>
      (match ui.target
       case TargetCancel => AwaitingInput
       case TargetNoResponse => s
       case TargetSelected(_) => Ticking)
    case ShowVendor(vendor, _) =>
      (match ui.vendor
       case VendorCancel => AwaitingInput
       case BuyMode => ShowVendor(vendor, VendorMode.Buy)
       case SellMode => ShowVendor(vendor, VendorMode.Sell)
       case _ => s)
    case MainMenu(_) =>
      (match ui.menu
       case NoSelection(selected) => MainMenu(selected)
       case Picked(NewGame) => PreRun
       case Picked(LoadGame) => AwaitingInput
       case Picked(Quit) => s)
    case _ => s
  }

  /** The drop, remove, remove-curse and identify menus: any selection goes on to Ticking. */
  function ItemMenuNext(s: RunState, r: ItemMenuResult): RunState
  {
    match r
    case Cancel => AwaitingInput
    case NoResponse => s
    case Selected(_) => Ticking
  }

  /** The recorded next state after `tick`: PreRun after a level change, the main menu after a game over. */
  function NextMapgen(s: RunState, ui: Ui, mapgenNext: Option<RunState>): Option<RunState>
  {
    if LevelChange(s) || (s == ShowCheatMenu && ui.cheat == TeleportToExit) then Some(PreRun)
    else if s == GameOver && ui.gameOver == QuitToMenu then Some(MainMenu(NewGame))
    else mapgenNext
  }

  /** Whether `tick` ends the process. */
  predicate Exits(s: RunState, ui: Ui)
  {
    s.MainMenu? && ui.menu == Picked(Quit)
  }

  /** `generate_world_map`'s calls: the transition, a thaw when no new map was built, and the event reset. */
  function GenerateCalls(newDepth: int, offset: int, built: Option<seq<Map>>): seq<Call>
  {
    [LevelTransition(newDepth, offset)] + (if built.None? then [Thaw] else []) + [ClearEvents]
  }

  /** The calls one `tick` makes, the death sweep last, unless the process ends. */
  function Calls(s: RunState, ui: Ui, depth: int, passes: nat -> RunState, bound: nat, built: Option<seq<Map>>): seq<Call>
    requires s == Ticking ==> Leave(passes(bound)).Some?
  {
    if Exits(s, ui) then [] else OwnCalls(s, ui, depth, passes, bound, built) + [DeleteTheDead]
  }

  /** The calls the arm of `tick`'s match for state `s` makes. */
  function OwnCalls(s: RunState, ui: Ui, depth: int, passes: nat -> RunState, bound: nat, built: Option<seq<Map>>): seq<Call>
    requires s == Ticking ==> Leave(passes(bound)).Some?
  {
    if MenuState(s) then MenuCalls(s, ui, depth, built)
    else if LevelChange(s) then LevelCalls(s, ui, depth, built)
    else if s == GameOver && ui.gameOver == QuitToMenu then [SpawnPlayer] + GenerateCalls(1, 0, built)
    else PlayCalls(s, ui, passes, bound)
  }

  /** The calls of the level changes: a town portal is spawned first, then `goto_level`'s. */
  function LevelCalls(s: RunState, ui: Ui, depth: int, built: Option<seq<Map>>): seq<Call>
    requires LevelChange(s)
  {
    (if s == TownPortal then [SpawnTownPortal] else []) + [Freeze] +
    GenerateCalls(depth + Offset(s, ui, depth).value, Offset(s, ui, depth).value, built)
  }

  /** The calls of the menus: the teleport cheat's `goto_level`, and loading a game. */
  function MenuCalls(s: RunState, ui: Ui, depth: int, built: Option<seq<Map>>): seq<Call>
  {
    if s == ShowCheatMenu && ui.cheat == TeleportToExit then [Freeze] + GenerateCalls(depth + 1, 1, built)
    else if s.MainMenu? && ui.menu == Picked(LoadGame) then [Load, DeleteSave]
    else []
  }

  /** `n` runs of the systems in a row. */
  function Runs(n: nat): seq<Call>
  {
    seq(n, _ => RunSystems)
  }

  /** The calls of the remaining states. */
  function PlayCalls(s: RunState, ui: Ui, passes: nat -> RunState, bound: nat): seq<Call>
    requires s == Ticking ==> Leave(passes(bound)).Some?
  {
    if s == PreRun then [RunSystems]
    else if s == AwaitingInput then (if ui.input != AwaitingInput then [RecordTurn] else [])
    else if s == Ticking then
      Runs(FirstExit(passes, 0, bound) + 1) + (if Settle(passes, bound) == AwaitingInput then [EndTurnTargeting] else [])
    else if s == SaveGame then [Save]
    else []
  }

  // ---------------------------------------------------------------------
  // Properties of the transition function

  /** The open menu was cancelled this frame. */
  predicate Cancelled(s: RunState, ui: Ui)
  {
    (ItemMenu(s) && ui.items == Cancel) || (s.ShowTargeting? && ui.target == TargetCancel) ||
    (s == ShowCheatMenu && ui.cheat == CheatCancel) || (s.ShowVendor? && ui.vendor == VendorCancel)
  }

  /** The open menu gave no answer this frame. */
  predicate Unanswered(s: RunState, ui: Ui)
  {
    (ItemMenu(s) && ui.items == NoResponse) || (s.ShowTargeting? && ui.target == TargetNoResponse) ||
    (s == ShowCheatMenu && ui.cheat == CheatNoResponse) || (s.ShowVendor? && ui.vendor == VendorNoResponse)
  }

  /** Leaving a menu by cancelling always returns to AwaitingInput, and no answer keeps the menu open. */
  lemma MenusCancelAndWait(s: RunState, ui: Ui, ranged: map<Entity, int>, mapgenNext: Option<RunState>,
                           passes: nat -> RunState, bound: nat, height: int)
    requires ItemMenu(s) || s.ShowTargeting? || s == ShowCheatMenu || s.ShowVendor?
    ensures var r := Next(s, ui, ranged, mapgenNext, passes, bound, height);
      (Cancelled(s, ui) ==> r == AwaitingInput) && (Unanswered(s, ui) ==> r == s)
  {
  }

  /**
   * Every level change, and the teleport cheat, goes to MapGeneration with
   * PreRun recorded, so the next two ticks reach PreRun and then
   * AwaitingInput; the game over's quit goes to MapGeneration with the main
   * menu recorded, so the next tick shows the main menu at "New game".
   */
  lemma LevelChangesRegenerate(s: RunState, ui: Ui, ui2: Ui, ui3: Ui, ranged: map<Entity, int>, mapgenNext: Option<RunState>,
                               passes: nat -> RunState, bound: nat, height: int)
    requires LevelChange(s) || (s == ShowCheatMenu && ui.cheat == TeleportToExit) || (s == GameOver && ui.gameOver == QuitToMenu)
    ensures CanTick(s, mapgenNext, passes, bound)
    ensures var r1 := Next(s, ui, ranged, mapgenNext, passes, bound, height);
      var g1 := NextMapgen(s, ui, mapgenNext);
      r1 == MapGeneration && g1.Some? &&
      var r2 := Next(r1, ui2, ranged, g1, passes, bound, height);
      (s == GameOver ==> r2 == MainMenu(NewGame)) &&
      (s != GameOver ==> r2 == PreRun && Next(r2, ui3, ranged, NextMapgen(r1, ui2, g1), passes, bound, height) == AwaitingInput)
  {
  }

  /** Town portal always lands on depth 1, whatever the current depth. */
  lemma TownPortalLandsOnDepthOne(ui: Ui, depth: int, passes: nat -> RunState, bound: nat, built: Option<seq<Map>>)
    ensures var offset := Offset(TownPortal, ui, depth).value;
      depth + offset == 1 && Calls(TownPortal, ui, depth, passes, bound, built)[2] == LevelTransition(1, offset)
  {
  }

  /**
   * Every tick that does not end the process ends with exactly one death
   * sweep, and a level is always frozen before the dungeon is asked for the
   * next one.
   */
  lemma {:induction false} OneSweepPerTick(s: RunState, ui: Ui, depth: int, passes: nat -> RunState, bound: nat, built: Option<seq<Map>>)
    requires s == Ticking ==> Leave(passes(bound)).Some?
    ensures var c := Calls(s, ui, depth, passes, bound, built);
      (!Exits(s, ui) <==> c != [] && c[|c| - 1] == DeleteTheDead) &&
      (forall i :: 0 <= i < |c| - 1 ==> c[i] != DeleteTheDead) &&
      (forall i :: 0 <= i < |c| && c[i].LevelTransition? && s != GameOver ==> i > 0 && c[i - 1] == Freeze)
  {
    var o := OwnCalls(s, ui, depth, passes, bound, built);
    OwnCallsShape(s, ui, depth, passes, bound, built);
    if !Exits(s, ui) {
      var c := o + [DeleteTheDead];
      forall i | 0 <= i < |c| - 1 ensures c[i] != DeleteTheDead {
        assert c[i] == o[i];
      }
    }
  }

  /** The arm's own calls never sweep the dead, and freeze the level right before any level transition. */
  lemma OwnCallsShape(s: RunState, ui: Ui, depth: int, passes: nat -> RunState, bound: nat, built: Option<seq<Map>>)
    requires s == Ticking ==> Leave(passes(bound)).Some?
    ensures var o := OwnCalls(s, ui, depth, passes, bound, built);
      DeleteTheDead !in o &&
      (forall i :: 0 <= i < |o| && o[i].LevelTransition? && s != GameOver ==> i > 0 && o[i - 1] == Freeze)
  {
    if MenuState(s) || LevelChange(s) {
      if Offset(s, ui, depth).Some? {
        FreezeFirst(s, ui, depth, built);
      }
    } else if s == Ticking {
      var runs := Runs(FirstExit(passes, 0, bound) + 1);
      assert forall i :: 0 <= i < |runs| ==> runs[i] == RunSystems;
    }
  }

  /** The calls of a `goto_level`, after a town portal's spawn if any. */
  lemma FreezeFirst(s: RunState, ui: Ui, depth: int, built: Option<seq<Map>>)
    requires (MenuState(s) || LevelChange(s)) && Offset(s, ui, depth).Some?
    ensures var o := if MenuState(s) then MenuCalls(s, ui, depth, built) else LevelCalls(s, ui, depth, built);
      DeleteTheDead !in o && (forall i :: 0 <= i < |o| && o[i].LevelTransition? ==> i > 0 && o[i - 1] == Freeze)
  {
    var o := if MenuState(s) then MenuCalls(s, ui, depth, built) else LevelCalls(s, ui, depth, built);
    var pre := if s == TownPortal then [SpawnTownPortal] else [];
    var gen := GenerateCalls(depth + Offset(s, ui, depth).value, Offset(s, ui, depth).value, built);
    assert o == pre + [Freeze] + gen;
    forall i | 0 <= i < |o| && o[i].LevelTransition? ensures i > 0 && o[i - 1] == Freeze {
      assert i == |pre| + 1;
    }
  }

  /**
   * The systems run once per pass of the ticking loop, up to and including
   * the first pass after which it leaves, and the target is reset exactly
   * when it leaves for AwaitingInput.
   */
  /** A ticking frame's calls: one systems pass per pass up to the first leaving one, then the targeting end, then the sweep. */
  lemma TickingCalls(ui: Ui, depth: int, passes: nat -> RunState, bound: nat, built: Option<seq<Map>>)
    requires Leave(passes(bound)).Some?
    ensures Calls(Ticking, ui, depth, passes, bound, built) ==
      Runs(FirstExit(passes, 0, bound) + 1) +
      (if Settle(passes, bound) == AwaitingInput then [EndTurnTargeting] else []) + [DeleteTheDead]
  {
    assert !Exits(Ticking, ui) && !MenuState(Ticking) && !LevelChange(Ticking);
    assert OwnCalls(Ticking, ui, depth, passes, bound, built) == PlayCalls(Ticking, ui, passes, bound);
  }

  lemma TickingRunsSystemsUntilExit(ui: Ui, depth: int, passes: nat -> RunState, bound: nat, built: Option<seq<Map>>)
    requires Leave(passes(bound)).Some?
    ensures var c := Calls(Ticking, ui, depth, passes, bound, built);
      var k := FirstExit(passes, 0, bound);
      (forall i :: 0 <= i <= k ==> c[i] == RunSystems) &&
      (EndTurnTargeting in c <==> Settle(passes, bound) == AwaitingInput)
  {
    TickingCalls(ui, depth, passes, bound, built);
    var k := FirstExit(passes, 0, bound);
    var runs: seq<Call> := Runs(k + 1);
    var tail: seq<Call> := if Settle(passes, bound) == AwaitingInput then [EndTurnTargeting] else [];
    var c := Calls(Ticking, ui, depth, passes, bound, built);
    assert c == runs + (tail + [DeleteTheDead]);
    assert EndTurnTargeting !in runs;
  }

  // ---------------------------------------------------------------------
  // Magic mapping

  /** The revealed flags of a map of `n` tiles that are all revealed. */
  function AllRevealed(n: nat): (r: seq<bool>)
    ensures |r| == n && forall i :: 0 <= i < n ==> r[i]
  {
    if n == 0 then [] else AllRevealed(n - 1) + [true]
  }

  /** The revealed flags once row `row` of a `width`-wide map is revealed. */
  function RowRevealed(revealed: seq<bool>, width: int, row: int): (r: seq<bool>)
    ensures |r| == |revealed|
  {
    seq(|revealed|, i requires 0 <= i < |revealed| => revealed[i] || (row * width <= i < row * width + width))
  }

  /** The magic-mapping states from `MagicMapReveal(row)` on: the state they end in, and the revealed flags. */
  function MagicMapRun(revealed: seq<bool>, width: int, height: int, row: int): (r: (seq<bool>, RunState))
    requires 0 <= row < height
    ensures |r.0| == |revealed| && r.1 == Ticking
    decreases height - row
  {
    var next := AfterRow(row, height);
    if next == Ticking then (RowRevealed(revealed, width, row), next)
    else MagicMapRun(RowRevealed(revealed, width, row), width, height, next.row)
  }

  lemma MulStep(a: int, w: int)
    ensures (a + 1) * w == a * w + w
  {
  }

  lemma MulMono(a: int, b: int, w: int)
    requires a <= b && 0 <= w
    ensures a * w <= b * w
  {
  }

  /** The run from row `row` reveals exactly rows `row` to the last, and ends in Ticking. */
  lemma {:induction false} MagicMapRunMeans(revealed: seq<bool>, width: int, height: int, row: int, i: int)
    requires 0 <= row < height && 0 <= width && 0 <= i < |revealed|
    ensures var (r, s) := MagicMapRun(revealed, width, height, row);
      |r| == |revealed| && s == Ticking && (r[i] <==> revealed[i] || (row * width <= i < height * width))
    decreases height - row
  {
    MulStep(row, width);
    if row < height - 1 {
      MagicMapRunMeans(RowRevealed(revealed, width, row), width, height, row + 1, i);
      MulMono(row + 1, height, width);
    }
  }

  /** Reading a magic-mapping scroll, which starts at row 0, reveals the whole map and returns to Ticking. */
  lemma MagicMapRevealsAll(revealed: seq<bool>, width: int, height: int)
    requires 0 < height && 0 <= width && |revealed| == width * height
    ensures MagicMapRun(revealed, width, height, 0) == (seq(|revealed|, _ => true), Ticking)
  {
    var (r, s) := MagicMapRun(revealed, width, height, 0);
    forall i | 0 <= i < |revealed| ensures r[i] {
      MagicMapRunMeans(revealed, width, height, 0, i);
    }
    assert r == seq(|revealed|, _ => true);
  }

  // ---------------------------------------------------------------------
  // The tick

  /** What the cheat menu's heal and god mode, and magic mapping, demand of the world (they unwrap or index). */
  ghost predicate Unwraps(w: World, m: Map, ui: Ui)
    reads w`runState, w`playerEntity, w`pools, m`height
  {
    (w.runState.MagicMapReveal? ==> 0 <= w.runState.row < m.height) &&
    (w.runState == ShowCheatMenu && (ui.cheat == Heal || ui.cheat == GodMode) ==> w.playerEntity in w.pools)
  }

  // ---------------------------------------------------------------------
  // What a frame does to the item records, the map and the map generator

  /** The storages the item menus and targeting write: the use, drop, remove and cast intents, the curses and the identified names. */
  datatype Records = Records(use: map<Entity, WantsToUseItem>, drop: map<Entity, Entity>, remove: map<Entity, Entity>,
                             cursed: set<Entity>, identified: set<string>, cast: map<Entity, WantsToCastSpell>)

  /** The world's `Records`. */
  ghost function RecordsOf(w: World): Records
    reads w`wantsToUseItem, w`wantsToDropItem, w`wantsToRemoveItem, w`cursedItems, w`identified, w`wantsToCastSpell
  {
    Records(w.wantsToUseItem, w.wantsToDropItem, w.wantsToRemoveItem, w.cursedItems, w.identified, w.wantsToCastSpell)
  }

  /**
   * The records after an item menu or the targeting frame in state `s`,
   * for the player entity `player`, given the Ranged, Name and
   * SpellTemplate storages.
   */
  function Recorded(s: RunState, ui: Ui, player: Entity, ranged: map<Entity, int>, names: map<Entity, string>,
                    spells: set<Entity>, r: Records): Records
  {
    if s.ShowTargeting? then Targeted(s.item, ui.target, player, spells, r) else Chosen(s, ui.items, player, ranged, names, r)
  }

  /** The records after the targeting frame for `item`: a chosen tile files a cast for a spell, a use otherwise. */
  function Targeted(item: Entity, target: TargetResult, player: Entity, spells: set<Entity>, r: Records): Records
  {
    match target
    case TargetSelected(point) =>
      if item in spells then r.(cast := r.cast[player := WantsToCastSpell(item, point)])
      else r.(use := r.use[player := WantsToUseItem(item, point)])
    case _ => r
  }

  /** The records after the item menu `s` answered `items`. */
  function Chosen(s: RunState, items: ItemMenuResult, player: Entity, ranged: map<Entity, int>, names: map<Entity, string>,
                  r: Records): Records
  {
    match items
    case Selected(item) =>
      if s == ShowInventory then (if item in ranged then r else r.(use := r.use[player := WantsToUseItem(item, None)]))
      else if s == ShowDropItem then r.(drop := r.drop[player := item])
      else if s == ShowRemoveItem then r.(remove := r.remove[player := item])
      else if s == ShowRemoveCurse then r.(cursed := r.cursed - {item})
      else if s == ShowIdentify then r.(identified := r.identified + (if item in names then {names[item]} else {}))
      else r
    case _ => r
  }

  /** Maps `a` and `b` agree at `e`: both or neither hold it, with the same value. */
  predicate Agree<V(==)>(a: map<Entity, V>, b: map<Entity, V>, e: Entity)
  {
    (e in a <==> e in b) && (e in a ==> a[e] == b[e])
  }

  /** Records `n` and `r` hold the same use, drop, remove and cast intents for `e`. */
  predicate SameIntents(n: Records, r: Records, e: Entity)
  {
    Agree(n.use, r.use, e) && Agree(n.drop, r.drop, e) && Agree(n.remove, r.remove, e) && Agree(n.cast, r.cast, e)
  }

  /**
   * A menu touches only the player's own intents: every other entity's
   * use, drop, remove and cast intents are as they were.
   */
  lemma RecordedOnlyPlayer(s: RunState, ui: Ui, player: Entity, ranged: map<Entity, int>, names: map<Entity, string>,
                           spells: set<Entity>, r: Records, e: Entity)
    requires e != player
    ensures SameIntents(Recorded(s, ui, player, ranged, names, spells, r), r, e)
  {
    if s.ShowTargeting? {
      TargetedOnlyPlayer(s.item, ui.target, player, spells, r, e);
    } else {
      ChosenOnlyPlayer(s, ui.items, player, ranged, names, r, e);
    }
  }

  /** `RecordedOnlyPlayer` for the targeting frame. */
  lemma TargetedOnlyPlayer(item: Entity, target: TargetResult, player: Entity, spells: set<Entity>, r: Records, e: Entity)
    requires e != player
    ensures SameIntents(Targeted(item, target, player, spells, r), r, e)
  {
  }

  /** `RecordedOnlyPlayer` for the item menus. */
  lemma ChosenOnlyPlayer(s: RunState, items: ItemMenuResult, player: Entity, ranged: map<Entity, int>,
                         names: map<Entity, string>, r: Records, e: Entity)
    requires e != player
    ensures SameIntents(Chosen(s, items, player, ranged, names, r), r, e)
  {
    var n := Chosen(s, items, player, ranged, names, r);
    if items.Selected? {
      if s == ShowInventory {
        assert n.drop == r.drop && n.remove == r.remove && n.cast == r.cast;
      } else if s == ShowDropItem {
        assert n.use == r.use && n.remove == r.remove && n.cast == r.cast;
      } else if s == ShowRemoveItem {
        assert n.use == r.use && n.drop == r.drop && n.cast == r.cast;
      } else {
        assert n.use == r.use && n.drop == r.drop && n.remove == r.remove && n.cast == r.cast;
      }
    } else {
      assert n == r;
    }
  }

  /** Curses are only lifted and names only become identified; without a selection nothing changes. */
  lemma RecordedMonotone(s: RunState, ui: Ui, player: Entity, ranged: map<Entity, int>, names: map<Entity, string>,
                         spells: set<Entity>, r: Records)
    ensures var n := Recorded(s, ui, player, ranged, names, spells, r);
      n.cursed <= r.cursed && r.identified <= n.identified
    ensures !ui.items.Selected? && !(s.ShowTargeting? && ui.target.TargetSelected?) ==>
      Recorded(s, ui, player, ranged, names, spells, r) == r
  {
  }

  /**
   * The Pools storage after a frame in state `s`: the cheat menu's heal
   * restores the player's hit points to their maximum and its god mode
   * sets the player's flag; every other frame leaves it.
   */
  function Cheated(s: RunState, ui: Ui, player: Entity, pools: map<Entity, Pools>): map<Entity, Pools>
    requires s == ShowCheatMenu && (ui.cheat == Heal || ui.cheat == GodMode) ==> player in pools
  {
    if s == ShowCheatMenu && ui.cheat == Heal then
      pools[player := pools[player].(hitPoints := pools[player].hitPoints.(current := pools[player].hitPoints.max))]
    else if s == ShowCheatMenu && ui.cheat == GodMode then pools[player := pools[player].(godMode := true)]
    else pools
  }

  /**
   * The cheats touch only the player's pools: afterwards the player is at
   * full health after a heal and invulnerable after god mode, with the
   * rest of its pools as before, and every other entity's pools unchanged.
   */
  lemma CheatedOnlyPlayer(s: RunState, ui: Ui, player: Entity, pools: map<Entity, Pools>, e: Entity)
    requires s == ShowCheatMenu && (ui.cheat == Heal || ui.cheat == GodMode) ==> player in pools
    ensures var n := Cheated(s, ui, player, pools);
      n.Keys == pools.Keys && (e != player && e in pools ==> n[e] == pools[e]) &&
      (s == ShowCheatMenu && ui.cheat == Heal ==>
        n[player].hitPoints.current == n[player].hitPoints.max == pools[player].hitPoints.max &&
        n[player].godMode == pools[player].godMode) &&
      (s == ShowCheatMenu && ui.cheat == GodMode ==> n[player].godMode && n[player].hitPoints == pools[player].hitPoints) &&
      (!(s == ShowCheatMenu && (ui.cheat == Heal || ui.cheat == GodMode)) ==> n == pools)
  {
  }

  /** The log after a level change: the fresh welcome, then the change. */
  const LevelLog: seq<seq<string>> := [["Welcome to", "Rusty Roguelike"], ["You change level."]]

  /** The log after a menu frame in state `s`: the teleport cheat changes level, nothing else writes it. */
  function MenuLog(s: RunState, ui: Ui, log: seq<seq<string>>): seq<seq<string>>
  {
    if s == ShowCheatMenu && ui.cheat == TeleportToExit then LevelLog else log
  }

  /** What a frame in state `s` does to the map: the reveal cheat reveals it all, magic mapping one row, nothing else anything. */
  twostate predicate MapWorked(m: Map, s: RunState, ui: Ui)
    reads m`revealedTiles, m`width
  {
    m.revealedTiles == (if s == ShowCheatMenu && ui.cheat == Reveal then AllRevealed(|old(m.revealedTiles)|)
                        else if s.MagicMapReveal? then RowRevealed(old(m.revealedTiles), m.width, s.row)
                        else old(m.revealedTiles))
  }

  /** Whether a frame in state `s` generates a map: the level changes, the teleport cheat and quitting the game-over screen. */
  predicate Generates(s: RunState, ui: Ui)
  {
    LevelChange(s) || (s == ShowCheatMenu && ui.cheat == TeleportToExit) || (s == GameOver && ui.gameOver == QuitToMenu)
  }

  /** What a frame in state `s` does to the map generator's history: a generating frame restarts it with what was built. */
  twostate predicate GameWorked(g: Game, s: RunState, ui: Ui, built: Option<seq<Map>>)
    reads g`mapgenIndex, g`mapgenTimer, g`mapgenHistory
  {
    if Generates(s, ui)
    then g.mapgenIndex == 0 && g.mapgenTimer == 0.0 && g.mapgenHistory == (if built.Some? then built.value else [])
    else unchanged(g`mapgenIndex, g`mapgenTimer, g`mapgenHistory)
  }

  /**
   * What a frame in state `s` does outside the run state and the calls: the
   * map and the map generator as `MapWorked` and `GameWorked` say; a level
   * change restarts the log with the change and a teleport moves the
   * player; quitting the game-over screen leaves only a fresh player, no
   * identified item and the welcome; every other frame records what its
   * item menu or targeting selected, applies its cheat to the pools and
   * writes the log only for the teleport cheat.
   */
  twostate predicate Worked(g: Game, w: World, m: Map, s: RunState, ui: Ui, built: Option<seq<Map>>)
    reads g`mapgenIndex, g`mapgenTimer, g`mapgenHistory, m`revealedTiles, m`width
    reads w`log, w`playerPos, w`entities, w`playerEntity, w`identified, w`pools, w`ranged, w`names, w`spellTemplates
    reads w`wantsToUseItem, w`wantsToDropItem, w`wantsToRemoveItem, w`cursedItems, w`wantsToCastSpell
  {
    MapWorked(m, s, ui) && GameWorked(g, s, ui, built) &&
    (LevelChange(s) ==> w.log == LevelLog && (s.TeleportingToOtherLevel? ==> w.playerPos == Point(s.x, s.y))) &&
    (s == GameOver && ui.gameOver == QuitToMenu ==>
      w.entities == [w.playerEntity] && w.identified == {} && w.log == [["Welcome to", "Rusty Roguelike"]]) &&
    (!LevelChange(s) && !(s == GameOver && ui.gameOver == QuitToMenu) ==>
      RecordsOf(w) == (if ItemMenu(s) || s.ShowTargeting?
        then Recorded(s, ui, old(w.playerEntity), old(w.ranged), old(w.names), old(w.spellTemplates), old(RecordsOf(w)))
        else old(RecordsOf(w))) &&
      (s == ShowCheatMenu && (ui.cheat == Heal || ui.cheat == GodMode) ==> old(w.playerEntity) in old(w.pools)) &&
      w.pools == Cheated(s, ui, old(w.playerEntity), old(w.pools)) && w.log == MenuLog(s, ui, old(w.log)))
  }

  /**
   * `tick`: the new state is `Next` of the old one and is written back, the
   * recorded next state and the calls into unmodelled code are as `NextMapgen`
   * and `Calls` say, and a Quit from the main menu reports that the process
   * ends.
   */
  method Tick(g: Game, w: World, m: Map, ui: Ui, passes: nat -> RunState, ghost bound: nat, built: Option<seq<Map>>)
    returns (exited: bool)
    requires w.Valid() && m.Valid()
    requires CanTick(w.runState, g.mapgenNextState, passes, bound) && Unwraps(w, m, ui)
    modifies g, w, m`revealedTiles
    ensures w.Valid() && m.Valid()
    ensures exited == Exits(old(w.runState), ui)
    ensures w.runState == Next(old(w.runState), ui, old(w.ranged), old(g.mapgenNextState), passes, bound, m.height)
    ensures g.mapgenNextState == NextMapgen(old(w.runState), ui, old(g.mapgenNextState))
    ensures g.calls == old(g.calls) + Calls(old(w.runState), ui, m.depth, passes, bound, built)
  {
    var newState;
    newState, exited := Act(g, w, m, ui, passes, bound, built);
    if exited {
      return;
    }
    w.runState := newState;
    g.calls := g.calls + [DeleteTheDead];
  }

  /** The body of `tick`'s match on the state it read. */
  method Act(g: Game, w: World, m: Map, ui: Ui, passes: nat -> RunState, ghost bound: nat, built: Option<seq<Map>>)
    returns (newState: RunState, exited: bool)
    requires w.Valid() && m.Valid()
    requires CanTick(w.runState, g.mapgenNextState, passes, bound) && Unwraps(w, m, ui)
    modifies g, w`positions, w`playerPos, w`log, w`pools, w`entities, w`nextEntity, w`playerEntity, w`identified
    modifies w`wantsToUseItem, w`wantsToDropItem, w`wantsToRemoveItem, w`cursedItems, w`wantsToCastSpell
    modifies w`players, w`viewsheds, w`hidden, w`names, w`blocksVisibility
    modifies w`myTurn, w`factions, w`abilities, w`equipped, w`weapons
    modifies w`wantsToShoot, w`wantsToApproach, w`chasing, w`wantsToFlee, w`entityMoved, w`entryTrigger
    modifies w`areaOfEffect, w`hungerClocks, w`ranged, w`spellTemplates
    modifies m`revealedTiles
    ensures w.Valid() && m.Valid() && w.runState == old(w.runState)
    ensures exited == Exits(old(w.runState), ui)
    ensures newState == Next(old(w.runState), ui, old(w.ranged), old(g.mapgenNextState), passes, bound, m.height)
    ensures g.mapgenNextState == NextMapgen(old(w.runState), ui, old(g.mapgenNextState))
    ensures g.calls == old(g.calls) + OwnCalls(old(w.runState), ui, m.depth, passes, bound, built)
    ensures Worked(g, w, m, old(w.runState), ui, built)
  {
    if MenuState(w.runState) {
      MenusStayOnLevel(w.runState);
      newState, exited := MenuAct(g, w, m, ui, built);
    } else {
      OthersKeepRecords(w.runState, ui, w.playerEntity, w.ranged, w.names, w.spellTemplates, RecordsOf(w), w.pools, w.log);
      newState := OtherAct(g, w, m, ui, passes, bound, built);
      exited := false;
    }
  }

  /** A menu is neither a level change nor the game-over screen. */
  lemma MenusStayOnLevel(s: RunState)
    requires MenuState(s)
    ensures !LevelChange(s) && s != GameOver
  {
  }

  /** Outside the menus a frame records no selection, applies no cheat and writes no menu log. */
  lemma OthersKeepRecords(s: RunState, ui: Ui, player: Entity, ranged: map<Entity, int>, names: map<Entity, string>,
                          spells: set<Entity>, r: Records, pools: map<Entity, Pools>, log: seq<seq<string>>)
    requires !MenuState(s)
    ensures !ItemMenu(s) && !s.ShowTargeting? && Cheated(s, ui, player, pools) == pools && MenuLog(s, ui, log) == log
  {
  }

  /** The states outside the menus. */
  method OtherAct(g: Game, w: World, m: Map, ui: Ui, passes: nat -> RunState, ghost bound: nat, built: Option<seq<Map>>)
    returns (newState: RunState)
    requires w.Valid() && m.Valid()
    requires CanTick(w.runState, g.mapgenNextState, passes, bound) && Unwraps(w, m, ui) && !MenuState(w.runState)
    modifies g, w`positions, w`playerPos, w`log, w`pools, w`entities, w`nextEntity, w`playerEntity, w`identified
    modifies w`wantsToUseItem, w`wantsToDropItem, w`wantsToRemoveItem, w`cursedItems, w`wantsToCastSpell
    modifies w`players, w`viewsheds, w`hidden, w`names, w`blocksVisibility
    modifies w`myTurn, w`factions, w`abilities, w`equipped, w`weapons
    modifies w`wantsToShoot, w`wantsToApproach, w`chasing, w`wantsToFlee, w`entityMoved, w`entryTrigger
    modifies w`areaOfEffect, w`hungerClocks, w`ranged, w`spellTemplates
    modifies m`revealedTiles
    ensures w.Valid() && m.Valid() && w.runState == old(w.runState)
    ensures newState == Next(old(w.runState), ui, old(w.ranged), old(g.mapgenNextState), passes, bound, m.height)
    ensures g.mapgenNextState == NextMapgen(old(w.runState), ui, old(g.mapgenNextState))
    ensures g.calls == old(g.calls) + OwnCalls(old(w.runState), ui, m.depth, passes, bound, built)
    ensures MapWorked(m, old(w.runState), ui) && GameWorked(g, old(w.runState), ui, built)
    ensures LevelChange(old(w.runState)) ==>
      w.log == LevelLog && (old(w.runState).TeleportingToOtherLevel? ==> w.playerPos == Point(old(w.runState).x, old(w.runState).y))
    ensures old(w.runState) == GameOver && ui.gameOver == QuitToMenu ==>
      w.entities == [w.playerEntity] && w.identified == {} && w.log == [["Welcome to", "Rusty Roguelike"]]
    ensures !LevelChange(old(w.runState)) && !(old(w.runState) == GameOver && ui.gameOver == QuitToMenu) ==>
      RecordsOf(w) == old(RecordsOf(w)) && w.pools == old(w.pools) && w.log == old(w.log)
  {
    if LevelChange(w.runState) {
      newState := LevelFrame(g, w, m, ui, built);
    } else {
      newState := RestAct(g, w, m, ui, passes, bound, built);
    }
  }

  /** The states outside the menus and the level changes. */
  method RestAct(g: Game, w: World, m: Map, ui: Ui, passes: nat -> RunState, ghost bound: nat, built: Option<seq<Map>>)
    returns (newState: RunState)
    requires w.Valid() && m.Valid()
    requires CanTick(w.runState, g.mapgenNextState, passes, bound) && Unwraps(w, m, ui) && !MenuState(w.runState) && !LevelChange(w.runState)
    modifies g, w`positions, w`playerPos, w`log, w`pools, w`entities, w`nextEntity, w`playerEntity, w`identified
    modifies w`wantsToUseItem, w`wantsToDropItem, w`wantsToRemoveItem, w`cursedItems, w`wantsToCastSpell
    modifies w`players, w`viewsheds, w`hidden, w`names, w`blocksVisibility
    modifies w`myTurn, w`factions, w`abilities, w`equipped, w`weapons
    modifies w`wantsToShoot, w`wantsToApproach, w`chasing, w`wantsToFlee, w`entityMoved, w`entryTrigger
    modifies w`areaOfEffect, w`hungerClocks, w`ranged, w`spellTemplates
    modifies m`revealedTiles
    ensures w.Valid() && m.Valid() && w.runState == old(w.runState)
    ensures newState == Next(old(w.runState), ui, old(w.ranged), old(g.mapgenNextState), passes, bound, m.height)
    ensures g.mapgenNextState == NextMapgen(old(w.runState), ui, old(g.mapgenNextState))
    ensures g.calls == old(g.calls) + OwnCalls(old(w.runState), ui, m.depth, passes, bound, built)
    ensures MapWorked(m, old(w.runState), ui) && GameWorked(g, old(w.runState), ui, built)
    ensures old(w.runState) == GameOver && ui.gameOver == QuitToMenu ==>
      w.entities == [w.playerEntity] && w.identified == {} && w.log == [["Welcome to", "Rusty Roguelike"]]
    ensures !(old(w.runState) == GameOver && ui.gameOver == QuitToMenu) ==>
      RecordsOf(w) == old(RecordsOf(w)) && w.pools == old(w.pools) && w.log == old(w.log)
  {
    var s := w.runState;
    if s == GameOver {
      newState := GameOverFrame(g, w, ui, built);
    } else {
      newState := PlayAct(g, m, s, ui, passes, bound);
    }
  }

  /** The states outside the menus, the level changes and the game over. */
  method PlayAct(g: Game, m: Map, s: RunState, ui: Ui, passes: nat -> RunState, ghost bound: nat) returns (newState: RunState)
    requires m.Valid() && CanTick(s, g.mapgenNextState, passes, bound)
    requires !MenuState(s) && !LevelChange(s) && s != GameOver
    requires s.MagicMapReveal? ==> 0 <= s.row < m.height
    modifies g`calls, m`revealedTiles
    ensures m.Valid()
    ensures newState == PlayNext(s, ui, g.mapgenNextState, passes, bound, m.height)
    ensures g.calls == old(g.calls) + PlayCalls(s, ui, passes, bound)
    ensures s.MagicMapReveal? ==> m.revealedTiles == RowRevealed(old(m.revealedTiles), m.width, s.row)
    ensures !s.MagicMapReveal? ==> m.revealedTiles == old(m.revealedTiles)
    ensures MapWorked(m, s, ui)
  {
    match s {
      case MapGeneration =>
        newState := g.mapgenNextState.value;
      case PreRun =>
        g.calls := g.calls + [RunSystems];
        newState := AwaitingInput;
      case AwaitingInput =>
        newState := ui.input;
        if newState != AwaitingInput {
          g.calls := g.calls + [RecordTurn];
        }
      case Ticking =>
        newState := TickingLoop(g, passes, bound);
      case SaveGame =>
        g.calls := g.calls + [Save];
        newState := MainMenu(LoadGame);
      case MagicMapReveal(row) =>
        RevealRow(m, row);
        newState := AfterRow(row, m.height);
      case _ =>
        newState := s;
    }
  }

  /** The menus. */
  method MenuAct(g: Game, w: World, m: Map, ui: Ui, built: Option<seq<Map>>) returns (newState: RunState, exited: bool)
    requires w.Valid() && m.Valid() && MenuState(w.runState)
    requires w.runState == ShowCheatMenu && (ui.cheat == Heal || ui.cheat == GodMode) ==> w.playerEntity in w.pools
    modifies g`calls, g`mapgenIndex, g`mapgenTimer, g`mapgenHistory, g`mapgenNextState, w`log, w`pools, m`revealedTiles
    modifies w`wantsToUseItem, w`wantsToDropItem, w`wantsToRemoveItem, w`cursedItems, w`identified, w`wantsToCastSpell
    ensures w.Valid() && m.Valid()
    ensures exited == Exits(w.runState, ui)
    ensures newState == MenuNext(w.runState, ui, w.ranged)
    ensures g.mapgenNextState == NextMapgen(w.runState, ui, old(g.mapgenNextState))
    ensures g.calls == old(g.calls) + MenuCalls(w.runState, ui, m.depth, built)
    ensures MapWorked(m, old(w.runState), ui) && GameWorked(g, old(w.runState), ui, built)
    ensures RecordsOf(w) == if ItemMenu(old(w.runState)) || old(w.runState).ShowTargeting?
      then Recorded(old(w.runState), ui, old(w.playerEntity), old(w.ranged), old(w.names), old(w.spellTemplates), old(RecordsOf(w)))
      else old(RecordsOf(w))
    ensures w.pools == Cheated(old(w.runState), ui, old(w.playerEntity), old(w.pools)) && w.log == MenuLog(old(w.runState), ui, old(w.log))
  {
    if w.runState == ShowCheatMenu {
      newState := CheatFrame(g, w, m, ui, built);
      exited := false;
    } else {
      newState, exited := PanelAct(g, w, m, ui, built);
    }
  }

  /** The menus other than the cheat menu: the main menu, the vendor, the item menus and targeting. */
  method PanelAct(g: Game, w: World, m: Map, ui: Ui, built: Option<seq<Map>>) returns (newState: RunState, exited: bool)
    requires MenuState(w.runState) && w.runState != ShowCheatMenu
    modifies g`calls, w`wantsToUseItem, w`wantsToDropItem, w`wantsToRemoveItem, w`cursedItems, w`identified, w`wantsToCastSpell
    ensures exited == Exits(w.runState, ui)
    ensures newState == MenuNext(w.runState, ui, w.ranged)
    ensures g.mapgenNextState == NextMapgen(w.runState, ui, old(g.mapgenNextState))
    ensures g.calls == old(g.calls) + MenuCalls(w.runState, ui, m.depth, built)
    ensures MapWorked(m, old(w.runState), ui) && GameWorked(g, old(w.runState), ui, built)
    ensures RecordsOf(w) == if ItemMenu(old(w.runState)) || old(w.runState).ShowTargeting?
      then Recorded(old(w.runState), ui, old(w.playerEntity), old(w.ranged), old(w.names), old(w.spellTemplates), old(RecordsOf(w)))
      else old(RecordsOf(w))
    ensures w.pools == Cheated(old(w.runState), ui, old(w.playerEntity), old(w.pools)) && w.log == MenuLog(old(w.runState), ui, old(w.log))
  {
    MenusKeepGenerator(w.runState, ui, g.mapgenNextState, w.playerEntity, w.pools, w.log);
    var s := w.runState;
    exited := false;
    if s.MainMenu? {
      newState, exited := MainMenuFrame(g, s, ui);
    } else if s.ShowVendor? {
      newState := VendorFrame(s, s.vendor, ui);
    } else {
      newState := ItemAct(w, ui);
    }
  }

  /** The menus other than the cheat menu neither generate a map, nor reveal one, nor record a next state, nor touch pools or log. */
  lemma MenusKeepGenerator(s: RunState, ui: Ui, mapgenNext: Option<RunState>, player: Entity, pools: map<Entity, Pools>,
                           log: seq<seq<string>>)
    requires MenuState(s) && s != ShowCheatMenu
    ensures !Generates(s, ui) && !s.MagicMapReveal? && NextMapgen(s, ui, mapgenNext) == mapgenNext
    ensures Cheated(s, ui, player, pools) == pools && MenuLog(s, ui, log) == log
  {
  }

  /** The ticking loop: the systems run until the resource they leave is one the loop leaves for. */
  method TickingLoop(g: Game, passes: nat -> RunState, ghost bound: nat) returns (newState: RunState)
    requires Leave(passes(bound)).Some?
    modifies g`calls
    ensures newState == Settle(passes, bound)
    ensures g.calls == old(g.calls) + Runs(FirstExit(passes, 0, bound) + 1) +
      (if newState == AwaitingInput then [EndTurnTargeting] else [])
  {
    var shouldChangeTarget := false;
    newState := Ticking;
    var pass := 0;
    while newState == Ticking
      invariant pass <= bound + 1 && g.calls == old(g.calls) + Runs(pass)
      invariant newState == Ticking ==> pass <= bound && forall j :: 0 <= j < pass ==> Leave(passes(j)).None?
      invariant newState != Ticking ==> 1 <= pass && FirstExit(passes, 0, bound) == pass - 1 &&
                                        newState == Settle(passes, bound)
      invariant shouldChangeTarget <==> newState == AwaitingInput
      decreases if newState == Ticking then bound + 1 - pass else 0
    {
      g.calls := g.calls + [RunSystems];
      assert Runs(pass) + [RunSystems] == Runs(pass + 1);
      match passes(pass) {
        case AwaitingInput =>
          newState := AwaitingInput;
          shouldChangeTarget := true;
        case MagicMapReveal(_) =>
          newState := MagicMapReveal(0);
        case TownPortal =>
          newState := TownPortal;
        case TeleportingToOtherLevel(x, y, depth) =>
          newState := TeleportingToOtherLevel(x, y, depth);
        case ShowRemoveCurse =>
          newState := ShowRemoveCurse;
        case ShowIdentify =>
          newState := ShowIdentify;
        case _ =>
          newState := Ticking;
      }
      if newState != Ticking {
        FirstExitIs(passes, pass, bound);
      }
      pass := pass + 1;
    }
    if shouldChangeTarget {
      g.calls := g.calls + [EndTurnTargeting];
    }
  }

  lemma FirstExitIs(passes: nat -> RunState, k: nat, bound: nat)
    requires k <= bound && Leave(passes(bound)).Some? && Leave(passes(k)).Some?
    requires forall j :: 0 <= j < k ==> Leave(passes(j)).None?
    ensures FirstExit(passes, 0, bound) == k
  {
    var f := FirstExit(passes, 0, bound);
  }

  /** The item menus and targeting, by mode. */
  method ItemAct(w: World, ui: Ui) returns (newState: RunState)
    requires ItemMenu(w.runState) || w.runState.ShowTargeting?
    modifies w`wantsToUseItem, w`wantsToDropItem, w`wantsToRemoveItem, w`cursedItems, w`identified, w`wantsToCastSpell
    ensures newState == MenuNext(w.runState, ui, w.ranged)
    ensures RecordsOf(w) == Recorded(old(w.runState), ui, old(w.playerEntity), old(w.ranged), old(w.names), old(w.spellTemplates), old(RecordsOf(w)))
  {
    if w.runState.ShowTargeting? {
      newState := TargetFrame(w, ui);
    } else {
      newState := ItemFrame(w, ui);
    }
  }

  /** The item menus: a selection files the player's intent or edits the item, then Ticking. */
  method ItemFrame(w: World, ui: Ui) returns (newState: RunState)
    requires ItemMenu(w.runState)
    modifies w`wantsToUseItem, w`wantsToDropItem, w`wantsToRemoveItem, w`cursedItems, w`identified
    ensures newState == MenuNext(w.runState, ui, w.ranged)
    ensures var s := w.runState;
      (s == ShowInventory && ui.items.Selected? && ui.items.item !in w.ranged ==>
        w.wantsToUseItem == old(w.wantsToUseItem)[w.playerEntity := WantsToUseItem(ui.items.item, None)]) &&
      (s == ShowDropItem && ui.items.Selected? ==>
        w.wantsToDropItem == old(w.wantsToDropItem)[w.playerEntity := ui.items.item]) &&
      (s == ShowRemoveItem && ui.items.Selected? ==>
        w.wantsToRemoveItem == old(w.wantsToRemoveItem)[w.playerEntity := ui.items.item]) &&
      (s == ShowRemoveCurse && ui.items.Selected? ==> w.cursedItems == old(w.cursedItems) - {ui.items.item}) &&
      (s == ShowIdentify && ui.items.Selected? ==>
        w.identified == old(w.identified) + (if ui.items.item in w.names then {w.names[ui.items.item]} else {}))
    ensures RecordsOf(w) == Recorded(old(w.runState), ui, old(w.playerEntity), old(w.ranged), old(w.names), old(w.spellTemplates), old(RecordsOf(w)))
  {
    var s := w.runState;
    match ui.items {
      case Cancel => newState := AwaitingInput;
      case NoResponse => newState := s;
      case Selected(item) =>
        newState := Ticking;
        if s == ShowInventory {
          if item in w.ranged {
            newState := ShowTargeting(w.ranged[item], item);
          } else {
            w.wantsToUseItem := w.wantsToUseItem[w.playerEntity := WantsToUseItem(item, None)];
          }
        } else if s == ShowDropItem {
          w.wantsToDropItem := w.wantsToDropItem[w.playerEntity := item];
        } else if s == ShowRemoveItem {
          w.wantsToRemoveItem := w.wantsToRemoveItem[w.playerEntity := item];
        } else if s == ShowRemoveCurse {
          w.cursedItems := w.cursedItems - {item};
        } else {
          if item in w.names {
            w.identified := w.identified + {w.names[item]};
          }
        }
    }
  }

  /** Targeting: a chosen tile files the player's cast of a spell or use of the item at that tile, then Ticking. */
  method TargetFrame(w: World, ui: Ui) returns (newState: RunState)
    requires w.runState.ShowTargeting?
    modifies w`wantsToUseItem, w`wantsToCastSpell
    ensures newState == MenuNext(w.runState, ui, w.ranged)
    ensures var s := w.runState;
      (ui.target.TargetSelected? && s.item in w.spellTemplates ==>
        w.wantsToCastSpell == old(w.wantsToCastSpell)[w.playerEntity := WantsToCastSpell(s.item, ui.target.point)]) &&
      (ui.target.TargetSelected? && s.item !in w.spellTemplates ==>
        w.wantsToUseItem == old(w.wantsToUseItem)[w.playerEntity := WantsToUseItem(s.item, ui.target.point)])
    ensures RecordsOf(w) == Recorded(old(w.runState), ui, old(w.playerEntity), old(w.ranged), old(w.names), old(w.spellTemplates), old(RecordsOf(w)))
  {
    var s := w.runState;
    match ui.target {
      case TargetCancel => newState := AwaitingInput;
      case TargetNoResponse => newState := s;
      case TargetSelected(point) =>
        if s.item in w.spellTemplates {
          w.wantsToCastSpell := w.wantsToCastSpell[w.playerEntity := WantsToCastSpell(s.item, point)];
        } else {
          w.wantsToUseItem := w.wantsToUseItem[w.playerEntity := WantsToUseItem(s.item, point)];
        }
        newState := Ticking;
    }
  }

  /** The vendor menu: only its mode switches are modelled. */
  method VendorFrame(s: RunState, vendor: Entity, ui: Ui) returns (newState: RunState)
    requires s.ShowVendor? && s.vendor == vendor
    ensures newState == MenuNext(s, ui, map[])
  {
    newState := s;
    match ui.vendor {
      case VendorCancel => newState := AwaitingInput;
      case BuyMode => newState := ShowVendor(vendor, VendorMode.Buy);
      case SellMode => newState := ShowVendor(vendor, VendorMode.Sell);
      case _ =>
    }
  }

  /** The main menu: a new game goes to PreRun, loading loads and deletes the save, quitting ends the process. */
  method MainMenuFrame(g: Game, s: RunState, ui: Ui) returns (newState: RunState, exited: bool)
    requires s.MainMenu?
    modifies g`calls
    ensures newState == MenuNext(s, ui, map[]) && exited == Exits(s, ui)
    ensures g.calls == old(g.calls) + (if ui.menu == Picked(LoadGame) then [Load, DeleteSave] else [])
  {
    exited := false;
    match ui.menu {
      case NoSelection(selected) => newState := MainMenu(selected);
      case Picked(NewGame) => newState := PreRun;
      case Picked(LoadGame) =>
        g.calls := g.calls + [Load];
        newState := AwaitingInput;
        g.calls := g.calls + [DeleteSave];
      case Picked(Quit) =>
        newState := s;
        exited := true;
    }
  }

  /** The cheat menu. */
  method CheatFrame(g: Game, w: World, m: Map, ui: Ui, built: Option<seq<Map>>) returns (newState: RunState)
    requires m.Valid() && w.runState == ShowCheatMenu
    requires (ui.cheat == Heal || ui.cheat == GodMode) ==> w.playerEntity in w.pools
    modifies g`calls, g`mapgenIndex, g`mapgenTimer, g`mapgenHistory, g`mapgenNextState, w`log, w`pools, m`revealedTiles
    ensures m.Valid()
    ensures newState == MenuNext(ShowCheatMenu, ui, map[])
    ensures g.mapgenNextState == NextMapgen(ShowCheatMenu, ui, old(g.mapgenNextState))
    ensures g.calls == old(g.calls) + (if ui.cheat == TeleportToExit then [Freeze] + GenerateCalls(m.depth + 1, 1, built) else [])
    ensures ui.cheat == Reveal ==> m.revealedTiles == AllRevealed(|old(m.revealedTiles)|)
    ensures ui.cheat != Reveal ==> m.revealedTiles == old(m.revealedTiles)
    ensures w.pools == Cheated(old(w.runState), ui, old(w.playerEntity), old(w.pools)) && w.log == MenuLog(old(w.runState), ui, old(w.log))
    ensures MapWorked(m, old(w.runState), ui) && GameWorked(g, old(w.runState), ui, built)
    ensures RecordsOf(w) == if ItemMenu(old(w.runState)) || old(w.runState).ShowTargeting?
      then Recorded(old(w.runState), ui, old(w.playerEntity), old(w.ranged), old(w.names), old(w.spellTemplates), old(RecordsOf(w)))
      else old(RecordsOf(w))
  {
    CheatMenuGenerates(ui);
    match ui.cheat {
      case CheatCancel => newState := AwaitingInput;
      case CheatNoResponse => newState := ShowCheatMenu;
      case TeleportToExit =>
        GotoLevel(g, w, m, 1, built);
        g.mapgenNextState := Some(PreRun);
        newState := MapGeneration;
      case Heal =>
        var pools := w.pools[w.playerEntity];
        pools := pools.(hitPoints := pools.hitPoints.(current := pools.hitPoints.max));
        w.pools := w.pools[w.playerEntity := pools];
        newState := AwaitingInput;
      case Reveal =>
        RevealEverything(m);
        newState := AwaitingInput;
      case GodMode =>
        var pools := w.pools[w.playerEntity];
        pools := pools.(godMode := true);
        w.pools := w.pools[w.playerEntity := pools];
        newState := AwaitingInput;
    }
  }

  /** The cheat menu generates a map exactly for the teleport, and is no item menu. */
  lemma CheatMenuGenerates(ui: Ui)
    ensures Generates(ShowCheatMenu, ui) <==> ui.cheat == TeleportToExit
    ensures !ItemMenu(ShowCheatMenu) && !ShowCheatMenu.ShowTargeting? && !ShowCheatMenu.MagicMapReveal?
  {
  }

  /** Marks every tile revealed. */
  method RevealEverything(m: Map)
    requires m.Valid()
    modifies m`revealedTiles
    ensures m.Valid() && m.revealedTiles == AllRevealed(|old(m.revealedTiles)|)
  {
    var i := 0;
    while i < |m.revealedTiles|
      invariant 0 <= i <= |m.revealedTiles| && |m.revealedTiles| == |old(m.revealedTiles)|
      invariant forall k :: 0 <= k < i ==> m.revealedTiles[k]
    {
      m.revealedTiles := m.revealedTiles[i := true];
      i := i + 1;
    }
    assert m.revealedTiles == AllRevealed(|old(m.revealedTiles)|);
  }

  /** One step of magic mapping: every tile of row `row` is revealed. */
  method RevealRow(m: Map, row: int)
    requires m.Valid() && 0 <= row < m.height
    modifies m`revealedTiles
    ensures m.Valid() && m.revealedTiles == RowRevealed(old(m.revealedTiles), m.width, row)
  {
    var x := 0;
    while x < m.width
      invariant 0 <= x <= m.width && |m.revealedTiles| == |old(m.revealedTiles)|
      invariant forall i :: 0 <= i < |m.revealedTiles| ==>
        m.revealedTiles[i] == (old(m.revealedTiles)[i] || (row * m.width <= i < row * m.width + x))
    {
      IdxInBounds(m.width, m.height, x, row);
      var idx := m.XyIdx(x, row);
      m.revealedTiles := m.revealedTiles[idx := true];
      x := x + 1;
    }
  }

  /** The four level changes: a town portal first spawns its portal; a teleport then places the player. */
  method LevelFrame(g: Game, w: World, m: Map, ui: Ui, built: Option<seq<Map>>) returns (newState: RunState)
    requires w.Valid() && m.Valid() && LevelChange(w.runState)
    modifies g`calls, g`mapgenIndex, g`mapgenTimer, g`mapgenHistory, g`mapgenNextState, w`log, w`positions, w`playerPos
    ensures w.Valid() && m.Valid()
    ensures newState == MapGeneration && g.mapgenNextState == Some(PreRun)
    ensures g.calls == old(g.calls) + LevelCalls(w.runState, ui, m.depth, built)
    ensures w.log == LevelLog
    ensures g.mapgenIndex == 0 && g.mapgenTimer == 0.0 && g.mapgenHistory == (if built.Some? then built.value else [])
    ensures if w.runState.TeleportingToOtherLevel? then
        w.playerPos == Point(w.runState.x, w.runState.y) &&
        w.positions == if w.playerEntity in old(w.positions) then old(w.positions)[w.playerEntity := Point(w.runState.x, w.runState.y)]
                       else old(w.positions)
      else w.positions == old(w.positions) && w.playerPos == old(w.playerPos)
    ensures GameWorked(g, old(w.runState), ui, built)
  {
    ChangeLevel(g, w, m, ui, built);
    if w.runState.TeleportingToOtherLevel? {
      var x, y := w.runState.x, w.runState.y;
      if w.playerEntity in w.positions {
        w.positions := w.positions[w.playerEntity := Point(x, y)];
      }
      w.playerPos := Point(x, y);
    }
    g.mapgenNextState := Some(PreRun);
    newState := MapGeneration;
  }

  /** The level change itself: `goto_level` with the state's offset, after the town portal's spawn. */
  method ChangeLevel(g: Game, w: World, m: Map, ui: Ui, built: Option<seq<Map>>)
    requires LevelChange(w.runState)
    modifies g`calls, g`mapgenIndex, g`mapgenTimer, g`mapgenHistory, w`log
    ensures g.calls == old(g.calls) + LevelCalls(w.runState, ui, m.depth, built)
    ensures w.log == [["Welcome to", "Rusty Roguelike"], ["You change level."]]
    ensures g.mapgenIndex == 0 && g.mapgenTimer == 0.0 && g.mapgenHistory == (if built.Some? then built.value else [])
  {
    ghost var before := g.calls;
    ghost var offset := Offset(w.runState, ui, m.depth).value;
    ghost var generated := GenerateCalls(m.depth + offset, offset, built);
    assert [] + [Freeze] == [Freeze];
    match w.runState {
      case NextLevel =>
        GotoLevel(g, w, m, 1, built);
        AppendAssoc(before, [Freeze], generated);
      case PreviousLevel =>
        GotoLevel(g, w, m, -1, built);
        AppendAssoc(before, [Freeze], generated);
      case TownPortal =>
        g.calls := g.calls + [SpawnTownPortal];
        var mapDepth := m.depth;
        var destinationOffset := 0 - (mapDepth - 1);
        GotoLevel(g, w, m, destinationOffset, built);
        AppendAssoc(before, [SpawnTownPortal], [Freeze]);
        AppendAssoc(before, [SpawnTownPortal] + [Freeze], generated);
      case TeleportingToOtherLevel(_, _, depth) =>
        GotoLevel(g, w, m, depth - 1, built);
        AppendAssoc(before, [Freeze], generated);
    }
  }

  /**
   * `goto_level`: freezes the level, generates the map at the current depth
   * plus `offset`, and logs the change after the fresh welcome.
   */
  method GotoLevel(g: Game, w: World, m: Map, offset: int, built: Option<seq<Map>>)
    modifies g`calls, g`mapgenIndex, g`mapgenTimer, g`mapgenHistory, w`log
    ensures g.calls == old(g.calls) + [Freeze] + GenerateCalls(m.depth + offset, offset, built)
    ensures w.log == [["Welcome to", "Rusty Roguelike"], ["You change level."]]
    ensures g.mapgenIndex == 0 && g.mapgenTimer == 0.0 && g.mapgenHistory == (if built.Some? then built.value else [])
  {
    g.calls := g.calls + [Freeze];
    var currentDepth := m.depth;
    GenerateWorldMap(g, w, currentDepth + offset, offset, built);
    w.log := w.log + [["You change level."]];
  }

  /**
   * `generate_world_map`: restarts the generation history, asks the dungeon
   * for the level (thawing the stored one when nothing new was built), and
   * restarts the log with the welcome line and the event counters.
   */
  method GenerateWorldMap(g: Game, w: World, newDepth: int, offset: int, built: Option<seq<Map>>)
    modifies g`calls, g`mapgenIndex, g`mapgenTimer, g`mapgenHistory, w`log
    ensures g.calls == old(g.calls) + GenerateCalls(newDepth, offset, built)
    ensures w.log == [["Welcome to", "Rusty Roguelike"]]
    ensures g.mapgenIndex == 0 && g.mapgenTimer == 0.0 && g.mapgenHistory == (if built.Some? then built.value else [])
  {
    g.mapgenIndex := 0;
    g.mapgenTimer := 0.0;
    g.mapgenHistory := [];
    g.calls := g.calls + [LevelTransition(newDepth, offset)];
    match built {
      case Some(history) => g.mapgenHistory := history;
      case None => g.calls := g.calls + [Thaw];
    }
    w.log := [];
    w.log := w.log + [["Welcome to", "Rusty Roguelike"]];
    g.calls := g.calls + [ClearEvents];
  }

  /** The game-over screen: quitting to the menu wipes the world and generates depth 1. */
  method GameOverFrame(g: Game, w: World, ui: Ui, built: Option<seq<Map>>) returns (newState: RunState)
    requires w.Valid() && w.runState == GameOver
    modifies g`calls, g`mapgenIndex, g`mapgenTimer, g`mapgenHistory, g`mapgenNextState, w`log, w`entities, w`nextEntity
    modifies w`playerEntity, w`identified, w`positions, w`players, w`viewsheds, w`hidden, w`names, w`blocksVisibility
    modifies w`myTurn, w`factions, w`abilities, w`equipped, w`weapons, w`wantsToCastSpell
    modifies w`wantsToShoot, w`wantsToApproach, w`chasing, w`wantsToFlee, w`entityMoved, w`entryTrigger
    modifies w`areaOfEffect, w`hungerClocks, w`pools, w`ranged, w`spellTemplates
    modifies w`wantsToUseItem, w`wantsToDropItem, w`wantsToRemoveItem, w`cursedItems
    ensures w.Valid()
    ensures newState == (if ui.gameOver == QuitToMenu then MapGeneration else GameOver)
    ensures g.mapgenNextState == NextMapgen(GameOver, ui, old(g.mapgenNextState))
    ensures g.calls == old(g.calls) + (if ui.gameOver == QuitToMenu then [SpawnPlayer] + GenerateCalls(1, 0, built) else [])
    ensures ui.gameOver == QuitToMenu ==>
      w.entities == [w.playerEntity] && w.identified == {} && w.log == [["Welcome to", "Rusty Roguelike"]]
    ensures ui.gameOver != QuitToMenu ==> RecordsOf(w) == old(RecordsOf(w)) && w.pools == old(w.pools) && w.log == old(w.log)
    ensures GameWorked(g, old(w.runState), ui, built)
  {
    newState := GameOver;
    if ui.gameOver == QuitToMenu {
      GameOverCleanup(g, w, built);
      newState := MapGeneration;
      g.mapgenNextState := Some(MainMenu(NewGame));
    }
  }

  /** Wipes every entity, spawns a fresh player and forgets every identified item. */
  method ResetWorld(w: World)
    requires w.Valid()
    modifies w`entities, w`nextEntity, w`playerEntity, w`identified
    modifies w`positions, w`players, w`viewsheds, w`hidden, w`names, w`blocksVisibility
    modifies w`myTurn, w`factions, w`abilities, w`equipped, w`weapons, w`wantsToCastSpell
    modifies w`wantsToShoot, w`wantsToApproach, w`chasing, w`wantsToFlee, w`entityMoved, w`entryTrigger
    modifies w`areaOfEffect, w`hungerClocks, w`pools, w`ranged, w`spellTemplates
    modifies w`wantsToUseItem, w`wantsToDropItem, w`wantsToRemoveItem, w`cursedItems
    ensures w.Valid() && w.NoComponents() && w.entities == [w.playerEntity] && w.playerEntity >= old(w.nextEntity)
    ensures w.identified == {}
  {
    w.identified := {};
    w.DeleteAll();
    var player := w.CreateEntity();
    w.playerEntity := player;
  }

  /**
   * `game_over_cleanup`: every entity and component goes, a new player entity
   * is made, the dungeon's records (here its identified item names) start
   * afresh, and depth 1 is generated.
   */
  method GameOverCleanup(g: Game, w: World, built: Option<seq<Map>>)
    requires w.Valid()
    modifies g`calls, g`mapgenIndex, g`mapgenTimer, g`mapgenHistory, w`log, w`entities, w`nextEntity, w`playerEntity, w`identified
    modifies w`positions, w`players, w`viewsheds, w`hidden, w`names, w`blocksVisibility
    modifies w`myTurn, w`factions, w`abilities, w`equipped, w`weapons, w`wantsToCastSpell
    modifies w`wantsToShoot, w`wantsToApproach, w`chasing, w`wantsToFlee, w`entityMoved, w`entryTrigger
    modifies w`areaOfEffect, w`hungerClocks, w`pools, w`ranged, w`spellTemplates
    modifies w`wantsToUseItem, w`wantsToDropItem, w`wantsToRemoveItem, w`cursedItems
    ensures w.Valid() && w.NoComponents() && w.entities == [w.playerEntity] && w.playerEntity >= old(w.nextEntity)
    ensures w.identified == {} && w.log == [["Welcome to", "Rusty Roguelike"]]
    ensures g.calls == old(g.calls) + [SpawnPlayer] + GenerateCalls(1, 0, built)
    ensures g.mapgenIndex == 0 && g.mapgenTimer == 0.0 && g.mapgenHistory == (if built.Some? then built.value else [])
  {
    g.calls := g.calls + [SpawnPlayer];
    ResetWorld(w);
    GenerateWorldMap(g, w, 1, 0, built);
  }
}
