/**
 * The command palette and the toasts of `src/ui/widgets.rs`.
 *
 * This file works against a later `App` than `src/app/mod.rs` and `src/app/state.rs` define: its
 * `UiMode`, `Focus`, `PopupMode` and `AppStatus` have variants those files lack. They are closed
 * enumerations of their own here, holding the variants the palette code names.
 */
module Widgets {
  import opened Wrappers
  import States
  import Application

  /** The eight layouts (`UiMode::view_modes`) and the screens the palette opens. */
  datatype UiMode =
    | Zen | Title | Help | Log | TitleHelp | TitleLog | HelpLog | TitleHelpLog
    | ConfigMenu | MainMenu | HelpMenu | NewBoard | NewCard | LoadSave | CreateTheme

  /** The layouts that show boards; only from these can a board or a card be created. */
  predicate IsViewMode(m: UiMode) {
    m in {Zen, UiMode.Title, UiMode.Help, UiMode.Log, TitleHelp, TitleLog, HelpLog, TitleHelpLog}
  }

  /** The regions that receive keys; `OtherFocus` stands for the ones the palette never names. */
  datatype Focus =
    | Title | Body | Help | Log | ConfigTable | MainMenu | NewBoardName | NewCardName
    | CommandPaletteCommand | CommandPaletteCard | CommandPaletteBoard | OtherFocus

  datatype PopupMode = CommandPalette | ChangeUIMode | ChangeTheme | ChangeCurrentCardStatus

  datatype AppStatus = Initialized | UserInput | KeyBindMode

  // ---------------------------------------------------------------------------------------------
  // CommandPaletteActions

  /** `CommandPaletteActions`. */
  datatype Command =
    | ExportToJSON | OpenConfigMenu | SaveKanbanState | LoadASave | NewBoard | NewCard | ResetUI
    | OpenMainMenu | OpenHelpMenu | ChangeUIMode | ChangeCurrentCardStatus | DebugMenu
    | ChangeTheme | CreateATheme | Quit

  /** The commands every build offers, in the order `all()` lists them. */
  const ReleaseCommands: seq<Command> := [
    ExportToJSON, OpenConfigMenu, SaveKanbanState, LoadASave, Command.NewBoard, Command.NewCard,
    ResetUI, OpenMainMenu, OpenHelpMenu, Command.ChangeUIMode, Command.ChangeCurrentCardStatus,
    Command.ChangeTheme, CreateATheme, Quit]

  /** The position of a command in `all()` of a debug build. */
  function Position(c: Command): nat {
    match c
    case ExportToJSON => 0
    case OpenConfigMenu => 1
    case SaveKanbanState => 2
    case LoadASave => 3
    case NewBoard => 4
    case NewCard => 5
    case ResetUI => 6
    case OpenMainMenu => 7
    case OpenHelpMenu => 8
    case ChangeUIMode => 9
    case ChangeCurrentCardStatus => 10
    case ChangeTheme => 11
    case CreateATheme => 12
    case Quit => 13
    case DebugMenu => 14
  }

  /** `ReleaseCommands` lists every command but `DebugMenu`, each at its `Position`. */
  lemma ReleaseCommandsIndexed()
    ensures |ReleaseCommands| == 14
    ensures forall i :: 0 <= i < |ReleaseCommands| ==> Position(ReleaseCommands[i]) == i
    ensures forall c :: c != DebugMenu ==> Position(c) < 14 && ReleaseCommands[Position(c)] == c
  {
  }

  /** `CommandPaletteActions::all`: `DebugMenu` is offered, last, only in a debug build. */
  function All(debug: bool): (r: seq<Command>)
    ensures |r| == if debug then 15 else 14
    ensures forall c :: c in r <==> debug || c != DebugMenu
    ensures forall i, j :: 0 <= i < j < |r| ==> r[i] != r[j]
    ensures r[..14] == ReleaseCommands && (debug ==> r[14] == DebugMenu)
  {
    ReleaseCommandsIndexed();
    var r := if debug then ReleaseCommands + [DebugMenu] else ReleaseCommands;
    assert forall i :: 0 <= i < |r| ==> Position(r[i]) == i;
    assert forall c :: c != DebugMenu ==> r[Position(c)] == c;
    assert debug ==> r[14] == DebugMenu;
    assert forall i :: 0 <= i < |r| ==> debug || r[i] != DebugMenu;
    assert forall c :: c in r ==> debug || c != DebugMenu;
    forall c | debug || c != DebugMenu
      ensures c in r
    {
      assert r[Position(c)] == c;
    }
    r
  }

  /** `CommandPaletteActions::as_str`. */
  function Label(c: Command): string {
    match c
    case ExportToJSON => "Export to JSON"
    case OpenConfigMenu => "Open Config Menu"
    case SaveKanbanState => "Save Kanban State"
    case LoadASave => "Load a Save"
    case NewBoard => "New Board"
    case NewCard => "New Card"
    case ResetUI => "Reset UI"
    case OpenMainMenu => "Open Main Menu"
    case OpenHelpMenu => "Open Help Menu"
    case ChangeUIMode => "Change UI Mode"
    case ChangeCurrentCardStatus => "Change Current Card Status"
    case DebugMenu => "Toggle Debug Panel"
    case ChangeTheme => "Change Theme"
    case CreateATheme => "Create a Theme"
    case Quit => "Quit"
  }

  /** ASCII lower-casing of one character. */
  function LowerChar(ch: char): char {
    if 'A' <= ch <= 'Z' then (ch as int + 32) as char else ch
  }

  /** `str::to_lowercase`, restricted to ASCII letters. */
  function Lower(s: string): string {
    seq(|s|, i requires 0 <= i < |s| => LowerChar(s[i]))
  }

  /** `CommandPaletteActions::from_string`: exact, or (with `lowercase`) case-insensitive. */
  function FromString(s: string, lowercase: bool): Option<Command> {
    if lowercase then
      match Lower(s)
      case "export to json" => Some(ExportToJSON)
      case "open config menu" => Some(OpenConfigMenu)
      case "save kanban state" => Some(SaveKanbanState)
      case "load a save" => Some(LoadASave)
      case "new board" => Some(Command.NewBoard)
      case "new card" => Some(Command.NewCard)
      case "reset ui" => Some(ResetUI)
      case "open main menu" => Some(OpenMainMenu)
      case "open help menu" => Some(OpenHelpMenu)
      case "change ui mode" => Some(Command.ChangeUIMode)
      case "change current card status" => Some(Command.ChangeCurrentCardStatus)
      case "toggle debug panel" => Some(DebugMenu)
      case "change theme" => Some(Command.ChangeTheme)
      case "create a theme" => Some(CreateATheme)
      case "quit" => Some(Quit)
      case _ => None
    else
      match s
      case "Export to JSON" => Some(ExportToJSON)
      case "Open Config Menu" => Some(OpenConfigMenu)
      case "Save Kanban State" => Some(SaveKanbanState)
      case "Load a Save" => Some(LoadASave)
      case "New Board" => Some(Command.NewBoard)
      case "New Card" => Some(Command.NewCard)
      case "Reset UI" => Some(ResetUI)
      case "Open Main Menu" => Some(OpenMainMenu)
      case "Open Help Menu" => Some(OpenHelpMenu)
      case "Change UI Mode" => Some(Command.ChangeUIMode)
      case "Change Current Card Status" => Some(Command.ChangeCurrentCardStatus)
      case "Toggle Debug Panel" => Some(DebugMenu)
      case "Change Theme" => Some(Command.ChangeTheme)
      case "Create a Theme" => Some(CreateATheme)
      case "Quit" => Some(Quit)
      case _ => None
  }

  /** The exact table inverts the labels: a string names a command iff it is that command's label. */
  lemma ExactRoundTrip(s: string, c: Command)
    ensures FromString(s, false) == Some(c) <==> s == Label(c)
  {
    LabelNamesCommand(c);
    NamedIsLabel(s);
  }

  /** Every label is in the exact table, under its own command. */
  lemma LabelNamesCommand(c: Command)
    ensures FromString(Label(c), false) == Some(c)
  {
  }

  /** Whatever the exact table accepts is the label of the command it returns. */
  lemma NamedIsLabel(s: string)
    ensures FromString(s, false).Some? ==> s == Label(FromString(s, false).value)
  {
  }

  /** A string outside the label table names no command. */
  lemma ExactUnknown(s: string)
    ensures FromString(s, false) == None <==> forall c :: s != Label(c)
  {
    if FromString(s, false).Some? {
      ExactRoundTrip(s, FromString(s, false).value);
    }
  }

  /** Lower-cased labels, group 1. */
  lemma LowerLabels1()
    ensures Lower("Change Current Card Status") == "change current card status"
  {
  }

  /** Lower-cased labels, group 2. */
  lemma LowerLabels2()
    ensures Lower("Toggle Debug Panel") == "toggle debug panel"
    ensures Lower("Export to JSON") == "export to json"
  {
  }

  /** Lower-cased labels, group 3. */
  lemma LowerLabels3()
    ensures Lower("Open Config Menu") == "open config menu"
    ensures Lower("Save Kanban State") == "save kanban state"
    ensures Lower("Quit") == "quit"
  {
  }

  /** Lower-cased labels, group 4. */
  lemma LowerLabels4()
    ensures Lower("Load a Save") == "load a save"
    ensures Lower("New Board") == "new board"
    ensures Lower("New Card") == "new card"
    ensures Lower("Reset UI") == "reset ui"
  {
  }

  /** Lower-cased labels, group 5. */
  lemma LowerLabels5()
    ensures Lower("Open Main Menu") == "open main menu"
    ensures Lower("Open Help Menu") == "open help menu"
  {
  }

  /** Lower-cased labels, group 6. */
  lemma LowerLabels6()
    ensures Lower("Change UI Mode") == "change ui mode"
    ensures Lower("Change Theme") == "change theme"
    ensures Lower("Create a Theme") == "create a theme"
  {
  }

  /**
   * The two tables agree: the case-insensitive table holds exactly the lower-cased labels, so a
   * string names a command there iff it lower-cases to that command's lower-cased label.
   */
  lemma CaseInsensitiveTable(s: string, c: Command)
    ensures FromString(s, true) == Some(c) <==> Lower(s) == Lower(Label(c))
  {
    LowerLabels1();
    LowerLabels2();
    LowerLabels3();
    LowerLabels4();
    LowerLabels5();
    LowerLabels6();
  }

  /** Lower-casing twice is lower-casing once. */
  lemma LowerIdempotent(s: string)
    ensures Lower(Lower(s)) == Lower(s)
  {
  }

  /** The case-insensitive table accepts a label as written and in lower case. */
  lemma CaseInsensitiveRoundTrip(c: Command)
    ensures FromString(Label(c), true) == Some(c)
    ensures FromString(Lower(Label(c)), true) == Some(c)
  {
    CaseInsensitiveTable(Label(c), c);
    LowerIdempotent(Label(c));
    CaseInsensitiveTable(Lower(Label(c)), c);
  }

  // ---------------------------------------------------------------------------------------------
  // Toasts

  /** `ToastType`. */
  datatype ToastType = Error | Warning | Info | Loading

  /** `ToastType::as_str`: the title a toast of this kind carries. */
  function ToastTitle(t: ToastType): string {
    match t
    case Error => "Error"
    case Warning => "Warning"
    case Info => "Info"
    case Loading => "Loading"
  }

  type Rgb = (States.u8, States.u8, States.u8)

  /** `ToastType::as_color`. */
  function ToastColor(t: ToastType): Rgb {
    match t
    case Error => (255, 0, 0)
    case Warning => (255, 255, 0)
    case Info => (0, 255, 255)
    case Loading => (0, 255, 0)
  }

  /** Each kind of toast has its own title and its own colour. */
  lemma ToastKindsDistinct(a: ToastType, b: ToastType)
    ensures ToastTitle(a) == ToastTitle(b) ==> a == b
    ensures ToastColor(a) == ToastColor(b) ==> a == b
  {
  }

  /**
   * `ToastWidget`. Times are whole milliseconds on an abstract clock: the monotonic clock the
   * source reads is not part of this model.
   */
  datatype Toast = Toast(
    title: string,
    message: string,
    duration: nat,
    startTime: int,
    toastType: ToastType,
    color: Rgb)

  /** `ToastWidget::new`, started at `now`: the title and colour come from the kind. */
  function NewToast(message: string, duration: nat, toastType: ToastType, now: int): Toast {
    Toast(ToastTitle(toastType), message, duration, now, toastType, ToastColor(toastType))
  }

  /** A toast has outlived its duration `now` milliseconds into the clock. */
  predicate Expired(t: Toast, now: int) {
    now - t.startTime > t.duration
  }

  /** The toasts that are still showing, in their original order. */
  function Live(ts: seq<Toast>, now: int): seq<Toast> {
    if ts == [] then [] else (if Expired(ts[0], now) then [] else [ts[0]]) + Live(ts[1..], now)
  }

  /**
   * The fade-in and fade-out times of a toast in milliseconds (`TOAST_FADE_IN_TIME` and
   * `TOAST_FADE_OUT_TIME`, whose values are not part of this model).
   */
  datatype Fade = Fade(fadeIn: nat, fadeOut: nat)

  /** The time since a toast started; the clock the source reads never runs backwards. */
  function Elapsed(t: Toast, now: int): nat {
    if now < t.startTime then 0 else now - t.startTime
  }

  /**
   * Colouring a toast that has finished fading in subtracts the fade-out time from its duration,
   * a `Duration` subtraction that panics when the duration is the shorter of the two.
   */
  predicate FadePanics(t: Toast, now: int, fade: Fade) {
    Elapsed(t, now) >= fade.fadeIn && t.duration < fade.fadeOut
  }

  /**
   * The toast loop of `update`, specified from the back: the list it leaves and whether it
   * panicked. The last toast is coloured first; if that panics the loop stops with the list as
   * it stands, otherwise the earlier toasts are processed and the last is kept unless expired.
   */
  function Expiry(all: seq<Toast>, now: int, fade: Fade): (seq<Toast>, bool) {
    if all == [] then ([], false)
    else
      var last := all[|all| - 1];
      if FadePanics(last, now, fade) then (all, true)
      else
        var (rest, panicked) := Expiry(all[..|all| - 1], now, fade);
        (rest + (if Expired(last, now) then [] else [last]), panicked)
  }

  /**
   * The loop panics exactly when some toast is past its fade-in with a duration shorter than the
   * fade-out; when it does not, what is left is the unexpired toasts in their original order.
   */
  lemma {:induction false} ExpiryMeaning(all: seq<Toast>, now: int, fade: Fade)
    ensures Expiry(all, now, fade).1 <==> exists i :: 0 <= i < |all| && FadePanics(all[i], now, fade)
    ensures !Expiry(all, now, fade).1 ==> Expiry(all, now, fade).0 == Live(all, now)
  {
    if all != [] {
      var init, last := all[..|all| - 1], all[|all| - 1];
      assert all == init + [last];
      ExpiryMeaning(init, now, fade);
      if !FadePanics(last, now, fade) {
        assert (exists i :: 0 <= i < |all| && FadePanics(all[i], now, fade)) <==>
               (exists i :: 0 <= i < |init| && FadePanics(init[i], now, fade)) by {
          forall i | 0 <= i < |init| ensures init[i] == all[i] { }
        }
        LiveAppend(init, [last], now);
        assert [last][1..] == [];
      }
    }
  }

  /** What the toast loop keeps of one toast: the toast itself unless it has expired. */
  function Kept(t: Toast, now: int): seq<Toast> {
    if Expired(t, now) then [] else [t]
  }

  /** One more toast of the prefix processed by `Expiry`. */
  lemma ExpiryPrefix(all: seq<Toast>, i: nat, now: int, fade: Fade)
    requires i < |all|
    ensures FadePanics(all[i], now, fade) ==> Expiry(all[..i + 1], now, fade) == (all[..i + 1], true)
    ensures !FadePanics(all[i], now, fade) ==>
      Expiry(all[..i + 1], now, fade).0 == Expiry(all[..i], now, fade).0 + Kept(all[i], now) &&
      Expiry(all[..i + 1], now, fade).1 == Expiry(all[..i], now, fade).1
  {
    assert all[..i + 1][..i] == all[..i];
  }

  /** One more toast of the suffix processed by `Live`. */
  lemma LiveSuffix(all: seq<Toast>, i: nat, now: int)
    requires i < |all|
    ensures Live(all[i..], now) == Kept(all[i], now) + Live(all[i + 1..], now)
  {
    assert all[i..][1..] == all[i + 1..];
  }

  /** Removing toast `i` when it has expired turns the loop's list at `i + 1` into its list at `i`. */
  lemma RemoveStep(all: seq<Toast>, i: nat, now: int)
    requires i < |all|
    ensures var t := all[..i + 1] + Live(all[i + 1..], now);
      (if Expired(all[i], now) then t[..i] + t[i + 1..] else t) == all[..i] + Live(all[i..], now)
  {
    LiveSuffix(all, i, now);
    var t := all[..i + 1] + Live(all[i + 1..], now);
    assert t[..i] == all[..i];
    assert t[i + 1..] == Live(all[i + 1..], now);
  }

  /**
   * The loop of `update` over the toasts: walk them backwards, colouring each and removing it in
   * place once expired; it stops at the first toast whose colouring panics.
   */
  method RemoveExpired(all: seq<Toast>, now: int, fade: Fade) returns (toasts: seq<Toast>, panicked: bool)
    ensures (toasts, panicked) == Expiry(all, now, fade)
  {
    toasts := all;
    panicked := false;
    var i := |toasts|;
    assert all[..i] == all && all[i..] == [];
    while i > 0
      invariant 0 <= i <= |all|
      invariant toasts == all[..i] + Live(all[i..], now)
      invariant Expiry(all, now, fade).0 == Expiry(all[..i], now, fade).0 + Live(all[i..], now)
      invariant Expiry(all, now, fade).1 == Expiry(all[..i], now, fade).1
    {
      i := i - 1;
      assert toasts[i] == all[i];
      ExpiryPrefix(all, i, now, fade);
      if FadePanics(toasts[i], now, fade) {
        panicked := true;
        return;
      }
      LiveSuffix(all, i, now);
      assert Expiry(all[..i], now, fade).0 + Kept(all[i], now) + Live(all[i + 1..], now) ==
             Expiry(all[..i], now, fade).0 + Live(all[i..], now);
      RemoveStep(all, i, now);
      if Expired(toasts[i], now) {
        toasts := toasts[..i] + toasts[i + 1..];
      }
    }
    assert all[0..] == all;
  }

  /** Exactly the unexpired toasts survive. */
  lemma {:induction false} LiveMembers(ts: seq<Toast>, now: int)
    ensures forall t :: t in Live(ts, now) <==> t in ts && !Expired(t, now)
  {
    if ts != [] {
      LiveMembers(ts[1..], now);
      assert ts == [ts[0]] + ts[1..];
    }
  }

  /** Filtering distributes over concatenation, so survivors keep their relative order. */
  lemma {:induction false} LiveAppend(a: seq<Toast>, b: seq<Toast>, now: int)
    ensures Live(a + b, now) == Live(a, now) + Live(b, now)
  {
    if a != [] {
      LiveAppend(a[1..], b, now);
      assert (a + b)[1..] == a[1..] + b;
    } else {
      assert a + b == b;
    }
  }

  /** Nothing is removed from a list of live toasts, and expiring twice is expiring once. */
  lemma {:induction false} LiveIdempotent(ts: seq<Toast>, now: int)
    ensures Live(Live(ts, now), now) == Live(ts, now)
    ensures (forall i :: 0 <= i < |ts| ==> !Expired(ts[i], now)) ==> Live(ts, now) == ts
  {
    if ts != [] {
      LiveIdempotent(ts[1..], now);
      var head := if Expired(ts[0], now) then [] else [ts[0]];
      LiveAppend(head, Live(ts[1..], now), now);
      assert Live(head, now) == head by {
        if head != [] {
          assert head[1..] == [];
        }
      }
    }
  }

  // ---------------------------------------------------------------------------------------------
  // Application state the palette reads and writes

  /** A board, as far as the palette looks into it: its id and its cards' ids. */
  datatype Board = Board(id: nat, cardIds: seq<nat>)

  /**
   * The fields of `app.state` the palette code touches. A list widget's selection
   * (`ListState::selected`) is an `Option<nat>`.
   */
  datatype UiState = UiState(
    popupMode: Option<PopupMode>,
    uiMode: UiMode,
    prevUiMode: Option<UiMode>,
    focus: Focus,
    appStatus: AppStatus,
    commandSelected: Option<nat>,
    configSelected: Option<nat>,
    mainMenuSelected: Option<nat>,
    helpSelected: Option<nat>,
    cardStatusSelected: Option<nat>,
    currentBoardId: Option<nat>,
    currentCardId: Option<nat>,
    debugMenuToggled: bool,
    currentUserInput: string,
    toasts: seq<Toast>)

  /**
   * `CommandPalette`: the current results, the commands on offer and the search corpus (the
   * lower-cased labels). The similarity index itself is not part of this model.
   */
  datatype Palette = Palette(
    searchResults: Option<seq<Command>>,
    availableCommands: seq<Command>,
    corpus: seq<string>)

  /** `CommandPalette::new`. */
  function NewPalette(debug: bool): Palette {
    Palette(None, All(debug), seq(|All(debug)|, i requires 0 <= i < |All(debug)| => Lower(Label(All(debug)[i]))))
  }

  /** A fresh palette has no results, offers `all()`, and every corpus entry maps back to its command. */
  lemma NewPaletteCorpus(debug: bool)
    ensures NewPalette(debug).searchResults == None
    ensures NewPalette(debug).availableCommands == All(debug)
    ensures |NewPalette(debug).corpus| == |All(debug)|
    ensures forall i :: 0 <= i < |All(debug)| ==> FromString(NewPalette(debug).corpus[i], true) == Some(All(debug)[i])
  {
    forall i | 0 <= i < |All(debug)|
      ensures FromString(NewPalette(debug).corpus[i], true) == Some(All(debug)[i])
    {
      CaseInsensitiveRoundTrip(All(debug)[i]);
    }
  }

  /** The search hits that name a command, mapped to it, in hit order (`filter_map`). */
  function Recognized(hits: seq<string>): seq<Command> {
    if hits == [] then []
    else
      var last := FromString(hits[|hits| - 1], true);
      Recognized(hits[..|hits| - 1]) + (if last.Some? then [last.value] else [])
  }

  /** A command is among the recognized hits iff some hit names it. */
  lemma {:induction false} RecognizedMembers(hits: seq<string>, c: Command)
    ensures c in Recognized(hits) <==> exists i :: 0 <= i < |hits| && FromString(hits[i], true) == Some(c)
  {
    if hits != [] {
      var pre := hits[..|hits| - 1];
      RecognizedMembers(pre, c);
      assert forall i :: 0 <= i < |pre| ==> pre[i] == hits[i];
      if exists i :: 0 <= i < |hits| && FromString(hits[i], true) == Some(c) {
        var i :| 0 <= i < |hits| && FromString(hits[i], true) == Some(c);
        if i < |pre| {
          assert FromString(pre[i], true) == Some(c);
        }
      }
    }
  }

  /** The results a refresh shows: the recognized hits, or every command when none is recognized. */
  function Results(hits: seq<string>, debug: bool): (r: seq<Command>)
    ensures |r| > 0
    ensures Recognized(hits) != [] ==> r == Recognized(hits)
    ensures Recognized(hits) == [] ==> r == All(debug)
  {
    var found := Recognized(hits);
    if found == [] then All(debug) else found
  }

  /** The new results differ from the previous ones: none before, another length, or some entry. */
  predicate Changed(prev: Option<seq<Command>>, next: seq<Command>) {
    prev.None? || |prev.value| != |next| || exists i :: 0 <= i < |next| && prev.value[i] != next[i]
  }

  /** `Changed` is plain inequality of the result lists. */
  lemma ChangedIsInequality(prev: Option<seq<Command>>, next: seq<Command>)
    ensures Changed(prev, next) <==> prev != Some(next)
  {
    if prev.Some? && |prev.value| == |next| && prev.value != next {
      assert !(forall i :: 0 <= i < |next| ==> prev.value[i] == next[i]);
    }
  }

  /** The selection a refresh leaves: reset to the first entry only on a change to several entries. */
  function RefreshedSelection(prev: Option<seq<Command>>, next: seq<Command>, sel: Option<nat>): Option<nat> {
    if Changed(prev, next) && |next| > 1 then Some(0) else sel
  }

  /**
   * A refresh that changes the results to a single entry keeps the old selection, even one past
   * the end of the new list; running the palette then finds no command at that index.
   */
  lemma StaleSelectionKept(prev: seq<Command>, c: Command)
    requires |prev| >= 4 && prev[0] != c
    ensures RefreshedSelection(Some(prev), [c], Some(3)) == Some(3)
    ensures Changed(Some(prev), [c])
  {
  }

  /** What `handle_command` reads from the world outside the application object. */
  datatype Env = Env(
    now: int,
    toastDuration: nat,
    exported: Result<string, string>,
    sendOk: bool)

  /** The application fields the palette reads and writes. */
  datatype World = World(
    state: UiState,
    palette: Palette,
    boards: seq<Board>,
    defaultView: UiMode,
    isLoading: bool,
    sent: seq<Application.IoEvent>)

  /** `send_info_toast` / `send_error_toast`: a toast of the default duration, started now. */
  function WithToast(st: UiState, message: string, kind: ToastType, env: Env): UiState {
    st.(toasts := st.toasts + [NewToast(message, env.toastDuration, kind, env.now)])
  }

  /** `App::dispatch`: `is_loading` stays raised and the intent is sent iff the channel accepts it. */
  function Dispatched(w: World, e: Application.IoEvent, sendOk: bool): World {
    w.(isLoading := sendOk, sent := if sendOk then w.sent + [e] else w.sent)
  }

  /** The first board with the given id (`iter().find`). */
  function FindBoard(boards: seq<Board>, id: nat): (r: Option<Board>)
    ensures r.Some? ==> r.value in boards && r.value.id == id
    ensures r.None? ==> forall b :: b in boards ==> b.id != id
    ensures r.Some? ==> (exists i :: 0 <= i < |boards| && boards[i] == r.value &&
                           forall j :: 0 <= j < i ==> boards[j].id != id)
  {
    if boards == [] then None
    else if boards[0].id == id then Some(boards[0])
    else
      var r := FindBoard(boards[1..], id);
      assert r.Some? ==> (exists i :: 1 <= i < |boards| && boards[i] == r.value &&
                            forall j :: 0 <= j < i ==> boards[j].id != id) by {
        if r.Some? {
          var k :| 0 <= k < |boards[1..]| && boards[1..][k] == r.value &&
            forall j :: 0 <= j < k ==> boards[1..][j].id != id;
          assert boards[k + 1] == r.value;
          assert forall j :: 0 <= j < k + 1 ==> boards[j].id != id by {
            forall j | 0 <= j < k + 1 ensures boards[j].id != id {
              if j > 0 { assert boards[j] == boards[1..][j - 1]; }
            }
          }
        }
      }
      r
  }

  /** The current card exists on the first board carrying the current board's id. */
  predicate CardFound(w: World) {
    w.state.currentBoardId.Some? && w.state.currentCardId.Some? &&
    var b := FindBoard(w.boards, w.state.currentBoardId.value);
    b.Some? && w.state.currentCardId.value in b.value.cardIds
  }

  /** The screen a command opens on top of the current one, recording it in `prev_ui_mode`. */
  function Enter(st: UiState, m: UiMode): UiState {
    st.(popupMode := None, prevUiMode := Some(st.uiMode), uiMode := m)
  }

  /**
   * One arm of the match in `CommandPalette::handle_command`: the new world, and the value the
   * arm returns early with, if it does.
   */
  function Arm(w: World, c: Command, env: Env): (World, Option<Application.AppReturn>) {
    var st := w.state;
    match c
    case ExportToJSON =>
      var toasted := match env.exported
        case Ok(path) => WithToast(st, "Exported JSON to " + path, Info, env)
        case Err(e) => WithToast(st, "Failed to export JSON: " + e, Error, env);
      (w.(state := toasted.(popupMode := None)), None)
    case Quit => (w, Some(Application.Exit))
    case OpenConfigMenu =>
      (w.(state := Enter(st, ConfigMenu).(configSelected := Some(0), focus := ConfigTable)), None)
    case OpenMainMenu =>
      (w.(state := Enter(st, UiMode.MainMenu).(mainMenuSelected := Some(0), focus := Focus.MainMenu)), None)
    case OpenHelpMenu =>
      (w.(state := Enter(st, HelpMenu).(helpSelected := Some(0), focus := Body)), None)
    case SaveKanbanState =>
      (Dispatched(w.(state := st.(popupMode := None)), Application.SaveLocalData, env.sendOk), None)
    case NewBoard =>
      if IsViewMode(st.uiMode) then (w.(state := Enter(st, UiMode.NewBoard).(focus := NewBoardName)), None)
      else (w.(state := WithToast(st, "Cannot create a new board in this view", Error, env).(popupMode := None)), None)
    case NewCard =>
      if IsViewMode(st.uiMode) then
        if st.currentBoardId.None? then
          (w.(state := WithToast(st, "No board Selected / Available", Error, env).(popupMode := None, appStatus := Initialized)),
           Some(Application.Continue))
        else (w.(state := Enter(st, UiMode.NewCard).(focus := NewCardName)), None)
      else (w.(state := WithToast(st, "Cannot create a new card in this view", Error, env).(popupMode := None)), None)
    case ResetUI =>
      (Dispatched(w.(state := st.(popupMode := None, uiMode := w.defaultView)), Application.ResetVisibleBoardsAndCards, env.sendOk),
       None)
    case ChangeUIMode => (w.(state := st.(popupMode := Some(PopupMode.ChangeUIMode))), None)
    case ChangeCurrentCardStatus =>
      if IsViewMode(st.uiMode) then
        if CardFound(w) then
          (w.(state := st.(popupMode := Some(PopupMode.ChangeCurrentCardStatus), appStatus := Initialized,
                           cardStatusSelected := Some(0))),
           Some(Application.Continue))
        else (w.(state := WithToast(st, "Could not find current card", Error, env)), None)
      else (w.(state := WithToast(st, "Cannot change card status in this view", Error, env).(popupMode := None)), None)
    case LoadASave => (w.(state := Enter(st, LoadSave)), None)
    case DebugMenu => (w.(state := st.(debugMenuToggled := !st.debugMenuToggled, popupMode := None)), None)
    case ChangeTheme => (w.(state := st.(popupMode := Some(PopupMode.ChangeTheme))), None)
    case CreateATheme => (w.(state := Enter(st, CreateTheme)), None)
  }

  /** The command the palette's selection points at, if the index is inside the results. */
  function Selected(w: World): Option<Command> {
    var sel := w.state.commandSelected;
    var results := w.palette.searchResults;
    if sel.Some? && results.Some? && sel.value < |results.value| then Some(results.value[sel.value])
    else None
  }

  /**
   * `CommandPalette::handle_command`: run the selected command; unless it returned early, clear
   * the input and go back to `Initialized`.
   */
  function Handle(w: World, env: Env): (World, Application.AppReturn) {
    match Selected(w)
    case None => (w.(state := w.state.(appStatus := Initialized)), Application.Continue)
    case Some(c) =>
      var (w', early) := Arm(w, c, env);
      if early.Some? then (w', early.value)
      else (w'.(state := w'.state.(currentUserInput := "", appStatus := Initialized)), Application.Continue)
  }

  /** With no selection, no results, or an index past the results, no command runs. */
  lemma HandleWithoutCommand(w: World, env: Env)
    requires w.state.commandSelected.None? || w.palette.searchResults.None? ||
             w.state.commandSelected.value >= |w.palette.searchResults.value|
    ensures Handle(w, env) == (w.(state := w.state.(appStatus := Initialized)), Application.Continue)
  {
  }

  /** Only the `Quit` command ends the event loop, and it changes nothing. */
  lemma HandleExitsOnlyOnQuit(w: World, env: Env)
    ensures Handle(w, env).1 == Application.Exit <==> Selected(w) == Some(Quit)
    ensures Handle(w, env).1 == Application.Exit ==> Handle(w, env).0 == w
  {
    match Selected(w)
    case None =>
    case Some(c) => ArmExitsOnlyOnQuit(w, c, env);
  }

  /** An arm returns early with `Exit` only for `Quit`, and any other early return is `Continue`. */
  lemma ArmExitsOnlyOnQuit(w: World, c: Command, env: Env)
    ensures Arm(w, c, env).1 == Some(Application.Exit) <==> c == Quit
    ensures c == Quit ==> Arm(w, c, env).0 == w
  {
  }

  /**
   * Every path but `Quit` leaves the status `Initialized`; no command touches the boards, the
   * palette or the default view.
   */
  lemma HandleStatus(w: World, env: Env)
    ensures Handle(w, env).1 == Application.Continue ==> Handle(w, env).0.state.appStatus == Initialized
    ensures Handle(w, env).0.boards == w.boards && Handle(w, env).0.palette == w.palette
    ensures Handle(w, env).0.defaultView == w.defaultView
  {
    match Selected(w)
    case None =>
    case Some(c) =>
      ArmKeepsData(w, c, env);
      ArmEarlyContinue(w, c, env);
  }

  /** An arm leaves the boards, the palette and the default view alone. */
  lemma ArmKeepsData(w: World, c: Command, env: Env)
    ensures Arm(w, c, env).0.boards == w.boards && Arm(w, c, env).0.palette == w.palette
    ensures Arm(w, c, env).0.defaultView == w.defaultView
  {
  }

  /** An arm that returns `Continue` early has already set the status to `Initialized`. */
  lemma ArmEarlyContinue(w: World, c: Command, env: Env)
    ensures Arm(w, c, env).1 == Some(Application.Continue) ==> Arm(w, c, env).0.state.appStatus == Initialized
  {
  }

  /**
   * The commands that open a screen record the current layout in `prev_ui_mode`, close the
   * palette and clear the input.
   */
  lemma ScreenOpenersRecordPrevious(w: World, c: Command, env: Env)
    requires Selected(w) == Some(c)
    requires c in {OpenConfigMenu, OpenMainMenu, OpenHelpMenu, LoadASave, CreateATheme}
    ensures Handle(w, env).0.state.prevUiMode == Some(w.state.uiMode)
    ensures Handle(w, env).0.state.popupMode == None
    ensures Handle(w, env).0.state.currentUserInput == ""
    ensures c == OpenConfigMenu ==>
      Handle(w, env).0.state.uiMode == ConfigMenu && Handle(w, env).0.state.focus == ConfigTable &&
      Handle(w, env).0.state.configSelected == Some(0)
    ensures c == OpenMainMenu ==>
      Handle(w, env).0.state.uiMode == UiMode.MainMenu && Handle(w, env).0.state.focus == Focus.MainMenu &&
      Handle(w, env).0.state.mainMenuSelected == Some(0)
    ensures c == OpenHelpMenu ==>
      Handle(w, env).0.state.uiMode == HelpMenu && Handle(w, env).0.state.focus == Body &&
      Handle(w, env).0.state.helpSelected == Some(0)
    ensures c == LoadASave ==> Handle(w, env).0.state.uiMode == LoadSave
    ensures c == CreateATheme ==> Handle(w, env).0.state.uiMode == CreateTheme
  {
  }

  /**
   * `NewBoard` opens the board form only from a view mode; elsewhere it closes the palette, keeps
   * the layout and raises an error toast.
   */
  lemma NewBoardGuard(w: World, env: Env)
    requires Selected(w) == Some(Command.NewBoard)
    ensures IsViewMode(w.state.uiMode) ==>
      Handle(w, env).0.state == w.state.(popupMode := None, prevUiMode := Some(w.state.uiMode),
        uiMode := UiMode.NewBoard, focus := NewBoardName, currentUserInput := "", appStatus := Initialized)
    ensures !IsViewMode(w.state.uiMode) ==>
      Handle(w, env).0.state == w.state.(popupMode := None, currentUserInput := "", appStatus := Initialized,
        toasts := w.state.toasts + [NewToast("Cannot create a new board in this view", env.toastDuration, Error, env.now)])
  {
  }

  /**
   * `NewCard` opens the card form only from a view mode with a current board. Without a board it
   * returns early: the palette closes and an error toast appears, but the input is kept.
   */
  lemma NewCardGuard(w: World, env: Env)
    requires Selected(w) == Some(Command.NewCard)
    ensures IsViewMode(w.state.uiMode) && w.state.currentBoardId.Some? ==>
      Handle(w, env).0.state == w.state.(popupMode := None, prevUiMode := Some(w.state.uiMode),
        uiMode := UiMode.NewCard, focus := NewCardName, currentUserInput := "", appStatus := Initialized)
    ensures IsViewMode(w.state.uiMode) && w.state.currentBoardId.None? ==>
      Handle(w, env).0.state == w.state.(popupMode := None, appStatus := Initialized,
        toasts := w.state.toasts + [NewToast("No board Selected / Available", env.toastDuration, Error, env.now)])
    ensures !IsViewMode(w.state.uiMode) ==>
      Handle(w, env).0.state == w.state.(popupMode := None, currentUserInput := "", appStatus := Initialized,
        toasts := w.state.toasts + [NewToast("Cannot create a new card in this view", env.toastDuration, Error, env.now)])
  {
  }

  /**
   * Only `SaveKanbanState` and `ResetUI` talk to the I/O worker; each sends its own intent, and
   * `is_loading` ends raised exactly when the send succeeded.
   */
  lemma OnlyPersistenceDispatches(w: World, c: Command, env: Env)
    ensures c == SaveKanbanState ==>
      Arm(w, c, env).0.sent == w.sent + (if env.sendOk then [Application.SaveLocalData] else []) &&
      Arm(w, c, env).0.isLoading == env.sendOk
    ensures c == ResetUI ==>
      Arm(w, c, env).0.sent == w.sent + (if env.sendOk then [Application.ResetVisibleBoardsAndCards] else []) &&
      Arm(w, c, env).0.isLoading == env.sendOk && Arm(w, c, env).0.state.uiMode == w.defaultView
    ensures c != SaveKanbanState && c != ResetUI ==>
      Arm(w, c, env).0.sent == w.sent && Arm(w, c, env).0.isLoading == w.isLoading
  {
  }

  /** Running the debug command twice restores the debug panel's visibility. */
  lemma DebugToggleTwice(w: World, env: Env)
    ensures Arm(Arm(w, DebugMenu, env).0, DebugMenu, env).0.state.debugMenuToggled == w.state.debugMenuToggled
    ensures Arm(w, DebugMenu, env).0.state.debugMenuToggled != w.state.debugMenuToggled
  {
  }

  /**
   * A command that ran closes the palette popup, except `Quit` and a card-status change whose
   * card is missing (which keeps the palette open behind the error toast).
   */
  lemma PaletteClosesOnCommand(w: World, c: Command, env: Env)
    requires Selected(w) == Some(c) && c != Quit
    requires !(c == Command.ChangeCurrentCardStatus && IsViewMode(w.state.uiMode) && !CardFound(w))
    ensures Handle(w, env).0.state.popupMode != Some(CommandPalette)
  {
  }

  /** The periodic refresh of `WidgetManager::update`, once toasts have expired. */
  function Refresh(w: World, hits: seq<string>, debug: bool): World {
    if w.state.popupMode == Some(CommandPalette) then
      var results := Results(hits, debug);
      w.(palette := w.palette.(searchResults := Some(results)),
         state := w.state.(commandSelected := RefreshedSelection(w.palette.searchResults, results, w.state.commandSelected)))
    else w
  }

  /**
   * With the palette open, a refresh always leaves a non-empty result list, made of the hits that
   * name a command or of every command; the selection moves to the first entry exactly when the
   * results changed to more than one entry. With the palette closed nothing changes.
   */
  lemma RefreshResults(w: World, hits: seq<string>, debug: bool, c: Command)
    ensures w.state.popupMode != Some(CommandPalette) ==> Refresh(w, hits, debug) == w
    ensures w.state.popupMode == Some(CommandPalette) ==>
      var r := Refresh(w, hits, debug).palette.searchResults;
      r.Some? && |r.value| > 0 &&
      (c in r.value <==> (exists i :: 0 <= i < |hits| && FromString(hits[i], true) == Some(c)) ||
                         (Recognized(hits) == [] && (debug || c != DebugMenu)))
    ensures w.state.popupMode == Some(CommandPalette) ==>
      var r := Refresh(w, hits, debug).palette.searchResults.value;
      (Refresh(w, hits, debug).state.commandSelected == Some(0) <==>
         (w.palette.searchResults != Some(r) && |r| > 1) || w.state.commandSelected == Some(0))
  {
    RecognizedMembers(hits, c);
    ChangedIsInequality(w.palette.searchResults, Results(hits, debug));
  }

  /** `App`, as far as the palette and the toasts use it. */
  class App {
    var state: UiState
    var palette: Palette
    var boards: seq<Board>
    /** `config.default_view`. */
    var defaultView: UiMode
    var isLoading: bool
    /** The intents delivered to the I/O worker's channel, oldest first. */
    var sent: seq<Application.IoEvent>

    function Model(): World
      reads this
    {
      World(state, palette, boards, defaultView, isLoading, sent)
    }

    /** A palette-era application on a given start state. */
    constructor (st: UiState, debug: bool, boards0: seq<Board>, defaultView0: UiMode)
      ensures Model() == World(st, NewPalette(debug), boards0, defaultView0, false, [])
    {
      state := st;
      palette := NewPalette(debug);
      boards := boards0;
      defaultView := defaultView0;
      isLoading := false;
      sent := [];
    }

    /**
     * The toast loop of `update`: remove every expired toast, keeping the others in order, or
     * report the panic of a toast whose duration is shorter than its fade-out.
     */
    method ExpireToasts(now: int, fade: Fade) returns (panicked: bool)
      modifies this
      ensures panicked == Expiry(old(state.toasts), now, fade).1
      ensures Model() == old(Model()).(state := old(state).(toasts := Expiry(old(state.toasts), now, fade).0))
    {
      var toasts;
      toasts, panicked := RemoveExpired(state.toasts, now, fade);
      state := state.(toasts := toasts);
    }

    /** The palette part of `update`: re-run the search and, on a real change, select the first entry. */
    method RefreshPalette(search: string -> seq<string>, debug: bool)
      modifies this
      ensures Model() == Refresh(old(Model()), search(Lower(old(state.currentUserInput))), debug)
    {
      if state.popupMode == Some(CommandPalette) {
        var current := palette.searchResults;
        var hits := search(Lower(state.currentUserInput));
        var found := Recognize(hits);
        var results := if found == [] then All(debug) else found;
        palette := palette.(searchResults := Some(results));
        var changed := ResultsDiffer(current, results);
        ChangedIsInequality(current, results);
        if changed && |results| > 1 {
          state := state.(commandSelected := Some(0));
        }
      }
    }

    /**
     * `WidgetManager::update`: expire toasts, then refresh the palette from the similarity search.
     * A panic in the toast loop ends the update before the palette is touched.
     */
    method Update(now: int, fade: Fade, search: string -> seq<string>, debug: bool) returns (panicked: bool)
      modifies this
      ensures panicked <==> exists i :: 0 <= i < |old(state.toasts)| && FadePanics(old(state.toasts)[i], now, fade)
      ensures panicked ==>
        Model() == old(Model()).(state := old(state).(toasts := Expiry(old(state.toasts), now, fade).0))
      ensures !panicked ==>
        Model() == Refresh(old(Model()).(state := old(state).(toasts := Live(old(state.toasts), now))),
                           search(Lower(old(state.currentUserInput))), debug)
    {
      ExpiryMeaning(state.toasts, now, fade);
      panicked := ExpireToasts(now, fade);
      if !panicked {
        RefreshPalette(search, debug);
      }
    }

    /** `App::dispatch`. */
    method Dispatch(e: Application.IoEvent, sendOk: bool)
      modifies this
      ensures Model() == Dispatched(old(Model()), e, sendOk)
    {
      isLoading := true;
      if sendOk {
        sent := sent + [e];
      } else {
        isLoading := false;
      }
    }

    /** `CommandPalette::handle_command`. */
    method HandleCommand(env: Env) returns (ret: Application.AppReturn)
      modifies this
      ensures (Model(), ret) == Handle(old(Model()), env)
    {
      var sel := state.commandSelected;
      if sel.Some? {
        var command := if palette.searchResults.Some? && sel.value < |palette.searchResults.value|
          then Some(palette.searchResults.value[sel.value]) else None;
        if command.Some? {
          var early := Execute(command.value, env);
          if early.Some? {
            return early.value;
          }
          state := state.(currentUserInput := "");
        }
      }
      state := state.(appStatus := Initialized);
      ret := Application.Continue;
    }

    /** One arm of the match in `handle_command`; `early` is the value the arm returns with. */
    method Execute(c: Command, env: Env) returns (early: Option<Application.AppReturn>)
      modifies this
      ensures (Model(), early) == Arm(old(Model()), c, env)
    {
      early := None;
      match c {
        case ExportToJSON =>
          match env.exported {
            case Ok(path) => state := WithToast(state, "Exported JSON to " + path, Info, env);
            case Err(e) => state := WithToast(state, "Failed to export JSON: " + e, Error, env);
          }
          state := state.(popupMode := None);
        case Quit =>
          early := Some(Application.Exit);
        case OpenConfigMenu =>
          state := Enter(state, ConfigMenu).(configSelected := Some(0), focus := ConfigTable);
        case OpenMainMenu =>
          state := Enter(state, UiMode.MainMenu).(mainMenuSelected := Some(0), focus := Focus.MainMenu);
        case OpenHelpMenu =>
          state := Enter(state, HelpMenu).(helpSelected := Some(0), focus := Body);
        case SaveKanbanState =>
          state := state.(popupMode := None);
          Dispatch(Application.SaveLocalData, env.sendOk);
        case NewBoard =>
          if IsViewMode(state.uiMode) {
            state := Enter(state, UiMode.NewBoard).(focus := NewBoardName);
          } else {
            state := WithToast(state.(popupMode := None), "Cannot create a new board in this view", Error, env);
          }
        case NewCard =>
          if IsViewMode(state.uiMode) {
            if state.currentBoardId.None? {
              state := WithToast(state, "No board Selected / Available", Error, env);
              state := state.(popupMode := None, appStatus := Initialized);
              early := Some(Application.Continue);
            } else {
              state := Enter(state, UiMode.NewCard).(focus := NewCardName);
            }
          } else {
            state := WithToast(state.(popupMode := None), "Cannot create a new card in this view", Error, env);
          }
        case ResetUI =>
          state := state.(popupMode := None, uiMode := defaultView);
          Dispatch(Application.ResetVisibleBoardsAndCards, env.sendOk);
        case ChangeUIMode =>
          state := state.(popupMode := Some(PopupMode.ChangeUIMode));
        case ChangeCurrentCardStatus =>
          if IsViewMode(state.uiMode) {
            if CardFound(Model()) {
              state := state.(popupMode := Some(PopupMode.ChangeCurrentCardStatus), appStatus := Initialized,
                              cardStatusSelected := Some(0));
              early := Some(Application.Continue);
            } else {
              state := WithToast(state, "Could not find current card", Error, env);
            }
          } else {
            state := WithToast(state.(popupMode := None), "Cannot change card status in this view", Error, env);
          }
        case LoadASave =>
          state := Enter(state, LoadSave);
        case DebugMenu =>
          state := state.(debugMenuToggled := !state.debugMenuToggled, popupMode := None);
        case ChangeTheme =>
          state := state.(popupMode := Some(PopupMode.ChangeTheme));
        case CreateATheme =>
          state := Enter(state, CreateTheme);
      }
    }
  }

  /** The `filter_map` over the search hits: each hit that names a command, in hit order. */
  method Recognize(hits: seq<string>) returns (found: seq<Command>)
    ensures found == Recognized(hits)
  {
    found := [];
    for i := 0 to |hits|
      invariant found == Recognized(hits[..i])
    {
      assert hits[..i + 1][..i] == hits[..i];
      var named := FromString(hits[i], true);
      if named.Some? {
        found := found + [named.value];
      }
    }
    assert hits[..|hits|] == hits;
  }

  /** The comparison in `update`: a change is no previous results, another length, or some entry. */
  method ResultsDiffer(prev: Option<seq<Command>>, next: seq<Command>) returns (changed: bool)
    ensures changed <==> prev != Some(next)
  {
    changed := false;
    if prev.Some? {
      var p := prev.value;
      if |p| != |next| {
        changed := true;
      } else {
        var i := 0;
        while i < |p|
          invariant 0 <= i <= |p|
          invariant forall j :: 0 <= j < i ==> p[j] == next[j]
        {
          if p[i] != next[i] {
            changed := true;
            break;
          }
          i := i + 1;
        }
        if !changed {
          assert p == next;
        }
      }
    } else {
      changed := true;
    }
  }
}
