/**
 * The input state machine of `src/app/mod.rs`: the `App` object, its two coarse input states
 * (typing into a buffer, or resolving keys through the contextual action set) and the
 * `is_loading` flag that the dispatch to the I/O worker owns.
 */
module Application {
  import opened Wrappers
  import opened Bindings
  import opened States

  /** What handling one key tells the event loop. */
  datatype AppReturn = Exit | Continue

  /**
   * The intents sent to the I/O worker. The worker's event type is not part of this model;
   * these are the intents the command palette sends, plus `OtherIo` for the rest.
   */
  datatype IoEvent = SaveLocalData | ResetVisibleBoardsAndCards | OtherIo(name: string)

  /** The fields of `App` that the input machine reads and writes. */
  datatype Snapshot = Snapshot(
    actions: Actions,
    isLoading: bool,
    state: AppState,
    focus: Focus,
    uiMode: UiMode,
    goUp: bool,
    goDown: bool,
    currentObjIndex: nat,
    currentUserInput: string,
    prevUiMode: UiMode)

  /**
   * The digit of a number key. The key type's own conversion is not part of this model; the
   * only keys that reach it are `Char('1')` .. `Char('8')`, and every other key gives 0.
   * The `n`-th chord bound to `SetUiMode` reads as `n` and so selects the `n`-th layout.
   */
  function Digit(k: Key): (d: u8)
    ensures k in Keys(SetUiMode) ==>
      1 <= d <= 8 && Keys(SetUiMode)[d - 1] == k && FromNumber(d) == NumberedModes[d - 1]
  {
    match k
    case Char(c) => if '0' <= c <= '9' then (c as int - '0' as int) as u8 else 0
    case _ => 0
  }

  /** A contextual set the match of `do_action` covers: it has no arm for `Escape` or `Enter`. */
  predicate Wired(acts: Actions) {
    Action.Escape !in acts.list && Action.Enter !in acts.list
  }

  /** The arms of the match in `do_action`: the effect of one resolved action. */
  function Perform(s: Snapshot, a: Action, key: Key): (Snapshot, AppReturn)
    requires a != Action.Escape && a != Action.Enter
  {
    match a
    case Quit => (s, Exit)
    case NextFocus => (s.(focus := Next(s.focus, Tabs(s.uiMode))), Continue)
    case PreviousFocus => (s.(focus := Prev(s.focus, Tabs(s.uiMode))), Continue)
    case SetUiMode =>
      var m := FromNumber(Digit(key));
      var tabs := Tabs(m);
      (s.(focus := if FocusName(s.focus) in tabs then s.focus else FromStr(tabs[0]), uiMode := m),
       Continue)
    case ToggleConfig =>
      if s.uiMode == Config then (s.(uiMode := s.prevUiMode, currentObjIndex := 0), Continue)
      else (s.(prevUiMode := s.uiMode, uiMode := Config), Continue)
    case GoUp => (if s.uiMode == Config then s.(goUp := true) else s, Continue)
    case GoDown => (if s.uiMode == Config then s.(goDown := true) else s, Continue)
    case TakeUserInput => (s.(state := UserInput), Continue)
  }

  /**
   * `App::do_action` on the snapshot: in `UserInput` the key's text is appended until Enter;
   * otherwise the key is resolved through the contextual set. `text` is the key's printed form.
   */
  function Step(s: Snapshot, key: Key, text: string): (Snapshot, AppReturn)
    requires Wired(s.actions)
  {
    if s.state == UserInput then
      if key != Key.Enter then (s.(currentUserInput := s.currentUserInput + text), Continue)
      else (s.(state := Initialized), Continue)
    else
      match Find(s.actions, key)
      case None => (s, Continue)
      case Some(a) => Perform(s, a, key)
  }

  /** While typing, keys only feed the buffer; no key is resolved, not even `q`. */
  lemma UserInputOnlyBuffers(s: Snapshot, key: Key, text: string)
    requires Wired(s.actions) && s.state == UserInput
    ensures Step(s, key, text).1 == Continue
    ensures key != Key.Enter ==> Step(s, key, text).0 == s.(currentUserInput := s.currentUserInput + text)
    ensures key == Key.Enter ==> Step(s, key, text).0 == s.(state := Initialized)
  {
  }

  /** Only a resolved `Quit` ends the event loop, and it changes nothing. */
  lemma ExitOnlyOnQuit(s: Snapshot, key: Key, text: string)
    requires Wired(s.actions)
    ensures Step(s, key, text).1 == Exit <==> s.state != UserInput && Find(s.actions, key) == Some(Quit)
    ensures Step(s, key, text).1 == Exit ==> Step(s, key, text).0 == s
  {
  }

  /** An unbound key changes nothing. */
  lemma UnboundKeyIsNoop(s: Snapshot, key: Key, text: string)
    requires Wired(s.actions) && s.state != UserInput && Find(s.actions, key) == None
    ensures Step(s, key, text) == (s, Continue)
  {
  }

  /**
   * After `SetUiMode` the layout is the one the digit selects, and the focus is one of its
   * tabs: kept when it already was one, otherwise the layout's first tab.
   */
  lemma SetUiModeResyncsFocus(s: Snapshot, key: Key)
    ensures Perform(s, SetUiMode, key).0.uiMode == FromNumber(Digit(key))
    ensures FocusName(Perform(s, SetUiMode, key).0.focus) in Tabs(FromNumber(Digit(key)))
    ensures FocusName(s.focus) in Tabs(FromNumber(Digit(key))) ==> Perform(s, SetUiMode, key).0.focus == s.focus
    ensures FocusName(s.focus) !in Tabs(FromNumber(Digit(key))) ==>
      FocusName(Perform(s, SetUiMode, key).0.focus) == Tabs(FromNumber(Digit(key)))[0]
  {
    var m := FromNumber(Digit(key));
    TabsShape(m);
    assert IsFocusName(Tabs(m)[0]);
  }

  /**
   * Toggling the configuration screen saves the layout on the way in and restores it (resetting
   * the selected row) on the way out; toggling twice returns to the starting layout and never
   * touches the focus.
   */
  lemma ToggleConfigRoundTrip(s: Snapshot, key: Key)
    requires s.prevUiMode != Config
    ensures s.uiMode != Config ==>
      Perform(s, ToggleConfig, key).0 == s.(prevUiMode := s.uiMode, uiMode := Config)
    ensures s.uiMode == Config ==>
      Perform(s, ToggleConfig, key).0 == s.(uiMode := s.prevUiMode, currentObjIndex := 0)
    ensures Perform(Perform(s, ToggleConfig, key).0, ToggleConfig, key).0.uiMode == s.uiMode
    ensures Perform(Perform(s, ToggleConfig, key).0, ToggleConfig, key).0.focus == s.focus
    ensures Perform(s, ToggleConfig, key).0.prevUiMode != Config
  {
  }

  /**
   * A focus move made on the configuration screen survives leaving it: the move lands on
   * `Title` whatever the focus was, and toggling back restores the layout but not the focus, so
   * on a layout without a title pane the focus ends outside the layout's tabs.
   */
  lemma ConfigDetourLosesFocus(s: Snapshot, key: Key)
    requires s.uiMode != Config
    ensures Perform(Perform(Perform(s, ToggleConfig, key).0, NextFocus, key).0, ToggleConfig, key).0 ==
            s.(prevUiMode := s.uiMode, focus := Focus.Title, currentObjIndex := 0)
    ensures s.uiMode in {Zen, UiMode.Help, UiMode.Log, HelpLog} ==>
            FocusName(Perform(Perform(Perform(s, ToggleConfig, key).0, NextFocus, key).0, ToggleConfig, key).0.focus)
              !in Tabs(s.uiMode)
  {
    ConfigNavigation(s.focus);
  }

  /** `GoUp` and `GoDown` only raise their flag on the configuration screen. */
  lemma MoveFlagsOnlyInConfig(s: Snapshot, key: Key)
    ensures Perform(s, GoUp, key).0 == if s.uiMode == Config then s.(goUp := true) else s
    ensures Perform(s, GoDown, key).0 == if s.uiMode == Config then s.(goDown := true) else s
  {
  }

  /**
   * A focus move replaces the focus and nothing else, and on every layout that lists foci it
   * stays within the layout's tabs.
   */
  lemma FocusMovesStayInLayout(s: Snapshot, key: Key)
    requires s.uiMode != Config && FocusName(s.focus) in Tabs(s.uiMode)
    ensures Perform(s, NextFocus, key) == (s.(focus := Next(s.focus, Tabs(s.uiMode))), Continue)
    ensures Perform(s, PreviousFocus, key) == (s.(focus := Prev(s.focus, Tabs(s.uiMode))), Continue)
    ensures FocusName(Perform(s, NextFocus, key).0.focus) in Tabs(s.uiMode)
    ensures FocusName(Perform(s, PreviousFocus, key).0.focus) in Tabs(s.uiMode)
    ensures Perform(Perform(s, NextFocus, key).0, PreviousFocus, key).0 == s
  {
    ModeRoundTrip(s.uiMode, s.focus);
  }

  /** The saved layout is never the configuration screen, whatever key arrives. */
  lemma StepKeepsSavedMode(s: Snapshot, key: Key, text: string)
    requires Wired(s.actions) && s.prevUiMode != Config
    ensures Step(s, key, text).0.prevUiMode != Config
    ensures Step(s, key, text).0.actions == s.actions
  {
    if s.state != UserInput {
      match Find(s.actions, key)
      case None =>
      case Some(a) => StepResolved(s, key, text, a);
    }
  }

  /** Outside `UserInput`, a key bound in the contextual set performs its action. */
  lemma StepResolved(s: Snapshot, key: Key, text: string, a: Action)
    requires Wired(s.actions) && s.state != UserInput && Find(s.actions, key) == Some(a)
    ensures a != Action.Escape && a != Action.Enter
    ensures Step(s, key, text) == Perform(s, a, key)
    ensures Perform(s, a, key).0.prevUiMode == (if a == ToggleConfig && s.uiMode != Config then s.uiMode else s.prevUiMode)
    ensures Perform(s, a, key).0.actions == s.actions
  {
  }

  /** `App`: the application object whose fields `do_action` updates in place. */
  class App {
    var actions: Actions
    var isLoading: bool
    var state: AppState
    var focus: Focus
    var uiMode: UiMode
    var goUp: bool
    var goDown: bool
    var currentObjIndex: nat
    var currentUserInput: string
    var prevUiMode: UiMode
    /** The intents delivered to the I/O worker's channel, oldest first. */
    var sent: seq<IoEvent>

    function Model(): Snapshot
      reads this
    {
      Snapshot(actions, isLoading, state, focus, uiMode, goUp, goDown, currentObjIndex,
               currentUserInput, prevUiMode)
    }

    /** The contextual set has an arm for every action, and the saved layout is not `Config`. */
    ghost predicate Valid()
      reads this
    {
      Wired(actions) && prevUiMode != Config
    }

    /**
     * `App::new`: only `Quit` is bound until the application is initialized. The default layout
     * is read from the configuration, which is not part of this model; it is a parameter.
     */
    constructor (defaultUiMode: UiMode)
      ensures Valid()
      ensures Model() == Snapshot(Actions(StartupActions), false, Init, Focus.Title, defaultUiMode,
                                  false, false, 0, "", Zen)
      ensures sent == []
    {
      var built := Build(StartupActions);
      InstalledSetsConflictFree();
      actions := built.actions;
      isLoading := false;
      state := Init;
      focus := Focus.Title;
      uiMode := defaultUiMode;
      goUp := false;
      goDown := false;
      currentObjIndex := 0;
      currentUserInput := "";
      prevUiMode := Zen;
      sent := [];
    }

    /** `App::do_action`: handle one key; `text` is the key's printed form. */
    method DoAction(key: Key, text: string) returns (ret: AppReturn)
      requires Valid()
      modifies this
      ensures Valid()
      ensures (Model(), ret) == Step(old(Model()), key, text)
      ensures sent == old(sent)
    {
      ret := Continue;
      if state == UserInput {
        if key != Key.Enter {
          currentUserInput := currentUserInput + text;
        } else {
          state := Initialized;
        }
        return;
      }
      var found := Find(actions, key);
      match found {
        case None =>
        case Some(a) =>
          StepResolved(Model(), key, text, a);
          StepKeepsSavedMode(Model(), key, text);
          ret := Apply(a, key);
      }
    }

    /** The match arms of `App::do_action` once the key has resolved to `a`. */
    method Apply(a: Action, key: Key) returns (ret: AppReturn)
      requires a != Action.Escape && a != Action.Enter
      modifies this
      ensures (Model(), ret) == Perform(old(Model()), a, key)
      ensures sent == old(sent)
    {
      ret := Continue;
      match a {
        case Quit =>
          ret := Exit;
        case NextFocus =>
          focus := Next(focus, Tabs(uiMode));
        case PreviousFocus =>
          focus := Prev(focus, Tabs(uiMode));
        case SetUiMode =>
          var newUiMode := FromNumber(Digit(key));
          var availableTabs := Tabs(newUiMode);
          if FocusName(focus) !in availableTabs {
            focus := FromStr(availableTabs[0]);
          }
          uiMode := newUiMode;
        case ToggleConfig =>
          if uiMode == Config {
            uiMode := prevUiMode;
            currentObjIndex := 0;
          } else {
            prevUiMode := uiMode;
            uiMode := Config;
          }
        case GoUp =>
          if uiMode == Config {
            goUp := true;
          }
        case GoDown =>
          if uiMode == Config {
            goDown := true;
          }
        case TakeUserInput =>
          state := UserInput;
      }
    }

    /**
     * `App::dispatch`: raise `is_loading` and send the intent; when the send fails the flag
     * drops again. Whether the channel accepts the intent is the parameter `sendOk`.
     */
    method Dispatch(event: IoEvent, sendOk: bool)
      modifies this
      ensures Model() == old(Model()).(isLoading := sendOk)
      ensures sent == old(sent) + (if sendOk then [event] else [])
    {
      isLoading := true;
      if sendOk {
        sent := sent + [event];
      } else {
        isLoading := false;
      }
    }

    /** `App::initialized`: install the eight-action set and start resolving keys. */
    method Initialize()
      requires Valid()
      modifies this
      ensures Valid()
      ensures Model() == old(Model()).(actions := Actions(InitializedActions), state := Initialized)
      ensures sent == old(sent)
    {
      var built := Build(InitializedActions);
      InstalledSetsConflictFree();
      actions := built.actions;
      state := Initialized;
    }

    /** `App::loaded`: the worker has finished. */
    method Loaded()
      modifies this
      ensures Model() == old(Model()).(isLoading := false)
      ensures sent == old(sent)
    {
      isLoading := false;
    }

    /** `App::change_focus`. */
    method ChangeFocus(f: Focus)
      modifies this
      ensures Model() == old(Model()).(focus := f)
      ensures sent == old(sent)
    {
      focus := f;
    }

    /** `App::set_current_user_input`. */
    method SetCurrentUserInput(input: string)
      modifies this
      ensures Model() == old(Model()).(currentUserInput := input)
      ensures sent == old(sent)
    {
      currentUserInput := input;
    }
  }

  /** In the eight-action set, `c` resolves to `ToggleConfig`. */
  lemma ToggleConfigKey()
    ensures Find(Actions(InitializedActions), Char('c')) == Some(ToggleConfig)
  {
    var list := InitializedActions;
    assert list[4] == ToggleConfig;
    assert Binds(list, ToggleConfig, Char('c'));
    InstalledSetsConflictFree();
    FindUnambiguous(Actions(list), Char('c'), ToggleConfig);
  }

  /**
   * A key bound to `ToggleConfig`, pressed twice outside `UserInput`, returns to the starting
   * layout with the same focus; the first press always opens or closes the configuration screen.
   */
  lemma ToggleTwiceRestores(s: Snapshot, key: Key, text: string)
    requires Wired(s.actions) && s.state != UserInput && s.prevUiMode != Config
    requires Find(s.actions, key) == Some(ToggleConfig)
    ensures (Step(s, key, text).0.uiMode == Config) == (s.uiMode != Config)
    ensures Step(Step(s, key, text).0, key, text).0.uiMode == s.uiMode
    ensures Step(Step(s, key, text).0, key, text).0.focus == s.focus
  {
    StepResolved(s, key, text, ToggleConfig);
    var t := Step(s, key, text).0;
    StepResolved(t, key, text, ToggleConfig);
    ToggleConfigRoundTrip(s, key);
  }
}
