# rust_kanban interaction core, in Dafny

This project models the interaction core of rust_kanban, a terminal kanban board manager.
The core decides which screen is showing, which region has the focus, how a key becomes an
action, and how the command palette finds, refreshes and runs commands. It also models the pieces
of list and arithmetic logic that the renderer embeds: the mouse hit test, the sliding window
over an input box, the terminal-size check, the palette's row budget, the palette housekeeping,
which toasts are drawn, and how tags and comments are packed into lines.

Modules, one per source file:

- `Wrappers` (`wrappers.dfy`): `Option` and `Result`.
- `Bindings` (`bindings.dfy`, for `src/app/actions.rs`) covers the closed `Action` enumeration,
  its key chords and labels, and the contextual action set.
  - `Find` is the lookup.
  - `Build` is the construction. It panics, carrying every conflicting chord, when a chord is bound twice.
- `States` (`states.dfy`, for `src/app/state.rs`) covers the layouts (`UiMode`), their tab lists
  and the cyclic `Focus` navigation. It also holds the `AppState` enumeration.
- `Application` (`application.dfy`, for `src/app/mod.rs`) holds the class `App`, whose methods
  update its fields in place. Each method is proved against the pure transition function
  `Step`/`Perform` on a snapshot of those fields. The lemmas about that function state what the
  input machine promises.
- `Widgets` (`widgets.dfy`, for `src/ui/widgets.rs`) covers the palette command table, toasts and
  their expiry, the palette refresh and `handle_command`.
  - This file is written against a later `App` than `mod.rs` defines, so it has its own closed
    `UiMode`, `Focus`, `PopupMode` and `AppStatus`.
  - Its own class `App` has methods proved against the functions `Arm`, `Handle` and `Refresh`.
- `UiHelper` (`ui_helper.dfy`, for `src/ui/ui_helper.rs`) holds the blocks lifted out of the
  render functions.
  - Loops stay loops: the toast-selection push/pop loops and the tag-packing loop are methods.
  - The palette housekeeping is a method of the class `PaletteView`.

Rust's unsigned subtractions that can underflow (`usize`, `u16`) are modelled with `Option`, where
`None` is the underflow: `Sub`, `Allot`, `RowBudget` and `PaletteMaxHeight`.

## Model

| member | source | states |
|---|---|---|
| Bindings.ActionOrderComplete | src/app/actions.rs:24-38 | The iterator lists all ten actions once each, in declaration order; `Rank` is each action's index in it |
| Bindings.KeysWellFormed | src/app/actions.rs:41-57 | Every action binds at least one chord and lists no chord twice |
| Bindings.LabelInjective | src/app/actions.rs:61-77 | Distinct actions have distinct display labels |
| Bindings.FirstIndex | src/app/actions.rs:86-88 | The filter/find chain: the first index whose action is in the set and binds the chord, and None exactly when no such action exists |
| Bindings.Find | src/app/actions.rs:85-89 | The result is in the set and binds the key; no binder in the set comes earlier in declaration order; None iff no action of the set binds the key |
| Bindings.FindUnambiguous | src/app/actions.rs:85-89 | In a conflict-free set, `find(k) == Some(a)` iff `a` is in the set and binds `k` |
| Bindings.Build | src/app/actions.rs:104-135 | Construction succeeds iff no chord is bound twice. On success the stored list is the input unchanged. On panic the payload is exactly `Conflicts(input)`: every chord bound more than once, each with its binders |
| Bindings.AddBindings | src/app/actions.rs:108-115 | The inner loop pushes the action onto the vector of each of its chords, creating missing vectors; the map afterwards holds exactly the binders of the list so far |
| Bindings.ErrorsAreConflicts | src/app/actions.rs:117-131 | Filtering the final map to vectors longer than one gives exactly the conflict payload, which is empty iff the list is conflict free |
| Bindings.ConflictsExactly | src/app/actions.rs:117-128 | A chord is in the payload iff it has more than one binder, and then it carries all of them, so no conflict is left out |
| Bindings.NoConflictsIff | src/app/actions.rs:129-131 | The panic happens iff some chord is bound twice |
| Bindings.ConflictFreeIffDisjoint | src/app/actions.rs:105-131 | "No chord bound twice" is the same as "no two entries share a chord" |
| Bindings.DuplicateActionConflicts | src/app/actions.rs:104-131 | Listing one action twice puts every chord of that action into the conflict payload |
| Bindings.DistinctIsDisjoint | src/app/actions.rs:41-57 | The chord lists of different actions are disjoint, so a list of distinct actions never conflicts |
| Bindings.InstalledSetsConflictFree | src/app/mod.rs:176-186 | The one-action startup set and the eight-action set installed on initialization both build without panicking |
| Bindings.FindByKeyScenario | src/app/actions.rs:143-147 | With `[Quit, NextFocus]`, `Ctrl('c')` resolves to `Quit` |
| Bindings.QuitNextFocusBuilds | src/app/actions.rs:144 | `[Quit, NextFocus]` builds without panicking |
| Bindings.FindByKeyNotFoundScenario | src/app/actions.rs:150-154 | With `[Quit, NextFocus]`, `Alt('w')` is unbound |
| Bindings.CreateFromVecScenario | src/app/actions.rs:157-164 | `[Quit, NextFocus, PreviousFocus]` builds without panicking |
| Bindings.ConflictKeyScenario | src/app/actions.rs:168-177 | `[Quit, Quit, NextFocus, NextFocus, NextFocus]` panics |
| States.ModeLabelInjective | src/app/state.rs:18-30 | Distinct layouts have distinct labels |
| States.FromNumber | src/app/state.rs:32-47 | 1..8 select the eight layouts in order; every other number gives `Title`; `Config` is never the result |
| States.FromNumberBijective | src/app/state.rs:32-47 | Every layout but `Config` has exactly one number key |
| States.TabsShape | src/app/state.rs:49-61 | Every tab list is non-empty. `Config`'s list is exactly `["Config"]`; every other list names foci without repetition and contains `Body` |
| States.FocusNameInjective | src/app/state.rs:96-103 | Distinct foci have distinct names |
| States.FromStr | src/app/state.rs:144-152 | The result is the focus of that name, or `Title` for a string that names no focus |
| States.FromStrRoundTrip | src/app/state.rs:144-152 | `from_str(f.current()) == f` for every focus |
| States.Position | src/app/state.rs:106 | `position` gives the first index holding the name, and None iff the name is absent |
| States.StartIndex | src/app/state.rs:105-111 | The starting index lies inside the list and holds the focus when the focus is present |
| States.NextIsSuccessor | src/app/state.rs:104-142 | Over a list of foci holding the focus at `i`, `next` lands on entry `(i+1) mod len`, and `prev` lands on `i-1`, or on `len-1` when `i` is 0 |
| States.NextPrevRoundTrip | src/app/state.rs:104-142 | Over a duplicate-free list of foci that holds the focus, `prev(next(f)) == f` and `next(prev(f)) == f` |
| States.ModeRoundTrip | src/app/state.rs:104-142 | For every layout but `Config` and every focus it lists, both round trips hold and both steps stay in the layout |
| States.AbsentFocusStartsAtZero | src/app/state.rs:106-111 | A focus missing from the list navigates as if it stood at index 0 |
| States.ConfigNavigation | src/app/state.rs:113-119 | In `Config`, `next` and `prev` both give `Title` from every focus |
| States.FullLayoutScenario | src/app/state.rs:104-120 | In `TitleHelpLog`, from `Body`, three `next` steps give Help, Log, then Title |
| Application.Digit | src/app/mod.rs:107-108 | The n-th chord bound to `SetUiMode` (`1` to `8`) reads as n, so it selects the n-th numbered layout |
| Application.UserInputOnlyBuffers | src/app/mod.rs:78-88 | In `UserInput` no key is resolved, not even `q`. A non-Enter key is appended to the buffer, Enter switches to `Initialized`, and the result is `Continue` |
| Application.ExitOnlyOnQuit | src/app/mod.rs:89-149 | `Exit` is returned iff the machine is not typing and the key resolves to `Quit`; exiting changes no field |
| Application.UnboundKeyIsNoop | src/app/mod.rs:146-149 | An unbound key changes nothing and returns `Continue` |
| Application.SetUiModeResyncsFocus | src/app/mod.rs:107-117 | The new layout is `from_number(digit)` and the focus is one of its tabs: unchanged when it was already one, otherwise the first tab |
| Application.ToggleConfigRoundTrip | src/app/mod.rs:118-127 | Entering `Config` saves the layout. Leaving restores it and zeroes `current_obj_index`. Two toggles restore the layout and never touch the focus |
| Application.ConfigDetourLosesFocus | src/app/mod.rs:99-126 | Entering the configuration screen, moving the focus and leaving again restores the layout with the focus on `Title`, which is outside the tabs of Zen, Help, Log and HelpLog |
| Application.MoveFlagsOnlyInConfig | src/app/mod.rs:128-139 | `GoUp`/`GoDown` raise their flag only in `Config`, and otherwise change nothing |
| Application.FocusMovesStayInLayout | src/app/mod.rs:99-106 | Focus moves change only the focus, keep it within the layout's tabs, and `PreviousFocus` undoes `NextFocus` |
| Application.StepResolved | src/app/mod.rs:89-145 | Outside `UserInput`, a bound key performs its action. Resolved actions are never `Escape`/`Enter`, and only entering `Config` changes the saved layout |
| Application.StepKeepsSavedMode | src/app/mod.rs:76-151 | No key makes the saved layout `Config` or changes the contextual set |
| Application.ToggleConfigKey | src/app/mod.rs:176-186 | In the eight-action set, `c` resolves to `ToggleConfig` |
| Application.ToggleTwiceRestores | src/app/mod.rs:118-127 | Pressing the toggle key twice returns to the starting layout with the same focus; the first press enters `Config` iff the layout was not `Config` |
| Application.App.constructor | src/app/mod.rs:48-73 | A new `App` binds only `Quit`, is in `Init`, focuses `Title`, is not loading, has an empty buffer and has `Zen` saved |
| Application.App.DoAction | src/app/mod.rs:76-151 | The new fields and the return value are `Step` of the old fields; the class invariant is kept |
| Application.App.Apply | src/app/mod.rs:90-145 | The match arms update the fields as `Perform` says |
| Application.App.Dispatch | src/app/mod.rs:154-161 | `is_loading` ends true iff the send succeeded, and the intent is delivered iff it did |
| Application.App.Initialize | src/app/mod.rs:174-188 | Installs the eight-action set and switches to `Initialized`; nothing else changes |
| Application.App.Loaded | src/app/mod.rs:194-196 | Clears `is_loading` and nothing else |
| Application.App.ChangeFocus | src/app/mod.rs:202-204 | Sets the focus and nothing else |
| Application.App.SetCurrentUserInput | src/app/mod.rs:206-210 | Replaces the buffer and nothing else |
| Widgets.All | src/ui/widgets.rs:368-393 | 14 distinct commands in the release order, then `DebugMenu` last (15) in a debug build only; a command is listed iff it is not `DebugMenu` or the build is a debug build |
| Widgets.ExactRoundTrip | src/ui/widgets.rs:419-459 | With exact matching, a string names a command iff it is that command's label |
| Widgets.ExactUnknown | src/ui/widgets.rs:419-459 | With exact matching, a string that is no label names no command |
| Widgets.CaseInsensitiveTable | src/ui/widgets.rs:419-459 | With lower-case matching, a string names a command iff its lower-cased form is that command's lower-cased label |
| Widgets.CaseInsensitiveRoundTrip | src/ui/widgets.rs:419-459 | With lower-case matching, every label is accepted both as written and lower-cased |
| Widgets.ToastKindsDistinct | src/ui/widgets.rs:64-80 | Each toast kind has its own title and its own colour |
| Widgets.RemoveExpired | src/ui/widgets.rs:101-126 | The reverse loop, colouring each toast and removing the expired ones in place, ends with exactly the list and panic flag of `Expiry` |
| Widgets.ExpiryPrefix | src/ui/widgets.rs:101-126 | One more toast from the back: a toast whose colouring panics stops the loop with the list as it stands; any other is kept unless expired |
| Widgets.ExpiryMeaning | src/ui/widgets.rs:103-117 | The loop panics iff some toast is past its fade-in with a duration shorter than the fade-out; without a panic it leaves exactly the unexpired toasts, in order |
| Widgets.LiveMembers | src/ui/widgets.rs:123-125 | A toast survives iff it has not outlived its duration |
| Widgets.LiveAppend | src/ui/widgets.rs:101-126 | Expiry distributes over concatenation, so survivors keep their relative order |
| Widgets.LiveIdempotent | src/ui/widgets.rs:101-126 | Expiring twice is expiring once, and a list with no expired toast is unchanged |
| Widgets.App.ExpireToasts | src/ui/widgets.rs:99-126 | The toast list becomes what the loop leaves, the panic is reported, and nothing else changes |
| Widgets.NewPaletteCorpus | src/ui/widgets.rs:188-199 | A new palette has no results and offers `all()`, and each corpus entry maps back to its command under lower-case matching |
| Widgets.RecognizedMembers | src/ui/widgets.rs:139-144 | A command is among the mapped hits iff some hit names it |
| Widgets.Recognize | src/ui/widgets.rs:139-144 | The loop and `filter_map` yield exactly the recognized hits, in hit order |
| Widgets.Results | src/ui/widgets.rs:146-150 | The results are never empty: the recognized hits, or `all()` when there are none |
| Widgets.ChangedIsInequality | src/ui/widgets.rs:152-169 | "No previous results, another length, or a differing entry" is exactly inequality of the result lists |
| Widgets.ResultsDiffer | src/ui/widgets.rs:152-169 | The comparison loop reports a change iff the new results differ from the old |
| Widgets.StaleSelectionKept | src/ui/widgets.rs:170-175 | A change to a single result keeps the old selection, even one past the end of the new list |
| Widgets.RefreshResults | src/ui/widgets.rs:130-177 | With the palette closed nothing changes. With it open, the results are non-empty and hold exactly the named hits, or every available command. The selection becomes 0 iff the results changed to several entries or it was 0 already |
| Widgets.App.RefreshPalette | src/ui/widgets.rs:130-177 | The palette and the selection become `Refresh` of the old world, over the search of the lower-cased input |
| Widgets.App.Update | src/ui/widgets.rs:92-178 | It panics iff a toast's colouring panics, and then leaves the palette alone; otherwise toasts expire first, then the palette refreshes |
| Widgets.FindBoard | src/ui/widgets.rs:298-300 | A board with the id that no earlier board shares, or None iff no board carries it |
| Widgets.HandleWithoutCommand | src/ui/widgets.rs:202-213 | With no selection, no results, or an index past the results, no command runs: the status becomes `Initialized` and the result is `Continue` |
| Widgets.HandleExitsOnlyOnQuit | src/ui/widgets.rs:229-232 | `Exit` is returned iff the selected command is `Quit`, which changes nothing |
| Widgets.ArmExitsOnlyOnQuit | src/ui/widgets.rs:214-338 | Only the `Quit` arm returns `Exit` |
| Widgets.HandleStatus | src/ui/widgets.rs:201-345 | Every path but `Quit` ends in `Initialized`. No command touches the boards, the palette or the default view |
| Widgets.ArmKeepsData | src/ui/widgets.rs:214-338 | No arm changes the boards, the palette or the default view |
| Widgets.ArmEarlyContinue | src/ui/widgets.rs:269-321 | An arm that returns `Continue` early has already set `Initialized` |
| Widgets.ScreenOpenersRecordPrevious | src/ui/widgets.rs:233-253 | The screen-opening commands record the prior layout, close the popup, clear the input, and set the layout, focus and selection of the opened screen |
| Widgets.NewBoardGuard | src/ui/widgets.rs:258-268 | From a view mode the board form opens. Elsewhere the popup closes, the layout stays and an error toast is added |
| Widgets.NewCardGuard | src/ui/widgets.rs:269-285 | From a view mode with a board the card form opens. Without a board the popup closes, a toast is added and the input is kept (early return). Outside view modes the popup closes with an error toast |
| Widgets.OnlyPersistenceDispatches | src/ui/widgets.rs:254-291 | Only `SaveKanbanState` and `ResetUI` send intents, each its own; `is_loading` ends up equal to the send's success; `ResetUI` restores the default view |
| Widgets.DebugToggleTwice | src/ui/widgets.rs:327-330 | The debug command flips the debug panel, and running it twice restores it |
| Widgets.PaletteClosesOnCommand | src/ui/widgets.rs:214-338 | Every command but `Quit` closes the palette popup, except a card-status change whose card is missing |
| Widgets.App.constructor | src/ui/widgets.rs:188-199 | A new application has a fresh palette, is not loading and has sent nothing |
| Widgets.App.Dispatch | src/app/mod.rs:154-161 | The world becomes `Dispatched`: loading iff sent, and the intent is appended iff sent |
| Widgets.App.HandleCommand | src/ui/widgets.rs:201-345 | The new world and the return value are `Handle` of the old world |
| Widgets.App.Execute | src/ui/widgets.rs:214-338 | Each match arm updates the world as `Arm` says |
| UiHelper.HitTestClosed | src/ui/ui_helper.rs:4926-4938 | A point hits iff its column and row both fall within the rectangle with far edges included: the corners hit, one cell past a far edge misses |
| UiHelper.WindowFits | src/ui/ui_helper.rs:7550-7553 | A text that fits is shown whole, with the cursor unchanged |
| UiHelper.WindowSlides | src/ui/ui_helper.rs:7554-7566 | A text that does not fit is shown as a contiguous slice starting at `cursor - col` that fills the box: the box width, or one fewer when a centred window has an odd width. A cursor inside the text lands inside the slice, on the character it points at |
| UiHelper.Decimal | src/ui/ui_helper.rs:2220-2223 | `format!` of a number is a non-empty string of digits |
| UiHelper.DecimalRoundTrip | src/ui/ui_helper.rs:2220-2228 | The printed digits read back as the number |
| UiHelper.CheckSizeVerdict | src/ui/ui_helper.rs:2217-2233 | "Size OK" iff both minimums are met. A too-narrow terminal gets the width message, even when it is also too short; otherwise a too-short one gets the height message |
| UiHelper.Utf8LenBounds | src/ui/ui_helper.rs:4054 | A string's UTF-8 length lies between its character count and four times it, and equals the count iff every character is ASCII |
| UiHelper.PaletteListGating | src/ui/ui_helper.rs:4023-4094 | Card and board rows appear only for queries longer than one byte, then one per hit with its title, in order. Commands get a row per result, showing its label, or one "Command - " row per available command when there are no results |
| UiHelper.OneAccentedCharacterOpensLists | src/ui/ui_helper.rs:4052-4054 | A one-character query of two bytes (`é`) already shows the card hits |
| UiHelper.RowBudgetDefined | src/ui/ui_helper.rs:4096-4151 | No subtraction underflows iff `max_height >= 6` |
| UiHelper.RowBudgetBounds | src/ui/ui_helper.rs:4101-4151 | From six rows up, each list gets at least 2 and at most its item count plus 2. The three heights sum to at most `max_height`, and a command list that fits keeps its natural height |
| UiHelper.RowBudgetNatural | src/ui/ui_helper.rs:4101-4151 | When all three lists fit, each keeps its natural height |
| UiHelper.HousekeepingFocus | src/ui/ui_helper.rs:3857-3926 | A focused palette list with rows and no selection selects row 0. An existing selection is kept, and the other two lists' selections stay as they were. A focus outside the palette moves to the command list and sets `UserInput`, touching no selection. Afterwards the focus is always a palette focus |
| UiHelper.HousekeepingSettles | src/ui/ui_helper.rs:3857-3926 | Housekeeping settles after two frames, and after one when the focus is already in the palette |
| UiHelper.PaletteView.Housekeeping | src/ui/ui_helper.rs:3857-3926 | The view's fields become `Housekept` of the old ones |
| UiHelper.FiltersSplit | src/ui/ui_helper.rs:2968-2990 | The loading and regular filters keep exactly the toasts of their kind, and their lengths add up to the whole |
| UiHelper.SortByStartCorrect | src/ui/ui_helper.rs:2991 | `sort_by` start time permutes its input and sorts it, oldest first |
| UiHelper.SortByStartMembers | src/ui/ui_helper.rs:2991 | The sort keeps the length and exactly the toasts it was given |
| UiHelper.PopNewest | src/ui/ui_helper.rs:2992-2998 | Popping regular toasts until `max` are shown appends the newest `min(len, max - shown)` of them, newest first |
| UiHelper.FillFrom | src/ui/ui_helper.rs:3005-3013 | The refill loop keeps what was shown in front, never exceeds `max`, and adds only pool toasts |
| UiHelper.LeadingLoading | src/ui/ui_helper.rs:2975-2985 | The leading loading toasts number `min(len, max-1)` and all come from the loading toasts |
| UiHelper.LoadingFirst | src/ui/ui_helper.rs:2974-3015 | With loading toasts: the leading loading block, then the newest regular toasts newest first, then refills, never more than `max` |
| UiHelper.SelectToasts | src/ui/ui_helper.rs:2968-3023 | At most `max` toasts, all from the state. Without loading toasts, the last `max` in their original order. Otherwise `min(#loading, max-1)` loading toasts lead (all of them, in order, when they fit; otherwise the `max-1` oldest, newest first), followed by the newest regular toasts |
| UiHelper.Piece | src/ui/ui_helper.rs:3445 | A tag's drawn text `"{i+1}) {tag} "` is never empty |
| UiHelper.Pack | src/ui/ui_helper.rs:3444-3464 | The lines, concatenated, are the pieces in order. There are no lines iff there are no pieces. Only the first line can be empty, exactly when the first piece alone is too wide. Every line of several pieces is narrower than the budget. The comment loop at lines 3510-3529 is the same loop |
| UiHelper.PackLines | src/ui/ui_helper.rs:3439-3464 | The tag lines, concatenated, are the numbered tags. The first line is empty iff the first tag's text does not fit, later lines are non-empty, and multi-tag lines fit the budget |

## Left out

- Drawing is not modelled: ratatui layouts, frames, widgets, styles and scroll bars.
  `src/ui/rendering/view/load_a_save.rs` and `src/ui/rendering/popup/select_default_view.rs`
  only draw, so they are not part of this model.
- The similarity search `Corpus::search` is the parameter `search` of `RefreshPalette` and `Update`.
- Clocks become integer milliseconds (`now`, `startTime`):
  - A toast expires when `now - startTime > duration`.
  - The fade-in/fade-out colour interpolation (`lerp_between` on `f32`) is left out, so a toast keeps its kind's colour.
    Only the panic of its `Duration` subtraction is modelled (`Expiry`).
  - `TOAST_FADE_IN_TIME` and `TOAST_FADE_OUT_TIME` are the parameter `fade`, because their values are not part of this model.
- Concurrency and channels become parameters:
  - tokio, `async`, the `Arc<Mutex<App>>` and the channel send are not modelled.
  - `dispatch`'s send outcome is the boolean `sendOk`.
  - Delivered intents are recorded in the field `sent`.
- Other I/O becomes parameters or is dropped:
  - `export_kanban_to_json` is the `exported` result in `Env`.
  - The configured default layout of `App::new` is a constructor parameter.
  - Logging (`debug!`, `info!`, `warn!`, `error!`) is left out.
- The key type's `to_string` and `to_digit` are not part of this model:
  - `DoAction` takes the key's printed text as the parameter `text`.
  - `Digit` gives a digit key's value and 0 for any other key.
- The panic message of `Build` is the map from each conflicting chord to its binders, not the
  joined text. The hash map's iteration order leaves the text's order unspecified.
- `Escape` and `Enter` have no arm in `do_action`'s match. `App.Valid` keeps them out of the
  contextual set; `Perform` requires that.
- The getters `actions()`, `state()`, `is_loading()` and `current_focus()` read fields of the
  class directly. `set_boards` and `ToastWidget::new_with_title` are not modelled.
- `send_info_toast` and `send_error_toast` are not shown. They are modelled as appending a toast
  of the configured duration, started now (`WithToast`).
- `UiMode::view_modes` is not shown. It is taken to be the eight layouts (`IsViewMode`).
- The sizes are parameters: `MAX_TOASTS_TO_DISPLAY` (as `max`, at least 1), `MIN_TERM_WIDTH`,
  `MIN_TERM_HEIGHT` and the packing budget `popup_area.width - 2`.
- Card and board search hits are not truncated to the list width; the per-character highlight of
  command rows is not modelled.
- `card_tags_per_line` is written but never read, so it is not modelled.
- Widgets.Lower: only ASCII letters are lower-cased, not all of Unicode.
- UiHelper.Pack, UiHelper.PackLines: widths count characters, while `len()` counts bytes. The contract also does not
  state that a line is closed only when the next piece would not fit.
- UiHelper.SlidingWindow: the source slices by byte index and computes in `u16`; the model slices
  characters with unbounded integers.
- UiHelper.MouseInArea: `x + width` is unbounded here, whereas in the source it is a `u16` sum.
- UiHelper.FillFrom: states the kept prefix, the bound and where each toast comes from, not
  which loading toasts are added.
- UiHelper.SelectToasts: with loading toasts, it states the exact leading loading block and the
  regular block, but not which loading toasts fill any remaining slots.
- UiHelper.LoadingFirst: states the same blocks as SelectToasts, and no more.
- UiHelper.WindowSlides: says nothing of where a cursor past the end of the text lands.
- The navigation between the configuration screen's rows (`go_up`/`go_down` consumers) lives
  outside these files, so only the flags are modelled.

## Notes on behaviour

These are places where the code's behaviour is easy to misread. The model follows the code.

- The comment at `src/ui/widgets.rs:171` ("if lenght is > 1 select first item") selects the first
  entry only for more than one result. When the results change to a single entry, the old
  selection is kept, even if the index is then past the end (`Widgets.StaleSelectionKept`).
  `handle_command` then finds no command at that index and runs nothing
  (`Widgets.HandleWithoutCommand`).
- `update` panics on any toast whose duration is shorter than `TOAST_FADE_OUT_TIME` once it has
  faded in, because `src/ui/widgets.rs:109-110` subtracts the two `Duration`s
  (`Widgets.ExpiryMeaning`).
- The palette's card and board lists appear once the query is longer than one byte
  (`src/ui/ui_helper.rs:4054`), so a single non-ASCII character already opens them
  (`UiHelper.OneAccentedCharacterOpensLists`).
- A focus move made on the configuration screen lands on `Title`, and leaving the screen keeps
  that focus. On a layout without a title pane the focus is then outside the layout's tabs
  (`Application.ConfigDetourLosesFocus`).
- The `next`/`prev` round trip holds only for a focus that is in the layout's list
  (`States.ModeRoundTrip`). In `Config`, whose single tab is not a focus, both directions give
  `Title` (`States.ConfigNavigation`).
- The conflict payload groups the binders under each chord rather than listing pairs.
- The palette row budget underflows when `max_height < 6` (`UiHelper.RowBudgetDefined`).
  `max_height` itself underflows when the terminal is fewer than 12 rows tall, or 14 when logged
  in (`UiHelper.PaletteMaxHeight`).
- Two palette commands do not close the palette the way the others do:
  - `NewCard` without a current board returns early, so the typed input is not cleared.
  - `ChangeCurrentCardStatus` with a missing card leaves the palette open behind its error toast.
