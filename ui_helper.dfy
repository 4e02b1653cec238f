/**
 * The arithmetic and list logic embedded in the renderer of `src/ui/ui_helper.rs`: the mouse
 * hit test, the sliding window over an input box, the terminal-size check, the command-palette
 * row budget, list gating and housekeeping, which toasts are drawn, and the packing of numbered
 * tags and comments into lines. Drawing itself is not part of this model.
 */
module UiHelper {
  import opened Wrappers
  import opened Widgets

  // ---------------------------------------------------------------------------------------------
  // Mouse hit test

  /** A ratatui `Rect`: top-left corner and size, in cells. */
  datatype Rect = Rect(x: nat, y: nat, width: nat, height: nat)

  /** `check_if_mouse_is_in_area`: both coordinates lie within the rectangle, far edges included. */
  function MouseInArea(mx: nat, my: nat, r: Rect): bool {
    mx >= r.x && mx <= r.x + r.width && my >= r.y && my <= r.y + r.height
  }

  /**
   * The hit area is the closed rectangle: all four corners hit, a point one cell past a far edge
   * misses, and a point hits iff its column and its row each fall within the rectangle.
   */
  lemma HitTestClosed(r: Rect, mx: nat, my: nat)
    ensures MouseInArea(r.x, r.y, r) && MouseInArea(r.x + r.width, r.y + r.height, r)
    ensures MouseInArea(r.x + r.width, r.y, r) && MouseInArea(r.x, r.y + r.height, r)
    ensures !MouseInArea(r.x + r.width + 1, my, r) && !MouseInArea(mx, r.y + r.height + 1, r)
    ensures MouseInArea(mx, my, r) <==>
      MouseInArea(mx, r.y, r) && MouseInArea(r.x, my, r)
  {
  }

  // ---------------------------------------------------------------------------------------------
  // Sliding window over a text box

  /**
   * `get_sliding_window_over_text`: the part of `text` shown in a box `width` cells wide with the
   * cursor at `cursor`, and the cursor's column inside that part. Lengths count characters.
   */
  function SlidingWindow(text: string, cursor: nat, width: nat): (string, nat) {
    var n := |text|;
    if n <= width then (text, cursor)
    else
      var (start, end) :=
        if cursor < width / 2 then (0, width)
        else if cursor > n - width / 2 then (n - width, n)
        else (cursor - width / 2, cursor + width / 2);
      (text[start..end], cursor - start)
  }

  /** A text that fits is shown whole, with the cursor where it is. */
  lemma WindowFits(text: string, cursor: nat, width: nat)
    requires |text| <= width
    ensures SlidingWindow(text, cursor, width) == (text, cursor)
  {
  }

  /**
   * A text that does not fit is shown as one contiguous slice that fills the box (`width`
   * characters, one fewer when a centred window has an odd width), and a cursor inside the text
   * lands inside the slice, on the character it points at.
   */
  lemma WindowSlides(text: string, cursor: nat, width: nat)
    requires |text| > width
    ensures var (shown, col) := SlidingWindow(text, cursor, width);
      2 * (width / 2) <= |shown| <= width && col <= cursor &&
      shown == text[cursor - col..cursor - col + |shown|] &&
      (cursor <= |text| ==> col <= |shown|) &&
      (cursor < |text| && width >= 2 ==> col < |shown| && shown[col] == text[cursor])
  {
    var n := |text|;
    if cursor < width / 2 {
    } else if cursor > n - width / 2 {
    } else {
      assert cursor + width / 2 <= n;
    }
  }

  // ---------------------------------------------------------------------------------------------
  // Terminal size check

  /** The character of one decimal digit. */
  function DigitChar(d: nat): char
    requires d < 10
  {
    ['0', '1', '2', '3', '4', '5', '6', '7', '8', '9'][d]
  }

  /** The value of one decimal digit character. */
  function DigitValue(c: char): nat {
    if '0' <= c <= '9' then c as nat - '0' as nat else 0
  }

  /** `format!("{}", n)` for a natural number. */
  function Decimal(n: nat): (s: string)
    ensures |s| > 0
    ensures forall i :: 0 <= i < |s| ==> '0' <= s[i] <= '9'
  {
    if n < 10 then [DigitChar(n)] else Decimal(n / 10) + [DigitChar(n % 10)]
  }

  /** Reading a string of decimal digits back as a number. */
  function ParseDecimal(s: string): nat {
    if s == [] then 0 else 10 * ParseDecimal(s[..|s| - 1]) + DigitValue(s[|s| - 1])
  }

  /** Formatting loses nothing: the digits read back as the number. */
  lemma {:induction false} DecimalRoundTrip(n: nat)
    ensures ParseDecimal(Decimal(n)) == n
  {
    var s := Decimal(n);
    if n >= 10 {
      DecimalRoundTrip(n / 10);
      assert s[..|s| - 1] == Decimal(n / 10);
    }
  }

  /** The message `check_size` returns when the terminal is too narrow. */
  function WidthMessage(minWidth: nat, width: nat): string {
    "For optimal viewing experience, Terminal width should be >= " + Decimal(minWidth) +
    ", (current width " + Decimal(width) + ")"
  }

  /** The message `check_size` returns when the terminal is too short. */
  function HeightMessage(minHeight: nat, height: nat): string {
    "For optimal viewing experience, Terminal height should be >= " + Decimal(minHeight) +
    ", (current height " + Decimal(height) + ")"
  }

  /**
   * `check_size`. The minimum sizes are configuration constants this model does not fix, so
   * they are parameters.
   */
  function CheckSize(r: Rect, minWidth: nat, minHeight: nat): string {
    if r.width < minWidth then WidthMessage(minWidth, r.width)
    else if r.height < minHeight then HeightMessage(minHeight, r.height)
    else "Size OK"
  }

  /**
   * The size is reported OK exactly when both minimums are met; a terminal too small in both
   * directions is reported by its width.
   */
  lemma CheckSizeVerdict(r: Rect, minWidth: nat, minHeight: nat)
    ensures CheckSize(r, minWidth, minHeight) == "Size OK" <==> r.width >= minWidth && r.height >= minHeight
    ensures r.width < minWidth ==> CheckSize(r, minWidth, minHeight) == WidthMessage(minWidth, r.width)
    ensures r.width >= minWidth && r.height < minHeight ==>
      CheckSize(r, minWidth, minHeight) == HeightMessage(minHeight, r.height)
  {
    assert |WidthMessage(minWidth, r.width)| > |"Size OK"|;
    assert |HeightMessage(minHeight, r.height)| > |"Size OK"|;
  }

  // ---------------------------------------------------------------------------------------------
  // Command palette: list gating, row budget, housekeeping

  /** A card or board search hit: its title and its id. */
  datatype Hit = Hit(title: string, id: nat)

  /** The number of bytes UTF-8 spends on one character. */
  function Utf8Width(c: char): (w: nat)
    ensures 1 <= w <= 4
    ensures w == 1 <==> (c as int) < 0x80
  {
    if (c as int) < 0x80 then 1
    else if (c as int) < 0x800 then 2
    else if (c as int) < 0x1_0000 then 3
    else 4
  }

  /** The length in bytes of a string's UTF-8 encoding (Rust's `String::len`). */
  function Utf8Len(s: string): nat {
    if s == [] then 0 else Utf8Width(s[0]) + Utf8Len(s[1..])
  }

  /**
   * A string's byte length lies between its character count and four times that count, and it
   * equals the character count exactly when every character is ASCII.
   */
  lemma {:induction false} Utf8LenBounds(s: string)
    ensures |s| <= Utf8Len(s) <= 4 * |s|
    ensures Utf8Len(s) == |s| <==> forall i :: 0 <= i < |s| ==> (s[i] as int) < 0x80
  {
    if s != [] {
      Utf8LenBounds(s[1..]);
      assert forall i :: 1 <= i < |s| ==> s[i] == s[1..][i - 1];
    }
  }

  /**
   * The three result lists `render_command_palette` draws, as the texts of their rows: the
   * command results (or, when there are none, every available command prefixed `Command - `), and
   * the card and board hits only once the query is longer than one byte.
   */
  function PaletteLists(query: string, commandResults: Option<seq<Command>>, available: seq<Command>,
                        cardResults: Option<seq<Hit>>, boardResults: Option<seq<Hit>>)
    : (seq<string>, seq<string>, seq<string>)
  {
    var commands :=
      if commandResults.Some? then seq(|commandResults.value|, i requires 0 <= i < |commandResults.value| => Label(commandResults.value[i]))
      else seq(|available|, i requires 0 <= i < |available| => "Command - " + Label(available[i]));
    var cards :=
      if cardResults.Some? && query != [] && Utf8Len(query) > 1 then seq(|cardResults.value|, i requires 0 <= i < |cardResults.value| => cardResults.value[i].title)
      else [];
    var boards :=
      if boardResults.Some? && query != [] && Utf8Len(query) > 1 then seq(|boardResults.value|, i requires 0 <= i < |boardResults.value| => boardResults.value[i].title)
      else [];
    (commands, cards, boards)
  }

  /**
   * A query of at most one byte shows no card or board rows; a longer one shows every hit, in
   * order. The command list always has a row per result, or a row per available command when
   * there are no results.
   */
  lemma PaletteListGating(query: string, commandResults: Option<seq<Command>>, available: seq<Command>,
                          cardResults: Option<seq<Hit>>, boardResults: Option<seq<Hit>>)
    ensures var (commands, cards, boards) := PaletteLists(query, commandResults, available, cardResults, boardResults);
      (Utf8Len(query) <= 1 ==> cards == [] && boards == []) &&
      (Utf8Len(query) > 1 && cardResults.Some? ==>
         |cards| == |cardResults.value| &&
         forall i :: 0 <= i < |cards| ==> cards[i] == cardResults.value[i].title) &&
      (Utf8Len(query) > 1 && boardResults.Some? ==>
         |boards| == |boardResults.value| &&
         forall i :: 0 <= i < |boards| ==> boards[i] == boardResults.value[i].title) &&
      (commandResults.Some? ==>
         |commands| == |commandResults.value| &&
         forall i :: 0 <= i < |commands| ==> commands[i] == Label(commandResults.value[i])) &&
      (commandResults.None? ==>
         |commands| == |available| &&
         forall i :: 0 <= i < |available| ==> commands[i] == "Command - " + Label(available[i]))
  {
  }

  /**
   * The gate counts bytes, not characters: a single non-ASCII character such as `é` is two
   * bytes long and already lets the card and board hits through.
   */
  lemma OneAccentedCharacterOpensLists(cardResults: seq<Hit>)
    ensures PaletteLists("é", None, [], Some(cardResults), None).1 ==
            seq(|cardResults|, i requires 0 <= i < |cardResults| => cardResults[i].title)
  {
    assert Utf8Len("é") == 2 by {
      assert "é"[1..] == [];
    }
  }

  /** `usize` subtraction: `None` where the source would underflow. */
  function Sub(a: nat, b: nat): Option<nat> {
    if a >= b then Some(a - b) else None
  }

  /** The minimum height of each palette list, borders included. */
  const MinHeight: nat := 2

  /**
   * The height given to one palette list: its natural height when the running total still
   * fits, otherwise what is left of `maxHeight` after `reserved` rows, but never below the
   * minimum. `None` is an underflow of the source's unsigned subtraction.
   */
  function Allot(natural: nat, fitsWith: nat, maxHeight: nat, reserved: nat): Option<nat> {
    if natural >= MinHeight then
      if fitsWith < maxHeight then Some(natural)
      else
        match Sub(maxHeight, reserved)
        case None => None
        case Some(rest) => Some(if rest < MinHeight then MinHeight else rest)
    else Some(MinHeight)
  }

  /**
   * The row budget of `render_command_palette`: heights for the command, card and board lists
   * holding `c`, `d` and `b` rows (each plus two border rows) within `maxHeight` rows.
   */
  function RowBudget(maxHeight: nat, c: nat, d: nat, b: nat): Option<(nat, nat, nat)> {
    var cn, dn, bn := c + 2, d + 2, b + 2;
    match Allot(cn, cn + 2 * MinHeight, maxHeight, 2 * MinHeight)
    case None => None
    case Some(ch) =>
      match Allot(dn, ch + dn + MinHeight, maxHeight, ch + MinHeight)
      case None => None
      case Some(dh) =>
        match Allot(bn, ch + dh + bn, maxHeight, ch + dh + MinHeight)
        case None => None
        case Some(bh) => Some((ch, dh, bh))
  }

  /**
   * `max_height` of the palette: the terminal height less the rows around the palette (two more
   * when a user is logged in). `None` is a `u16` underflow.
   */
  function PaletteMaxHeight(height: nat, loggedIn: bool): Option<nat> {
    Sub(height, if loggedIn then 14 else 12)
  }

  /** The budget never underflows from six rows up, and always underflows below six. */
  lemma {:induction false} RowBudgetDefined(maxHeight: nat, c: nat, d: nat, b: nat)
    ensures RowBudget(maxHeight, c, d, b).Some? <==> maxHeight >= 6
  {
    var cn, dn, bn := c + 2, d + 2, b + 2;
    var ch := Allot(cn, cn + 4, maxHeight, 4);
    if maxHeight >= 6 {
      assert ch.Some? && ch.value <= maxHeight - 4;
      var dh := Allot(dn, ch.value + dn + 2, maxHeight, ch.value + 2);
      assert dh.Some? && ch.value + dh.value <= maxHeight - 2;
    } else if maxHeight >= 4 {
      assert ch == Some(2);
      var dh := Allot(dn, 2 + dn + 2, maxHeight, 4);
      assert dh == Some(2);
    }
  }

  /**
   * Every list gets at least its two border rows and at most its natural height; a list that
   * fits keeps its natural height; and the three heights together stay within `maxHeight`.
   */
  lemma {:induction false} RowBudgetBounds(maxHeight: nat, c: nat, d: nat, b: nat)
    requires maxHeight >= 6
    ensures var r := RowBudget(maxHeight, c, d, b);
      r.Some? &&
      2 <= r.value.0 <= c + 2 && 2 <= r.value.1 <= d + 2 && 2 <= r.value.2 <= b + 2 &&
      r.value.0 + r.value.1 + r.value.2 <= maxHeight &&
      (c + 2 + 4 < maxHeight ==> r.value.0 == c + 2)
  {
    RowBudgetDefined(maxHeight, c, d, b);
    var ch := Allot(c + 2, c + 6, maxHeight, 4).value;
    assert ch <= maxHeight - 4 && ch <= c + 2;
    var dh := Allot(d + 2, ch + d + 4, maxHeight, ch + 2).value;
    assert ch + dh <= maxHeight - 2 && dh <= d + 2;
  }

  /** A list whose rows fit beside the others keeps its natural height. */
  lemma RowBudgetNatural(maxHeight: nat, c: nat, d: nat, b: nat)
    requires c + d + b + 6 < maxHeight
    ensures RowBudget(maxHeight, c, d, b) == Some((c + 2, d + 2, b + 2))
  {
  }

  /** The palette fields the housekeeping at the top of `render_command_palette` reads and writes. */
  datatype PaletteFrame = PaletteFrame(
    focus: Focus,
    appStatus: AppStatus,
    commandSelected: Option<nat>,
    cardSelected: Option<nat>,
    boardSelected: Option<nat>,
    commandResults: Option<seq<Command>>,
    cardResults: Option<seq<Hit>>,
    boardResults: Option<seq<Hit>>)

  /** The three foci that belong to the palette. */
  predicate PaletteFocus(f: Focus) {
    f == CommandPaletteCommand || f == CommandPaletteCard || f == CommandPaletteBoard
  }

  /** The selection of a list after housekeeping: the first row when none is selected and rows exist. */
  function SelectFirst<T>(sel: Option<nat>, results: Option<seq<T>>): Option<nat> {
    if sel.None? && results.Some? && |results.value| > 0 then Some(0) else sel
  }

  /**
   * The housekeeping of `render_command_palette`: the focused palette list gets a selection when
   * it has rows and none is selected; a focus outside the palette moves to the command list and
   * puts the application into `UserInput`.
   */
  function Housekept(v: PaletteFrame): PaletteFrame {
    match v.focus
    case CommandPaletteCommand => v.(commandSelected := SelectFirst(v.commandSelected, v.commandResults))
    case CommandPaletteCard => v.(cardSelected := SelectFirst(v.cardSelected, v.cardResults))
    case CommandPaletteBoard => v.(boardSelected := SelectFirst(v.boardSelected, v.boardResults))
    case _ => v.(appStatus := UserInput, focus := CommandPaletteCommand)
  }

  /**
   * After one pass the focus is a palette focus, and a focus that was outside the palette leaves
   * the application in `UserInput` with the selections untouched. A pass on a palette focus keeps
   * the focus and status, selects the first row of the focused list when it has rows and nothing
   * is selected, keeps an existing selection, and leaves the other two lists alone.
   */
  lemma HousekeepingFocus(v: PaletteFrame)
    ensures PaletteFocus(Housekept(v).focus)
    ensures !PaletteFocus(v.focus) ==>
      Housekept(v) == v.(appStatus := UserInput, focus := CommandPaletteCommand)
    ensures PaletteFocus(v.focus) ==> Housekept(v).focus == v.focus && Housekept(v).appStatus == v.appStatus
    ensures v.focus == CommandPaletteCommand && v.commandResults.Some? && |v.commandResults.value| > 0 ==>
      Housekept(v).commandSelected.Some?
    ensures v.focus == CommandPaletteCard && v.cardResults.Some? && |v.cardResults.value| > 0 ==>
      Housekept(v).cardSelected.Some?
    ensures v.focus == CommandPaletteBoard && v.boardResults.Some? && |v.boardResults.value| > 0 ==>
      Housekept(v).boardSelected.Some?
    ensures v.focus == CommandPaletteCommand ==>
      Housekept(v).cardSelected == v.cardSelected && Housekept(v).boardSelected == v.boardSelected &&
      (v.commandSelected.Some? ==> Housekept(v).commandSelected == v.commandSelected) &&
      (v.commandSelected.None? && v.commandResults.Some? && |v.commandResults.value| > 0 ==>
         Housekept(v).commandSelected == Some(0))
    ensures v.focus == CommandPaletteCard ==>
      Housekept(v).commandSelected == v.commandSelected && Housekept(v).boardSelected == v.boardSelected &&
      (v.cardSelected.Some? ==> Housekept(v).cardSelected == v.cardSelected) &&
      (v.cardSelected.None? && v.cardResults.Some? && |v.cardResults.value| > 0 ==>
         Housekept(v).cardSelected == Some(0))
    ensures v.focus == CommandPaletteBoard ==>
      Housekept(v).commandSelected == v.commandSelected && Housekept(v).cardSelected == v.cardSelected &&
      (v.boardSelected.Some? ==> Housekept(v).boardSelected == v.boardSelected) &&
      (v.boardSelected.None? && v.boardResults.Some? && |v.boardResults.value| > 0 ==>
         Housekept(v).boardSelected == Some(0))
  {
  }

  /**
   * Housekeeping settles after two frames: the first may only move the focus, the second may
   * only select a row, and from then on it changes nothing.
   */
  lemma HousekeepingSettles(v: PaletteFrame)
    ensures Housekept(Housekept(Housekept(v))) == Housekept(Housekept(v))
    ensures PaletteFocus(v.focus) ==> Housekept(Housekept(v)) == Housekept(v)
  {
    HousekeepingFocus(v);
    HousekeepingFocus(Housekept(v));
  }

  /** The palette's view state, which `render_command_palette` adjusts before drawing. */
  class PaletteView {
    var focus: Focus
    var appStatus: AppStatus
    var commandSelected: Option<nat>
    var cardSelected: Option<nat>
    var boardSelected: Option<nat>
    var commandResults: Option<seq<Command>>
    var cardResults: Option<seq<Hit>>
    var boardResults: Option<seq<Hit>>

    function Model(): PaletteFrame
      reads this
    {
      PaletteFrame(focus, appStatus, commandSelected, cardSelected, boardSelected,
                   commandResults, cardResults, boardResults)
    }

    constructor (v: PaletteFrame)
      ensures Model() == v
    {
      focus := v.focus;
      appStatus := v.appStatus;
      commandSelected := v.commandSelected;
      cardSelected := v.cardSelected;
      boardSelected := v.boardSelected;
      commandResults := v.commandResults;
      cardResults := v.cardResults;
      boardResults := v.boardResults;
    }

    /** The housekeeping block of `render_command_palette`. */
    method Housekeeping()
      modifies this
      ensures Model() == Housekept(old(Model()))
    {
      match focus {
        case CommandPaletteCommand =>
          if commandSelected.None? && commandResults.Some? && |commandResults.value| != 0 {
            commandSelected := Some(0);
          }
        case CommandPaletteCard =>
          if cardSelected.None? && cardResults.Some? && |cardResults.value| != 0 {
            cardSelected := Some(0);
          }
        case CommandPaletteBoard =>
          if boardSelected.None? && boardResults.Some? && |boardResults.value| != 0 {
            boardSelected := Some(0);
          }
        case _ =>
          if appStatus != UserInput {
            appStatus := UserInput;
          }
          if focus != CommandPaletteCommand && focus != CommandPaletteBoard && focus != CommandPaletteCard {
            focus := CommandPaletteCommand;
          }
      }
    }
  }

  // ---------------------------------------------------------------------------------------------
  // Which toasts are drawn

  function Min(a: nat, b: nat): nat {
    if a <= b then a else b
  }

  /** The loading toasts, in their original order. */
  function LoadingOf(ts: seq<Toast>): seq<Toast> {
    if ts == [] then []
    else
      var last := ts[|ts| - 1];
      LoadingOf(ts[..|ts| - 1]) + (if last.toastType == Loading then [last] else [])
  }

  /** The other toasts, in their original order. */
  function RegularOf(ts: seq<Toast>): seq<Toast> {
    if ts == [] then []
    else
      var last := ts[|ts| - 1];
      RegularOf(ts[..|ts| - 1]) + (if last.toastType != Loading then [last] else [])
  }

  /** The two filters split the toasts by kind: each keeps exactly the toasts of its kind. */
  lemma {:induction false} FiltersSplit(ts: seq<Toast>)
    ensures forall t :: t in LoadingOf(ts) <==> t in ts && t.toastType == Loading
    ensures forall t :: t in RegularOf(ts) <==> t in ts && t.toastType != Loading
    ensures |LoadingOf(ts)| + |RegularOf(ts)| == |ts|
  {
    if ts != [] {
      var init := ts[..|ts| - 1];
      assert ts == init + [ts[|ts| - 1]];
      FiltersSplit(init);
    }
  }

  /** Sorted by start time, oldest first. */
  predicate SortedByStart(s: seq<Toast>) {
    forall i, j :: 0 <= i < j < |s| ==> s[i].startTime <= s[j].startTime
  }

  /** Insert `t` after every toast of `sorted` that started no later than it, which keeps the sort stable. */
  function InsertByStart(sorted: seq<Toast>, t: Toast): seq<Toast> {
    if sorted == [] then [t]
    else if t.startTime < sorted[|sorted| - 1].startTime then
      InsertByStart(sorted[..|sorted| - 1], t) + [sorted[|sorted| - 1]]
    else
      sorted + [t]
  }

  /** `sort_by` on the start time: a stable insertion sort. */
  function SortByStart(s: seq<Toast>): seq<Toast> {
    if s == [] then [] else InsertByStart(SortByStart(s[..|s| - 1]), s[|s| - 1])
  }

  /** Inserting adds exactly `t`. */
  lemma {:induction false} InsertByStartPermutes(sorted: seq<Toast>, t: Toast)
    ensures multiset(InsertByStart(sorted, t)) == multiset(sorted) + multiset{t}
  {
    if sorted != [] {
      var n := |sorted|;
      assert sorted == sorted[..n - 1] + [sorted[n - 1]];
      if t.startTime < sorted[n - 1].startTime {
        InsertByStartPermutes(sorted[..n - 1], t);
      }
    }
  }

  /** Inserting into a sorted sequence keeps it sorted. */
  lemma {:induction false} InsertByStartSorted(sorted: seq<Toast>, t: Toast)
    requires SortedByStart(sorted)
    ensures SortedByStart(InsertByStart(sorted, t))
    ensures forall x :: x in InsertByStart(sorted, t) ==> x in sorted || x == t
  {
    if sorted != [] {
      var n := |sorted|;
      var last := sorted[n - 1];
      if t.startTime < last.startTime {
        var init := sorted[..n - 1];
        InsertByStartSorted(init, t);
        var r := InsertByStart(init, t);
        forall x | x in r
          ensures x.startTime <= last.startTime
        {
          if x != t {
            var i :| 0 <= i < |init| && init[i] == x;
            assert sorted[i] == x;
          }
        }
        assert forall i :: 0 <= i < |r| ==> r[i] in r;
      }
    }
  }

  /** The sort permutes its input and sorts it. */
  lemma {:induction false} SortByStartCorrect(s: seq<Toast>)
    ensures multiset(SortByStart(s)) == multiset(s)
    ensures SortedByStart(SortByStart(s))
  {
    if s != [] {
      var init := s[..|s| - 1];
      assert s == init + [s[|s| - 1]];
      SortByStartCorrect(init);
      InsertByStartPermutes(SortByStart(init), s[|s| - 1]);
      InsertByStartSorted(SortByStart(init), s[|s| - 1]);
    }
  }

  /** The sort keeps exactly the toasts it was given. */
  lemma SortByStartMembers(s: seq<Toast>)
    ensures |SortByStart(s)| == |s|
    ensures forall t :: t in SortByStart(s) <==> t in s
  {
    SortByStartCorrect(s);
    assert |multiset(SortByStart(s))| == |multiset(s)|;
    forall t
      ensures t in SortByStart(s) <==> t in s
    {
      assert t in SortByStart(s) <==> t in multiset(SortByStart(s));
    }
  }

  /** The toasts of `s` from index `from` on, newest first: what popping them off `s` yields. */
  function Popped(s: seq<Toast>, from: nat): (r: seq<Toast>)
    requires from <= |s|
    ensures |r| == |s| - from
    ensures forall t :: t in r ==> t in s
  {
    var r := seq(|s| - from, i requires 0 <= i < |s| - from => s[|s| - 1 - i]);
    assert forall i :: 0 <= i < |r| ==> r[i] == s[|s| - 1 - i];
    r
  }

  /** The first loop of `render_toast`: pop the newest toasts of `regular` onto `first` until `max` are shown. */
  method PopNewest(first: seq<Toast>, regular: seq<Toast>, max: nat) returns (shown: seq<Toast>)
    requires |first| <= max
    ensures shown == first + Popped(regular, |regular| - Min(|regular|, max - |first|))
  {
    shown := first;
    var rest := regular;
    while |shown| < max && |rest| > 0
      invariant |rest| <= |regular| && rest == regular[..|rest|]
      invariant shown == first + Popped(regular, |rest|)
      invariant |shown| <= max
      invariant |shown| < max ==> |rest| == |regular| - (|shown| - |first|)
      decreases |rest|
    {
      var t := rest[|rest| - 1];
      rest := rest[..|rest| - 1];
      shown := shown + [t];
    }
  }

  /**
   * The second loop of `render_toast`: while room is left, pop toasts off `pool` and show those
   * not shown yet. What was shown stays in front.
   */
  method FillFrom(shown0: seq<Toast>, pool: seq<Toast>, max: nat) returns (shown: seq<Toast>)
    requires |shown0| <= max
    ensures |shown0| <= |shown| <= max
    ensures shown[..|shown0|] == shown0
    ensures forall t :: t in shown ==> t in shown0 || t in pool
  {
    shown := shown0;
    var rest := pool;
    while |shown| < max && |rest| > 0
      invariant |shown0| <= |shown| <= max
      invariant shown[..|shown0|] == shown0
      invariant forall t :: t in shown ==> t in shown0 || t in pool
      invariant forall t :: t in rest ==> t in pool
      decreases |rest|
    {
      var t := rest[|rest| - 1];
      rest := rest[..|rest| - 1];
      if t !in shown {
        shown := shown + [t];
      }
    }
  }

  /** The loading toasts that go first: all of them, or the `max - 1` oldest, newest of them first. */
  function LeadingLoading(loading: seq<Toast>, max: nat): (r: seq<Toast>)
    requires max >= 1
    ensures |r| == Min(|loading|, max - 1)
    ensures forall t :: t in r ==> t in loading
  {
    if |loading| > max - 1 then
      var sorted := SortByStart(loading);
      SortByStartCorrect(loading);
      SortByStartMembers(loading);
      assert forall t :: t in sorted[..max - 1] ==> t in sorted;
      Popped(sorted[..max - 1], 0)
    else
      loading
  }

  /** `render_toast` when there are loading toasts: they lead, then the newest others, then the rest of the loading ones. */
  method LoadingFirst(loading: seq<Toast>, regular: seq<Toast>, max: nat) returns (shown: seq<Toast>)
    requires max >= 1
    ensures |shown| <= max
    ensures forall t :: t in shown ==> t in loading || t in regular
    ensures
      var k := Min(|loading|, max - 1);
      var m := Min(|regular|, max - k);
      k + m <= |shown| &&
      shown[..k] == LeadingLoading(loading, max) &&
      shown[k..k + m] == Popped(regular, |regular| - m)
  {
    var first := LeadingLoading(loading, max);
    var middle := PopNewest(first, regular, max);
    ghost var k := |first|;
    ghost var m := Min(|regular|, max - k);
    assert middle[..k] == first;
    assert middle[k..k + m] == Popped(regular, |regular| - m);
    assert middle == first + Popped(regular, |regular| - m);
    shown := middle;
    if |shown| < max {
      var again := SortByStart(loading);
      SortByStartMembers(loading);
      shown := FillFrom(middle, again, max);
      assert shown[..k + m] == middle[..k + m];
    }
    assert shown[..k] == first;
    assert shown[k..k + m] == middle[k..k + m];
  }

  /**
   * How `render_toast` orders the toasts when some are loading: the first `k` are loading toasts
   * (all of them, in order, when they fit in `max - 1`, otherwise the `max - 1` oldest, newest of
   * them first), and the next `m` are the newest of the other toasts, newest first.
   */
  predicate LoadingLeads(shown: seq<Toast>, loading: seq<Toast>, regular: seq<Toast>, max: nat)
    requires max >= 1
  {
    var k := Min(|loading|, max - 1);
    var m := Min(|regular|, max - k);
    k + m <= |shown| &&
    (forall i :: 0 <= i < k ==> shown[i].toastType == Loading) &&
    (|loading| <= max - 1 ==> shown[..k] == loading) &&
    shown[..k] == LeadingLoading(loading, max) &&
    shown[k..k + m] == Popped(regular, |regular| - m)
  }

  /**
   * `render_toast`'s choice of toasts. Without loading toasts: the last `max` toasts, in order.
   * Otherwise the loading toasts come first (when there are too many, the `max - 1` oldest,
   * newest of them first), then the newest other toasts, newest first, then, if room is left,
   * loading toasts not already shown.
   */
  method SelectToasts(all: seq<Toast>, max: nat) returns (shown: seq<Toast>)
    requires max >= 1
    ensures |shown| <= max
    ensures forall t :: t in shown ==> t in all
    ensures LoadingOf(all) == [] ==> shown == all[|all| - Min(max, |all|)..]
    ensures LoadingOf(all) != [] ==> LoadingLeads(shown, LoadingOf(all), SortByStart(RegularOf(all)), max)
  {
    var loading := LoadingOf(all);
    if |loading| == 0 {
      shown := all[|all| - Min(max, |all|)..];
      return;
    }
    FiltersSplit(all);
    var regular := SortByStart(RegularOf(all));
    SortByStartMembers(RegularOf(all));
    shown := LoadingFirst(loading, regular, max);
    ghost var k := Min(|loading|, max - 1);
    ghost var first := LeadingLoading(loading, max);
    forall i | 0 <= i < k
      ensures shown[i].toastType == Loading
    {
      assert shown[i] == shown[..k][i] == first[i];
      assert first[i] in loading;
    }
    assert LoadingLeads(shown, loading, regular, max);
  }

  // ---------------------------------------------------------------------------------------------
  // Packing a card's tags into lines

  /** The text drawn for the `i`-th tag: its one-based number, a parenthesis, the tag and a space. */
  function Piece(i: nat, tag: string): (r: string)
    ensures |r| > 0
  {
    Decimal(i + 1) + ") " + tag + " "
  }

  /** Every tag's piece, in order. */
  function Pieces(tags: seq<string>): (r: seq<string>)
    ensures |r| == |tags|
    ensures forall i :: 0 <= i < |tags| ==> r[i] == Piece(i, tags[i])
  {
    seq(|tags|, i requires 0 <= i < |tags| => Piece(i, tags[i]))
  }

  /** The pieces of all lines, line after line. */
  function Flatten(lines: seq<seq<string>>): seq<string> {
    if lines == [] then [] else Flatten(lines[..|lines| - 1]) + lines[|lines| - 1]
  }

  /** The text of one line: its pieces side by side. */
  function Joined(pieces: seq<string>): string {
    if pieces == [] then [] else Joined(pieces[..|pieces| - 1]) + pieces[|pieces| - 1]
  }

  /** Pieces are never empty, so a line's text is empty exactly when it has no pieces. */
  lemma {:induction false} JoinedEmpty(pieces: seq<string>)
    requires forall i :: 0 <= i < |pieces| ==> |pieces[i]| > 0
    ensures Joined(pieces) == [] <==> pieces == []
  {
    if pieces != [] {
      assert |Joined(pieces)| >= |pieces[|pieces| - 1]|;
    }
  }

  /** Closing a line appends its pieces to the flattened text, and a piece to a line appends its text. */
  lemma SnocUnfolds(lines: seq<seq<string>>, line: seq<string>, piece: string)
    ensures Flatten(lines + [line]) == Flatten(lines) + line
    ensures Joined(line + [piece]) == Joined(line) + piece
  {
    assert (lines + [line])[..|lines|] == lines;
    assert (line + [piece])[..|line|] == line;
  }

  /**
   * The shape of packed lines: only the first line may be empty, and only when `firstTooWide`;
   * every line with more than one piece is shorter than `budget`.
   */
  predicate WellPacked(lines: seq<seq<string>>, firstTooWide: bool, budget: nat) {
    (forall k :: 0 <= k < |lines| ==> (lines[k] == [] <==> k == 0 && firstTooWide)) &&
    (forall k :: 0 <= k < |lines| && |lines[k]| > 1 ==> |Joined(lines[k])| < budget)
  }

  /** Closing a line that respects the shape keeps the lines well packed. */
  lemma WellPackedSnoc(lines: seq<seq<string>>, line: seq<string>, firstTooWide: bool, budget: nat)
    requires WellPacked(lines, firstTooWide, budget)
    requires line == [] <==> lines == [] && firstTooWide
    requires |line| > 1 ==> |Joined(line)| < budget
    ensures WellPacked(lines + [line], firstTooWide, budget)
  {
    var r := lines + [line];
    forall k | 0 <= k < |r|
      ensures r[k] == [] <==> k == 0 && firstTooWide
      ensures |r[k]| > 1 ==> |Joined(r[k])| < budget
    {
      if k < |lines| {
        assert r[k] == lines[k];
      }
    }
  }

  /**
   * The line-filling loop of `render_card_being_edited`, over the drawn pieces: each piece is
   * appended to the current line while the line stays shorter than `budget`; otherwise the
   * current line is closed (even when it is empty, which happens when the first piece alone is
   * too wide) and the piece starts the next. The result holds every piece once, in order; only
   * the first line can be empty, and only when the first piece does not fit; every line holding
   * more than one piece is shorter than `budget`.
   */
  method Pack(pieces: seq<string>, budget: nat) returns (lines: seq<seq<string>>)
    requires forall i :: 0 <= i < |pieces| ==> |pieces[i]| > 0
    ensures Flatten(lines) == pieces
    ensures pieces == [] <==> lines == []
    ensures WellPacked(lines, |pieces| > 0 && |pieces[0]| >= budget, budget)
  {
    ghost var firstTooWide := |pieces| > 0 && |pieces[0]| >= budget;
    lines := [];
    var collector: string := [];
    var start := 0;
    for i := 0 to |pieces|
      invariant start <= i
      invariant i > 0 ==> start < i
      invariant collector == Joined(pieces[start..i])
      invariant Flatten(lines) == pieces[..start]
      invariant i == 0 ==> lines == []
      invariant i > 0 && firstTooWide ==> lines != []
      invariant WellPacked(lines, firstTooWide, budget)
      invariant i - start > 1 ==> |collector| < budget
    {
      var piece := pieces[i];
      if |collector| + |piece| < budget {
        assert Joined(pieces[start..i + 1]) == collector + piece by {
          assert pieces[start..i + 1] == pieces[start..i] + [piece];
          SnocUnfolds(lines, pieces[start..i], piece);
        }
        collector := collector + piece;
      } else {
        var line := pieces[start..i];
        assert Flatten(lines + [line]) == pieces[..i] by {
          SnocUnfolds(lines, line, piece);
          assert pieces[..start] + line == pieces[..i];
        }
        assert WellPacked(lines + [line], firstTooWide, budget) by {
          assert i == 0 ==> start == 0 && firstTooWide;
          WellPackedSnoc(lines, line, firstTooWide, budget);
        }
        assert Joined(pieces[i..i + 1]) == piece by {
          assert pieces[i..i + 1] == [] + [piece];
          SnocUnfolds(lines, [], piece);
        }
        lines := lines + [line];
        collector := piece;
        start := i;
      }
    }
    if collector != [] {
      SnocUnfolds(lines, pieces[start..|pieces|], []);
      WellPackedSnoc(lines, pieces[start..|pieces|], firstTooWide, budget);
      assert pieces[..start] + pieces[start..|pieces|] == pieces;
      lines := lines + [pieces[start..|pieces|]];
    } else {
      JoinedEmpty(pieces[start..|pieces|]);
      assert pieces[..start] == pieces;
    }
  }

  /**
   * The tag layout of `render_card_being_edited`: the pieces "1) tag " of a card's tags, packed
   * into lines of fewer than `budget` characters (a piece too wide for any line gets one alone).
   */
  method PackLines(tags: seq<string>, budget: nat) returns (lines: seq<seq<string>>)
    ensures Flatten(lines) == Pieces(tags)
    ensures tags == [] <==> lines == []
    ensures tags != [] ==> (lines[0] == [] <==> |Piece(0, tags[0])| >= budget)
    ensures forall k :: 0 < k < |lines| ==> lines[k] != []
    ensures forall k :: 0 <= k < |lines| && |lines[k]| > 1 ==> |Joined(lines[k])| < budget
  {
    var pieces := Pieces(tags);
    lines := Pack(pieces, budget);
  }
}
