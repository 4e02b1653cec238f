/**
 * Screen layouts, focusable regions and the cyclic focus navigation of `src/app/state.rs`.
 * Each layout owns an ordered list of tab names; focus moves through that list by index
 * arithmetic, and a name that is not a focus falls back to `Title`.
 */
module States {
  import opened Wrappers

  /** Rust's `u8`, the argument type of `UiMode::from_number`. */
  newtype u8 = x: int | 0 <= x < 256

  /** The named screen layouts. */
  datatype UiMode = Zen | Title | Help | Log | TitleHelp | TitleLog | HelpLog | TitleHelpLog | Config

  /** The coarse state of the input machine; `Init` is its default. */
  datatype AppState = Init | Initialized | UserInput

  /** The focusable regions; `Body` is the default focus. */
  datatype Focus = Title | Body | Help | Log

  /** `UiMode::to_string`. */
  function ModeLabel(m: UiMode): string {
    match m
    case Zen => "Zen"
    case Title => "Title"
    case Help => "Help"
    case Log => "Log"
    case TitleHelp => "Title and Help"
    case TitleLog => "Title and Log"
    case HelpLog => "Help and Log"
    case TitleHelpLog => "Title, Help and Log"
    case Config => "Config"
  }

  /** Distinct layouts have distinct labels. */
  lemma ModeLabelInjective(m: UiMode, n: UiMode)
    ensures ModeLabel(m) == ModeLabel(n) ==> m == n
  {
  }

  /** The layouts bound to the number keys 1 to 8, in that order. */
  const NumberedModes: seq<UiMode> :=
    [Zen, UiMode.Title, UiMode.Help, UiMode.Log, TitleHelp, TitleLog, HelpLog, TitleHelpLog]

  /** `UiMode::from_number`: 1..8 pick a layout, anything else falls back to `Title`. */
  function FromNumber(n: u8): (m: UiMode)
    ensures 1 <= n <= 8 ==> m == NumberedModes[n - 1]
    ensures !(1 <= n <= 8) ==> m == UiMode.Title
    ensures m != Config
  {
    match n
    case 1 => Zen
    case 2 => UiMode.Title
    case 3 => UiMode.Help
    case 4 => UiMode.Log
    case 5 => TitleHelp
    case 6 => TitleLog
    case 7 => HelpLog
    case 8 => TitleHelpLog
    case _ => UiMode.Title
  }

  /** The number key of a layout (0, which selects nothing, for `Config`). */
  function ModeNumber(m: UiMode): u8 {
    match m
    case Zen => 1
    case Title => 2
    case Help => 3
    case Log => 4
    case TitleHelp => 5
    case TitleLog => 6
    case HelpLog => 7
    case TitleHelpLog => 8
    case Config => 0
  }

  /** Every layout except `Config` has exactly one number key, and `Config` has none. */
  lemma FromNumberBijective(m: UiMode)
    ensures m != Config ==> 1 <= ModeNumber(m) <= 8 && FromNumber(ModeNumber(m)) == m
    ensures forall n: u8 :: FromNumber(n) != Config
    ensures forall n1: u8, n2: u8 :: 1 <= n1 <= 8 && 1 <= n2 <= 8 && FromNumber(n1) == FromNumber(n2) ==> n1 == n2
  {
  }

  /** `UiMode::get_available_tabs`: the ordered tab names of each layout. */
  function Tabs(m: UiMode): seq<string> {
    match m
    case Zen => ["Body"]
    case Title => ["Title", "Body"]
    case Help => ["Body", "Help"]
    case Log => ["Body", "Log"]
    case TitleHelp => ["Title", "Body", "Help"]
    case TitleLog => ["Title", "Body", "Log"]
    case HelpLog => ["Body", "Help", "Log"]
    case TitleHelpLog => ["Title", "Body", "Help", "Log"]
    case Config => ["Config"]
  }

  /** `Focus::current`: the tab name of a focus. */
  function FocusName(f: Focus): string {
    match f
    case Title => "Title"
    case Body => "Body"
    case Help => "Help"
    case Log => "Log"
  }

  /** `Focus::from_str`: a tab name back to its focus; any other name gives `Title`. */
  function FromStr(s: string): (f: Focus)
    ensures s == FocusName(f) || (f == Focus.Title && !IsFocusName(s))
  {
    match s
    case "Title" => Focus.Title
    case "Body" => Body
    case "Help" => Focus.Help
    case "Log" => Focus.Log
    case _ => Focus.Title
  }

  /** The name of some focus. */
  predicate IsFocusName(s: string) {
    s == "Title" || s == "Body" || s == "Help" || s == "Log"
  }

  /** `from_str(f.current()) == f` for every focus. */
  lemma FromStrRoundTrip(f: Focus)
    ensures IsFocusName(FocusName(f)) && FromStr(FocusName(f)) == f
  {
  }

  /** Names of foci, without repetition: the shape of every layout's list except `Config`'s. */
  predicate FocusList(tabs: seq<string>) {
    (forall i :: 0 <= i < |tabs| ==> IsFocusName(tabs[i])) &&
    (forall i, j :: 0 <= i < j < |tabs| ==> tabs[i] != tabs[j])
  }

  /** Every tab list is non-empty; `Config` has the single tab "Config", the others list foci. */
  lemma TabsShape(m: UiMode)
    ensures |Tabs(m)| > 0
    ensures m == Config <==> Tabs(m) == ["Config"]
    ensures m != Config ==> FocusList(Tabs(m)) && "Body" in Tabs(m)
  {
  }

  /** `Iterator::position`: the first index holding `s`. */
  function Position(tabs: seq<string>, s: string): (r: Option<nat>)
    ensures r.Some? ==> r.value < |tabs| && tabs[r.value] == s && s !in tabs[..r.value]
    ensures r.None? <==> s !in tabs
  {
    if tabs == [] then None
    else if tabs[0] == s then Some(0)
    else
      match Position(tabs[1..], s)
      case None => None
      case Some(i) => assert tabs[1..][..i] == tabs[1..i + 1]; Some(i + 1)
  }

  /** The index the navigation starts from: the focus' position, or 0 when it is absent. */
  function StartIndex(f: Focus, tabs: seq<string>): (i: nat)
    requires |tabs| > 0
    ensures i < |tabs|
    ensures FocusName(f) in tabs ==> tabs[i] == FocusName(f)
  {
    match Position(tabs, FocusName(f))
    case Some(i) => i
    case None => 0
  }

  /** `Focus::next`: one step forward, wrapping from the last tab to the first. */
  function Next(f: Focus, tabs: seq<string>): Focus
    requires |tabs| > 0
  {
    FromStr(tabs[(StartIndex(f, tabs) + 1) % |tabs|])
  }

  /** `Focus::prev`: one step back, wrapping from the first tab to the last. */
  function Prev(f: Focus, tabs: seq<string>): Focus
    requires |tabs| > 0
  {
    var i := StartIndex(f, tabs);
    FromStr(tabs[if i == 0 then |tabs| - 1 else i - 1])
  }

  /** In a list without repetition, the position of the entry at `i` is `i`. */
  lemma PositionOfEntry(tabs: seq<string>, i: nat)
    requires i < |tabs|
    requires forall p, q :: 0 <= p < q < |tabs| ==> tabs[p] != tabs[q]
    ensures Position(tabs, tabs[i]) == Some(i)
  {
    var r := Position(tabs, tabs[i]);
    assert r.Some?;
    assert forall p :: 0 <= p < r.value ==> tabs[..r.value][p] == tabs[p];
  }

  /** Over a list of foci that holds the focus, a step forward lands on the next entry. */
  lemma NextIsSuccessor(f: Focus, tabs: seq<string>, i: nat)
    requires FocusList(tabs) && i < |tabs| && tabs[i] == FocusName(f)
    ensures FocusName(Next(f, tabs)) == tabs[(i + 1) % |tabs|]
    ensures FocusName(Prev(f, tabs)) == tabs[if i == 0 then |tabs| - 1 else i - 1]
  {
    PositionOfEntry(tabs, i);
  }

  /** Distinct foci have distinct names. */
  lemma FocusNameInjective(a: Focus, b: Focus)
    ensures FocusName(a) == FocusName(b) ==> a == b
  {
  }

  /** Over a list of foci that holds the focus, `prev` undoes `next` and `next` undoes `prev`. */
  lemma NextPrevRoundTrip(f: Focus, tabs: seq<string>)
    requires FocusList(tabs) && FocusName(f) in tabs
    ensures Prev(Next(f, tabs), tabs) == f
    ensures Next(Prev(f, tabs), tabs) == f
  {
    var i :| 0 <= i < |tabs| && tabs[i] == FocusName(f);
    PrevAfterNext(f, tabs, i);
    NextAfterPrev(f, tabs, i);
  }

  /** Stepping forward from index `i` of `n` wraps only from the last index. */
  lemma SuccessorWraps(i: nat, n: nat)
    requires i < n
    ensures (i + 1) % n == if i + 1 == n then 0 else i + 1
  {
  }

  lemma PrevAfterNext(f: Focus, tabs: seq<string>, i: nat)
    requires FocusList(tabs) && i < |tabs| && tabs[i] == FocusName(f)
    ensures Prev(Next(f, tabs), tabs) == f
  {
    var n := |tabs|;
    var j := if i + 1 == n then 0 else i + 1;
    var g := Next(f, tabs);
    assert FocusName(g) == tabs[j] by {
      SuccessorWraps(i, n);
      NextIsSuccessor(f, tabs, i);
    }
    var h := Prev(g, tabs);
    assert FocusName(h) == tabs[i] by {
      NextIsSuccessor(g, tabs, j);
    }
    FocusNameInjective(h, f);
  }

  lemma NextAfterPrev(f: Focus, tabs: seq<string>, i: nat)
    requires FocusList(tabs) && i < |tabs| && tabs[i] == FocusName(f)
    ensures Next(Prev(f, tabs), tabs) == f
  {
    var n := |tabs|;
    var k := if i == 0 then n - 1 else i - 1;
    var g := Prev(f, tabs);
    assert FocusName(g) == tabs[k] by {
      NextIsSuccessor(f, tabs, i);
    }
    var h := Next(g, tabs);
    assert FocusName(h) == tabs[i] by {
      SuccessorWraps(k, n);
      NextIsSuccessor(g, tabs, k);
    }
    FocusNameInjective(h, f);
  }

  /** Every layout except `Config` has the round trip, from every focus it lists. */
  lemma ModeRoundTrip(m: UiMode, f: Focus)
    requires m != Config && FocusName(f) in Tabs(m)
    ensures Prev(Next(f, Tabs(m)), Tabs(m)) == f
    ensures Next(Prev(f, Tabs(m)), Tabs(m)) == f
    ensures FocusName(Next(f, Tabs(m))) in Tabs(m) && FocusName(Prev(f, Tabs(m))) in Tabs(m)
  {
    TabsShape(m);
    NextPrevRoundTrip(f, Tabs(m));
    var i :| 0 <= i < |Tabs(m)| && Tabs(m)[i] == FocusName(f);
    NextIsSuccessor(f, Tabs(m), i);
  }

  /** A focus absent from the list navigates as if it stood at index 0. */
  lemma AbsentFocusStartsAtZero(f: Focus, tabs: seq<string>)
    requires |tabs| > 0 && FocusName(f) !in tabs
    ensures Next(f, tabs) == FromStr(tabs[1 % |tabs|])
    ensures Prev(f, tabs) == FromStr(tabs[|tabs| - 1])
  {
  }

  /** In `Config` the only tab is not a focus, so both directions yield `Title`. */
  lemma ConfigNavigation(f: Focus)
    ensures Next(f, Tabs(Config)) == Focus.Title
    ensures Prev(f, Tabs(Config)) == Focus.Title
  {
    assert !IsFocusName("Config");
  }

  /** From `Body` in the full layout, three steps forward give Help, Log, then Title. */
  lemma FullLayoutScenario()
    ensures Next(Body, Tabs(TitleHelpLog)) == Focus.Help
    ensures Next(Focus.Help, Tabs(TitleHelpLog)) == Focus.Log
    ensures Next(Focus.Log, Tabs(TitleHelpLog)) == Focus.Title
  {
    ScenarioStep(Body, 1, Focus.Help);
    ScenarioStep(Focus.Help, 2, Focus.Log);
    ScenarioStep(Focus.Log, 3, Focus.Title);
  }

  lemma ScenarioStep(f: Focus, i: nat, g: Focus)
    requires i < 4 && Tabs(TitleHelpLog)[i] == FocusName(f)
    requires Tabs(TitleHelpLog)[(i + 1) % 4] == FocusName(g)
    ensures Next(f, Tabs(TitleHelpLog)) == g
  {
    TabsShape(TitleHelpLog);
    NextIsSuccessor(f, Tabs(TitleHelpLog), i);
    FocusNameInjective(Next(f, Tabs(TitleHelpLog)), g);
  }
}
