/**
 * The key-binding table and the contextual action resolver of `src/app/actions.rs`:
 * every action has a fixed list of key chords, a contextual set is built from a list of
 * actions (and refused when two of its entries share a chord), and a key is resolved to the
 * first action, in declaration order, that is in the set and binds the key.
 */
module Bindings {
  import opened Wrappers

  /**
   * A physical key chord. The key type of the application is not part of this model: these are
   * the chords the binding table uses, plus `OtherKey` standing for every other chord.
   * Equality is exact, so `Ctrl('c')` and `Char('c')` are different chords.
   */
  datatype Key =
    | Char(c: char)
    | Ctrl(c: char)
    | Alt(c: char)
    | Tab
    | ShiftTab
    | Up
    | Down
    | Esc
    | Enter
    | OtherKey(code: nat)

  /** The closed set of semantic actions. */
  datatype Action =
    | Quit
    | NextFocus
    | PreviousFocus
    | SetUiMode
    | ToggleConfig
    | GoUp
    | GoDown
    | TakeUserInput
    | Escape
    | Enter

  /** The order in which `Action::iterator` yields the actions (declaration order). */
  const ActionOrder: seq<Action> :=
    [Quit, NextFocus, PreviousFocus, SetUiMode, ToggleConfig, GoUp, GoDown, TakeUserInput,
     Action.Escape, Action.Enter]

  /** Position of an action in declaration order. */
  function Rank(a: Action): nat {
    match a
    case Quit => 0
    case NextFocus => 1
    case PreviousFocus => 2
    case SetUiMode => 3
    case ToggleConfig => 4
    case GoUp => 5
    case GoDown => 6
    case TakeUserInput => 7
    case Escape => 8
    case Enter => 9
  }

  /** `Action::iterator` lists every action exactly once, each at its rank. */
  lemma ActionOrderComplete()
    ensures |ActionOrder| == 10
    ensures forall a: Action :: Rank(a) < |ActionOrder| && ActionOrder[Rank(a)] == a
    ensures forall i :: 0 <= i < |ActionOrder| ==> Rank(ActionOrder[i]) == i
  {
    forall a: Action ensures Rank(a) < |ActionOrder| && ActionOrder[Rank(a)] == a {
      match a
      case Quit => case NextFocus => case PreviousFocus => case SetUiMode =>
      case ToggleConfig => case GoUp => case GoDown => case TakeUserInput =>
      case Escape => case Enter =>
    }
  }

  /** `Action::keys`: the chords bound to each action. */
  function Keys(a: Action): seq<Key> {
    match a
    case Quit => [Ctrl('c'), Char('q')]
    case NextFocus => [Tab]
    case PreviousFocus => [ShiftTab]
    case SetUiMode =>
      [Char('1'), Char('2'), Char('3'), Char('4'), Char('5'), Char('6'), Char('7'), Char('8')]
    case ToggleConfig => [Char('c')]
    case GoUp => [Up]
    case GoDown => [Down]
    case TakeUserInput => [Char('i')]
    case Escape => [Esc]
    case Enter => [Key.Enter]
  }

  /** Every action binds at least one chord, and no chord twice. */
  lemma KeysWellFormed(a: Action)
    ensures |Keys(a)| > 0
    ensures forall i, j :: 0 <= i < j < |Keys(a)| ==> Keys(a)[i] != Keys(a)[j]
  {
  }

  /** The `Display` text of an action. */
  function Label(a: Action): string {
    match a
    case Quit => "Quit"
    case NextFocus => "Focus next"
    case PreviousFocus => "Focus previous"
    case SetUiMode => "Set UI mode"
    case ToggleConfig => "Open config Menu"
    case GoUp => "Go up"
    case GoDown => "Go down"
    case TakeUserInput => "Enter input mode"
    case Escape => "Go to previous mode"
    case Enter => "Accept"
  }

  /** Distinct actions display differently. */
  lemma LabelInjective(a: Action, b: Action)
    ensures Label(a) == Label(b) ==> a == b
  {
  }

  /** A contextual action set; `list` is what `Actions::actions` returns. */
  datatype Actions = Actions(list: seq<Action>)

  /** `list` holds the action `a` and `a` binds the chord `k`. */
  predicate Binds(list: seq<Action>, a: Action, k: Key) {
    a in list && k in Keys(a)
  }

  /**
   * The iterator chain of `Actions::find` over `order`: the index of the first action of `order`
   * that is in `list` and binds `k`.
   */
  function FirstIndex(order: seq<Action>, list: seq<Action>, k: Key): (r: Option<nat>)
    ensures r.Some? ==> r.value < |order| && Binds(list, order[r.value], k)
    ensures r.Some? ==> forall j :: 0 <= j < r.value ==> !Binds(list, order[j], k)
    ensures r.None? ==> forall j :: 0 <= j < |order| ==> !Binds(list, order[j], k)
  {
    if order == [] then None
    else if Binds(list, order[0], k) then Some(0)
    else
      match FirstIndex(order[1..], list, k)
      case None => None
      case Some(i) => Some(i + 1)
  }

  /**
   * `Actions::find`: the first action in declaration order that is in the set and binds `k`;
   * `None` exactly when no action of the set binds `k`.
   */
  function Find(s: Actions, k: Key): (r: Option<Action>)
    ensures r.Some? ==> Binds(s.list, r.value, k)
    ensures r.Some? ==> forall b :: Binds(s.list, b, k) ==> Rank(r.value) <= Rank(b)
    ensures r.None? <==> forall b :: b in s.list ==> k !in Keys(b)
  {
    ActionOrderComplete();
    match FirstIndex(ActionOrder, s.list, k)
    case None => FirstIndexNone(s.list, k); None
    case Some(i) => FirstIndexMinimal(s.list, k, i); Some(ActionOrder[i])
  }

  /** When `FirstIndex` finds nothing in declaration order, nothing in the set binds `k`. */
  lemma FirstIndexNone(list: seq<Action>, k: Key)
    requires FirstIndex(ActionOrder, list, k) == None
    ensures forall b :: b in list ==> k !in Keys(b)
  {
    ActionOrderComplete();
    forall b | b in list ensures k !in Keys(b) {
      assert ActionOrder[Rank(b)] == b;
    }
  }

  /** The index `FirstIndex` finds in declaration order is the least rank of a binder. */
  lemma FirstIndexMinimal(list: seq<Action>, k: Key, i: nat)
    requires FirstIndex(ActionOrder, list, k) == Some(i)
    ensures forall b :: Binds(list, b, k) ==> i <= Rank(b)
  {
    ActionOrderComplete();
    forall b | Binds(list, b, k) ensures i <= Rank(b) {
      assert ActionOrder[Rank(b)] == b;
    }
  }

  /**
   * The entries of `list` whose chords under the table `keys` include `k`, in list order and with
   * repetitions. The facts about gathering below hold for any chord table.
   */
  function Gather(keys: Action -> seq<Key>, list: seq<Action>, k: Key): seq<Action> {
    if list == [] then []
    else
      var last := list[|list| - 1];
      Gather(keys, list[..|list| - 1], k) + (if k in keys(last) then [last] else [])
  }

  /**
   * The entries of `list` that bind `k`, in list order and with repetitions: the vector the
   * construction loop gathers for `k` in its hash map.
   */
  function BindersOf(list: seq<Action>, k: Key): seq<Action> {
    Gather(Keys, list, k)
  }

  /** Every chord bound by some entry of `list`. */
  function BoundKeys(list: seq<Action>): set<Key> {
    set a, k | a in list && k in Keys(a) :: k
  }

  /** The payload of the construction panic: every chord bound more than once, with its binders. */
  function Conflicts(list: seq<Action>): map<Key, seq<Action>> {
    map k | k in BoundKeys(list) && |BindersOf(list, k)| > 1 :: BindersOf(list, k)
  }

  /** No chord is bound by two entries of `list`. */
  ghost predicate ConflictFree(list: seq<Action>) {
    forall k :: |BindersOf(list, k)| <= 1
  }

  /** No two entries of `list` (at different positions) share a chord under the table `keys`. */
  ghost predicate Disjoint(keys: Action -> seq<Key>, list: seq<Action>) {
    forall i, j, k :: 0 <= i < j < |list| && k in keys(list[i]) ==> k !in keys(list[j])
  }

  /** No two entries of `list` (at different positions) share a chord. */
  ghost predicate PairwiseDisjoint(list: seq<Action>) {
    Disjoint(Keys, list)
  }

  /** An entry whose chords include `k` is gathered for `k`. */
  lemma {:induction false} GatherFromEntry(keys: Action -> seq<Key>, list: seq<Action>, k: Key, i: nat)
    requires i < |list| && k in keys(list[i])
    ensures |Gather(keys, list, k)| > 0
  {
    var pre := list[..|list| - 1];
    if i < |list| - 1 {
      assert pre[i] == list[i];
      GatherFromEntry(keys, pre, k, i);
    }
  }

  /** Something gathered for `k` comes from an entry whose chords include `k`. */
  lemma {:induction false} EntryOfGather(keys: Action -> seq<Key>, list: seq<Action>, k: Key) returns (i: nat)
    requires |Gather(keys, list, k)| > 0
    ensures i < |list| && k in keys(list[i])
  {
    var n := |list|;
    if k in keys(list[n - 1]) {
      i := n - 1;
    } else {
      var pre := list[..n - 1];
      i := EntryOfGather(keys, pre, k);
      assert list[i] == pre[i];
    }
  }

  /** Two entries at different positions whose chords include `k` are both gathered. */
  lemma {:induction false} TwoGathered(keys: Action -> seq<Key>, list: seq<Action>, i: nat, j: nat, k: Key)
    requires i < j < |list|
    requires k in keys(list[i]) && k in keys(list[j])
    ensures |Gather(keys, list, k)| >= 2
  {
    var pre := list[..|list| - 1];
    assert pre[i] == list[i];
    if j == |list| - 1 {
      GatherFromEntry(keys, pre, k, i);
    } else {
      assert pre[j] == list[j];
      TwoGathered(keys, pre, i, j, k);
    }
  }

  /** Without shared chords, at most one entry is gathered for any chord. */
  lemma {:induction false} DisjointGathersAtMostOne(keys: Action -> seq<Key>, list: seq<Action>, k: Key)
    requires Disjoint(keys, list)
    ensures |Gather(keys, list, k)| <= 1
  {
    if list != [] {
      var pre := list[..|list| - 1];
      var last := list[|list| - 1];
      assert forall i :: 0 <= i < |pre| ==> pre[i] == list[i];
      DisjointGathersAtMostOne(keys, pre, k);
      if k in keys(last) && |Gather(keys, pre, k)| > 0 {
        var i := EntryOfGather(keys, pre, k);
      }
    }
  }

  /** An entry that binds `k` makes `k` bound. */
  lemma BinderFromEntry(list: seq<Action>, k: Key, i: nat)
    requires i < |list| && k in Keys(list[i])
    ensures |BindersOf(list, k)| > 0
  {
    GatherFromEntry(Keys, list, k, i);
  }

  /** A chord has a binder in `list` exactly when some entry binds it. */
  lemma BindersNonEmpty(list: seq<Action>, k: Key)
    ensures |BindersOf(list, k)| > 0 <==> exists i :: 0 <= i < |list| && k in Keys(list[i])
  {
    if |BindersOf(list, k)| > 0 {
      var i := EntryOfGather(Keys, list, k);
    }
    if i :| 0 <= i < |list| && k in Keys(list[i]) {
      BinderFromEntry(list, k, i);
    }
  }

  /** The chords with a binder are exactly the bound chords. */
  lemma BoundKeysIff(list: seq<Action>, k: Key)
    ensures k in BoundKeys(list) <==> |BindersOf(list, k)| > 0
  {
    BindersNonEmpty(list, k);
    if k in BoundKeys(list) {
      var a :| a in list && k in Keys(a);
      var i :| 0 <= i < |list| && list[i] == a;
      assert k in Keys(list[i]);
    }
    if |BindersOf(list, k)| > 0 {
      var i :| 0 <= i < |list| && k in Keys(list[i]);
      assert list[i] in list;
    }
  }

  /** Appending an entry appends it to the binders of each of its chords. */
  lemma BindersSnoc(pre: seq<Action>, a: Action, k: Key)
    ensures BindersOf(pre + [a], k) == BindersOf(pre, k) + (if k in Keys(a) then [a] else [])
  {
    assert (pre + [a])[..|pre|] == pre;
  }

  /** Two entries at different positions that bind the same chord make it bound twice. */
  lemma TwoBinders(list: seq<Action>, i: nat, j: nat, k: Key)
    requires i < j < |list|
    requires k in Keys(list[i]) && k in Keys(list[j])
    ensures |BindersOf(list, k)| >= 2
  {
    TwoGathered(Keys, list, i, j, k);
  }

  /** Conflict freedom in terms of chords and in terms of pairs of entries agree. */
  lemma ConflictFreeIffDisjoint(list: seq<Action>)
    ensures ConflictFree(list) <==> PairwiseDisjoint(list)
  {
    if !PairwiseDisjoint(list) {
      var i, j, k :| 0 <= i < j < |list| && k in Keys(list[i]) && k in Keys(list[j]);
      TwoBinders(list, i, j, k);
    } else {
      forall k ensures |BindersOf(list, k)| <= 1 {
        DisjointGathersAtMostOne(Keys, list, k);
      }
    }
  }

  /** The conflict payload lists exactly the chords bound more than once: every one of them. */
  lemma ConflictsExactly(list: seq<Action>, k: Key)
    ensures k in Conflicts(list) <==> |BindersOf(list, k)| > 1
    ensures k in Conflicts(list) ==> Conflicts(list)[k] == BindersOf(list, k)
  {
    BoundKeysIff(list, k);
  }

  /** The payload is empty exactly when the list is conflict free. */
  lemma NoConflictsIff(list: seq<Action>)
    ensures Conflicts(list) == map[] <==> ConflictFree(list)
  {
    if Conflicts(list) == map[] {
      forall k ensures |BindersOf(list, k)| <= 1 {
        ConflictsExactly(list, k);
      }
    } else {
      var k :| k in Conflicts(list);
      ConflictsExactly(list, k);
    }
  }

  /** Listing the same action twice is a conflict on each of its chords. */
  lemma DuplicateActionConflicts(list: seq<Action>, i: nat, j: nat)
    requires i < j < |list| && list[i] == list[j]
    ensures forall k :: k in Keys(list[i]) ==> k in Conflicts(list)
    ensures !ConflictFree(list)
  {
    KeysWellFormed(list[i]);
    forall k | k in Keys(list[i]) ensures k in Conflicts(list) {
      TwoBinders(list, i, j, k);
      ConflictsExactly(list, k);
    }
    TwoBinders(list, i, j, Keys(list[i])[0]);
  }

  /** In a conflict-free set a chord resolves to the one action of the set that binds it. */
  lemma FindUnambiguous(s: Actions, k: Key, a: Action)
    requires ConflictFree(s.list)
    ensures Find(s, k) == Some(a) <==> Binds(s.list, a, k)
  {
    if Binds(s.list, a, k) {
      var r := Find(s, k);
      assert r.Some? by {
        assert a in s.list && k in Keys(a);
      }
      SecondBinder(s.list, k, a, r.value);
    }
  }

  /** Two different actions of `list` that bind the same chord make it bound twice. */
  lemma SecondBinder(list: seq<Action>, k: Key, a: Action, b: Action)
    requires Binds(list, a, k) && Binds(list, b, k)
    ensures a != b ==> |BindersOf(list, k)| >= 2
  {
    var i := Occurrence(list, a);
    var j := Occurrence(list, b);
    if i < j {
      TwoBinders(list, i, j, k);
    } else if j < i {
      TwoBinders(list, j, i, k);
    }
  }

  /** A position at which `list` holds `a`. */
  lemma Occurrence(list: seq<Action>, a: Action) returns (i: nat)
    requires a in list
    ensures i < |list| && list[i] == a
  {
    i :| 0 <= i < |list| && list[i] == a;
  }

  /** The result of `From<Vec<Action>> for Actions`: the set, or the panic with its payload. */
  datatype BuildResult = Built(actions: Actions) | Panicked(conflicts: map<Key, seq<Action>>)

  /**
   * `From<Vec<Action>> for Actions`: gathers, for every chord, the entries that bind it; panics
   * with every chord bound more than once; otherwise keeps the input list unchanged.
   */
  method Build(actions: seq<Action>) returns (r: BuildResult)
    ensures r.Built? <==> ConflictFree(actions)
    ensures r.Built? ==> r.actions.list == actions
    ensures r.Panicked? ==> r.conflicts == Conflicts(actions)
  {
    var m: map<Key, seq<Action>> := map[];
    var i := 0;
    while i < |actions|
      invariant 0 <= i <= |actions|
      invariant forall k :: k in m <==> |BindersOf(actions[..i], k)| > 0
      invariant forall k :: k in m ==> m[k] == BindersOf(actions[..i], k)
    {
      var a := actions[i];
      KeysWellFormed(a);
      m := AddBindings(m, a, Keys(a), actions[..i]);
      assert actions[..i + 1] == actions[..i] + [a];
      forall k ensures BindersOf(actions[..i + 1], k) == BindersOf(actions[..i], k) + (if k in Keys(a) then [a] else []) {
        BindersSnoc(actions[..i], a, k);
      }
      i := i + 1;
    }
    assert actions[..i] == actions;
    var errors := map k | k in m && |m[k]| > 1 :: m[k];
    ErrorsAreConflicts(actions, m);
    if errors != map[] {
      r := Panicked(errors);
    } else {
      r := Built(Actions(actions));
    }
  }

  /**
   * The inner loop of the construction: push `a` onto the vector of each of its chords,
   * creating the vector when the chord is new. `pre` is the part of the list already gathered.
   */
  method AddBindings(m0: map<Key, seq<Action>>, a: Action, ks: seq<Key>, ghost pre: seq<Action>)
    returns (m: map<Key, seq<Action>>)
    requires forall i, j :: 0 <= i < j < |ks| ==> ks[i] != ks[j]
    requires forall k :: k in m0 <==> |BindersOf(pre, k)| > 0
    requires forall k :: k in m0 ==> m0[k] == BindersOf(pre, k)
    ensures forall k :: k in m <==> |BindersOf(pre, k)| > 0 || k in ks
    ensures forall k :: k in m ==> m[k] == BindersOf(pre, k) + (if k in ks then [a] else [])
  {
    m := m0;
    var j := 0;
    while j < |ks|
      invariant 0 <= j <= |ks|
      invariant forall k :: k in m <==> |BindersOf(pre, k)| > 0 || k in ks[..j]
      invariant forall k :: k in m ==> m[k] == BindersOf(pre, k) + (if k in ks[..j] then [a] else [])
    {
      var key := ks[j];
      assert key !in ks[..j];
      assert ks[..j + 1] == ks[..j] + [key];
      if key in m {
        m := m[key := m[key] + [a]];
      } else {
        m := m[key := [a]];
      }
      j := j + 1;
    }
    assert ks[..j] == ks;
  }

  /** The hash map the construction loop ends with, filtered as the panic check filters it. */
  lemma ErrorsAreConflicts(actions: seq<Action>, m: map<Key, seq<Action>>)
    requires forall k :: k in m <==> |BindersOf(actions, k)| > 0
    requires forall k :: k in m ==> m[k] == BindersOf(actions, k)
    ensures (map k | k in m && |m[k]| > 1 :: m[k]) == Conflicts(actions)
    ensures Conflicts(actions) == map[] <==> ConflictFree(actions)
  {
    var errors := map k | k in m && |m[k]| > 1 :: m[k];
    var conflicts := Conflicts(actions);
    forall k
      ensures k in errors <==> k in conflicts
      ensures k in errors ==> errors[k] == conflicts[k]
    {
      ConflictsExactly(actions, k);
    }
    assert errors == conflicts;
    NoConflictsIff(actions);
  }

  /** The set `App::new` installs. */
  const StartupActions: seq<Action> := [Quit]

  /** The eight-action set `App::initialized` installs. */
  const InitializedActions: seq<Action> :=
    [Quit, NextFocus, PreviousFocus, SetUiMode, ToggleConfig, GoUp, GoDown, TakeUserInput]

  /** The action whose chord list holds `k`, if any: no chord belongs to two actions. */
  function Owner(k: Key): Option<Action> {
    match k
    case Ctrl(c) => if c == 'c' then Some(Quit) else None
    case Char(c) =>
      if c == 'q' then Some(Quit)
      else if '1' <= c <= '8' then Some(SetUiMode)
      else if c == 'c' then Some(ToggleConfig)
      else if c == 'i' then Some(TakeUserInput)
      else None
    case Tab => Some(NextFocus)
    case ShiftTab => Some(PreviousFocus)
    case Up => Some(GoUp)
    case Down => Some(GoDown)
    case Esc => Some(Action.Escape)
    case Enter => Some(Action.Enter)
    case _ => None
  }

  /** Every chord of an action is owned by that action. */
  lemma OwnerOfKeys(a: Action)
    ensures forall k :: k in Keys(a) ==> Owner(k) == Some(a)
  {
  }

  /** Entries that are distinct actions never share a chord. */
  lemma DistinctIsDisjoint(list: seq<Action>)
    requires forall i, j :: 0 <= i < j < |list| ==> list[i] != list[j]
    ensures PairwiseDisjoint(list)
  {
    forall i, j, k | 0 <= i < j < |list| && k in Keys(list[i])
      ensures k !in Keys(list[j])
    {
      OwnerOfKeys(list[i]);
      OwnerOfKeys(list[j]);
    }
  }

  /** Both sets the application installs build without panicking. */
  lemma InstalledSetsConflictFree()
    ensures ConflictFree(StartupActions)
    ensures ConflictFree(InitializedActions)
  {
    DistinctIsDisjoint(StartupActions);
    ConflictFreeIffDisjoint(StartupActions);
    DistinctIsDisjoint(InitializedActions);
    ConflictFreeIffDisjoint(InitializedActions);
  }

  /** Unit test `should_find_action_by_key`: `Ctrl('c')` resolves to `Quit`. */
  lemma FindByKeyScenario()
    ensures Find(Actions([Quit, NextFocus]), Ctrl('c')) == Some(Quit)
  {
    QuitNextFocusBuilds();
    FindUnambiguous(Actions([Quit, NextFocus]), Ctrl('c'), Quit);
  }

  /** `[Quit, NextFocus]` share no chord, so the set the unit tests use builds without panicking. */
  lemma QuitNextFocusBuilds()
    ensures ConflictFree([Quit, NextFocus])
  {
    ConflictFreeIffDisjoint([Quit, NextFocus]);
  }

  /** Unit test `should_find_action_by_key_not_found`: `Alt('w')` is unbound. */
  lemma FindByKeyNotFoundScenario()
    ensures Find(Actions([Quit, NextFocus]), Alt('w')) == None
  {
    var list := [Quit, NextFocus];
    assert forall b :: b in list ==> b == Quit || b == NextFocus;
  }

  /** Unit test `should_create_actions_from_vec`. */
  lemma CreateFromVecScenario()
    ensures ConflictFree([Quit, NextFocus, PreviousFocus])
  {
    ConflictFreeIffDisjoint([Quit, NextFocus, PreviousFocus]);
  }

  /** Unit test `should_panic_when_create_actions_conflict_key`. */
  lemma ConflictKeyScenario()
    ensures !ConflictFree([Quit, Quit, NextFocus, NextFocus, NextFocus])
  {
    DuplicateActionConflicts([Quit, Quit, NextFocus, NextFocus, NextFocus], 0, 1);
  }
}
