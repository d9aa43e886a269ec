/** The emoji screen's UI state and the view model that derives it from the
    preference store: the state pairs the two preference reads, its two
    display fields follow from the layout alone, and the two commands only
    write to the store. */
module Ui {
  import opened DataLocal

  /** The two ways the emoji list can be laid out. */
  datatype Layout = Linear | Grid

  /** The string resources that describe the layout toggle. */
  datatype StringRes = GridLayoutToggle | LinearLayoutToggle

  /** The drawable resources that draw the layout toggle. */
  datatype DrawableRes = IcGridLayout | IcLinearLayout

  function Other(l: Layout): Layout
  {
    match l
    case Linear => Grid
    case Grid => Linear
  }

  /** The layout a description names. */
  function DescribedLayout(d: StringRes): Layout
  {
    match d
    case GridLayoutToggle => Grid
    case LinearLayoutToggle => Linear
  }

  /** The layout an icon pictures. */
  function DrawnLayout(i: DrawableRes): Layout
  {
    match i
    case IcGridLayout => Grid
    case IcLinearLayout => Linear
  }

  /** What the emoji screen shows. The toggle's description and icon are
      derived from `isLinearLayout` and are never stored. */
  datatype EmojiReleaseUiState = EmojiReleaseUiState(isLinearLayout: bool, isDarkTheme: bool)
  {
    /** The layout the screen draws the list in: a linear column exactly
        when `isLinearLayout` holds, a grid otherwise. */
    function Shown(): (l: Layout)
      ensures l == Linear <==> isLinearLayout
    {
      if isLinearLayout then Linear else Grid
    }

    /** The toggle is described by the layout it switches to. */
    function ToggleContentDescription(): (d: StringRes)
      ensures DescribedLayout(d) == Other(Shown())
    {
      if isLinearLayout then GridLayoutToggle else LinearLayoutToggle
    }

    /** The toggle pictures the layout it switches to. */
    function ToggleIcon(): (i: DrawableRes)
      ensures DrawnLayout(i) == Other(Shown())
    {
      if isLinearLayout then IcGridLayout else IcLinearLayout
    }
  }

  /** The state before the store has been read: linear layout, light theme. */
  const DefaultUiState := EmojiReleaseUiState(true, false)

  /** The display fields depend on the layout and not on the theme. */
  lemma DisplayFieldsIgnoreTheme(s: EmojiReleaseUiState, t: EmojiReleaseUiState)
    requires s.isLinearLayout == t.isLinearLayout
    ensures s.ToggleIcon() == t.ToggleIcon()
    ensures s.ToggleContentDescription() == t.ToggleContentDescription()
  {
  }

  /** The combine step: one UI state from the layout and theme reads of the
      same emission of the store. Both fields are always filled in. */
  function UiStateOf(r: ReadResult): (o: Outcome<EmojiReleaseUiState>)
    ensures r.Read? ==> o == Value(EmojiReleaseUiState(LinearLayoutIn(r.snapshot), DarkThemeIn(r.snapshot)))
    ensures r == Failed(IOException) ==> o == Value(DefaultUiState)
    ensures r.Failed? && r.failure != IOException ==> o == Thrown(r.failure)
    ensures o.Value? ==> IsLinearLayout(r) == Value(o.value.isLinearLayout) && IsDarkTheme(r) == Value(o.value.isDarkTheme)
  {
    match (IsLinearLayout(r), IsDarkTheme(r))
    case (Value(layout), Value(theme)) => Value(EmojiReleaseUiState(layout, theme))
    case (Thrown(e), _) => Thrown(e)
    case (_, Thrown(e)) => Thrown(e)
  }

  /** An empty store and an unreadable store both give the default state. */
  lemma DefaultsAgree()
    ensures UiStateOf(Read(map[])) == Value(DefaultUiState)
    ensures UiStateOf(Failed(IOException)) == Value(DefaultUiState)
  {
  }

  /** The screen's two callbacks, as the user issues them. */
  datatype Command = SelectLayoutTo(isLinearLayout: bool) | ToggleThemeTo(isDarkTheme: bool)

  /** The store write one command causes. */
  function Apply(p: Preferences, c: Command): Preferences
  {
    match c
    case SelectLayoutTo(b) => WithLinearLayout(p, b)
    case ToggleThemeTo(b) => WithDarkTheme(p, b)
  }

  /** The store after the commands have been applied in the order issued. */
  function Run(p: Preferences, cs: seq<Command>): Preferences
    decreases |cs|
  {
    if cs == [] then p else Run(Apply(p, cs[0]), cs[1..])
  }

  /** The layout the last layout command carries, or `initial` when there is none. */
  function FinalLayout(cs: seq<Command>, initial: bool): bool
    decreases |cs|
  {
    if cs == [] then initial
    else match cs[|cs| - 1]
      case SelectLayoutTo(b) => b
      case ToggleThemeTo(_) => FinalLayout(cs[..|cs| - 1], initial)
  }

  /** The theme the last theme command carries, or `initial` when there is none. */
  function FinalTheme(cs: seq<Command>, initial: bool): bool
    decreases |cs|
  {
    if cs == [] then initial
    else match cs[|cs| - 1]
      case ToggleThemeTo(b) => b
      case SelectLayoutTo(_) => FinalTheme(cs[..|cs| - 1], initial)
  }

  lemma {:induction false} RunSnoc(p: Preferences, cs: seq<Command>, c: Command)
    ensures Run(p, cs + [c]) == Apply(Run(p, cs), c)
    decreases |cs|
  {
    if cs != [] {
      assert (cs + [c])[1..] == cs[1..] + [c];
      RunSnoc(Apply(p, cs[0]), cs[1..], c);
    }
  }

  /** Per key, the last write issued wins: after any commands the layout read
      gives the last layout selected (or the old value if none was), whatever
      theme commands came in between. */
  lemma {:induction false} LastLayoutWins(p: Preferences, cs: seq<Command>)
    ensures LinearLayoutIn(Run(p, cs)) == FinalLayout(cs, LinearLayoutIn(p))
    decreases |cs|
  {
    if cs != [] {
      var init, last := cs[..|cs| - 1], cs[|cs| - 1];
      assert cs == init + [last];
      RunSnoc(p, init, last);
      LastLayoutWins(p, init);
      KeysDistinct();
    }
  }

  /** Per key, the last write issued wins: the theme read gives the last theme
      toggled (or the old value if none was), whatever layout commands came in between. */
  lemma {:induction false} LastThemeWins(p: Preferences, cs: seq<Command>)
    ensures DarkThemeIn(Run(p, cs)) == FinalTheme(cs, DarkThemeIn(p))
    decreases |cs|
  {
    if cs != [] {
      var init, last := cs[..|cs| - 1], cs[|cs| - 1];
      assert cs == init + [last];
      RunSnoc(p, init, last);
      LastThemeWins(p, init);
      KeysDistinct();
    }
  }

  /** The commands never touch a key other than the two preferences. */
  lemma {:induction false} RunKeepsOtherKeys(p: Preferences, cs: seq<Command>)
    ensures Run(p, cs) - {IsLinearLayoutKey, IsDarkThemeKey} == p - {IsLinearLayoutKey, IsDarkThemeKey}
    decreases |cs|
  {
    if cs != [] {
      var q := Apply(p, cs[0]);
      assert q - {IsLinearLayoutKey, IsDarkThemeKey} == p - {IsLinearLayoutKey, IsDarkThemeKey};
      RunKeepsOtherKeys(q, cs[1..]);
    }
  }

  /** After any commands the combined state pairs the last layout selected
      with the last theme toggled. */
  lemma RunUiState(p: Preferences, cs: seq<Command>)
    ensures UiStateOf(Read(Run(p, cs))) ==
      Value(EmojiReleaseUiState(FinalLayout(cs, LinearLayoutIn(p)), FinalTheme(cs, DarkThemeIn(p))))
  {
    LastLayoutWins(p, cs);
    LastThemeWins(p, cs);
  }

  /** What the layout button sends: the negation of the layout shown. */
  function PressLayoutButton(s: EmojiReleaseUiState): Command
  {
    SelectLayoutTo(!s.isLinearLayout)
  }

  /** Pressing the layout button brings up the layout its icon and
      description promised, and leaves the theme as it was. */
  lemma PressLayoutButtonShowsPromisedLayout(p: Preferences)
    ensures var s := EmojiReleaseUiState(LinearLayoutIn(p), DarkThemeIn(p));
            var t := EmojiReleaseUiState(LinearLayoutIn(Apply(p, PressLayoutButton(s))), DarkThemeIn(Apply(p, PressLayoutButton(s))));
            t.Shown() == DrawnLayout(s.ToggleIcon()) == DescribedLayout(s.ToggleContentDescription())
            && t.isDarkTheme == s.isDarkTheme
  {
    KeysDistinct();
  }

  /** The view model behind the emoji screen. `uiState` is the current value
      of its state holder; only `Collect` sets it, from what the store emits.
      `active` says whether the combined flow is still collecting: a read
      failure ends it, whether the failure is caught (the fallback emission
      is the last one) or re-thrown. */
  class EmojiScreenViewModel {
    const repository: UserPreferencesRepository
    var uiState: EmojiReleaseUiState
    var active: bool

    constructor (repository: UserPreferencesRepository)
      ensures this.repository == repository
      ensures uiState == DefaultUiState
      ensures active
    {
      this.repository := repository;
      uiState := DefaultUiState;
      active := true;
    }

    /** The state the store's current data determines. */
    function StoredUiState(): EmojiReleaseUiState
      reads repository.dataStore
    {
      EmojiReleaseUiState(LinearLayoutIn(repository.dataStore.data), DarkThemeIn(repository.dataStore.data))
    }

    /** The store emitted `r`, its current data or a read failure; `o` is
        what the combine step makes of it. While the flow is active, a value
        becomes the held state and a re-thrown failure leaves it as it was.
        Any failure ends the flow; once it has ended, nothing more is held. */
    method Collect(r: ReadResult) returns (o: Outcome<EmojiReleaseUiState>)
      requires r.Read? ==> r.snapshot == repository.dataStore.data
      modifies this
      ensures o == UiStateOf(r)
      ensures r.Read? ==> o == Value(StoredUiState())
      ensures uiState == if old(active) && o.Value? then o.value else old(uiState)
      ensures active == (old(active) && r.Read?)
    {
      o := UiStateOf(r);
      if active && o.Value? {
        uiState := o.value;
      }
      active := active && r.Read?;
    }

    /** Forwards to the repository; the held state changes only when the
        store's next emission is collected. */
    method SelectLayout(isLinearLayout: bool)
      modifies repository.dataStore
      ensures repository.dataStore.data == Apply(old(repository.dataStore.data), SelectLayoutTo(isLinearLayout))
      ensures StoredUiState() == old(StoredUiState()).(isLinearLayout := isLinearLayout)
      ensures uiState == old(uiState)
    {
      repository.SaveLayoutPreference(isLinearLayout);
    }

    /** Forwards to the repository; the held state changes only when the
        store's next emission is collected. */
    method ToggleTheme(isDarkTheme: bool)
      modifies repository.dataStore
      ensures repository.dataStore.data == Apply(old(repository.dataStore.data), ToggleThemeTo(isDarkTheme))
      ensures StoredUiState() == old(StoredUiState()).(isDarkTheme := isDarkTheme)
      ensures uiState == old(uiState)
    {
      repository.SaveThemePreference(isDarkTheme);
    }

    /** One callback of the screen, forwarded to the matching command. */
    method Perform(c: Command)
      modifies repository.dataStore
      ensures repository.dataStore.data == Apply(old(repository.dataStore.data), c)
      ensures uiState == old(uiState) && active == old(active)
    {
      match c
      case SelectLayoutTo(b) => SelectLayout(b);
      case ToggleThemeTo(b) => ToggleTheme(b);
    }

    /** Callbacks issued one after another: the store ends as `Run` says. */
    method Issue(cs: seq<Command>)
      modifies repository.dataStore
      ensures repository.dataStore.data == Run(old(repository.dataStore.data), cs)
      ensures uiState == old(uiState) && active == old(active)
      decreases |cs|
    {
      if cs != [] {
        Perform(cs[0]);
        Issue(cs[1..]);
      }
    }
  }

  /** From an empty store: the default state, then the theme turned dark,
      then the grid layout selected; each state is the one collected after
      the preceding command. */
  method EndToEndScenario() returns (initial: EmojiReleaseUiState, themed: EmojiReleaseUiState, final: EmojiReleaseUiState)
    ensures initial == DefaultUiState
    ensures themed == EmojiReleaseUiState(true, true)
    ensures final == EmojiReleaseUiState(false, true)
    ensures final.ToggleIcon() == IcLinearLayout && final.ToggleContentDescription() == LinearLayoutToggle
  {
    var store := new DataStore(map[]);
    var repository := new UserPreferencesRepository(store);
    var viewModel := new EmojiScreenViewModel(repository);
    initial := viewModel.uiState;
    viewModel.ToggleTheme(true);
    var _ := viewModel.Collect(Read(store.data));
    themed := viewModel.uiState;
    viewModel.SelectLayout(false);
    var _ := viewModel.Collect(Read(store.data));
    final := viewModel.uiState;
  }

  /** A store holding a grid layout and the dark theme whose read fails with
      an I/O failure: the screen keeps the default state, and since the flow
      has ended, the stored preferences do not reach it afterwards. */
  method IOFailureScenario() returns (recovered: EmojiReleaseUiState, later: EmojiReleaseUiState)
    ensures recovered == DefaultUiState
    ensures later == DefaultUiState
  {
    var store := new DataStore(map[IsLinearLayoutKey := false, IsDarkThemeKey := true]);
    var repository := new UserPreferencesRepository(store);
    var viewModel := new EmojiScreenViewModel(repository);
    var _ := viewModel.Collect(Failed(IOException));
    recovered := viewModel.uiState;
    var _ := viewModel.Collect(Read(store.data));
    later := viewModel.uiState;
  }
}
