/** The typed preference layer over the app's key-value store: the two
    boolean preferences, how a read of the store becomes a boolean (with its
    default and its I/O-error recovery), and the two setters. */
module DataLocal {

  /** Name of the preference that says whether the emoji list is linear. */
  const IsLinearLayoutKey: string := "is_linear_layout"

  /** Name of the preference that says whether the dark theme is on. */
  const IsDarkThemeKey: string := "is_dark_theme"

  /** One snapshot of the store: every persisted boolean preference by name. */
  type Preferences = map<string, bool>

  /** What reading the store's data can fail with. `IOException` stands for
      every throwable that is an `IOException` or one of its subclasses (the
      store's corruption exception among them); `OtherException` stands only
      for throwables outside that hierarchy. */
  datatype Failure = IOException | OtherException(kind: string)

  /** One emission of the store's data: a snapshot, or a read failure. */
  datatype ReadResult = Read(snapshot: Preferences) | Failed(failure: Failure)

  /** A value, or the exception a read lets through. */
  datatype Outcome<T> = Value(value: T) | Thrown(failure: Failure)

  /** Writing one preference can never alias the other. */
  lemma KeysDistinct()
    ensures IsLinearLayoutKey != IsDarkThemeKey
  {
    assert IsLinearLayoutKey[3] != IsDarkThemeKey[3];
  }

  /** The stored value of `key`, or `default` when the snapshot lacks it. */
  function Get(p: Preferences, key: string, default: bool): bool
  {
    if key in p then p[key] else default
  }

  /** The layout preference as the snapshot holds it; linear by default. */
  function LinearLayoutIn(p: Preferences): bool
  {
    Get(p, IsLinearLayoutKey, true)
  }

  /** The theme preference as the snapshot holds it; light by default. */
  function DarkThemeIn(p: Preferences): bool
  {
    Get(p, IsDarkThemeKey, false)
  }

  /** The edit block of `saveLayoutPreference`: assign the layout key. */
  function WithLinearLayout(p: Preferences, isLinearLayout: bool): Preferences
  {
    p[IsLinearLayoutKey := isLinearLayout]
  }

  /** The edit block of `saveThemePreference`: assign the theme key. */
  function WithDarkTheme(p: Preferences, isDarkTheme: bool): Preferences
  {
    p[IsDarkThemeKey := isDarkTheme]
  }

  /** The `catch` step shared by both reads: an I/O failure becomes the
      empty snapshot, any other failure is re-thrown as it is. */
  function CatchIOException(r: ReadResult): Outcome<Preferences>
  {
    match r
    case Read(p) => Value(p)
    case Failed(IOException) => Value(map[])
    case Failed(e) => Thrown(e)
  }

  /** The `isLinearLayout` read of one emission of the store. */
  function IsLinearLayout(r: ReadResult): (o: Outcome<bool>)
    ensures r.Read? && IsLinearLayoutKey in r.snapshot ==> o == Value(r.snapshot[IsLinearLayoutKey])
    ensures r.Read? && IsLinearLayoutKey !in r.snapshot ==> o == Value(true)
    ensures r == Failed(IOException) ==> o == Value(true)
    ensures r.Failed? && r.failure != IOException ==> o == Thrown(r.failure)
    ensures o.Thrown? ==> o.failure != IOException
  {
    match CatchIOException(r)
    case Value(p) => Value(LinearLayoutIn(p))
    case Thrown(e) => Thrown(e)
  }

  /** The `isDarkTheme` read of one emission of the store. */
  function IsDarkTheme(r: ReadResult): (o: Outcome<bool>)
    ensures r.Read? && IsDarkThemeKey in r.snapshot ==> o == Value(r.snapshot[IsDarkThemeKey])
    ensures r.Read? && IsDarkThemeKey !in r.snapshot ==> o == Value(false)
    ensures r == Failed(IOException) ==> o == Value(false)
    ensures r.Failed? && r.failure != IOException ==> o == Thrown(r.failure)
    ensures o.Thrown? ==> o.failure != IOException
  {
    match CatchIOException(r)
    case Value(p) => Value(DarkThemeIn(p))
    case Thrown(e) => Thrown(e)
  }

  /** The two reads fail together and only on a failure that is not an
      I/O failure; an I/O failure yields exactly the defaults. */
  lemma ReadsFailTogether(r: ReadResult)
    ensures IsLinearLayout(r).Thrown? <==> r.Failed? && r.failure != IOException
    ensures IsDarkTheme(r).Thrown? <==> r.Failed? && r.failure != IOException
    ensures r == Failed(IOException) ==> IsLinearLayout(r) == IsLinearLayout(Read(map[])) && IsDarkTheme(r) == IsDarkTheme(Read(map[]))
  {
  }

  /** The preference store the repository wraps. `Edit` applies one
      transform to the current snapshot as a single atomic update. */
  class DataStore {
    var data: Preferences

    constructor (initial: Preferences)
      ensures data == initial
    {
      data := initial;
    }

    method Edit(transform: Preferences -> Preferences)
      modifies this
      ensures data == transform(old(data))
    {
      data := transform(data);
    }
  }

  /** Typed access to the two preferences of a store. */
  class UserPreferencesRepository {
    const dataStore: DataStore

    constructor (dataStore: DataStore)
      ensures this.dataStore == dataStore
    {
      this.dataStore := dataStore;
    }

    /** Stores the layout preference; the theme and every other key keep their values. */
    method SaveLayoutPreference(isLinearLayout: bool)
      modifies dataStore
      ensures dataStore.data == old(dataStore.data)[IsLinearLayoutKey := isLinearLayout]
      ensures dataStore.data - {IsLinearLayoutKey} == old(dataStore.data) - {IsLinearLayoutKey}
      ensures IsLinearLayout(Read(dataStore.data)) == Value(isLinearLayout)
      ensures IsDarkTheme(Read(dataStore.data)) == IsDarkTheme(Read(old(dataStore.data)))
    {
      dataStore.Edit(p => WithLinearLayout(p, isLinearLayout));
      KeysDistinct();
    }

    /** Stores the theme preference; the layout and every other key keep their values. */
    method SaveThemePreference(isDarkTheme: bool)
      modifies dataStore
      ensures dataStore.data == old(dataStore.data)[IsDarkThemeKey := isDarkTheme]
      ensures dataStore.data - {IsDarkThemeKey} == old(dataStore.data) - {IsDarkThemeKey}
      ensures IsDarkTheme(Read(dataStore.data)) == Value(isDarkTheme)
      ensures IsLinearLayout(Read(dataStore.data)) == IsLinearLayout(Read(old(dataStore.data)))
    {
      dataStore.Edit(p => WithDarkTheme(p, isDarkTheme));
      KeysDistinct();
    }
  }

  /** Saving a preference twice with one value leaves what saving it once
      leaves, and of two saves of one preference the later wins. */
  lemma SaveIsIdempotent(p: Preferences, a: bool, b: bool)
    ensures WithLinearLayout(WithLinearLayout(p, a), a) == WithLinearLayout(p, a)
    ensures WithLinearLayout(WithLinearLayout(p, a), b) == WithLinearLayout(p, b)
    ensures WithDarkTheme(WithDarkTheme(p, a), a) == WithDarkTheme(p, a)
    ensures WithDarkTheme(WithDarkTheme(p, a), b) == WithDarkTheme(p, b)
  {
  }
}
