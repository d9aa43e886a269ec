# Emoji release screen: preference store and UI state

This project models the settings layer of a small Android demo app. The app
shows a list of emoji, either as a linear list or as a grid, in a light or
a dark theme. Both choices persist in a key-value preference store
(Jetpack DataStore). The model has two parts.

- `DataLocal` (`data_local.dfy`) models the preference repository. It holds
  the two boolean keys `is_linear_layout` and `is_dark_theme`. Each read
  turns one emission of the store into a boolean. A missing key gives the
  default: linear for the layout, light for the theme. An I/O failure is
  replaced by the empty snapshot, so it also yields the defaults. Any other
  failure is re-thrown. Each setter is one atomic edit of the store that
  assigns exactly one key. The store is a class `DataStore`. Its `data`
  field is a `map<string, bool>`, and its `Edit` method applies one
  transform atomically.
- `Ui` (`ui.dfy`) models the view model and its UI state.
  - `EmojiReleaseUiState` pairs the two preferences.
  - The toggle's icon and description are functions of `isLinearLayout`
    alone. Both name the layout the toggle switches to.
  - `UiStateOf` is the combine step. It builds one state from the layout and
    theme reads of the same emission.
  - `EmojiScreenViewModel` holds the repository and the current `uiState`.
    The constructor sets `uiState` to the default state, and only `Collect`
    (one combined emission) changes it. Once a read failure has ended the
    flow, `Collect` changes nothing. `SelectLayout` and `ToggleTheme` write
    only to the store. `Perform` and `Issue` pass screen callbacks on to them.
  - `Run` applies a sequence of those commands to a snapshot. The lemmas
    about it prove that, per key, the last write issued wins. They also
    prove that a command never touches the other key or any unrelated key.

Resource identifiers (`R.string.*`, `R.drawable.*`) are modelled as the
enumerations `StringRes` and `DrawableRes`.

## Model

| member | source | states |
|---|---|---|
| `DataLocal.KeysDistinct` | app/src/main/java/edu/farmingdale/datastoredemo/data/local/UserPreferencesRepository.kt:22-23 | The layout key and the theme key are different names, so writing one never writes the other |
| `DataLocal.IsLinearLayout` | app/src/main/java/edu/farmingdale/datastoredemo/data/local/UserPreferencesRepository.kt:27-38 | A snapshot gives its stored layout value, or `true` when the key is absent. An I/O failure gives `true`. Any other failure is re-thrown unchanged. The read never throws an I/O failure |
| `DataLocal.IsDarkTheme` | app/src/main/java/edu/farmingdale/datastoredemo/data/local/UserPreferencesRepository.kt:41-53 | A snapshot gives its stored theme value, or `false` when the key is absent. An I/O failure gives `false`. Any other failure is re-thrown unchanged. The read never throws an I/O failure |
| `DataLocal.ReadsFailTogether` | app/src/main/java/edu/farmingdale/datastoredemo/data/local/UserPreferencesRepository.kt:27-53 | Each read throws exactly when the emission is a failure other than an I/O failure. An I/O failure reads the same as the empty snapshot |
| `DataLocal.DataStore.Edit` | app/src/main/java/edu/farmingdale/datastoredemo/data/local/UserPreferencesRepository.kt:57-61 | An edit replaces the stored snapshot with the block's transform of the current snapshot, as one update |
| `DataLocal.UserPreferencesRepository.constructor` | app/src/main/java/edu/farmingdale/datastoredemo/data/local/UserPreferencesRepository.kt:18-20 | The repository wraps the store it is given |
| `DataLocal.UserPreferencesRepository.SaveLayoutPreference` | app/src/main/java/edu/farmingdale/datastoredemo/data/local/UserPreferencesRepository.kt:56-62 | The new store is the old one with `is_linear_layout` set to the argument. Every other key is unchanged. The layout read then yields the argument, and the theme read is as before |
| `DataLocal.UserPreferencesRepository.SaveThemePreference` | app/src/main/java/edu/farmingdale/datastoredemo/data/local/UserPreferencesRepository.kt:64-68 | The new store is the old one with `is_dark_theme` set to the argument. Every other key is unchanged. The theme read then yields the argument, and the layout read is as before |
| `DataLocal.SaveIsIdempotent` | app/src/main/java/edu/farmingdale/datastoredemo/data/local/UserPreferencesRepository.kt:56-68 | For each of the two preferences, saving one value twice leaves the same store as saving it once. Of two saves of one preference, the later wins |
| `Ui.EmojiReleaseUiState.Shown` | app/src/main/java/edu/farmingdale/datastoredemo/ui/EmojiScreen.kt:123-133 | The screen draws the list as a linear column exactly when `isLinearLayout` holds, and as a grid otherwise |
| `Ui.EmojiReleaseUiState.ToggleContentDescription` | app/src/main/java/edu/farmingdale/datastoredemo/ui/EmojiScreenViewModel.kt:80-81 | The description names the layout other than the one shown: `grid_layout_toggle` when linear, `linear_layout_toggle` otherwise |
| `Ui.EmojiReleaseUiState.ToggleIcon` | app/src/main/java/edu/farmingdale/datastoredemo/ui/EmojiScreenViewModel.kt:82-83 | The icon pictures the layout other than the one shown: `ic_grid_layout` when linear, `ic_linear_layout` otherwise |
| `Ui.DisplayFieldsIgnoreTheme` | app/src/main/java/edu/farmingdale/datastoredemo/ui/EmojiScreenViewModel.kt:80-83 | Two states with the same layout have the same icon and description, whatever their themes |
| `Ui.UiStateOf` | app/src/main/java/edu/farmingdale/datastoredemo/ui/EmojiScreenViewModel.kt:26-28 | The combined state's two fields are the layout read and the theme read of the same emission, and both are always present. An I/O failure gives the default state. Any other failure is re-thrown |
| `Ui.DefaultsAgree` | app/src/main/java/edu/farmingdale/datastoredemo/ui/EmojiScreenViewModel.kt:77-79 | The empty store and an unreadable store both combine to the default state `(true, false)` |
| `Ui.EmojiScreenViewModel.constructor` | app/src/main/java/edu/farmingdale/datastoredemo/ui/EmojiScreenViewModel.kt:20-36 | The view model's initial `uiState` is the default state, `isLinearLayout = true` and `isDarkTheme = false` |
| `Ui.EmojiScreenViewModel.Collect` | app/src/main/java/edu/farmingdale/datastoredemo/ui/EmojiScreenViewModel.kt:24-36 | While the flow is active, collecting an emission sets `uiState` to the combined state. For a snapshot that is the state the store holds. A re-thrown failure leaves `uiState` as it was. Any read failure, caught or re-thrown, ends the flow, and after that `uiState` never changes |
| `Ui.EmojiScreenViewModel.SelectLayout` | app/src/main/java/edu/farmingdale/datastoredemo/ui/EmojiScreenViewModel.kt:42-46 | Only the store's layout key changes, to the argument, through `SaveLayoutPreference`. The stored state keeps its theme. `uiState` is not assigned |
| `Ui.EmojiScreenViewModel.ToggleTheme` | app/src/main/java/edu/farmingdale/datastoredemo/ui/EmojiScreenViewModel.kt:49-61 | Only the store's theme key changes, to the argument, through `SaveThemePreference`. The stored state keeps its layout. `uiState` is not assigned |
| `Ui.EmojiScreenViewModel.Perform` | app/src/main/java/edu/farmingdale/datastoredemo/ui/EmojiScreen.kt:65-69 | The screen's callback is passed on to `selectLayout` or `toggleTheme`. The store changes by that one command's edit, and `uiState` is not assigned |
| `Ui.EmojiScreenViewModel.Issue` | app/src/main/java/edu/farmingdale/datastoredemo/ui/EmojiScreenViewModel.kt:42-61 | Commands issued one after another leave the store as `Run` of the old store. So the lemmas about `Run` hold for the methods. `uiState` is not assigned |
| `Ui.LastLayoutWins` | app/src/main/java/edu/farmingdale/datastoredemo/ui/EmojiScreenViewModel.kt:42-46 | After any sequence of commands, the layout read is the value of the last `selectLayout`, or the old value if there was none. Theme commands have no effect on it |
| `Ui.LastThemeWins` | app/src/main/java/edu/farmingdale/datastoredemo/ui/EmojiScreenViewModel.kt:49-61 | After any sequence of commands, the theme read is the value of the last `toggleTheme`, or the old value if there was none. Layout commands have no effect on it |
| `Ui.RunKeepsOtherKeys` | app/src/main/java/edu/farmingdale/datastoredemo/ui/EmojiScreenViewModel.kt:42-61 | No sequence of commands changes any key other than the two preferences |
| `Ui.RunUiState` | app/src/main/java/edu/farmingdale/datastoredemo/ui/EmojiScreenViewModel.kt:24-61 | After any sequence of commands, the combined state pairs the last layout selected with the last theme toggled |
| `Ui.PressLayoutButtonShowsPromisedLayout` | app/src/main/java/edu/farmingdale/datastoredemo/ui/EmojiScreen.kt:87-97 | The layout button sends the negation of the current layout. The state that results shows the layout that the icon and the description named, and its theme is unchanged |
| `Ui.EndToEndScenario` | app/src/main/java/edu/farmingdale/datastoredemo/ui/EmojiScreenViewModel.kt:24-61 | From an empty store the state is `(true, false)`. After `toggleTheme(true)` it is `(true, true)`. After `selectLayout(false)` it is `(false, true)`, with the linear-layout icon and description |
| `Ui.IOFailureScenario` | app/src/main/java/edu/farmingdale/datastoredemo/ui/EmojiScreenViewModel.kt:24-36 | The store holds a grid layout and the dark theme, but its read fails with an I/O failure. Both reads then recover the empty snapshot (UserPreferencesRepository.kt:27-53), so the screen shows the default state. Because the flow has ended, a later emission of the stored values does not reach the screen |

## Left out

- Flows, `combine` and `stateIn` scheduling, coroutines, `viewModelScope.launch` and the five-second `WhileSubscribed` grace window are not modelled. A read is a function of one emission of the store. The two reads that `combine` joins are modelled as reads of the same emission. The asynchronous setters are modelled as completing at once.
- After a read failure, the model covers only the end of the flow. In the code, the `catch` operator (UserPreferencesRepository.kt:28-35, 42-50) emits the empty snapshot once and then the flow completes. A failure that is re-thrown also ends it. `Ui.EmojiScreenViewModel.Collect` records this in `active`: after any failure `uiState` no longer changes, so after an I/O failure it stays at the default state (`Ui.IOFailureScenario`). The model does not cover a fresh collection started later, for example when `WhileSubscribed` restarts the upstream after its grace window.
- Write failures are not modelled. A failing `edit` would surface as an exception in the launched coroutine. Every edit in the model succeeds.
- DataStore itself is not modelled: its on-disk format, its write serialisation and its crash safety. `DataStore.Edit` stands for its atomic `edit`.
- `Log.e` calls and the concrete integer values of the resources are not modelled. The resources are enumerations.
- `Ui.EmojiReleaseUiState.ToggleContentDescription`, `Ui.EmojiReleaseUiState.ToggleIcon`: in Kotlin these are constructor parameters with computed defaults, so a caller could override them. Both constructions in the code (EmojiScreenViewModel.kt:28 and :35) leave them at their defaults, so the model derives them and never stores them.
- The Compose rendering in EmojiScreen.kt, the emoji list, `MainActivity.kt` and `EmojiReleaseApplication.kt` are not modelled. They are UI and lifecycle wiring. Its two pieces of logic are modelled. The branch that draws a linear column or a grid (EmojiScreen.kt:123-133) is `Ui.EmojiReleaseUiState.Shown`. The layout button sending the negation of the current layout (EmojiScreen.kt:89) is `Ui.PressLayoutButton`.
- The `Factory` companion of the view model is not modelled. It only looks up the application's repository.
