# BoozeBound drink log, modelled in Dafny

BoozeBound is a local drink log for a phone: the user records drinks (type,
volume in ounces, alcohol by volume, time), sees the week's standard drinks
against a weekly limit as a filling or emptying glass, and keeps a profile
with that limit. There is no server; everything lives in the device's
key-value store (AsyncStorage).

This project models the core of that application:

- `storage.dfy` (module `Storage`): the two-key store of `db/storage.ts`.
  AsyncStorage is a class `Store` whose field `items` maps a key to an
  already-decoded value. Reads (`getProfile`, `getDrinks`, `getDrinksByDate`)
  are functions of the store; writes are methods whose contracts give the new
  `items` map exactly. `saveProfile` and `saveDrinks` overwrite one key;
  `addDrink`, `updateDrink` and `deleteDrink` read the whole drink list,
  change it and write it back. The list operations they use (`filter`, `findIndex`) are recursive
  functions proved against independent facts: membership, multiplicity, order
  (a subsequence predicate), idempotence, and preservation of distinct ids.
- `calculations.dfy` (module `Calculations`): the standard-drink formula over
  `real`, with zero, monotonicity, additivity and the 12 oz beer example.
- `drink_types.dfy` (module `DrinkTypes`): the five-row drink-type table and
  its consistency (distinct ids, `0 < min <= default <= max`, a step that
  tiles both ranges, strengths in [0, 1]); every row's default serving is the
  same 14.1936 g of ethanol.
- `add_drink_sheet.dfy` (module `AddDrinkSheet`): the add/edit sheet's type
  selection with its fallback, the volume and strength option lists, and a
  class `Sheet` for the mounted component: its `useState` initial values, the
  effect, presses on the options, and `handleSubmit` as the list of callback
  calls it makes.
- `drink_visualization.dfy` and `simple_drink_visualization.dfy`: the glass
  level (a clamped remaining percentage), the liquid geometry, when the
  surface and bubbles are drawn, where bubbles can land, and the colours.
- `profile_context.dfy` (module `ProfileContext`): the provider's in-memory
  profile, its load effect and its save handler, and what a consumer gets
  outside a provider.
- `wrappers.dfy`: the `Option` type.

Drinks of a day are those whose ISO timestamp starts with the `YYYY-MM-DD`
text (db/storage.ts:62): a text-prefix test, not a time-zone-aware day
interval. The stored profile has four text fields, and the profile read from
an empty store has an empty weekly limit, not a default of `'14'`
(db/storage.ts:29-34).

The drink record's `type` field is called `kind` in the model, because `type`
is a Dafny keyword.

## Model

| member | source | states |
|---|---|---|
| `Calculations.StandardDrinks` | utils/calculations.ts:1-5 | no alcohol for zero volume or zero strength; never negative for non-negative inputs |
| `Calculations.MonotoneInVolume` | utils/calculations.ts:3-4 | at a fixed non-negative strength, more ounces never give fewer standard drinks |
| `Calculations.MonotoneInAbv` | utils/calculations.ts:3-4 | at a fixed non-negative volume, a stronger drink never gives fewer standard drinks |
| `Calculations.AdditiveInVolume` | utils/calculations.ts:3-4 | standard drinks of two volumes poured together are the sum of each |
| `Calculations.TwelveOunceBeer` | utils/calculations.ts:2-4 | 12 oz at 5% is `354.84 * 0.05 * 0.8 / 14`, between 1.0138 and 1.0139 standard drinks |
| `DrinkTypes.TableIds` | constants/drinkTypes.ts:11-57 | the table has five rows, ids beer, wine, cocktail, shot, custom in that order, pairwise distinct |
| `DrinkTypes.TableWellFormed` | constants/drinkTypes.ts:11-57 | every row has `0 < min <= default <= max`, a positive step, max and default a whole number of steps above min, strength in [0, 1] |
| `DrinkTypes.FindById` | components/AddDrinkSheet.tsx:28 | the lookup finds nothing exactly when no row has the id; otherwise the first row with that id |
| `DrinkTypes.FindOwnId` | constants/drinkTypes.ts:11-57 | looking up any row's id finds that row |
| `DrinkTypes.DefaultServingsAreEqual` | constants/drinkTypes.ts:11-57 | every row's default volume at its default strength is the same number of standard drinks as a 12 oz beer at 5% |
| `Storage.NewDrink.WithId` | db/storage.ts:53 | the stored drink carries the generated id and every field of the submitted one |
| `Storage.Filter` | db/storage.ts:62 | the result holds only accepted elements of the input, each with the same multiplicity as in the input, and is no longer |
| `Storage.FilterIsSubsequence` | db/storage.ts:62 | filtering keeps the input's order (the result is a subsequence) |
| `Storage.FilterIdempotent` | db/storage.ts:76 | filtering twice with the same test equals filtering once |
| `Storage.FilterKeepsAll` | db/storage.ts:76 | a filter that accepts every element returns the input unchanged |
| `Storage.FilterAppend` | db/storage.ts:62 | a general law of the filter model, not a property storage.ts itself relies on: filtering a concatenation is the concatenation of the filtered parts |
| `Storage.IndexOfId` | db/storage.ts:67 | -1 exactly when no entry has the id; otherwise the first position holding it |
| `Storage.StartsWith` | db/storage.ts:62 | `startsWith`: the timestamp is the prefix followed by some rest |
| `Storage.OnDate` | db/storage.ts:62 | the filter of a date keeps only stored drinks whose timestamp starts with it, and is no longer |
| `Storage.Without` | db/storage.ts:76 | the filter of an id keeps only stored drinks with another id, and is no longer |
| `Storage.OnDateSpec` | db/storage.ts:60-63 | the drinks of a date are exactly the stored ones whose timestamp starts with it, with their multiplicity, in stored order |
| `Storage.WithoutSpec` | db/storage.ts:76 | after removal no entry has the id, every entry with another id remains, and the order is kept |
| `Storage.WithoutIdempotent` | db/storage.ts:74-78 | removing an id twice is removing it once; removing an absent id changes nothing |
| `Storage.AppendKeepsIdsDistinct` | db/storage.ts:52-55 | appending a drink with a fresh id keeps ids pairwise distinct |
| `Storage.ReplaceKeepsIdsDistinct` | db/storage.ts:67-69 | replacing an entry by one with the same id keeps ids pairwise distinct |
| `Storage.FilterKeepsIdsDistinct` | db/storage.ts:76 | removing entries keeps ids pairwise distinct |
| `Storage.Store.GetProfile` | db/storage.ts:27-35 | the stored profile, or all four fields empty when the key is absent |
| `Storage.Store.GetDrinks` | db/storage.ts:42-45 | the stored list, or the empty list when the key is absent |
| `Storage.Store.SaveProfile` | db/storage.ts:37-39 | only the profile key is overwritten; reading the profile back gives the saved one, the drinks are unchanged |
| `Storage.Store.SaveDrinks` | db/storage.ts:47-49 | only the drinks key is overwritten; reading the drinks back gives the saved list, the profile is unchanged |
| `Storage.Store.AddDrink` | db/storage.ts:51-58 | returns the entry with the given id; the stored list becomes the old list with it appended; distinct ids stay distinct when the id is fresh |
| `Storage.Store.GetDrinksByDate` | db/storage.ts:60-63 | exactly the stored drinks whose timestamp starts with the date, each with its stored multiplicity, in stored order; reads only |
| `Storage.Store.UpdateDrink` | db/storage.ts:65-72 | the first entry with the drink's id is replaced and nothing else changes; with no such entry the store is not written |
| `Storage.Store.DeleteDrink` | db/storage.ts:74-78 | the list is written back without the entries of that id, others in order; unchanged list when the id is absent; distinct ids stay distinct |
| `Storage.DeleteTwice` | db/storage.ts:74-78 | deleting the same id twice leaves the store as one deletion does |
| `AddDrinkSheet.TypeKey` | components/AddDrinkSheet.tsx:28 | the edited drink's type when there is one and it is not empty, else the requested type; empty only when the requested type is |
| `AddDrinkSheet.InitialAbv` | components/AddDrinkSheet.tsx:31 | the edited drink's strength unless absent or 0, else the row default; 0 only when the row default is 0 |
| `AddDrinkSheet.InitialTime` | components/AddDrinkSheet.tsx:32 | the edited drink's timestamp when there is one, else the selected date |
| `AddDrinkSheet.SelectedDrinkType` | components/AddDrinkSheet.tsx:28 | the row the sheet works with is well formed, so its option lists are consistent |
| `AddDrinkSheet.SelectedMatchesKey` | components/AddDrinkSheet.tsx:28 | the selected row is a table row: the one whose id is the edited drink's type (or the requested type when there is none or it is empty), else the first row |
| `AddDrinkSheet.SelectsRequestedRow` | components/AddDrinkSheet.tsx:28 | opening the sheet for a row's id with nothing edited selects that row |
| `AddDrinkSheet.VolumeOptions` | components/AddDrinkSheet.tsx:53-56 | `floor((max - min) / step) + 1` options (none if not positive), the i-th `min + i * step`, strictly increasing, all within [min, max] |
| `AddDrinkSheet.AbvOptions` | components/AddDrinkSheet.tsx:58-62 | 41 options, the i-th `(i + 3) / 100`, from 0.03 to 0.43, strictly increasing |
| `AddDrinkSheet.OnGridIsOffered` | components/AddDrinkSheet.tsx:53-56 | any volume a whole number of steps above min and not above max is one of the options |
| `AddDrinkSheet.DefaultsAreOffered` | components/AddDrinkSheet.tsx:53-62 | every row's default volume and default strength are among the options shown for it |
| `AddDrinkSheet.Sheet.SelectedType` | components/AddDrinkSheet.tsx:28 | the row the current props select is well formed |
| `AddDrinkSheet.Sheet.Mount` | components/AddDrinkSheet.tsx:30-32 | initial volume is the row default; initial strength the edited drink's unless 0 or absent; time the edited drink's, else the selected date |
| `AddDrinkSheet.Sheet.RunEffect` | components/AddDrinkSheet.tsx:34-42 | volume and strength become the edited drink's, or the selected row's defaults when nothing is edited |
| `AddDrinkSheet.Sheet.Rerender` | components/AddDrinkSheet.tsx:32-42 | new props; the effect's result only when the edited drink or requested type changed; the submitted time never changes |
| `AddDrinkSheet.Sheet.RerenderIntended` | components/AddDrinkSheet.tsx:32-42 | as Rerender, and when the effect runs the submitted time is re-derived from the new props |
| `AddDrinkSheet.Sheet.ChooseVolume` | components/AddDrinkSheet.tsx:97 | pressing an offered volume selects it, and it lies within the row's bounds |
| `AddDrinkSheet.Sheet.ChooseAbv` | components/AddDrinkSheet.tsx:124 | pressing an offered strength selects it, between 3% and 43% |
| `AddDrinkSheet.Sheet.HandleSubmit` | components/AddDrinkSheet.tsx:44-51 | onEdit when editing with onEdit given (and then never onAdd), else onAdd with the row id if given; always ends with exactly one onClose |
| `AddDrinkSheet.EditAfterMountSubmitsMountTime` | components/AddDrinkSheet.tsx:32 | a sheet mounted with nothing edited and then given a drink to edit submits the first render's time, which differs from the drink's timestamp |
| `AddDrinkSheet.EditAfterMountSubmitsDrinkTime` | components/AddDrinkSheet.tsx:32 | with the intended render the same sequence submits the edited drink's timestamp |
| `DrinkVisualization.IsOverLimit` | components/DrinkVisualization.tsx:12 | over the limit exactly when the week's drinks strictly exceed it (the same test as components/SimpleDrinkVisualization.tsx:11) |
| `DrinkVisualization.DrawsSurface` | components/DrinkVisualization.tsx:83 | the surface and bubbles are drawn exactly when the liquid column has positive height |
| `DrinkVisualization.RemainingPercentage` | components/DrinkVisualization.tsx:11 | for any non-zero limit the level lies in [0, 100] |
| `DrinkVisualization.RemainingIsUnusedShare` | components/DrinkVisualization.tsx:11 | for a positive limit: within the limit the level is the unused share of it; 0 at or past the limit; 100 with nothing drunk |
| `DrinkVisualization.RemainingNonIncreasing` | components/DrinkVisualization.tsx:11 | for a fixed positive limit, more drinks never raise the level |
| `DrinkVisualization.EmptyIffLimitReached` | components/DrinkVisualization.tsx:11-12 | the level is 0 exactly when the limit is reached; being over the limit implies an empty glass |
| `DrinkVisualization.FillHeight` | components/DrinkVisualization.tsx:15 | the column height lies in [0, 220] and is 0 exactly when nothing is left |
| `DrinkVisualization.FillY` | components/DrinkVisualization.tsx:16 | the surface lies in [40, 260] and the column always reaches the bottom at 260 |
| `DrinkVisualization.SurfaceIffUnderLimit` | components/DrinkVisualization.tsx:83 | for a positive limit, the surface highlight is drawn exactly while under the limit |
| `DrinkVisualization.BubbleCount` | components/DrinkVisualization.tsx:95 | five bubbles while the surface is drawn, none otherwise |
| `DrinkVisualization.Bubble` | components/DrinkVisualization.tsx:96-101 | for random draws in [0, 1), a bubble has radius in [1.5, 3.5), stays within the walls, and sits under the surface when there is liquid |
| `DrinkVisualization.LiquidColors` | components/DrinkVisualization.tsx:32-33 | red gradient over the limit, gold otherwise |
| `SimpleDrinkVisualization.FillPercentage` | components/SimpleDrinkVisualization.tsx:14 | the fill lies in [0, 100] and fill plus remaining is 100 |
| `SimpleDrinkVisualization.FillIsConsumedShare` | components/SimpleDrinkVisualization.tsx:10-14 | for a positive limit, the fill is the consumed share of the limit clamped to [0, 100] |
| `SimpleDrinkVisualization.FillExtremes` | components/SimpleDrinkVisualization.tsx:10-14 | full at or past the limit, empty with nothing drunk |
| `SimpleDrinkVisualization.FillColor` | components/SimpleDrinkVisualization.tsx:27 | `#ff4444` exactly when over the limit, `#ffd700` exactly otherwise |
| `ProfileContext.ProfileProvider.constructor` | context/ProfileContext.tsx:15-17 | before loading, the provider's profile has an empty weekly limit |
| `ProfileContext.ProfileProvider.Load` | context/ProfileContext.tsx:19-24 | the profile becomes what the store returns, the all-empty default when nothing is stored; the store is only read |
| `ProfileContext.ProfileProvider.HandleSaveProfile` | context/ProfileContext.tsx:26-29 | a successful save writes the store's profile key and then the state, so both equal the new profile; a failed write changes neither |
| `ProfileContext.SaveThroughContext` | context/ProfileContext.tsx:4-12 | outside a provider a save changes nothing; inside one a successful save overwrites only the store's profile key and sets the state, a failed one changes neither; the drinks are never touched |
| `ProfileContext.ProfileThroughContext` | context/ProfileContext.tsx:4-12 | outside a provider the profile read has an empty weekly limit; inside one it is the provider's state |

## Findings

| source | as written | input that shows it | evidently intended | confidence | as-written member | corrected member |
|---|---|---|---|---|---|---|
| components/AddDrinkSheet.tsx:32 | `selectedTime` is a `useState` with no setter, so only the first render's value counts; the main screen keeps the sheet mounted (app/(tabs)/index.tsx:209-221) | mount with nothing edited at 2024-05-04T08:00, then open a drink timestamped 2024-05-03T21:30 for editing and press save: `onEdit` gets 08:00, and the main screen's edit handler (app/(tabs)/index.tsx:43-54) then rewrites the drink's time of day | the time of the drink being edited, re-derived whenever the drink being edited changes | medium, not executed | `AddDrinkSheet.EditAfterMountSubmitsMountTime` | `AddDrinkSheet.Sheet.RerenderIntended` |

The rest of the sheet model keeps the code as written (`Rerender`); the
intended render is modelled beside it.

## Left out

- AsyncStorage I/O and JSON encoding: the store holds decoded values and the JSON round trip is taken as lossless; malformed stored text and parse failures are not modelled.
- Failed store writes: only `ProfileContext.ProfileProvider.HandleSaveProfile` takes the write's outcome as a parameter; the storage methods assume every write succeeds.
- The id generator (`nanoid`) is a parameter of `Storage.Store.AddDrink`; id uniqueness is stated for a fresh id.
- Asynchrony: each operation is atomic; overlap between the load effect and a save, and React's render timing, are not modelled.
- Floating point: volumes, strengths, standard drinks and percentages are `real`, so rounding (for example in `min + i * step`) is not modelled.
- `DrinkVisualization.RemainingPercentage`: requires a non-zero limit; JavaScript's NaN or infinity for a zero limit is not modelled.
- `SimpleDrinkVisualization.FillPercentage`: same requirement, for the same reason.
- `AddDrinkSheet.InitialAbv`: NaN, which JavaScript also treats as falsy, is not modelled.
- `AddDrinkSheet.Sheet.Rerender`: React compares the edited drink by reference; the model compares it by value.
- `Math.random` draws are parameters of `DrinkVisualization.Bubble`.
- SVG path strings, gradient rendering, styles, titles, modal visibility, `constants/Colors.ts` and the type declaration in `src/types` are presentation only.
- The provider's initial literal names only `weeklyLimit`; its other three fields (`sex`, `weight`, `height`) are undefined in the source and modelled as empty text. Nothing is lost: the profile screen treats undefined and `''` alike (`profile.sex || 'male'`, `profile.weight ? … : 150`, app/(tabs)/profile.tsx:25-27, 33-35).
- `utils/date.ts` wraps date-library plugins that are not part of this model; `hooks/useDrinks.ts` only re-exports the storage functions and the formula.
- Navigation and forms (`app/_layout.tsx`, `app/onboarding.tsx`) are not modelled; note that onboarding collects a daily limit and never saves it (app/onboarding.tsx:10, 16).
- The statistics screens (weekly totals, streaks, calendar colouring) are not part of this model.
