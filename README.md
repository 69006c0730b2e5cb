# Goodseva shipper app: theme, logistics data and user state

This project models the logic behind the Goodseva shipper app's screens:

- **Theme preference.** A mode (light, dark or auto) is persisted under the storage key `"theme"`. The dark flag is derived from the mode and the device's colour scheme. That flag picks one of two palettes, and the provider copies the choice into the module-level palette.
- **Theme constants.** Two colour palettes that define the same roles, the spacing, radius and font-size scales, the font-weight constants, and the mutable `colors` binding that `setTheme` reassigns and `getColors` reads.
- **Logistics data hook.** A loading flag, four lists and the dashboard statistics, filled from the fixtures when the simulated fetch completes, plus the two in-transit filters.
- **User record.** An optional user that `setUser` replaces and `updateUser` merges a partial record into.
- **Counter text.** The dashboard card's value, shown as its decimal digits left-padded with `"0"` to two characters.
- **Domain records and fixtures.** Drivers, trucks, trips, bids and statistics, with closed status enumerations.

Modules, one per source file: `Types` (types/index.ts), `MockData` (services/mockData.ts), `Theme` (constants/theme.ts), `ThemeContext` (contexts/ThemeContext.tsx), `Logistics` (hooks/useLogistics.ts), `UserContext` (contexts/UserContext.tsx), `StatCard` (components/feature/StatCard.tsx). Two support modules: `Wrappers` (Option, Result) and `AsyncStorage`.

`AsyncStorage` models the persistent key-value store as a map from strings to strings. Each read and each write takes a flag saying whether that access fails, so every failure path of the provider is covered.

State that the app updates in place is a class: `Theme.ThemeModule` (the module-level `colors`), `ThemeContext.ThemeProvider`, `Logistics.LogisticsState`, `UserContext.UserProvider` and `AsyncStorage.Storage`. The pure expressions are functions, with lemmas about them.

Two behaviours of the provider:

- `setTheme` awaits the storage write before it changes the mode (contexts/ThemeContext.tsx:67-68), so a failed save leaves the mode unchanged.
- `loadTheme` keeps the current mode on an absent, invalid or unreadable value (contexts/ThemeContext.tsx:51-62); it falls back to `light` only because that is the initial mode.

## Model

| member | source | states |
|---|---|---|
| Types.ParseDriverStatus | types/index.ts:5 | a string is a driver status exactly when it is "assigned", "available" or "in-transit", and parsing inverts the status literal |
| Types.ParseTruckStatus | types/index.ts:14 | a string is a truck status exactly when it is "in-transit", "available" or "maintenance", and parsing inverts the literal |
| Types.ParseTripStatus | types/index.ts:29 | a string is a trip status exactly when it is "in-transit", "completed" or "scheduled", and parsing inverts the literal |
| Types.ParseBidStatus | types/index.ts:36 | a string is a bid status exactly when it is "pending", "accepted" or "rejected", and parsing inverts the literal |
| Types.StatusNamesInjective | types/index.ts:1-39 | distinct statuses of each enumeration have distinct literals |
| MockData.FixtureCounts | services/mockData.ts:3-113 | there are 3 drivers, 3 trucks, 3 trips and 2 bids |
| MockData.TrucksEmbedDrivers | services/mockData.ts:30-64 | truck i carries driver i by value |
| MockData.IdsDistinct | services/mockData.ts:3-94 | ids are pairwise distinct within the driver, truck and trip lists |
| MockData.InTransitFixtures | services/mockData.ts:30-94 | exactly the first two trips and the first two trucks are in transit; the third trip is scheduled, the third truck available |
| MockData.BidsReferenceTrips | services/mockData.ts:66-113 | every bid's tripId is the tripId of some fixture trip |
| MockData.BidAmountsPositive | services/mockData.ts:96-113 | every bid amount is positive |
| Theme.PaletteFor | constants/theme.ts:140 | the dark scheme selects the dark palette and the light scheme the light palette |
| Theme.PalettesShareKeys | constants/theme.ts:1-75 | the light and dark palettes define the same set of colour roles |
| Theme.BrandColorsShared | constants/theme.ts:1-75 | accent, success, warning and error are defined and equal in both palettes |
| Theme.PalettesDiffer | constants/theme.ts:1-75 | the two palettes differ, so the scheme is determined by the palette it selects |
| Theme.StepsIncreaseStrictly | constants/theme.ts:79-106 | a scale that increases from each step to the next increases between any two steps |
| Theme.SpacingIncreases | constants/theme.ts:79-87 | spacing sizes strictly increase from xs to xxxl |
| Theme.BorderRadiusIncreases | constants/theme.ts:89-95 | corner radii strictly increase from sm to full |
| Theme.FontSizeIncreases | constants/theme.ts:97-106 | font sizes strictly increase from xxs to xxxl |
| Theme.ThemeModule.constructor | constants/theme.ts:77 | the module-level palette starts as the light palette |
| Theme.ThemeModule.SetTheme | constants/theme.ts:139-141 | after the call the palette is the one the argument selects, whatever it was before |
| Theme.ThemeModule.GetColors | constants/theme.ts:143 | returns the current palette and modifies nothing |
| Theme.InitialColors | constants/theme.ts:77 | before any switch, reading the palette gives the light palette |
| Theme.LastCallWins | constants/theme.ts:139-143 | after two switches the palette is the one the last selects, and repeating a switch changes nothing |
| ThemeContext.ModeName | contexts/ThemeContext.tsx:12 | every mode is persisted as one of "light", "dark" and "auto", and only light as "light" and only dark as "dark" |
| ThemeContext.ParseMode | contexts/ThemeContext.tsx:52-57 | a stored value denotes a mode exactly when it is "light", "dark" or "auto", and then it is that mode's literal |
| ThemeContext.IsDarkMode | contexts/ThemeContext.tsx:43-44 | light is never dark whatever the device reports, dark always is, and auto is dark exactly when the device reports dark |
| ThemeContext.DarkModeRule | contexts/ThemeContext.tsx:43-44 | auto gives the same flag as dark on a dark device and as light on any other |
| ThemeContext.AppearanceOf | contexts/ThemeContext.tsx:46 | the global palette is switched to dark exactly when the dark flag is set |
| ThemeContext.ContextColors | contexts/ThemeContext.tsx:74 | the exposed palette is the one the global switch is given for the same flag |
| ThemeContext.ContextColorsSelect | contexts/ThemeContext.tsx:74 | the exposed palette is the dark palette exactly when dark, otherwise the light palette |
| ThemeContext.LoadOutcome | contexts/ThemeContext.tsx:49-63 | a failed read keeps the mode; the mode changes only to a mode whose literal was read; reading a mode's literal yields that mode |
| ThemeContext.InvalidPreferenceIgnored | contexts/ThemeContext.tsx:51-59 | an absent value, "purple" or any other string keeps the current mode |
| ThemeContext.UseTheme | contexts/ThemeContext.tsx:21-27 | with no provider value the result is the "useTheme must be used within ThemeProvider" error; otherwise it is the value |
| ThemeContext.ThemeProvider.Colors | contexts/ThemeContext.tsx:74 | the provider's palette is dark exactly when its dark flag is set |
| ThemeContext.ThemeProvider.Value | contexts/ThemeContext.tsx:74-77 | the provided value carries the provider's own mode and dark flag; the flag is derived from the mode and device scheme; the palette is dark when the flag is set and light when it is not |
| ThemeContext.ThemeProvider.constructor | contexts/ThemeContext.tsx:33-47 | the provider starts in mode light, not dark, and switches the global palette to light |
| ThemeContext.ThemeProvider.SyncAppearance | contexts/ThemeContext.tsx:42-47 | the dark flag becomes the derived value and the global palette follows it |
| ThemeContext.ThemeProvider.LoadTheme | contexts/ThemeContext.tsx:49-63 | the mode becomes the load outcome of the storage read; a failed read changes neither mode nor flag; flag and palette stay consistent |
| ThemeContext.ThemeProvider.SetTheme | contexts/ThemeContext.tsx:65-72 | a successful write stores the mode's literal under "theme" and adopts the mode; a failed write changes neither storage nor mode |
| ThemeContext.ThemeProvider.SystemSchemeChanged | contexts/ThemeContext.tsx:42-47 | a device scheme change keeps the mode and brings the flag and global palette back in line |
| ThemeContext.SaveThenRestart | contexts/ThemeContext.tsx:49-72 | after a successful save of m, a new provider over the same storage loads mode m and shows m's palette, whatever the storage held before |
| ThemeContext.FailedSaveThenRestart | contexts/ThemeContext.tsx:65-72 | after a failed save into empty storage, a restarted provider is back at light |
| AsyncStorage.Storage.GetItem | contexts/ThemeContext.tsx:51 | a read either fails or gives the stored value, or none when the key is absent |
| AsyncStorage.Storage.SetItem | contexts/ThemeContext.tsx:67 | a write either fails and stores nothing or stores the value under the key |
| Logistics.Filter | hooks/useLogistics.ts:36-39 | the filter result is no longer than its input, every element satisfies the predicate and comes from the input |
| Logistics.FilterEmbedding | hooks/useLogistics.ts:36-39 | constructs the increasing positions at which the filter result occurs in the input |
| Logistics.FilterIsSubsequence | hooks/useLogistics.ts:36-39 | the filter result is a subsequence of its input |
| Logistics.FilterCounts | hooks/useLogistics.ts:36-39 | each element satisfying the predicate is kept as often as it occurs, and no other element is kept |
| Logistics.FilterIdempotent | hooks/useLogistics.ts:36-39 | filtering twice by one predicate equals filtering once |
| Logistics.InTransitTrips | hooks/useLogistics.ts:36-37 | exactly the in-transit trips, each as often as in the input, as a subsequence of the input |
| Logistics.InTransitTrucks | hooks/useLogistics.ts:38-39 | exactly the in-transit trucks, each as often as in the input, as a subsequence of the input |
| Logistics.InTransitIdempotent | hooks/useLogistics.ts:36-39 | applying either in-transit filter to its own result changes nothing |
| Logistics.FixtureFilters | hooks/useLogistics.ts:36-39 | over the fixtures, the filters give trips 1 and 2 and trucks 1 and 2 |
| Logistics.LogisticsState.constructor | hooks/useLogistics.ts:12-17 | the hook starts loading, with four empty lists and the fixture statistics |
| Logistics.LogisticsState.LoadData | hooks/useLogistics.ts:23-24 | starting a load sets the loading flag and nothing else |
| Logistics.LogisticsState.CompleteLoad | hooks/useLogistics.ts:26-33 | when the load completes every list and the statistics hold their fixtures and loading is false |
| Logistics.FiltersBeforeLoad | hooks/useLogistics.ts:12-39 | while loading, both filters return empty lists |
| Logistics.CountsAfterLoad | hooks/useLogistics.ts:23-34 | once loaded there are 3 drivers, 3 trucks, 3 trips and 2 bids, and loading is false |
| Logistics.FiltersAfterLoad | hooks/useLogistics.ts:26-39 | once loaded the filters give the first two fixture trips and trucks |
| UserContext.Merge | contexts/UserContext.tsx:32 | each field supplied in the update is taken from it; every other field is kept |
| UserContext.MergeNoFields | contexts/UserContext.tsx:32 | an update that supplies no field leaves the user unchanged |
| UserContext.MergeIdempotent | contexts/UserContext.tsx:32 | applying the same update twice equals applying it once |
| UserContext.MergeSequence | contexts/UserContext.tsx:32 | two updates in a row equal one update combining both, the second winning |
| UserContext.MergeAllFields | contexts/UserContext.tsx:32 | an update supplying every field replaces the user |
| UserContext.UserProvider.constructor | contexts/UserContext.tsx:22-28 | the initial user is the Ramesh Kamenani / Lorry Supplier record |
| UserContext.UserProvider.SetUser | contexts/UserContext.tsx:22 | the user is replaced outright, possibly by none |
| UserContext.UserProvider.UpdateUser | contexts/UserContext.tsx:30-34 | with no user nothing changes; otherwise the user becomes the merge of the update into it |
| UserContext.UpdateAfterSignOut | contexts/UserContext.tsx:30-34 | after the user is cleared, an update leaves no user |
| StatCard.Decimal | components/feature/StatCard.tsx:29 | the decimal text is non-empty, all digits, and starts with "0" only for zero |
| StatCard.DecimalRoundTrip | components/feature/StatCard.tsx:29 | reading the decimal text back gives the value |
| StatCard.DecimalLength | components/feature/StatCard.tsx:29 | the decimal text has k characters where 10^(k-1) <= n < 10^k (k = 1 for n < 10) |
| StatCard.PadStart | components/feature/StatCard.tsx:29 | the padded text has length max(target, input), ends with the input and is fill before it |
| StatCard.FormatStatValue | components/feature/StatCard.tsx:29 | the text has length max(2, digit count) and ends with the decimal text; 0-9 get one leading "0"; 10 and above are the plain decimal text |
| StatCard.FormatStatValueReadsBack | components/feature/StatCard.tsx:29 | the shown text is all digits and reads back as the value |
| StatCard.FormatNine | components/feature/StatCard.tsx:29 | the fixture statistic 9 shows as "09" |
| StatCard.FormatTwentyThree | components/feature/StatCard.tsx:29 | the fixture statistic 23 shows as "23" |
| StatCard.FormatEleven | components/feature/StatCard.tsx:29 | the fixture statistic 11 shows as "11" |
| StatCard.FormatZero | components/feature/StatCard.tsx:29 | 0 shows as "00" |

## Left out

- Rendering: the JSX of every screen and card, the style sheets, and the header's navigation, which wraps a router that is not part of this model.
- Asynchrony and scheduling. `loadTheme` and `setTheme` are each one atomic step that includes the re-run of the appearance effect, and so is a change of the device scheme; the completion of the simulated fetch is one step too. So the render in which `theme` is already new but `isDark` and `colors` still show the old scheme (contexts/ThemeContext.tsx:68, before 42-47 run) is not modelled. The model does not cover a `setTheme` whose write completes before an earlier `loadTheme` read resolves. It also leaves out the 500 ms timer, callbacks after unmount, React's batching, and stale `user` closures when `updateUser` runs twice in one render.
- Storage internals: the asynchronous I/O of AsyncStorage. A failed write is taken to store nothing.
- Logging: the `console.error` calls on a failed load or save.
- The device colour scheme: it is a provider field set by its caller. `None` stands for a scheme the device does not report.
- Floating point: truck coordinates are exact decimals (`real`), bid amounts are integers, and the shadow presets are not modelled.
- `mockDashboardStats`: its values are independent constants; they are not related to the fixture list lengths.
- FormatStatValue: covers exact natural values only. A JavaScript number above 2^53 is a double whose `toString` prints the shortest digits that round-trip and pads with zeros (2**60 shows as "1152921504606847000"), which the model does not reproduce; nor does it model the exponential notation for values of 10^21 and above, or negative and fractional values.
- UserContext.Merge: an update cannot set a required field to `undefined`, which TypeScript's `Partial` would allow. An update can leave the avatar out or set it absent.
- `useTheme` as imported by the stat card comes from hooks/useTheme, which is not part of this model. `UseTheme` models the one in contexts/ThemeContext.tsx.
