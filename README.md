# Desafígado 2022 — a verified model of its scorekeeping logic

Desafígado is a React Native app for a drinking contest around one keg. Players are added with a name and a colour. Every tap on a player's card raises that player's tally, logs the tap time and plays a sound: a fixed "milestone" sound for some tallies, otherwise a random one, where rare and epic draws raise a celebration banner. The screen shows how much of the keg is left, and a chart shows each player's cumulative count over half-hour points. The state record is kept in device storage between launches.

This project models the logic behind that screen in Dafny and proves its properties. The modules are:

- `JsNumber` (`js_number.dfy`) holds the JavaScript number behaviour the app relies on.
  - A number is an unbounded integer or NaN.
  - `parseInt(text)` without a radix skips leading white space, takes one optional sign, switches to hexadecimal after `0x`, reads the longest digit run, and gives NaN when no digit is found.
  - The decimal rendering of a natural number, as a template string shows it.
- `Sounds` (`sounds.dfy`) holds the sound tables of `src/App.tsx` and the choice made on every tap.
  - A sound object carries an `id`, because `includes` compares objects by identity and two objects loading one file are different objects.
- `Session` (`session.dfy`) holds the state record `{players, total, stored}` and the pure updaters the handlers give to `setData`.
  - The record also lists player keys in insertion order, which is the order `Object.values` enumerates them in.
  - It holds the amount left and the persistence effect, with device storage as an optional record.
- `App` (`app.dfy`) is the `App` component as a class. Its state cells (`data`, `kegTotal`, `sound`) and the stored record are fields, and each handler is a method that replaces them.
- `Chart` (`chart.dfy`) holds `firstDrink`, the `drinkData` loop as a method proved against a series function, the hour labels, and the datasets and legend.
- `Header` (`header.dfy`) holds the colour palette, the Add-button and name-field predicates, and the add-player form as a class whose methods change its fields.

## Model

| member | source | states |
|---|---|---|
| JsNumber.Sub | src/App.tsx:282 | `total - playersCountTotal` is NaN exactly when an operand is NaN, and is otherwise the integer difference, negative values included |
| JsNumber.ParseInt | src/App.tsx:216 | `parseInt` of blank text, or of text whose first non-blank character is neither a sign nor a digit, is NaN; text that starts with a decimal number (not a `0x` prefix) gives a number of at least 0 |
| JsNumber.ParseIntOfNatToString | src/App.tsx:216 | `parseInt` reads back the decimal text of any natural number, with or without a leading minus and whatever text follows it that is neither a digit nor an `x` or `X` (which would make a lone `0` a hexadecimal prefix) |
| JsNumber.NatToString | src/Chart.tsx:72 | the rendering of a natural number is non-empty, all decimal digits, and starts with `0` only for zero |
| Session.ValuesOfListed | src/App.tsx:220 | when every listed key is present, `Object.values` has one entry per key, in key order |
| Session.PlayerNames | src/App.tsx:231 | for a well-formed record, `Object.keys(data.players)` holds exactly the player keys |
| Session.PlayersCountTotal | src/App.tsx:220-225 | the sum of tallies is 0 without players and never negative for a well-formed record |
| Session.AmountLeft | src/App.tsx:282 | "Amount Left" is NaN exactly when the total is NaN, and for a well-formed record never more than the total |
| Session.Reset | src/App.tsx:160-165 | `resetCount` empties `players` and keeps `total` and `stored` |
| Session.ResetKeepsValid | src/App.tsx:160-165 | the record after a reset is well formed |
| Session.AmountLeftAfterReset | src/App.tsx:160-165 | after a reset the amount left is the whole keg total |
| Session.Increment | src/App.tsx:200-210 | a tap adds one to the player's `amount` and appends exactly the tap time to its `activity`; every other player, `total`, `stored` and the key order are unchanged |
| Session.IncrementKeepsValid | src/App.tsx:200-210 | a tap keeps every player's `amount` equal to the length of its `activity` |
| Session.AmountLeftAfterIncrement | src/App.tsx:200-210 | a tap takes exactly one from the amount left |
| Session.IncrementAllTally | src/App.tsx:200-210 | after any sequence of taps on one player, its tally grows by their number and its activity by their times, in order, and nobody else changes |
| Session.IncrementAllAmountLeft | src/App.tsx:200-225 | repeated taps keep the record well formed and lower the amount left by one per tap |
| Session.TapAllTally | src/App.tsx:200-210 | for any sequence of taps across players, every player's tally grows by the number of taps on that player and its activity by the times of those taps, in order |
| Session.TapAllKeeps | src/App.tsx:200-210 | taps across players change no key, no name, no colour, nor the key order, the total or the loaded flag |
| Session.TapAllAmountLeft | src/App.tsx:200-225 | any sequence of taps across players keeps the record well formed and lowers the amount left by the number of taps |
| Session.AddPlayer | src/App.tsx:233-245 | `onAdd` stores `{name, amount: 0, color, activity: []}` under the name and overwrites an existing entry; a new name is appended to the key order |
| Session.AddPlayerKeepsValid | src/App.tsx:233-245 | adding a player keeps the record well formed, even when it overwrites |
| Session.AmountLeftAfterAdd | src/App.tsx:220-245 | adding a new name leaves the amount left unchanged; overwriting a name gives back that player's tally |
| Session.SetTotal | src/App.tsx:213-218 | `updateKegTotal` replaces only `total`, with `parseInt` of the typed text |
| Session.AmountLeftAfterSetTotal | src/App.tsx:213-225 | saving the decimal text of `n` as the keg total leaves `n - Σ amount` |
| Session.AmountLeftAfterSetTotalNaN | src/App.tsx:213-225 | text that is empty or starts with a character other than a digit, white space or a sign makes the total NaN, and the amount left NaN |
| Session.SumAmountsAppend | src/App.tsx:220-225 | the `reduce` sum of tallies grows by the tally of an appended player |
| Session.SumAfterReplace | src/App.tsx:220-225 | replacing one listed player changes the sum by the difference of its tallies |
| Session.ValuesOfAppend | src/App.tsx:233-245 | a key added last to the order contributes its player last to `Object.values` |
| Session.ValuesOfUnlisted | src/App.tsx:220 | a key outside the order does not show in `Object.values` |
| Session.ExampleAlice | src/App.tsx:200-245 | from the initial record, adding Alice and tapping her five times leaves her tally at 5 and 77 of 82 in the keg |
| Session.ExampleBob | src/App.tsx:200-245 | then adding Bob and tapping him once leaves 76 |
| Session.PersistEffect | src/App.tsx:145-158 | a loaded record is written; a record not yet loaded is written to empty storage and stays unchanged and not loaded; otherwise the stored record replaces it, marked as loaded |
| Session.AfterCommitSettles | src/App.tsx:145-158 | once the effect has re-run, a loaded record is in storage, and a record is only ever replaced by the stored one |
| Session.RelaunchRestores | src/App.tsx:145-158 | a loaded record with a numeric total that was written is exactly what the next launch loads |
| Session.FirstLaunchDropsFirstChange | src/App.tsx:145-158 | as written, on a first launch the initial record is stored but not marked loaded, so the next commit loads the stored initial record over the user's change |
| Session.PersistEffectFixed | src/App.tsx:145-158 | the corrected effect always leaves the record marked as loaded, and keeps it when storage is empty |
| Session.FixedKeepsChanges | src/App.tsx:145-158 | with the correction, every launch ends loaded and stored, and every later change is kept and written |
| Sounds.Presets | src/App.tsx:28-68 | the preset table pairs each amount with its own new sound object |
| Sounds.FindPreset | src/App.tsx:170 | `find` gives nothing exactly when no entry has the amount, and otherwise the sound of the first entry that has it |
| Sounds.FindPresetIff | src/App.tsx:170 | `find` succeeds exactly when the amount occurs in the table |
| Sounds.ChooseSound | src/App.tsx:168-186 | a milestone sound is chosen exactly when `find` succeeds; otherwise the pool entry at the drawn index is chosen, and it carries a tag exactly when it is a rare or epic sound |
| Sounds.PresetFoundIffMilestone | src/App.tsx:28-68 | a milestone sound exists exactly for the amounts 1, 4, 5, 7, 10, 11, 12, 15 and 20 |
| Sounds.FlatRepeat | src/App.tsx:88-100 | `flatMap` into `k` copies has `k` times the length and the same members |
| Sounds.FlatRepeatCounts | src/App.tsx:88-100 | every element occurs exactly `k` times as often after `flatMap` into `k` copies |
| Sounds.RandomPoolTiers | src/App.tsx:70-109 | the pool has 46 entries: indices 0–31 are regular, 32–41 rare and 42–45 epic |
| Sounds.PoolWeights | src/App.tsx:70-109 | the pool is weighted: each of the eight regular sounds has 4 of the 46 entries, each of the five rare sounds 2 and each of the four epic sounds 1 |
| Sounds.ChooseSoundPreset | src/App.tsx:168-173 | a tap plays a milestone sound exactly when the new tally is a milestone, and it is the sound of a table entry for that tally |
| Sounds.ChooseSoundRandom | src/App.tsx:174-186 | otherwise the pool entry at the drawn index plays, tagged Epic for the last four indices, Rare for the ten before them, and untagged for the rest |
| App.AppState.constructor | src/App.tsx:132-143 | the first render holds the initial record (no players, a keg of 82, not loaded) with 82 left, an empty keg-total field and no tag |
| App.AppState.ResetCount | src/App.tsx:160-165 | the record becomes the reset record and stays well formed with the whole keg left |
| App.AppState.UpPlayersCount | src/App.tsx:167-211 | the sound chosen for the player's new tally, the celebration tag it raises, and the tapped record, which stays well formed with one less in the keg |
| App.AppState.PlaySound | src/App.tsx:168-186 | the chosen sound is the milestone sound exactly for a milestone tally; a rare or epic draw sets the tag and any other leaves it |
| App.AppState.CountTap | src/App.tsx:200-210 | the `setData` of a tap: the record becomes the tapped record, which stays well formed with one less in the keg |
| App.AppState.OnAdd | src/App.tsx:233-245 | the record becomes the record with the player added, and stays well formed |
| App.AppState.ChangeKegTotal | src/App.tsx:296 | the keg-total field holds the typed text and nothing else changes |
| App.AppState.UpdateKegTotal | src/App.tsx:213-218 | the record's total becomes `parseInt` of the field and nothing else changes |
| App.AppState.PersistData | src/App.tsx:145-158 | one run of the effect as written; a loaded record, or any record with empty storage, is written unchanged; a well-formed record stays well formed when the stored one is |
| Chart.ChartConstants | src/Chart.tsx:18-20 | one point spans 1,800,000 ms and there are exactly 56 points, 28 hours |
| Chart.FirstActivity | src/Chart.tsx:28-31 | `activity[0]` is defined exactly for a player with a tap |
| Chart.EarlierStep | src/Chart.tsx:26-35 | the reducer takes the first player's first tap at index 0; later it keeps the running value defined exactly when it was, and only ever lowers it to this player's first tap |
| Chart.FirstDrink | src/Chart.tsx:25-37 | `firstDrink` is 0 with no players, and otherwise defined exactly when the first player has a tap |
| Chart.FirstDrinkSpec | src/Chart.tsx:25-37 | `firstDrink` is 0 with no players and undefined when the first player has no tap; otherwise it is the earliest first tap among the players who have one |
| Chart.CountBetween | src/Chart.tsx:44-46 | a filtered count never exceeds the number of taps |
| Chart.DrinkAmount | src/Chart.tsx:43-46 | one point counts at most all of the player's taps, and none when `firstDrink` is undefined |
| Chart.Cumulative | src/Chart.tsx:39-52 | with `firstDrink` undefined the running total stays 0 |
| Chart.DrinkSeries | src/Chart.tsx:39-52 | the series has one value per point, 56 in all |
| Chart.DrinkData | src/Chart.tsx:39-52 | the loop with its running `currAmount` returns exactly the 56-point series of cumulative counts |
| Chart.CumulativeMonotone | src/Chart.tsx:48 | the running total never goes down |
| Chart.SeriesNonDecreasing | src/Chart.tsx:39-52 | every series is non-decreasing |
| Chart.CumulativeUndefined | src/Chart.tsx:43-47 | with `firstDrink` undefined every point is 0 |
| Chart.OffGridStep | src/Chart.tsx:43-47 | widening the window by one interval adds exactly the taps strictly inside the new interval, and none twice |
| Chart.OpenWindow | src/Chart.tsx:43-50 | point `i` counts exactly the taps strictly after `firstDrink - 2 * fiveMin`, strictly before the end of interval `i`, and not on any interval edge |
| Chart.SeriesBounded | src/Chart.tsx:44-50 | no point counts more taps than the player has |
| Chart.FirstDrinkNeverCharted | src/Chart.tsx:43-47 | as written, the tap that sets `firstDrink` sits on an interval edge, so adding it leaves the whole series unchanged |
| Chart.HalfOpenWindow | src/Chart.tsx:43-50 | with the lower edge included, point `i` counts every tap from `firstDrink - 2 * fiveMin` to the end of interval `i`, each once |
| Chart.FixedChartsFirstDrink | src/Chart.tsx:43-47 | with the lower edge included, the tap that sets `firstDrink` is counted from point 2 on |
| Chart.UtcHours | src/Chart.tsx:67-70 | `getUTCHours` is an hour from 0 to 23, or NaN |
| Chart.HourText | src/Chart.tsx:72 | an hour label is at least four characters and ends in " PM" exactly for an hour after noon, " AM" otherwise (NaN included) |
| Chart.Label | src/Chart.tsx:66-76 | a label is blank exactly at even points; with `firstDrink` undefined an odd label reads "NaN AM" |
| Chart.Labels | src/Chart.tsx:66-76 | there is one label per point, 56 in all, each the label of its point |
| Chart.HourTextReadsBack | src/Chart.tsx:72 | `parseInt` of an hour label gives the 12-hour clock hour, and the suffix is " PM" exactly after noon, so noon reads "12 AM" and midnight "0 AM" |
| Chart.LabelsAlternate | src/Chart.tsx:66-76 | even labels are blank and odd labels are not; with `firstDrink` undefined every odd label is "NaN AM" |
| Chart.LabelHour | src/Chart.tsx:66-72 | an odd label shows the UTC hour of `firstDrink + index * fiveMin`, which is two interval widths after the lower edge of the same point |
| Chart.BuildChart | src/Chart.tsx:54-82 | the chart has 56 labels and one dataset and one legend name per entry of `Object.values` |
| Chart.ChartOfValid | src/Chart.tsx:54-64 | for a well-formed record there is one dataset per player in the order they were added: the legend is their names, each dataset is that player's series against the shared `firstDrink` in that player's colour, and no line ends above that player's tally |
| Chart.FirstPlayerChart | src/Chart.tsx:25-37 | the chart of a first player without taps stays at 0 with every odd label "NaN AM" |
| Header.PaletteDistinct | src/Header.tsx:18-37 | the `colors` palette offers 18 distinct, non-empty colour names |
| Header.NameInvalidIffPlayer | src/Header.tsx:87-94 | for a well-formed record the name field is flagged exactly when the name already belongs to a player, and then Add is disabled whatever colour is picked, so two players cannot share a name |
| Header.AddDisabled | src/Header.tsx:123-127 | a flagged name disables Add, and an enabled Add has a non-empty name and a non-empty colour |
| Header.AddEnabledWhen | src/Header.tsx:87-127 | a flagged name always disables Add; with a palette colour picked, Add is enabled exactly for a non-empty name that is not flagged |
| Header.EnabledAddIsFresh | src/Header.tsx:116-127 | an enabled Add on a well-formed record adds a new name: one key is appended, the existing players are untouched, the record stays well formed and the amount left does not move |
| Header.AddPlayerForm.constructor | src/Header.tsx:48-50 | the form starts with an empty name, no colour and the modal closed |
| Header.AddPlayerForm.Open | src/Header.tsx:65 | the header's Add Player button opens the modal |
| Header.AddPlayerForm.ChangeName | src/Header.tsx:91 | typing sets the name |
| Header.AddPlayerForm.PickColor | src/Header.tsx:106 | pressing a swatch sets `playerColor` to that palette colour |
| Header.AddPlayerForm.Close | src/Header.tsx:74-78 | closing the modal clears the name and the colour |
| Header.AddPlayerForm.PressAdd | src/Header.tsx:116-121 | Add hands the current name and colour to `onAdd`, both non-empty and the name new, then clears the form and closes the modal |

## Left out

- Rendering, layout, the theme and the chart configuration are left out. That includes the colour function of each dataset, which looks up shade 500 of the player's scheme, so `Chart.Dataset` keeps the scheme name.
- Sound playback (`.play()`) is left out. Only which sound object is chosen and which tag it sets are modelled.
- `Math.random()` is left out. The pool index and the tap time are parameters of `App.AppState.UpPlayersCount`.
- The local-time computation of milliseconds since midnight is left out, because it depends on the device's time zone and daylight saving.
- The 5-second timer that clears the celebration tag and the random banner image are left out.
- The fill-bar height is floating-point division and is left out.
- `src/PlayerCard.tsx` is not part of this model. Its tap lock-out and last-tap display are UI debouncing.
- The long presses that open the keg-total modal and trigger `resetCount` are left out. They are gestures; the handlers they call are modelled.
- Device storage is synchronous, and `JSON.stringify`/`JSON.parse` are the identity. The asynchronous gap between reading storage and `setData` is not modelled.
- Session.RelaunchRestores holds only for a numeric total. `JSON.stringify` writes a NaN total (saved from an empty keg-total field) as `null`, so the next launch loads `null`, and "Amount Left" then shows minus the sum of tallies instead of NaN. The model stores the record as it is and does not capture that change.
- React's batching of updates is not modelled. Every handler sees the committed record, and the persistence effect runs when `App.AppState.PersistData` is called.
- Numbers are unbounded integers or NaN. Rounding to the nearest double for values beyond 2^53 is not modelled.
- Session.Data: JavaScript enumerates integer-like keys such as "7" before all other keys in ascending order. The model always uses insertion order.
- App.AppState.UpPlayersCount: the new tally comes from the rendered `data`, but the update spreads `curr`. These coincide here because the model applies each update to the committed record.
- App.AppState.PersistData models the effect as written. The corrected effect is `Session.PersistEffectFixed`, and its properties are proved beside it.
- Chart.BuildChart and Chart.DrinkData use the comparisons as written. The corrected comparison is the `HalfOpen` mode of `Chart.DrinkSeries`, and its properties are proved beside it.

## Findings

| source | as written | input that shows it | evidently intended | confidence | as-written member | corrected member |
|---|---|---|---|---|---|---|
| src/App.tsx:145-158 | On a first launch with empty storage, the effect writes the initial record but leaves `stored` false. At the next commit the effect reads storage again, finds the initial record and replaces the current one with it. | Start with empty storage and add a player: the player disappears and the record is the initial one, now marked as loaded. | After writing to empty storage the record counts as loaded, so later changes are kept and written. | high (not executed) | Session.FirstLaunchDropsFirstChange | Session.FixedKeepsChanges |
| src/Chart.tsx:43-47 | Both bucket comparisons are strict. Point `j` starts at `firstDrink + (j - 2) * fiveMin`, so the tap at `firstDrink` is the upper edge of point 1 and the lower edge of point 2, and neither counts it. Every other tap on an interval edge is dropped too. | One player with a single tap at 1000 ms: every point of the chart is 0, although the player's tally is 1. | Each tap is counted once, in the point whose interval contains it, with the lower edge included. | high (not executed) | Chart.FirstDrinkNeverCharted | Chart.FixedChartsFirstDrink |

`getUTCHours` is applied to a value that counts milliseconds since local midnight, not since the epoch. Read as a date, that count falls on 1 January 1970 UTC, so `getUTCHours` gives the local clock hour of the tap time shifted by the point's offset, and the labels show local hours as intended. `Chart.LabelHour` states the hour each label shows.
