# Streamer clicker: game state model

A Dafny model of the game-state core of a small idle "streamer" clicker game
(`main.py`). The player taps a button to earn money. Money buys three
upgrades: a microphone (more money per tap), a webcam and a gaming PC
(more passive income per second). The progress lives in one record:
`money`, `subs`, `click_power`, `auto_income` and the `upgrades` levels of
`mic`, `cam` and `pc`. The record is loaded once at start, or replaced by a
default record. Three event handlers change it in place and save it, except
that a tick with no passive income and a purchase the player cannot afford
change nothing and do not save (main.py:109, main.py:141).

The model has three files:

- `rules.dfy`, module `GameRules`. The record (`Record`), the upgrades
  (`Upgrade = Mic | Cam | Pc`), the default record and the loader's fallback
  (`LoadData`). The price rule (`Cost`, `UpgradeInfo`). The three
  transitions as pure functions: `Click`, `Tick` and `Buy`. `Step` and
  `Run` apply events in order. `Persists` and `SaveCount` say which events
  save. `Inv` is the invariant of every record reachable from the default
  one.
- `properties.dfy`, module `GameProperties`. What the rules promise:
  - the price schedule;
  - the all-or-nothing purchase and the effect of each upgrade;
  - the frames of click and tick, repeated clicks, idle ticks;
  - when a save happens;
  - the invariants and monotone levels of every game started from the
    default record.
- `game_data.dfy`, module `GameStore`. The class `GameData` holds the record
  in mutable fields. `OnStreamClick`, `AutoIncomeTick` and `BuyUpgrade`
  update those fields in place. Each is proved to produce exactly the record
  that `Click`, `Tick` or `Buy` gives.
  - Saving is the ghost log `saved`, which holds every record written.
  - The ghost fields `start` and `history` record the loaded record and the
    events handled since. `Valid()` ties the fields to
    `Run(start, history)` and the log length to `SaveCount(start, history)`.

Arithmetic is on unbounded `int`, like Python integers. A loaded record is
taken as it was parsed, with no check of its values, so the invariants are
proved for games that start from the default record (or from a loaded record
that already satisfies `Inv`).

Two details of the code shape the model:

- The fallback loader makes a shallow `dict.copy()` of the default record,
  so the nested `upgrades` dictionary is shared with `default_data`
  (main.py:38-39). The loader runs only once, so nothing observable follows.
  The model does not represent the sharing.
- A save follows every click, but a tick saves only with positive passive
  income, and a purchase only when it goes through (main.py:105,
  main.py:109-112, main.py:141-152).

## Model

| member | source | states |
|---|---|---|
| `GameRules.DefaultRecord` | main.py:23-29 | The default record has a level for every upgrade. Its values are checked by `GameProperties.DefaultSatisfiesInv` and the concrete-game lemmas. |
| `GameRules.Cost` | main.py:123-131 | A price at a non-negative level is positive. The schedule itself is stated by `FirstPrices`, `CostIsLinear` and `CostStrictlyIncreasing`. |
| `GameRules.EffectLabel` | main.py:125-131 | The effect label of each upgrade, as the shop shows it. No contract of its own; it is the text only the display uses. |
| `GameRules.LoadData` | main.py:32-39 | The loaded record, or the default one on fallback; stated by `LoadFallsBackToDefault`. |
| `GameRules.Click` | main.py:101-103 | A click; stated by `ClickAddsClickPower` and `ClicksAccumulate`. |
| `GameRules.Tick` | main.py:107-112 | A tick; stated by `TickEffect` and `IdleTicksChangeNothing`. |
| `GameRules.CanAfford` | main.py:141 | The purchase guard `money >= cost`; its two outcomes are stated by `BuyAffordable`, `BuyUnaffordableIsNoOp` and `BuyChangesIffAffordable`. |
| `GameRules.ApplyEffect` | main.py:145-150 | The effect of one more level; stated by `BuyAffordable` (mic +1 click power, cam +2 and pc +10 passive income). |
| `GameRules.Persists` | main.py:101-153 | Which events call `save_data`: every click, a tick with positive income, a purchase that goes through. Stated by `PersistsIffChanged`, `ClicksAccumulate`, `IdleTicksChangeNothing` and the handlers' `saved` clauses. |
| `GameRules.UpgradeInfo` | main.py:121-132 | The offer for `u`; its level and its price `base * (lvl + 1)` are stated by `OfferShowsCurrentPrice`, `FirstPrices` and `BuyNextCost`. |
| `GameRules.Buy` | main.py:139-153 | A purchase never adds or removes an upgrade key. |
| `GameRules.Step` | main.py:101-153 | Every handler keeps a level for every upgrade. |
| `GameRules.Run` | main.py:101-153 | A run of events keeps a level for every upgrade. |
| `GameRules.SaveCount` | main.py:101-153 | A run saves at most once per event. |
| `GameProperties.FirstPrices` | main.py:123-131 | The first level costs 10 for the microphone, 50 for the webcam and 200 for the PC. |
| `GameProperties.CostIsLinear` | main.py:121-132 | Buying at level `lvl` costs `lvl + 1` times the first price, so the n-th purchase costs n times the first price. |
| `GameProperties.CostStrictlyIncreasing` | main.py:121-132 | A higher level always costs strictly more. |
| `GameProperties.OfferShowsCurrentPrice` | main.py:121-132 | The offer states the current level and the price `base * (lvl + 1)`. |
| `GameProperties.BuyUnaffordableIsNoOp` | main.py:139-153 | With less money than the price, a purchase changes nothing: no field and no level moves. |
| `GameProperties.BuyAffordable` | main.py:141-150 | With enough money a purchase takes exactly the price, so money stays non-negative. It raises the bought level by one and changes no other key. The microphone gives click power +1, the webcam passive income +2 and the PC passive income +10. Nothing else changes. |
| `GameProperties.BuyLeavesOtherLevels` | main.py:143 | A purchase never touches the levels of the other two upgrades. |
| `GameProperties.BuyNextCost` | main.py:122-143 | After a purchase at level `lvl`, the next price of that upgrade is `base * (lvl + 2)`. The other prices stay the same. |
| `GameProperties.BuyChangesIffAffordable` | main.py:139-153 | A purchase changes the record if and only if the player can afford it. |
| `GameProperties.ClickAddsClickPower` | main.py:101-103 | A click adds the click power to the money and changes no other field. |
| `GameProperties.ClicksAccumulate` | main.py:101-105 | `n` clicks in a row add `n` times the click power, change nothing else and save `n` times. |
| `GameProperties.TickEffect` | main.py:107-112 | A tick with positive income adds that income and changes nothing else. A tick without positive income changes nothing. (Whether it saves is stated by `GameData.AutoIncomeTick`.) |
| `GameProperties.IdleTicksChangeNothing` | main.py:107-112 | Any number of ticks with no passive income leave the record as it was and save nothing. |
| `GameProperties.RunAppend` | main.py:101-153 | Handling one more event is one more step after the events before it. |
| `GameProperties.SaveCountAppend` | main.py:101-153 | One more event adds a save exactly when that event persists. |
| `GameProperties.RecordEvent` | main.py:101-153 | A record and save count are where the events lead. After one more event, the new record and count are where the longer sequence leads. |
| `GameProperties.PersistsIffChanged` | main.py:101-153 | From a reachable record, an event saves if and only if it changes the record. |
| `GameProperties.DefaultSatisfiesInv` | main.py:23-29 | The default record satisfies the invariant of reachable records. |
| `GameProperties.LoadFallsBackToDefault` | main.py:32-39 | The loader returns the parsed record when there is one. With no file, or an unreadable or malformed one, it returns the default record. |
| `GameProperties.StepPreservesInv` | main.py:101-153 | Each handler keeps the invariant: money and levels non-negative, click power `1 + mic level`, passive income `2 * cam level + 10 * pc level`, subs 0. |
| `GameProperties.RunPreservesInv` | main.py:101-153 | Any sequence of events keeps the invariant. |
| `GameProperties.ReachableFromDefault` | main.py:23-29 | Every record reachable from the default one has money >= 0, click power >= 1, passive income >= 0 and subs = 0. |
| `GameProperties.StepLevelsNeverDecrease` | main.py:139-153 | No event lowers any level. |
| `GameProperties.RunLevelsNeverDecrease` | main.py:101-153 | No sequence of events lowers any level. |
| `GameProperties.RunKeepsSubs` | main.py:25 | No event ever changes the subscriber count. |
| `GameProperties.FreshGameClickThenBuy` | main.py:101-153 | In a fresh game one click gives money 1. Trying to buy the microphone (price 10) then changes nothing. |
| `GameProperties.BuyFirstMicrophone` | main.py:139-153 | With 10 money the microphone is bought: money 0, click power 2, level 1, next price 20. |
| `GameProperties.OneIncomeTick` | main.py:107-112 | With passive income 2, one tick takes the money from 0 to 2. |
| `GameProperties.BuySecondWebcam` | main.py:139-153 | Buying the webcam at level 1 with exactly 100 money leaves 0 money, passive income up by 2 and the webcam at level 2. |
| `GameStore.GameData.constructor` | main.py:21-39 | A new game holds the loaded record (the default one when loading falls back) and has saved nothing. Its ghost bookkeeping (`Valid()`) holds when the loaded record has a level for every upgrade, which the default record always has. |
| `GameStore.GameData.SaveData` | main.py:41-44 | Saving appends the current record to the save log and changes nothing else. |
| `GameStore.GameData.OnStreamClick` | main.py:101-105 | The fields become `Click` of the old record and the new record is saved. The bookkeeping and the invariant are kept. |
| `GameStore.GameData.AutoIncomeTick` | main.py:107-112 | The fields become `Tick` of the old record. The record is saved only when the income was positive. The bookkeeping and the invariant are kept. |
| `GameStore.GameData.ApplyUpgradeEffect` | main.py:145-150 | The fields gain the effect of one more level of `u`. |
| `GameStore.GameData.PayForUpgrade` | main.py:140-152 | The result says whether the player could afford `u`. The fields become `Buy` of the old record. A save happens exactly on success. |
| `GameStore.GameData.BuyUpgrade` | main.py:139-153 | The fields become `Buy` of the old record and a save happens only on success. The bookkeeping and the invariant are kept. |
| `GameStore.FreshGameKeepsInv` | main.py:23-29 | A game started from the default record satisfies the reachable-record invariant after any handled events. |

## Left out

- The Kivy user interface is not modelled: window colours, the widget tree
  and its bindings in `build`, `update_labels` and `get_upgrade_text`. They
  are presentation only. The effect labels are kept because
  `get_upgrade_info` returns them.
- File I/O is not modelled. `save_data` becomes an append to the ghost log
  `saved`; creating the directory, writing JSON and I/O errors are left out.
  `load_data` becomes `LoadData` over what the loader found (`Missing`,
  `Unreadable`, `Parsed`). Reading and parsing JSON are foreign calls, so no
  save/load round trip is claimed, and a parsed file is not checked.
- The one-second timer (`Clock.schedule_interval`) is not modelled. A tick
  is an event the caller delivers.
- The module-level `game` global is replaced by an explicitly owned
  `GameData` object.
- Upgrade names other than `mic`, `cam` and `pc` are left out: `Upgrade` is
  a closed type. In the source such a name raises `KeyError` at main.py:122
  unless a loaded record carries it as a key, in which case `cost` is
  unbound at main.py:132. The three shop buttons, the only callers, never
  pass one.
- GameRules.LoadData: `Parsed(record)` assumes the parsed file is an object
  with all five keys, integer values and upgrade keys among `mic`, `cam` and
  `pc`. The source accepts any JSON value there, and what follows depends on
  the file: such a file fails at the first line that reads a bad field,
  either in `build` or in a later handler. A missing `subs` is harmless,
  since `subs` is never read. A missing `click_power` raises `KeyError` at
  the first click (main.py:102) or at the first microphone purchase
  (main.py:146); in the purchase, main.py:142-143 have already taken the
  money and raised the level, so the record is left half-updated and is not
  saved. A string or `null` for `money` raises `TypeError` at whichever
  comes first of a click (main.py:103), a purchase (main.py:141) and, when
  `auto_income` is positive, a tick (main.py:110). Float values go through
  the arithmetic as floats. A missing `money`, `auto_income`, `upgrades` or
  upgrade level raises while the interface is built (main.py:60-61,
  main.py:83-91). None of these files is modelled.
- GameStore.GameData.BuyUpgrade: requires the bought upgrade to have a level
  in the record. A loaded file that lacks an upgrade key raises `KeyError`
  in `build` when that upgrade's button text is made (main.py:83-91 through
  `get_upgrade_text` and main.py:122). `build` then never reaches the timer
  at main.py:98 and never returns the interface, so no event is ever
  handled and the requirement holds at every call of the handler. Every
  record reachable from the default one has all three keys.
- The sharing of the nested `upgrades` dictionary between the default
  record and the loaded one is not modelled (see above).
