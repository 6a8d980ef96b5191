# Memory game: a verified model of the game state machine

This project models the game logic of a browser memory (concentration) game
in Dafny. Cards are dealt face down in pairs. The player turns two at a time.
A matching pair stays face up. A mismatched pair is turned back. The game
tracks moves and elapsed seconds, and keeps the best moves and best time per
difficulty.

The model follows `script.js` and has five modules:

- `Wrappers` (`wrappers.dfy`): the `Option` type used for a record field that
  is not stored yet.
- `Cards` (`cards.dfy`): the difficulty table (grid shape and pair count),
  the symbol palettes, the `Card` value, and the deck built by
  `createGameBoard`. It also has the Fisher–Yates shuffle as a function of the
  swap indices the random source picks, and the count of matched cards.
- `Records` (`records.dfy`): the best-record update of `gameComplete`.
  Stored values are compared with JavaScript truthiness, so a stored `0`
  counts as "no record", the same as `null`.
- `Clock` (`clock.dfy`): `formatTime`, the `MM:SS` rendering, with
  `Number.toString` and `padStart(2, '0')` written out.
- `Session` (`session.dfy`): the class `Game`. Its fields are the
  module-level variables of the game: `gameBoard`, `flippedCards` (here
  `pending`), `matchedPairs`, `moves`, `gameTime`, the timer handle (here the
  flag `timerRunning`), `gameStarted`, `currentDifficulty`, `bestRecords` and
  `isPreviewMode`. Its methods are the event handlers, which update those
  fields in place.

Timers become explicit steps. `FlipCard` returns whether it scheduled the
match check. `CheckMatch` returns whether it scheduled the completion
handler. The caller then runs `CheckMatch`, `GameComplete`, `Tick` (one
second of the clock interval) and `EndPreview` (the end of the preview
timeout) as separate method calls. The randomness of `shuffleCards` is an
input: `js[i]` is the index in `[0, i]` that `Math.random` would pick for
position `i`.

The class invariant `Valid()` says:

- the board has `2 * pairs` cards;
- the pending list holds at most two distinct indices, each of a face-up
  unmatched card, and every face-up unmatched card is pending;
- matched cards are face up;
- `2 * matchedPairs` is the number of matched cards;
- at least `matchedPairs` moves were made, plus one more while a pair is pending;
- the preview has no pending cards;
- the clock runs only after `gameStarted` is set, and reads 0 before;
- a pending card or a matched pair means `gameStarted` is set;
- there is a record for every difficulty.

The symbols on the board are fixed when a game is dealt (`Session.NewBoard`:
each dealt symbol twice). `FlipCard` and `CheckMatch` promise to keep them.

Two behaviours of the code are easy to misread, and the model keeps both:

- The clock starts on any click outside the preview, not only on a click
  that turns a card. `gameStarted` is set and the timer started before the
  guard that rejects a face-up or matched card or a third card
  (script.js:204-213).
- The record tests are `!record.moves` and `!record.time`
  (script.js:295, script.js:301). So a stored 0 counts as no record and is
  overwritten by any later result, even a worse one (`ZeroTimeIsOverwritten`).
  For the same reason `isNewRecord` is also set when a stored 0 is rewritten
  with 0 (`Records.Update`).

Once all pairs are matched, `gameStarted` is true, so no later click can
start the clock again (`Session.ClockStaysStopped`).

## Model

| member | source | states |
|---|---|---|
| Cards.SettingsFor | script.js:26-30 | For each difficulty, rows * cols == 2 * pairs, and pairs > 0 |
| Cards.Palette | script.js:19-23 | Each palette has at least `pairs` symbols, and none is repeated |
| Cards.DealtSymbols | script.js:127-128 | The dealt symbols are `pairs` many, taken from the palette's front |
| Cards.DealtDistinct | script.js:128 | No symbol is dealt twice |
| Cards.Deck | script.js:131-135 | The deck pushed by the forEach loop is twice as long as the symbol list |
| Cards.DeckAt | script.js:131-135 | Slot k of the deck holds symbol k / 2, face down and unmatched |
| Cards.DeckAppend | script.js:132-135 | Each forEach step appends that symbol's two cards at the end |
| Cards.DeckFaceDown | script.js:133-134 | Every card of a fresh deck is unflipped and unmatched |
| Cards.DeckSymbols | script.js:132-135 | The deck's symbol multiset is the symbol list counted twice |
| Cards.DistinctOnce | script.js:19-23 | In a list without repeats each element occurs once and no other value occurs |
| Cards.DealtDeck | script.js:126-136 | The dealt deck has 2 * pairs cards, all face down and unmatched; each of the first `pairs` palette symbols occurs exactly twice and no other symbol occurs |
| Cards.Swap | script.js:142 | The destructuring swap keeps the length |
| Cards.SwapPermutes | script.js:142 | The destructuring swap keeps the multiset of cards |
| Cards.ShuffleFrom | script.js:140-143 | The loop from position i down to 1 keeps the length |
| Cards.Shuffled | script.js:139-144 | The whole shuffle keeps the length |
| Cards.ShuffleFromPermutes | script.js:140-143 | Any run of the loop from position i down to 1, with any indices j in [0, i], keeps the length and the multiset |
| Cards.ShuffledPermutes | script.js:139-144 | The whole shuffle is a permutation for every choice of swap indices |
| Cards.ShuffleFromSymbols | script.js:140-143 | Shuffling the cards shuffles their symbols the same way |
| Cards.ShuffledSymbols | script.js:139-144 | The shuffled board holds each symbol as often as the deck did |
| Cards.ShuffleFromIdentity | script.js:140-143 | If every pick is j == i, the order does not change |
| Cards.SymbolsKept | script.js:216 | Changing a card's flags keeps the board's symbols |
| Cards.MatchedCountUpdate | script.js:238-239 | Replacing one card changes the matched count by exactly that card's change |
| Cards.MatchedCountFull | script.js:245 | At most every card is matched, and all are matched exactly when the count equals the board size |
| Cards.MatchedCountNone | script.js:133-134 | A board with no matched card has count 0 |
| Records.Falsy | script.js:295-301 | `!value` on a stored field: null and 0 are falsy |
| Records.Improves | script.js:295-301 | The record test of one field: nothing truthy stored, or a strictly smaller result |
| Records.Best | script.js:295-304 | A falsy stored field becomes this game's value; a truthy one becomes the minimum of the two; the field changes iff its test fires and the value differs |
| Records.Update | script.js:291-309 | Each field in closed form: a falsy stored field becomes this game's result, a truthy one the minimum of the two. isNewRecord holds iff the record changed, or a stored 0 was rewritten with 0 |
| Records.UpdateBounds | script.js:295-304 | After an update both fields are stored, neither exceeds this game's result, and a truthy stored value never increases |
| Records.UpdateIdempotent | script.js:295-304 | Repeating the same positive result right after recording it changes nothing and is not a new record |
| Records.ZeroTimeIsOverwritten | script.js:301-304 | A stored time of 0 counts as absent and is replaced by any later time |
| Records.ExampleMovesOnly | script.js:295-304 | Stored 20 moves / 90 s, game 18 / 95: only the moves field becomes 18 |
| Records.ExampleTimeOnly | script.js:295-304 | Stored 20 / 90, game 25 / 80: only the time field becomes 80 |
| Records.ExampleFirstGame | script.js:10-14 | With no record stored, the first game fills both fields |
| Clock.FormatTime | script.js:276-280 | The result is a minutes field of at least two digits, ':', and a seconds field of exactly two digits. The seconds read below 60, minutes * 60 + seconds gives back the input, and from 10 minutes on the minutes have no leading zero |
| Clock.DecimalDigits | script.js:279 | The digits `toString` writes denote the number, with no leading zero |
| Clock.Decimal | script.js:279 | `toString` of a natural is a non-empty digit string: one digit exactly below 10, at most two below 100 |
| Clock.LeadingZero | script.js:279 | A leading '0' does not change a digit string's value |
| Clock.ZerosDigits | script.js:279 | Any run of leading zeros does not change the value |
| Clock.Zeros | script.js:279 | The fill of `padStart`: exactly k characters, all '0' |
| Clock.PadTwo | script.js:279 | `padStart(2, '0')`: length the larger of the length and 2, the string itself at the end, and only '0' before it |
| Clock.PadTwoDigits | script.js:279 | `padStart(2, '0')` of a digit string keeps it a digit string of the same value |
| Clock.FormatTimeShort | script.js:276-280 | Below 100 minutes the clock has exactly five characters |
| Clock.FormatTimeInjective | script.js:276-280 | Different second counts are never shown as the same clock |
| Session.NoRecords | script.js:10-14 | The initial table has an empty record for every difficulty |
| Session.FlipStep | script.js:211-218 | Turning up a face-down unmatched card while fewer than two are pending keeps the pending-pair invariant, with that index added; it keeps the matched count and the symbols |
| Session.MarkMatched | script.js:238-239 | The match path marks exactly the two cards matched; no other card changes and no matched flag is cleared |
| Session.TurnBack | script.js:250-251 | The mismatch path turns exactly the two cards face down; no other card and no matched flag changes |
| Session.MatchStep | script.js:236-243 | Resolving a pending pair as a match leaves nothing pending and two more matched cards |
| Session.MismatchStep | script.js:248-256 | Resolving a pending pair as a mismatch leaves nothing pending and the same matched cards |
| Session.NewBoard | script.js:100-103 | A fresh shuffled board has 2 * pairs cards with the dealt symbols twice each, all face down, nothing matched and nothing pending |
| Session.EasyDealInOrder | script.js:126-144 | An Easy deal in palette order has the same symbol in slots 0 and 1, different symbols in slots 2 and 4, and all cards face down |
| Session.Turn | script.js:195-256 | Two clicks on face-down unmatched cards and the match check: one move; a pair becomes face up and matched, a mismatch leaves the board as it was; nothing is left pending |
| Session.EasyOpening | script.js:195-256 | In that deal, turning 0, 1 and then 2, 4 is two moves matching one pair; 0 and 1 stay face up, 2 and 4 are turned face down |
| Session.ClockStaysStopped | script.js:204-207 | After the completion handler of a fully matched game, a further click and a tick leave the clock stopped and the time unchanged |
| Session.Game.constructor | script.js:1-16 | Page load: given stored records or none, it starts an Easy game (as `initGame` does) in a valid state |
| Session.Game.ResetGame | script.js:109-123 | Empty board and pending list, zeroed counters, `gameStarted` cleared, clock stopped; difficulty and records kept |
| Session.Game.CreateGameBoard | script.js:126-136 | The push loop builds exactly the deck of the dealt symbols |
| Session.Game.ShuffleCards | script.js:139-144 | The descending swap loop leaves the board equal to the shuffle function of the old board and the swap indices |
| Session.Game.StartNewGame | script.js:100-106 | Reset, deal, shuffle and enter the preview; the result is valid, with nothing pending, zero counters and the clock stopped |
| Session.Game.ChooseDifficulty | script.js:82-88 | Switches the difficulty and starts a new game of it; records are kept |
| Session.Game.EndPreview | script.js:185-190 | The end of the preview clears the flag and keeps the invariant |
| Session.Game.Accepts | script.js:197-211 | The guards of `flipCard`: outside the preview, a face-down unmatched card, fewer than two pending |
| Session.Game.FlipCard | script.js:195-226 | During the preview nothing changes. Otherwise the clock starts if the game had not started. A rejected click changes no card, no pending entry and no move. An accepted click turns up only that card and appends its index. The move count grows, and the check is scheduled, exactly when the pair becomes complete. No card's symbol changes |
| Session.Game.CheckMatch | script.js:229-258 | Equal symbols: both cards become matched and matchedPairs grows by 1. Otherwise both are turned back. The pending list is emptied, no symbol changes, matched flags are never cleared, and completion is scheduled exactly when every card is matched |
| Session.Game.Tick | script.js:262-265 | A tick adds one second exactly while the clock runs |
| Session.Game.GameComplete | script.js:285-309 | The clock stops, and the current difficulty's record becomes the `Records.Update` of the stored record, the moves and the time; the returned flag is that update's isNewRecord |

## Left out

- Rendering and DOM updates are not modelled: `renderBoard`, `updateDisplay`,
  `updateBestRecordsDisplay`, the element lookups and class changes in
  `flipCard` and `checkMatch`, the completion dialog and `closeModal`'s dialog
  handling. `closeModal` then calls `startNewGame`, which is
  `Session.Game.StartNewGame`.
- Timing is not modelled: `setTimeout`/`setInterval` and their delays (the
  preview's 1000 ms and 500 ms, the 800 ms match dwell, the 500 ms completion
  delay, the one-second interval). Each callback is a method the caller
  invokes. The interval handle is only the flag `timerRunning`.
- Stale callbacks are not modelled: a match check or a preview end left over
  from an earlier game. `Session.Game.CheckMatch` requires a complete pending
  pair, because the code only schedules it then.
- Browser storage is not modelled: loading records from `localStorage` and
  `JSON.parse`, saving them, and the theme preference and toggle. The
  constructor takes the loaded record table as a parameter. Malformed stored
  data is not modelled.
- Listener wiring for clicks, difficulty buttons, `DOMContentLoaded` and the
  keyboard is not modelled. A click is a `FlipCard(index)` call with an index
  of the rendered board.
- The random `id` of each card is left out. It is only a rendering key.
- The shuffle's randomness is not modelled as probability. The model proves a
  permutation for every choice of indices, but not that each permutation is
  equally likely.
- The hidden-iframe script at the end of the file is left out. It has nothing
  to do with the game.
