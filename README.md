# Autobot economy and progression, in Dafny

A model of the rule set of the Autobot chat bot: the experience grant on
every chat message with its level ratchet, and the command handler's
economy: the daily claim, the three gated actions (mine, chop, fish), the
donation transfer, selling, the bag listing, the two top-five leaderboards,
and how the "auto" prefix and the command word are read from a message.

The two database collections (`User` profiles and `Mining` activity
records) and the process-wide map of last experience grants are `map`
fields of one `Economy.Bot` object. Each handler is a method that runs as
one atomic step on them. The clock (`now`, integer milliseconds) is a
parameter. Each random draw is a parameter whose range is a precondition.
Each drop roll is a boolean parameter. `Bot.Valid()` is the invariant every
handler keeps: experience is never negative, no inventory slot is below
zero, and a level is 1 or at most what its experience allows.
`Bot.Solvent()` says that no balance is below zero. Every handler keeps it,
except a donation of a negative amount.

Modules: `Types` (records and their defaults), `Progression` (level
formula and ratchet), `Timing` (cooldown gates and wait times), `Commands`
(prefix, trimming, splitting, lower-casing, branch guards), `Market` (item
names and prices, sell amounts), `Leaderboard` (ranking and the two
boards), `Economy` (the `Bot` class and its handlers), `Scenarios` (concrete
runs).

Behaviours of the code that the model keeps:
- Experience is granted for every message from a non-bot author, command
  messages included.
- The donate branch can never run. Its guard `startsWith("donate ")` needs a
  space, and the command word is one space-free token
  (`Commands.DonateUnreachable`). The transfer body is still modelled as
  `Economy.Bot.Donate`.
- In the transfer, a negative amount passes both checks, so the receiver's
  balance can drop below zero (`Scenarios.NegativeDonationOverdraws`).
  Donating to oneself ends with the balance raised by the amount: the
  receiver copy is read before the donor copy is saved, and is saved last.
- Daily, mine, chop and fish add experience without recomputing the level.
- A missing profile in mine, chop or fish is created without the drawn
  coins and experience. Chop and fish still add the wood or fish count to
  the new profile, because that update comes after the creation.
- Chop pays the wood count as coins too. The top-level `fish` increment of
  fishing is not part of the schema and has no effect.
- A diamond sells for 120 coins while the price list shows 150.
- The message cooldown check treats a stored grant time of 0 as absent,
  which is how the JavaScript truthiness test reads it.

## Model

| member | source | states |
|---|---|---|
| `Types.Index` | index.js:53-59 | the five inventory slots in schema order: wood, apple, diamond, fish, puffer |
| `Types.NewProfile` | index.js:50-60 | a new profile has level 1, no experience, no coins, every slot 0, no daily claim |
| `Progression.LevelFrom` | index.js:125 | counting up from any reached level ends at the largest l with 100·l² ≤ xp |
| `Progression.LevelFor` | index.js:125 | floor(0.1·sqrt(xp)) as integers: 100·l² ≤ xp < 100·(l+1)² |
| `Progression.Ratchet` | index.js:125-127 | the new stored level is at least the old one and at least the computed one, and is one of the two; negative experience leaves it |
| `Progression.LevelMonotone` | index.js:125 | more experience never gives a lower computed level |
| `Progression.LevelCharacterised` | index.js:125 | l is the computed level exactly when 100·l² ≤ xp < 100·(l+1)² (both directions) |
| `Progression.NewcomerKeepsLevelOne` | index.js:122-127 | under 100 experience the computed level is 0, so the default level 1 stays |
| `Progression.RatchetSettles` | index.js:122-127 | once experience grows, a ratcheted level that started at 1 or within the old bound becomes exactly max(1, computed level) |
| `Timing.ActionWaitMs` | index.js:354-359 | the wait reported by mine, chop and fish is cooldown − (now − last), positive, and at most one minute exactly when the last time is not in the future |
| `Timing.DailyWait` | index.js:308-318 | hours and minutes left: whole hours, then whole minutes under 60, of 24 h − elapsed |
| `Timing.DailyWaitBounded` | index.js:308-318 | for a past claim the wait is at most 24 hours, and 24 only when no time has passed |
| `Commands.TrimStart` | index.js:141 | removes exactly the leading white space and line terminators |
| `Commands.TrimEnd` | index.js:141 | removes exactly the trailing white space and line terminators |
| `Commands.Trim` | index.js:141 | the result is a slice of the text with only white space and line terminators outside it, and it neither starts nor ends with one |
| `Commands.TakeWord` | index.js:141 | the longest space-free prefix |
| `Commands.DropSpaces` | index.js:141 | removes exactly the leading spaces |
| `Commands.Split` | index.js:141 | split on runs of spaces gives at least one piece, no piece holds a space, and the first piece is the first word |
| `Commands.SplitRebuilds` | index.js:141 | the pieces, with non-empty runs of spaces between them, are the text again, and no inner piece is empty |
| `Commands.SplitUnique` | index.js:141 | any such reading of the text as space-free pieces between runs of spaces is the split, so the pieces break exactly at the runs of spaces |
| `Commands.SplitKeepsNonSpaces` | index.js:141 | the pieces joined back are the text with every space removed |
| `Commands.SplitTrimmedPieces` | index.js:141 | a trimmed non-empty text splits into non-empty pieces; the empty text into one empty piece |
| `Commands.ToLower` | index.js:142 | lower-casing keeps the length and maps each character |
| `Commands.IsCommand` | index.js:139 | a message is for the command handler exactly when it starts with `auto` |
| `Commands.CommandOf` | index.js:139-142 | the command word is the lower-cased first word of the trimmed text after `auto`, and never contains a space |
| `Commands.Guard` | index.js:145-603 | the condition each branch tests on the command word: equality with its names, or `startsWith` for donate and sell |
| `Commands.Firing` | index.js:145-603 | the branches that run are exactly those whose guard holds on the command word |
| `Commands.GuardsExclusive` | index.js:145-603 | no command word passes two different branch guards |
| `Commands.NoSpaceNoDonate` | index.js:248 | a word without a space fails the donate guard |
| `Commands.DonateUnreachable` | index.js:139-248 | for every message, the donate branch is not among the branches that run |
| `Commands.SellArguments` | index.js:604-606 | the item word is the first word of the trimmed text from the tenth character on, and the amount word is the next word when there is one; neither holds a space, and the item word is empty exactly when that text is |
| `Market.ItemNamed` | index.js:629-649 | a name selects the item with that name, or none when no item has it |
| `Market.ItemNameRoundTrip` | index.js:629-649 | each item is selected by its own name |
| `Market.SalePrice` | index.js:629-643 | every unit sells for a positive price (wood 5, apple 20, diamond 120, fish 10, puffer 100) |
| `Market.ListedPrice` | index.js:586-592 | the printed list shows positive prices (diamond 150) |
| `Market.ListedPriceAgreesExceptDiamond` | index.js:589 | the printed price equals the sale price for every item except diamond |
| `Market.SellQuantity` | index.js:656-666 | a sale goes ahead exactly for `all` or a parsed whole number in 1..held; `all` takes the whole holding |
| `Leaderboard.Outranks` | index.js:207-223 | the sort keys: level then experience, both descending, for the chatters board; coins descending for the richest board |
| `Leaderboard.Insert` | index.js:207 | inserting into a ranked list keeps it ranked and adds exactly that profile |
| `Leaderboard.Rank` | index.js:207 | the ranking is in descending board order and is a permutation of the profiles |
| `Leaderboard.TopChatters` | index.js:206-218 | min(5, n) rows numbered from 1, in descending (level, experience) order, taken from the ranking |
| `Leaderboard.RichestUsers` | index.js:222-235 | min(5, n) rows numbered from 1, in descending coin order, taken from the ranking |
| `Leaderboard.BoardShowsTheTop` | index.js:207-216 | each shown profile is one of the users and ranks at or above everyone after it |
| `Timing.XpCooling` | index.js:107 | a grant time less than a minute old throttles the message, and a stored 0 throttles nothing |
| `Timing.ActionCooling` | index.js:354-357 | mine, chop and fish are refused while their last time is less than a minute old |
| `Timing.DailyCooling` | index.js:308-312 | the daily claim is refused while the last claim is less than 24 hours old |
| `Economy.ActivityOf` | index.js:345-349 | the activity record the upsert finds, or a fresh one with no times |
| `Economy.Refreshed` | index.js:113-120 | the message upsert yields the stored profile with the current name and tag, or a fresh profile |
| `Economy.BagLinesSound` | index.js:572-576 | every bag line is a positive slot with its quantity, in schema order |
| `Economy.BagLinesComplete` | index.js:572-576 | every positive slot gets a bag line |
| `Economy.Bot.constructor` | index.js:10 | the stores start empty and valid |
| `Economy.Bot.OnMessage` | index.js:99-135 | bots and users within a minute of their last grant change nothing; otherwise the profile gains exactly 20 experience, the level is ratcheted (then equals max(1, computed level)) and the grant time becomes now; validity is kept; no balance goes below zero |
| `Economy.Bot.ClaimDaily` | index.js:293-341 | no profile or a claim under 24 h ago changes nothing (the wait is reported); otherwise +50 coins, +100 experience, the claim time becomes now, the level stays; no balance goes below zero |
| `Economy.Bot.Mine` | index.js:343-410 | while cooling nothing changes and the wait is reported; otherwise only the mining time is set, an existing profile gains the drawn coins and experience, a drop adds exactly one diamond, nothing else changes; no balance goes below zero |
| `Economy.Bot.Chop` | index.js:412-481 | while cooling nothing changes; otherwise only the chopping time is set, an existing profile gains w coins and the drawn experience, w wood is added, a drop adds 1 or 2 apples; no balance goes below zero |
| `Economy.Bot.Fish` | index.js:483-552 | while cooling nothing changes; otherwise only the fishing time is set, an existing profile gains the drawn experience, the catch is added to the fish slot, a drop adds 1 or 2 puffers; no balance goes below zero |
| `Economy.Bot.Donate` | index.js:248-291 | usage errors, a missing donor and too few coins change nothing; otherwise the donor loses and the receiver (created when missing) gains the amount, the two balances are conserved for distinct users, the receiver ends with its old balance plus the amount, self-donation raises the balance, and no balance goes below zero when the amount is not negative |
| `Economy.Bot.Sell` | index.js:603-678 | checks in source order, each failure changes nothing; a sale lowers the slot by the amount and pays amount × price; `all` leaves the slot at 0; no balance goes below zero |
| `Economy.Bot.ListBag` | index.js:554-583 | read-only; no profile is reported; the empty notice exactly when no slot is positive; otherwise exactly the positive slots in schema order |
| `Scenarios.MiningTwiceTenSecondsApart` | index.js:343-403 | mining twice 10 s apart: the first pays 1 to 10 coins, the second reports 50 000 ms left and pays nothing |
| `Scenarios.SellingWoodWithoutWood` | index.js:651-654 | selling wood with none held reports nothing to sell and the balance stays 0 |
| `Scenarios.SellingAllDiamonds` | index.js:656-671 | selling all diamonds empties the slot and pays 120 each |
| `Scenarios.ChattersByLevel` | index.js:206-216 | profiles at levels 3, 1, 2 are listed 3, 2, 1 and ranked 1, 2, 3 |
| `Scenarios.ChattersSameLevel` | index.js:207 | of two profiles at the same level, the one with more experience is listed first |
| `Scenarios.NegativeDonationOverdraws` | index.js:253-286 | donating -5 between two empty profiles leaves the donor at 5 and the receiver at -5 |

## Left out

- Connection to the database, the Discord client, login, presence, embeds
  and sending replies: transport and set-up, with no rules in them. Replies
  are modelled as outcome values; their text, and the number formatting in
  it, is not.
- The `help`, `status`, `ping` and `prices` replies: fixed text. The `level`
  and `bal` commands: one profile read and a reply, with no state change.
- The `try`/`catch` around daily, mine, chop and fish: storage failures are
  not modelled, so every handler completes.
- Overlapping handler runs: each handler is one atomic step.
- Floating point. The level formula is stated in integers. Random draws are
  parameters. Remaining times are integer milliseconds instead of seconds
  with one decimal place.
- Mine, chop and fish read the clock twice: once for the cooldown check and
  once for the stored time. The model uses one `now` for both.
- `parseInt` is abstracted: the sell amount is `all` or a parsed value that
  may be NaN, and the donate amount is a parsed value that may be NaN.
- `toLowerCase` is modelled for ASCII letters only. `slice` offsets are
  counted in characters, not UTF-16 code units.
- The database sort is an insertion sort over the documents that
  `User.find()` returns, which are passed in as a sequence. The order among
  equal keys is not modelled.
- The `totalMined`, `totalChopped` and `totalFished` counters: declared,
  but never written.
- The unused terminal reader and `ms` import.
