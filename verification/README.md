# UwU meter scoreboard, in Dafny

A model of the scoreboard of the UwU meter Discord bot. The bot watches chat
messages. Every message whose lower-cased text contains `uwu` and whose
author is not a bot adds one to a running total (`uwu_count`) and one to
its author's entry in the `Leaderboard` map. Both values are saved to a
key/value persistence instance under the keys `"uwu_count"` and
`"leaderboard"` after every change, and read back at startup. Slash commands
show the total (`uwumeeter`), the best users (`uwulead`), the caller's own
count (`uwume`), or replace the whole leaderboard with one supplied as JSON
(`uwureset`).

Files and modules:

- `wrappers.dfy` (`Wrappers`): `Option` and `Result`.
- `text.dfy` (`Text`): the string operations the bot relies on. These are ASCII lower-casing, substring search, and the decimal rendering of numbers, with its read-back lemma.
- `scoreboard.dfy` (`Scoreboard`): the core of `src/main.rs`.
  - Classes: the `Leaderboard` class with `update_score`, the `PersistInstance` store and the `Bot` with its message handler, its reset and startup.
  - The sum of a scores map and its lemmas.
  - Value-level specifications: `OnMessage` and `ResetOutcome`, against which the methods are proved.
  - The global invariant: the total equals the sum of the scores.
- `mentions.dfy` (`Mentions`): the reply line `<@user>: count`, and a reader proving that a line shows exactly its user and count.
- `uwume.dfy`, `uwulead.dfy`, `uwureset.dfy`: the three command files.
- `interactions.dfy` (`Interactions`): the `interaction_create` dispatch of `src/main.rs`, with its own inline versions of the commands. The leaderboard is listed there with a limit of 10, and the reset argument is extracted differently.

Each handler is one sequential step. The JSON parser is passed in as a function `parse: string -> Option<map<UserId, nat>>`, where `None` stands for a parse error. Saving stores the values themselves: `CountData(n)` or `BoardData(scores)`. A saved value of the wrong kind stands for bytes that do not decode, which makes startup fail as the bot's `unwrap` does.

The code differs from a cleaner design in a few places. The model follows the code in each of them:

- The leaderboard sort is not tie-broken. Users with equal counts may appear in any order, because a hash map has no fixed order. `IsTopListing` admits every such order.
- The limit is 5 in `src/commands/uwulead.rs` and 10 in the inline arm of `src/main.rs`. `SortedTop` takes the limit as a parameter.
- The reset recomputes the total from the new map and ignores the old total.
- The inline reset arm keeps the value of the LAST option named `New Leaderboard`. A non-string value there resets the argument to nothing. `src/commands/uwureset.rs` reads only the FIRST option and requires it to be a string.
- There is no administrator check. The bot's code has it commented out.

## Model

| member | source | states |
|---|---|---|
| Text.ToLower | src/main.rs:160 | the lowered text has the same length, each character lowered, and no upper-case ASCII letter left |
| Text.Contains | src/main.rs:161 | true exactly when the pattern occurs at some position of the text |
| Text.NatToString | src/commands/uwume.rs:9 | the `{}` rendering of a number: at least one character, decimal digits only, no leading zero |
| Text.NatToStringRoundTrip | src/commands/uwume.rs:9 | the decimal text printed for a count reads back as that count |
| Scoreboard.SumRemove | src/main.rs:115-118 | the sum of the counts can be taken starting from any user, so the unspecified iteration order of the map does not matter |
| Scoreboard.SumUpdate | src/main.rs:163-166 | setting one user's count changes the sum by exactly the difference from its old count (0 if absent) |
| Scoreboard.ScoreOf | src/commands/uwume.rs:7 | defines a user's count as its stored count, or 0 for a user not in the map (`unwrap_or(&0)`, and the `or_insert(0)` of src/main.rs:34) |
| Scoreboard.Credited | src/main.rs:33-35 | after `update_score(u, s)` the user is present with its old count (0 if absent) plus `s`; every other user keeps its count and no other key is added |
| Scoreboard.CreditedSum | src/main.rs:163-166 | crediting `s` points to one user raises the sum of all counts by exactly `s` |
| Scoreboard.Leaderboard.constructor | src/main.rs:27-31 | `Leaderboard::new` has no score entries |
| Scoreboard.Leaderboard.FromScores | src/main.rs:192-194 | a leaderboard read from the store holds exactly the saved scores |
| Scoreboard.Leaderboard.UpdateScore | src/main.rs:33-35 | the scores become `Credited(old scores, user, score)` in place |
| Scoreboard.TotalOf | src/commands/uwureset.rs:30-33 | the accumulating loop returns the sum of all counts of the map |
| Scoreboard.PersistInstance.Save | src/main.rs:174-176 | saving replaces the value under the key and keeps every other key |
| Scoreboard.Saved | src/main.rs:173-181 | after saving the total and then the scores, loading gives back exactly that state; other keys are kept |
| Scoreboard.LoadBoard | src/main.rs:192-197 | defines the loaded scores: the saved map, an empty map when the key is missing, an error when the saved value is not a map |
| Scoreboard.LoadCount | src/main.rs:198-203 | defines the loaded total: the saved number, 0 when the key is missing, an error when the saved value is not a number |
| Scoreboard.LoadState | src/main.rs:192-203 | loading fails exactly when a saved value cannot be read as its kind; the scores are the saved ones or empty, the total the saved one or 0 |
| Scoreboard.LoadNothing | src/main.rs:195-203 | with neither key saved, the bot starts with no scores and a total of 0 |
| Scoreboard.Counts | src/main.rs:160-161 | defines when a message counts: its lower-cased text contains "uwu" and its author is not a bot |
| Scoreboard.OnMessage | src/main.rs:161-166 | defines the scoreboard after a message: a counting message adds 1 to the total and credits 1 to its author; any other message leaves it as it was |
| Scoreboard.MessageChangesIffCounts | src/main.rs:160-161 | a message changes the scoreboard if and only if its lower-cased text contains "uwu" and its author is not a bot |
| Scoreboard.MessageCountsOnce | src/main.rs:163-166 | a counting message adds exactly 1 to the total and to its author, however often "uwu" occurs, and no other user changes |
| Scoreboard.MessageKeepsConsistent | src/main.rs:163-166 | if the total equals the sum of the scores before a message, it does after |
| Scoreboard.MessagesKeepConsistent | src/main.rs:159-183 | over any sequence of messages the total grows by the number of counting messages and stays equal to the sum of the scores |
| Scoreboard.ResetReply | src/commands/uwureset.rs:46 | defines the success reply: "New Uwu meeter: " followed by the new total |
| Scoreboard.ResetOutcome | src/commands/uwureset.rs:17-52 | defines the reset on values: without a string argument the state and store are kept with the "must be a string" reply; a string that does not parse keeps them with the parse-error reply; a parsed map becomes the scores, its sum the total, both are saved, and the reply shows the total |
| Scoreboard.ResetFailureChangesNothing | src/commands/uwureset.rs:48-51 | a missing, non-string or unparsable argument leaves scores, total and store as they were; a missing or non-string argument gives the "must be a string" reply, an unparsable one the "Error parsing the leaderboard" reply |
| Scoreboard.ResetSuccess | src/commands/uwureset.rs:25-46 | a successful reset installs exactly the parsed map, whatever the prior state; the total equals its sum; the store loads back this state; the reply shows the new total |
| Scoreboard.Bot.constructor | src/main.rs:215-219 | the bot holds the loaded total, leaderboard and store |
| Scoreboard.Bot.HandleMessage | src/main.rs:159-183 | the new state is `OnMessage(old state, msg)`; a counting message saves both values so the store loads back the in-memory state; any other message changes nothing; total = sum of scores is preserved |
| Scoreboard.Bot.ResetTo | src/main.rs:112-131 | the scores become exactly the new map, the total its sum regardless of the old total, and both are saved |
| Scoreboard.Bot.Reset | src/main.rs:107-142 | the new state, store and reply are those of `ResetOutcome`; without a usable argument nothing changes |
| Scoreboard.Start | src/main.rs:192-219 | startup fails exactly when `LoadState` does; otherwise the bot's total and scores are the loaded ones, in a fresh leaderboard |
| Mentions.MentionLineRoundTrip | src/commands/uwulead.rs:12 | the line `<@user>: count` reads back as exactly that user and count |
| Mentions.MentionLine | src/commands/uwulead.rs:12 | defines the reply line: `<@`, the user, `>: `, the count and a newline (also src/commands/uwume.rs:9, src/main.rs:82 and src/main.rs:91) |
| UwuMe.Run | src/commands/uwume.rs:5-10 | the reply is the caller's line with its stored count, or 0 if absent, and reads back as that user and count |
| UwuLead.RenderSnoc | src/commands/uwulead.rs:11-13 | rendering one more entry appends exactly its line |
| UwuLead.Render | src/commands/uwulead.rs:11-13 | defines the body of the leaderboard reply: the lines of the listed entries, in order |
| UwuLead.Collect | src/commands/uwulead.rs:7 | the collected entries list every user of the map once, each with its exact count |
| UwuLead.IndexOfMax | src/commands/uwulead.rs:8 | the returned position holds a highest count of the unsorted suffix |
| UwuLead.SortByCount | src/commands/uwulead.rs:8 | the array ends sorted by non-increasing count and is a permutation of its old contents |
| UwuLead.PermutationEnumerates | src/commands/uwulead.rs:7-8 | a reordering of the collected entries still lists every user once with its exact count |
| UwuLead.PrefixIsTop | src/commands/uwulead.rs:8-11 | the first `min(limit, users)` entries of the sorted entries form a top listing |
| UwuLead.SortedEntries | src/commands/uwulead.rs:7-8 | a fresh array holding every entry once, sorted by non-increasing count |
| UwuLead.SortedTop | src/commands/uwulead.rs:7-14 | the listed entries are `min(limit, users)` real entries with exact counts, no user twice, non-increasing, none smaller than an unlisted count; the reply is the header followed by one line per listed entry |
| UwuLead.Run | src/commands/uwulead.rs:5-15 | the reply is the header and the lines of some valid top-5 listing; the scoreboard is only read |
| UwuLead.ListsEveryoneWhenFew | src/commands/uwulead.rs:11 | with no more users than the limit, every user is listed |
| UwuLead.TopTwoExample | src/commands/uwulead.rs:8-12 | with scores {42: 5, 99: 2}, the top two are exactly user 42 with 5, then user 99 with 2 |
| UwuReset.Run | src/commands/uwureset.rs:11-53 | with no options, or a first option that is not a string, the reply is the "must be a string" message and nothing changes; otherwise the new state, store and reply are those of `ResetOutcome` on the first option's text |
| Interactions.LastNamed | src/main.rs:99-105 | the argument is present exactly when the last option named "New Leaderboard" holds a string, and is then that string |
| Interactions.FindArgument | src/main.rs:99-105 | the loop over the options returns `LastNamed(options)` |
| Interactions.AsStr | src/main.rs:103 | defines `as_str`: the text of a string value, nothing for a value of any other kind |
| Interactions.MeterReply | src/main.rs:74 | defines the `uwumeeter` reply: "UwU meter: " followed by the total |
| Interactions.InteractionCreate | src/main.rs:71-145 | each known command gives its reply: the meter, a valid top-10 listing, the caller's line, or the reset outcome. Only the reset changes state. An unknown name gives no reply |

## Left out

- Discord plumbing is not modelled: `ready`, command registration, the `register` functions, building and sending responses, and mention suppression. These are calls into the chat library with no logic of their own.
- The Shuttle runtime, secrets, gateway intents and client construction are not modelled. They are startup glue. Only the load-or-default choice is kept, in `Scoreboard.Start`.
- JSON is not modelled. Parsing is the `parse` parameter. Serialising is storing the values themselves. The UTF-8 and JSON `unwrap`s at startup become the `Corrupt` error.
- Persistence failures are not modelled. `save(..).unwrap()` panics on a failed write; here `Save` always succeeds.
- Concurrency is not modelled: the mutex, the atomic counter with relaxed ordering, and the `fetch_add` that happens before the lock is taken. Every handler is one atomic step.
- The debug `println!` of the leaderboard in the message handler is I/O and is left out.
- `src/commands/uwuexport.rs` and `src/commands/uwumeeter.rs` are not part of this model. The first only serialises the map. The second formats the total; its inline twin is the `uwumeeter` arm of `Interactions.InteractionCreate`.
- Text.ToLower: only ASCII letters are lower-cased. Rust's `to_lowercase` also lower-cases other Unicode letters. `ToLower` therefore differs from it on such text. `Counts` does not: no non-ASCII character lower-cases to 'u' or 'w', so the keyword test gives the same answer on every message.
- Interactions.InteractionCreate: `unreachable!` on an unknown command name is modelled as the absence of a reply, not as a panic.
- `usize` arithmetic is modelled as unbounded `nat`, so overflow of a count or of the total is not represented.
- User identifiers are natural numbers printed in decimal, which is how the bot prints them. Their 64-bit bound is not represented.
